# hemp-connect-hub: a Dafny model of the application wizards and the participant directory

This project models the front end of the HEMP mentorship site in Dafny. It covers two parts.

**The application wizards.** The mentee wizard has nine steps and the mentor wizard eight. The form document is a JSON-like value (`Json.Value`). Each step's zod schema is written as data (`Schema.Schema`) and interpreted by `Schema.Conforms`. `Wizard.Application` is a class holding:

- the form store;
- the `localStorage` slot;
- the current step;
- the autosave status;
- the pending autosave timers;
- the validation errors;
- the toasts.

Its methods are the page's handlers:

- validate the current step, Next, Previous, and a click on the stepper;
- restore on mount, autosave on change, and the autosave timer firing;
- Save & Finish Later and Submit;
- the three autofill buttons.

Around the class sit the step pages' list editors and derived fields (`Lists`, `StepForms`), the signature field (`Signature.SignatureField`), the file uploader (`Uploads.FileUploader`), the stepper, the summary steps, the autosave indicator and the Supabase save call (`SaveApplication`).

**The participant directory.** It covers:

- the filter pipeline and its sort, with the sort an in-place insertion sort on an array;
- the filter sidebar;
- the participant card and the profile page;
- the directory pages of both front ends (`DirectoryPages.DirectoryPage`);
- the Redux participant and auth slices, as classes whose reducers update their fields.

Several things outside the program become parameters:

- the current time;
- random ids and random progress steps;
- `localeCompare`, as a rank function;
- the email and URL checks of zod, as oracles in `Schema.Formats`;
- whether the Supabase client exists, and what its insert returns;
- JavaScript's number-to-string conversion.

Some behaviours of the code that are easy to misread:

- Previous and a stepper click call `form.clearErrors()` but leave the page's own list of validation errors as it was. Only a successful Next clears that list.
- Restore reads the field `currentStep` of the saved slot, with `|| 0`, and does no range check. A restored step outside the steps makes the page throw while rendering the stepper's caption (`steps[currentStep].title`, modelled by `Stepper.Caption` giving `None`), so Next, validation and autofill are never reached from such a state; their `InRange()` precondition records this.
- The summary steps do not re-run the step schemas. Each section runs its own presence test on a few fields, and the mentee and mentor pages use different presence tests.
- A required upload slot passes its schema as soon as it holds one item, whether or not the upload has completed.
- A drop onto a full slot raises no rejection:
  - a single-file slot that holds its file has its drop zone disabled, so the drop is ignored and the file stays;
  - the multi-file slot is never disabled: it takes the drop, keeps its old items and cuts the list at `maxFiles`.
- Autosave and restore do not give back the document deep-equal. The snapshot goes through `JSON.stringify` and `JSON.parse`, so a browser `File` comes back as `{}`, keys holding `undefined` disappear and `undefined` array items become `null`. An upload restored after a reload is submitted without a file name, with the generic MIME type and with size 0.
- The signature schema always requires consent and a typed name, even for a drawn signature. It does not check that the name matches the applicant's name; only the field's message does.
- The mentee page's submit sends nothing to the backend: it clears the slot and shows the success toast.
- The mentor page's save counts a skipped save (no client) as a success.
- The payload is `{type, email, data}`. It has no timestamps and no schema version.
- The equity sum above 100% is only a warning, and the step-3 team total is not tied to the sum of the counts. Neither is enforced by a schema.

## Model

The `Text` module holds the stand-ins for the `String.prototype` built-ins the rows below rely on (`trim`, `toLowerCase`/`toUpperCase`, `includes`, `split`, `join`, number-to-decimal). They are helpers and have no rows of their own.

| member | source | states |
|---|---|---|
| Wizard.Slot | src/pages/apply/MenteeApplication.tsx:666 | the mentee wizard saves under 'mentee-application', the mentor wizard under 'mentor-application', and the two slots differ |
| Wizard.SchemasShape | src/pages/apply/MenteeApplication.tsx:619-641 | the mentee wizard has 9 step schemas and the mentor wizard 8; every one is an object schema; the last, the summary's, is the empty object schema |
| Wizard.Defaults | src/pages/apply/MenteeApplication.tsx:651-656 | the default form values of either page are an object |
| Wizard.StepMoves | src/pages/apply/MenteeApplication.tsx:720-747 | Next moves forward by exactly one iff the step validated and is not the last, and otherwise stays; Previous moves back by one iff the step is above 0; a click never moves forward; each keeps the index inside the steps |
| Wizard.NavigationBounds | src/pages/apply/MenteeApplication.tsx:720-747 | from a step inside the range, any sequence of Next/Previous/click events stays inside it, and the wizard is never further than the start plus the number of validated Next presses |
| Wizard.AutosaveRestoreRoundTrip | src/pages/apply/MenteeApplication.tsx:665-703 | restoring the snapshot the autosave wrote gives back the step and the save time, and the form values exactly when they are plain JSON (no file, no `undefined` inside an object or array); a second save and restore changes nothing more |
| Wizard.RestoredDefaultsLoseUndefinedKeys | src/pages/apply/MenteeApplication.tsx:651-656 | the default values do not survive a reload unchanged: the restored `referral` has no `source` key, though reading `referral.source` still gives undefined |
| Json.ReparsedFixesExactlyPlain | src/pages/apply/MenteeApplication.tsx:668 | `JSON.parse(JSON.stringify(v))` equals `v` iff `v` holds no file and no `undefined` inside an object or array |
| Json.ReparsedIdempotent | src/pages/apply/MenteeApplication.tsx:690 | a second JSON round trip changes nothing more |
| Wizard.RestoreHasNoRangeCheck | src/pages/apply/MenteeApplication.tsx:671 | restore takes the saved step as it is (42 and -1 come back unchanged) and reads a missing step as 0 |
| Wizard.FailureDescription | src/pages/apply/MentorApplication.tsx:659 | the failure toast's description is always truthy and is the error's message when that is truthy |
| Wizard.Application.constructor | src/pages/apply/MenteeApplication.tsx:644-662 | a new page starts at step 0 with status idle, no save time, no errors, no toasts and the default form values |
| Wizard.Application.ValidateCurrentStep | src/pages/apply/MenteeApplication.tsx:705-718 | the result is whether the form conforms to the current step's schema; a pass clears the error list; a failure sets it to one record per failing field, tagged with the step; for an object form the list is empty iff the step passes |
| Wizard.Application.Next | src/pages/apply/MenteeApplication.tsx:720-733 | the step advances by one iff it validated and is not the last; a failure leaves the step, sets the errors and adds the validation toast |
| Wizard.Application.Previous | src/pages/apply/MenteeApplication.tsx:735-740 | the step goes down by one iff it is above 0; nothing is validated and the error list is kept |
| Wizard.Application.StepClick | src/pages/apply/MenteeApplication.tsx:742-747 | the step becomes i iff i is not after the current step; nothing is validated |
| Wizard.Application.Restore | src/pages/apply/MenteeApplication.tsx:665-677 | a parsable slot replaces the form values with the values JSON gave back, the step with `currentStep || 0` and the save time; a missing or unparsable slot changes nothing |
| Wizard.Application.Autosave | src/pages/apply/MenteeApplication.tsx:680-703 | a change writes `{formData, currentStep, lastSaved}` to the page's slot, sets status saving and starts one timer; a throwing write leaves the storage alone and sets status error with no timer |
| Wizard.Application.TimerFires | src/pages/apply/MenteeApplication.tsx:692-695 | a timer that fires sets status saved and the save time, and uses up that timer |
| Wizard.Application.SaveAndFinishLater | src/pages/apply/MenteeApplication.tsx:749-755 | only a toast is added |
| Wizard.Application.Submit | src/pages/apply/MenteeApplication.tsx:757-765 | the mentee page always removes its slot and shows the submitted toast, without validating; the mentor page's outcome is `saveApplication` on the form values, handled as `AfterSave` states; no other slot changes |
| Wizard.Application.AfterSave | src/pages/apply/MentorApplication.tsx:648-661 | when the save did not throw, the mentor slot is removed and the submitted toast shown; when it threw, storage is unchanged and a destructive "Save failed" toast carries the error's message |
| Wizard.Application.AutofillThisStep | src/pages/apply/MenteeApplication.tsx:881 | the form becomes the current values with the step's patch spread over them |
| Wizard.Application.AutofillAndNext | src/pages/apply/MenteeApplication.tsx:882 | the step's patch is spread over the form, then Next runs on the patched form |
| Wizard.Application.AutofillAllSteps | src/pages/apply/MenteeApplication.tsx:875-883 | the form becomes the current values with the shallow merge of all step patches spread over them |
| Autofill.Lorem | src/pages/apply/MenteeApplication.tsx:791-792 | `lorem(n)` has n characters, or the whole ten-sentence text when n exceeds it |
| Autofill.MenteeStepPatch | src/pages/apply/MenteeApplication.tsx:794-873 | each mentee step patch (and the `{}` of any other step) is an object |
| Autofill.MentorStepPatch | src/pages/apply/MentorApplication.tsx:689-733 | each mentor step patch (and the `{}` of any other step) is an object |
| Autofill.MenteePatches | src/pages/apply/MenteeApplication.tsx:877 | the loop visits the patches of steps 0 to 7, in order |
| Autofill.MentorPatches | src/pages/apply/MentorApplication.tsx:737 | the loop visits the patches of steps 0 to 6, in order |
| Autofill.ShallowFoldTakesLast | src/pages/apply/MenteeApplication.tsx:877 | the shallow merge is an object whose every top-level key holds the whole value of the last patch that has that key |
| Autofill.ShallowMergeAll | src/pages/apply/MenteeApplication.tsx:876-877 | the accumulating spread loop computes the shallow merge of the patches |
| Autofill.MenteeAllData | src/pages/apply/MenteeApplication.tsx:875-879 | `menteeAllData()` is the form values with the shallow merge of patches 0..7 spread over them |
| Autofill.MentorAllData | src/pages/apply/MentorApplication.tsx:735-739 | `mentorAllData()` is the form values with the shallow merge of patches 0..6 spread over them |
| Autofill.LaterPatchesAvoid | src/pages/apply/MenteeApplication.tsx:815-872 | no mentee patch after step 1 holds a top-level key that step 1's schema reads |
| Autofill.MenteeAllDataCompany | src/pages/apply/MenteeApplication.tsx:797-814 | the all-steps document's `company` is step 1's company object whatever the form held |
| Autofill.MenteeAllDataFailsStep1 | src/pages/apply/MenteeApplication.tsx:875-879 | the all-steps document has no `company.name` and so fails the step-1 schema, whatever the form held |
| Autofill.MenteeStep1NeedsName | src/schemas/menteeSchema.ts:10-11 | a document that passes mentee step 1 has a company name of at least 2 characters |
| Autofill.MentorCompanyOnlyInFirstTwo | src/pages/apply/MentorApplication.tsx:699-729 | among the mentor patches only steps 0 and 1 hold a `company` key |
| Autofill.MentorAllDataCompany | src/pages/apply/MentorApplication.tsx:692-703 | the mentor all-steps document's `company` is step 1's `{type, typeOther, experienceNotes}` |
| Autofill.MentorAllDataFailsStep1 | src/pages/apply/MentorApplication.tsx:735-739 | the mentor all-steps document has no `company.name` and so fails the mentor step-1 schema, whatever the form held |
| Autofill.MentorStep1NeedsName | next-app/schemas/mentorSchema.ts:10-11 | a document that passes mentor step 1 has a company name of at least 2 characters |
| Autofill.DeepMergeAll | src/pages/apply/MenteeApplication.tsx:876-877 | the corrected loop computes the deep merge of the patches |
| Autofill.MenteeAllDataDeep | src/pages/apply/MenteeApplication.tsx:875-879 | the corrected `menteeAllData()` is the form values with the deep merge of patches 0..7 spread over them |
| Autofill.DeepMergeKeepsLeft | src/pages/apply/MenteeApplication.tsx:877 | the deep merge keeps every path of the earlier data that the later patch does not reach |
| Autofill.DeepMergeKeepsRight | src/pages/apply/MenteeApplication.tsx:877 | the deep merge keeps every non-object leaf of the later patch |
| Autofill.MenteeMergedCompanyKeys | src/pages/apply/MenteeApplication.tsx:797-814 | merged deeply, the step-0 and step-1 company objects keep every key the company schema reads |
| Autofill.MenteeApplicantPasses | src/pages/apply/MenteeApplication.tsx:798 | the sample applicant passes the applicant schema, given that the sample e-mail is accepted |
| Autofill.MenteeCompanyPasses | src/pages/apply/MenteeApplication.tsx:799 | the sample step-0 company passes the company schema, given that the sample URL is accepted |
| Autofill.MenteeAddressPasses | src/pages/apply/MenteeApplication.tsx:802 | the sample business address passes the address schema |
| Autofill.MenteeAllDataDeepPassesStep1 | src/pages/apply/MenteeApplication.tsx:875-879 | with the deep merge the all-steps document passes step 1 whatever the form held, given that the sample e-mail and URL are accepted |
| AutosaveIndicator.TimeAgoBands | next-app/components/components/application/AutosaveIndicator.tsx:54-74 | under a minute gives "just now"; then the whole elapsed minutes (1..59) + "m ago"; then the whole hours (1..23) + "h ago"; from a day on, the date |
| AutosaveIndicator.FutureSaveIsJustNow | next-app/components/components/application/AutosaveIndicator.tsx:56-60 | a negative elapsed time reads "just now" |
| AutosaveIndicator.MinutesDistinguished | next-app/components/components/application/AutosaveIndicator.tsx:63-66 | within the minute band, two elapsed times give the same message iff they are the same whole minute |
| AutosaveIndicator.Render | next-app/components/components/application/AutosaveIndicator.tsx:29-44 | idle renders nothing and only idle does; saving shows "Saving..."; error shows "Save failed"; saved shows a check and a message starting "Saved", exactly "Saved" without a save time |
| AutosaveIndicator.FreshSave | next-app/components/components/application/AutosaveIndicator.tsx:34 | a save less than a minute ago shows "Saved just now" |
| AppData.CurrentYears | src/data/applicationData.ts:116-123 | the three years strictly increase, end at the current year and span two years |
| AppData.CompanyTypesOfferOther | src/data/applicationData.ts:1-9 | there are 7 company types and the last is 'Other' |
| AppData.MonthValuesAreLowerLabels | src/data/applicationData.ts:20-33 | there are 12 fiscal months and each value is its label in lower case |
| AppData.MonthValuesDistinct | src/data/applicationData.ts:20-33 | the 12 month values are pairwise different |
| AppData.MatrixOptionValues | src/data/applicationData.ts:54-59 | the matrix option values are exactly S, C, N and NA |
| AppData.EveryPreferenceIsNonEmpty | src/data/applicationData.ts:35-39 | there are 3 meeting preferences and each passes a "required" (minimum 1) check |
| AppData.ChooseMeetingPreference | next-app/pages/apply/steps/mentor/MentorStep3.tsx:115-125 | choosing a radio button stores that preference at `preferences.meetingPreference`, which then meets the step's "Meeting preference is required" rule, and leaves every other path alone |
| AuthSlice.Auth.constructor | src/redux/slice/user/AuthSlice.tsx:27-32 | the initial state has no user, no session, no profile and is not authenticated |
| AuthSlice.Auth.SetUser | src/redux/slice/user/AuthSlice.tsx:45-47 | only the user changes, to the payload |
| AuthSlice.Auth.SetSession | src/redux/slice/user/AuthSlice.tsx:48-50 | only the session changes, to the payload |
| AuthSlice.Auth.Logout | src/redux/slice/user/AuthSlice.tsx:51-54 | user and session become null; the authenticated flag and the profile are kept |
| AuthSlice.Auth.LoginFulfilled | src/redux/slice/user/AuthSlice.tsx:58-63 | user, session and profile come from the payload and the flag becomes true |
| AuthSlice.Auth.LoginRejected | src/redux/slice/user/AuthSlice.tsx:64-68 | user and session become null and the flag false; the profile is kept |
| AuthSlice.LoginThenLogout | src/redux/slice/user/AuthSlice.tsx:51-63 | after a successful login and a logout the slice still says it is authenticated, with no user and no session and the login's profile |
| ParticipantSlice.FetchedMentor | src/redux/slice/participant/participantSlice.ts:79-81 | the mentor record is null iff there is no payload (or its first element is null); an empty array gives undefined; otherwise it is the first element |
| ParticipantSlice.RejectionMessage | src/redux/slice/participant/participantSlice.ts:83 | the message is never empty: the error's message when it has one, "Failed to fetch mentor data" otherwise |
| ParticipantSlice.Slice.constructor | src/redux/slice/participant/participantSlice.ts:22-33 | no participants, empty filters, not loading, no error, total 0, page 1, limit 10, no next or previous page, no mentor record |
| ParticipantSlice.Slice.SetParticipants | src/redux/slice/participant/participantSlice.ts:46-48 | only the participants change |
| ParticipantSlice.Slice.SetFilters | src/redux/slice/participant/participantSlice.ts:49-51 | only the filters change |
| ParticipantSlice.Slice.SetLoading | src/redux/slice/participant/participantSlice.ts:52-54 | only the loading flag changes |
| ParticipantSlice.Slice.SetError | src/redux/slice/participant/participantSlice.ts:55-57 | only the error changes |
| ParticipantSlice.Slice.SetPagination | src/redux/slice/participant/participantSlice.ts:58-73 | the five paging fields are copied from the payload and nothing else changes |
| ParticipantSlice.Slice.ResetFilters | src/redux/slice/participant/participantSlice.ts:74-76 | only the filters change, to the empty record |
| ParticipantSlice.Slice.FetchFulfilled | src/redux/slice/participant/participantSlice.ts:79-81 | only the mentor record changes, as `FetchedMentor` states |
| ParticipantSlice.Slice.FetchRejected | src/redux/slice/participant/participantSlice.ts:82-85 | the error becomes the rejection message and the mentor record null; nothing else changes |
| DirectoryPages.RoleFromPath | src/pages/Participants.tsx:22-32 | the role is one of the five tab values; a path containing '/mentees' gives 'mentee'; the role is 'all' iff the path contains none of the four role segments |
| DirectoryPages.AllTabRoundTrip | src/pages/Participants.tsx:69-71 | the 'all' tab's link '/participants' leads the path effect back to 'all' |
| DirectoryPages.RoleTabRoundTrip | src/pages/Participants.tsx:72-74 | a role tab's link '/participants/{role}s' leads the path effect back to that role |
| DirectoryPages.TabPathRoundTrip | src/pages/Participants.tsx:22-32 | following any tab's link brings the path effect back to the same tab |
| DirectoryPages.DirectoryPage.constructor | src/pages/Participants.tsx:16-19 | both pages start with `{role: 'all', sort: 'name'}` |
| DirectoryPages.DirectoryPage.OnPathChange | src/pages/Participants.tsx:22-32 | the path effect sets the role derived from the path and no other filter |
| DirectoryPages.DirectoryPage.TabChange | src/pages/Participants.tsx:60-75 | on the older page the filters become `{q: '', role, sort: 'name'}`; on the newer page only the role changes; both navigate to the tab's path |
| DirectoryPages.DirectoryPage.SetFilters | src/pages/Participants.tsx:16 | the sidebar's change replaces the filters and does not navigate |
| DirectoryPages.DirectoryPage.UpdateFilterOnPage | src/pages/Participants.tsx:40-42 | the page's `updateFilter` changes the one key it names |
| DirectoryPages.DirectoryPage.ToggleArrayFilterOnPage | src/pages/Participants.tsx:44-52 | the page's `toggleArrayFilter` has the sidebar's toggle semantics |
| DirectoryPages.TabClickSettles | next-app/pages/Participants.tsx:20-50 | after a tab click the path effect it triggers leaves the filters as the click set them, on either page |
| DirectoryPages.StaleAvailabilityAfterTab | next-app/pages/Participants.tsx:41-42 | on the newer page an availability filter kept across a tab click other than 'mentor' still counts as active but no longer changes which participants match |
| DirectoryPages.PageActiveCount | src/pages/Participants.tsx:77-85 | the page's count is the sidebar's count minus one exactly when the search is set but blank once trimmed |
| DirectoryPages.BlankSearchCountsDiffer | src/pages/Participants.tsx:79 | a search of one blank counts 1 in the sidebar and 0 on the page |
| DirectoryPages.RoleCount | src/pages/Participants.tsx:55-58 | a role's count is at most the number of participants |
| DirectoryPages.RoleCountsSum | src/pages/Participants.tsx:55-58 | the four role counts add up to the number of participants |
| DirectoryPages.RoleCountIsTabSize | src/pages/Participants.tsx:55-67 | on the older page, the count shown on a role tab equals the number of participants the tab then lists |
| DirectoryPages.HeadingsAgreeOnTabs | next-app/pages/Participants.tsx:116-119 | on each of the five tab values the older page's capitalised heading and the newer page's fixed heading are the same |
| DirectoryPages.CountNoteThreshold | next-app/pages/Participants.tsx:146-152 | the "Showing n of N" note appears iff there are at least 12 results |
| Lists.RemoveAt | src/pages/apply/steps/mentee/MenteeStep5.tsx:32 | filtering out index i removes exactly the element at i and keeps the others in order; an index outside the list leaves it unchanged |
| Lists.Without | next-app/pages/apply/steps/mentor/MentorStep1.tsx:116 | filtering out a value leaves no copy of it, keeps exactly the other elements, never lengthens the list, and leaves a list without the value unchanged |
| Lists.WithoutConcat | next-app/pages/apply/steps/mentor/MentorStep1.tsx:116 | filtering the concatenation of two lists is the concatenation of the filtered lists, so the kept elements keep their order |
| Lists.WithoutCounts | next-app/pages/apply/steps/mentor/MentorStep1.tsx:116 | filtering out a value keeps the count of every other value and drops every copy of that one |
| Lists.AppendThenWithout | next-app/pages/apply/steps/mentor/MentorStep1.tsx:113-117 | appending an absent value and then filtering it out gives back the list |
| Lists.Render | src/components/application/RepeatableList.tsx:28-62 | the add button is rendered iff the length is below `maxItems`; when the length is above `minItems` every item has a remove button passing its own index, and otherwise no item has one |
| Lists.ControlsKeepBounds | src/components/application/RepeatableList.tsx:28-62 | from a length within the bounds, the add button and every rendered remove button leave the length within the bounds, and a remove button removes exactly the item it sits on |
| Lists.AddMistakesCapped | src/pages/apply/steps/mentee/MenteeStep5.tsx:23-28 | any number of Add presses keeps the existing items, appends empty mistakes and stops at 3; a list of 3 or more is left as it is |
| Lists.ThreePressesFill | src/pages/apply/steps/mentee/MenteeStep5.tsx:23-28 | from the empty list, n presses give min(n, 3) mistakes, and 3 or more presses give exactly three empty mistakes |
| Lists.MistakeControls | src/pages/apply/steps/mentee/MenteeStep5.tsx:204-212 | with bounds [3, 3], no list reached from at most 3 items by Add shows a remove button, and Add is shown iff the length is below 3 |
| Lists.RemoveMistakeSpec | src/pages/apply/steps/mentee/MenteeStep5.tsx:30-34 | removing a mistake removes exactly index i, and an out-of-range index leaves the list unchanged |
| Lists.MatrixChange | src/pages/apply/steps/mentee/MenteeStep5.tsx:85-91 | the new matrix maps the category to the value and every other key to what the old matrix (or `{}`) held, with the old keys plus the category |
| Lists.TotalEquityConcat | next-app/pages/apply/steps/mentee/MenteeStep2.tsx:89 | the equity total over two lists end to end is the sum of their totals |
| Lists.AddOwnerKeepsTotal | next-app/pages/apply/steps/mentee/MenteeStep2.tsx:25-28 | adding an owner leaves the equity total as it was |
| Lists.RemoveOwnerTotal | next-app/pages/apply/steps/mentee/MenteeStep2.tsx:30-32 | removing owner i lowers the total by exactly that owner's equity |
| Lists.EquityWarningSpec | next-app/pages/apply/steps/mentee/MenteeStep2.tsx:210-219 | the "cannot exceed 100%" note shows iff the total exceeds 100, and never with at most one owner whose equity lies in [0, 100] |
| Lists.ReferenceNumber | next-app/pages/apply/steps/mentor/MentorStep5.tsx:32 | the reference heading number is the index plus one, so at least 1 |
| Lists.CheckboxChange | next-app/pages/apply/steps/mentor/MentorStep1.tsx:111-117 | after the change the box for x is checked iff it was ticked, every other box keeps its state, and ticking appends x after the old entries |
| Lists.CheckThenUncheck | next-app/pages/apply/steps/mentor/MentorStep3.tsx:36-41 | ticking a clear box and clearing it again gives back the list |
| Lists.UncheckKeepsOthers | next-app/pages/apply/steps/mentor/MentorStep3.tsx:40-41 | clearing a box keeps every other entry with its count |
| StepForms.AddMistakeClicked | src/pages/apply/steps/mentee/MenteeStep5.tsx:23-28 | below 3 mistakes the list with one empty mistake appended is written at `narratives.mistakes`; at 3 or more the form is unchanged |
| StepForms.RemoveMistakeClicked | src/pages/apply/steps/mentee/MenteeStep5.tsx:30-34 | on a non-empty list the list without index i is written back; on an empty list the form is unchanged |
| StepForms.MatrixChanged | src/pages/apply/steps/mentee/MenteeStep5.tsx:85-91 | the changed matrix is written at `strengths.matrix` and every path apart from it is unchanged |
| StepForms.AddOwnerClicked | next-app/pages/apply/steps/mentee/MenteeStep2.tsx:25-28 | the owners with an empty owner appended are written at `company.ownership`, with no length guard |
| StepForms.RemoveOwnerClicked | next-app/pages/apply/steps/mentee/MenteeStep2.tsx:30-32 | the owners without index i are written at `company.ownership` |
| StepForms.EquityWarningDoesNotBlock | next-app/pages/apply/steps/mentee/MenteeStep2.tsx:210-219 | two owners of 60% each show the warning and still pass the step-2 schema |
| StepForms.ReferencePathsDiverge | next-app/pages/apply/steps/mentee/MenteeStep6.tsx:23-48 | the paths of two different reference lists part ways |
| StepForms.AddReferenceClicked | next-app/pages/apply/steps/mentee/MenteeStep6.tsx:23-44 | the list with an empty reference appended is written to that list's path only; the other two lists are unchanged; there is no bound check |
| StepForms.RemoveReferenceClicked | next-app/pages/apply/steps/mentee/MenteeStep6.tsx:28-48 | the list without index i is written to that list's path only; the other two lists are unchanged |
| StepForms.WithTeamTotalSets | next-app/pages/apply/steps/mentee/MenteeStep3.tsx:17-25 | after the effect `team.total` holds the sum of the three counts (falsy read as 0) |
| StepForms.WithTeamTotalKeepsSum | next-app/pages/apply/steps/mentee/MenteeStep3.tsx:17-25 | the effect leaves the sum of the counts unchanged |
| StepForms.WithTeamTotalFrame | next-app/pages/apply/steps/mentee/MenteeStep3.tsx:23-25 | the effect leaves every path that parts ways with `team.total` unchanged |
| StepForms.TeamTotalEffect | next-app/pages/apply/steps/mentee/MenteeStep3.tsx:23-25 | the effect writes the sum at `team.total` |
| StepForms.TeamTotalIdempotent | next-app/pages/apply/steps/mentee/MenteeStep3.tsx:23-25 | running the effect a second time changes nothing |
| StepForms.TeamEffectCompletesSection | next-app/pages/apply/steps/mentee/MenteeStep3.tsx:23-25 | after the effect the mentee summary's Team section is valid, whatever the counts |
| StepForms.TeamEffectPassesStep3 | next-app/pages/apply/steps/mentee/MenteeStep3.tsx:17-25 | for non-negative counts the effect sets the total to their sum, and the result passes the step-3 schema |
| StepForms.TeamEffectSetsSum | next-app/pages/apply/steps/mentor/MentorStep2.tsx:20-28 | the effect replaces the team's total by the sum of its counts and changes nothing else |
| StepForms.CheckboxClicked | next-app/pages/apply/steps/mentor/MentorStep1.tsx:111-117 | the changed list is written at the checkbox's path; afterwards the box for x is checked iff ticked, and every other box keeps its state |
| Schema.StepErrorsSound | src/pages/apply/MenteeApplication.tsx:705-718 | every error listed for a step names a field of that step's schema that fails, carries the current step, and carries that field's own message or "Invalid field" |
| Schema.StepErrorsComplete | src/pages/apply/MenteeApplication.tsx:705-718 | every failing field of the step has an error listed under its name |
| Schema.StepErrorsEmptyIffValid | src/pages/apply/MenteeApplication.tsx:705-718 | the error list is empty iff the document passes the step schema |
| Schema.SameKeysSameVerdict | src/schemas/menteeSchema.ts:3 | an object schema looks only at its own keys: two objects that agree on them get the same verdict |
| Schema.EmptyObjectAcceptsEveryObject | src/pages/apply/MenteeApplication.tsx:640 | the summary step's empty object schema accepts every object |
| MenteeSchema.Step1Demands | src/schemas/menteeSchema.ts:3-32 | a document passing step 1 has first and last names, title and company name of at least 2 characters, an email the email check accepts, business and mobile phones of at least 10 characters, a postal code of at least 5, at least one industry, and a website that is absent, empty or a URL |
| MenteeSchema.WebsiteValueMeans | src/schemas/menteeSchema.ts:15 | the website passes iff it is absent, the empty string, or a string the URL check accepts |
| MenteeSchema.Step2OwnershipDemands | src/schemas/menteeSchema.ts:40-44 | a document passing step 2 has at least one owner and every owner's equity is a number in [0, 100] |
| MenteeSchema.EquitySumUnchecked | src/schemas/menteeSchema.ts:40-44 | the owners' equities are bounded one by one, not in sum: a step-2 document with two owners of 60% each passes |
| MenteeSchema.OwnerPasses | src/schemas/menteeSchema.ts:40-44 | an owner with a non-empty name and title and an equity in [0, 100] passes the owner schema |
| MenteeSchema.Step2DocPasses | src/schemas/menteeSchema.ts:34-51 | a step-2 document with at least one owner, every owner passing, passes step 2 |
| MenteeSchema.Step3Means | src/schemas/menteeSchema.ts:53-60 | a team passes step 3 iff its three counts and its total are non-negative; the total is not tied to the sum |
| MenteeSchema.TeamMeans | src/schemas/menteeSchema.ts:54-59 | a team object passes iff full-time, part-time, contractors and total are all non-negative numbers |
| MenteeSchema.Step4Ranges | src/schemas/menteeSchema.ts:62-77 | a document passing step 4 has, for every year, revenue and profit growth in [-100, 1000] and equity in [0, 100], and a largest-customer share in [0, 100] |
| MenteeSchema.MistakesMeans | src/schemas/menteeSchema.ts:88-91 | the mistakes list passes iff it has exactly three entries, each with what-happened and lesson texts of 50 to 500 characters |
| MenteeSchema.Step5Demands | src/schemas/menteeSchema.ts:79-94 | a document passing step 5 has success and help-areas texts of 100 to 1000 characters, a why-HEMP text of 150 to 800, and exactly three mistakes |
| MenteeSchema.ReferenceListMeans | src/schemas/menteeSchema.ts:116-133 | a reference list passes iff it has at least the minimum number of entries and every entry passes; there is no maximum |
| MenteeSchema.Step6Demands | src/schemas/menteeSchema.ts:96-135 | a document passing step 6 has at least two business, two customer and two supplier references |
| MenteeSchema.OneBusinessReferenceFails | src/schemas/menteeSchema.ts:121 | a document with a single business reference fails step 6, whatever else it holds |
| MenteeSchema.RequiredFilesMeans | src/schemas/menteeSchema.ts:139 | a required upload slot passes iff it is an array of at least one item; the items themselves are not checked |
| MenteeSchema.Step7Demands | src/schemas/menteeSchema.ts:137-148 | a document passing step 7 holds at least one file in each of the seven required slots; the headshot may be absent |
| MenteeSchema.SignatureMeans | src/schemas/menteeSchema.ts:150-159 | the signature passes iff it has a typed name of at least one character, consent exactly true, method 'typed' or 'drawn', a string timestamp, and drawn and ip absent or strings |
| MenteeSchema.SignedStepPasses | src/schemas/menteeSchema.ts:150-159 | a consenting typed signature with a name and a timestamp, and no drawing or ip, passes step 8 |
| MenteeSchema.DrawnWithoutConsentFails | src/schemas/menteeSchema.ts:153 | step 8 demands consent whichever method is chosen: a drawn signature without consent fails |
| MenteeSchema.SummaryStepAlwaysValid | src/pages/apply/MenteeApplication.tsx:631-641 | the mentee wizard has nine schemas and the summary's, the last, accepts every object |
| MentorSchema.Step1Demands | next-app/schemas/mentorSchema.ts:3-40 | a document passing step 1 has a person with names and title of at least 2 characters and a valid email, a company name of at least 2 with at least one industry, both phones of at least 10 characters, a business address with street, city, state and country of at least 1 character and a postal code of at least 5, and a referral source of at least 1 |
| MentorSchema.HomeAddressOptional | next-app/schemas/mentorSchema.ts:19-36 | the home address may be left out: with a valid business part, an address with no home part passes, and so does one with an empty home object |
| MentorSchema.AddressParts | next-app/schemas/mentorSchema.ts:19-36 | an address whose business and home parts pass passes the address schema |
| MentorSchema.Step2Demands | next-app/schemas/mentorSchema.ts:42-57 | a document passing step 2 has non-negative years of leadership, non-negative team counts and total, and a company type of at least 1 character |
| MentorSchema.TeamDemands | next-app/schemas/mentorSchema.ts:46-51 | a passing team has non-negative counts and a non-negative total |
| MentorSchema.TotalNotTiedToSum | next-app/schemas/mentorSchema.ts:46-51 | a team whose total differs from the sum of its counts still passes |
| MentorSchema.TeamPasses | next-app/schemas/mentorSchema.ts:46-51 | three non-negative counts and a non-negative total pass the team schema |
| MentorSchema.Step3Demands | next-app/schemas/mentorSchema.ts:59-68 | a document passing step 3 has at least one expertise area, a meeting preference, hours per month in [0, 40] and a mentee capacity in [0, 10] |
| MentorSchema.PreferenceBoundsInclusive | next-app/schemas/mentorSchema.ts:62-64 | the bounds are inclusive: 40 hours and 10 mentees pass |
| MentorSchema.Step4Demands | next-app/schemas/mentorSchema.ts:70-83 | a document passing step 4 has exactly three mistakes, success and help-areas texts of 100 to 1000 characters and a why-HEMP text of 150 to 800 |
| MentorSchema.Step5Means | next-app/schemas/mentorSchema.ts:85-94 | the business references pass iff there are at least three valid entries; no maximum |
| MentorSchema.Step6Means | next-app/schemas/mentorSchema.ts:96-102 | a document passing step 6 holds at least one bio file; headshot and additional documents may be absent |
| MentorSchema.BioOnlyMeans | next-app/schemas/mentorSchema.ts:96-102 | an uploads object holding only a bio passes iff the bio holds at least one item |
| MentorSchema.SignatureRuleShared | next-app/schemas/mentorSchema.ts:104-113 | the mentor signature step applies the same rule as the mentee's step 8 |
| MentorSchema.SummaryStepAlwaysValid | src/pages/apply/MentorApplication.tsx:523-532 | the mentor wizard has eight schemas and the summary's, the last, accepts every object |
| Stepper.ViewOf | src/components/application/Stepper.tsx:52-54 | a step is drawn completed iff it lies before the current step, current iff it is the current step, never both, and clickable iff a handler is given and the step is completed or current |
| Stepper.Counts | src/components/application/Stepper.tsx:51-54 | with the current step within range, exactly `currentStep` circles are completed and exactly one is current; past the end none is current |
| Stepper.ClickableMovesWizard | src/components/application/Stepper.tsx:54-69 | a click on a clickable circle moves the wizard exactly to that step, and a step the stepper does not make clickable is one the wizard's click handler would ignore |
| Stepper.ProgressEndpoints | src/components/application/Stepper.tsx:26 | the progress line is 0% on the first step and 100% on the last, lies within [0, 100] in between, and is an infinite width (division by zero) with a single step past the first |
| Stepper.ProgressMonotone | src/components/application/Stepper.tsx:26 | the progress width never shrinks as the step grows |
| Stepper.Caption | src/components/application/Stepper.tsx:111 | the caption exists iff the current step is within range, and then starts with `Step {currentStep + 1} of {steps.length}` |
| Stepper.CaptionsDiffer | src/components/application/Stepper.tsx:111 | two different steps get different captions, whatever their titles |
| Summary.DottedLookup | src/pages/apply/steps/mentee/MenteeSummary.tsx:22 | splitting a dotted field name on dots and walking the keys reaches exactly the value at that path |
| Summary.LookupMissing | src/pages/apply/steps/mentee/MenteeSummary.tsx:22 | a walk that meets `undefined` part of the way yields `undefined`, thanks to optional chaining |
| Summary.PresenceCompared | src/pages/apply/steps/mentee/MenteeSummary.tsx:18-26 | the mentee and mentor presence tests agree on undefined, null, the empty string, numbers and booleans (0 and false count as present); whatever the mentee test accepts the mentor test accepts; they differ exactly on blank strings, empty arrays, empty objects and files (a file has no own keys) |
| Summary.ValidateTwo | next-app/pages/apply/steps/mentor/MentorSummary.tsx:18-23 | a section with two required fields is complete iff both are present |
| Summary.InvalidSectionsSpec | src/pages/apply/steps/mentee/MenteeSummary.tsx:97-98 | the incomplete list holds exactly the failing sections, is empty iff every section is valid, and is no longer than the section list |
| Summary.InvalidSectionsOrdered | next-app/pages/apply/steps/mentor/MentorSummary.tsx:84-85 | the incomplete sections keep the step order of the section list |
| Summary.SectionsShape | src/pages/apply/steps/mentee/MenteeSummary.tsx:29-95 | the mentee summary has eight sections and the mentor summary seven, both numbered by strictly increasing steps |
| Summary.MenteeTeamSection | src/pages/apply/steps/mentee/MenteeSummary.tsx:50-55 | the mentee Team section is complete iff `team.total` is present, so a total of 0 completes it |
| Summary.MenteeSectionAt | src/pages/apply/steps/mentee/MenteeSummary.tsx:29-95 | the i-th mentee section is complete iff its own test passes |
| Summary.MenteeReferencesSection | src/pages/apply/steps/mentee/MenteeSummary.tsx:75-82 | the mentee References section is complete iff the accountant's and the attorney's names are present; the reference lists are not looked at |
| Summary.BlankNameIncomplete | src/pages/apply/steps/mentee/MenteeSummary.tsx:18 | an accountant name of two blanks, which the step-6 schema accepts, leaves the References section incomplete |
| Summary.UploadAndSignatureSections | src/pages/apply/steps/mentee/MenteeSummary.tsx:84-94 | the mentee Uploads section checks the cover letter alone and the mentor's the bio alone; both Signature sections are the same test, a truthy consent and typed name |
| Summary.SignatureSchemaCompletesSection | src/pages/apply/steps/mentee/MenteeSummary.tsx:89-94 | a document passing the mentee step-8 schema has a complete Signature section |
| Summary.MentorListSections | next-app/pages/apply/steps/mentor/MentorSummary.tsx:46-69 | the mentor References section is complete iff there are at least three business references; an empty expertise list leaves Mentor Preferences incomplete although the presence test accepts `[]` |
| Summary.Badges | next-app/pages/apply/steps/mentor/MentorSummary.tsx:189-198 | the badge row shows a prefix of at most `limit` items, adds "+k more" iff there are more, and the shown items plus k account for every item |
| Signature.UpdateSignature | next-app/components/components/application/SignatureField.tsx:59-68 | the new record has typedName, consent, method and timestamp plus exactly the updated keys; an update wins; otherwise the name and consent fall back to the current value or "" and false, the method is the tab's and the time is now; drawn and ip are not carried over |
| Signature.Stamp | next-app/pages/apply/steps/mentee/MenteeStep8.tsx:18-24 | the stored signature keeps every field of the record except the timestamp, which is set to now, and the ip, which is set to 127.0.0.1 |
| Signature.RequiredNameOfNothing | next-app/pages/apply/steps/mentee/MenteeStep8.tsx:16 | with both names missing or blank the required name is empty |
| Signature.RequiredNameJoins | next-app/pages/apply/steps/mentee/MenteeStep8.tsx:16 | two non-empty names without outer blanks are joined by a single space |
| Signature.TypedValidBasics | next-app/components/components/application/SignatureField.tsx:143-144 | with no required name a typed name is valid iff it is non-empty and no mismatch shows; the exact required name is always valid; the mismatch message shows iff a name is required and typed but does not match |
| Signature.TypedValidIgnoresCase | next-app/components/components/application/SignatureField.tsx:144 | typing the name in capitals gives the same verdict |
| Signature.TypedValidIgnoresLeadingBlank | next-app/components/components/application/SignatureField.tsx:144 | a leading blank gives the same verdict |
| Signature.MismatchStillPassesSchema | next-app/components/components/application/SignatureField.tsx:175-179 | a consenting signature whose typed name differs from the required name passes the step-8 schema while the field shows the mismatch message |
| Signature.SomeoneElseMismatch | next-app/components/components/application/SignatureField.tsx:175-179 | "Someone Else" does not match the required name "Jane Doe" |
| Signature.SignatureField.constructor | next-app/components/components/application/SignatureField.tsx:40-42 | the tab starts as 'drawn' iff the stored method is 'drawn', else 'typed'; nothing is being drawn and nothing has been drawn |
| Signature.SignatureField.Emit | next-app/components/components/application/SignatureField.tsx:59-68 | the form's signature becomes the stamped update of the current record, and every other path of the form is unchanged |
| Signature.SignatureField.TypeName | next-app/components/components/application/SignatureField.tsx:169 | typing records the text as typedName with method 'typed', keeps the consent, drops the drawing and sets the ip |
| Signature.SignatureField.ToggleConsent | next-app/components/components/application/SignatureField.tsx:244 | the consent becomes exactly the box's state, the name is kept, the method is the tab's, and a saved drawing is dropped |
| Signature.SignatureField.SelectTab | next-app/components/components/application/SignatureField.tsx:155 | choosing a tab changes only the field's method state, not the record |
| Signature.SignatureField.StartDrawing | next-app/components/components/application/SignatureField.tsx:70-73 | pressing the pen starts drawing and changes nothing else |
| Signature.SignatureField.StopDrawing | next-app/components/components/application/SignatureField.tsx:75-81 | releasing the pen after drawing saves the drawing with method 'drawn'; releasing it without drawing changes nothing |
| Signature.SignatureField.SaveDrawing | next-app/components/components/application/SignatureField.tsx:125-131 | the record holds the data URL as drawn with method 'drawn', and the field has drawn |
| Signature.SignatureField.ClearCanvas | next-app/components/components/application/SignatureField.tsx:113-123 | the field has not drawn, the record's drawing is undefined, and the typed name is kept |
| Signature.NameTyped | next-app/components/components/application/SignatureField.tsx:169 | the update from typing sets the name and method 'typed' and keeps the consent |
| Signature.CanvasCleared | next-app/components/components/application/SignatureField.tsx:113-123 | the update from Clear drops the drawing and keeps the typed name |
| Signature.DrawingSaved | next-app/components/components/application/SignatureField.tsx:125-131 | the update from saving puts the data URL in the record with method 'drawn' |
| Signature.UpdateDropsDrawing | next-app/components/components/application/SignatureField.tsx:59-68 | any update that does not set drawn leaves the stored record without a drawing, so ticking consent after drawing loses it; the ip is always put back |
| Uploads.SliceTo | src/components/application/FileUploader.tsx:68 | `slice(0, end)` returns a prefix of the list, of length min(end, n) for end >= 0 and counted from the back for a negative end |
| Uploads.NewItems | src/components/application/FileUploader.tsx:60-65 | one new item per accepted file, in order, with its id, progress 0 and status 'uploading' |
| Uploads.Dropped | src/components/application/FileUploader.tsx:67-68 | the stored list is a prefix of old items followed by new ones in multiple mode, and of the new items alone in single mode, and never longer than maxFiles |
| Uploads.DropKeepsExisting | src/components/application/FileUploader.tsx:67-68 | in multiple mode a full list ignores the drop, and otherwise the old items stay and the new ones fill the room left below maxFiles |
| Uploads.DropReplacesInSingleMode | src/components/application/FileUploader.tsx:67-68 | in single mode with maxFiles 1 a drop replaces the list by its first new item |
| Uploads.RemoveById | src/components/application/FileUploader.tsx:111-115 | the list keeps exactly the items with another id, is no longer, and is unchanged when no item has that id |
| Uploads.RemoveByIdTwice | src/components/application/FileUploader.tsx:111-115 | removing the same id twice is removing it once, and removals of two ids commute |
| Uploads.Advance | src/components/application/FileUploader.tsx:76-79 | a tick never lowers the progress, caps it at 100, and reaches 100 iff the sum does |
| Uploads.WithProgress | src/components/application/FileUploader.tsx:89-95 | the items with the timer's id take the new progress and every other item is unchanged |
| Uploads.WithCompleted | src/components/application/FileUploader.tsx:81-87 | the items with the timer's id become completed at 100 with their URL and every other item is unchanged |
| Uploads.NothingErrs | src/components/application/FileUploader.tsx:59-115 | no drop, tick or removal ever puts an item in the error state |
| Uploads.SerializedItem | src/lib/saveApplication.ts:12-19 | on submission an uploader item becomes its file's name, MIME type (an empty type becoming 'application/octet-stream'), size and upload status; id, progress and url are dropped |
| Uploads.RestoredItemLosesFile | src/lib/saveApplication.ts:12-19 | an item restored from the autosave slot, whose file JSON turned into `{}`, is submitted with an undefined file name, MIME type 'application/octet-stream', size 0 and its status |
| Uploads.HandleFileChange | src/pages/apply/steps/mentee/MenteeStep7.tsx:15-17 | the slot `uploads.<key>` holds the reported files and every path that parts ways with it is unchanged |
| Uploads.UploadingSlotPasses | src/schemas/menteeSchema.ts:139 | a slot holding at least one item passes its required-files rule even while every item is still uploading |
| Uploads.DroppedFrom | src/components/application/FileUploader.tsx:67-68 | a drop lists nothing but old and new items |
| Uploads.DropKeepsSynced | src/components/application/FileUploader.tsx:59-98 | with fresh ids, the running timers plus one new timer per new item at 0 stay in step with the stored list |
| Uploads.ProgressKeepsSynced | src/components/application/FileUploader.tsx:88-95 | a tick below 100 raises its items to the new progress, keeps the timers in step, and lowers no item's progress |
| Uploads.StopTimer | src/components/application/FileUploader.tsx:79 | stopping one timer leaves the others with distinct ids, none equal to the stopped one |
| Uploads.CompleteKeepsSynced | src/components/application/FileUploader.tsx:77-87 | the last tick completes its items and stops its timer; the remaining timers stay in step and no progress falls |
| Uploads.RemoveKeepsSynced | src/components/application/FileUploader.tsx:111-115 | removing items leaves every running timer in step with the list |
| Uploads.FileUploader.constructor | src/components/application/FileUploader.tsx:50-57 | the list starts as the value passed in and no timer runs |
| Uploads.FileUploader.OnDrop | src/components/application/FileUploader.tsx:59-108 | a disabled drop zone (a single-file slot already holding maxFiles items) ignores the drop and changes nothing; otherwise the stored list is the capped drop, one timer starts per new item (also for items cut off by maxFiles) and the form slot receives the list; either way the timers stay in step and no error appears |
| Uploads.FileUploader.Tick | src/components/application/FileUploader.tsx:75-97 | one tick either completes the timer's items and stops it or raises their progress; the timers stay in step, no progress falls, and the form is not told |
| Uploads.FileUploader.RemoveFile | src/components/application/FileUploader.tsx:111-115 | the list loses exactly that id, the form slot receives the new list, and the timers run on |
| Uploads.RequiredKeys | src/pages/apply/steps/mentee/MenteeStep7.tsx:26-138 | the set holds exactly the keys of the slots marked required |
| Uploads.MenteeSlotsMatchSchema | src/pages/apply/steps/mentee/MenteeStep7.tsx:26-138 | the slots marked required on mentee step 7 are exactly the seven the step-7 schema requires, and every slot takes a single file |
| Uploads.MentorSlotsShape | next-app/pages/apply/steps/mentor/MentorStep6.tsx:26-71 | mentor step 6 requires the bio only, only the additional documents take several files, and they take at most five |
| Uploads.SingleSlotFullAfterDrop | src/components/application/FileUploader.tsx:108 | a drop of at least one file fills any single-file slot of either step, which disables its drop zone |
| Uploads.SlotDisabledIffFull | src/components/application/FileUploader.tsx:108 | the drop zone of a slot of either step is disabled iff the slot takes a single file and already holds one; the multi-file slot is never disabled |
| SaveApplication.SerializeSlot | src/lib/saveApplication.ts:9-21 | a slot becomes an array as long as the slot's array (empty when it is not one), each item serialised in place |
| SaveApplication.SerializeUploadsLoop | src/lib/saveApplication.ts:5-24 | the loop over the slots builds exactly the serialised uploads |
| SaveApplication.SerializeUploadsShape | src/lib/saveApplication.ts:5-24 | a falsy or non-object value passes through unchanged; an object keeps exactly its keys, each slot becoming an array as long as the slot's array or empty |
| SaveApplication.SerializeItemCases | src/lib/saveApplication.ts:11-20 | a string item becomes {filename}, an item with a file becomes {filename, mime, size, status} with the defaults 'application/octet-stream', 0 and 'completed', and null or undefined becomes {filename: ""} |
| SaveApplication.ArrEntriesAt | src/lib/saveApplication.ts:8 | the entries of an array put item i under the key String(i) |
| SaveApplication.ArrEntriesKeys | src/lib/saveApplication.ts:8 | every key of an array's entries is String(i) for an index i |
| SaveApplication.PayloadEmail | src/lib/saveApplication.ts:33 | the payload email is a truthy value or null |
| SaveApplication.PayloadEmailChoice | src/lib/saveApplication.ts:33 | the applicant's email wins when truthy, else the person's when truthy, else null |
| SaveApplication.MakePayload | src/lib/saveApplication.ts:35-39 | the payload carries the type and the chosen email, and its data equals the values on every key except uploads, which is the serialised uploads |
| SaveApplication.Save | src/lib/saveApplication.ts:26-59 | without a client the save is skipped; otherwise the payload is inserted, and the insert's error is thrown when it is truthy, the result being ok otherwise |
| ParticipantCard.FirstChar | src/components/participants/ParticipantCard.tsx:15 | `charAt(0)` is the first character of a non-empty string and "" for the empty one |
| ParticipantCard.Initials | src/components/participants/ParticipantCard.tsx:14-16 | the initials hold one character per non-empty name, at most two, the first name's first letter upper-cased first and the last name's last |
| ParticipantCard.BadgeVariant | src/components/participants/ParticipantCard.tsx:18-29 | the badge is 'default' iff the role is mentor and 'secondary' iff it is mentee; every other role gets 'outline' |
| ParticipantCard.RoleDisplay | src/components/participants/ParticipantCard.tsx:31-33 | the role's name with its first letter upper-cased and the rest unchanged |
| ParticipantCard.RoleDisplayNamesTab | src/pages/Participants.tsx:108-116 | the four badges read Mentee, Mentor, Fellow and Counselor |
| ParticipantCard.TitleLine | src/components/participants/ParticipantCard.tsx:51-55 | the "title at company" line shows iff both title and company are filled |
| ParticipantCard.BadgeSection | src/components/participants/ParticipantCard.tsx:86-114 | a list's badge section shows iff the list is non-empty, with its first min(limit, n) items in order and "+k more" iff there are more, k being the rest |
| ParticipantCard.Card | src/components/participants/ParticipantCard.tsx:13-156 | the card uses the role's variant and the initials, shows the title line, a location iff there is a business address, three industry and two expertise badges, an availability line iff a mentor's availability is set, a mail link iff the email is public and a website link iff one is filled |
| ParticipantCard.AvailabilityLineMatchesFilter | src/components/participants/ParticipantCard.tsx:120-129 | every mentor listed with the availability filter applied shows the availability line the filter asked for |
| ParticipantFilters.UpdateFilter | src/components/participants/ParticipantFilters.tsx:22-24 | the updated record holds the new value at the key and agrees with the old record at every other key |
| ParticipantFilters.UpdateDetermined | src/components/participants/ParticipantFilters.tsx:22-24 | any record that holds the value at the key and agrees elsewhere is the update, so the two clauses pin it down |
| ParticipantFilters.UpdateTwice | src/components/participants/ParticipantFilters.tsx:22-24 | storing the same key twice keeps only the last value |
| ParticipantFilters.Toggle | src/components/participants/ParticipantFilters.tsx:26-32 | the value is in the new list iff it was not in the old, every other value keeps its membership, an absent value is appended at the end, and an empty result is stored as absent |
| ParticipantFilters.ToggleTwice | src/components/participants/ParticipantFilters.tsx:26-32 | toggling an absent value twice gives the list back, an empty list coming back as absent |
| ParticipantFilters.ToggleArrayFilter | src/components/participants/ParticipantFilters.tsx:26-32 | only the chosen list changes; the clicked box flips and every other box of either list keeps its state |
| ParticipantFilters.ClearFilters | src/components/participants/ParticipantFilters.tsx:34-40 | the cleared record holds an empty search, the current role or 'all' and the name sort, and nothing else |
| ParticipantFilters.ActiveCount | src/components/participants/ParticipantFilters.tsx:42-50 | the badge counts at most five and is zero iff the search is empty, both lists are empty, the location is empty and the availability is unset; role and sort never count |
| ParticipantFilters.ClearedShowsTab | src/components/participants/ParticipantFilters.tsx:34-40 | after clearing nothing counts as active, the sort is by name, and a participant is listed iff it belongs to the tab that was selected |
| ParticipantFilters.ClearIdempotent | src/components/participants/ParticipantFilters.tsx:34-40 | clearing twice is clearing once |
| ParticipantFilters.NoActiveFilterShowsTab | src/components/participants/ParticipantFilters.tsx:42-50 | with a zero badge a participant is listed iff it passes the role stage |
| ParticipantFilters.SortShownMatchesApplied | src/components/participants/ParticipantFilters.tsx:92 | with a sort set, the select shows 'name' iff the list is sorted by last name; with none it shows 'name' though the list keeps its input order |
| ParticipantFilters.AvailabilityAppliesOnlyWhenShown | src/components/participants/ParticipantFilters.tsx:144 | the availability stage runs iff its select is on screen (the mentor role) and a value is set |
| ParticipantFilters.AvailabilityChoice | src/components/participants/ParticipantFilters.tsx:149 | 'all' clears the filter, 'true' sets it to true, and any other value sets it to false |
| ParticipantFilters.AvailabilityShown | src/components/participants/ParticipantFilters.tsx:148 | the select shows one of 'all', 'true' and 'false' |
| ParticipantFilters.AvailabilityRoundTrip | src/components/participants/ParticipantFilters.tsx:147-149 | choosing what the select shows leaves the filter unchanged, and each of the three items is shown as itself once chosen |
| Participants.Select | src/data/mockData.ts:217 | the filter keeps exactly the elements that pass, never more of any element than the input had |
| Participants.SelectAppend | src/data/mockData.ts:217 | filtering a concatenation filters each part |
| Participants.SelectAll | src/data/mockData.ts:217 | a test every element passes keeps the whole list |
| Participants.Keep | src/data/mockData.ts:215-248 | one stage keeps exactly the participants passing it |
| Participants.Filtered | src/data/mockData.ts:212-248 | the reference definition keeps exactly the participants matching every stage, in input order |
| Participants.KeepInactive | src/data/mockData.ts:216 | a stage whose condition is false keeps the list as it is |
| Participants.StagedIsFiltered | src/data/mockData.ts:213-248 | running the five stages one after another keeps exactly the matching participants, in input order |
| Participants.MatchesFive | src/data/mockData.ts:215-248 | a participant matches iff it passes the role, search, industries, expertises and availability stages |
| Participants.AvailabilityOnlyForMentors | src/data/mockData.ts:246 | with a role other than mentor, the availability filter changes nothing |
| Participants.NothingFiltersNobody | src/data/mockData.ts:212-268 | with every filter absent the directory lists everyone in input order |
| Participants.FilteredAll | src/data/mockData.ts:212-248 | when everyone matches, filtering keeps the whole list |
| Participants.SortedMeans | src/data/mockData.ts:250-266 | sorted by name means last names ascending, by company means companies (or "") ascending, by class year means years (or 0) descending, by recent means updatedAt descending |
| Participants.Swap | src/data/mockData.ts:254 | the two neighbours are exchanged and the contents are a permutation of the old ones |
| Participants.InsertAt | src/data/mockData.ts:254-263 | one pass extends the sorted prefix by one element, permuting the array |
| Participants.SortInPlace | src/data/mockData.ts:251-266 | the array ends sorted under the chosen order and is a permutation of its old contents |
| Participants.RunStage | src/data/mockData.ts:215-248 | running a stage yields exactly the stage's kept list, and an inactive stage returns the list unchanged |
| Participants.SortedCopy | src/data/mockData.ts:250-266 | the result is a sorted permutation of the list |
| Participants.FilterParticipants | src/data/mockData.ts:212-268 | the result holds exactly the matching participants as a permutation of the filtered list; without a sort it is the filtered list in input order, and with one it is sorted by that order |
| Profile.Find | src/pages/profile/Profile.tsx:40 | the search finds nothing iff no participant has that id, and otherwise a participant with that id |
| Profile.FindIsFirst | src/pages/profile/Profile.tsx:40 | the participant found is the first one with that id |
| Profile.PlaceholderHasNoComma | src/pages/profile/Profile.tsx:49-51 | a "city, state" location never reads as the placeholder |
| Profile.Location | src/pages/profile/Profile.tsx:49-51 | the location is the placeholder iff there is no business address, and otherwise "city, state" |
| Profile.FullName | src/pages/profile/Profile.tsx:44 | the name is the first name, one space, then the last name |
| Profile.Transform | src/pages/profile/Profile.tsx:42-56 | the shown record copies id, title, company, bio, avatar, industries and contact, takes the full name and the location, and puts the current year minus 2000 as years in business |
| Profile.Heads | src/pages/profile/Profile.tsx:91 | the avatar's letters are at most one per word |
| Profile.AvatarMatchesCard | src/pages/profile/Profile.tsx:91 | for names without spaces the profile avatar shows the card's initials, except that it does not upper-case them |
| Profile.ProfilePage.constructor | src/pages/profile/Profile.tsx:35-36 | the page starts with no participant and not as the user's own profile |
| Profile.ProfilePage.Load | src/pages/profile/Profile.tsx:38-64 | a found participant is shown transformed and ownership becomes whether the user's id is the page's; when none is found the participant is cleared and ownership left as it was; "not found" shows iff no participant has the id, and the edit button only for the user's own profile |

## Left out

- Lists.EquityOf: reads an owner's equity only when it is held as a number. A string equity, which `|| 0` would coerce, is not modelled.
- StepForms.CountAt: reads a team count only when it is held as a number. JavaScript's `+` on strings (concatenation) is not modelled.
- StepForms.Watched: reads a list field only when it is held as an array. `watch(path) || []` on a non-array truthy value is not modelled.
- Signature.NamePart: reads a name only when it is held as a string. A non-string name rendered by the template literal is not modelled.
- Signature.TypedValid: covers only a typed name held as a string or missing. A non-string typed name is not modelled.
- Uploads.FileUploader.OnDrop: the ids of the new items are a parameter and are assumed fresh. The ids from `Math.random()` are not guaranteed distinct in the source.
- Uploads: the drop zone's accept list, its maximum size and `formatFileSize` are not modelled. The drop-zone library decides which files reach `onDrop`, and the size text is display only. `URL.createObjectURL` becomes a parameter.
- Uploads: the random progress step of the upload simulation becomes a parameter below 30, and the 200 ms interval becomes one `Tick` per call.
- Participants: `Array.prototype.sort` stability is not modelled; the sort is specified by order and permutation only.
- Participants: `localeCompare` is a rank function given as a parameter.
- Participants: `updatedAt` is an integer timestamp instead of a date string.
- Text: upper- and lower-casing are modelled for ASCII letters only. Unicode case mapping and locale rules are not modelled.
- Schema.StrCheckOk, ParticipantCard.FirstChar, Profile.Heads: a string is a sequence of characters, so zod's `.min`/`.max`, `length`, `charAt(0)` and `n[0]` count and take whole characters, not UTF-16 code units. A character outside the Basic Multilingual Plane (an emoji, say) counts 2 toward a zod minimum in the source and 1 here, and the source's initial of such a name is half a surrogate pair.
- AutosaveIndicator: the locale's date format is a parameter, and the time is an integer of milliseconds.
- Json: numbers are reals, so NaN, infinities and floating-point rounding are not modelled; a missing key reads as `undefined`. `JSON.stringify` followed by `JSON.parse` is modelled by what it changes (`Json.Reparsed`: files become `{}`, `undefined` keys go, `undefined` items become `null`); the JSON text, key order and the `Date` of `lastSaved` (an integer here) are not. A file has only the getters `name`, `type` and `size`.
- SaveApplication: the Supabase client is reduced to whether it exists and what its insert returns. The best-effort `create table` call is left out because its outcome is ignored. Network I/O and `await` are not modelled.
- Signature: drawing strokes on the canvas, the canvas image restore effect and the download button are left out; `toDataURL()` becomes a parameter.
- Wizard: the one-second autosave debounce timers are modelled as a count of pending timers, with no clock. The `useEffect` subscription is modelled as a call to `Autosave` after each change.
- Wizard: toasts are recorded as a list of titles, descriptions and variants; their display and dismissal are left out.
- Wizard: the email and URL formats of zod are oracles in `Schema.Formats` and are never defined.
- Autofill: the deep-merge correction is stated and proved for the mentee wizard only. For the mentor wizard the model proves that the shallow merge fails step 1 (Autofill.MentorAllDataFailsStep1), but it does not model a corrected mentor merge.
- StepForms: the conditional fields "Specify Other Type" (mentor step 2) and the directors count (mentee step 2) are modelled as predicates, and no property is proved about them.
- Summary: the "Fix" buttons of the incomplete-section list have an empty click handler in the source, so they are not modelled. The section cards' read-only rendering is left out.
- AuthSlice, ParticipantSlice: the async thunks' network calls are left out. Their fulfilled and rejected actions are modelled as reducer methods taking the payload.
- The routing shell, the marketing pages, the admin panel, the login form's rendering and the Supabase auth client are not part of this model.

## Findings

| source | as written | input that shows it | evidently intended | confidence | as-written member | corrected member |
|---|---|---|---|---|---|---|
| src/pages/apply/MenteeApplication.tsx:875-879 | "Autofill All Steps" merges the step patches with a shallow spread, so step 1's `company` object replaces step 0's whole, and step 0's company fields, `company.name` among them, are lost | any form values, with the button pressed: the result has no `company.name` and fails the step-1 schema | a merge that keeps step 0's company fields, so the autofilled document passes step 1 | medium, not executed | Autofill.MenteeAllDataFailsStep1 | Autofill.MenteeAllDataDeepPassesStep1 |
