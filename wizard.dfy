/**
 * The two application wizards (mentee and mentor): a step index over a fixed list of steps
 * ending in a summary step, validation of the current step before moving on, backward moves
 * without validation, an autosave of every change into a named localStorage slot, the
 * restore of that slot on mount, submission, and the autofill buttons.
 *
 * Both pages share one implementation here; they differ in the slot name, the step schemas,
 * the autofill patches and the submit handler, all selected by `Kind`.
 */
module Wizard {
  import opened Json
  import opened Schema
  import opened Wrappers
  import opened Storage
  import opened Form
  import MenteeSchema
  import MentorSchema
  import Autofill
  import SaveApplication

  datatype Kind = MenteeWizard | MentorWizard

  /** `autosaveStatus` */
  datatype AutosaveStatus = Idle | Saving | Saved | SaveError

  /** A toast shown to the user; `destructive` is the "destructive" variant. */
  datatype Toast = Toast(title: string, description: Value, destructive: bool)

  /** The localStorage slot of each wizard. */
  function Slot(kind: Kind): (r: string)
    ensures r == "mentee-application" || r == "mentor-application"
    ensures kind == MenteeWizard <==> r == "mentee-application"
  {
    match kind
    case MenteeWizard => "mentee-application"
    case MentorWizard => "mentor-application"
  }

  /** `VALIDATION_SCHEMAS`: one schema per entry of `STEPS`. */
  function Schemas(kind: Kind): seq<Schema> {
    match kind
    case MenteeWizard => MenteeSchema.Steps
    case MentorWizard => MentorSchema.Steps
  }

  /** The fields of an object schema (every step schema is one). */
  function StepFields(sc: Schema): seq<Field> {
    if sc.SObject? then sc.fields else []
  }

  /** There are 9 mentee steps and 8 mentor steps; every step schema is an object schema and the
      last, the summary, is the empty object, which every object passes. */
  lemma SchemasShape(kind: Kind)
    ensures |Schemas(kind)| == (if kind == MenteeWizard then 9 else 8)
    ensures forall i :: 0 <= i < |Schemas(kind)| ==> Schemas(kind)[i].SObject?
    ensures Schemas(kind)[|Schemas(kind)| - 1] == SObject([])
  {
  }

  /** `defaultValues` of each page. */
  function Defaults(kind: Kind): (r: Value)
    ensures r.Obj?
  {
    var business := Obj(map["street1" := Str(""), "street2" := Str(""), "city" := Str(""), "state" := Str(""),
                            "postalCode" := Str(""), "country" := Str("US")]);
    match kind
    case MenteeWizard =>
      Obj(map["applicant" := Obj(map["firstName" := Str(""), "lastName" := Str(""), "email" := Str(""), "title" := Str("")]),
              "company" := Obj(map["name" := Str(""), "type" := Undefined, "typeOther" := Str(""), "industry" := Arr([]),
                                   "website" := Str(""), "phoneBusiness" := Str("")]),
              "referral" := Obj(map["source" := Undefined]),
              "address" := Obj(map["business" := business])])
    case MentorWizard =>
      Obj(map["person" := Obj(map["firstName" := Str(""), "lastName" := Str(""), "email" := Str(""), "title" := Str("")]),
              "company" := Obj(map["name" := Str(""), "industry" := Arr([]), "website" := Str("")]),
              "phones" := Obj(map["business" := Str(""), "mobile" := Str("")]),
              "referral" := Obj(map["source" := Undefined]),
              "address" := Obj(map["business" := business, "home" := business])])
  }

  // ---- the step index ----

  /** The step after `handleNext`, given whether the current step validated. */
  function NextStep(step: int, n: nat, valid: bool): int {
    if valid && step < n - 1 then step + 1 else step
  }

  /** The step after `handlePrevious`. */
  function PreviousStep(step: int): int {
    if step > 0 then step - 1 else step
  }

  /** The step after `handleStepClick(i)`. */
  function ClickStep(step: int, i: int): int {
    if i <= step then i else step
  }

  /** Next moves by exactly one, and only on a valid step that is not the last; Previous moves back
      by one unless at the first step; a click moves only backwards or stays. Each keeps the
      index within the steps. */
  lemma StepMoves(step: int, n: nat, valid: bool, i: int)
    requires 0 <= step < n
    ensures NextStep(step, n, valid) == step + 1 <==> valid && step < n - 1
    ensures NextStep(step, n, valid) != step + 1 ==> NextStep(step, n, valid) == step
    ensures 0 <= NextStep(step, n, valid) < n
    ensures PreviousStep(step) == step - 1 <==> step > 0
    ensures 0 <= PreviousStep(step) < n
    ensures ClickStep(step, i) <= step
    ensures 0 <= i ==> 0 <= ClickStep(step, i) < n
  {
  }

  /** One navigation event of the step buttons and the stepper. */
  datatype NavEvent = NextPressed(valid: bool) | PreviousPressed | StepClicked(index: int)

  function Navigate(step: int, n: nat, evs: seq<NavEvent>): int
    decreases |evs|
  {
    if evs == [] then step
    else
      var s := match evs[0]
        case NextPressed(v) => NextStep(step, n, v)
        case PreviousPressed => PreviousStep(step)
        case StepClicked(i) => ClickStep(step, i);
      Navigate(s, n, evs[1..])
  }

  /** How many presses of Next found the step valid. */
  function ValidNexts(evs: seq<NavEvent>): nat
    decreases |evs|
  {
    if evs == [] then 0
    else (if evs[0] == NextPressed(true) then 1 else 0) + ValidNexts(evs[1..])
  }

  /** Starting inside the steps, any run of events whose clicks name real steps stays inside, and
      the wizard is never further ahead than the number of validated Next presses allows: a step
      cannot be reached without passing validation on each step before it. */
  lemma {:induction false} NavigationBounds(step: int, n: nat, evs: seq<NavEvent>)
    requires 0 <= step < n
    requires forall j :: 0 <= j < |evs| && evs[j].StepClicked? ==> evs[j].index >= 0
    ensures 0 <= Navigate(step, n, evs) < n
    ensures Navigate(step, n, evs) <= step + ValidNexts(evs)
    decreases |evs|
  {
    if evs != [] {
      var s := match evs[0]
        case NextPressed(v) => NextStep(step, n, v)
        case PreviousPressed => PreviousStep(step)
        case StepClicked(i) => ClickStep(step, i);
      assert evs[0].StepClicked? ==> evs[0].index >= 0;
      forall j | 0 <= j < |evs[1..]| && evs[1..][j].StepClicked? ensures evs[1..][j].index >= 0 {
        assert evs[1..][j] == evs[j + 1];
      }
      NavigationBounds(s, n, evs[1..]);
    }
  }

  // ---- the saved snapshot ----

  /** What a later `JSON.parse` reads back from the autosave's `JSON.stringify` of
      `{formData, currentStep, lastSaved}`: the form values as JSON carries them. */
  function SnapshotOf(values: Value, step: int, now: int): Stored {
    Snapshot(Reparsed(values), Some(step), now)
  }

  /** `parsedData.currentStep || 0` */
  function RestoredStep(saved: Option<int>): int {
    match saved
    case Some(s) => s
    case None => 0
  }

  datatype Resumed = Resumed(values: Value, step: int, lastSaved: Option<int>)

  /** The page state after the mount effect reads the slot: an absent slot or one that does not
      parse leaves everything as it was. */
  function Restored(item: Option<Stored>, cur: Resumed): Resumed {
    match item
    case None => cur
    case Some(Unparseable) => cur
    case Some(Snapshot(fd, cs, ls)) => Resumed(fd, RestoredStep(cs), Some(ls))
  }

  /** Restoring what the autosave wrote gives back the step and the time, and the form values
      exactly when they are plain JSON: files come back as `{}`, keys holding `undefined` are gone
      and `undefined` array items are `null`. Saving and restoring once more loses nothing more. */
  lemma AutosaveRestoreRoundTrip(values: Value, step: int, now: int, cur: Resumed)
    ensures var r := Restored(Some(SnapshotOf(values, step, now)), cur);
      r.step == step && r.lastSaved == Some(now)
      && (r.values == values <==> Plain(values))
      && Restored(Some(SnapshotOf(r.values, step, now)), cur) == r
  {
    ReparsedFixesExactlyPlain(values);
    ReparsedIdempotent(values);
  }

  /** The default values do not survive a reload as they are: `referral.source` holds `undefined`,
      so the restored `referral` has no `source` key, although reading it still gives `undefined`. */
  lemma RestoredDefaultsLoseUndefinedKeys(kind: Kind, step: int, now: int, cur: Resumed)
    ensures var r := Restored(Some(SnapshotOf(Defaults(kind), step, now)), cur).values;
      r != Defaults(kind)
      && "source" in Prop(Defaults(kind), "referral").fields
      && "source" !in Prop(r, "referral").fields
      && GetPath(r, ["referral", "source"]) == Undefined
  {
    var d := Defaults(kind);
    var r := Reparsed(d);
    assert "referral" in d.fields && d.fields["referral"] != Undefined;
    assert Prop(r, "referral") == Reparsed(Prop(d, "referral"));
    assert Prop(r, "referral") == Obj(map[]);
    GetPathTwo(r, "referral", "source");
  }

  /** Restore takes the saved step as it is: a slot may put the wizard outside its steps. */
  lemma RestoreHasNoRangeCheck(cur: Resumed)
    ensures Restored(Some(Snapshot(Obj(map[]), Some(42), 0)), cur).step == 42
    ensures Restored(Some(Snapshot(Obj(map[]), Some(-1), 0)), cur).step == -1
    ensures Restored(Some(Snapshot(Obj(map[]), None, 0)), cur).step == 0
  {
  }

  /** The description of the mentor's failure toast: `e?.message || 'Unable to save application'`. */
  function FailureDescription(e: Value): (r: Value)
    ensures Truthy(r)
    ensures Truthy(Prop(e, "message")) ==> r == Prop(e, "message")
  {
    Or(Prop(e, "message"), Str("Unable to save application"))
  }

  const ValidationToast := Toast("Validation Error", Str("Please fix the errors before proceeding."), true)
  const SavedForLaterToast := Toast("Application Saved",
    Str("You can return to complete your application later using the link in your email."), false)

  function SubmittedToast(kind: Kind): Toast {
    match kind
    case MenteeWizard => Toast("Application Submitted", Str("Thank you! Your mentee application has been submitted successfully."), false)
    case MentorWizard => Toast("Application Submitted", Str("Thank you! Your mentor application has been submitted successfully."), false)
  }

  /** `menteeStepPatch(step)` / `mentorStepPatch(step)` */
  function StepPatch(kind: Kind, step: int, now: string): Value {
    match kind
    case MenteeWizard => Autofill.MenteeStepPatch(step, now)
    case MentorWizard => Autofill.MentorStepPatch(step, now)
  }

  /** One wizard page. The form store and localStorage are separate objects the page uses. */
  class Application {
    const kind: Kind
    const store: LocalStorage
    const form: FormStore
    /** `VALIDATION_SCHEMAS`: one schema per step. */
    const schemas: seq<Schema>
    var currentStep: int
    var status: AutosaveStatus
    var lastSaved: Option<int>
    var validationErrors: seq<FieldError>
    /** Timers started by the autosave that have not fired yet. */
    var pendingTimers: nat
    var toasts: seq<Toast>

    /** Every step schema is an object schema. */
    predicate Valid() {
      forall i :: 0 <= i < |schemas| ==> schemas[i].SObject?
    }

    /** The step index names one of the steps (it always does unless a restore put it elsewhere). */
    predicate InRange()
      reads this
    {
      0 <= currentStep < |schemas|
    }

    /** The Submit button replaces Next on the last step. */
    predicate ShowsSubmit()
      reads this
    {
      !(currentStep < |schemas| - 1)
    }

    /** The Previous button is disabled on the first step. */
    predicate PreviousDisabled()
      reads this
    {
      currentStep == 0
    }

    constructor(kind: Kind, store: LocalStorage)
      ensures this.kind == kind && this.store == store && fresh(form)
      ensures schemas == Schemas(kind) && Valid()
      ensures form.values == Defaults(kind)
      ensures currentStep == 0 && status == Idle && lastSaved == None
      ensures validationErrors == [] && pendingTimers == 0 && toasts == []
      ensures InRange()
    {
      this.kind := kind;
      this.store := store;
      schemas := Schemas(kind);
      form := new FormStore(Defaults(kind));
      currentStep := 0;
      status := Idle;
      lastSaved := None;
      validationErrors := [];
      pendingTimers := 0;
      toasts := [];
      SchemasShape(kind);
    }

    /** `validateCurrentStep()`: the whole form against the current step's schema. */
    method ValidateCurrentStep(fmt: Formats) returns (valid: bool)
      requires Valid() && InRange()
      modifies this
      ensures currentStep == old(currentStep) && InRange()
      ensures valid == Conforms(schemas[currentStep], form.values, fmt)
      ensures validationErrors == if valid then [] else StepErrors(StepFields(schemas[currentStep]), form.values, currentStep, fmt)
      ensures form.values.Obj? ==> (validationErrors == [] <==> valid)
      ensures status == old(status) && lastSaved == old(lastSaved)
      ensures pendingTimers == old(pendingTimers) && toasts == old(toasts)
    {
      var sc := schemas[currentStep];
      valid := Conforms(sc, form.values, fmt);
      if valid {
        validationErrors := [];
      } else {
        validationErrors := StepErrors(StepFields(sc), form.values, currentStep, fmt);
        if form.values.Obj? {
          StepErrorsEmptyIffValid(StepFields(sc), form.values, currentStep, fmt);
        }
      }
    }

    /** `handleNext()` */
    method Next(fmt: Formats) returns (valid: bool)
      requires Valid() && InRange()
      modifies this
      ensures valid == Conforms(schemas[old(currentStep)], form.values, fmt)
      ensures currentStep == NextStep(old(currentStep), |schemas|, valid)
      ensures InRange()
      ensures validationErrors == if valid then [] else StepErrors(StepFields(schemas[old(currentStep)]), form.values, old(currentStep), fmt)
      ensures toasts == if valid then old(toasts) else old(toasts) + [ValidationToast]
      ensures status == old(status) && lastSaved == old(lastSaved) && pendingTimers == old(pendingTimers)
    {
      valid := ValidateCurrentStep(fmt);
      if valid && currentStep < |schemas| - 1 {
        currentStep := currentStep + 1;
      } else if !valid {
        Toasted(ValidationToast);
      }
    }

    /** `handlePrevious()`: no validation, and the error list stays as it was. */
    method Previous()
      modifies this
      ensures currentStep == PreviousStep(old(currentStep))
      ensures old(InRange()) ==> InRange()
      ensures validationErrors == old(validationErrors) && toasts == old(toasts)
      ensures status == old(status) && lastSaved == old(lastSaved) && pendingTimers == old(pendingTimers)
    {
      if currentStep > 0 {
        currentStep := currentStep - 1;
      }
    }

    /** `handleStepClick(i)`: only steps up to the current one can be chosen. */
    method StepClick(i: int)
      modifies this
      ensures currentStep == ClickStep(old(currentStep), i)
      ensures old(InRange()) && 0 <= i ==> InRange()
      ensures validationErrors == old(validationErrors) && toasts == old(toasts)
      ensures status == old(status) && lastSaved == old(lastSaved) && pendingTimers == old(pendingTimers)
    {
      if i <= currentStep {
        currentStep := i;
      }
    }

    /** The mount effect: read the slot and, if it parses, resume from it. */
    method Restore()
      modifies this, form
      ensures Resumed(form.values, currentStep, lastSaved)
           == Restored(store.GetItem(Slot(kind)), Resumed(old(form.values), old(currentStep), old(lastSaved)))
      ensures status == old(status) && validationErrors == old(validationErrors)
      ensures pendingTimers == old(pendingTimers) && toasts == old(toasts)
    {
      var item := store.GetItem(Slot(kind));
      match item {
        case None =>
        case Some(Unparseable) =>
        case Some(Snapshot(fd, cs, ls)) =>
          form.Reset(fd);
          currentStep := RestoredStep(cs);
          lastSaved := Some(ls);
      }
    }

    /** The watch subscription, on one change of the form: `now` is the clock, `writeFails`
        whether `localStorage.setItem` throws. */
    method Autosave(now: int, writeFails: bool)
      modifies this, store
      ensures writeFails ==> status == SaveError && store.items == old(store.items)
                             && pendingTimers == old(pendingTimers)
      ensures !writeFails ==> status == Saving
                              && store.items == old(store.items)[Slot(kind) := SnapshotOf(form.values, currentStep, now)]
                              && pendingTimers == old(pendingTimers) + 1
      ensures currentStep == old(currentStep) && lastSaved == old(lastSaved)
      ensures validationErrors == old(validationErrors) && toasts == old(toasts)
    {
      status := Saving;
      if writeFails {
        status := SaveError;
      } else {
        store.SetItem(Slot(kind), SnapshotOf(form.values, currentStep, now));
        pendingTimers := pendingTimers + 1;
      }
    }

    /** One autosave timer fires after its second: the status becomes saved whatever it was. */
    method TimerFires(now: int)
      requires pendingTimers > 0
      modifies this
      ensures status == Saved && lastSaved == Some(now) && pendingTimers == old(pendingTimers) - 1
      ensures currentStep == old(currentStep) && validationErrors == old(validationErrors) && toasts == old(toasts)
    {
      status := Saved;
      lastSaved := Some(now);
      pendingTimers := pendingTimers - 1;
    }

    /** `handleSaveAndFinishLater()`: a toast and nothing else. */
    method SaveAndFinishLater()
      modifies this
      ensures toasts == old(toasts) + [SavedForLaterToast]
      ensures currentStep == old(currentStep) && status == old(status) && lastSaved == old(lastSaved)
      ensures validationErrors == old(validationErrors) && pendingTimers == old(pendingTimers)
    {
      toasts := toasts + [SavedForLaterToast];
    }

    /** `handleSubmit()`. The mentee page clears its slot at once and sends nothing; the mentor page
        calls `saveApplication` (with the given client and insert result) and clears the slot only
        when that does not throw. Neither checks that the steps validate. */
    method Submit(client: bool, insertError: Option<Value>, numStr: real -> string)
      returns (outcome: Option<SaveApplication.SaveOutcome>)
      modifies this, store
      ensures kind == MenteeWizard ==> outcome.None? && Slot(kind) !in store.items
                                       && toasts == old(toasts) + [SubmittedToast(kind)]
      ensures kind == MentorWizard ==>
        outcome == Some(SaveApplication.Save(SaveApplication.Mentor, form.values, client, insertError, numStr))
      ensures kind == MentorWizard && !outcome.value.Thrown? ==>
        Slot(kind) !in store.items && toasts == old(toasts) + [SubmittedToast(kind)]
      ensures kind == MentorWizard && outcome.value.Thrown? ==>
        store.items == old(store.items)
        && toasts == old(toasts) + [Toast("Save failed", FailureDescription(outcome.value.error), true)]
      ensures forall k :: k != Slot(kind) ==> store.GetItem(k) == old(store.GetItem(k))
      ensures currentStep == old(currentStep) && status == old(status) && lastSaved == old(lastSaved)
      ensures validationErrors == old(validationErrors) && pendingTimers == old(pendingTimers)
    {
      if kind == MenteeWizard {
        outcome := None;
        Toasted(SubmittedToast(kind));
        store.RemoveItem(Slot(kind));
      } else {
        // the mentor page's `handleSubmit()`
        var r := SaveApplication.Save(SaveApplication.Mentor, form.values, client, insertError, numStr);
        AfterSave(r);
        outcome := Some(r);
      }
    }

    /** What the mentor page does once `saveApplication` has returned or thrown. */
    method AfterSave(r: SaveApplication.SaveOutcome)
      modifies this, store
      ensures !r.Thrown? ==> Slot(kind) !in store.items && toasts == old(toasts) + [SubmittedToast(kind)]
      ensures r.Thrown? ==>
        store.items == old(store.items)
        && toasts == old(toasts) + [Toast("Save failed", FailureDescription(r.error), true)]
      ensures forall k :: k != Slot(kind) ==> store.GetItem(k) == old(store.GetItem(k))
      ensures currentStep == old(currentStep) && status == old(status) && lastSaved == old(lastSaved)
      ensures validationErrors == old(validationErrors) && pendingTimers == old(pendingTimers)
    {
      if r.Thrown? {
        Toasted(Toast("Save failed", FailureDescription(r.error), true));
      } else {
        Toasted(SubmittedToast(kind));
        store.RemoveItem(Slot(kind));
      }
    }

    /** `toast(t)` */
    method Toasted(t: Toast)
      modifies this
      ensures toasts == old(toasts) + [t]
      ensures currentStep == old(currentStep) && status == old(status) && lastSaved == old(lastSaved)
      ensures validationErrors == old(validationErrors) && pendingTimers == old(pendingTimers)
    {
      toasts := toasts + [t];
    }

    /** `autofillThisStep()`: the current step's patch spread over the form values. */
    method AutofillThisStep(now: string)
      modifies form
      ensures form.values == Spread(old(form.values), StepPatch(kind, currentStep, now))
    {
      form.Reset(Spread(form.values, StepPatch(kind, currentStep, now)));
    }

    /** `autofillAndNext()` */
    method AutofillAndNext(now: string, fmt: Formats) returns (valid: bool)
      requires Valid() && InRange()
      modifies this, form
      ensures form.values == Spread(old(form.values), StepPatch(kind, old(currentStep), now))
      ensures valid == Conforms(schemas[old(currentStep)], form.values, fmt)
      ensures currentStep == NextStep(old(currentStep), |schemas|, valid)
    {
      AutofillThisStep(now);
      valid := Next(fmt);
    }

    /** `autofillAllSteps()`: every patch merged shallowly, spread over the form values. */
    method AutofillAllSteps(now: string)
      modifies form
      ensures kind == MenteeWizard ==>
        form.values == Spread(old(form.values), Autofill.ShallowFold(Autofill.MenteePatches(now)))
      ensures kind == MentorWizard ==>
        form.values == Spread(old(form.values), Autofill.ShallowFold(Autofill.MentorPatches(now)))
    {
      var data;
      if kind == MenteeWizard {
        data := Autofill.MenteeAllData(form.values, now);
      } else {
        data := Autofill.MentorAllData(form.values, now);
      }
      form.Reset(data);
    }
  }
}
