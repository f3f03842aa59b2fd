/**
 * The summary step of each wizard: a completeness check per section over the form values,
 * `allValid`, the list of incomplete sections, and the badge rows of list fields.
 * The two pages judge "present" differently: the mentee page trims strings and wants
 * non-empty arrays and objects; the mentor page only rejects undefined, null and "".
 */
module Summary {
  import opened Json
  import opened Text
  import opened Wrappers
  import opened Schema
  import MenteeSchema

  /** `field.split('.').reduce((obj, key) => obj?.[key], doc)` */
  function PathLookup(doc: Value, field: string): Value {
    GetPath(doc, SplitOn(field, '.'))
  }

  /** A required field written as its dotted name. */
  function Dotted(path: seq<string>): string {
    JoinWith(path, '.')
  }

  /** A dotted name made of dot-free keys is looked up along exactly those keys. */
  lemma DottedLookup(doc: Value, path: seq<string>)
    requires |path| >= 1 && forall k :: 0 <= k < |path| ==> '.' !in path[k]
    ensures PathLookup(doc, Dotted(path)) == GetPath(doc, path)
  {
    JoinSplitRoundTrip(path, '.');
  }

  /** A walk that meets `undefined` on the way yields `undefined`. */
  lemma LookupMissing(doc: Value, field: string, i: nat)
    requires i <= |SplitOn(field, '.')| && GetPath(doc, SplitOn(field, '.')[..i]) == Undefined
    ensures PathLookup(doc, field) == Undefined
  {
    MissingSegment(doc, SplitOn(field, '.'), i);
  }

  /** `value.length` where it exists (arrays and strings). */
  function JsLength(v: Value): Option<nat> {
    match v
    case Arr(items) => Some(|items|)
    case Str(s) => Some(|s|)
    case _ => None
  }

  /** `v?.length >= n`; `undefined >= n` is false. */
  predicate LengthAtLeast(v: Value, n: nat) {
    JsLength(v).Some? && JsLength(v).value >= n
  }

  /** The mentee page's test of one required value. */
  predicate MenteePresent(v: Value) {
    match v
    case Arr(items) => |items| > 0
    case Obj(fs) => fs != map[]
    case File(_, _, _) => false
    case Null => false
    case Undefined => false
    case Str(s) => Trim(s) != ""
    case _ => true
  }

  /** The mentor page's test of one required value. */
  predicate MentorPresent(v: Value) {
    v != Undefined && v != Null && v != Str("")
  }

  /** The two tests agree on `undefined`, `null`, `""` and on every number and boolean (0 and false
      count as present), and disagree exactly on blank strings, empty arrays, empty objects and files
      (a file has no own keys). */
  lemma PresenceCompared(v: Value)
    ensures v.Num? || v.Bool? ==> MenteePresent(v) && MentorPresent(v)
    ensures v == Undefined || v == Null || v == Str("") ==> !MenteePresent(v) && !MentorPresent(v)
    ensures MenteePresent(v) ==> MentorPresent(v)
    ensures MentorPresent(v) && !MenteePresent(v) <==>
      (v.Str? && v.s != "" && Trim(v.s) == "") || v == Arr([]) || v == Obj(map[]) || v.File?
  {
    if v.Str? && v.s == "" {
      TrimSpec(v.s);
    }
  }

  predicate MenteeValidateSection(doc: Value, fields: seq<string>) {
    forall i :: 0 <= i < |fields| ==> MenteePresent(PathLookup(doc, fields[i]))
  }

  predicate MentorValidateSection(doc: Value, fields: seq<string>) {
    forall i :: 0 <= i < |fields| ==> MentorPresent(PathLookup(doc, fields[i]))
  }

  /** A section with two required fields is complete iff both are present. */
  lemma ValidateTwo(doc: Value, f: string, g: string)
    ensures MenteeValidateSection(doc, [f, g]) <==> MenteePresent(PathLookup(doc, f)) && MenteePresent(PathLookup(doc, g))
  {
    assert [f, g][0] == f && [f, g][1] == g;
  }

  datatype Section = Section(title: string, step: nat, isValid: bool)

  // The completeness test of each mentee section.
  predicate MenteeApplicantOk(doc: Value) {
    MenteeValidateSection(doc, [Dotted(["applicant", "firstName"]), Dotted(["applicant", "lastName"]),
                                Dotted(["applicant", "email"]), Dotted(["company", "name"])])
  }
  predicate MenteeCompanyOk(doc: Value) {
    MenteeValidateSection(doc, [Dotted(["company", "yearsInBusiness"]), Dotted(["company", "fiscalYearEnd"])])
  }
  predicate MenteeTeamOk(doc: Value) {
    MenteeValidateSection(doc, [Dotted(["team", "total"])])
  }
  predicate MenteeFinanceOk(doc: Value) {
    MenteeValidateSection(doc, [Dotted(["finance", "wasProfitableLastYear"]), Dotted(["finance", "currentlyProfitable"])])
  }
  predicate MenteeNarrativesOk(doc: Value) {
    MenteeValidateSection(doc, [Dotted(["narratives", "biggestSuccess"]), Dotted(["narratives", "whyHEMP"])])
  }
  predicate MenteeReferencesOk(doc: Value) {
    MenteeValidateSection(doc, [Dotted(["references", "accountant", "name"]), Dotted(["references", "attorney", "name"])])
  }
  predicate MenteeUploadsOk(doc: Value) {
    LengthAtLeast(Prop(Prop(doc, "uploads"), "coverLetter"), 1)
  }
  /** Shared by both pages: `signature?.consent && signature?.typedName`. */
  predicate SignatureOk(doc: Value) {
    Truthy(Prop(Prop(doc, "signature"), "consent")) && Truthy(Prop(Prop(doc, "signature"), "typedName"))
  }

  const MenteeTitles: seq<string> := ["Applicant & Business", "Company Basics", "Team", "Financial Snapshot",
                                        "Strengths & Needs", "References", "Uploads", "Signature"]

  /** The completeness test of the mentee section shown for step `i`. */
  predicate MenteeSectionOk(doc: Value, i: nat) {
    if i == 0 then MenteeApplicantOk(doc)
    else if i == 1 then MenteeCompanyOk(doc)
    else if i == 2 then MenteeTeamOk(doc)
    else if i == 3 then MenteeFinanceOk(doc)
    else if i == 4 then MenteeNarrativesOk(doc)
    else if i == 5 then MenteeReferencesOk(doc)
    else if i == 6 then MenteeUploadsOk(doc)
    else SignatureOk(doc)
  }

  /** The eight sections of the mentee summary, the i-th pointing at step i. */
  function MenteeSections(doc: Value): seq<Section> {
    seq(|MenteeTitles|, i requires 0 <= i < |MenteeTitles| => Section(MenteeTitles[i], i, MenteeSectionOk(doc, i)))
  }

  // The completeness test of each mentor section.
  predicate MentorPersonOk(doc: Value) {
    MentorValidateSection(doc, [Dotted(["person", "firstName"]), Dotted(["person", "lastName"]),
                                Dotted(["person", "email"]), Dotted(["company", "name"])])
  }
  predicate MentorBackgroundOk(doc: Value) {
    MentorValidateSection(doc, [Dotted(["background", "yearsInLeadershipOrOwnership"]), Dotted(["company", "type"])])
  }
  predicate MentorPreferencesOk(doc: Value) {
    MentorValidateSection(doc, [Dotted(["preferences", "expertiseAreas"]), Dotted(["preferences", "meetingPreference"])])
    && LengthAtLeast(Prop(Prop(doc, "preferences"), "expertiseAreas"), 1)
  }
  predicate MentorNarrativesOk(doc: Value) {
    MentorValidateSection(doc, [Dotted(["narratives", "biggestSuccess"]), Dotted(["narratives", "whyHEMP"])])
  }
  predicate MentorReferencesOk(doc: Value) {
    LengthAtLeast(Prop(Prop(doc, "references"), "business"), 3)
  }
  predicate MentorUploadsOk(doc: Value) {
    LengthAtLeast(Prop(Prop(doc, "uploads"), "bio"), 1)
  }

  const MentorTitles: seq<string> := ["Person & Business", "Background", "Mentor Preferences",
                                        "Strengths & Reflection", "References", "Uploads", "Signature"]

  /** The completeness test of the mentor section shown for step `i`. */
  predicate MentorSectionOk(doc: Value, i: nat) {
    if i == 0 then MentorPersonOk(doc)
    else if i == 1 then MentorBackgroundOk(doc)
    else if i == 2 then MentorPreferencesOk(doc)
    else if i == 3 then MentorNarrativesOk(doc)
    else if i == 4 then MentorReferencesOk(doc)
    else if i == 5 then MentorUploadsOk(doc)
    else SignatureOk(doc)
  }

  /** The seven sections of the mentor summary, the i-th pointing at step i. */
  function MentorSections(doc: Value): seq<Section> {
    seq(|MentorTitles|, i requires 0 <= i < |MentorTitles| => Section(MentorTitles[i], i, MentorSectionOk(doc, i)))
  }

  /** `sections.every(s => s.isValid)` */
  predicate AllValid(ss: seq<Section>) {
    forall i :: 0 <= i < |ss| ==> ss[i].isValid
  }

  /** `sections.filter(s => !s.isValid)` */
  function InvalidSections(ss: seq<Section>): seq<Section> {
    if ss == [] then []
    else (if ss[0].isValid then [] else [ss[0]]) + InvalidSections(ss[1..])
  }

  /** The Submit button of the summary is disabled iff some section is incomplete. */
  predicate SubmitDisabled(ss: seq<Section>) {
    !AllValid(ss)
  }

  /** The incomplete list holds exactly the failing sections; it is empty iff all are valid. */
  lemma {:induction false} InvalidSectionsSpec(ss: seq<Section>)
    ensures forall s :: s in InvalidSections(ss) <==> s in ss && !s.isValid
    ensures InvalidSections(ss) == [] <==> AllValid(ss)
    ensures |InvalidSections(ss)| <= |ss|
  {
    if ss != [] {
      InvalidSectionsSpec(ss[1..]);
      assert forall s :: s in ss <==> s == ss[0] || s in ss[1..];
      if !AllValid(ss) && ss[0].isValid {
        var i :| 0 <= i < |ss| && !ss[i].isValid;
        assert ss[1..][i - 1] == ss[i];
      }
    }
  }

  predicate StepsIncreasing(ss: seq<Section>) {
    forall i, j :: 0 <= i < j < |ss| ==> ss[i].step < ss[j].step
  }

  /** The incomplete sections keep the step order of the sections. */
  lemma {:induction false} InvalidSectionsOrdered(ss: seq<Section>)
    requires StepsIncreasing(ss)
    ensures StepsIncreasing(InvalidSections(ss))
  {
    if ss != [] {
      InvalidSectionsOrdered(ss[1..]);
      InvalidSectionsSpec(ss[1..]);
      var rest := InvalidSections(ss[1..]);
      forall j | 0 <= j < |rest| ensures ss[0].step < rest[j].step {
        assert rest[j] in ss[1..];
      }
    }
  }

  /** Eight mentee sections, numbered by step in order; seven for the mentor. */
  lemma SectionsShape(doc: Value)
    ensures |MenteeSections(doc)| == 8 && StepsIncreasing(MenteeSections(doc))
    ensures |MentorSections(doc)| == 7 && StepsIncreasing(MentorSections(doc))
  {
  }

  /** The mentee Team section passes as soon as `team.total` is set, even to 0. */
  lemma MenteeTeamSection(doc: Value)
    ensures MenteeSections(doc)[2].isValid <==> MenteePresent(GetPath(doc, ["team", "total"]))
    ensures GetPath(doc, ["team", "total"]) == Num(0.0) ==> MenteeSections(doc)[2].isValid
  {
    MenteeSectionAt(doc, 2);
    TeamOkMeans(doc);
  }

  /** The i-th mentee section is complete iff its own test passes. */
  lemma MenteeSectionAt(doc: Value, i: nat)
    requires i < 8
    ensures MenteeSections(doc)[i].isValid == MenteeSectionOk(doc, i)
  {
  }

  lemma TeamOkMeans(doc: Value)
    ensures MenteeTeamOk(doc) <==> MenteePresent(GetPath(doc, ["team", "total"]))
  {
    var f := Dotted(["team", "total"]);
    assert MenteeTeamOk(doc) <==> MenteePresent(PathLookup(doc, f)) by {
      assert [f][0] == f;
    }
    TeamTotalLookup(doc);
  }

  lemma TeamTotalLookup(doc: Value)
    ensures PathLookup(doc, Dotted(["team", "total"])) == GetPath(doc, ["team", "total"])
  {
    DottedLookup(doc, ["team", "total"]);
  }

  /** The mentee References section looks only at the accountant's and the attorney's names, and a
      name of blanks is not present though it passes the step-6 schema's one-character minimum. */
  lemma MenteeReferencesSection(doc: Value)
    ensures MenteeSections(doc)[5].isValid <==>
      MenteePresent(GetPath(doc, ["references", "accountant", "name"]))
      && MenteePresent(GetPath(doc, ["references", "attorney", "name"]))
  {
    assert MenteeSections(doc)[5].isValid == MenteeReferencesOk(doc);
    ReferenceNames(doc);
  }

  lemma ReferenceNames(doc: Value)
    ensures MenteeReferencesOk(doc) <==>
      MenteePresent(GetPath(doc, ["references", "accountant", "name"]))
      && MenteePresent(GetPath(doc, ["references", "attorney", "name"]))
  {
    ReferenceNamesDotted(doc);
    ReferenceNameLookups(doc);
  }

  lemma ReferenceNamesDotted(doc: Value)
    ensures MenteeReferencesOk(doc) <==>
      MenteePresent(PathLookup(doc, Dotted(["references", "accountant", "name"])))
      && MenteePresent(PathLookup(doc, Dotted(["references", "attorney", "name"])))
  {
    ValidateTwo(doc, Dotted(["references", "accountant", "name"]), Dotted(["references", "attorney", "name"]));
  }

  lemma ReferenceNameLookups(doc: Value)
    ensures PathLookup(doc, Dotted(["references", "accountant", "name"])) == GetPath(doc, ["references", "accountant", "name"])
    ensures PathLookup(doc, Dotted(["references", "attorney", "name"])) == GetPath(doc, ["references", "attorney", "name"])
  {
    DottedLookup(doc, ["references", "accountant", "name"]);
    DottedLookup(doc, ["references", "attorney", "name"]);
  }

  /** A name of two blanks, which the step-6 schema's one-character minimum lets through, does not
      count as present on the mentee summary, so the References section stays incomplete. */
  lemma BlankNameIncomplete(doc: Value)
    requires GetPath(doc, ["references", "accountant", "name"]) == Str("  ")
    ensures !MenteeSections(doc)[5].isValid
  {
    MenteeReferencesSection(doc);
    TrimSpec("  ");
  }

  /** The mentee Uploads section checks the cover letter alone; the signature sections want a
      truthy consent and typed name on both pages. */
  lemma UploadAndSignatureSections(doc: Value)
    ensures MenteeSections(doc)[6].isValid <==> LengthAtLeast(Prop(Prop(doc, "uploads"), "coverLetter"), 1)
    ensures MentorSections(doc)[5].isValid <==> LengthAtLeast(Prop(Prop(doc, "uploads"), "bio"), 1)
    ensures MenteeSections(doc)[7].isValid == MentorSections(doc)[6].isValid
    ensures MenteeSections(doc)[7].isValid <==>
      Truthy(Prop(Prop(doc, "signature"), "consent")) && Truthy(Prop(Prop(doc, "signature"), "typedName"))
  {
  }

  /** A document that passes the mentee step-8 schema has a complete Signature section. */
  lemma SignatureSchemaCompletesSection(doc: Value, fmt: Formats)
    requires Conforms(MenteeSchema.Step8, doc, fmt)
    ensures MenteeSections(doc)[7].isValid
  {
    var s := Prop(doc, "signature");
    FieldAt(MenteeSchema.Step8.fields, doc, fmt, 0);
    MenteeSchema.SignatureMeans(s, fmt);
  }

  /** The mentor References section passes iff there are at least three business references, and
      the Preferences section also needs a non-empty `expertiseAreas`, which the presence test
      alone would not demand. */
  lemma MentorListSections(doc: Value)
    ensures MentorSections(doc)[4].isValid <==> LengthAtLeast(Prop(Prop(doc, "references"), "business"), 3)
    ensures Prop(Prop(doc, "preferences"), "expertiseAreas") == Arr([]) ==> !MentorSections(doc)[2].isValid
    ensures MentorPresent(Arr([]))
  {
  }

  /** A row of badges for a list: the first `limit` items, then "+k more" for the rest. */
  datatype BadgeRow = BadgeRow(shown: seq<string>, more: Option<nat>)

  function Badges(items: seq<string>, limit: nat): (r: BadgeRow)
    ensures |r.shown| <= limit && |r.shown| <= |items| && r.shown == items[..|r.shown|]
    ensures r.more.Some? <==> |items| > limit
    ensures |r.shown| + r.more.GetOr(0) == |items|
  {
    if |items| > limit then BadgeRow(items[..limit], Some(|items| - limit)) else BadgeRow(items, None)
  }
}
