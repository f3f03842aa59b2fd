/**
 * The handlers of the wizard steps that edit lists and derived fields. Each reads the current
 * list with `watch(path) || []`, computes the new list with the functions of `Lists`, and
 * writes it back with `setValue(path, list)`.
 */
module StepForms {
  import opened Json
  import opened Form
  import opened Lists
  import Schema
  import MenteeSchema
  import Summary

  const MistakesPath: seq<string> := ["narratives", "mistakes"]
  const MatrixPath: seq<string> := ["strengths", "matrix"]
  const OwnersPath: seq<string> := ["company", "ownership"]
  const TotalPath: seq<string> := ["team", "total"]

  /** `watch(path) || []`, read as a list. */
  function Watched(doc: Value, path: seq<string>): seq<Value> {
    ItemsOf(Or(GetPath(doc, path), Arr([])))
  }

  /** Mentee step 5 and mentor step 4: `addMistake`. */
  method AddMistakeClicked(form: FormStore)
    modifies form
    ensures form.values == if |Watched(old(form.values), MistakesPath)| < MistakeLimit
      then SetPath(old(form.values), MistakesPath, Arr(AddMistake(Watched(old(form.values), MistakesPath))))
      else old(form.values)
  {
    var xs := Watched(form.values, MistakesPath);
    if |xs| < MistakeLimit {
      form.SetValue(MistakesPath, Arr(AddMistake(xs)));
    }
  }

  /** Mentee step 5 and mentor step 4: `removeMistake(i)`. */
  method RemoveMistakeClicked(form: FormStore, i: int)
    modifies form
    ensures form.values == if |Watched(old(form.values), MistakesPath)| > 0
      then SetPath(old(form.values), MistakesPath, Arr(RemoveMistake(Watched(old(form.values), MistakesPath), i)))
      else old(form.values)
  {
    var xs := Watched(form.values, MistakesPath);
    if |xs| > 0 {
      form.SetValue(MistakesPath, Arr(RemoveMistake(xs, i)));
    }
  }

  /** Mentee step 5 and mentor step 4: `handleMatrixChange(category, value)`. */
  method MatrixChanged(form: FormStore, category: string, value: string)
    modifies form
    ensures form.values == SetPath(old(form.values), MatrixPath, MatrixChange(GetPath(old(form.values), MatrixPath), category, value))
    ensures forall q :: Diverge(MatrixPath, q) ==> GetPath(form.values, q) == GetPath(old(form.values), q)
  {
    form.SetValue(MatrixPath, MatrixChange(GetPath(form.values, MatrixPath), category, value));
  }

  /** Mentee step 2: `addOwner`, with no length guard of its own. */
  method AddOwnerClicked(form: FormStore)
    modifies form
    ensures form.values == SetPath(old(form.values), OwnersPath, Arr(Watched(old(form.values), OwnersPath) + [EmptyOwner]))
  {
    form.SetValue(OwnersPath, Arr(Watched(form.values, OwnersPath) + [EmptyOwner]));
  }

  /** Mentee step 2: `removeOwner(i)`. */
  method RemoveOwnerClicked(form: FormStore, i: int)
    modifies form
    ensures form.values == SetPath(old(form.values), OwnersPath, Arr(RemoveAt(Watched(old(form.values), OwnersPath), i)))
  {
    form.SetValue(OwnersPath, Arr(RemoveAt(Watched(form.values, OwnersPath), i)));
  }

  /** The equity note blocks nothing: two owners of 60% each show it and still pass step 2. */
  lemma EquityWarningDoesNotBlock(fmt: Schema.Formats)
    ensures var owners := [MenteeSchema.OwnerValue("Ann", "CEO", 60.0), MenteeSchema.OwnerValue("Bo", "CTO", 60.0)];
      ShowsEquityWarning(owners) && Schema.Conforms(MenteeSchema.Step2, MenteeSchema.Step2Doc(owners), fmt)
  {
    var owners := [MenteeSchema.OwnerValue("Ann", "CEO", 60.0), MenteeSchema.OwnerValue("Bo", "CTO", 60.0)];
    assert owners[..1] == [owners[0]] && [owners[0]][..0] == [];
    assert TotalEquity(owners) == 120.0;
    MenteeSchema.EquitySumUnchecked(fmt);
  }

  // ---- reference lists ----

  /** The three repeatable reference lists of mentee step 6; the mentor's step 5 has the first only. */
  datatype ReferenceList = BusinessRefs | CustomerRefs | SupplierRefs

  function ReferencePath(l: ReferenceList): (p: seq<string>)
    ensures |p| == 2 && p[0] == "references"
  {
    match l
    case BusinessRefs => ["references", "business"]
    case CustomerRefs => ["references", "customer"]
    case SupplierRefs => ["references", "supplier"]
  }

  /** The paths of two different lists part ways, so writing one never touches the other. */
  lemma ReferencePathsDiverge(l: ReferenceList, m: ReferenceList)
    requires l != m
    ensures Diverge(ReferencePath(l), ReferencePath(m))
  {
    assert ReferencePath(l)[..1] == ReferencePath(m)[..1];
    assert ReferencePath(l)[1] != ReferencePath(m)[1];
  }

  /** `addBusinessRef`, `addCustomerRef`, `addSupplierRef`: append an empty reference to that list only. */
  method AddReferenceClicked(form: FormStore, l: ReferenceList)
    modifies form
    ensures form.values == SetPath(old(form.values), ReferencePath(l), Arr(Watched(old(form.values), ReferencePath(l)) + [EmptyReference]))
    ensures forall m :: m != l ==> GetPath(form.values, ReferencePath(m)) == GetPath(old(form.values), ReferencePath(m))
  {
    form.SetValue(ReferencePath(l), Arr(Watched(form.values, ReferencePath(l)) + [EmptyReference]));
    forall m | m != l ensures Diverge(ReferencePath(l), ReferencePath(m)) {
      ReferencePathsDiverge(l, m);
    }
  }

  /** `removeBusinessRef(i)` and its two siblings: drop index `i` of that list only. */
  method RemoveReferenceClicked(form: FormStore, l: ReferenceList, i: int)
    modifies form
    ensures form.values == SetPath(old(form.values), ReferencePath(l), Arr(RemoveAt(Watched(old(form.values), ReferencePath(l)), i)))
    ensures forall m :: m != l ==> GetPath(form.values, ReferencePath(m)) == GetPath(old(form.values), ReferencePath(m))
  {
    form.SetValue(ReferencePath(l), Arr(RemoveAt(Watched(form.values, ReferencePath(l)), i)));
    forall m | m != l ensures Diverge(ReferencePath(l), ReferencePath(m)) {
      ReferencePathsDiverge(l, m);
    }
  }

  // ---- the team total (mentee step 3, mentor step 2) ----

  /** `watch(path) || 0` for a count held as a number. */
  function CountAt(doc: Value, key: string): real {
    var v := Or(GetPath(doc, ["team", key]), Num(0.0));
    if v.Num? then v.n else 0.0
  }

  /** `fullTime + partTime + contractors` */
  function TeamTotal(doc: Value): real {
    CountAt(doc, "fullTime") + CountAt(doc, "partTime") + CountAt(doc, "contractors")
  }

  lemma TeamPathsDiverge(k: string)
    requires k != "total"
    ensures Diverge(TotalPath, ["team", k])
  {
    assert TotalPath[..1] == ["team", k][..1];
  }

  /** The document after the effect `setValue('team.total', total)` has run. */
  function WithTeamTotal(doc: Value): Value {
    SetPath(doc, TotalPath, Num(TeamTotal(doc)))
  }

  /** The effect writes the sum of the counts at `team.total`. */
  lemma WithTeamTotalSets(doc: Value)
    ensures GetPath(WithTeamTotal(doc), TotalPath) == Num(TeamTotal(doc))
  {
    GetSetSame(doc, TotalPath, Num(TeamTotal(doc)));
  }

  /** The effect leaves the sum itself unchanged. */
  lemma WithTeamTotalKeepsSum(doc: Value)
    ensures TeamTotal(WithTeamTotal(doc)) == TeamTotal(doc)
  {
    var r := WithTeamTotal(doc);
    WithTeamTotalFrame(doc);
    TeamPathsDiverge("fullTime");
    TeamPathsDiverge("partTime");
    TeamPathsDiverge("contractors");
    assert GetPath(r, ["team", "fullTime"]) == GetPath(doc, ["team", "fullTime"]);
    assert GetPath(r, ["team", "partTime"]) == GetPath(doc, ["team", "partTime"]);
    assert GetPath(r, ["team", "contractors"]) == GetPath(doc, ["team", "contractors"]);
  }

  /** The effect leaves every path that parts ways with `team.total` alone. */
  lemma WithTeamTotalFrame(doc: Value)
    ensures forall q :: Diverge(TotalPath, q) ==> GetPath(WithTeamTotal(doc), q) == GetPath(doc, q)
  {
    forall q | Diverge(TotalPath, q) ensures GetPath(WithTeamTotal(doc), q) == GetPath(doc, q) {
      GetSetOther(doc, TotalPath, q, Num(TeamTotal(doc)));
    }
  }

  /** The effect: runs whenever one of the three counts changes. */
  method TeamTotalEffect(form: FormStore)
    modifies form
    ensures form.values == WithTeamTotal(old(form.values))
  {
    form.SetValue(TotalPath, Num(TeamTotal(form.values)));
  }

  /** Running the effect again changes nothing: the total it writes does not feed the sum. */
  lemma TeamTotalIdempotent(doc: Value)
    ensures WithTeamTotal(WithTeamTotal(doc)) == WithTeamTotal(doc)
  {
    WithTeamTotalKeepsSum(doc);
    SetPathTwice(doc, TotalPath, Num(TeamTotal(doc)), Num(TeamTotal(doc)));
  }

  /** After the effect the mentee summary's Team section is complete, whatever the counts. */
  lemma TeamEffectCompletesSection(doc: Value)
    ensures Summary.MenteeSections(WithTeamTotal(doc))[2].isValid
  {
    Summary.MenteeTeamSection(WithTeamTotal(doc));
  }

  /** After the effect a team of non-negative counts passes step 3 with the total equal to the sum. */
  lemma TeamEffectPassesStep3(ft: real, pt: real, ct: real, total: real, fmt: Schema.Formats)
    requires ft >= 0.0 && pt >= 0.0 && ct >= 0.0
    ensures WithTeamTotal(Obj(map["team" := MenteeSchema.TeamValue(ft, pt, ct, total)]))
         == Obj(map["team" := MenteeSchema.TeamValue(ft, pt, ct, ft + pt + ct)])
    ensures Schema.Conforms(MenteeSchema.Step3, WithTeamTotal(Obj(map["team" := MenteeSchema.TeamValue(ft, pt, ct, total)])), fmt)
  {
    TeamEffectSetsSum(ft, pt, ct, total);
    SummedTeamPasses(ft, pt, ct, fmt);
  }

  lemma SummedTeamPasses(ft: real, pt: real, ct: real, fmt: Schema.Formats)
    requires ft >= 0.0 && pt >= 0.0 && ct >= 0.0
    ensures Schema.Conforms(MenteeSchema.Step3, Obj(map["team" := MenteeSchema.TeamValue(ft, pt, ct, ft + pt + ct)]), fmt)
  {
    MenteeSchema.Step3Means(ft, pt, ct, ft + pt + ct, fmt);
  }

  /** The effect replaces the team's total by the sum of its counts and changes nothing else. */
  lemma TeamEffectSetsSum(ft: real, pt: real, ct: real, total: real)
    ensures WithTeamTotal(Obj(map["team" := MenteeSchema.TeamValue(ft, pt, ct, total)]))
         == Obj(map["team" := MenteeSchema.TeamValue(ft, pt, ct, ft + pt + ct)])
  {
    TeamValueTotal(ft, pt, ct, total);
    TeamValueWithTotal(ft, pt, ct, total, ft + pt + ct);
  }

  lemma TeamValueTotal(ft: real, pt: real, ct: real, total: real)
    ensures TeamTotal(Obj(map["team" := MenteeSchema.TeamValue(ft, pt, ct, total)])) == ft + pt + ct
  {
    var doc := Obj(map["team" := MenteeSchema.TeamValue(ft, pt, ct, total)]);
    GetPathTwo(doc, "team", "fullTime");
    GetPathTwo(doc, "team", "partTime");
    GetPathTwo(doc, "team", "contractors");
  }

  lemma TeamValueWithTotal(ft: real, pt: real, ct: real, total: real, sum: real)
    ensures SetPath(Obj(map["team" := MenteeSchema.TeamValue(ft, pt, ct, total)]), TotalPath, Num(sum))
         == Obj(map["team" := MenteeSchema.TeamValue(ft, pt, ct, sum)])
  {
    var t := MenteeSchema.TeamValue(ft, pt, ct, total);
    SetPathTwo(Obj(map["team" := t]), "team", "total", Num(sum));
    assert t.fields["total" := Num(sum)] == MenteeSchema.TeamValue(ft, pt, ct, sum).fields;
  }

  /** Mentor step 2: the "Specify Other Type" field is rendered iff the company type is "Other". */
  predicate TypeOtherShown(doc: Value) {
    GetPath(doc, ["company", "type"]) == Str("Other")
  }

  /** Mentee step 2: the directors count is asked for iff the company has a board of directors. */
  predicate DirectorsCountShown(doc: Value) {
    Truthy(GetPath(doc, ["governance", "hasBoardOfDirectors"]))
  }

  // ---- checkbox lists (mentor steps 1 and 3) ----

  const IndustriesPath: seq<string> := ["company", "industry"]
  const ExpertisePath: seq<string> := ["preferences", "expertiseAreas"]

  /** `onCheckedChange` of the checkbox for `x` in the list at `path`. */
  method CheckboxClicked(form: FormStore, path: seq<string>, x: Value, checked: bool)
    modifies form
    ensures form.values == SetPath(old(form.values), path, CheckboxChange(GetPath(old(form.values), path), x, checked))
    ensures Checked(GetPath(form.values, path), x) == checked
    ensures forall y :: y != x ==> (Checked(GetPath(form.values, path), y) <==> Checked(GetPath(old(form.values), path), y))
  {
    form.SetValue(path, CheckboxChange(GetPath(form.values, path), x, checked));
  }
}
