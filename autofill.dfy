/**
 * The wizards' autofill helpers: a fixed patch of sample answers per step, and the
 * "Autofill All Steps" document that merges every patch into the current form values.
 *
 * The pages merge with object spread, which is shallow: a top-level key of a later patch
 * replaces the whole value of an earlier one. Both wizards put a `company` object in step 0
 * and another in step 1, so the merged document loses the step-0 company fields.
 */
module Autofill {
  import opened Json
  import opened Schema
  import MenteeSchema
  import MentorSchema

  // ---- sample text ----

  const LoremSentence: string :=
    "Lorem ipsum dolor sit amet, consectetur adipiscing elit. Sed do eiusmod tempor incididunt ut labore et dolore magna aliqua. "

  /** `s.repeat(k)` */
  function Repeat(s: string, k: nat): (r: string)
    ensures |r| == |s| * k
  {
    if k == 0 then "" else s + Repeat(s, k - 1)
  }

  /** `lorem(n)`: the first `n` characters of ten copies of the sentence. */
  function Lorem(n: nat): (r: string)
    ensures |r| == if n <= 10 * |LoremSentence| then n else 10 * |LoremSentence|
  {
    var text := Repeat(LoremSentence, 10);
    if n <= |text| then text[..n] else text
  }

  // ---- shorthands for literal documents ----

  function S(s: string): Value { Str(s) }
  function N(x: real): Value { Num(x) }

  function Ref(name: string, company: string, phone: string, email: string): Value {
    Obj(map["name" := S(name), "company" := S(company), "phone" := S(phone), "email" := S(email)])
  }

  function MistakeSample(): Value {
    Obj(map["whatHappened" := S(Lorem(80)), "lesson" := S(Lorem(80))])
  }

  function FinanceYearSample(staff: real, revenue: real, growth: real, profit: real): Value {
    Obj(map["fullTimeEmployees" := N(staff), "annualRevenue" := N(revenue), "revenueGrowthPercent" := N(growth),
            "profitGrowthPercent" := N(profit), "equityPercent" := N(100.0)])
  }

  // ---- the mentee patches ----

  const MenteeApplicant: Value :=
    Obj(map["firstName" := S("Jane"), "lastName" := S("Doe"), "email" := S("jane.doe@example.com"), "title" := S("Founder")])

  const MenteeCompany0: Value :=
    Obj(map["name" := S("Acme Co"), "type" := S("LLC"), "typeOther" := S(""), "industry" := Arr([S("Technology")]),
            "website" := S("https://acme.co"), "phoneBusiness" := S("8161234567")])

  const MenteeBusinessAddress: Value :=
    Obj(map["street1" := S("123 Main St"), "street2" := S("Suite 100"), "city" := S("Kansas City"), "state" := S("MO"),
            "postalCode" := S("64111"), "country" := S("US")])

  const MenteeCompany1: Value :=
    Obj(map["yearsInBusiness" := N(2.0), "fiscalYearEnd" := S("December"), "founderIsApplicant" := Bool(true),
            "ultimateDecisionMaker" := Bool(true),
            "ownership" := Arr([Obj(map["name" := S("Jane Doe"), "title" := S("CEO"), "equityPercent" := N(100.0)])])])

  /** `menteeStepPatch(step)`; `now` is the ISO time the signature patch stamps. */
  function MenteeStepPatch(step: int, now: string): (r: Value)
    ensures r.Obj?
  {
    if step == 0 then MenteePatch0()
    else if step == 1 then MenteePatch1()
    else if step == 2 then MenteePatch2()
    else if step == 3 then MenteePatch3()
    else if step == 4 then MenteePatch4()
    else if step == 5 then MenteePatch5()
    else if step == 6 then MenteePatch6()
    else if step == 7 then MenteePatch7(now)
    else Obj(map[])
  }

  function MenteePatch0(): Value {
    Obj(map["applicant" := MenteeApplicant, "company" := MenteeCompany0,
            "applicant_phoneMobile" := S("8165551212"),
            "referral" := Obj(map["source" := S("Web search")]),
            "address" := Obj(map["business" := MenteeBusinessAddress])])
  }

  function MenteePatch1(): Value {
    Obj(map["company" := MenteeCompany1,
            "governance" := Obj(map["hasBoardOfDirectors" := Bool(false), "hasAdvisoryBoard" := Bool(true),
                                    "directorsCount" := N(3.0)])])
  }

  function MenteePatch2(): Value {
    Obj(map["team" := Obj(map["fullTime" := N(3.0), "partTime" := N(1.0), "contractors" := N(2.0), "total" := N(6.0)])])
  }

  function MenteePatch3(): Value {
    Obj(map["finance" := Obj(map[
      "years" := Obj(map["2023" := FinanceYearSample(2.0, 150000.0, 20.0, 10.0),
                         "2024" := FinanceYearSample(3.0, 250000.0, 30.0, 15.0),
                         "2025" := FinanceYearSample(4.0, 400000.0, 60.0, 25.0)]),
      "wasProfitableLastYear" := Bool(true), "currentlyProfitable" := Bool(true),
      "largestCustomerSharePercent" := N(25.0), "takesAnnualSalary" := Bool(true), "contextNotes" := S("N/A")])])
  }

  function MenteePatch4(): Value {
    Obj(map["strengths" := Obj(map["matrix" := Obj(map["leadership" := S("Strong"), "finance" := S("Moderate"),
                                                       "sales" := S("Strong")])]),
            "narratives" := Obj(map["biggestSuccess" := S(Lorem(160)), "helpAreas" := S(Lorem(160)),
                                    "mistakes" := Arr([MistakeSample(), MistakeSample(), MistakeSample()]),
                                    "whyHEMP" := S(Lorem(170))])])
  }

  function MenteePatch5(): Value {
    Obj(map["references" := Obj(map[
      "accountant" := Obj(map["name" := S("A Person"), "firm" := S("CPA LLC"), "phone" := S("8161112222"),
                              "email" := S("acct@example.com")]),
      "attorney" := Obj(map["name" := S("B Person"), "firm" := S("Law LLC"), "phone" := S("8163334444"),
                            "email" := S("atty@example.com")]),
      "bank" := Obj(map["name" := S("C Person"), "bankName" := S("Bank Inc"), "phone" := S("8165556666"),
                        "email" := S("bank@example.com")]),
      "business" := Arr([Ref("Biz Ref 1", "Co 1", "8167778888", "biz1@example.com"),
                         Ref("Biz Ref 2", "Co 2", "8169990000", "biz2@example.com")]),
      "customer" := Arr([Ref("Cust Ref 1", "Cust Co 1", "8161010101", "cust1@example.com"),
                         Ref("Cust Ref 2", "Cust Co 2", "8162020202", "cust2@example.com")]),
      "supplier" := Arr([Ref("Supp Ref 1", "Supp Co 1", "8163030303", "supp1@example.com"),
                         Ref("Supp Ref 2", "Supp Co 2", "8164040404", "supp2@example.com")])])])
  }

  function MenteePatch6(): Value {
    Obj(map["uploads" := Obj(map[
      "coverLetter" := Arr([S("cover.pdf")]), "orgChart" := Arr([S("org.pdf")]),
      "personalBioOrResume" := Arr([S("bio.pdf")]), "businessDescription" := Arr([S("desc.pdf")]),
      "releaseGeneral" := Arr([S("gen.pdf")]), "releaseInfoAuthorization" := Arr([S("auth.pdf")]),
      "releaseApplicationInfo" := Arr([S("app.pdf")]), "headshot" := Arr([S("head.jpg")])])])
  }

  function MenteePatch7(now: string): Value {
    Obj(map["signature" := Obj(map["typedName" := S("Jane Doe"), "consent" := Bool(true), "drawn" := S(""),
                                   "method" := S("typed"), "timestamp" := S(now), "ip" := S("127.0.0.1")])])
  }

  // ---- the mentor patches ----

  const MentorCompany0: Value :=
    Obj(map["name" := S("MentorCo"), "industry" := Arr([S("Technology")]), "website" := S("https://mentor.co")])

  const MentorCompany1: Value :=
    Obj(map["type" := S("LLC"), "typeOther" := S(""), "experienceNotes" := S("20 years in the industry")])

  /** `mentorStepPatch(step)` */
  function MentorStepPatch(step: int, now: string): (r: Value)
    ensures r.Obj?
  {
    if step == 0 then MentorPatch0()
    else if step == 1 then MentorPatch1()
    else if step == 2 then MentorPatch2()
    else if step == 3 then MentorPatch3()
    else if step == 4 then MentorPatch4()
    else if step == 5 then MentorPatch5()
    else if step == 6 then MentorPatch6(now)
    else Obj(map[])
  }

  function MentorPatch0(): Value {
    Obj(map["person" := Obj(map["firstName" := S("John"), "lastName" := S("Smith"),
                                "email" := S("john.smith@example.com"), "title" := S("President")]),
            "company" := MentorCompany0,
            "phones" := Obj(map["business" := S("8161112222"), "mobile" := S("8163334444")]),
            "address" := Obj(map["business" := Obj(map["street1" := S("500 Market St"), "street2" := S(""),
                                                       "city" := S("Kansas City"), "state" := S("MO"),
                                                       "postalCode" := S("64106"), "country" := S("US")])]),
            "referral" := Obj(map["source" := S("Friend")])])
  }

  function MentorPatch1(): Value {
    Obj(map["background" := Obj(map["yearsInLeadershipOrOwnership" := N(12.0)]),
            "team" := Obj(map["fullTime" := N(50.0), "partTime" := N(10.0), "contractors" := N(5.0), "total" := N(65.0)]),
            "company" := MentorCompany1])
  }

  function MentorPatch2(): Value {
    Obj(map["preferences" := Obj(map["expertiseAreas" := Arr([S("Finance"), S("Marketing")]),
                                     "availabilityHoursPerMonth" := N(10.0), "meetingPreference" := S("Virtual"),
                                     "capacityMentees" := N(2.0), "geography" := S("US"),
                                     "notes" := S("Happy to help")])])
  }

  function MentorPatch3(): Value {
    Obj(map["strengths" := Obj(map["matrix" := Obj(map["leadership" := S("Strong"), "strategy" := S("Excellent")])]),
            "narratives" := Obj(map["biggestSuccess" := S(Lorem(180)),
                                    "mistakes" := Arr([MistakeSample(), MistakeSample(), MistakeSample()]),
                                    "helpAreasAsLeader" := S(Lorem(160)), "whyHEMP" := S(Lorem(170))])])
  }

  function MentorPatch4(): Value {
    Obj(map["references" := Obj(map["business" := Arr([
      Ref("Ref One", "Co A", "8165550001", "ref1@example.com"),
      Ref("Ref Two", "Co B", "8165550002", "ref2@example.com"),
      Ref("Ref Three", "Co C", "8165550003", "ref3@example.com")])])])
  }

  function MentorPatch5(): Value {
    Obj(map["uploads" := Obj(map["bio" := Arr([S("bio.pdf")]), "headshot" := Arr([S("head.jpg")]),
                                 "additionalDocs" := Arr([S("addl.pdf")])])])
  }

  function MentorPatch6(now: string): Value {
    Obj(map["signature" := Obj(map["typedName" := S("John Smith"), "consent" := Bool(true), "drawn" := S(""),
                                   "method" := S("typed"), "timestamp" := S(now), "ip" := S("127.0.0.1")])])
  }

  // ---- the shallow merge, as the pages do it ----

  /** `let data = {}; for (const p of ps) data = { ...data, ...p }` */
  function ShallowFold(ps: seq<Value>): Value {
    if ps == [] then Obj(map[]) else Spread(ShallowFold(ps[..|ps| - 1]), ps[|ps| - 1])
  }

  /** The value of key `k` in the last of `ps` that has it; `undefined` when none has. */
  function LastWith(ps: seq<Value>, k: string): Value {
    if ps == [] then Undefined
    else if k in FieldsOf(ps[|ps| - 1]) then ps[|ps| - 1].fields[k]
    else LastWith(ps[..|ps| - 1], k)
  }

  /** The shallow merge takes every top-level key, whole, from the last patch that has it. */
  lemma {:induction false} ShallowFoldTakesLast(ps: seq<Value>, k: string)
    ensures ShallowFold(ps).Obj?
    ensures Prop(ShallowFold(ps), k) == LastWith(ps, k)
  {
    if ps != [] {
      ShallowFoldTakesLast(ps[..|ps| - 1], k);
      SpreadProp(ShallowFold(ps[..|ps| - 1]), ps[|ps| - 1], k);
    }
  }

  /** Patches after index `j` that lack the key do not change where it comes from. */
  lemma {:induction false} LastWithSkips(ps: seq<Value>, k: string, j: nat)
    requires j <= |ps| && forall i :: j <= i < |ps| ==> k !in FieldsOf(ps[i])
    ensures LastWith(ps, k) == LastWith(ps[..j], k)
    decreases |ps|
  {
    if j < |ps| {
      var q := ps[..|ps| - 1];
      assert q[..j] == ps[..j];
      LastWithSkips(q, k, j);
    } else {
      assert ps[..j] == ps;
    }
  }

  /** When patch `j` has the key and no later patch does, the key comes from patch `j`. */
  lemma LastWithAt(ps: seq<Value>, k: string, j: nat)
    requires j < |ps| && k in FieldsOf(ps[j])
    requires forall i :: j < i < |ps| ==> k !in FieldsOf(ps[i])
    ensures LastWith(ps, k) == ps[j].fields[k]
  {
    LastWithSkips(ps, k, j + 1);
    assert ps[..j + 1][j] == ps[j];
  }

  /** The loop of `menteeAllData()` and `mentorAllData()`: each step's patch spread over the data so far. */
  method ShallowMergeAll(ps: seq<Value>) returns (data: Value)
    ensures data == ShallowFold(ps)
  {
    data := Obj(map[]);
    for i := 0 to |ps|
      invariant data == ShallowFold(ps[..i])
    {
      assert ps[..i + 1][..i] == ps[..i];
      data := Spread(data, ps[i]);
    }
    assert ps[..|ps|] == ps;
  }

  function MenteePatches(now: string): (ps: seq<Value>)
    ensures |ps| == 8 && forall i :: 0 <= i < 8 ==> ps[i] == MenteeStepPatch(i, now)
  {
    seq(8, i requires 0 <= i < 8 => MenteeStepPatch(i, now))
  }

  function MentorPatches(now: string): (ps: seq<Value>)
    ensures |ps| == 7 && forall i :: 0 <= i < 7 ==> ps[i] == MentorStepPatch(i, now)
  {
    seq(7, i requires 0 <= i < 7 => MentorStepPatch(i, now))
  }

  /** `menteeAllData()`: the patches of steps 0..7 merged in order, then spread over the form values. */
  method MenteeAllData(current: Value, now: string) returns (r: Value)
    ensures r == Spread(current, ShallowFold(MenteePatches(now)))
  {
    var data := ShallowMergeAll(MenteePatches(now));
    r := Spread(current, data);
  }

  /** `mentorAllData()`: the patches of steps 0..6 merged in order, then spread over the form values. */
  method MentorAllData(current: Value, now: string) returns (r: Value)
    ensures r == Spread(current, ShallowFold(MentorPatches(now)))
  {
    var data := ShallowMergeAll(MentorPatches(now));
    r := Spread(current, data);
  }

  // ---- what single mentee patches hold, one fact per lemma ----

  /** The keys step 1 of the mentee wizard reads at the top level. */
  const Step1TopKeys: set<string> := {"applicant", "company", "applicant_phoneMobile", "referral", "address"}

  lemma MenteeStep0Applicant(now: string)
    ensures "applicant" in FieldsOf(MenteeStepPatch(0, now)) && MenteeStepPatch(0, now).fields["applicant"] == MenteeApplicant
  {}
  lemma MenteeStep0Company(now: string)
    ensures "company" in FieldsOf(MenteeStepPatch(0, now)) && MenteeStepPatch(0, now).fields["company"] == MenteeCompany0
  {}
  lemma MenteeStep0Phone(now: string)
    ensures "applicant_phoneMobile" in FieldsOf(MenteeStepPatch(0, now))
    ensures MenteeStepPatch(0, now).fields["applicant_phoneMobile"] == S("8165551212")
  {}
  lemma MenteeStep0Referral(now: string)
    ensures "referral" in FieldsOf(MenteeStepPatch(0, now))
    ensures MenteeStepPatch(0, now).fields["referral"] == Obj(map["source" := S("Web search")])
  {}
  lemma MenteeStep0Address(now: string)
    ensures "address" in FieldsOf(MenteeStepPatch(0, now))
    ensures MenteeStepPatch(0, now).fields["address"] == Obj(map["business" := MenteeBusinessAddress])
  {}

  lemma MenteeStep1Company(now: string)
    ensures "company" in FieldsOf(MenteeStepPatch(1, now)) && MenteeStepPatch(1, now).fields["company"] == MenteeCompany1
  {}
  lemma MenteeStep1Avoids(now: string, k: string)
    requires k in Step1TopKeys && k != "company"
    ensures k !in FieldsOf(MenteeStepPatch(1, now))
  {}

  lemma MenteeStep2Avoids(now: string, k: string) requires k in Step1TopKeys ensures k !in FieldsOf(MenteeStepPatch(2, now)) {}
  lemma MenteeStep3Avoids(now: string, k: string) requires k in Step1TopKeys ensures k !in FieldsOf(MenteeStepPatch(3, now)) {}
  lemma MenteeStep4Avoids(now: string, k: string) requires k in Step1TopKeys ensures k !in FieldsOf(MenteeStepPatch(4, now)) {}
  lemma MenteeStep5Avoids(now: string, k: string) requires k in Step1TopKeys ensures k !in FieldsOf(MenteeStepPatch(5, now)) {}
  lemma MenteeStep6Avoids(now: string, k: string) requires k in Step1TopKeys ensures k !in FieldsOf(MenteeStepPatch(6, now)) {}
  lemma MenteeStep7Avoids(now: string, k: string) requires k in Step1TopKeys ensures k !in FieldsOf(MenteeStepPatch(7, now)) {}

  lemma LaterPatchAvoids(now: string, k: string, i: int)
    requires k in Step1TopKeys && 2 <= i < 8
    ensures k !in FieldsOf(MenteeStepPatch(i, now))
  {
    if i == 2 { MenteeStep2Avoids(now, k); }
    else if i == 3 { MenteeStep3Avoids(now, k); }
    else if i == 4 { MenteeStep4Avoids(now, k); }
    else if i == 5 { MenteeStep5Avoids(now, k); }
    else if i == 6 { MenteeStep6Avoids(now, k); }
    else { MenteeStep7Avoids(now, k); }
  }

  /** No mentee patch after step 1 touches a key step 1 reads. */
  lemma LaterPatchesAvoid(now: string, k: string)
    requires k in Step1TopKeys
    ensures forall i :: 2 <= i < 8 ==> k !in FieldsOf(MenteeStepPatch(i, now))
  {
    forall i | 2 <= i < 8 ensures k !in FieldsOf(MenteeStepPatch(i, now)) {
      LaterPatchAvoids(now, k, i);
    }
  }

  lemma MenteePatchesAreObjects(now: string)
    ensures forall i :: 0 <= i < |MenteePatches(now)| ==> MenteePatches(now)[i].Obj?
  {}

  lemma Company1LacksName()
    ensures Prop(MenteeCompany1, "name") == Undefined
  {}

  // ---- the mentee finding ----

  /** The mentee all-steps document holds the step-1 company object, which has no name. */
  lemma MenteeAllDataCompany(current: Value, now: string)
    ensures Prop(Spread(current, ShallowFold(MenteePatches(now))), "company") == MenteeCompany1
  {
    MenteeShallowCompany(now);
    SpreadProp(current, ShallowFold(MenteePatches(now)), "company");
  }

  lemma MenteeShallowCompany(now: string)
    ensures ShallowFold(MenteePatches(now)).Obj?
    ensures "company" in ShallowFold(MenteePatches(now)).fields
    ensures ShallowFold(MenteePatches(now)).fields["company"] == MenteeCompany1
  {
    var ps := MenteePatches(now);
    ShallowFoldTakesLast(ps, "company");
    LaterPatchesAvoid(now, "company");
    MenteeStep1Company(now);
    LastWithAt(ps, "company", 1);
  }

  /** Whatever the form held, "Autofill All Steps" on the mentee wizard yields a document that
      step 1 rejects: the company name is gone. */
  lemma MenteeAllDataFailsStep1(current: Value, now: string, fmt: Formats)
    ensures Prop(Prop(Spread(current, ShallowFold(MenteePatches(now))), "company"), "name") == Undefined
    ensures !Conforms(MenteeSchema.Step1, Spread(current, ShallowFold(MenteePatches(now))), fmt)
  {
    var r := Spread(current, ShallowFold(MenteePatches(now)));
    MenteeAllDataCompany(current, now);
    Company1LacksName();
    if Conforms(MenteeSchema.Step1, r, fmt) {
      MenteeStep1NeedsName(r, fmt);
    }
  }

  /** Step 1 of the mentee wizard needs a company name of at least two characters. */
  lemma MenteeStep1NeedsName(doc: Value, fmt: Formats)
    requires Conforms(MenteeSchema.Step1, doc, fmt)
    ensures StrAtLeast(Prop(Prop(doc, "company"), "name"), 2)
  {
    MenteeSchema.Step1Parts(doc, fmt);
    MenteeSchema.CompanyBasicsDemands(Prop(doc, "company"), fmt);
  }

  // ---- the mentor finding ----

  lemma MentorStep1Company(now: string)
    ensures "company" in FieldsOf(MentorStepPatch(1, now)) && MentorStepPatch(1, now).fields["company"] == MentorCompany1
  {}
  lemma MentorStep2LacksCompany(now: string) ensures "company" !in FieldsOf(MentorStepPatch(2, now)) {}
  lemma MentorStep3LacksCompany(now: string) ensures "company" !in FieldsOf(MentorStepPatch(3, now)) {}
  lemma MentorStep4LacksCompany(now: string) ensures "company" !in FieldsOf(MentorStepPatch(4, now)) {}
  lemma MentorStep5LacksCompany(now: string) ensures "company" !in FieldsOf(MentorStepPatch(5, now)) {}
  lemma MentorStep6LacksCompany(now: string) ensures "company" !in FieldsOf(MentorStepPatch(6, now)) {}

  lemma MentorLaterPatchLacksCompany(now: string, i: int)
    requires 2 <= i < 7
    ensures "company" !in FieldsOf(MentorStepPatch(i, now))
  {
    if i == 2 { MentorStep2LacksCompany(now); }
    else if i == 3 { MentorStep3LacksCompany(now); }
    else if i == 4 { MentorStep4LacksCompany(now); }
    else if i == 5 { MentorStep5LacksCompany(now); }
    else { MentorStep6LacksCompany(now); }
  }

  /** Only the mentor patches of steps 0 and 1 carry a `company` key. */
  lemma MentorCompanyOnlyInFirstTwo(now: string)
    ensures forall i :: 2 <= i < 7 ==> "company" !in FieldsOf(MentorStepPatch(i, now))
  {
    forall i | 2 <= i < 7 ensures "company" !in FieldsOf(MentorStepPatch(i, now)) {
      MentorLaterPatchLacksCompany(now, i);
    }
  }

  lemma MentorCompany1LacksName()
    ensures Prop(MentorCompany1, "name") == Undefined
  {}

  /** The mentor all-steps document holds the step-1 company object, which has no name. */
  lemma MentorAllDataCompany(current: Value, now: string)
    ensures Prop(Spread(current, ShallowFold(MentorPatches(now))), "company") == MentorCompany1
  {
    var ps := MentorPatches(now);
    ShallowFoldTakesLast(ps, "company");
    SpreadProp(current, ShallowFold(ps), "company");
    MentorCompanyOnlyInFirstTwo(now);
    MentorStep1Company(now);
    LastWithAt(ps, "company", 1);
  }

  /** Whatever the form held, "Autofill All Steps" on the mentor wizard yields a document that
      step 1 rejects. */
  lemma MentorAllDataFailsStep1(current: Value, now: string, fmt: Formats)
    ensures Prop(Prop(Spread(current, ShallowFold(MentorPatches(now))), "company"), "name") == Undefined
    ensures !Conforms(MentorSchema.Step1, Spread(current, ShallowFold(MentorPatches(now))), fmt)
  {
    var r := Spread(current, ShallowFold(MentorPatches(now)));
    MentorAllDataCompany(current, now);
    MentorCompany1LacksName();
    if Conforms(MentorSchema.Step1, r, fmt) {
      MentorStep1NeedsName(r, fmt);
    }
  }

  /** Step 1 of the mentor wizard needs a company name of at least two characters. */
  lemma MentorStep1NeedsName(doc: Value, fmt: Formats)
    requires Conforms(MentorSchema.Step1, doc, fmt)
    ensures StrAtLeast(Prop(Prop(doc, "company"), "name"), 2)
  {
    FieldAt(MentorSchema.Step1.fields, doc, fmt, 1);
    MentorSchema.CompanyDemands(Prop(doc, "company"), fmt);
  }

  // ---- the corrected merge ----

  /** A recursive merge: where both sides hold an object, their keys are merged in turn;
      otherwise the right side wins unless it is `undefined`. */
  function DeepMerge(a: Value, b: Value): Value
    decreases b
  {
    if a.Obj? && b.Obj? then
      Obj(map k | k in a.fields.Keys + b.fields.Keys ::
        if k in a.fields && k in b.fields then DeepMerge(a.fields[k], b.fields[k])
        else if k in b.fields then b.fields[k] else a.fields[k])
    else if b == Undefined then a else b
  }

  /** The patches merged in order with `DeepMerge`. */
  function DeepFold(ps: seq<Value>): Value {
    if ps == [] then Obj(map[]) else DeepMerge(DeepFold(ps[..|ps| - 1]), ps[|ps| - 1])
  }

  /** The corrected loop: each step's patch merged deeply into the data so far. */
  method DeepMergeAll(ps: seq<Value>) returns (data: Value)
    ensures data == DeepFold(ps)
  {
    data := Obj(map[]);
    for i := 0 to |ps|
      invariant data == DeepFold(ps[..i])
    {
      assert ps[..i + 1][..i] == ps[..i];
      data := DeepMerge(data, ps[i]);
    }
    assert ps[..|ps|] == ps;
  }

  /** The corrected `menteeAllData()`: the patches merged deeply, then spread over the form values. */
  method MenteeAllDataDeep(current: Value, now: string) returns (r: Value)
    ensures r == Spread(current, DeepFold(MenteePatches(now)))
  {
    var data := DeepMergeAll(MenteePatches(now));
    r := Spread(current, data);
  }

  /** Merging two objects: a key that only the left side has keeps its value. */
  lemma DeepMergeKeepsLeftKey(a: Value, b: Value, k: string)
    requires a.Obj? && b.Obj? && k !in b.fields
    ensures DeepMerge(a, b).Obj? && Prop(DeepMerge(a, b), k) == Prop(a, k)
  {
  }

  /** `b` holds nothing at path `p`: the walk along `p` reaches `undefined` through objects only. */
  predicate Misses(b: Value, p: seq<string>)
    decreases |p|
  {
    b == Undefined || (p != [] && b.Obj? && Misses(Prop(b, p[0]), p[1..]))
  }

  /** The merge keeps every path of the left side that the right side does not reach. */
  lemma {:induction false} DeepMergeKeepsLeft(a: Value, b: Value, p: seq<string>)
    requires Misses(b, p)
    ensures GetPath(DeepMerge(a, b), p) == GetPath(a, p)
    decreases |p|
  {
    if b != Undefined {
      var k := p[0];
      if a.Obj? {
        if k in a.fields && k in b.fields {
          DeepMergeKeepsLeft(a.fields[k], b.fields[k], p[1..]);
        } else if k in b.fields {
          MissesReadsUndefined(b.fields[k], p[1..]);
          assert GetPath(a, p) == GetPath(Undefined, p[1..]);
          UndefinedPath(p[1..]);
        }
      } else {
        MissesReadsUndefined(b, p);
        UndefinedPath(p[1..]);
      }
    }
  }

  /** A path the right side does not reach reads `undefined` in it. */
  lemma {:induction false} MissesReadsUndefined(b: Value, p: seq<string>)
    requires Misses(b, p)
    ensures GetPath(b, p) == Undefined
    decreases |p|
  {
    if b == Undefined {
      UndefinedPath(p);
    } else {
      MissesReadsUndefined(Prop(b, p[0]), p[1..]);
    }
  }

  /** The merge keeps every leaf of the right side. */
  lemma {:induction false} DeepMergeKeepsRight(a: Value, b: Value, p: seq<string>)
    requires GetPath(b, p) != Undefined && !GetPath(b, p).Obj?
    ensures GetPath(DeepMerge(a, b), p) == GetPath(b, p)
    decreases |p|
  {
    if p != [] {
      var k := p[0];
      if b.Obj? && k in b.fields {
        if a.Obj? && k in a.fields {
          DeepMergeKeepsRight(a.fields[k], b.fields[k], p[1..]);
        }
      } else {
        UndefinedPath(p[1..]);
      }
    }
  }

  /** Patches after index `j` that lack the key leave that key of the deep merge as it was. */
  lemma {:induction false} DeepFoldSkips(ps: seq<Value>, k: string, j: nat)
    requires j <= |ps| && forall i :: 0 <= i < |ps| ==> ps[i].Obj?
    requires forall i :: j <= i < |ps| ==> k !in FieldsOf(ps[i])
    ensures DeepFold(ps).Obj? && Prop(DeepFold(ps), k) == Prop(DeepFold(ps[..j]), k)
    decreases |ps|
  {
    if ps == [] {
    } else if j < |ps| {
      var q := ps[..|ps| - 1];
      assert q[..j] == ps[..j];
      DeepFoldSkips(q, k, j);
      DeepMergeKeepsLeftKey(DeepFold(q), ps[|ps| - 1], k);
    } else {
      assert ps[..j] == ps;
      DeepFoldSkips(ps[..|ps| - 1], k, |ps| - 1);
    }
  }

  /** Merging into the empty object gives the other object back. */
  lemma DeepMergeIntoEmpty(b: Value)
    requires b.Obj?
    ensures DeepMerge(Obj(map[]), b) == b
  {
    assert DeepMerge(Obj(map[]), b).fields == b.fields;
  }

  /** The deep merge of one patch is that patch. */
  lemma DeepFoldOne(ps: seq<Value>)
    requires |ps| >= 1 && ps[0].Obj?
    ensures DeepFold(ps[..1]) == ps[0]
  {
    assert ps[..1][..0] == [];
    DeepMergeIntoEmpty(ps[0]);
  }

  /** A key that only the first patch holds comes through the deep merge unchanged. */
  lemma DeepFoldFromFirst(ps: seq<Value>, k: string)
    requires |ps| >= 1 && forall i :: 0 <= i < |ps| ==> ps[i].Obj?
    requires k in ps[0].fields && forall i :: 1 <= i < |ps| ==> k !in FieldsOf(ps[i])
    ensures Prop(DeepFold(ps), k) == ps[0].fields[k]
  {
    DeepFoldSkips(ps, k, 1);
    DeepFoldOne(ps);
  }

  /** A key that only the first two patches hold is their two values merged. */
  lemma DeepFoldFromFirstTwo(ps: seq<Value>, k: string)
    requires |ps| >= 2 && forall i :: 0 <= i < |ps| ==> ps[i].Obj?
    requires k in ps[0].fields && k in ps[1].fields
    requires forall i :: 2 <= i < |ps| ==> k !in FieldsOf(ps[i])
    ensures Prop(DeepFold(ps), k) == DeepMerge(ps[0].fields[k], ps[1].fields[k])
  {
    DeepFoldSkips(ps, k, 2);
    var q := ps[..2];
    assert q[..1] == ps[..1] && q[1] == ps[1];
    DeepFoldOne(ps);
  }

  /** Under a key step 1 reads, other than `company`, the corrected document holds step 0's answer. */
  lemma MenteeDeepKeyFromStep0(current: Value, now: string, k: string)
    requires k in Step1TopKeys && k != "company"
    requires k in FieldsOf(MenteeStepPatch(0, now)) && MenteeStepPatch(0, now).fields[k] != Undefined
    ensures Prop(Spread(current, DeepFold(MenteePatches(now))), k) == MenteeStepPatch(0, now).fields[k]
  {
    var ps := MenteePatches(now);
    MenteePatchesAreObjects(now);
    MenteeStep1Avoids(now, k);
    LaterPatchesAvoid(now, k);
    DeepFoldFromFirst(ps, k);
    SpreadProp(current, DeepFold(ps), k);
  }

  /** The corrected document holds the two company objects merged. */
  lemma MenteeDeepCompany(current: Value, now: string)
    ensures Prop(Spread(current, DeepFold(MenteePatches(now))), "company") == DeepMerge(MenteeCompany0, MenteeCompany1)
  {
    var ps := MenteePatches(now);
    MenteePatchesAreObjects(now);
    MenteeStep0Company(now);
    MenteeStep1Company(now);
    LaterPatchesAvoid(now, "company");
    DeepFoldFromFirstTwo(ps, "company");
    MergedCompanyIsObject();
    SpreadProp(current, DeepFold(ps), "company");
  }

  lemma MergedCompanyIsObject()
    ensures DeepMerge(MenteeCompany0, MenteeCompany1).Obj?
  {}

  // ---- the sample answers of step 0 pass the step-1 schema ----

  /** The keys the company schema reads. */
  const CompanyKeys: set<string> := {"name", "type", "typeOther", "industry", "website", "phoneBusiness"}

  lemma CompanyBasicsKeys()
    ensures forall i :: 0 <= i < |MenteeSchema.CompanyBasics.fields| ==> MenteeSchema.CompanyBasics.fields[i].key in CompanyKeys
  {}

  /** The step-1 company object holds none of the keys the company schema reads. */
  lemma Company1Avoids(k: string)
    requires k in CompanyKeys
    ensures k !in MenteeCompany1.fields
  {}

  /** Merged deeply, the step-1 company object keeps every key the step-0 schema reads. */
  lemma MenteeMergedCompanyKeys()
    ensures forall i :: 0 <= i < |MenteeSchema.CompanyBasics.fields| ==>
      Prop(DeepMerge(MenteeCompany0, MenteeCompany1), MenteeSchema.CompanyBasics.fields[i].key)
      == Prop(MenteeCompany0, MenteeSchema.CompanyBasics.fields[i].key)
  {
    CompanyBasicsKeys();
    forall k | k in CompanyKeys
      ensures Prop(DeepMerge(MenteeCompany0, MenteeCompany1), k) == Prop(MenteeCompany0, k)
    {
      Company1Avoids(k);
      DeepMergeKeepsLeftKey(MenteeCompany0, MenteeCompany1, k);
    }
  }

  // The sample company object of step 0 passes the company schema, field by field.
  lemma CompanyName(fmt: Formats) ensures FieldConforms(MenteeSchema.CompanyBasics.fields[0], MenteeCompany0, fmt) {
    MenteeSchema.MinStrMeans(2, "Company name is required", S("Acme Co"), fmt);
  }
  lemma CompanyType(fmt: Formats) ensures FieldConforms(MenteeSchema.CompanyBasics.fields[1], MenteeCompany0, fmt) {
    MenteeSchema.MinStrMeans(1, "Company type is required", S("LLC"), fmt);
  }
  lemma CompanyTypeOther(fmt: Formats) ensures FieldConforms(MenteeSchema.CompanyBasics.fields[2], MenteeCompany0, fmt) {
  }
  lemma CompanyIndustry(fmt: Formats) ensures FieldConforms(MenteeSchema.CompanyBasics.fields[3], MenteeCompany0, fmt) {
  }
  lemma CompanyWebsite(fmt: Formats)
    requires fmt.isUrl("https://acme.co")
    ensures FieldConforms(MenteeSchema.CompanyBasics.fields[4], MenteeCompany0, fmt)
  {
    OneStrCheck(UrlFormat("Invalid url"), S("https://acme.co"), fmt);
  }
  lemma CompanyPhone(fmt: Formats) ensures FieldConforms(MenteeSchema.CompanyBasics.fields[5], MenteeCompany0, fmt) {
    MenteeSchema.MinStrMeans(10, "Business phone is required", S("8161234567"), fmt);
  }

  lemma CompanyField(i: int, fmt: Formats)
    requires 0 <= i < |MenteeSchema.CompanyBasics.fields| && fmt.isUrl("https://acme.co")
    ensures FieldConforms(MenteeSchema.CompanyBasics.fields[i], MenteeCompany0, fmt)
  {
    if i == 0 { CompanyName(fmt); }
    else if i == 1 { CompanyType(fmt); }
    else if i == 2 { CompanyTypeOther(fmt); }
    else if i == 3 { CompanyIndustry(fmt); }
    else if i == 4 { CompanyWebsite(fmt); }
    else { CompanyPhone(fmt); }
  }

  /** The sample company object of step 0 passes the company schema. */
  lemma MenteeCompanyPasses(fmt: Formats)
    requires fmt.isUrl("https://acme.co")
    ensures Conforms(MenteeSchema.CompanyBasics, MenteeCompany0, fmt)
  {
    forall i | 0 <= i < |MenteeSchema.CompanyBasics.fields|
      ensures FieldConforms(MenteeSchema.CompanyBasics.fields[i], MenteeCompany0, fmt)
    {
      CompanyField(i, fmt);
    }
  }

  /** The merged company object passes the step-1 company schema. */
  lemma MenteeMergedCompanyPasses(fmt: Formats)
    requires fmt.isUrl("https://acme.co")
    ensures Conforms(MenteeSchema.CompanyBasics, DeepMerge(MenteeCompany0, MenteeCompany1), fmt)
  {
    MenteeMergedCompanyKeys();
    MergedCompanyIsObject();
    SameKeysSameVerdict(MenteeSchema.CompanyBasics.fields, DeepMerge(MenteeCompany0, MenteeCompany1), MenteeCompany0, fmt);
    MenteeCompanyPasses(fmt);
  }

  // The sample applicant passes the applicant schema, field by field.
  lemma ApplicantFirst(fmt: Formats) ensures FieldConforms(MenteeSchema.Applicant.fields[0], MenteeApplicant, fmt) {
    MenteeSchema.MinStrMeans(2, "First name is required", S("Jane"), fmt);
  }
  lemma ApplicantLast(fmt: Formats) ensures FieldConforms(MenteeSchema.Applicant.fields[1], MenteeApplicant, fmt) {
    MenteeSchema.MinStrMeans(2, "Last name is required", S("Doe"), fmt);
  }
  lemma ApplicantEmail(fmt: Formats)
    requires fmt.isEmail("jane.doe@example.com")
    ensures FieldConforms(MenteeSchema.Applicant.fields[2], MenteeApplicant, fmt)
  {
    OneStrCheck(EmailFormat("Valid email is required"), S("jane.doe@example.com"), fmt);
  }
  lemma ApplicantTitle(fmt: Formats) ensures FieldConforms(MenteeSchema.Applicant.fields[3], MenteeApplicant, fmt) {
    MenteeSchema.MinStrMeans(2, "Title is required", S("Founder"), fmt);
  }

  lemma ApplicantField(i: int, fmt: Formats)
    requires 0 <= i < |MenteeSchema.Applicant.fields| && fmt.isEmail("jane.doe@example.com")
    ensures FieldConforms(MenteeSchema.Applicant.fields[i], MenteeApplicant, fmt)
  {
    if i == 0 { ApplicantFirst(fmt); }
    else if i == 1 { ApplicantLast(fmt); }
    else if i == 2 { ApplicantEmail(fmt); }
    else { ApplicantTitle(fmt); }
  }

  /** The sample applicant passes the applicant schema. */
  lemma MenteeApplicantPasses(fmt: Formats)
    requires fmt.isEmail("jane.doe@example.com")
    ensures Conforms(MenteeSchema.Applicant, MenteeApplicant, fmt)
  {
    forall i | 0 <= i < |MenteeSchema.Applicant.fields|
      ensures FieldConforms(MenteeSchema.Applicant.fields[i], MenteeApplicant, fmt)
    {
      ApplicantField(i, fmt);
    }
  }

  // The sample business address passes the address schema, field by field.
  lemma AddressStreet(fmt: Formats) ensures FieldConforms(MenteeSchema.BusinessAddress.fields[0], MenteeBusinessAddress, fmt) {
    MenteeSchema.MinStrMeans(1, "Street address is required", S("123 Main St"), fmt);
  }
  lemma AddressStreet2(fmt: Formats) ensures FieldConforms(MenteeSchema.BusinessAddress.fields[1], MenteeBusinessAddress, fmt) {
  }
  lemma AddressCity(fmt: Formats) ensures FieldConforms(MenteeSchema.BusinessAddress.fields[2], MenteeBusinessAddress, fmt) {
    MenteeSchema.MinStrMeans(1, "City is required", S("Kansas City"), fmt);
  }
  lemma AddressState(fmt: Formats) ensures FieldConforms(MenteeSchema.BusinessAddress.fields[3], MenteeBusinessAddress, fmt) {
    MenteeSchema.MinStrMeans(1, "State is required", S("MO"), fmt);
  }
  lemma AddressZip(fmt: Formats) ensures FieldConforms(MenteeSchema.BusinessAddress.fields[4], MenteeBusinessAddress, fmt) {
    MenteeSchema.MinStrMeans(5, "ZIP code is required", S("64111"), fmt);
  }
  lemma AddressCountry(fmt: Formats) ensures FieldConforms(MenteeSchema.BusinessAddress.fields[5], MenteeBusinessAddress, fmt) {
    MenteeSchema.MinStrMeans(1, "Country is required", S("US"), fmt);
  }

  lemma AddressField(i: int, fmt: Formats)
    requires 0 <= i < |MenteeSchema.BusinessAddress.fields|
    ensures FieldConforms(MenteeSchema.BusinessAddress.fields[i], MenteeBusinessAddress, fmt)
  {
    if i == 0 { AddressStreet(fmt); }
    else if i == 1 { AddressStreet2(fmt); }
    else if i == 2 { AddressCity(fmt); }
    else if i == 3 { AddressState(fmt); }
    else if i == 4 { AddressZip(fmt); }
    else { AddressCountry(fmt); }
  }

  /** The sample business address passes the address schema. */
  lemma MenteeAddressPasses(fmt: Formats)
    ensures Conforms(MenteeSchema.BusinessAddress, MenteeBusinessAddress, fmt)
  {
    forall i | 0 <= i < |MenteeSchema.BusinessAddress.fields|
      ensures FieldConforms(MenteeSchema.BusinessAddress.fields[i], MenteeBusinessAddress, fmt)
    {
      AddressField(i, fmt);
    }
  }

  lemma ReferralPasses(fmt: Formats)
    ensures Conforms(MenteeSchema.Step1.fields[3].schema, Obj(map["source" := S("Web search")]), fmt)
  {
    var fs := MenteeSchema.Step1.fields[3].schema.fields;
    MenteeSchema.MinStrMeans(1, "Referral source is required", S("Web search"), fmt);
    assert FieldConforms(fs[0], Obj(map["source" := S("Web search")]), fmt);
  }

  lemma AddressObjectPasses(fmt: Formats)
    ensures Conforms(MenteeSchema.Step1.fields[4].schema, Obj(map["business" := MenteeBusinessAddress]), fmt)
  {
    var fs := MenteeSchema.Step1.fields[4].schema.fields;
    MenteeAddressPasses(fmt);
    assert FieldConforms(fs[0], Obj(map["business" := MenteeBusinessAddress]), fmt);
  }

  // The five top-level fields of step 1, read from the corrected all-steps document.
  lemma MenteeDeepApplicant(current: Value, now: string)
    ensures Prop(Spread(current, DeepFold(MenteePatches(now))), "applicant") == MenteeApplicant
  {
    MenteeStep0Applicant(now);
    MenteeDeepKeyFromStep0(current, now, "applicant");
  }
  lemma MenteeDeepPhone(current: Value, now: string)
    ensures Prop(Spread(current, DeepFold(MenteePatches(now))), "applicant_phoneMobile") == S("8165551212")
  {
    MenteeStep0Phone(now);
    MenteeDeepKeyFromStep0(current, now, "applicant_phoneMobile");
  }
  lemma MenteeDeepReferral(current: Value, now: string)
    ensures Prop(Spread(current, DeepFold(MenteePatches(now))), "referral") == Obj(map["source" := S("Web search")])
  {
    MenteeStep0Referral(now);
    MenteeDeepKeyFromStep0(current, now, "referral");
  }
  lemma MenteeDeepAddress(current: Value, now: string)
    ensures Prop(Spread(current, DeepFold(MenteePatches(now))), "address") == Obj(map["business" := MenteeBusinessAddress])
  {
    MenteeStep0Address(now);
    MenteeDeepKeyFromStep0(current, now, "address");
  }

  /** The company object of the corrected document passes the company schema. */
  lemma MenteeDeepCompanyPasses(current: Value, now: string, fmt: Formats)
    requires fmt.isUrl("https://acme.co")
    ensures Conforms(MenteeSchema.CompanyBasics, Prop(Spread(current, DeepFold(MenteePatches(now))), "company"), fmt)
  {
    MenteeDeepCompany(current, now);
    MenteeMergedCompanyPasses(fmt);
  }

  /** Step 1 accepts any document that holds the step-0 sample answers under the keys it reads
      and a company object that passes the company schema. */
  lemma Step1Accepts(doc: Value, fmt: Formats)
    requires fmt.isEmail("jane.doe@example.com")
    requires doc.Obj? && Prop(doc, "applicant") == MenteeApplicant
    requires Conforms(MenteeSchema.CompanyBasics, Prop(doc, "company"), fmt)
    requires Prop(doc, "applicant_phoneMobile") == S("8165551212")
    requires Prop(doc, "referral") == Obj(map["source" := S("Web search")])
    requires Prop(doc, "address") == Obj(map["business" := MenteeBusinessAddress])
    ensures Conforms(MenteeSchema.Step1, doc, fmt)
  {
    forall i | 0 <= i < |MenteeSchema.Step1.fields| ensures FieldConforms(MenteeSchema.Step1.fields[i], doc, fmt) {
      Step1Field(doc, fmt, i);
    }
  }

  lemma Step1Field(doc: Value, fmt: Formats, i: int)
    requires fmt.isEmail("jane.doe@example.com")
    requires doc.Obj? && Prop(doc, "applicant") == MenteeApplicant
    requires Conforms(MenteeSchema.CompanyBasics, Prop(doc, "company"), fmt)
    requires Prop(doc, "applicant_phoneMobile") == S("8165551212")
    requires Prop(doc, "referral") == Obj(map["source" := S("Web search")])
    requires Prop(doc, "address") == Obj(map["business" := MenteeBusinessAddress])
    requires 0 <= i < |MenteeSchema.Step1.fields|
    ensures FieldConforms(MenteeSchema.Step1.fields[i], doc, fmt)
  {
    if i == 0 { MenteeApplicantPasses(fmt); }
    else if i == 1 { }
    else if i == 2 { MenteeSchema.MinStrMeans(10, "Mobile phone is required", S("8165551212"), fmt); }
    else if i == 3 { ReferralPasses(fmt); }
    else { AddressObjectPasses(fmt); }
  }

  /** With the deep merge, "Autofill All Steps" yields a document that step 1 accepts, whatever the
      form held before (given that zod accepts the sample e-mail address and URL). */
  lemma MenteeAllDataDeepPassesStep1(current: Value, now: string, fmt: Formats)
    requires fmt.isEmail("jane.doe@example.com") && fmt.isUrl("https://acme.co")
    ensures Conforms(MenteeSchema.Step1, Spread(current, DeepFold(MenteePatches(now))), fmt)
  {
    MenteeDeepApplicant(current, now);
    MenteeDeepCompanyPasses(current, now, fmt);
    MenteeDeepPhone(current, now);
    MenteeDeepReferral(current, now);
    MenteeDeepAddress(current, now);
    Step1Accepts(Spread(current, DeepFold(MenteePatches(now))), fmt);
  }
}
