/** The eight step schemas of the mentee application, and what each one demands. */
module MenteeSchema {
  import opened Json
  import opened Schema

  // ---- shorthands for the zod builders the schemas use ----

  /** `z.string().min(n, msg)` */
  function MinStr(n: nat, msg: string): Schema { SString([MinLen(n, msg)]) }

  /** `z.string().min(a, ma).max(b, mb)` */
  function RangeStr(a: nat, b: nat, ma: string, mb: string): Schema { SString([MinLen(a, ma), MaxLen(b, mb)]) }

  /** `z.string().email(msg)` */
  function EmailStr(msg: string): Schema { SString([EmailFormat(msg)]) }

  /** `z.number().min(x, msg)` */
  function MinNum(x: real, msg: string): Schema { SNumber([AtLeast(x, msg)]) }

  /** `z.number().min(a).max(b, msg)` */
  function RangeNum(a: real, b: real, ma: string, mb: string): Schema { SNumber([AtLeast(a, ma), AtMost(b, mb)]) }

  /** `z.string().url().optional().or(z.literal(""))` */
  const Website: Schema := SOr(SOptional(SString([UrlFormat("Invalid url")])), SLiteral(""))

  const Applicant: Schema := SObject([
    Field("firstName", MinStr(2, "First name is required")),
    Field("lastName", MinStr(2, "Last name is required")),
    Field("email", EmailStr("Valid email is required")),
    Field("title", MinStr(2, "Title is required"))
  ])

  const CompanyBasics: Schema := SObject([
    Field("name", MinStr(2, "Company name is required")),
    Field("type", MinStr(1, "Company type is required")),
    Field("typeOther", SOptional(SString([]))),
    Field("industry", SArray(SString([]), [MinItems(1, "At least one industry is required")])),
    Field("website", Website),
    Field("phoneBusiness", MinStr(10, "Business phone is required"))
  ])

  const BusinessAddress: Schema := SObject([
    Field("street1", MinStr(1, "Street address is required")),
    Field("street2", SOptional(SString([]))),
    Field("city", MinStr(1, "City is required")),
    Field("state", MinStr(1, "State is required")),
    Field("postalCode", MinStr(5, "ZIP code is required")),
    Field("country", MinStr(1, "Country is required"))
  ])

  const Step1: Schema := SObject([
    Field("applicant", Applicant),
    Field("company", CompanyBasics),
    Field("applicant_phoneMobile", MinStr(10, "Mobile phone is required")),
    Field("referral", SObject([Field("source", MinStr(1, "Referral source is required"))])),
    Field("address", SObject([Field("business", BusinessAddress)]))
  ])

  const Owner: Schema := SObject([
    Field("name", MinStr(1, "Owner name is required")),
    Field("title", MinStr(1, "Owner title is required")),
    Field("equityPercent", RangeNum(0.0, 100.0, "Number must be greater than or equal to 0",
                                    "Equity percent must be between 0-100"))
  ])

  const CompanyProfile: Schema := SObject([
    Field("yearsInBusiness", MinNum(0.0, "Years in business must be 0 or greater")),
    Field("fiscalYearEnd", MinStr(1, "Fiscal year end is required")),
    Field("founderIsApplicant", SBoolean),
    Field("ultimateDecisionMaker", SBoolean),
    Field("ownership", SArray(Owner, [MinItems(1, "At least one owner is required")]))
  ])

  const Governance: Schema := SObject([
    Field("hasBoardOfDirectors", SBoolean),
    Field("hasAdvisoryBoard", SBoolean),
    Field("directorsCount", SOptional(SNumber([])))
  ])

  const Step2: Schema := SObject([
    Field("company", CompanyProfile),
    Field("governance", Governance)
  ])

  const Team: Schema := SObject([
    Field("fullTime", MinNum(0.0, "Full-time count must be 0 or greater")),
    Field("partTime", MinNum(0.0, "Part-time count must be 0 or greater")),
    Field("contractors", MinNum(0.0, "Contractors count must be 0 or greater")),
    Field("total", MinNum(0.0, "Number must be greater than or equal to 0"))
  ])

  const Step3: Schema := SObject([Field("team", Team)])

  const FinanceYear: Schema := SObject([
    Field("fullTimeEmployees", MinNum(0.0, "Number must be greater than or equal to 0")),
    Field("annualRevenue", MinNum(0.0, "Number must be greater than or equal to 0")),
    Field("revenueGrowthPercent", RangeNum(-100.0, 1000.0, "Number must be greater than or equal to -100",
                                           "Number must be less than or equal to 1000")),
    Field("profitGrowthPercent", RangeNum(-100.0, 1000.0, "Number must be greater than or equal to -100",
                                          "Number must be less than or equal to 1000")),
    Field("equityPercent", RangeNum(0.0, 100.0, "Number must be greater than or equal to 0",
                                    "Number must be less than or equal to 100"))
  ])

  const Finance: Schema := SObject([
    Field("years", SRecord(FinanceYear)),
    Field("wasProfitableLastYear", SBoolean),
    Field("currentlyProfitable", SBoolean),
    Field("largestCustomerSharePercent", RangeNum(0.0, 100.0, "Number must be greater than or equal to 0",
                                                  "Number must be less than or equal to 100")),
    Field("takesAnnualSalary", SBoolean),
    Field("contextNotes", SOptional(SString([])))
  ])

  const Step4: Schema := SObject([Field("finance", Finance)])

  /** Each text of a mistake: 50..500 characters. */
  const MistakeText: Schema := RangeStr(50, 500, "Must be at least 50 characters", "Must be less than 500 characters")

  const Mistake: Schema := SObject([Field("whatHappened", MistakeText), Field("lesson", MistakeText)])

  const Mistakes: Schema := SArray(Mistake, [ExactItems(3, "Exactly 3 mistakes are required")])

  const LongText: Schema := RangeStr(100, 1000, "Must be at least 100 characters", "Must be less than 1000 characters")

  const WhyHemp: Schema := RangeStr(150, 800, "Must be at least 150 characters", "Must be less than 800 characters")

  const Narratives: Schema := SObject([
    Field("biggestSuccess", LongText),
    Field("helpAreas", LongText),
    Field("extraStrength", SOptional(SString([MaxLen(500, "Must be less than 500 characters")]))),
    Field("extraHelp", SOptional(SString([MaxLen(500, "Must be less than 500 characters")]))),
    Field("mistakes", Mistakes),
    Field("whyHEMP", WhyHemp)
  ])

  const Step5: Schema := SObject([
    Field("strengths", SObject([Field("matrix", SRecord(SString([])))])),
    Field("narratives", Narratives)
  ])

  const Phone: Schema := MinStr(10, "Valid phone is required")
  const Email: Schema := EmailStr("Valid email is required")

  /** A professional contact: accountant or attorney. */
  const Professional: Schema := SObject([
    Field("name", MinStr(1, "Name is required")),
    Field("firm", MinStr(1, "Firm is required")),
    Field("phone", Phone),
    Field("email", Email)
  ])

  const Bank: Schema := SObject([
    Field("name", MinStr(1, "Contact name is required")),
    Field("bankName", MinStr(1, "Bank name is required")),
    Field("phone", Phone),
    Field("email", Email)
  ])

  const Reference: Schema := SObject([
    Field("name", MinStr(1, "Name is required")),
    Field("company", MinStr(1, "Company is required")),
    Field("phone", Phone),
    Field("email", Email)
  ])

  /** A list of at least `n` references. */
  function ReferenceList(n: nat, msg: string): Schema { SArray(Reference, [MinItems(n, msg)]) }

  const References: Schema := SObject([
    Field("accountant", Professional),
    Field("attorney", Professional),
    Field("bank", Bank),
    Field("business", ReferenceList(2, "At least 2 business references are required")),
    Field("customer", ReferenceList(2, "At least 2 customer references are required")),
    Field("supplier", ReferenceList(2, "At least 2 supplier references are required"))
  ])

  const Step6: Schema := SObject([Field("references", References)])

  /** `z.array(z.any()).min(1, msg)` */
  function RequiredFiles(msg: string): Schema { SArray(SAny, [MinItems(1, msg)]) }

  const Uploads: Schema := SObject([
    Field("coverLetter", RequiredFiles("Cover letter is required")),
    Field("orgChart", RequiredFiles("Organization chart is required")),
    Field("personalBioOrResume", RequiredFiles("Personal bio or resume is required")),
    Field("businessDescription", RequiredFiles("Business description is required")),
    Field("releaseGeneral", RequiredFiles("General release is required")),
    Field("releaseInfoAuthorization", RequiredFiles("Information authorization release is required")),
    Field("releaseApplicationInfo", RequiredFiles("Application info release is required")),
    Field("headshot", SOptional(SArray(SAny, [])))
  ])

  const Step7: Schema := SObject([Field("uploads", Uploads)])

  const Signature: Schema := SObject([
    Field("typedName", MinStr(1, "Typed name is required")),
    Field("consent", STrue("Consent is required")),
    Field("drawn", SOptional(SString([]))),
    Field("method", SEnum(["typed", "drawn"])),
    Field("timestamp", SString([])),
    Field("ip", SOptional(SString([])))
  ])

  const Step8: Schema := SObject([Field("signature", Signature)])

  /** The step schemas in step order; the summary step's schema is the empty object. */
  const Steps: seq<Schema> := [Step1, Step2, Step3, Step4, Step5, Step6, Step7, Step8, SObject([])]

  // ---- reading the constraints back ----

  lemma MinStrMeans(n: nat, msg: string, v: Value, fmt: Formats)
    ensures Conforms(MinStr(n, msg), v, fmt) <==> StrAtLeast(v, n)
  {
    OneStrCheck(MinLen(n, msg), v, fmt);
  }

  lemma RangeStrMeans(a: nat, b: nat, ma: string, mb: string, v: Value, fmt: Formats)
    ensures Conforms(RangeStr(a, b, ma, mb), v, fmt) <==> StrBetween(v, a, b)
  {
    TwoStrChecks(MinLen(a, ma), MaxLen(b, mb), v, fmt);
  }

  lemma RangeNumMeans(a: real, b: real, ma: string, mb: string, v: Value, fmt: Formats)
    ensures Conforms(RangeNum(a, b, ma, mb), v, fmt) <==> NumBetween(v, a, b)
  {
    TwoNumChecks(AtLeast(a, ma), AtMost(b, mb), v, fmt);
  }

  lemma MinNumMeans(x: real, msg: string, v: Value, fmt: Formats)
    ensures Conforms(MinNum(x, msg), v, fmt) <==> (v.Num? && v.n >= x)
  {
    OneNumCheck(AtLeast(x, msg), v, fmt);
  }

  /** Step 1: names, title and company name of at least 2 characters, phones of at least 10,
      a postal code of at least 5, at least one industry, and a website that is a URL or "". */
  lemma {:induction false} Step1Demands(doc: Value, fmt: Formats)
    requires Conforms(Step1, doc, fmt)
    ensures var a := Prop(doc, "applicant");
      StrAtLeast(Prop(a, "firstName"), 2) && StrAtLeast(Prop(a, "lastName"), 2) && StrAtLeast(Prop(a, "title"), 2)
      && Prop(a, "email").Str? && fmt.isEmail(Prop(a, "email").s)
    ensures var c := Prop(doc, "company");
      StrAtLeast(Prop(c, "name"), 2) && StrAtLeast(Prop(c, "phoneBusiness"), 10)
      && Prop(c, "industry").Arr? && |Prop(c, "industry").items| >= 1
      && var w := Prop(c, "website"); w == Undefined || w == Str("") || (w.Str? && fmt.isUrl(w.s))
    ensures StrAtLeast(Prop(doc, "applicant_phoneMobile"), 10)
    ensures StrAtLeast(Prop(Prop(Prop(doc, "address"), "business"), "postalCode"), 5)
  {
    Step1Parts(doc, fmt);
    ApplicantDemands(Prop(doc, "applicant"), fmt);
    CompanyBasicsDemands(Prop(doc, "company"), fmt);
    Step1Postal(doc, fmt);
  }

  lemma Step1Parts(doc: Value, fmt: Formats)
    requires Conforms(Step1, doc, fmt)
    ensures Conforms(Applicant, Prop(doc, "applicant"), fmt)
    ensures Conforms(CompanyBasics, Prop(doc, "company"), fmt)
    ensures StrAtLeast(Prop(doc, "applicant_phoneMobile"), 10)
  {
    FieldAt(Step1.fields, doc, fmt, 0);
    FieldAt(Step1.fields, doc, fmt, 1);
    ReadMinLen(Step1.fields, doc, fmt, 2, 10, "Mobile phone is required");
  }

  lemma Step1Postal(doc: Value, fmt: Formats)
    requires Conforms(Step1, doc, fmt)
    ensures StrAtLeast(Prop(Prop(Prop(doc, "address"), "business"), "postalCode"), 5)
  {
    FieldAt(Step1.fields, doc, fmt, 4);
    var addr := Prop(doc, "address");
    FieldAt([Field("business", BusinessAddress)], addr, fmt, 0);
    ReadMinLen(BusinessAddress.fields, Prop(addr, "business"), fmt, 4, 5, "ZIP code is required");
  }

  lemma ApplicantDemands(a: Value, fmt: Formats)
    requires Conforms(Applicant, a, fmt)
    ensures StrAtLeast(Prop(a, "firstName"), 2) && StrAtLeast(Prop(a, "lastName"), 2) && StrAtLeast(Prop(a, "title"), 2)
    ensures Prop(a, "email").Str? && fmt.isEmail(Prop(a, "email").s)
  {
    ReadMinLen(Applicant.fields, a, fmt, 0, 2, "First name is required");
    ReadMinLen(Applicant.fields, a, fmt, 1, 2, "Last name is required");
    ReadStrCheck(Applicant.fields, a, fmt, 2, EmailFormat("Valid email is required"));
    ReadMinLen(Applicant.fields, a, fmt, 3, 2, "Title is required");
  }

  lemma CompanyBasicsDemands(c: Value, fmt: Formats)
    requires Conforms(CompanyBasics, c, fmt)
    ensures StrAtLeast(Prop(c, "name"), 2) && StrAtLeast(Prop(c, "phoneBusiness"), 10)
    ensures Prop(c, "industry").Arr? && |Prop(c, "industry").items| >= 1
    ensures var w := Prop(c, "website"); w == Undefined || w == Str("") || (w.Str? && fmt.isUrl(w.s))
  {
    ReadMinLen(CompanyBasics.fields, c, fmt, 0, 2, "Company name is required");
    ReadArr(CompanyBasics.fields, c, fmt, 3, SString([]), MinItems(1, "At least one industry is required"));
    ReadMinLen(CompanyBasics.fields, c, fmt, 5, 10, "Business phone is required");
    WebsiteMeans(c, fmt);
  }

  lemma WebsiteMeans(c: Value, fmt: Formats)
    requires Conforms(CompanyBasics, c, fmt)
    ensures var w := Prop(c, "website"); w == Undefined || w == Str("") || (w.Str? && fmt.isUrl(w.s))
  {
    FieldAt(CompanyBasics.fields, c, fmt, 4);
    WebsiteValueMeans(Prop(c, "website"), fmt);
  }

  /** The website passes iff it is absent, empty, or a URL. */
  lemma WebsiteValueMeans(w: Value, fmt: Formats)
    ensures Conforms(Website, w, fmt) <==> w == Undefined || w == Str("") || (w.Str? && fmt.isUrl(w.s))
  {
    OneStrCheck(UrlFormat("Invalid url"), w, fmt);
  }

  /** Step 2: at least one owner, and every owner's equity lies in [0, 100]. */
  lemma {:induction false} Step2OwnershipDemands(doc: Value, fmt: Formats)
    requires Conforms(Step2, doc, fmt)
    ensures var owners := Prop(Prop(doc, "company"), "ownership");
      owners.Arr? && |owners.items| >= 1
      && forall j :: 0 <= j < |owners.items| ==> NumBetween(Prop(owners.items[j], "equityPercent"), 0.0, 100.0)
  {
    var c := Prop(doc, "company");
    FieldOf(Step2.fields, doc, fmt, "company", CompanyProfile);
    var ownership := SArray(Owner, [MinItems(1, "At least one owner is required")]);
    FieldOf(CompanyProfile.fields, c, fmt, "ownership", ownership);
    var owners := Prop(c, "ownership");
    OneArrCheck(Owner, MinItems(1, "At least one owner is required"), owners, fmt);
    var eq := RangeNum(0.0, 100.0, "Number must be greater than or equal to 0", "Equity percent must be between 0-100");
    forall j | 0 <= j < |owners.items|
      ensures NumBetween(Prop(owners.items[j], "equityPercent"), 0.0, 100.0)
    {
      assert Conforms(Owner, owners.items[j], fmt);
      FieldOf(Owner.fields, owners.items[j], fmt, "equityPercent", eq);
      RangeNumMeans(0.0, 100.0, "Number must be greater than or equal to 0", "Equity percent must be between 0-100",
                    Prop(owners.items[j], "equityPercent"), fmt);
    }
  }

  /** An owner record: name, title and equity. */
  function OwnerValue(name: string, title: string, equity: real): Value {
    Obj(map["name" := Str(name), "title" := Str(title), "equityPercent" := Num(equity)])
  }

  /** A step-2 document with the given owners and otherwise fixed answers. */
  function Step2Doc(owners: seq<Value>): Value {
    Obj(map[
      "company" := Obj(map[
        "yearsInBusiness" := Num(3.0), "fiscalYearEnd" := Str("december"),
        "founderIsApplicant" := Bool(true), "ultimateDecisionMaker" := Bool(true),
        "ownership" := Arr(owners)]),
      "governance" := Obj(map["hasBoardOfDirectors" := Bool(false), "hasAdvisoryBoard" := Bool(false)])])
  }

  /** Nothing bounds the sum of the owners' equity: two owners of 60% each pass step 2. */
  lemma {:induction false} EquitySumUnchecked(fmt: Formats)
    ensures Conforms(Step2, Step2Doc([OwnerValue("Ann", "CEO", 60.0), OwnerValue("Bo", "CTO", 60.0)]), fmt)
  {
    var owners := [OwnerValue("Ann", "CEO", 60.0), OwnerValue("Bo", "CTO", 60.0)];
    OwnerPasses("Ann", "CEO", 60.0, fmt);
    OwnerPasses("Bo", "CTO", 60.0, fmt);
    Step2DocPasses(owners, fmt);
  }

  /** An owner with a name, a title and an equity in [0, 100] passes. */
  lemma OwnerPasses(name: string, title: string, equity: real, fmt: Formats)
    requires |name| >= 1 && |title| >= 1 && 0.0 <= equity <= 100.0
    ensures Conforms(Owner, OwnerValue(name, title, equity), fmt)
  {
    var o := OwnerValue(name, title, equity);
    MinStrMeans(1, "Owner name is required", Prop(o, "name"), fmt);
    MinStrMeans(1, "Owner title is required", Prop(o, "title"), fmt);
    RangeNumMeans(0.0, 100.0, "Number must be greater than or equal to 0", "Equity percent must be between 0-100",
                  Prop(o, "equityPercent"), fmt);
    assert FieldConforms(Owner.fields[0], o, fmt);
    assert FieldConforms(Owner.fields[1], o, fmt);
    assert FieldConforms(Owner.fields[2], o, fmt);
  }

  /** The fixed step-2 document passes as soon as it has one owner and every owner passes. */
  lemma Step2DocPasses(owners: seq<Value>, fmt: Formats)
    requires |owners| >= 1 && forall j :: 0 <= j < |owners| ==> Conforms(Owner, owners[j], fmt)
    ensures Conforms(Step2, Step2Doc(owners), fmt)
  {
    var doc := Step2Doc(owners);
    CompanyProfilePasses(owners, fmt);
    GovernancePasses(fmt);
    assert FieldConforms(Step2.fields[0], doc, fmt);
    assert FieldConforms(Step2.fields[1], doc, fmt);
  }

  lemma CompanyProfilePasses(owners: seq<Value>, fmt: Formats)
    requires |owners| >= 1 && forall j :: 0 <= j < |owners| ==> Conforms(Owner, owners[j], fmt)
    ensures Conforms(CompanyProfile, Prop(Step2Doc(owners), "company"), fmt)
  {
    var c := Prop(Step2Doc(owners), "company");
    MinNumMeans(0.0, "Years in business must be 0 or greater", Prop(c, "yearsInBusiness"), fmt);
    MinStrMeans(1, "Fiscal year end is required", Prop(c, "fiscalYearEnd"), fmt);
    OneArrCheck(Owner, MinItems(1, "At least one owner is required"), Arr(owners), fmt);
    assert FieldConforms(CompanyProfile.fields[0], c, fmt);
    assert FieldConforms(CompanyProfile.fields[1], c, fmt);
    assert FieldConforms(CompanyProfile.fields[2], c, fmt);
    assert FieldConforms(CompanyProfile.fields[3], c, fmt);
    assert FieldConforms(CompanyProfile.fields[4], c, fmt);
  }

  lemma GovernancePasses(fmt: Formats)
    ensures Conforms(Governance, Prop(Step2Doc([]), "governance"), fmt)
    ensures forall owners :: Prop(Step2Doc(owners), "governance") == Prop(Step2Doc([]), "governance")
  {
    var g := Prop(Step2Doc([]), "governance");
    assert FieldConforms(Governance.fields[0], g, fmt);
    assert FieldConforms(Governance.fields[1], g, fmt);
    assert FieldConforms(Governance.fields[2], g, fmt);
  }

  /** A team object with the given counts and total. */
  function TeamValue(fullTime: real, partTime: real, contractors: real, total: real): Value {
    Obj(map["fullTime" := Num(fullTime), "partTime" := Num(partTime),
            "contractors" := Num(contractors), "total" := Num(total)])
  }

  /** Step 3 asks each count and the total to be non-negative, and nothing more:
      it does not tie the total to the sum of the counts. */
  lemma {:induction false} Step3Means(ft: real, pt: real, ct: real, total: real, fmt: Formats)
    ensures Conforms(Step3, Obj(map["team" := TeamValue(ft, pt, ct, total)]), fmt)
            <==> ft >= 0.0 && pt >= 0.0 && ct >= 0.0 && total >= 0.0
  {
    var t := TeamValue(ft, pt, ct, total);
    OneFieldMeans("team", Team, t, fmt);
    TeamMeans(t, fmt);
  }

  /** A team object passes iff its three counts and its total are non-negative numbers. */
  lemma TeamMeans(t: Value, fmt: Formats)
    requires t.Obj?
    ensures Conforms(Team, t, fmt) <==>
      NonNegative(Prop(t, "fullTime")) && NonNegative(Prop(t, "partTime"))
      && NonNegative(Prop(t, "contractors")) && NonNegative(Prop(t, "total"))
  {
    TeamFieldMeans(t, fmt, 0);
    TeamFieldMeans(t, fmt, 1);
    TeamFieldMeans(t, fmt, 2);
    TeamFieldMeans(t, fmt, 3);
  }

  lemma TeamFieldMeans(t: Value, fmt: Formats, i: nat)
    requires i < 4
    ensures FieldConforms(Team.fields[i], t, fmt) <==> NonNegative(Prop(t, Team.fields[i].key))
  {
    OneNumCheck(Team.fields[i].schema.numChecks[0], Prop(t, Team.fields[i].key), fmt);
  }

  /** A number of at least zero. */
  predicate NonNegative(v: Value) { v.Num? && v.n >= 0.0 }

  /** Step 4: every year's growth percentages lie in [-100, 1000] and its equity in [0, 100];
      the largest customer's share lies in [0, 100]. */
  lemma {:induction false} Step4Ranges(doc: Value, fmt: Formats)
    requires Conforms(Step4, doc, fmt)
    ensures var f := Prop(doc, "finance");
      NumBetween(Prop(f, "largestCustomerSharePercent"), 0.0, 100.0)
      && Prop(f, "years").Obj?
      && forall y :: y in Prop(f, "years").fields ==>
           var yr := Prop(f, "years").fields[y];
           NumBetween(Prop(yr, "revenueGrowthPercent"), -100.0, 1000.0)
           && NumBetween(Prop(yr, "profitGrowthPercent"), -100.0, 1000.0)
           && NumBetween(Prop(yr, "equityPercent"), 0.0, 100.0)
  {
    var f := Prop(doc, "finance");
    FieldOf(Step4.fields, doc, fmt, "finance", Finance);
    var share := RangeNum(0.0, 100.0, "Number must be greater than or equal to 0", "Number must be less than or equal to 100");
    FieldOf(Finance.fields, f, fmt, "largestCustomerSharePercent", share);
    RangeNumMeans(0.0, 100.0, "Number must be greater than or equal to 0", "Number must be less than or equal to 100",
                  Prop(f, "largestCustomerSharePercent"), fmt);
    FieldOf(Finance.fields, f, fmt, "years", SRecord(FinanceYear));
    var years := Prop(f, "years");
    var growth := RangeNum(-100.0, 1000.0, "Number must be greater than or equal to -100", "Number must be less than or equal to 1000");
    forall y | y in years.fields
      ensures NumBetween(Prop(years.fields[y], "revenueGrowthPercent"), -100.0, 1000.0)
      ensures NumBetween(Prop(years.fields[y], "profitGrowthPercent"), -100.0, 1000.0)
      ensures NumBetween(Prop(years.fields[y], "equityPercent"), 0.0, 100.0)
    {
      var yr := years.fields[y];
      assert Conforms(FinanceYear, yr, fmt);
      FieldOf(FinanceYear.fields, yr, fmt, "revenueGrowthPercent", growth);
      FieldOf(FinanceYear.fields, yr, fmt, "profitGrowthPercent", growth);
      FieldOf(FinanceYear.fields, yr, fmt, "equityPercent", share);
      RangeNumMeans(-100.0, 1000.0, "Number must be greater than or equal to -100", "Number must be less than or equal to 1000",
                    Prop(yr, "revenueGrowthPercent"), fmt);
      RangeNumMeans(-100.0, 1000.0, "Number must be greater than or equal to -100", "Number must be less than or equal to 1000",
                    Prop(yr, "profitGrowthPercent"), fmt);
      RangeNumMeans(0.0, 100.0, "Number must be greater than or equal to 0", "Number must be less than or equal to 100",
                    Prop(yr, "equityPercent"), fmt);
    }
  }

  /** The mistakes list passes iff it has exactly three entries whose two texts are 50..500 characters. */
  lemma {:induction false} MistakesMeans(v: Value, fmt: Formats)
    ensures Conforms(Mistakes, v, fmt) <==>
      v.Arr? && |v.items| == 3
      && forall j :: 0 <= j < 3 ==>
           StrBetween(Prop(v.items[j], "whatHappened"), 50, 500) && StrBetween(Prop(v.items[j], "lesson"), 50, 500)
  {
    var m1, m2 := "Must be at least 50 characters", "Must be less than 500 characters";
    forall x: Value ensures Conforms(Mistake, x, fmt) <==>
        StrBetween(Prop(x, "whatHappened"), 50, 500) && StrBetween(Prop(x, "lesson"), 50, 500)
    {
      RangeStrMeans(50, 500, m1, m2, Prop(x, "whatHappened"), fmt);
      RangeStrMeans(50, 500, m1, m2, Prop(x, "lesson"), fmt);
      if Conforms(Mistake, x, fmt) {
        FieldOf(Mistake.fields, x, fmt, "whatHappened", MistakeText);
        FieldOf(Mistake.fields, x, fmt, "lesson", MistakeText);
      }
      if StrBetween(Prop(x, "whatHappened"), 50, 500) && StrBetween(Prop(x, "lesson"), 50, 500) {
        assert x.Obj?;
        assert forall i :: 0 <= i < |Mistake.fields| ==> FieldConforms(Mistake.fields[i], x, fmt);
      }
    }
    OneArrCheck(Mistake, ExactItems(3, "Exactly 3 mistakes are required"), v, fmt);
  }

  /** Step 5: success and help-areas texts of 100..1000 characters, a why-HEMP text of 150..800,
      and exactly three mistakes. */
  lemma {:induction false} Step5Demands(doc: Value, fmt: Formats)
    requires Conforms(Step5, doc, fmt)
    ensures var n := Prop(doc, "narratives");
      StrBetween(Prop(n, "biggestSuccess"), 100, 1000) && StrBetween(Prop(n, "helpAreas"), 100, 1000)
      && StrBetween(Prop(n, "whyHEMP"), 150, 800)
      && Prop(n, "mistakes").Arr? && |Prop(n, "mistakes").items| == 3
  {
    var n := Prop(doc, "narratives");
    FieldOf(Step5.fields, doc, fmt, "narratives", Narratives);
    FieldOf(Narratives.fields, n, fmt, "biggestSuccess", LongText);
    FieldOf(Narratives.fields, n, fmt, "helpAreas", LongText);
    FieldOf(Narratives.fields, n, fmt, "whyHEMP", WhyHemp);
    FieldOf(Narratives.fields, n, fmt, "mistakes", Mistakes);
    RangeStrMeans(100, 1000, "Must be at least 100 characters", "Must be less than 1000 characters", Prop(n, "biggestSuccess"), fmt);
    RangeStrMeans(100, 1000, "Must be at least 100 characters", "Must be less than 1000 characters", Prop(n, "helpAreas"), fmt);
    RangeStrMeans(150, 800, "Must be at least 150 characters", "Must be less than 800 characters", Prop(n, "whyHEMP"), fmt);
    MistakesMeans(Prop(n, "mistakes"), fmt);
  }

  /** A reference list passes iff it has at least `n` entries, each a valid reference: no upper bound. */
  lemma ReferenceListMeans(n: nat, msg: string, xs: seq<Value>, fmt: Formats)
    ensures Conforms(ReferenceList(n, msg), Arr(xs), fmt) <==>
      |xs| >= n && forall j :: 0 <= j < |xs| ==> Conforms(Reference, xs[j], fmt)
  {
    OneArrCheck(Reference, MinItems(n, msg), Arr(xs), fmt);
  }

  /** Step 6: business, customer and supplier lists of at least two references each. */
  lemma {:induction false} Step6Demands(doc: Value, fmt: Formats)
    requires Conforms(Step6, doc, fmt)
    ensures var r := Prop(doc, "references");
      Prop(r, "business").Arr? && |Prop(r, "business").items| >= 2
      && Prop(r, "customer").Arr? && |Prop(r, "customer").items| >= 2
      && Prop(r, "supplier").Arr? && |Prop(r, "supplier").items| >= 2
  {
    FieldAt(Step6.fields, doc, fmt, 0);
    var r := Prop(doc, "references");
    ReferenceListAt(r, fmt, 3);
    ReferenceListAt(r, fmt, 4);
    ReferenceListAt(r, fmt, 5);
  }

  /** Each of the three repeatable reference lists holds at least two entries. */
  lemma ReferenceListAt(r: Value, fmt: Formats, i: nat)
    requires Conforms(References, r, fmt) && 3 <= i < 6
    ensures Prop(r, References.fields[i].key).Arr? && |Prop(r, References.fields[i].key).items| >= 2
  {
    FieldAt(References.fields, r, fmt, i);
    OneArrCheck(Reference, References.fields[i].schema.arrChecks[0], Prop(r, References.fields[i].key), fmt);
  }

  /** A single business reference fails step 6, whatever else the document holds. */
  lemma OneBusinessReferenceFails(doc: Value, fmt: Formats)
    requires Prop(Prop(doc, "references"), "business").Arr?
    requires |Prop(Prop(doc, "references"), "business").items| == 1
    ensures !Conforms(Step6, doc, fmt)
  {
    if Conforms(Step6, doc, fmt) {
      Step6Demands(doc, fmt);
    }
  }

  /** A required upload slot passes iff it is a non-empty array, whatever its items are:
      the upload status of an item is not checked. */
  lemma RequiredFilesMeans(msg: string, v: Value, fmt: Formats)
    ensures Conforms(RequiredFiles(msg), v, fmt) <==> v.Arr? && |v.items| >= 1
  {
    OneArrCheck(SAny, MinItems(1, msg), v, fmt);
  }

  /** Step 7: the seven required slots hold at least one item; the headshot may be absent. */
  lemma {:induction false} Step7Demands(doc: Value, fmt: Formats)
    requires Conforms(Step7, doc, fmt)
    ensures forall k :: k in RequiredSlots ==> HasFiles(Prop(doc, "uploads"), k)
  {
    var u := Prop(doc, "uploads");
    FieldAt(Step7.fields, doc, fmt, 0);
    UploadsFirstFour(u, fmt);
    UploadsReleases(u, fmt);
  }

  /** The slot `k` of the uploads object holds a non-empty array. */
  predicate HasFiles(u: Value, k: string) {
    Prop(u, k).Arr? && |Prop(u, k).items| >= 1
  }

  lemma UploadsFirstFour(u: Value, fmt: Formats)
    requires Conforms(Uploads, u, fmt)
    ensures HasFiles(u, "coverLetter") && HasFiles(u, "orgChart")
    ensures HasFiles(u, "personalBioOrResume") && HasFiles(u, "businessDescription")
  {
    RequiredSlotAt(u, fmt, 0);
    RequiredSlotAt(u, fmt, 1);
    RequiredSlotAt(u, fmt, 2);
    RequiredSlotAt(u, fmt, 3);
  }

  lemma UploadsReleases(u: Value, fmt: Formats)
    requires Conforms(Uploads, u, fmt)
    ensures HasFiles(u, "releaseGeneral") && HasFiles(u, "releaseInfoAuthorization")
    ensures HasFiles(u, "releaseApplicationInfo")
  {
    RequiredSlotAt(u, fmt, 4);
    RequiredSlotAt(u, fmt, 5);
    RequiredSlotAt(u, fmt, 6);
  }

  /** Each of the seven required slots holds at least one item. */
  lemma RequiredSlotAt(u: Value, fmt: Formats, i: nat)
    requires Conforms(Uploads, u, fmt) && i < 7
    ensures HasFiles(u, Uploads.fields[i].key)
  {
    FieldAt(Uploads.fields, u, fmt, i);
    OneArrCheck(SAny, Uploads.fields[i].schema.arrChecks[0], Prop(u, Uploads.fields[i].key), fmt);
  }

  /** The upload slots step 7 requires. */
  const RequiredSlots: set<string> := {"coverLetter", "orgChart", "personalBioOrResume", "businessDescription",
                                        "releaseGeneral", "releaseInfoAuthorization", "releaseApplicationInfo"}

  /** The signature object passes iff: a typed name of at least one character, consent exactly
      true, a method of 'typed' or 'drawn', a string timestamp, and optional string drawn / ip. */
  lemma {:induction false} SignatureMeans(s: Value, fmt: Formats)
    requires s.Obj?
    ensures Conforms(Signature, s, fmt) <==>
      StrAtLeast(Prop(s, "typedName"), 1) && Prop(s, "consent") == Bool(true)
      && (Prop(s, "method") == Str("typed") || Prop(s, "method") == Str("drawn"))
      && Prop(s, "timestamp").Str?
      && (Prop(s, "drawn") == Undefined || Prop(s, "drawn").Str?)
      && (Prop(s, "ip") == Undefined || Prop(s, "ip").Str?)
  {
    SignatureTextFields(s, fmt);
    SignatureChoiceFields(s, fmt);
  }

  lemma SignatureTextFields(s: Value, fmt: Formats)
    ensures FieldConforms(Signature.fields[0], s, fmt) <==> StrAtLeast(Prop(s, "typedName"), 1)
    ensures FieldConforms(Signature.fields[2], s, fmt) <==> (Prop(s, "drawn") == Undefined || Prop(s, "drawn").Str?)
    ensures FieldConforms(Signature.fields[4], s, fmt) <==> Prop(s, "timestamp").Str?
    ensures FieldConforms(Signature.fields[5], s, fmt) <==> (Prop(s, "ip") == Undefined || Prop(s, "ip").Str?)
  {
    MinStrMeans(1, "Typed name is required", Prop(s, "typedName"), fmt);
  }

  lemma SignatureChoiceFields(s: Value, fmt: Formats)
    ensures FieldConforms(Signature.fields[1], s, fmt) <==> Prop(s, "consent") == Bool(true)
    ensures FieldConforms(Signature.fields[3], s, fmt) <==> (Prop(s, "method") == Str("typed") || Prop(s, "method") == Str("drawn"))
  {
    var m := Prop(s, "method");
    assert m.Str? && m.s in ["typed", "drawn"] <==> m == Str("typed") || m == Str("drawn");
  }

  /** A consenting signature with a typed name, a method and a timestamp, and no drawing or ip,
      passes step 8. */
  lemma SignedStepPasses(s: Value, fmt: Formats)
    requires s.Obj? && StrAtLeast(Prop(s, "typedName"), 1) && Prop(s, "consent") == Bool(true)
    requires Prop(s, "method") == Str("typed") && Prop(s, "timestamp").Str?
    requires Prop(s, "drawn") == Undefined && Prop(s, "ip") == Undefined
    ensures Conforms(Step8, Obj(map["signature" := s]), fmt)
  {
    SignatureMeans(s, fmt);
    OneFieldMeans("signature", Signature, s, fmt);
  }

  /** Step 8 demands consent whichever signing method is chosen: a drawn signature without consent fails. */
  lemma DrawnWithoutConsentFails(s: Value, fmt: Formats)
    requires s.Obj? && Prop(s, "method") == Str("drawn") && Prop(s, "consent") != Bool(true)
    ensures !Conforms(Step8, Obj(map["signature" := s]), fmt)
  {
    SignatureMeans(s, fmt);
    OneFieldMeans("signature", Signature, s, fmt);
  }

  /** The wizard has nine schemas and the last one, the summary's, accepts every object. */
  lemma SummaryStepAlwaysValid(doc: Value, fmt: Formats)
    requires doc.Obj?
    ensures |Steps| == 9 && Conforms(Steps[8], doc, fmt)
  {
  }
}
