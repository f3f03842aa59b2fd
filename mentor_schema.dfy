/** The seven step schemas of the mentor application, and what each one demands. */
module MentorSchema {
  import opened Json
  import opened Schema
  import MenteeSchema

  const Person: Schema := SObject([
    Field("firstName", MenteeSchema.MinStr(2, "First name is required")),
    Field("lastName", MenteeSchema.MinStr(2, "Last name is required")),
    Field("email", MenteeSchema.EmailStr("Valid email is required")),
    Field("title", MenteeSchema.MinStr(2, "Title is required"))
  ])

  const Company: Schema := SObject([
    Field("name", MenteeSchema.MinStr(2, "Company name is required")),
    Field("industry", SArray(SString([]), [MinItems(1, "At least one industry is required")])),
    Field("website", MenteeSchema.Website)
  ])

  const Phones: Schema := SObject([
    Field("business", MenteeSchema.MinStr(10, "Business phone is required")),
    Field("mobile", MenteeSchema.MinStr(10, "Mobile phone is required"))
  ])

  /** The home address: every part optional, and the block itself optional. */
  const HomeAddress: Schema := SOptional(SObject([
    Field("street1", SOptional(SString([]))),
    Field("street2", SOptional(SString([]))),
    Field("city", SOptional(SString([]))),
    Field("state", SOptional(SString([]))),
    Field("postalCode", SOptional(SString([]))),
    Field("country", SOptional(SString([])))
  ]))

  const Address: Schema := SObject([
    Field("business", MenteeSchema.BusinessAddress),
    Field("home", HomeAddress)
  ])

  const Step1: Schema := SObject([
    Field("person", Person),
    Field("company", Company),
    Field("phones", Phones),
    Field("address", Address),
    Field("referral", SObject([Field("source", MenteeSchema.MinStr(1, "Referral source is required"))]))
  ])

  const Team: Schema := SObject([
    Field("fullTime", MenteeSchema.MinNum(0.0, "Full-time count must be 0 or greater")),
    Field("partTime", MenteeSchema.MinNum(0.0, "Part-time count must be 0 or greater")),
    Field("contractors", MenteeSchema.MinNum(0.0, "Contractors count must be 0 or greater")),
    Field("total", MenteeSchema.MinNum(0.0, "Number must be greater than or equal to 0"))
  ])

  const Step2: Schema := SObject([
    Field("background", SObject([
      Field("yearsInLeadershipOrOwnership", MenteeSchema.MinNum(0.0, "Years must be 0 or greater"))])),
    Field("team", Team),
    Field("company", SObject([
      Field("type", MenteeSchema.MinStr(1, "Company type is required")),
      Field("typeOther", SOptional(SString([]))),
      Field("experienceNotes", SOptional(SString([])))]))
  ])

  const Preferences: Schema := SObject([
    Field("expertiseAreas", SArray(SString([]), [MinItems(1, "At least one expertise area is required")])),
    Field("availabilityHoursPerMonth", MenteeSchema.RangeNum(0.0, 40.0, "Number must be greater than or equal to 0",
                                                             "Hours must be between 0-40")),
    Field("meetingPreference", MenteeSchema.MinStr(1, "Meeting preference is required")),
    Field("capacityMentees", MenteeSchema.RangeNum(0.0, 10.0, "Number must be greater than or equal to 0",
                                                   "Capacity must be between 0-10")),
    Field("geography", SOptional(SString([]))),
    Field("notes", SOptional(SString([])))
  ])

  const Step3: Schema := SObject([Field("preferences", Preferences)])

  const Narratives: Schema := SObject([
    Field("biggestSuccess", MenteeSchema.LongText),
    Field("mistakes", MenteeSchema.Mistakes),
    Field("helpAreasAsLeader", MenteeSchema.LongText),
    Field("whyHEMP", MenteeSchema.WhyHemp)
  ])

  const Step4: Schema := SObject([
    Field("strengths", SObject([Field("matrix", SRecord(SString([])))])),
    Field("narratives", Narratives)
  ])

  const BusinessRefs: Schema := MenteeSchema.ReferenceList(3, "At least 3 business references are required")

  const Step5: Schema := SObject([Field("references", SObject([Field("business", BusinessRefs)]))])

  const Uploads: Schema := SObject([
    Field("bio", MenteeSchema.RequiredFiles("Bio is required")),
    Field("headshot", SOptional(SArray(SAny, []))),
    Field("additionalDocs", SOptional(SArray(SAny, [])))
  ])

  const Step6: Schema := SObject([Field("uploads", Uploads)])

  const Step7: Schema := SObject([Field("signature", MenteeSchema.Signature)])

  /** The step schemas in step order; the summary step's schema is the empty object. */
  const Steps: seq<Schema> := [Step1, Step2, Step3, Step4, Step5, Step6, Step7, SObject([])]

  /** Step 1: the person, the company, both phones and the business address are required. */
  lemma {:induction false} Step1Demands(doc: Value, fmt: Formats)
    requires Conforms(Step1, doc, fmt)
    ensures var p := Prop(doc, "person");
      StrAtLeast(Prop(p, "firstName"), 2) && StrAtLeast(Prop(p, "lastName"), 2) && StrAtLeast(Prop(p, "title"), 2)
      && Prop(p, "email").Str? && fmt.isEmail(Prop(p, "email").s)
    ensures var c := Prop(doc, "company");
      StrAtLeast(Prop(c, "name"), 2) && Prop(c, "industry").Arr? && |Prop(c, "industry").items| >= 1
    ensures StrAtLeast(Prop(Prop(doc, "phones"), "business"), 10) && StrAtLeast(Prop(Prop(doc, "phones"), "mobile"), 10)
    ensures var b := Prop(Prop(doc, "address"), "business");
      StrAtLeast(Prop(b, "street1"), 1) && StrAtLeast(Prop(b, "city"), 1) && StrAtLeast(Prop(b, "state"), 1)
      && StrAtLeast(Prop(b, "postalCode"), 5) && StrAtLeast(Prop(b, "country"), 1)
    ensures StrAtLeast(Prop(Prop(doc, "referral"), "source"), 1)
  {
    Step1Person(doc, fmt);
    Step1Company(doc, fmt);
    Step1Phones(doc, fmt);
    Step1Address(doc, fmt);
    Step1Referral(doc, fmt);
  }

  lemma Step1Person(doc: Value, fmt: Formats)
    requires Conforms(Step1, doc, fmt)
    ensures var p := Prop(doc, "person");
      StrAtLeast(Prop(p, "firstName"), 2) && StrAtLeast(Prop(p, "lastName"), 2) && StrAtLeast(Prop(p, "title"), 2)
      && Prop(p, "email").Str? && fmt.isEmail(Prop(p, "email").s)
  {
    FieldAt(Step1.fields, doc, fmt, 0);
    PersonDemands(Prop(doc, "person"), fmt);
  }

  lemma Step1Company(doc: Value, fmt: Formats)
    requires Conforms(Step1, doc, fmt)
    ensures var c := Prop(doc, "company");
      StrAtLeast(Prop(c, "name"), 2) && Prop(c, "industry").Arr? && |Prop(c, "industry").items| >= 1
  {
    FieldAt(Step1.fields, doc, fmt, 1);
    CompanyDemands(Prop(doc, "company"), fmt);
  }

  lemma Step1Phones(doc: Value, fmt: Formats)
    requires Conforms(Step1, doc, fmt)
    ensures StrAtLeast(Prop(Prop(doc, "phones"), "business"), 10) && StrAtLeast(Prop(Prop(doc, "phones"), "mobile"), 10)
  {
    FieldAt(Step1.fields, doc, fmt, 2);
    PhonesDemands(Prop(doc, "phones"), fmt);
  }

  lemma Step1Address(doc: Value, fmt: Formats)
    requires Conforms(Step1, doc, fmt)
    ensures var b := Prop(Prop(doc, "address"), "business");
      StrAtLeast(Prop(b, "street1"), 1) && StrAtLeast(Prop(b, "city"), 1) && StrAtLeast(Prop(b, "state"), 1)
      && StrAtLeast(Prop(b, "postalCode"), 5) && StrAtLeast(Prop(b, "country"), 1)
  {
    FieldAt(Step1.fields, doc, fmt, 3);
    AddressDemands(Prop(doc, "address"), fmt);
  }

  lemma Step1Referral(doc: Value, fmt: Formats)
    requires Conforms(Step1, doc, fmt)
    ensures StrAtLeast(Prop(Prop(doc, "referral"), "source"), 1)
  {
    FieldAt(Step1.fields, doc, fmt, 4);
    ReadMinLen(Step1.fields[4].schema.fields, Prop(doc, "referral"), fmt, 0, 1, "Referral source is required");
  }

  lemma CompanyDemands(c: Value, fmt: Formats)
    requires Conforms(Company, c, fmt)
    ensures StrAtLeast(Prop(c, "name"), 2) && Prop(c, "industry").Arr? && |Prop(c, "industry").items| >= 1
  {
    ReadMinLen(Company.fields, c, fmt, 0, 2, "Company name is required");
    ReadArr(Company.fields, c, fmt, 1, SString([]), MinItems(1, "At least one industry is required"));
  }

  lemma PhonesDemands(p: Value, fmt: Formats)
    requires Conforms(Phones, p, fmt)
    ensures StrAtLeast(Prop(p, "business"), 10) && StrAtLeast(Prop(p, "mobile"), 10)
  {
    ReadMinLen(Phones.fields, p, fmt, 0, 10, "Business phone is required");
    ReadMinLen(Phones.fields, p, fmt, 1, 10, "Mobile phone is required");
  }

  lemma AddressDemands(a: Value, fmt: Formats)
    requires Conforms(Address, a, fmt)
    ensures var b := Prop(a, "business");
      StrAtLeast(Prop(b, "street1"), 1) && StrAtLeast(Prop(b, "city"), 1) && StrAtLeast(Prop(b, "state"), 1)
      && StrAtLeast(Prop(b, "postalCode"), 5) && StrAtLeast(Prop(b, "country"), 1)
  {
    FieldAt(Address.fields, a, fmt, 0);
    var b := Prop(a, "business");
    var fs := MenteeSchema.BusinessAddress.fields;
    ReadMinLen(fs, b, fmt, 0, 1, "Street address is required");
    ReadMinLen(fs, b, fmt, 2, 1, "City is required");
    ReadMinLen(fs, b, fmt, 3, 1, "State is required");
    ReadMinLen(fs, b, fmt, 4, 5, "ZIP code is required");
    ReadMinLen(fs, b, fmt, 5, 1, "Country is required");
  }

  lemma PersonDemands(p: Value, fmt: Formats)
    requires Conforms(Person, p, fmt)
    ensures StrAtLeast(Prop(p, "firstName"), 2) && StrAtLeast(Prop(p, "lastName"), 2) && StrAtLeast(Prop(p, "title"), 2)
    ensures Prop(p, "email").Str? && fmt.isEmail(Prop(p, "email").s)
  {
    ReadMinLen(Person.fields, p, fmt, 0, 2, "First name is required");
    ReadMinLen(Person.fields, p, fmt, 1, 2, "Last name is required");
    ReadStrCheck(Person.fields, p, fmt, 2, EmailFormat("Valid email is required"));
    ReadMinLen(Person.fields, p, fmt, 3, 2, "Title is required");
  }

  /** The home address may be left out altogether: an address with a valid business part and no
      home part passes, and so does one whose home part is an empty object. */
  lemma HomeAddressOptional(business: Value, fmt: Formats)
    requires Conforms(MenteeSchema.BusinessAddress, business, fmt)
    ensures Conforms(Address, Obj(map["business" := business]), fmt)
    ensures Conforms(Address, Obj(map["business" := business, "home" := Obj(map[])]), fmt)
  {
    HomeMayBeEmpty(fmt);
    AddressParts(Obj(map["business" := business]), fmt);
    AddressWithHome(business, Obj(map[]), fmt);
  }

  lemma HomeMayBeEmpty(fmt: Formats)
    ensures Conforms(HomeAddress, Undefined, fmt) && Conforms(HomeAddress, Obj(map[]), fmt)
  {
    var inner := HomeAddress.inner;
    assert forall i :: 0 <= i < |inner.fields| ==> FieldConforms(inner.fields[i], Obj(map[]), fmt);
  }

  lemma AddressWithHome(business: Value, home: Value, fmt: Formats)
    requires Conforms(MenteeSchema.BusinessAddress, business, fmt) && Conforms(HomeAddress, home, fmt)
    ensures Conforms(Address, Obj(map["business" := business, "home" := home]), fmt)
  {
    AddressParts(Obj(map["business" := business, "home" := home]), fmt);
  }

  /** An object whose business and home parts pass passes the address schema. */
  lemma AddressParts(a: Value, fmt: Formats)
    requires a.Obj?
    requires Conforms(MenteeSchema.BusinessAddress, Prop(a, "business"), fmt) && Conforms(HomeAddress, Prop(a, "home"), fmt)
    ensures Conforms(Address, a, fmt)
  {
    assert FieldConforms(Address.fields[0], a, fmt);
    assert FieldConforms(Address.fields[1], a, fmt);
  }

  /** Step 2: years of leadership and the team counts are non-negative, and a company type is
      given; the total is not tied to the sum of the counts. */
  lemma {:induction false} Step2Demands(doc: Value, fmt: Formats)
    requires Conforms(Step2, doc, fmt)
    ensures var y := Prop(Prop(doc, "background"), "yearsInLeadershipOrOwnership"); y.Num? && y.n >= 0.0
    ensures var t := Prop(doc, "team");
      Prop(t, "fullTime").Num? && Prop(t, "fullTime").n >= 0.0
      && Prop(t, "partTime").Num? && Prop(t, "partTime").n >= 0.0
      && Prop(t, "contractors").Num? && Prop(t, "contractors").n >= 0.0
      && Prop(t, "total").Num? && Prop(t, "total").n >= 0.0
    ensures StrAtLeast(Prop(Prop(doc, "company"), "type"), 1)
  {
    Step2Years(doc, fmt);
    Step2CompanyType(doc, fmt);
    FieldAt(Step2.fields, doc, fmt, 1);
    TeamDemands(Prop(doc, "team"), fmt);
  }

  lemma Step2CompanyType(doc: Value, fmt: Formats)
    requires Conforms(Step2, doc, fmt)
    ensures StrAtLeast(Prop(Prop(doc, "company"), "type"), 1)
  {
    FieldAt(Step2.fields, doc, fmt, 2);
    ReadMinLen(Step2.fields[2].schema.fields, Prop(doc, "company"), fmt, 0, 1, "Company type is required");
  }

  lemma Step2Years(doc: Value, fmt: Formats)
    requires Conforms(Step2, doc, fmt)
    ensures var y := Prop(Prop(doc, "background"), "yearsInLeadershipOrOwnership"); y.Num? && y.n >= 0.0
  {
    FieldAt(Step2.fields, doc, fmt, 0);
    ReadNumMin(Step2.fields[0].schema.fields, Prop(doc, "background"), fmt, 0, 0.0, "Years must be 0 or greater");
  }

  /** Every count of the team, and its total, is non-negative. */
  lemma TeamDemands(t: Value, fmt: Formats)
    requires Conforms(Team, t, fmt)
    ensures Prop(t, "fullTime").Num? && Prop(t, "fullTime").n >= 0.0
    ensures Prop(t, "partTime").Num? && Prop(t, "partTime").n >= 0.0
    ensures Prop(t, "contractors").Num? && Prop(t, "contractors").n >= 0.0
    ensures Prop(t, "total").Num? && Prop(t, "total").n >= 0.0
  {
    TeamCount(t, fmt, 0);
    TeamCount(t, fmt, 1);
    TeamCount(t, fmt, 2);
    TeamCount(t, fmt, 3);
  }

  lemma TeamCount(t: Value, fmt: Formats, i: nat)
    requires Conforms(Team, t, fmt) && i < 4
    ensures Prop(t, Team.fields[i].key).Num? && Prop(t, Team.fields[i].key).n >= 0.0
  {
    FieldAt(Team.fields, t, fmt, i);
    OneNumCheck(Team.fields[i].schema.numChecks[0], Prop(t, Team.fields[i].key), fmt);
  }

  /** A team whose total differs from the sum of its counts still passes the team schema. */
  lemma TotalNotTiedToSum(fmt: Formats)
    ensures Conforms(Team, MenteeSchema.TeamValue(1.0, 1.0, 1.0, 7.0), fmt)
  {
    TeamPasses(MenteeSchema.TeamValue(1.0, 1.0, 1.0, 7.0), fmt);
  }

  /** An object whose three counts and total are non-negative numbers passes the team schema. */
  lemma TeamPasses(t: Value, fmt: Formats)
    requires t.Obj?
    requires forall i :: 0 <= i < 4 ==> Prop(t, Team.fields[i].key).Num? && Prop(t, Team.fields[i].key).n >= 0.0
    ensures Conforms(Team, t, fmt)
  {
    forall i | 0 <= i < |Team.fields| ensures FieldConforms(Team.fields[i], t, fmt) {
      OneNumCheck(Team.fields[i].schema.numChecks[0], Prop(t, Team.fields[i].key), fmt);
    }
  }

  /** Step 3: at least one expertise area, a meeting preference, hours per month in [0, 40] and
      a mentee capacity in [0, 10], both bounds inclusive. */
  lemma {:induction false} Step3Demands(doc: Value, fmt: Formats)
    requires Conforms(Step3, doc, fmt)
    ensures var p := Prop(doc, "preferences");
      Prop(p, "expertiseAreas").Arr? && |Prop(p, "expertiseAreas").items| >= 1
      && NumBetween(Prop(p, "availabilityHoursPerMonth"), 0.0, 40.0)
      && StrAtLeast(Prop(p, "meetingPreference"), 1)
      && NumBetween(Prop(p, "capacityMentees"), 0.0, 10.0)
  {
    FieldAt(Step3.fields, doc, fmt, 0);
    var p := Prop(doc, "preferences");
    ExpertiseRequired(p, fmt);
    HoursInRange(p, fmt);
    MeetingRequired(p, fmt);
    CapacityInRange(p, fmt);
  }

  lemma ExpertiseRequired(p: Value, fmt: Formats)
    requires Conforms(Preferences, p, fmt)
    ensures Prop(p, "expertiseAreas").Arr? && |Prop(p, "expertiseAreas").items| >= 1
  {
    ReadArr(Preferences.fields, p, fmt, 0, SString([]), MinItems(1, "At least one expertise area is required"));
  }

  lemma HoursInRange(p: Value, fmt: Formats)
    requires Conforms(Preferences, p, fmt)
    ensures NumBetween(Prop(p, "availabilityHoursPerMonth"), 0.0, 40.0)
  {
    ReadNumRange(Preferences.fields, p, fmt, 1, 0.0, 40.0, "Number must be greater than or equal to 0",
                 "Hours must be between 0-40");
  }

  lemma MeetingRequired(p: Value, fmt: Formats)
    requires Conforms(Preferences, p, fmt)
    ensures StrAtLeast(Prop(p, "meetingPreference"), 1)
  {
    ReadMinLen(Preferences.fields, p, fmt, 2, 1, "Meeting preference is required");
  }

  lemma CapacityInRange(p: Value, fmt: Formats)
    requires Conforms(Preferences, p, fmt)
    ensures NumBetween(Prop(p, "capacityMentees"), 0.0, 10.0)
  {
    ReadNumRange(Preferences.fields, p, fmt, 3, 0.0, 10.0, "Number must be greater than or equal to 0",
                 "Capacity must be between 0-10");
  }

  /** The bounds are inclusive: forty hours and ten mentees both pass. */
  lemma PreferenceBoundsInclusive(fmt: Formats)
    ensures Conforms(Preferences.fields[1].schema, Num(40.0), fmt)
    ensures Conforms(Preferences.fields[3].schema, Num(10.0), fmt)
    ensures !Conforms(Preferences.fields[1].schema, Num(41.0), fmt)
    ensures !Conforms(Preferences.fields[3].schema, Num(11.0), fmt)
  {
    MenteeSchema.RangeNumMeans(0.0, 40.0, "Number must be greater than or equal to 0", "Hours must be between 0-40",
                               Num(40.0), fmt);
    MenteeSchema.RangeNumMeans(0.0, 10.0, "Number must be greater than or equal to 0", "Capacity must be between 0-10",
                               Num(10.0), fmt);
    MenteeSchema.RangeNumMeans(0.0, 40.0, "Number must be greater than or equal to 0", "Hours must be between 0-40",
                               Num(41.0), fmt);
    MenteeSchema.RangeNumMeans(0.0, 10.0, "Number must be greater than or equal to 0", "Capacity must be between 0-10",
                               Num(11.0), fmt);
  }

  /** Step 4: exactly three mistakes, success and help-areas texts of 100..1000 characters and a
      why-HEMP text of 150..800. */
  lemma {:induction false} Step4Demands(doc: Value, fmt: Formats)
    requires Conforms(Step4, doc, fmt)
    ensures var n := Prop(doc, "narratives");
      StrBetween(Prop(n, "biggestSuccess"), 100, 1000) && StrBetween(Prop(n, "helpAreasAsLeader"), 100, 1000)
      && StrBetween(Prop(n, "whyHEMP"), 150, 800)
      && Prop(n, "mistakes").Arr? && |Prop(n, "mistakes").items| == 3
  {
    FieldAt(Step4.fields, doc, fmt, 1);
    var n := Prop(doc, "narratives");
    var m1, m2 := "Must be at least 100 characters", "Must be less than 1000 characters";
    ReadLenRange(Narratives.fields, n, fmt, 0, 100, 1000, m1, m2);
    FieldAt(Narratives.fields, n, fmt, 1);
    MenteeSchema.MistakesMeans(Prop(n, "mistakes"), fmt);
    ReadLenRange(Narratives.fields, n, fmt, 2, 100, 1000, m1, m2);
    ReadLenRange(Narratives.fields, n, fmt, 3, 150, 800, "Must be at least 150 characters", "Must be less than 800 characters");
  }

  /** Step 5: the business references list passes iff it has at least three valid entries;
      there is no maximum. */
  lemma {:induction false} Step5Means(xs: seq<Value>, fmt: Formats)
    ensures Conforms(Step5, Obj(map["references" := Obj(map["business" := Arr(xs)])]), fmt) <==>
      |xs| >= 3 && forall j :: 0 <= j < |xs| ==> Conforms(MenteeSchema.Reference, xs[j], fmt)
  {
    var r := Obj(map["business" := Arr(xs)]);
    var doc := Obj(map["references" := r]);
    MenteeSchema.ReferenceListMeans(3, "At least 3 business references are required", xs, fmt);
    if Conforms(BusinessRefs, Arr(xs), fmt) {
      assert FieldConforms(Field("business", BusinessRefs), r, fmt);
      assert FieldConforms(Step5.fields[0], doc, fmt);
    }
    if Conforms(Step5, doc, fmt) {
      FieldAt(Step5.fields, doc, fmt, 0);
      FieldAt([Field("business", BusinessRefs)], r, fmt, 0);
    }
  }

  /** Step 6: the bio holds at least one item; headshot and additional documents may be absent. */
  lemma {:induction false} Step6Means(bio: Value, fmt: Formats)
    ensures Conforms(Step6, Obj(map["uploads" := Obj(map["bio" := bio])]), fmt) <==> bio.Arr? && |bio.items| >= 1
  {
    var u := Obj(map["bio" := bio]);
    var doc := Obj(map["uploads" := u]);
    BioOnlyMeans(bio, fmt);
    if Conforms(Uploads, u, fmt) {
      assert FieldConforms(Step6.fields[0], doc, fmt);
    }
    if Conforms(Step6, doc, fmt) {
      FieldAt(Step6.fields, doc, fmt, 0);
    }
  }

  /** An uploads object holding only a bio passes iff the bio holds at least one item. */
  lemma BioOnlyMeans(bio: Value, fmt: Formats)
    ensures Conforms(Uploads, Obj(map["bio" := bio]), fmt) <==> bio.Arr? && |bio.items| >= 1
  {
    var u := Obj(map["bio" := bio]);
    MenteeSchema.RequiredFilesMeans("Bio is required", bio, fmt);
    if bio.Arr? && |bio.items| >= 1 {
      assert FieldConforms(Uploads.fields[0], u, fmt);
      assert FieldConforms(Uploads.fields[1], u, fmt);
      assert FieldConforms(Uploads.fields[2], u, fmt);
    }
    if Conforms(Uploads, u, fmt) {
      FieldAt(Uploads.fields, u, fmt, 0);
    }
  }

  /** The mentor signature step applies the mentee's signature rule unchanged. */
  lemma SignatureRuleShared(doc: Value, fmt: Formats)
    ensures Conforms(Step7, doc, fmt) <==> Conforms(MenteeSchema.Step8, doc, fmt)
  {
    assert Step7 == MenteeSchema.Step8;
  }

  /** The wizard has eight schemas and the last one, the summary's, accepts every object. */
  lemma SummaryStepAlwaysValid(doc: Value, fmt: Formats)
    requires doc.Obj?
    ensures |Steps| == 8 && Conforms(Steps[7], doc, fmt)
  {
  }
}
