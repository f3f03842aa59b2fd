/**
 * The participant directory's records and `filterParticipants`: the participants are narrowed
 * by role, search text, industries, expertises and (for mentors) availability, then sorted.
 *
 * `localeCompare` is an abstract total order given as a rank on strings (`rank(a) < rank(b)`
 * when `a` sorts before `b`); `updatedAt` is an integer timestamp.
 */
module Participants {
  import opened Text
  import opened Wrappers

  datatype Role = Mentee | Mentor | Counselor | Fellow

  function RoleName(r: Role): string {
    match r
    case Mentee => "mentee"
    case Mentor => "mentor"
    case Counselor => "counselor"
    case Fellow => "fellow"
  }

  datatype Address = Address(street: string, city: string, state: string, zip: string, country: string)

  datatype Contact = Contact(email: string, phone: Option<string>, website: Option<string>, linkedin: Option<string>)

  datatype Participant = Participant(
    id: string, slug: string, role: Role, firstName: string, lastName: string, email: string,
    title: Option<string>, company: Option<string>, website: Option<string>, bio: Option<string>,
    headshotUrl: Option<string>, classYear: Option<int>, industries: seq<string>, expertises: seq<string>,
    businessAddress: Option<Address>, contact: Contact, availability: Option<bool>,
    isPublic: bool, showEmail: bool, updatedAt: int)

  /** `ParticipantFilters`; every key may be absent. */
  datatype Filters = Filters(
    q: Option<string>, role: Option<string>, industries: Option<seq<string>>, expertises: Option<seq<string>>,
    classYear: Option<seq<int>>, location: Option<string>, availability: Option<bool>, sort: Option<string>,
    page: Option<int>, limit: Option<int>)

  const NoFilters: Filters := Filters(None, None, None, None, None, None, None, None, None, None)

  /** A string option is truthy when present and non-empty. */
  predicate Filled(s: Option<string>) {
    s.Some? && s.value != ""
  }

  // ---- the five stages ----

  datatype Stage = RoleStage | QueryStage | IndustryStage | ExpertiseStage | AvailabilityStage

  /** Whether a stage runs for these filters. */
  predicate Applies(f: Filters, s: Stage) {
    match s
    case RoleStage => Filled(f.role) && f.role.value != "all"
    case QueryStage => Filled(f.q)
    case IndustryStage => f.industries.Some? && |f.industries.value| > 0
    case ExpertiseStage => f.expertises.Some? && |f.expertises.value| > 0
    case AvailabilityStage => f.availability.Some? && f.role == Some("mentor")
  }

  /** `x?.toLowerCase().includes(query)` for an optional field. */
  predicate OptionalIncludes(x: Option<string>, query: string) {
    x.Some? && Contains(Lower(x.value), query)
  }

  /** The search text occurs, ignoring case, in the first name, last name, company or title. */
  predicate MatchesQuery(p: Participant, q: string) {
    var query := Lower(q);
    Contains(Lower(p.firstName), query) || Contains(Lower(p.lastName), query)
    || OptionalIncludes(p.company, query) || OptionalIncludes(p.title, query)
  }

  /** `xs.some(x => ys.includes(x))` */
  predicate SharesAny(xs: seq<string>, ys: seq<string>) {
    exists i :: 0 <= i < |xs| && xs[i] in ys
  }

  /** The condition a stage keeps; a stage that does not run keeps everyone. */
  predicate Passes(p: Participant, f: Filters, s: Stage) {
    Applies(f, s) ==>
      match s
      case RoleStage => RoleName(p.role) == f.role.value
      case QueryStage => MatchesQuery(p, f.q.value)
      case IndustryStage => SharesAny(p.industries, f.industries.value)
      case ExpertiseStage => SharesAny(p.expertises, f.expertises.value)
      case AvailabilityStage => p.availability == f.availability
  }

  /** A participant the directory lists for these filters. */
  predicate Matches(p: Participant, f: Filters) {
    forall s :: Passes(p, f, s)
  }

  /** `xs.filter(keep)`: the elements that pass, in their order. */
  function Select<T(==,!new)>(xs: seq<T>, keep: T -> bool): (r: seq<T>)
    ensures |r| <= |xs|
    ensures forall p :: p in r <==> p in xs && keep(p)
    ensures multiset(r) <= multiset(xs)
  {
    if xs == [] then []
    else
      var rest := Select(xs[1..], keep);
      assert xs == [xs[0]] + xs[1..];
      (if keep(xs[0]) then [xs[0]] else []) + rest
  }

  /** Filtering a concatenation filters each part. */
  lemma {:induction false} SelectAppend<T(!new)>(a: seq<T>, b: seq<T>, keep: T -> bool)
    ensures Select(a + b, keep) == Select(a, keep) + Select(b, keep)
    decreases |a|
  {
    if a == [] {
      assert a + b == b;
    } else {
      assert (a + b)[1..] == a[1..] + b;
      SelectAppend(a[1..], b, keep);
    }
  }

  /** A test every element passes keeps the whole list. */
  lemma {:induction false} SelectAll<T(!new)>(xs: seq<T>, keep: T -> bool)
    requires forall p :: p in xs ==> keep(p)
    ensures Select(xs, keep) == xs
    decreases |xs|
  {
    if xs != [] {
      SelectAll(xs[1..], keep);
      assert xs == [xs[0]] + xs[1..];
    }
  }

  lemma SelectOne<T(!new)>(x: T, keep: T -> bool)
    ensures Select([x], keep) == if keep(x) then [x] else []
  {
    assert [x][1..] == [];
  }

  /** The test of one stage, as the callback its `filter` call is given. */
  function StageTest(f: Filters, s: Stage): Participant -> bool {
    p => Passes(p, f, s)
  }

  /** `filtered.filter(...)` for one stage. */
  function Keep(xs: seq<Participant>, f: Filters, s: Stage): (r: seq<Participant>)
    ensures |r| <= |xs|
    ensures forall p :: p in r <==> p in xs && Passes(p, f, s)
    ensures multiset(r) <= multiset(xs)
  {
    Select(xs, StageTest(f, s))
  }

  /** The reference definition: the participants that match, in input order. */
  function Filtered(xs: seq<Participant>, f: Filters): (r: seq<Participant>)
    ensures |r| <= |xs|
    ensures forall p :: p in r <==> p in xs && Matches(p, f)
    ensures multiset(r) <= multiset(xs)
  {
    Select(xs, p => Matches(p, f))
  }

  /** The five stages in the order the code runs them. */
  function Staged(xs: seq<Participant>, f: Filters): seq<Participant> {
    Keep(Keep(Keep(Keep(Keep(xs, f, RoleStage), f, QueryStage), f, IndustryStage), f, ExpertiseStage), f, AvailabilityStage)
  }

  lemma KeepAppend(a: seq<Participant>, b: seq<Participant>, f: Filters, s: Stage)
    ensures Keep(a + b, f, s) == Keep(a, f, s) + Keep(b, f, s)
  {
    SelectAppend(a, b, StageTest(f, s));
  }

  /** A stage that does not run keeps the list as it is. */
  lemma KeepInactive(xs: seq<Participant>, f: Filters, s: Stage)
    requires !Applies(f, s)
    ensures Keep(xs, f, s) == xs
  {
    SelectAll(xs, StageTest(f, s));
  }

  lemma KeepOne(x: Participant, f: Filters, s: Stage)
    ensures Keep([x], f, s) == if Passes(x, f, s) then [x] else []
  {
    SelectOne(x, StageTest(f, s));
  }

  /** Running the stages one after another keeps exactly the matching participants, in order. */
  lemma {:induction false} StagedIsFiltered(xs: seq<Participant>, f: Filters)
    ensures Staged(xs, f) == Filtered(xs, f)
    decreases |xs|
  {
    if xs != [] {
      var x, rest := xs[0], xs[1..];
      assert xs == [x] + rest;
      StagedIsFiltered(rest, f);
      var k1 := Keep([x], f, RoleStage);
      var k2 := Keep(k1, f, QueryStage);
      var k3 := Keep(k2, f, IndustryStage);
      var k4 := Keep(k3, f, ExpertiseStage);
      var r1 := Keep(rest, f, RoleStage);
      var r2 := Keep(r1, f, QueryStage);
      var r3 := Keep(r2, f, IndustryStage);
      var r4 := Keep(r3, f, ExpertiseStage);
      KeepAppend([x], rest, f, RoleStage);
      KeepAppend(k1, r1, f, QueryStage);
      KeepAppend(k2, r2, f, IndustryStage);
      KeepAppend(k3, r3, f, ExpertiseStage);
      KeepAppend(k4, r4, f, AvailabilityStage);
      StagedOne(x, f);
      SelectAppend([x], rest, p => Matches(p, f));
      SelectOne(x, p => Matches(p, f));
    }
  }

  /** A participant matches iff it passes each of the five stages. */
  lemma MatchesFive(x: Participant, f: Filters)
    ensures Matches(x, f) <==> Passes(x, f, RoleStage) && Passes(x, f, QueryStage) && Passes(x, f, IndustryStage)
                               && Passes(x, f, ExpertiseStage) && Passes(x, f, AvailabilityStage)
  {
    if Passes(x, f, RoleStage) && Passes(x, f, QueryStage) && Passes(x, f, IndustryStage)
       && Passes(x, f, ExpertiseStage) && Passes(x, f, AvailabilityStage) {
      forall s ensures Passes(x, f, s) {
        match s
        case RoleStage =>
        case QueryStage =>
        case IndustryStage =>
        case ExpertiseStage =>
        case AvailabilityStage =>
      }
    }
  }

  /** A stage applied to at most the one participant keeps it iff it passes. */
  lemma KeepSingle(ys: seq<Participant>, x: Participant, f: Filters, s: Stage)
    requires ys == [x] || ys == []
    ensures Keep(ys, f, s) == if ys == [x] && Passes(x, f, s) then [x] else []
  {
    if ys == [x] {
      KeepOne(x, f, s);
    }
  }

  /** One participant goes through all five stages iff it matches. */
  lemma StagedOne(x: Participant, f: Filters)
    ensures Staged([x], f) == if Matches(x, f) then [x] else []
  {
    KeepSingle([x], x, f, RoleStage);
    var k1 := Keep([x], f, RoleStage);
    KeepSingle(k1, x, f, QueryStage);
    var k2 := Keep(k1, f, QueryStage);
    KeepSingle(k2, x, f, IndustryStage);
    var k3 := Keep(k2, f, IndustryStage);
    KeepSingle(k3, x, f, ExpertiseStage);
    var k4 := Keep(k3, f, ExpertiseStage);
    KeepSingle(k4, x, f, AvailabilityStage);
    MatchesFive(x, f);
  }

  // ---- sorting ----

  datatype SortChoice = ByName | ByCompany | ByClassYear | ByRecent | Unsorted

  /** The `switch (filters.sort)`: an absent, empty or unknown key sorts nothing. */
  function SortOf(f: Filters): SortChoice {
    if f.sort == Some("name") then ByName
    else if f.sort == Some("company") then ByCompany
    else if f.sort == Some("classYear") then ByClassYear
    else if f.sort == Some("recent") then ByRecent
    else Unsorted
  }

  /** `p.company || ''` */
  function CompanyOrEmpty(p: Participant): string {
    if p.company.Some? then p.company.value else ""
  }

  /** `p.classYear || 0` */
  function YearOrZero(p: Participant): int {
    if p.classYear.Some? then p.classYear.value else 0
  }

  /** The number each comparator compares, so that every sort is ascending in it: the collation
      rank of the last name or company, and the negated year or timestamp for the two
      descending sorts. */
  function Key(p: Participant, s: SortChoice, rank: string -> int): int {
    match s
    case ByName => rank(p.lastName)
    case ByCompany => rank(CompanyOrEmpty(p))
    case ByClassYear => -YearOrZero(p)
    case ByRecent => -p.updatedAt
    case Unsorted => 0
  }

  predicate SortedBy(xs: seq<Participant>, s: SortChoice, rank: string -> int) {
    forall i, j :: 0 <= i < j < |xs| ==> Key(xs[i], s, rank) <= Key(xs[j], s, rank)
  }

  /** What each sorted order means for the records themselves. */
  lemma SortedMeans(xs: seq<Participant>, rank: string -> int, i: int, j: int)
    requires 0 <= i < j < |xs|
    ensures SortedBy(xs, ByName, rank) ==> rank(xs[i].lastName) <= rank(xs[j].lastName)
    ensures SortedBy(xs, ByCompany, rank) ==> rank(CompanyOrEmpty(xs[i])) <= rank(CompanyOrEmpty(xs[j]))
    ensures SortedBy(xs, ByClassYear, rank) ==> YearOrZero(xs[i]) >= YearOrZero(xs[j])
    ensures SortedBy(xs, ByRecent, rank) ==> xs[i].updatedAt >= xs[j].updatedAt
  {
  }

  /** The first `n` elements are in order. */
  predicate SortedPrefix(xs: seq<Participant>, n: int, s: SortChoice, rank: string -> int)
    requires n <= |xs|
  {
    forall k, l :: 0 <= k < l < n ==> Key(xs[k], s, rank) <= Key(xs[l], s, rank)
  }

  /** Element `j` is on its way down through `xs[..i + 1]`: the others are in order and every
      element after it compares greater. */
  predicate Sinking(xs: seq<Participant>, i: int, j: int, s: SortChoice, rank: string -> int)
    requires 0 <= j <= i < |xs|
  {
    && (forall k, l :: 0 <= k < l <= i && k != j && l != j ==> Key(xs[k], s, rank) <= Key(xs[l], s, rank))
    && (forall l :: j < l <= i ==> Key(xs[j], s, rank) < Key(xs[l], s, rank))
  }

  /** Swapping the sinking element with a greater predecessor moves it down one place. */
  lemma SinkStep(xs: seq<Participant>, i: int, j: int, s: SortChoice, rank: string -> int)
    requires 0 < j <= i < |xs| && Sinking(xs, i, j, s, rank)
    requires Key(xs[j - 1], s, rank) > Key(xs[j], s, rank)
    ensures Sinking(xs[j - 1 := xs[j]][j := xs[j - 1]], i, j - 1, s, rank)
  {
  }

  /** Once its predecessor is no greater, the sinking element has found its place. */
  lemma SinkDone(xs: seq<Participant>, i: int, j: int, s: SortChoice, rank: string -> int)
    requires 0 <= j <= i < |xs| && Sinking(xs, i, j, s, rank)
    requires j == 0 || Key(xs[j - 1], s, rank) <= Key(xs[j], s, rank)
    ensures SortedPrefix(xs, i + 1, s, rank)
  {
    forall k, l | 0 <= k < l <= i ensures Key(xs[k], s, rank) <= Key(xs[l], s, rank) {
      if l == j && k < j - 1 {
        assert Key(xs[k], s, rank) <= Key(xs[j - 1], s, rank);
      }
    }
  }

  /** Exchanges `a[j - 1]` and `a[j]`. */
  method Swap(a: array<Participant>, j: int)
    requires 0 < j < a.Length
    modifies a
    ensures a[..] == old(a[..])[j - 1 := old(a[j])][j := old(a[j - 1])]
    ensures multiset(a[..]) == multiset(old(a[..]))
  {
    a[j - 1], a[j] := a[j], a[j - 1];
  }

  /** One pass of the insertion sort: element `i` is swapped back while its predecessor compares
      greater, which extends the ordered prefix by one. */
  method InsertAt(a: array<Participant>, i: int, s: SortChoice, rank: string -> int)
    requires 0 < i < a.Length && SortedPrefix(a[..], i, s, rank)
    modifies a
    ensures SortedPrefix(a[..], i + 1, s, rank)
    ensures multiset(a[..]) == multiset(old(a[..]))
  {
    var j := i;
    while j > 0 && Key(a[j - 1], s, rank) > Key(a[j], s, rank)
      invariant 0 <= j <= i
      invariant Sinking(a[..], i, j, s, rank)
      invariant multiset(a[..]) == multiset(old(a[..]))
    {
      SinkStep(a[..], i, j, s, rank);
      Swap(a, j);
      j := j - 1;
    }
    SinkDone(a[..], i, j, s, rank);
  }

  /** `filtered.sort(compare)`, as an insertion sort. */
  method SortInPlace(a: array<Participant>, s: SortChoice, rank: string -> int)
    modifies a
    ensures SortedBy(a[..], s, rank)
    ensures multiset(a[..]) == multiset(old(a[..]))
  {
    if a.Length == 0 {
      return;
    }
    var i := 1;
    while i < a.Length
      invariant 1 <= i <= a.Length
      invariant SortedPrefix(a[..], i, s, rank)
      invariant multiset(a[..]) == multiset(old(a[..]))
    {
      InsertAt(a, i, s, rank);
      i := i + 1;
    }
  }

  /** `if (condition) filtered = filtered.filter(keep)` for one stage. */
  method RunStage(xs: seq<Participant>, f: Filters, s: Stage) returns (r: seq<Participant>)
    ensures r == Keep(xs, f, s)
    ensures !Applies(f, s) ==> r == xs
  {
    if Applies(f, s) {
      r := Keep(xs, f, s);
    } else {
      KeepInactive(xs, f, s);
      r := xs;
    }
  }

  /** The list sorted through an array holding a copy of it. */
  method SortedCopy(xs: seq<Participant>, s: SortChoice, rank: string -> int) returns (r: seq<Participant>)
    ensures multiset(r) == multiset(xs)
    ensures forall p :: p in r <==> p in xs
    ensures SortedBy(r, s, rank)
  {
    var a := new Participant[|xs|](i requires 0 <= i < |xs| => xs[i]);
    assert a[..] == xs;
    SortInPlace(a, s, rank);
    r := a[..];
    forall p ensures p in r <==> p in xs {
      assert p in r <==> p in multiset(r);
      assert p in xs <==> p in multiset(xs);
    }
  }

  /** `filterParticipants(participants, filters)`: a copy of the input narrowed stage by stage,
      then sorted in place unless the sort key is absent or unknown. The input is a value and
      is left as it was. */
  method FilterParticipants(participants: seq<Participant>, f: Filters, rank: string -> int)
    returns (r: seq<Participant>)
    ensures forall p :: p in r <==> p in participants && Matches(p, f)
    ensures multiset(r) == multiset(Filtered(participants, f)) && multiset(r) <= multiset(participants)
    ensures SortOf(f) == Unsorted ==> r == Filtered(participants, f)
    ensures SortOf(f) != Unsorted ==> SortedBy(r, SortOf(f), rank)
  {
    var filtered := participants;
    filtered := RunStage(filtered, f, RoleStage);
    filtered := RunStage(filtered, f, QueryStage);
    filtered := RunStage(filtered, f, IndustryStage);
    filtered := RunStage(filtered, f, ExpertiseStage);
    filtered := RunStage(filtered, f, AvailabilityStage);
    StagedIsFiltered(participants, f);
    if SortOf(f) != Unsorted {
      filtered := SortedCopy(filtered, SortOf(f), rank);
    }
    r := filtered;
  }

  /** With every filter absent and no sort, the directory lists everyone in input order. */
  lemma NothingFiltersNobody(xs: seq<Participant>)
    ensures Filtered(xs, NoFilters) == xs
  {
    forall p ensures Matches(p, NoFilters) {
    }
    FilteredAll(xs, NoFilters);
  }

  lemma FilteredAll(xs: seq<Participant>, f: Filters)
    requires forall p :: Matches(p, f)
    ensures Filtered(xs, f) == xs
  {
    SelectAll(xs, p => Matches(p, f));
  }

  /** The availability filter only bites on the mentor tab: with any other role it keeps
      whatever the other filters keep. */
  lemma AvailabilityOnlyForMentors(p: Participant, f: Filters)
    requires f.role != Some("mentor")
    ensures Matches(p, f) <==> Matches(p, f.(availability := None))
  {
    var g := f.(availability := None);
    forall s ensures Passes(p, f, s) <==> Passes(p, g, s) {
    }
  }
}
