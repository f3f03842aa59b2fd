/**
 * The filter sidebar of the participant directory: every edit builds a new `ParticipantFilters`
 * record and hands it to the page. Editing one key, toggling a checkbox value, clearing, counting
 * the active filters, and the values the selects show.
 */
module ParticipantFilters {
  import opened Wrappers
  import opened Lists
  import opened Participants

  /** The keys of `ParticipantFilters`. */
  datatype FilterKey = QKey | RoleKey | IndustriesKey | ExpertisesKey | ClassYearKey
                     | LocationKey | AvailabilityKey | SortKey | PageKey | LimitKey

  /** `updateFilter(key, value)`, one constructor per key with the value it stores. */
  datatype FilterUpdate =
    | SetQ(q: Option<string>)
    | SetRole(role: Option<string>)
    | SetIndustries(industries: Option<seq<string>>)
    | SetExpertises(expertises: Option<seq<string>>)
    | SetClassYear(classYear: Option<seq<int>>)
    | SetLocation(location: Option<string>)
    | SetAvailability(availability: Option<bool>)
    | SetSort(sort: Option<string>)
    | SetPage(page: Option<int>)
    | SetLimit(limit: Option<int>)

  function KeyOf(u: FilterUpdate): FilterKey {
    match u
    case SetQ(_) => QKey
    case SetRole(_) => RoleKey
    case SetIndustries(_) => IndustriesKey
    case SetExpertises(_) => ExpertisesKey
    case SetClassYear(_) => ClassYearKey
    case SetLocation(_) => LocationKey
    case SetAvailability(_) => AvailabilityKey
    case SetSort(_) => SortKey
    case SetPage(_) => PageKey
    case SetLimit(_) => LimitKey
  }

  /** The two records hold the same value under key `k`. */
  predicate SameAt(f: Filters, g: Filters, k: FilterKey) {
    match k
    case QKey => f.q == g.q
    case RoleKey => f.role == g.role
    case IndustriesKey => f.industries == g.industries
    case ExpertisesKey => f.expertises == g.expertises
    case ClassYearKey => f.classYear == g.classYear
    case LocationKey => f.location == g.location
    case AvailabilityKey => f.availability == g.availability
    case SortKey => f.sort == g.sort
    case PageKey => f.page == g.page
    case LimitKey => f.limit == g.limit
  }

  /** The record holds the value the update stores. */
  predicate Holds(f: Filters, u: FilterUpdate) {
    match u
    case SetQ(v) => f.q == v
    case SetRole(v) => f.role == v
    case SetIndustries(v) => f.industries == v
    case SetExpertises(v) => f.expertises == v
    case SetClassYear(v) => f.classYear == v
    case SetLocation(v) => f.location == v
    case SetAvailability(v) => f.availability == v
    case SetSort(v) => f.sort == v
    case SetPage(v) => f.page == v
    case SetLimit(v) => f.limit == v
  }

  /** `{ ...filters, [key]: value }`: the key gets the value and no other key changes. */
  function UpdateFilter(f: Filters, u: FilterUpdate): (r: Filters)
    ensures Holds(r, u)
    ensures forall k :: k != KeyOf(u) ==> SameAt(f, r, k)
  {
    match u
    case SetQ(v) => f.(q := v)
    case SetRole(v) => f.(role := v)
    case SetIndustries(v) => f.(industries := v)
    case SetExpertises(v) => f.(expertises := v)
    case SetClassYear(v) => f.(classYear := v)
    case SetLocation(v) => f.(location := v)
    case SetAvailability(v) => f.(availability := v)
    case SetSort(v) => f.(sort := v)
    case SetPage(v) => f.(page := v)
    case SetLimit(v) => f.(limit := v)
  }

  /** The two clauses above pin the result down: any record meeting them is the update's. */
  lemma UpdateDetermined(f: Filters, u: FilterUpdate, g: Filters)
    requires Holds(g, u) && forall k :: k != KeyOf(u) ==> SameAt(f, g, k)
    ensures g == UpdateFilter(f, u)
  {
    assert SameAt(f, g, QKey) || KeyOf(u) == QKey;
    assert SameAt(f, g, RoleKey) || KeyOf(u) == RoleKey;
    assert SameAt(f, g, IndustriesKey) || KeyOf(u) == IndustriesKey;
    assert SameAt(f, g, ExpertisesKey) || KeyOf(u) == ExpertisesKey;
    assert SameAt(f, g, ClassYearKey) || KeyOf(u) == ClassYearKey;
    assert SameAt(f, g, LocationKey) || KeyOf(u) == LocationKey;
    assert SameAt(f, g, AvailabilityKey) || KeyOf(u) == AvailabilityKey;
    assert SameAt(f, g, SortKey) || KeyOf(u) == SortKey;
    assert SameAt(f, g, PageKey) || KeyOf(u) == PageKey;
    assert SameAt(f, g, LimitKey) || KeyOf(u) == LimitKey;
  }

  /** Storing the same key twice keeps the last value only. */
  lemma UpdateTwice(f: Filters, u: FilterUpdate, w: FilterUpdate)
    requires KeyOf(u) == KeyOf(w)
    ensures UpdateFilter(UpdateFilter(f, u), w) == UpdateFilter(f, w)
  {
  }

  // ---- checkbox lists ----

  /** `filters[key] || []` */
  function Items(o: Option<seq<string>>): seq<string> {
    if o.Some? then o.value else []
  }

  /** `toggleArrayFilter`'s new list: every copy of a present value is removed, an absent one is
      appended, and an empty result is stored as absent. */
  function Toggle(cur: Option<seq<string>>, v: string): (r: Option<seq<string>>)
    ensures r.Some? ==> r.value != []
    ensures v in Items(r) <==> v !in Items(cur)
    ensures forall w :: w != v ==> (w in Items(r) <==> w in Items(cur))
    ensures v !in Items(cur) ==> Items(r) == Items(cur) + [v]
  {
    var a := Items(cur);
    var next := if v in a then Without(a, v) else a + [v];
    if |next| > 0 then Some(next) else None
  }

  /** Toggling a value twice, starting from a list without it, gives the list back, except that
      an empty list comes back as absent. */
  lemma ToggleTwice(cur: Option<seq<string>>, v: string)
    requires v !in Items(cur)
    ensures Toggle(Toggle(cur, v), v) == if Items(cur) == [] then None else Some(Items(cur))
  {
    AppendThenWithout(Items(cur), v);
  }

  /** The two list-valued filters the checkboxes edit. */
  datatype ListKey = IndustryList | ExpertiseList

  function KeyOfList(key: ListKey): FilterKey {
    match key
    case IndustryList => IndustriesKey
    case ExpertiseList => ExpertisesKey
  }

  function ListOf(f: Filters, key: ListKey): Option<seq<string>> {
    match key
    case IndustryList => f.industries
    case ExpertiseList => f.expertises
  }

  /** `checked={filters[key]?.includes(value) || false}` */
  predicate IsChecked(f: Filters, key: ListKey, v: string) {
    v in Items(ListOf(f, key))
  }

  /** `toggleArrayFilter(key, value)`: only that list changes, the clicked box flips and every
      other box of either list keeps its state. */
  function ToggleArrayFilter(f: Filters, key: ListKey, v: string): (r: Filters)
    ensures ListOf(r, key) == Toggle(ListOf(f, key), v)
    ensures forall k :: k != KeyOfList(key) ==> SameAt(f, r, k)
    ensures IsChecked(r, key, v) <==> !IsChecked(f, key, v)
    ensures forall key', w :: (key' != key || w != v) ==> (IsChecked(r, key', w) <==> IsChecked(f, key', w))
  {
    match key
    case IndustryList => UpdateFilter(f, SetIndustries(Toggle(f.industries, v)))
    case ExpertiseList => UpdateFilter(f, SetExpertises(Toggle(f.expertises, v)))
  }

  // ---- clearing and counting ----

  /** `filters.role || 'all'`, also the value the role select and the page's tabs show. */
  function RoleShown(f: Filters): string {
    if Filled(f.role) then f.role.value else "all"
  }

  /** `clearFilters`: a new record holding an empty search, the current role (or 'all') and the
      name sort, with every other key absent. */
  function ClearFilters(f: Filters): (r: Filters)
    ensures r.role == Some(RoleShown(f)) && r.sort == Some("name") && r.q == Some("")
    ensures forall k :: k != QKey && k != RoleKey && k != SortKey ==> SameAt(r, NoFilters, k)
  {
    Filters(Some(""), Some(RoleShown(f)), None, None, None, None, None, Some("name"), None, None)
  }

  /** `getActiveFilterCount` of the sidebar: one for each of a truthy search, a non-empty
      industries list, a non-empty expertises list, a truthy location and a defined availability;
      the role and the sort never count. */
  function ActiveCount(f: Filters): (n: nat)
    ensures n <= 5
    ensures n == 0 <==> !Filled(f.q) && Items(f.industries) == [] && Items(f.expertises) == []
                        && !Filled(f.location) && f.availability.None?
  {
    (if Filled(f.q) then 1 else 0)
    + (if |Items(f.industries)| > 0 then 1 else 0)
    + (if |Items(f.expertises)| > 0 then 1 else 0)
    + (if Filled(f.location) then 1 else 0)
    + (if f.availability.Some? then 1 else 0)
  }

  /** After clearing, nothing counts as active, the sort is by name, and the directory keeps
      exactly the participants of the tab that was selected. */
  lemma ClearedShowsTab(f: Filters, p: Participant)
    ensures ActiveCount(ClearFilters(f)) == 0
    ensures SortOf(ClearFilters(f)) == ByName
    ensures Matches(p, ClearFilters(f)) <==> RoleShown(f) == "all" || RoleName(p.role) == RoleShown(f)
  {
    var g := ClearFilters(f);
    if RoleShown(f) == "all" || RoleName(p.role) == RoleShown(f) {
      forall s ensures Passes(p, g, s) {
      }
    } else {
      assert !Passes(p, g, RoleStage);
    }
  }

  lemma ClearIdempotent(f: Filters)
    ensures ClearFilters(ClearFilters(f)) == ClearFilters(f)
  {
  }

  /** With no active filter only the role can narrow the list: the badge's zero means the
      directory shows the whole tab. */
  lemma NoActiveFilterShowsTab(f: Filters, p: Participant)
    requires ActiveCount(f) == 0
    ensures Matches(p, f) <==> Passes(p, f, RoleStage)
  {
    if Passes(p, f, RoleStage) {
      forall s ensures Passes(p, f, s) {
      }
    }
  }

  // ---- the selects ----

  /** `filters.sort || 'name'`, the value the sort select shows. */
  function SortShown(f: Filters): string {
    if Filled(f.sort) then f.sort.value else "name"
  }

  /** The sort select shows the order applied, with one exception: with the key absent it shows
      "name" while the list keeps its input order. */
  lemma SortShownMatchesApplied(f: Filters)
    ensures Filled(f.sort) ==> (SortShown(f) == "name" <==> SortOf(f) == ByName)
    ensures f.sort == None ==> SortShown(f) == "name" && SortOf(f) == Unsorted
  {
  }

  /** The availability select is rendered only on the mentor role. */
  predicate AvailabilityControlShown(f: Filters) {
    f.role == Some("mentor")
  }

  /** The availability stage only runs when its select is on screen. */
  lemma AvailabilityAppliesOnlyWhenShown(f: Filters)
    ensures Applies(f, AvailabilityStage) <==> AvailabilityControlShown(f) && f.availability.Some?
  {
  }

  /** `onValueChange`: 'all' clears the filter, 'true' sets it and any other value sets false. */
  function AvailabilityChoice(value: string): (r: Option<bool>)
    ensures r == None <==> value == "all"
    ensures r == Some(true) <==> value == "true"
  {
    if value == "all" then None else Some(value == "true")
  }

  /** `filters.availability?.toString() || 'all'` */
  function AvailabilityShown(a: Option<bool>): (r: string)
    ensures r in {"all", "true", "false"}
  {
    match a
    case None => "all"
    case Some(b) => if b then "true" else "false"
  }

  /** Choosing what the select shows changes nothing, and each of the three items is shown as
      itself once chosen. */
  lemma AvailabilityRoundTrip(a: Option<bool>, value: string)
    ensures AvailabilityChoice(AvailabilityShown(a)) == a
    ensures value in {"all", "true", "false"} ==> AvailabilityShown(AvailabilityChoice(value)) == value
  {
  }
}
