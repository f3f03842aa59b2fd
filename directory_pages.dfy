/**
 * The two participant directory pages. Both keep a `filters` state that the path effect, the
 * role tabs and the sidebar update, and both list `filterParticipants(MOCK_PARTICIPANTS, filters)`.
 * The pages differ in what a tab click keeps of the other filters and in how the heading is
 * spelt; the older page also shows removable badges for the active search and list values.
 */
module DirectoryPages {
  import opened Wrappers
  import opened Text
  import opened Participants
  import opened ParticipantFilters

  // ---- the path and the tabs ----

  /** The values of the role tabs. */
  const TabRoles: set<string> := {"all", "mentee", "mentor", "fellow", "counselor"}

  /** The path effect's role: the first of '/mentees', '/mentors', '/fellows', '/counselors'
      contained in the path, and 'all' when none is. */
  function RoleFromPath(path: string): (r: string)
    ensures r in TabRoles
    ensures Contains(path, "/mentees") ==> r == "mentee"
    ensures r == "all" <==> !Contains(path, "/mentees") && !Contains(path, "/mentors")
                            && !Contains(path, "/fellows") && !Contains(path, "/counselors")
  {
    if Contains(path, "/mentees") then "mentee"
    else if Contains(path, "/mentors") then "mentor"
    else if Contains(path, "/fellows") then "fellow"
    else if Contains(path, "/counselors") then "counselor"
    else "all"
  }

  /** Where a tab click navigates: '/participants' for 'all', '/participants/{role}s' otherwise. */
  function TabPath(r: string): string {
    if r == "all" then "/participants" else "/participants/" + r + "s"
  }

  /** The only '/' of "/participants" is its first character. */
  lemma BaseSlashes()
    ensures forall i :: 0 < i < 13 ==> "/participants"[i] != '/'
  {
  }

  /** A '/'-led pattern that does not continue with 'p' never occurs in '/participants'. */
  lemma BaseLacks(t: string)
    requires |t| >= 2 && t[0] == '/' && t[1] != 'p'
    ensures !Contains("/participants", t)
  {
    BaseSlashes();
    var base := "/participants";
    ContainsAt(base, t);
    forall i | 0 <= i <= |base| - |t| ensures !OccursAt(base, t, i) {
      NoOccurrence(base, t, i);
    }
  }

  /** An occurrence of `t` at `i` starts with `t`'s first two characters. */
  lemma NoOccurrence(s: string, t: string, i: int)
    requires |t| >= 2 && 0 <= i <= |s| - |t|
    requires s[i] != t[0] || s[i + 1] != t[1]
    ensures !OccursAt(s, t, i)
  {
    assert s[i..i + |t|][0] == s[i] && s[i..i + |t|][1] == s[i + 1];
  }

  /** A '/'-led pattern that does not continue with 'p' occurs in '/participants/' + w only as a
      prefix of '/' + w, when w holds no '/'. */
  lemma TabPathContains(w: string, t: string)
    requires '/' !in w && |t| >= 2 && t[0] == '/' && t[1] != 'p'
    ensures Contains("/participants/" + w, t) <==> IsPrefix(t, "/" + w)
  {
    BaseSlashes();
    var s := "/participants/" + w;
    assert forall i :: 0 <= i < 13 ==> s[i] == "/participants"[i];
    assert forall i :: 14 <= i < |s| ==> s[i] == w[i - 14];
    ContainsAt(s, t);
    forall i | 0 <= i <= |s| - |t| && i != 13 ensures !OccursAt(s, t, i) {
      NoOccurrence(s, t, i);
    }
    var u := "/" + w;
    assert s[13..] == u;
    if IsPrefix(t, u) {
      assert s[13..13 + |t|] == u[..|t|];
      assert OccursAt(s, t, 13);
    }
    if OccursAt(s, t, 13) {
      assert u[..|t|] == s[13..13 + |t|];
    }
  }

  lemma NotPrefixAt(t: string, u: string, k: nat)
    requires k < |t| && k < |u| && t[k] != u[k]
    ensures !IsPrefix(t, u)
  {
  }

  /** The role a tab's path leads back to, for the tab `r` with link segment `w`. */
  lemma TabSegment(r: string, w: string)
    requires r in TabRoles - {"all"} && w == r + "s"
    ensures TabPath(r) == "/participants/" + w && '/' !in w
    ensures var u := "/" + w;
      && (r == "mentee" <==> IsPrefix("/mentees", u))
      && (r == "mentor" <==> IsPrefix("/mentors", u))
      && (r == "fellow" <==> IsPrefix("/fellows", u))
      && (r == "counselor" <==> IsPrefix("/counselors", u))
  {
    if r == "mentee" {
      MenteesSegment();
    } else if r == "mentor" {
      MentorsSegment();
    } else if r == "fellow" {
      FellowsSegment();
    } else {
      CounselorsSegment();
    }
  }

  lemma MenteesSegment()
    ensures var u := "/" + ("mentee" + "s");
      IsPrefix("/mentees", u) && !IsPrefix("/mentors", u) && !IsPrefix("/fellows", u) && !IsPrefix("/counselors", u)
  {
    var u := "/" + ("mentee" + "s");
    assert u == "/mentees";
    NotPrefixAt("/mentors", u, 5);
    NotPrefixAt("/fellows", u, 1);
    NotPrefixAt("/counselors", u, 1);
  }

  lemma MentorsSegment()
    ensures var u := "/" + ("mentor" + "s");
      !IsPrefix("/mentees", u) && IsPrefix("/mentors", u) && !IsPrefix("/fellows", u) && !IsPrefix("/counselors", u)
  {
    var u := "/" + ("mentor" + "s");
    assert u == "/mentors";
    NotPrefixAt("/mentees", u, 5);
    NotPrefixAt("/fellows", u, 1);
    NotPrefixAt("/counselors", u, 1);
  }

  lemma FellowsSegment()
    ensures var u := "/" + ("fellow" + "s");
      !IsPrefix("/mentees", u) && !IsPrefix("/mentors", u) && IsPrefix("/fellows", u) && !IsPrefix("/counselors", u)
  {
    var u := "/" + ("fellow" + "s");
    assert u == "/fellows";
    NotPrefixAt("/mentees", u, 1);
    NotPrefixAt("/mentors", u, 1);
    NotPrefixAt("/counselors", u, 1);
  }

  lemma CounselorsSegment()
    ensures var u := "/" + ("counselor" + "s");
      !IsPrefix("/mentees", u) && !IsPrefix("/mentors", u) && !IsPrefix("/fellows", u) && IsPrefix("/counselors", u)
  {
    var u := "/" + ("counselor" + "s");
    assert u == "/counselors";
    NotPrefixAt("/mentees", u, 1);
    NotPrefixAt("/mentors", u, 1);
    NotPrefixAt("/fellows", u, 1);
  }

  /** The 'all' tab's link holds none of the four role segments. */
  lemma AllTabRoundTrip()
    ensures RoleFromPath(TabPath("all")) == "all"
  {
    BaseLacksRole("/mentees");
    BaseLacksRole("/mentors");
    BaseLacksRole("/fellows");
    BaseLacksRole("/counselors");
  }

  lemma BaseLacksRole(t: string)
    requires t in {"/mentees", "/mentors", "/fellows", "/counselors"}
    ensures !Contains("/participants", t)
  {
    BaseLacks(t);
  }

  /** A role tab's link holds its own segment and, before it in the effect's order, no other. */
  lemma RoleTabRoundTrip(r: string)
    requires r in TabRoles - {"all"}
    ensures RoleFromPath(TabPath(r)) == r
  {
    var w := r + "s";
    TabSegment(r, w);
    TabPathContains(w, "/mentees");
    TabPathContains(w, "/mentors");
    TabPathContains(w, "/fellows");
    TabPathContains(w, "/counselors");
  }

  /** Following a tab's link brings the path effect back to the same tab. */
  lemma TabPathRoundTrip(r: string)
    requires r in TabRoles
    ensures RoleFromPath(TabPath(r)) == r
  {
    if r == "all" {
      AllTabRoundTrip();
    } else {
      RoleTabRoundTrip(r);
    }
  }

  /** `{q: '', role, sort: 'name'}`, the older page's filters after a tab click. */
  function TabFilters(r: string): Filters {
    NoFilters.(q := Some(""), role := Some(r), sort := Some("name"))
  }

  /** The starting filters of both pages. */
  const InitialFilters: Filters := NoFilters.(role := Some("all"), sort := Some("name"))

  /**
   * One directory page. `resetsOnTab` tells the two pages apart: the page under `src/` starts
   * over on a tab click, the one under `next-app/` keeps every other filter. `pathname` is the
   * router's location, which the page's `navigate` calls set.
   */
  class DirectoryPage {
    const resetsOnTab: bool
    var filters: Filters
    var pathname: string

    constructor(resetsOnTab: bool, pathname: string)
      ensures this.resetsOnTab == resetsOnTab && this.pathname == pathname
      ensures filters == InitialFilters
    {
      this.resetsOnTab := resetsOnTab;
      this.pathname := pathname;
      filters := InitialFilters;
    }

    /** The effect on `location.pathname`: only the role changes. */
    method OnPathChange(path: string)
      modifies this
      ensures pathname == path
      ensures filters == UpdateFilter(old(filters), SetRole(Some(RoleFromPath(path))))
      ensures forall k :: k != RoleKey ==> SameAt(old(filters), filters, k)
    {
      pathname := path;
      filters := UpdateFilter(filters, SetRole(Some(RoleFromPath(path))));
    }

    /** `handleTabChange(role)`: new filters, then navigation to the tab's path. */
    method TabChange(r: string)
      modifies this
      ensures resetsOnTab ==> filters == TabFilters(r)
      ensures !resetsOnTab ==> filters == UpdateFilter(old(filters), SetRole(Some(r)))
      ensures pathname == TabPath(r)
    {
      if resetsOnTab {
        filters := TabFilters(r);
      } else {
        filters := UpdateFilter(filters, SetRole(Some(r)));
      }
      pathname := TabPath(r);
    }

    /** The sidebar's `onFiltersChange`, which is `setFilters` itself. */
    method SetFilters(g: Filters)
      modifies this
      ensures filters == g && pathname == old(pathname)
    {
      filters := g;
    }

    /** The older page's own `updateFilter`, used by the search badge's remove button. */
    method UpdateFilterOnPage(u: FilterUpdate)
      modifies this
      ensures filters == UpdateFilter(old(filters), u) && pathname == old(pathname)
    {
      filters := UpdateFilter(filters, u);
    }

    /** The older page's own `toggleArrayFilter`, used by the list badges' remove buttons. */
    method ToggleArrayFilterOnPage(key: ListKey, v: string)
      modifies this
      ensures filters == ToggleArrayFilter(old(filters), key, v) && pathname == old(pathname)
    {
      filters := ToggleArrayFilter(filters, key, v);
    }
  }

  /** A tab click followed by the path effect it triggers leaves the clicked tab selected, on
      either page. */
  lemma TabClickSettles(f: Filters, r: string, resetsOnTab: bool)
    requires r in TabRoles
    ensures var g := if resetsOnTab then TabFilters(r) else UpdateFilter(f, SetRole(Some(r)));
            UpdateFilter(g, SetRole(Some(RoleFromPath(TabPath(r))))) == g
  {
    TabPathRoundTrip(r);
  }

  /** On the newer page a tab click keeps the availability filter, which then still counts as
      active while it no longer narrows anything once the tab is not 'mentor'. */
  lemma StaleAvailabilityAfterTab(f: Filters, r: string, p: Participant)
    requires f.availability.Some? && r != "mentor"
    ensures var g := UpdateFilter(f, SetRole(Some(r)));
            ActiveCount(g) >= 1 && (Matches(p, g) <==> Matches(p, g.(availability := None)))
  {
    AvailabilityOnlyForMentors(p, UpdateFilter(f, SetRole(Some(r))));
  }

  // ---- counts and labels ----

  /** The older page's `getActiveFilterCount`: as the sidebar's, but a search counts only when
      it is not blank once trimmed. */
  function PageActiveCount(f: Filters): (n: nat)
    ensures n <= ActiveCount(f)
    ensures n + (if Filled(f.q) && Trim(f.q.value) == "" then 1 else 0) == ActiveCount(f)
  {
    (if Filled(f.q) && Trim(f.q.value) != "" then 1 else 0)
    + (if |Items(f.industries)| > 0 then 1 else 0)
    + (if |Items(f.expertises)| > 0 then 1 else 0)
    + (if Filled(f.location) then 1 else 0)
    + (if f.availability.Some? then 1 else 0)
  }

  /** A blank search shows in the sidebar's badge but not in the page's count. */
  lemma BlankSearchCountsDiffer()
    ensures var f := NoFilters.(q := Some(" "));
            ActiveCount(f) == 1 && PageActiveCount(f) == 0
  {
    assert Trim(" ") == "" by {
      assert " "[1..] == "";
    }
  }

  /** `MOCK_PARTICIPANTS.filter(p => p.role === role).length` */
  function RoleCount(xs: seq<Participant>, r: Role): (n: nat)
    ensures n <= |xs|
  {
    if xs == [] then 0 else (if xs[0].role == r then 1 else 0) + RoleCount(xs[1..], r)
  }

  /** The four role tabs' counts add up to the 'All' tab's count. */
  lemma {:induction false} RoleCountsSum(xs: seq<Participant>)
    ensures RoleCount(xs, Mentee) + RoleCount(xs, Mentor) + RoleCount(xs, Fellow) + RoleCount(xs, Counselor) == |xs|
  {
    if xs != [] {
      RoleCountsSum(xs[1..]);
    }
  }

  /** On the older page the count on a role tab is the number of cards the tab then lists. */
  lemma {:induction false} RoleCountIsTabSize(xs: seq<Participant>, r: Role)
    ensures |Filtered(xs, TabFilters(RoleName(r)))| == RoleCount(xs, r)
  {
    if xs != [] {
      RoleCountIsTabSize(xs[1..], r);
      var f := TabFilters(RoleName(r));
      if xs[0].role == r {
        forall s ensures Passes(xs[0], f, s) {
        }
      } else {
        assert RoleName(xs[0].role) != RoleName(r);
        assert !Passes(xs[0], f, RoleStage);
      }
    }
  }

  /** The older page's heading: 'All Participants', else the role capitalised with an 's'. A
      missing role gives `undefined + undefined + 's'`, which is "NaNs". */
  function SrcHeading(role: Option<string>): string {
    if role == Some("all") then "All Participants"
    else if role.Some? then Capitalized(role.value) + "s"
    else "NaNs"
  }

  /** The newer page's heading: a fixed label per tab, 'Counselors' for anything else. */
  function NextHeading(role: Option<string>): string {
    if role == Some("all") then "All Participants"
    else if role == Some("mentee") then "Mentees"
    else if role == Some("mentor") then "Mentors"
    else if role == Some("fellow") then "Fellows"
    else "Counselors"
  }

  /** On the five tabs the two headings agree. */
  lemma HeadingsAgreeOnTabs(r: string)
    requires r in TabRoles
    ensures SrcHeading(Some(r)) == NextHeading(Some(r))
  {
    if r == "mentee" {
      assert Capitalized("mentee") == "Mentee";
    } else if r == "mentor" {
      assert Capitalized("mentor") == "Mentor";
    } else if r == "fellow" {
      assert Capitalized("fellow") == "Fellow";
    } else if r == "counselor" {
      assert Capitalized("counselor") == "Counselor";
    }
  }

  /** `n > 0 && n >= 12`: the "Showing n of N participants" note of the newer page. */
  predicate ShowsCountNote(n: nat) {
    n > 0 && n >= 12
  }

  lemma CountNoteThreshold(n: nat)
    ensures ShowsCountNote(n) <==> n >= 12
  {
  }
}
