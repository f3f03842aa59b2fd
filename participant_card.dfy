/**
 * What a participant's card in the directory shows: the avatar initials, the role badge, the
 * title line, the location, the capped industry and expertise badges, the availability line
 * for mentors and the contact links.
 */
module ParticipantCard {
  import opened Wrappers
  import opened Text
  import opened Participants
  import Summary

  /** `s.charAt(0)`: the first character, or "" for the empty string. */
  function FirstChar(s: string): (r: string)
    ensures |r| <= 1 && (s != "" <==> |r| == 1)
    ensures s != "" ==> r[0] == s[0]
  {
    if s == "" then "" else [s[0]]
  }

  /** `getInitials`: the first characters of the two names, upper-cased. */
  function Initials(firstName: string, lastName: string): (r: string)
    ensures |r| == |FirstChar(firstName)| + |FirstChar(lastName)| && |r| <= 2
    ensures firstName != "" ==> r[0] == UpperChar(firstName[0])
    ensures lastName != "" ==> r[|r| - 1] == UpperChar(lastName[0])
  {
    Upper(FirstChar(firstName) + FirstChar(lastName))
  }

  datatype Variant = Default | Secondary | Outline

  /** `getRoleBadgeVariant` */
  function BadgeVariant(role: Role): (v: Variant)
    ensures v == Default <==> role == Mentor
    ensures v == Secondary <==> role == Mentee
  {
    match role
    case Mentor => Default
    case Mentee => Secondary
    case Fellow => Outline
    case Counselor => Outline
  }

  /** `getRoleDisplay`: the role's name with its first letter upper-cased. */
  function RoleDisplay(role: Role): (r: string)
    ensures |r| == |RoleName(role)| && r[1..] == RoleName(role)[1..]
    ensures r[0] == UpperChar(RoleName(role)[0])
  {
    Capitalized(RoleName(role))
  }

  /** The badge of each role is spelt as the older directory page spells that role's tab,
      without the plural 's'. */
  lemma RoleDisplayNamesTab(role: Role)
    ensures RoleDisplay(role) == match role
      case Mentee => "Mentee" case Mentor => "Mentor" case Fellow => "Fellow" case Counselor => "Counselor"
  {
  }

  /** `participant.availability ? 'Available for mentoring' : 'Currently unavailable'` */
  function AvailabilityLabel(available: bool): string {
    if available then "Available for mentoring" else "Currently unavailable"
  }

  /** The card's content, each part `None` when the card leaves it out. */
  datatype CardView = CardView(
    initials: string, name: string, titleLine: Option<string>, variant: Variant, roleBadge: string,
    location: Option<string>, bio: Option<string>,
    industries: Option<Summary.BadgeRow>, expertises: Option<Summary.BadgeRow>,
    availability: Option<string>, mailLink: Option<string>, websiteLink: Option<string>,
    profileLink: string)

  /** `{title} at {company}`, shown only when both are truthy. */
  function TitleLine(p: Participant): (r: Option<string>)
    ensures r.Some? <==> Filled(p.title) && Filled(p.company)
  {
    if Filled(p.title) && Filled(p.company) then Some(p.title.value + " at " + p.company.value) else None
  }

  /** A list's badge row with the cap, or nothing when the list is empty. */
  function BadgeSection(items: seq<string>, limit: nat): (r: Option<Summary.BadgeRow>)
    ensures r.Some? <==> |items| > 0
    ensures r.Some? ==> |r.value.shown| == (if |items| > limit then limit else |items|)
    ensures r.Some? ==> r.value.shown == items[..|r.value.shown|]
    ensures r.Some? ==> (r.value.more.Some? <==> |items| > limit)
    ensures r.Some? && r.value.more.Some? ==> r.value.more.value == |items| - limit
  {
    if |items| > 0 then Some(Summary.Badges(items, limit)) else None
  }

  /** The card of one participant. */
  function Card(p: Participant): (v: CardView)
    ensures v.variant == BadgeVariant(p.role) && v.initials == Initials(p.firstName, p.lastName)
    ensures v.titleLine == TitleLine(p)
    ensures v.location.Some? <==> p.businessAddress.Some?
    ensures v.industries == BadgeSection(p.industries, 3)
    ensures v.expertises == BadgeSection(p.expertises, 2)
    ensures v.availability.Some? <==> p.role == Mentor && p.availability.Some?
    ensures v.availability.Some? ==> v.availability.value == AvailabilityLabel(p.availability.value)
    ensures v.mailLink.Some? <==> p.showEmail
    ensures v.websiteLink.Some? <==> Filled(p.website)
  {
    CardView(
      Initials(p.firstName, p.lastName),
      p.firstName + " " + p.lastName,
      TitleLine(p),
      BadgeVariant(p.role),
      RoleDisplay(p.role),
      if p.businessAddress.Some? then Some(p.businessAddress.value.city + ", " + p.businessAddress.value.state) else None,
      if Filled(p.bio) then p.bio else None,
      BadgeSection(p.industries, 3),
      BadgeSection(p.expertises, 2),
      if p.role == Mentor && p.availability.Some? then Some(AvailabilityLabel(p.availability.value)) else None,
      if p.showEmail then Some("mailto:" + p.email) else None,
      if Filled(p.website) then p.website else None,
      "/participant/" + p.slug)
  }

  /** Every card the mentor tab lists with the availability filter set shows the availability
      the filter asked for. */
  lemma AvailabilityLineMatchesFilter(p: Participant, f: Filters)
    requires Matches(p, f) && Applies(f, AvailabilityStage)
    ensures Card(p).availability == Some(AvailabilityLabel(f.availability.value))
  {
    assert Passes(p, f, RoleStage) && Passes(p, f, AvailabilityStage);
  }
}
