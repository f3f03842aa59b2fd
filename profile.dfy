/**
 * The profile page: the effect that looks the participant up by the route's id, the record it
 * builds for display, whether the visitor owns the profile, and the avatar fallback.
 */
module Profile {
  import opened Wrappers
  import opened Text
  import opened Participants
  import ParticipantCard

  /** `MOCK_PARTICIPANTS.find(p => p.id === id)` */
  function Find(xs: seq<Participant>, id: string): (r: Option<Participant>)
    ensures r.None? <==> forall p :: p in xs ==> p.id != id
    ensures r.Some? ==> r.value in xs && r.value.id == id
  {
    if xs == [] then None
    else if xs[0].id == id then Some(xs[0])
    else Find(xs[1..], id)
  }

  /** The participant found is the first one with that id. */
  lemma {:induction false} FindIsFirst(xs: seq<Participant>, id: string)
    requires Find(xs, id).Some?
    ensures exists i :: 0 <= i < |xs| && xs[i] == Find(xs, id).value
                        && forall j :: 0 <= j < i ==> xs[j].id != id
  {
    if xs[0].id == id {
      assert xs[0] == Find(xs, id).value;
    } else {
      FindIsFirst(xs[1..], id);
      var i :| 0 <= i < |xs[1..]| && xs[1..][i] == Find(xs[1..], id).value
               && forall j :: 0 <= j < i ==> xs[1..][j].id != id;
      assert xs[i + 1] == Find(xs, id).value;
      forall j | 0 <= j < i + 1 ensures xs[j].id != id {
        if j > 0 {
          assert xs[j] == xs[1..][j - 1];
        }
      }
    }
  }

  /** `TransformedParticipant`. */
  datatype Shown = Shown(
    id: string, name: string, title: Option<string>, company: Option<string>, role: string,
    industry: seq<string>, location: string, yearsInBusiness: int, bio: Option<string>,
    avatar: Option<string>, contact: Contact)

  const NoLocation: string := "Location not specified"

  /** `city, state` never reads as the placeholder, which holds no comma. */
  lemma PlaceholderHasNoComma(city: string, state: string)
    ensures city + ", " + state != NoLocation
  {
    var s := city + ", " + state;
    assert s[|city|] == ',';
    assert forall i :: 0 <= i < |NoLocation| ==> NoLocation[i] != ',';
  }

  /** `location`: the business address's city and state, or the placeholder. */
  function Location(address: Option<Address>): (r: string)
    ensures r == NoLocation <==> address.None?
    ensures address.Some? ==> r == address.value.city + ", " + address.value.state
  {
    if address.Some? then
      PlaceholderHasNoComma(address.value.city, address.value.state);
      address.value.city + ", " + address.value.state
    else NoLocation
  }

  /** `${firstName} ${lastName}` */
  function FullName(p: Participant): (r: string)
    ensures |r| == |p.firstName| + 1 + |p.lastName|
    ensures r[..|p.firstName|] == p.firstName && r[|p.firstName|] == ' ' && r[|p.firstName| + 1..] == p.lastName
  {
    p.firstName + " " + p.lastName
  }

  /** The record the page displays; `currentYear` stands in for `new Date().getFullYear()`. */
  function Transform(p: Participant, currentYear: int): (t: Shown)
    ensures t.id == p.id && t.name == FullName(p) && t.role == RoleName(p.role)
    ensures t.title == p.title && t.company == p.company && t.bio == p.bio && t.avatar == p.headshotUrl
    ensures t.industry == p.industries && t.contact == p.contact
    ensures t.location == Location(p.businessAddress)
    ensures t.yearsInBusiness == currentYear - 2000
  {
    Shown(p.id, FullName(p), p.title, p.company, RoleName(p.role), p.industries,
          Location(p.businessAddress), currentYear - 2000, p.bio, p.headshotUrl, p.contact)
  }

  /** The first characters of the words, an empty word adding nothing (`n[0]` is undefined and
      `join` writes it as ""). */
  function Heads(words: seq<string>): (r: string)
    ensures |r| <= |words|
  {
    if words == [] then "" else ParticipantCard.FirstChar(words[0]) + Heads(words[1..])
  }

  /** `name.split(' ').map(n => n[0]).join('')` */
  function AvatarInitials(name: string): string {
    Heads(SplitOn(name, ' '))
  }

  /** For names without spaces the profile's avatar shows the card's initials, except that the
      profile does not upper-case them. */
  lemma AvatarMatchesCard(p: Participant)
    requires ' ' !in p.firstName && ' ' !in p.lastName
    ensures AvatarInitials(FullName(p)) == ParticipantCard.FirstChar(p.firstName) + ParticipantCard.FirstChar(p.lastName)
    ensures Upper(AvatarInitials(FullName(p))) == ParticipantCard.Initials(p.firstName, p.lastName)
  {
    SplitOnCons(p.firstName, ' ', p.lastName);
    SplitOnFree(p.lastName, ' ');
    assert FullName(p) == p.firstName + [' '] + p.lastName;
    var words := [p.firstName] + [p.lastName];
    assert SplitOn(FullName(p), ' ') == words;
    assert words[1..] == [p.lastName] && words[1..][1..] == [];
    assert Heads(words[1..]) == ParticipantCard.FirstChar(p.lastName) + Heads([]);
  }

  /** The page's state: the participant shown (or none) and whether it is the visitor's own. */
  class ProfilePage {
    var participant: Option<Shown>
    var isOwnProfile: bool

    constructor()
      ensures participant == None && !isOwnProfile
    {
      participant := None;
      isOwnProfile := false;
    }

    /** The page shows "Profile Not Found" while no participant is held. */
    predicate NotFound()
      reads this
    {
      participant.None?
    }

    /** The "Edit Profile" button. */
    predicate ShowsEdit()
      reads this
    {
      participant.Some? && isOwnProfile
    }

    /** The effect on `[id, user]`: a found participant is shown and ownership is recomputed; when
        none is found only the participant is cleared. `userId` is `user?.id`. */
    method Load(participants: seq<Participant>, id: string, userId: Option<string>, currentYear: int)
      modifies this
      ensures Find(participants, id).Some? ==>
                participant == Some(Transform(Find(participants, id).value, currentYear))
                && isOwnProfile == (userId == Some(id))
      ensures Find(participants, id).None? ==> participant == None && isOwnProfile == old(isOwnProfile)
      ensures NotFound() <==> forall p :: p in participants ==> p.id != id
      ensures ShowsEdit() ==> userId == Some(id) && participant.value.id == id
    {
      var found := Find(participants, id);
      if found.Some? {
        participant := Some(Transform(found.value, currentYear));
        isOwnProfile := userId == Some(id);
      } else {
        participant := None;
      }
    }
  }
}
