/**
 * The `participant` Redux slice: the listed participants, the filters, paging and loading state,
 * and the mentor record fetched by `fetchMentorData`.
 */
module ParticipantSlice {
  import opened Wrappers
  import opened Json
  import opened Participants

  /** `ParticipantState`; the mentor record is kept as a document value, where `Null` is the
      slice's `null` and `Undefined` what `payload[0]` gives on an empty array. */
  datatype ParticipantState = ParticipantState(
    participants: seq<Participant>, filters: Filters, loading: bool, error: Option<string>,
    total: int, page: int, limit: int, hasNext: bool, hasPrev: bool, mentors: Value)

  const InitialState: ParticipantState := ParticipantState([], NoFilters, false, None, 0, 1, 10, false, false, Null)

  /** The `setPagination` payload. */
  datatype Pagination = Pagination(total: int, page: int, limit: int, hasNext: bool, hasPrev: bool)

  const FetchFailed: string := "Failed to fetch mentor data"

  /** `action.payload ? action.payload[0] : null`, with `None` for a missing payload. */
  function FetchedMentor(payload: Option<seq<Value>>): (r: Value)
    ensures r == Null <==> payload.None? || (|payload.value| > 0 && payload.value[0] == Null)
    ensures payload == Some([]) ==> r == Undefined
    ensures payload.Some? && |payload.value| > 0 ==> r == payload.value[0]
  {
    match payload
    case None => Null
    case Some(arr) => if |arr| > 0 then arr[0] else Undefined
  }

  /** `action.error.message || "Failed to fetch mentor data"` */
  function RejectionMessage(message: Option<string>): (r: string)
    ensures r != ""
    ensures message.Some? && message.value != "" ==> r == message.value
    ensures message.None? || message.value == "" ==> r == FetchFailed
  {
    if message.Some? && message.value != "" then message.value else FetchFailed
  }

  class Slice {
    var participants: seq<Participant>
    var filters: Filters
    var loading: bool
    var error: Option<string>
    var total: int
    var page: int
    var limit: int
    var hasNext: bool
    var hasPrev: bool
    var mentors: Value

    function State(): ParticipantState
      reads this
    {
      ParticipantState(participants, filters, loading, error, total, page, limit, hasNext, hasPrev, mentors)
    }

    /** `initialState`: nothing listed, page 1 of 10, no mentor record. */
    constructor()
      ensures State() == InitialState
    {
      participants := [];
      filters := NoFilters;
      loading := false;
      error := None;
      total := 0;
      page := 1;
      limit := 10;
      hasNext := false;
      hasPrev := false;
      mentors := Null;
    }

    method SetParticipants(xs: seq<Participant>)
      modifies this
      ensures State() == old(State()).(participants := xs)
    {
      participants := xs;
    }

    method SetFilters(f: Filters)
      modifies this
      ensures State() == old(State()).(filters := f)
    {
      filters := f;
    }

    method SetLoading(b: bool)
      modifies this
      ensures State() == old(State()).(loading := b)
    {
      loading := b;
    }

    method SetError(e: Option<string>)
      modifies this
      ensures State() == old(State()).(error := e)
    {
      error := e;
    }

    /** `setPagination`: the five paging fields are copied and nothing else changes. */
    method SetPagination(p: Pagination)
      modifies this
      ensures State() == old(State()).(total := p.total, page := p.page, limit := p.limit,
                                       hasNext := p.hasNext, hasPrev := p.hasPrev)
    {
      total := p.total;
      page := p.page;
      limit := p.limit;
      hasNext := p.hasNext;
      hasPrev := p.hasPrev;
    }

    /** `resetFilters`: the empty filter record. */
    method ResetFilters()
      modifies this
      ensures State() == old(State()).(filters := NoFilters)
    {
      filters := NoFilters;
    }

    /** `fetchMentorData.fulfilled` */
    method FetchFulfilled(payload: Option<seq<Value>>)
      modifies this
      ensures State() == old(State()).(mentors := FetchedMentor(payload))
    {
      mentors := FetchedMentor(payload);
    }

    /** `fetchMentorData.rejected`: the error message (or the fixed one) and no mentor record. */
    method FetchRejected(message: Option<string>)
      modifies this
      ensures State() == old(State()).(error := Some(RejectionMessage(message)), mentors := Null)
    {
      error := Some(RejectionMessage(message));
      mentors := Null;
    }
  }
}
