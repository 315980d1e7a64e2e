/** The paginated listing controller of src/Applications.tsx as a state
    machine. A request is issued by `Fetch` (the synchronous start of
    `fetchApplications`) and finished by `Complete` (everything after the
    awaited response); the response itself is a parameter, so no I/O appears.
    Requests are serialised: at most one is pending, and issuing a new one
    supersedes it. */
module Applications {
  import opened Wrappers
  import Env
  import Protocol

  /** One loan application record, as received; the controller never
      changes a record. */
  datatype Application = Application(
    guid: string,
    loanAmount: int,
    firstName: string,
    lastName: string,
    company: string,
    email: string,
    dateCreated: string,
    expiryDate: string)

  datatype PaginationInfo = PaginationInfo(hasMore: bool, nextPage: nat)

  /** The request awaiting its response: which page, and whether its records
      are appended to the list or replace it. */
  datatype Pending = Pending(page: nat, append: bool)

  datatype State = State(
    applications: seq<Application>,
    loading: bool,
    error: Option<string>,
    newlyLoadedCount: nat,
    pagination: PaginationInfo,
    pending: Option<Pending>)

  /** How an awaited request ends: an ok response with its records and `Link`
      header, a response whose status is not ok, or a thrown value (an
      `Error` with its message, or `None` for anything else thrown, such as
      a non-`Error` rejection). A failure to parse the body is a throw. */
  datatype Outcome =
    | Ok(records: seq<Application>, link: Option<string>)
    | NotOk
    | Thrown(message: Option<string>)

  /** The state after an event, and the URL passed to `fetch`, if any. */
  datatype Step = Step(state: State, fetched: Option<string>)

  const STARTING_PAGE: nat := 1
  const NOT_OK_MESSAGE: string := "Failed to fetch applications"
  const FALLBACK_MESSAGE: string :=
    "Failed to load applications. Please check your connection and try again."

  /** The pagination a fresh or retried listing starts from. */
  const FIRST_PAGE: PaginationInfo := PaginationInfo(true, 1)

  /** The state before the component is mounted. */
  function Initial(): State {
    State([], false, None, 0, FIRST_PAGE, None)
  }

  /** What every reachable state satisfies: `loading` marks exactly the
      window of a pending request, an error is never shown while loading,
      and pages are numbered from 1. */
  predicate Valid(s: State) {
    && s.loading == s.pending.Some?
    && (s.loading ==> s.error.None?)
    && s.pagination.nextPage >= 1
    && (s.pending.Some? ==> s.pending.value.page >= 1)
  }

  /** The message stored when a request fails: a non-ok status throws an
      `Error` with a fixed message, a thrown `Error` contributes its own
      message, anything else thrown gives a fixed fallback. */
  function FailureMessage(outcome: Outcome): string
    requires !outcome.Ok?
  {
    match outcome
    case NotOk => NOT_OK_MESSAGE
    case Thrown(m) => if m.Some? then m.value else FALLBACK_MESSAGE
  }

  /** Catch and finally of `fetchApplications`: records the error and ends
      the request, leaving the list and the pagination as they were. */
  function Fail(s: State, message: string): (t: State)
    ensures t.error == Some(message) && !t.loading && t.pending.None?
    ensures t.applications == s.applications && t.pagination == s.pagination
    ensures t.newlyLoadedCount == s.newlyLoadedCount
  {
    s.(error := Some(message), loading := false, pending := None)
  }

  /** Merging a fetched page into the list: appended after the existing
      records in append mode, replacing them otherwise. */
  function Merge(prev: seq<Application>, data: seq<Application>, append: bool): (merged: seq<Application>)
    ensures append ==>
      && |merged| == |prev| + |data|
      && merged[..|prev|] == prev
      && merged[|prev|..] == data
    ensures !append ==> merged == data
  {
    if append then prev + data else data
  }

  /** `fetchApplications(page, append)` up to the awaited `fetch`: sets
      `loading`, clears the error and requests the page. The endpoint lookup
      happens inside the `try`, so an unconfigured endpoint ends the request
      at once with its error. */
  function Fetch(s: State, endpoint: string, page: nat, append: bool): (t: Step)
    ensures t.state.applications == s.applications
    ensures t.state.pagination == s.pagination
    ensures t.state.newlyLoadedCount == s.newlyLoadedCount
    ensures endpoint != "" ==>
      && t.state.loading && t.state.error.None?
      && t.state.pending == Some(Pending(page, append))
      && t.fetched == Some(Protocol.RequestUrl(endpoint, page))
    ensures endpoint == "" ==>
      && !t.state.loading && t.state.pending.None? && t.fetched.None?
      && t.state.error == Some(Env.MISSING_ENDPOINT_MESSAGE)
  {
    var issuing := s.(loading := true, error := None);
    match Env.GetApiEndpoint(endpoint)
    case Success(e) =>
      Step(issuing.(pending := Some(Pending(page, append))), Some(Protocol.RequestUrl(e, page)))
    case Failure(message) =>
      Step(Fail(issuing, message), None)
  }

  /** The rest of `fetchApplications` once the pending request ends. On an
      ok response the page is merged, `newlyLoadedCount` counts the appended
      records (0 when replacing) and the cursor moves past the requested
      page; on a failure only the error changes. `loading` is cleared either
      way. With no request pending nothing happens. */
  function Complete(s: State, outcome: Outcome): (t: State)
    ensures s.pending.None? ==> t == s
    ensures s.pending.Some? ==> !t.loading && t.pending.None?
    ensures s.pending.Some? && outcome.Ok? ==>
      && t.error == s.error
      && t.pagination.hasMore == Protocol.HasNextPage(outcome.link)
      && t.pagination.nextPage == s.pending.value.page + 1
    ensures s.pending.Some? && outcome.Ok? && s.pending.value.append ==>
      && |t.applications| == |s.applications| + |outcome.records|
      && t.applications[..|s.applications|] == s.applications
      && t.applications[|s.applications|..] == outcome.records
      && t.newlyLoadedCount == |outcome.records|
    ensures s.pending.Some? && outcome.Ok? && !s.pending.value.append ==>
      t.applications == outcome.records && t.newlyLoadedCount == 0
    ensures s.pending.Some? && !outcome.Ok? ==>
      && t.applications == s.applications
      && t.pagination == s.pagination
      && t.newlyLoadedCount == s.newlyLoadedCount
    ensures s.pending.Some? && outcome.NotOk? ==> t.error == Some(NOT_OK_MESSAGE)
    ensures s.pending.Some? && outcome.Thrown? && outcome.message.Some? ==> t.error == outcome.message
    ensures s.pending.Some? && outcome == Thrown(None) ==> t.error == Some(FALLBACK_MESSAGE)
  {
    match s.pending
    case None => s
    case Some(Pending(page, append)) =>
      match outcome
      case Ok(data, link) =>
        s.(applications := Merge(s.applications, data, append),
           newlyLoadedCount := if append then |data| else 0,
           pagination := PaginationInfo(Protocol.HasNextPage(link), page + 1),
           loading := false,
           pending := None)
      case _ => Fail(s, FailureMessage(outcome))
  }

  /** The mount effect: requests the starting page in replace mode, once. */
  function Mount(endpoint: string): (t: Step)
    ensures endpoint != "" ==>
      && t.fetched == Some(Protocol.RequestUrl(endpoint, 1))
      && t.state == State([], true, None, 0, PaginationInfo(true, 1), Some(Pending(1, false)))
  {
    Fetch(Initial(), endpoint, STARTING_PAGE, false)
  }

  /** `loadMore`: ignored while a request is loading or when no further page
      is known; otherwise requests the next page in append mode. */
  function LoadMore(s: State, endpoint: string): (t: Step)
    ensures s.loading || !s.pagination.hasMore ==> t == Step(s, None)
    ensures !s.loading && s.pagination.hasMore && endpoint != "" ==>
      && t.fetched == Some(Protocol.RequestUrl(endpoint, s.pagination.nextPage))
      && t.state.pending == Some(Pending(s.pagination.nextPage, true))
      && t.state.loading && t.state.error.None?
      && t.state.applications == s.applications
      && t.state.pagination == s.pagination
    ensures t.state.newlyLoadedCount == s.newlyLoadedCount
  {
    if !s.loading && s.pagination.hasMore then
      Fetch(s, endpoint, s.pagination.nextPage, true)
    else
      Step(s, None)
  }

  /** `handleRetry`: from any state, empties the list, resets the pagination
      to the first page and requests it in replace mode. The count of newly
      loaded records is left as it was. */
  function Retry(s: State, endpoint: string): (t: Step)
    ensures t.state.applications == [] && t.state.pagination == PaginationInfo(true, 1)
    ensures t.state.newlyLoadedCount == s.newlyLoadedCount
    ensures endpoint != "" ==>
      && t.state.error.None? && t.state.loading
      && t.state.pending == Some(Pending(1, false))
      && t.fetched == Some(Protocol.RequestUrl(endpoint, 1))
  {
    var reset := s.(error := None, applications := [], pagination := FIRST_PAGE);
    Fetch(reset, endpoint, STARTING_PAGE, false)
  }

  /** The end of the entrance animation of appended records, with the
      timer's delay abstracted away: clears `newlyLoadedCount` only. */
  function AnimationDone(s: State): (t: State)
    ensures t.newlyLoadedCount == 0
    ensures t.(newlyLoadedCount := s.newlyLoadedCount) == s
  {
    s.(newlyLoadedCount := 0)
  }

  /** The events the controller reacts to. */
  datatype Event =
    | Mounted
    | LoadMoreClicked
    | RetryClicked
    | Responded(outcome: Outcome)
    | AnimationEnded

  function Apply(s: State, endpoint: string, e: Event): Step {
    match e
    case Mounted => Fetch(s, endpoint, STARTING_PAGE, false)
    case LoadMoreClicked => LoadMore(s, endpoint)
    case RetryClicked => Retry(s, endpoint)
    case Responded(outcome) => Step(Complete(s, outcome), None)
    case AnimationEnded => Step(AnimationDone(s), None)
  }

  /** The state after a sequence of events, and every URL fetched on the
      way, in order. */
  datatype Trace = Trace(state: State, fetched: seq<string>)

  function Fetched(st: Step): seq<string> {
    if st.fetched.Some? then [st.fetched.value] else []
  }

  function Run(s: State, endpoint: string, events: seq<Event>): Trace {
    if |events| == 0 then Trace(s, [])
    else
      var before := Run(s, endpoint, events[..|events| - 1]);
      var st := Apply(before.state, endpoint, events[|events| - 1]);
      Trace(st.state, before.fetched + Fetched(st))
  }

  /** The initial state is a valid one, with an empty list, no error, nothing
      loading and the cursor on page 1. */
  lemma InitialState()
    ensures Valid(Initial())
    ensures Initial().applications == [] && !Initial().loading && Initial().error.None?
    ensures Initial().newlyLoadedCount == 0 && Initial().pagination == PaginationInfo(true, 1)
  {
  }

  /** Every event keeps a valid state valid. */
  lemma ApplyPreservesValid(s: State, endpoint: string, e: Event)
    requires Valid(s)
    ensures Valid(Apply(s, endpoint, e).state)
  {
  }

  /** `url` is the request URL of some page numbered from 1. */
  ghost predicate IsPageUrl(endpoint: string, url: string) {
    exists p: nat :: p >= 1 && url == Protocol.RequestUrl(endpoint, p)
  }

  /** Every sequence of events from a valid state ends in a valid state,
      and every URL it fetched is the request URL of a page numbered from 1. */
  lemma {:induction false} RunPreservesValid(s: State, endpoint: string, events: seq<Event>)
    requires Valid(s)
    ensures Valid(Run(s, endpoint, events).state)
    ensures forall i :: 0 <= i < |Run(s, endpoint, events).fetched| ==>
      IsPageUrl(endpoint, Run(s, endpoint, events).fetched[i])
  {
    if |events| > 0 {
      var before := Run(s, endpoint, events[..|events| - 1]);
      RunPreservesValid(s, endpoint, events[..|events| - 1]);
      var e := events[|events| - 1];
      ApplyPreservesValid(before.state, endpoint, e);
      var st := Apply(before.state, endpoint, e);
      if st.fetched.Some? {
        var p: nat := st.state.pending.value.page;
        assert st.fetched.value == Protocol.RequestUrl(endpoint, p);
        assert IsPageUrl(endpoint, st.fetched.value);
      }
    }
  }

  /** A non-ok status is handled exactly as a thrown `Error` carrying the
      fixed message, which is what the source does. */
  lemma NotOkIsThrownError(s: State)
    ensures Complete(s, NotOk) == Complete(s, Thrown(Some(NOT_OK_MESSAGE)))
  {
  }
}
