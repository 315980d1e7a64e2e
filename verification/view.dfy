/** What the listing renders for a controller state: the error view, or the
    record list with its Load More button and initial-loading indicator. */
module View {
  import opened Wrappers
  import opened Applications

  /** The error view is shown when `error` is truthy: set and non-empty (an
      `Error` thrown with an empty message is stored but not shown). */
  predicate ShowsError(s: State) {
    s.error.Some? && s.error.value != ""
  }

  /** Record `i` takes the entrance animation: it is among the last
      `newlyLoadedCount` records. */
  predicate IsNewlyLoaded(s: State, i: int) {
    s.newlyLoadedCount > 0 && i >= |s.applications| - s.newlyLoadedCount
  }

  datatype Row = Row(application: Application, newlyLoaded: bool)

  datatype Screen =
    | ErrorScreen(message: string)
    | ListScreen(rows: seq<Row>, loadMore: bool, initialLoading: bool)

  /** The rendered screen. The error view replaces both the list and the
      Load More button; otherwise every record is rendered in list order,
      Load More appears only when another page is known and nothing is
      loading, and the initial-loading indicator only while loading into an
      empty list. */
  function Render(s: State): (v: Screen)
    ensures v.ErrorScreen? <==> ShowsError(s)
    ensures v.ErrorScreen? ==> v.message == s.error.value
    ensures v.ListScreen? ==>
      && |v.rows| == |s.applications|
      && (forall i :: 0 <= i < |v.rows| ==> v.rows[i].application == s.applications[i])
      && (v.loadMore <==> s.pagination.hasMore && !s.loading)
      && (v.initialLoading <==> s.loading && |s.applications| == 0)
    ensures v.ListScreen? ==>
      forall i :: 0 <= i < |v.rows| ==>
        (v.rows[i].newlyLoaded <==> i >= |s.applications| - s.newlyLoadedCount && s.newlyLoadedCount > 0)
  {
    if ShowsError(s) then ErrorScreen(s.error.value)
    else
      var rows := seq(|s.applications|, i requires 0 <= i < |s.applications| =>
        Row(s.applications[i], IsNewlyLoaded(s, i)));
      ListScreen(rows, s.pagination.hasMore && !s.loading, s.loading && |s.applications| == 0)
  }

  /** The flagged rows form a suffix of the list. */
  lemma FlaggedRowsAreSuffix(s: State, i: int, j: int)
    requires Render(s).ListScreen?
    requires 0 <= i <= j < |s.applications|
    requires Render(s).rows[i].newlyLoaded
    ensures Render(s).rows[j].newlyLoaded
  {
  }

  /** After an appended page arrives, the rows flagged as newly loaded are
      exactly the page's records, and the earlier records are shown unflagged
      in front of them. */
  lemma AppendFlagsExactlyNewPage(s: State, records: seq<Application>, link: Option<string>)
    requires Valid(s) && s.pending.Some? && s.pending.value.append
    ensures Render(Complete(s, Ok(records, link))).ListScreen?
    ensures var v := Render(Complete(s, Ok(records, link)));
      && |v.rows| == |s.applications| + |records|
      && (forall i :: 0 <= i < |v.rows| ==>
            (v.rows[i].newlyLoaded <==> i >= |s.applications|))
      && (forall i :: 0 <= i < |s.applications| ==> v.rows[i].application == s.applications[i])
      && (forall i :: 0 <= i < |records| ==> v.rows[|s.applications| + i].application == records[i])
  {
    var t := Complete(s, Ok(records, link));
    var v := Render(t);
    forall i | 0 <= i < |records|
      ensures v.rows[|s.applications| + i].application == records[i]
    {
      assert t.applications[|s.applications|..][i] == records[i];
    }
    forall i | 0 <= i < |s.applications|
      ensures v.rows[i].application == s.applications[i]
    {
      assert t.applications[..|s.applications|][i] == s.applications[i];
    }
  }

  /** A failed request shows the error view with its message (unless the
      thrown `Error` had an empty message), while the records already loaded
      and the pagination are kept underneath. */
  lemma FailureShowsErrorView(s: State, outcome: Outcome)
    requires s.pending.Some? && !outcome.Ok?
    requires outcome != Thrown(Some(""))
    ensures Render(Complete(s, outcome)).ErrorScreen?
    ensures Complete(s, outcome).applications == s.applications
    ensures Complete(s, outcome).pagination == s.pagination
  {
  }

  /** An `Error` thrown with an empty message is stored, but the error view
      does not appear: the list stays on screen with its Load More button
      when a further page is known. */
  lemma EmptyErrorMessageKeepsList(s: State)
    requires Valid(s) && s.pending.Some?
    ensures Render(Complete(s, Thrown(Some("")))).ListScreen?
    ensures Render(Complete(s, Thrown(Some("")))).loadMore == s.pagination.hasMore
  {
  }

  /** Pressing Try Again leaves the error view for the initial-loading
      indicator, with no records and no Load More button. */
  lemma RetryShowsInitialLoading(s: State, endpoint: string)
    requires endpoint != ""
    ensures Render(Retry(s, endpoint).state) == ListScreen([], false, true)
  {
  }

  /** Once the entrance animation ends no row is flagged, and nothing else
      on screen changes. */
  lemma AnimationEndClearsFlags(s: State)
    ensures Render(AnimationDone(s)).ListScreen? <==> Render(s).ListScreen?
    ensures Render(AnimationDone(s)).ListScreen? ==>
      && (forall i :: 0 <= i < |Render(AnimationDone(s)).rows| ==> !Render(AnimationDone(s)).rows[i].newlyLoaded)
      && Render(AnimationDone(s)).loadMore == Render(s).loadMore
      && Render(AnimationDone(s)).initialLoading == Render(s).initialLoading
      && |Render(AnimationDone(s)).rows| == |Render(s).rows|
      && (forall i :: 0 <= i < |Render(s).rows| ==>
            Render(AnimationDone(s)).rows[i].application == Render(s).rows[i].application)
    ensures Render(s).ErrorScreen? ==> Render(AnimationDone(s)) == Render(s)
  {
  }
}
