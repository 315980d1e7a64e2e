/** Properties of the controller over several events: consecutive Load More
    rounds accumulate the pages in request order, and a retry starts over
    from page 1. */
module Pagination {
  import opened Wrappers
  import opened Applications
  import Env
  import Protocol
  import Text
  import View

  /** One page as the endpoint answers it: its records and its `Link`
      header. */
  datatype Page = Page(records: seq<Application>, link: Option<string>)

  /** The records of `pages`, in order. */
  function Flatten(pages: seq<Page>): seq<Application> {
    if |pages| == 0 then []
    else Flatten(pages[..|pages| - 1]) + pages[|pages| - 1].records
  }

  /** Pressing Load More and receiving the next page, once per page. */
  function Rounds(pages: seq<Page>): (events: seq<Event>)
    ensures |events| == 2 * |pages|
  {
    if |pages| == 0 then []
    else
      var last := pages[|pages| - 1];
      Rounds(pages[..|pages| - 1]) + [LoadMoreClicked, Responded(Ok(last.records, last.link))]
  }

  /** Running `prefix` and then one event. */
  lemma RunSnoc(s: State, endpoint: string, prefix: seq<Event>, e: Event)
    ensures Run(s, endpoint, prefix + [e]) ==
      var before := Run(s, endpoint, prefix);
      var st := Apply(before.state, endpoint, e);
      Trace(st.state, before.fetched + Fetched(st))
  {
    assert (prefix + [e])[..|prefix|] == prefix;
  }

  /** Running `prefix` and then two more events. */
  lemma RunSnoc2(s: State, endpoint: string, prefix: seq<Event>, a: Event, b: Event)
    ensures Run(s, endpoint, prefix + [a, b]) ==
      var before := Run(s, endpoint, prefix);
      var first := Apply(before.state, endpoint, a);
      var second := Apply(first.state, endpoint, b);
      Trace(second.state, before.fetched + Fetched(first) + Fetched(second))
  {
    assert prefix + [a, b] == (prefix + [a]) + [b];
    RunSnoc(s, endpoint, prefix + [a], b);
    RunSnoc(s, endpoint, prefix, a);
  }

  /** One Load More round from an idle state with a next page: the next
      page is requested and its records are appended. The state may hold an
      error with an empty message, which leaves the list and its Load More
      button on screen; the request clears it. */
  lemma LoadMoreRound(s: State, endpoint: string, records: seq<Application>, link: Option<string>)
    requires Valid(s) && !s.loading && s.pagination.hasMore
    requires endpoint != ""
    ensures var st := LoadMore(s, endpoint);
      var t := Complete(st.state, Ok(records, link));
      && st.fetched == Some(Protocol.RequestUrl(endpoint, s.pagination.nextPage))
      && t.applications == s.applications + records
      && t.pagination == PaginationInfo(Protocol.HasNextPage(link), s.pagination.nextPage + 1)
      && t.newlyLoadedCount == |records|
      && Valid(t) && !t.loading && t.error.None?
  {
    var st := LoadMore(s, endpoint);
    var t := Complete(st.state, Ok(records, link));
    assert t.applications == t.applications[..|s.applications|] + t.applications[|s.applications|..];
  }

  /** Every page but the last announces a next page, so that a Load More
      round follows each of them. */
  predicate Chained(pages: seq<Page>) {
    |pages| <= 1 ||
      (Chained(pages[..|pages| - 1]) && Protocol.HasNextPage(pages[|pages| - 2].link))
  }

  /** `Chained` says of every page but the last that it announces a next
      page, and of no other page. */
  lemma {:induction false} ChainedMeansAllButLastAnnounce(pages: seq<Page>)
    ensures Chained(pages) <==>
      forall i :: 0 <= i < |pages| - 1 ==> Protocol.HasNextPage(pages[i].link)
  {
    if |pages| > 1 {
      var init := pages[..|pages| - 1];
      ChainedMeansAllButLastAnnounce(init);
      assert forall i :: 0 <= i < |init| ==> init[i] == pages[i];
    }
  }

  /** The request URLs of `count` consecutive pages starting at `first`. */
  function PageUrls(endpoint: string, first: nat, count: nat): (urls: seq<string>)
    ensures |urls| == count
    ensures forall i :: 0 <= i < count ==> urls[i] == Protocol.RequestUrl(endpoint, first + i)
  {
    if count == 0 then []
    else PageUrls(endpoint, first, count - 1) + [Protocol.RequestUrl(endpoint, first + count - 1)]
  }

  /** What `pages` Load More rounds from `s` lead to: the list is the records
      held before followed by every page's records in request order; pages
      nextPage, nextPage + 1, ... were requested in turn; the cursor is past
      the last page requested; and the controller is idle. After at least one
      round there is no error, and `hasMore` and the newly loaded count are
      taken from the last page. */
  ghost predicate RoundsDone(s: State, endpoint: string, pages: seq<Page>, t: Trace) {
    && t.state.applications == s.applications + Flatten(pages)
    && t.state.pagination.nextPage == s.pagination.nextPage + |pages|
    && t.fetched == PageUrls(endpoint, s.pagination.nextPage, |pages|)
    && Valid(t.state) && !t.state.loading
    && (|pages| == 0 ==> t.state == s)
    && (|pages| > 0 ==>
          && t.state.error.None?
          && t.state.pagination.hasMore == Protocol.HasNextPage(pages[|pages| - 1].link)
          && t.state.newlyLoadedCount == |pages[|pages| - 1].records|)
  }

  /** The last of several Load More rounds, from what the rounds before it
      led to. */
  lemma LastRound(s: State, endpoint: string, pages: seq<Page>)
    requires |pages| > 0 && endpoint != ""
    requires RoundsDone(s, endpoint, pages[..|pages| - 1], Run(s, endpoint, Rounds(pages[..|pages| - 1])))
    requires Run(s, endpoint, Rounds(pages[..|pages| - 1])).state.pagination.hasMore
    ensures RoundsDone(s, endpoint, pages, Run(s, endpoint, Rounds(pages)))
  {
    var init := pages[..|pages| - 1];
    var last := pages[|pages| - 1];
    var before := Run(s, endpoint, Rounds(init));
    var response := Responded(Ok(last.records, last.link));
    assert Rounds(pages) == Rounds(init) + [LoadMoreClicked, response];
    RunSnoc2(s, endpoint, Rounds(init), LoadMoreClicked, response);
    LoadMoreRound(before.state, endpoint, last.records, last.link);
    assert Flatten(pages) == Flatten(init) + last.records;
  }

  /** Consecutive Load More rounds, each followed by an ok response, do what
      `RoundsDone` describes: in particular the list ends as the records held
      before followed by every page's records in request order. Each round
      needs the previous response to have announced a next page. */
  lemma {:induction false} LoadMoreRoundsConcatenate(s: State, endpoint: string, pages: seq<Page>)
    requires Valid(s) && !s.loading && s.pagination.hasMore
    requires endpoint != ""
    requires Chained(pages)
    ensures RoundsDone(s, endpoint, pages, Run(s, endpoint, Rounds(pages)))
  {
    if |pages| > 0 {
      var init := pages[..|pages| - 1];
      LoadMoreRoundsConcatenate(s, endpoint, init);
      assert Run(s, endpoint, Rounds(init)).state.pagination.hasMore by {
        if |init| > 0 {
          assert init[|init| - 1] == pages[|pages| - 2];
        }
      }
      LastRound(s, endpoint, pages);
    }
  }

  /** After a retry, an ok response shows exactly the first page's records:
      nothing from before the retry survives, and the cursor is on page 2. */
  lemma RetryThenSuccessShowsFirstPage(s: State, endpoint: string, records: seq<Application>, link: Option<string>)
    requires endpoint != ""
    ensures var t := Complete(Retry(s, endpoint).state, Ok(records, link));
      && t.applications == records
      && t.error.None? && !t.loading && t.newlyLoadedCount == 0
      && t.pagination == PaginationInfo(Protocol.HasNextPage(link), 2)
  {
  }

  /** The retry handler, run after any number of Load More rounds, requests
      page 1 again however deep the pagination had gone: the fetches are the
      rounds' pages in order and then page 1, the list is emptied and the
      cursor reset, while the newly loaded count of the last round survives
      the retry. This is about the handler as a function of the state; the
      session in which its button is actually on screen is
      `FailedLoadMoreThenRetry`. */
  lemma RetryRestartsAtFirstPage(s: State, endpoint: string, pages: seq<Page>)
    requires Valid(s) && !s.loading && s.pagination.hasMore
    requires endpoint != ""
    requires Chained(pages)
    ensures var t := Run(s, endpoint, Rounds(pages) + [RetryClicked]);
      && t.fetched == PageUrls(endpoint, s.pagination.nextPage, |pages|) + [Protocol.RequestUrl(endpoint, 1)]
      && t.state.pending == Some(Pending(1, false))
      && t.state.applications == []
      && t.state.pagination == PaginationInfo(true, 1)
      && t.state.newlyLoadedCount ==
           (if |pages| > 0 then |pages[|pages| - 1].records| else s.newlyLoadedCount)
  {
    LoadMoreRoundsConcatenate(s, endpoint, pages);
    RunSnoc(s, endpoint, Rounds(pages), RetryClicked);
  }

  /** A Load More round whose response is not ok, after `pages` successful
      rounds: the error view comes up with the fixed message, while the
      records loaded so far and the cursor are kept underneath. */
  lemma FailedLoadMore(s: State, endpoint: string, pages: seq<Page>)
    requires Valid(s) && !s.loading && s.pagination.hasMore
    requires endpoint != ""
    requires Chained(pages)
    requires |pages| == 0 || Protocol.HasNextPage(pages[|pages| - 1].link)
    ensures var t := Run(s, endpoint, Rounds(pages) + [LoadMoreClicked, Responded(NotOk)]);
      && t.fetched == PageUrls(endpoint, s.pagination.nextPage, |pages| + 1)
      && View.Render(t.state) == View.ErrorScreen(NOT_OK_MESSAGE)
      && t.state.applications == s.applications + Flatten(pages)
      && t.state.pagination.nextPage == s.pagination.nextPage + |pages|
      && Valid(t.state) && !t.state.loading
  {
    var before := Run(s, endpoint, Rounds(pages));
    LoadMoreRoundsConcatenate(s, endpoint, pages);
    assert before.state.pagination.hasMore;
    RunSnoc2(s, endpoint, Rounds(pages), LoadMoreClicked, Responded(NotOk));
  }

  /** A session as it runs on screen: Load More rounds, then one whose
      response is not ok, which brings up the error view, then Try Again.
      The fetches are the rounds' pages, the failed page, and page 1; the
      list is emptied, the cursor reset and page 1 pending in replace mode. */
  lemma FailedLoadMoreThenRetry(s: State, endpoint: string, pages: seq<Page>)
    requires Valid(s) && !s.loading && s.pagination.hasMore
    requires endpoint != ""
    requires Chained(pages)
    requires |pages| == 0 || Protocol.HasNextPage(pages[|pages| - 1].link)
    ensures var t := Run(s, endpoint, Rounds(pages) + [LoadMoreClicked, Responded(NotOk), RetryClicked]);
      && t.fetched == PageUrls(endpoint, s.pagination.nextPage, |pages| + 1) + [Protocol.RequestUrl(endpoint, 1)]
      && t.state.pending == Some(Pending(1, false))
      && t.state.applications == []
      && t.state.pagination == PaginationInfo(true, 1)
      && t.state.error.None?
  {
    var failed := Rounds(pages) + [LoadMoreClicked, Responded(NotOk)];
    FailedLoadMore(s, endpoint, pages);
    assert failed + [RetryClicked] == Rounds(pages) + [LoadMoreClicked, Responded(NotOk), RetryClicked];
    RunSnoc(s, endpoint, failed, RetryClicked);
  }

  const LINK_TO_PAGE_2: string :=
    "<http://localhost:3001/api/applications?_page=2&_limit=5>; rel=\"next\""

  const TECH_CORP: Application := Application("1", 25000, "John", "Doe", "Tech Corp",
    "john.doe@techcorp.com", "2021-08-10", "2021-12-02")
  const FINANCE_LTD: Application := Application("2", 50000, "Jane", "Smith", "Finance Ltd",
    "jane.smith@finance.com", "2021-09-15", "2022-01-15")
  const STARTUP_INC: Application := Application("3", 75000, "Bob", "Johnson", "Startup Inc",
    "bob@startup.com", "2021-10-01", "2022-02-01")

  /** Page 1 of the default endpoint is requested through the literal URL
      the listing's first request carries. */
  lemma FirstPageUrl()
    ensures Protocol.RequestUrl(Env.DEFAULT_ENDPOINT, 1) == "http://localhost:3001/api/applications?_page=1&_limit=5"
  {
    assert Text.NatToDecimal(1) == "1";
    assert Protocol.RequestUrl(Env.DEFAULT_ENDPOINT, 1)
      == Env.DEFAULT_ENDPOINT + Protocol.PAGE_PARAM + "1" + Protocol.LIMIT_PARAM;
  }

  /** Page 2 of the default endpoint is requested through the literal URL
      the first Load More carries. */
  lemma SecondPageUrl()
    ensures Protocol.RequestUrl(Env.DEFAULT_ENDPOINT, 2) == "http://localhost:3001/api/applications?_page=2&_limit=5"
  {
    assert Text.NatToDecimal(2) == "2";
    assert Protocol.RequestUrl(Env.DEFAULT_ENDPOINT, 2)
      == Env.DEFAULT_ENDPOINT + Protocol.PAGE_PARAM + "2" + Protocol.LIMIT_PARAM;
  }

  /** The load-more scenario: two records with a next-page link, Load More,
      then one record without a link. The list shows all three in order, the
      button is gone, and pages 1 and 2 were requested in turn. */
  lemma LoadMoreScenario()
    ensures var endpoint := Env.DEFAULT_ENDPOINT;
      var mounted := Mount(endpoint);
      var shown := Complete(mounted.state, Ok([TECH_CORP, FINANCE_LTD], Some(LINK_TO_PAGE_2)));
      var clicked := LoadMore(shown, endpoint);
      var done := Complete(clicked.state, Ok([STARTUP_INC], None));
      && mounted.fetched == Some("http://localhost:3001/api/applications?_page=1&_limit=5")
      && View.Render(shown).ListScreen? && View.Render(shown).loadMore
      && clicked.fetched == Some("http://localhost:3001/api/applications?_page=2&_limit=5")
      && done.applications == [TECH_CORP, FINANCE_LTD, STARTUP_INC]
      && View.Render(done).ListScreen? && !View.Render(done).loadMore
  {
    Protocol.NextLinkDetected();
    FirstPageUrl();
    SecondPageUrl();
    var endpoint := Env.DEFAULT_ENDPOINT;
    var shown := Complete(Mount(endpoint).state, Ok([TECH_CORP, FINANCE_LTD], Some(LINK_TO_PAGE_2)));
    LoadMoreRound(shown, endpoint, [STARTUP_INC], None);
  }

  /** The retry scenario: the first request throws, the error view shows the
      message, Try Again requests page 1 again, and its records replace the
      error view. */
  lemma RetryScenario()
    ensures var endpoint := Env.DEFAULT_ENDPOINT;
      var mounted := Mount(endpoint);
      var failed := Complete(mounted.state, Thrown(Some("Network Error")));
      var retried := Retry(failed, endpoint);
      var done := Complete(retried.state, Ok([TECH_CORP, FINANCE_LTD], None));
      && View.Render(failed) == View.ErrorScreen("Network Error")
      && retried.fetched == Some("http://localhost:3001/api/applications?_page=1&_limit=5")
      && done.applications == [TECH_CORP, FINANCE_LTD]
      && View.Render(done).ListScreen? && !View.Render(done).loadMore
  {
    FirstPageUrl();
  }
}
