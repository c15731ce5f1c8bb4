/**
 * The News component's feed state machine. `updateNews` (the initial load,
 * also behind the Retry button) and `fetchMoreData` (the next page on
 * scroll) each take the response to the request they issue and move the
 * state record accordingly; `updateNews` also reports progress values
 * to the shell's loading bar. Each operation is atomic here.
 */
module NewsFeed {
  import opened Options
  import opened NewsData
  import opened NewsView

  /**
   * The state while an `updateNews` awaits its response: `loading` is set
   * and the error cleared; the list, page and total are kept.
   */
  function Begun(s: FeedState): (t: FeedState)
    ensures t.loading && t.error == None
    ensures t.articles == s.articles && t.page == s.page && t.totalResults == s.totalResults
  {
    s.(loading := true, error := None)
  }

  /**
   * The state an awaiting `updateNews` leaves once its response is judged:
   * the success `setState` replaces list and total and leaves `error` as it
   * is; the `catch` empties the list and stores the message.
   */
  function Finished(s: FeedState, resp: Response): (t: FeedState)
    ensures t.page == s.page && !t.loading
    ensures Settle(resp).Success? ==>
              t.articles == Settle(resp).value.articles
              && t.totalResults == Settle(resp).value.totalResults
              && t.error == s.error
    ensures Settle(resp).Failure? ==>
              t.articles == [] && t.error == Some(Settle(resp).error)
              && t.totalResults == s.totalResults
  {
    match Settle(resp)
    case Success(loaded) =>
      s.(articles := loaded.articles, totalResults := loaded.totalResults, loading := false)
    case Failure(message) =>
      s.(articles := [], loading := false, error := Some(message))
  }

  /** The state a whole `updateNews` leaves behind, given the response to its request. */
  function AfterUpdate(s: FeedState, resp: Response): (t: FeedState)
    ensures t.page == s.page && !t.loading
    ensures Settle(resp).Success? ==>
              t.articles == Settle(resp).value.articles
              && t.totalResults == Settle(resp).value.totalResults
              && t.error == None
    ensures Settle(resp).Failure? ==>
              t.articles == [] && t.error == Some(Settle(resp).error)
              && t.totalResults == s.totalResults
  {
    Finished(Begun(s), resp)
  }

  /** The values `updateNews` passes to `setProgress`, in order. */
  function UpdateTrace(resp: Response): (t: seq<int>)
    ensures 2 <= |t| <= 4 && t[0] == 10 && t[|t| - 1] == 100
    ensures forall i :: 0 <= i < |t| ==> 0 <= t[i] <= 100
    ensures Settle(resp).Success? ==> t == [10, 30, 70, 100]
    ensures resp.NetworkFailure? ==> t == [10, 100]
  {
    match resp
    case NetworkFailure(_) => [10, 100]
    case Reply(status, body) =>
      if !IsOk(status) || body.Malformed? then [10, 30, 100] else [10, 30, 70, 100]
  }

  /** The reported progress only ever rises within one `updateNews`. */
  lemma UpdateTraceRises(resp: Response)
    ensures forall i, j :: 0 <= i < j < |UpdateTrace(resp)| ==> UpdateTrace(resp)[i] < UpdateTrace(resp)[j]
  {
  }

  /** The page `fetchMoreData` asks for: the one after the last page loaded. */
  function NextPage(s: FeedState): (n: int)
    ensures n > s.page && n - 1 == s.page
  {
    s.page + 1
  }

  /** The state `fetchMoreData` leaves behind, given the response to its request. */
  function AfterFetchMore(s: FeedState, resp: Response): (t: FeedState)
    ensures t.loading == s.loading
    ensures Settle(resp).Success? ==>
              t.articles == s.articles + Settle(resp).value.articles
              && t.page == s.page + 1
              && t.totalResults == Settle(resp).value.totalResults
              && t.error == s.error
    ensures Settle(resp).Failure? ==>
              t.articles == s.articles && t.page == s.page && t.totalResults == s.totalResults
              && t.error == Some(Settle(resp).error)
  {
    match Settle(resp)
    case Success(loaded) =>
      s.(articles := s.articles + loaded.articles, totalResults := loaded.totalResults, page := NextPage(s))
    case Failure(message) =>
      s.(error := Some(message))
  }

  /** A progress history in which every cycle ran to completion. */
  ghost predicate ProgressSettled(reported: seq<int>) {
    (forall i :: 0 <= i < |reported| ==> 0 <= reported[i] <= 100)
    && (reported == [] || reported[|reported| - 1] == 100)
  }

  /**
   * What the shell's loading bar shows after the given reports: the last
   * one, or its initial 0. Between loads it is empty or full.
   */
  function BarValue(reported: seq<int>): (v: int)
    ensures reported == [] ==> v == 0
    ensures reported != [] ==> v == reported[|reported| - 1]
    ensures ProgressSettled(reported) ==> v == 0 || v == 100
  {
    if reported == [] then 0 else reported[|reported| - 1]
  }

  /** Appending a cycle that stays within 0..100 and ends at 100 keeps the history settled. */
  lemma SettledAfterCycle(reported: seq<int>, cycle: seq<int>)
    requires ProgressSettled(reported)
    requires cycle != [] && cycle[|cycle| - 1] == 100
    requires forall i :: 0 <= i < |cycle| ==> 0 <= cycle[i] <= 100
    ensures ProgressSettled(reported + cycle)
  {
  }

  /** A full `updateNews` cycle keeps the progress history settled. */
  lemma SettledAfterUpdate(reported: seq<int>, resp: Response)
    requires ProgressSettled(reported)
    ensures ProgressSettled(reported + UpdateTrace(resp))
  {
    SettledAfterCycle(reported, UpdateTrace(resp));
  }

  // ----- Relations between operations -----

  /** A successful load does not depend on the articles held before: it never appends to them. */
  lemma UpdateNeverAppends(s1: FeedState, s2: FeedState, resp: Response)
    requires Settle(resp).Success?
    ensures AfterUpdate(s1, resp).articles == AfterUpdate(s2, resp).articles
  {
  }

  /** Pressing Retry with the same response again leads to the same state. */
  lemma UpdateIdempotent(s: FeedState, resp: Response)
    ensures AfterUpdate(AfterUpdate(s, resp), resp) == AfterUpdate(s, resp)
  {
  }

  /**
   * A failed scroll load keeps the page number, so Retry (updateNews) asks
   * again for the last page that was loaded, not for page 1 and not for the
   * page that failed; if that succeeds, only that page's articles remain.
   */
  lemma RetryAfterFailedScroll(s: FeedState, failed: Response, retried: Response)
    requires Settle(failed).Failure?
    ensures AfterFetchMore(s, failed).page == s.page == NextPage(s) - 1
    ensures Settle(retried).Success? ==>
              AfterUpdate(AfterFetchMore(s, failed), retried).articles == Settle(retried).value.articles
              && AfterUpdate(AfterFetchMore(s, failed), retried).page == s.page
  {
  }

  /** The state after `fetchMoreData` has been answered by each response in turn. */
  function RunFetchMore(s: FeedState, resps: seq<Response>): FeedState
    decreases |resps|
  {
    if resps == [] then s else RunFetchMore(AfterFetchMore(s, resps[0]), resps[1..])
  }

  /** The articles of the successful responses, concatenated in order. */
  function Appended(resps: seq<Response>): seq<Article>
    decreases |resps|
  {
    if resps == [] then []
    else (if Settle(resps[0]).Success? then Settle(resps[0]).value.articles else []) + Appended(resps[1..])
  }

  /** How many of the responses succeed. */
  function Successes(resps: seq<Response>): nat
    decreases |resps|
  {
    if resps == [] then 0 else (if Settle(resps[0]).Success? then 1 else 0) + Successes(resps[1..])
  }

  /**
   * Scrolling is append-only: after any run of scroll loads the list is the
   * old list followed by the new pages in response order, the page number has
   * advanced once per success, and `loading` is untouched.
   */
  lemma {:induction false} RunFetchMoreAppends(s: FeedState, resps: seq<Response>)
    ensures RunFetchMore(s, resps).articles == s.articles + Appended(resps)
    ensures RunFetchMore(s, resps).page == s.page + Successes(resps)
    ensures RunFetchMore(s, resps).loading == s.loading
    decreases |resps|
  {
    if resps != [] {
      var t := AfterFetchMore(s, resps[0]);
      RunFetchMoreAppends(t, resps[1..]);
      assert s.articles + Appended(resps) == t.articles + Appended(resps[1..]);
    }
  }

  /** Scrolling never clears an error: once set, only updateNews resets it. */
  lemma {:induction false} ErrorSticksWhileScrolling(s: FeedState, resps: seq<Response>)
    requires s.error.Some?
    ensures RunFetchMore(s, resps).error.Some?
    decreases |resps|
  {
    if resps != [] {
      ErrorSticksWhileScrolling(AfterFetchMore(s, resps[0]), resps[1..]);
    }
  }

  /** A response that succeeds with at least one article and reports `total` results. */
  predicate FullPage(resp: Response, total: int) {
    Settle(resp).Success? && |Settle(resp).value.articles| >= 1 && Settle(resp).value.totalResults == total
  }

  lemma {:induction false} FullPagesGrowList(s: FeedState, resps: seq<Response>, total: int)
    requires resps != []
    requires forall i :: 0 <= i < |resps| ==> FullPage(resps[i], total)
    ensures |RunFetchMore(s, resps).articles| >= |s.articles| + |resps|
    ensures RunFetchMore(s, resps).totalResults == total
    decreases |resps|
  {
    assert FullPage(resps[0], total);
    var t := AfterFetchMore(s, resps[0]);
    if |resps| > 1 {
      forall i | 0 <= i < |resps[1..]| ensures FullPage(resps[1..][i], total) {
        assert resps[1..][i] == resps[i + 1];
      }
      FullPagesGrowList(t, resps[1..], total);
    }
  }

  /**
   * The infinite scroll stops: when every page brings at least one article
   * and the reported total stays the same, at most `total - |articles|`
   * loads (and at least one) make `hasMore` false.
   */
  lemma ScrollTerminates(s: FeedState, resps: seq<Response>, total: int)
    requires resps != [] && |s.articles| + |resps| >= total
    requires forall i :: 0 <= i < |resps| ==> FullPage(resps[i], total)
    ensures !HasMore(RunFetchMore(s, resps))
  {
    FullPagesGrowList(s, resps, total);
  }

  /**
   * A failed load whose message is not empty (every failure the component
   * raises itself) shows the error view with that message; a successful one
   * never shows the spinner.
   */
  lemma UpdateSelectsView(s: FeedState, resp: Response, category: string)
    ensures Settle(resp).Failure? && Settle(resp).error != "" ==>
              Render(AfterUpdate(s, resp), category) == ErrorView(Settle(resp).error)
    ensures Settle(resp).Success? ==>
              Render(AfterUpdate(s, resp), category)
                == (if Settle(resp).value.articles == [] then EmptyView
                    else ListView(Heading(category), Cards(Settle(resp).value.articles),
                                  |Settle(resp).value.articles| < Settle(resp).value.totalResults))
  {
  }

  /** Every failure the component raises itself (an HTTP status or a body status) shows the error view. */
  lemma CheckedFailureShowsError(s: FeedState, resp: Response, category: string)
    requires resp.Reply? && Settle(resp).Failure?
    requires !(IsOk(resp.status) && resp.body.Malformed?)
    ensures Render(AfterUpdate(s, resp), category) == ErrorView(Settle(resp).error)
  {
    CheckedFailureHasMessage(resp);
    UpdateSelectsView(s, resp, category);
  }

  /**
   * While a Retry from an empty list awaits its response (say after a failed
   * first load) the spinner shows; with articles held, the list stays up.
   */
  lemma AwaitingUpdateView(s: FeedState, category: string)
    ensures s.articles == [] ==> Render(Begun(s), category) == SpinnerView
    ensures s.articles != [] ==> Render(Begun(s), category).ListView?
  {
  }

  /**
   * A component mounted without country, pageSize and category asks for
   * page 1 of the "general" headlines of "in" in pages of 8, and is titled
   * "General - NewsMonkey".
   */
  lemma DefaultMount(apiKey: string)
    ensures RequestFor(ResolveProps(None, None, None, apiKey), INITIAL_STATE.page)
              == Request("in", "general", apiKey, 1, 8)
    ensures Title(ResolveProps(None, None, None, apiKey).category) == "General - NewsMonkey"
  {
    assert Capitalize("general") == "General";
  }

  /**
   * The awaited part of the `try` block of `updateNews`: reports 30 once a
   * reply has arrived, then 70 once its body has parsed, and stops at the
   * first check that throws. Returns the thrown message or the loaded page,
   * and the progress values it reported.
   */
  method TryLoad(resp: Response) returns (thrown: Option<string>, fetched: Loaded, reported: seq<int>)
    ensures thrown.Some? <==> Settle(resp).Failure?
    ensures thrown.Some? ==> thrown.value == Settle(resp).error
    ensures thrown.None? ==> fetched == Settle(resp).value
    ensures [10] + reported + [100] == UpdateTrace(resp)
  {
    thrown, fetched, reported := None, Loaded([], 0), [];
    match resp {
      case NetworkFailure(reason) =>
        thrown := Some(reason);
      case Reply(status, body) =>
        reported := reported + [30];
        if !IsOk(status) {
          thrown := Some(HttpErrorMessage(status));
        } else if body.Malformed? {
          thrown := Some(body.reason);
        } else {
          reported := reported + [70];
          if body.status != Some("ok") {
            thrown := Some(OrElse(body.message, API_ERROR_DEFAULT));
          } else {
            fetched := Loaded(body.articles.GetOr([]), body.totalResults.GetOr(0));
          }
        }
    }
  }

  /** One mounted News component. */
  class News {
    const props: Props
    var articles: seq<Article>
    var loading: bool
    var page: int
    var totalResults: int
    var error: Option<string>
    /** Every value this component has passed to `setProgress`, in order. */
    var progress: seq<int>
    /** An `updateNews` has begun and awaits its response. */
    ghost var inFlight: bool

    /**
     * The page number never drops below 1 and every reported value lies in
     * 0..100. While an `updateNews` awaits its response, `loading` holds, the
     * last report is its 10 and every earlier cycle ended at 100. Otherwise
     * `loading` holds exactly until the first `updateNews` has finished, and
     * every progress cycle ended at 100.
     */
    ghost predicate Valid()
      reads this
    {
      page >= 1
      && (inFlight ==> loading && |progress| >= 1 && progress[|progress| - 1] == 10
                       && ProgressSettled(progress[..|progress| - 1]))
      && (!inFlight ==> (loading <==> progress == []) && ProgressSettled(progress))
    }

    /** The state record. */
    function State(): FeedState
      reads this
    {
      FeedState(articles, loading, page, totalResults, error)
    }

    /** A new instance: the initial state record; its title is the capitalised category. */
    constructor (props: Props)
      ensures Valid() && !inFlight
      ensures this.props == props && State() == INITIAL_STATE && progress == []
    {
      this.props := props;
      articles, loading, page, totalResults, error := [], true, 1, 0, None;
      progress := [];
      inFlight := false;
    }

    /** The document title this instance sets: its category capitalised, then the app's suffix. */
    function DocumentTitle(): (t: string)
      ensures |t| == |props.category| + |TITLE_SUFFIX|
      ensures t[..|props.category|] == Capitalize(props.category)
      ensures t[|props.category|..] == TITLE_SUFFIX
    {
      Title(props.category)
    }

    /**
     * The start of `updateNews`, up to its first `await`: reports 10, asks
     * for the current page, sets `loading` and clears the error.
     */
    method BeginUpdate() returns (req: Request)
      requires Valid() && !inFlight
      modifies this
      ensures Valid() && inFlight
      ensures req == RequestFor(props, old(page))
      ensures State() == Begun(old(State()))
      ensures progress == old(progress) + [10]
    {
      progress := progress + [10];
      req := RequestFor(props, page);
      loading, error := true, None;
      inFlight := true;
    }

    /**
     * The rest of `updateNews` once the response is in: the checks of
     * `TryLoad`, then either the success `setState` or the `catch`, and
     * 100 reported in every case.
     */
    method FinishUpdate(resp: Response)
      requires Valid() && inFlight
      modifies this
      ensures Valid() && !inFlight
      ensures State() == Finished(old(State()), resp)
      ensures progress == old(progress) + UpdateTrace(resp)[1..]
      ensures BarValue(progress) == 100
    {
      ghost var before := progress[..|progress| - 1];
      assert progress == before + [10];
      var thrown, fetched, reported := TryLoad(resp);
      if thrown.Some? {
        loading, error, articles := false, thrown, [];
      } else {
        articles, totalResults, loading := fetched.articles, fetched.totalResults, false;
      }
      assert UpdateTrace(resp)[1..] == reported + [100];
      SettledAfterUpdate(before, resp);
      assert before + UpdateTrace(resp) == progress + (reported + [100]);
      progress := progress + (reported + [100]);
      inFlight := false;
    }

    /** `updateNews` as a whole, for a caller that does nothing while it awaits. */
    method UpdateNews(resp: Response) returns (req: Request)
      requires Valid() && !inFlight
      modifies this
      ensures Valid() && !inFlight
      ensures req == RequestFor(props, old(page))
      ensures State() == AfterUpdate(old(State()), resp)
      ensures progress == old(progress) + UpdateTrace(resp)
      ensures BarValue(progress) == 100
    {
      req := BeginUpdate();
      FinishUpdate(resp);
      assert [10] + UpdateTrace(resp)[1..] == UpdateTrace(resp);
    }

    /**
     * `fetchMoreData`: asks for the next page; on success appends its
     * articles and advances the page, on failure records only the error.
     * Reports no progress.
     */
    method FetchMoreData(resp: Response) returns (req: Request)
      requires Valid()
      modifies this
      ensures Valid()
      ensures req == RequestFor(props, old(page) + 1)
      ensures State() == AfterFetchMore(old(State()), resp)
      ensures progress == old(progress) && inFlight == old(inFlight)
    {
      var nextPage := page + 1;
      req := RequestFor(props, nextPage);
      match Settle(resp) {
        case Success(loaded) =>
          articles, totalResults, page := articles + loaded.articles, loaded.totalResults, nextPage;
        case Failure(message) =>
          error := Some(message);
      }
    }

    /**
     * What this instance renders now, read off its fields: the error when one
     * is set, the spinner while loading an empty list, "No Articles Found"
     * for an empty list otherwise, and else the cards under its heading.
     */
    function View(): (v: View)
      reads this
      ensures v.ErrorView? <==> IsTruthy(error)
      ensures v.ErrorView? ==> v.message == error.value
      ensures v.SpinnerView? <==> !IsTruthy(error) && loading && articles == []
      ensures v.EmptyView? <==> !IsTruthy(error) && !loading && articles == []
      ensures v.ListView? ==> v.heading == Heading(props.category) && v.cards == Cards(articles)
                              && (v.hasMore <==> |articles| < totalResults)
    {
      Render(State(), props.category)
    }

    /** The spinner shows only with an empty list, before the first load or while a load awaits its response. */
    lemma SpinnerOnlyWhileLoading()
      requires Valid() && View().SpinnerView?
      ensures articles == [] && (progress == [] || inFlight)
    {
    }
  }
}
