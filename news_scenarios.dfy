/**
 * Clients of the News class: a technology feed paged through to its end,
 * the two kinds of failed initial load, and a Retry seen while it awaits
 * its reply. Every assertion follows from
 * the class's contracts.
 */
module NewsScenarios {
  import opened Options
  import opened NewsData
  import opened NewsView
  import opened NewsFeed

  const STORY := Article(Some("t"), None, None, Some("u"), None, None, Some(Source(Some("s"))))

  /** A 200 reply with status "ok", `count` articles and the given total. */
  function OkPage(count: nat, total: int): (r: Response)
    ensures Settle(r).Success? && |Settle(r).value.articles| == count && Settle(r).value.totalResults == total
  {
    Reply(200, Json(Some("ok"), None, Some(seq(count, _ => STORY)), Some(total)))
  }

  /** Twelve results in pages of five: 5 after the first load, with more to come. */
  method TechnologyFirstPage() returns (news: News)
    ensures fresh(news) && news.Valid() && |news.articles| == 5 && news.page == 1 && news.totalResults == 12
  {
    news := new News(Props("us", 5, "technology", "key"));
    assert news.View() == SpinnerView;
    var first := OkPage(5, 12);
    var req := news.UpdateNews(first);
    assert req.page == 1 && req.pageSize == 5;
    assert !news.loading && news.progress == [10, 30, 70, 100];
    assert HasMore(news.State());
  }

  /** The second page brings the list to 10 on page 2; the third, with two articles, ends it at 12. */
  method TechnologyScrolling() {
    var news := TechnologyFirstPage();
    var second := OkPage(5, 12);
    var req := news.FetchMoreData(second);
    assert req.page == 2;
    assert |news.articles| == 10 && news.page == 2 && HasMore(news.State());
    var third := OkPage(2, 12);
    req := news.FetchMoreData(third);
    assert req.page == 3;
    assert |news.articles| == 12 && news.page == 3 && !HasMore(news.State());
  }

  /** A 401 reply: the status appears in the error, the list is empty, loading is over. */
  method Unauthorized() {
    var news := new News(Props("us", 5, "general", "key"));
    var denied := Reply(401, Malformed("unread"));
    assert Decimal(401) == "401";
    assert Settle(denied) == Failure("HTTP error! status: 401");
    var _ := news.UpdateNews(denied);
    assert news.error == Some("HTTP error! status: 401");
    assert news.articles == [] && !news.loading;
    assert news.progress == [10, 30, 100];
  }

  /** An HTTP 200 reply whose body reports an error: its message is stored, and Retry recovers. */
  method RejectedKey() {
    var news := new News(Props("us", 5, "sports", "bad"));
    var rejected := Reply(200, Json(Some("error"), Some("Invalid API key"), None, None));
    assert Settle(rejected) == Failure("Invalid API key");
    var _ := news.UpdateNews(rejected);
    assert news.error == Some("Invalid API key");
    assert news.progress == [10, 30, 70, 100];

    var retried := OkPage(3, 3);
    var retry := news.UpdateNews(retried);
    assert retry.page == 1;
    assert news.error == None && |news.articles| == 3 && !HasMore(news.State());
  }

  /** Retry after a failed first load: while it awaits its reply the spinner shows, then the list. */
  method RetryAfterFailedLoad() {
    var news := new News(Props("us", 5, "general", "key"));
    var _ := news.UpdateNews(NetworkFailure("Failed to fetch"));
    assert news.View() == ErrorView("Failed to fetch") && news.progress == [10, 100];
    var req := news.BeginUpdate();
    assert req.page == 1;
    assert news.View() == SpinnerView && BarValue(news.progress) == 10;
    news.FinishUpdate(OkPage(5, 12));
    assert news.progress == [10, 100, 10, 30, 70, 100];
    assert news.View().ListView? && news.View().hasMore;
  }
}
