/**
 * What the News component receives and keeps: the article records of the
 * news API, a response to one top-headlines request, the component's props
 * and state record, and how a response is judged (success or the message
 * of the error thrown).
 */
module NewsData {
  import opened Options

  /** The `source` object of an article; its `name` may be missing. */
  datatype Source = Source(name: Option<string>)

  /** One article record as the API returns it; any field may be null or absent. */
  datatype Article = Article(
    title: Option<string>,
    description: Option<string>,
    urlToImage: Option<string>,
    url: Option<string>,
    author: Option<string>,
    publishedAt: Option<string>,
    source: Option<Source>)

  /** The result of `response.json()`: a rejection, or the parsed object's fields. */
  datatype Payload =
    | Malformed(reason: string)
    | Json(status: Option<string>, message: Option<string>,
           articles: Option<seq<Article>>, totalResults: Option<int>)

  /** The outcome of `fetch(url)`: a rejection, or an HTTP reply with its status code and body. */
  datatype Response =
    | NetworkFailure(reason: string)
    | Reply(status: nat, body: Payload)

  /** The props of one News instance. */
  datatype Props = Props(country: string, pageSize: int, category: string, apiKey: string)

  /** The query parameters of one top-headlines request (the URL built from them is not modelled). */
  datatype Request = Request(country: string, category: string, apiKey: string, page: int, pageSize: int)

  /** The component's state record. `error == None` is JavaScript's `null`. */
  datatype FeedState = FeedState(
    articles: seq<Article>,
    loading: bool,
    page: int,
    totalResults: int,
    error: Option<string>)

  /** A page that passed every check: its articles and the reported total. */
  datatype Loaded = Loaded(articles: seq<Article>, totalResults: int)

  const DEFAULT_COUNTRY := "in"
  const DEFAULT_PAGE_SIZE := 8
  const DEFAULT_CATEGORY := "general"
  const HTTP_ERROR_PREFIX := "HTTP error! status: "
  const API_ERROR_DEFAULT := "News API error"

  /** The state a freshly constructed component starts in. */
  const INITIAL_STATE := FeedState([], true, 1, 0, None)

  /**
   * React's `defaultProps`: each of country, pageSize and category that the
   * caller leaves undefined takes its default; apiKey is required.
   */
  function ResolveProps(country: Option<string>, pageSize: Option<int>, category: Option<string>,
                        apiKey: string): (p: Props)
    ensures country.Some? ==> p.country == country.value
    ensures country.None? ==> p.country == DEFAULT_COUNTRY
    ensures pageSize.Some? ==> p.pageSize == pageSize.value
    ensures pageSize.None? ==> p.pageSize == DEFAULT_PAGE_SIZE
    ensures category.Some? ==> p.category == category.value
    ensures category.None? ==> p.category == DEFAULT_CATEGORY
    ensures p.apiKey == apiKey
  {
    Props(country.GetOr(DEFAULT_COUNTRY), pageSize.GetOr(DEFAULT_PAGE_SIZE),
          category.GetOr(DEFAULT_CATEGORY), apiKey)
  }

  /** The parameters of a request for `page` under props `p`: the page asked for, everything else from the props. */
  function RequestFor(p: Props, page: int): (r: Request)
    ensures r.page == page && r.pageSize == p.pageSize
    ensures r.country == p.country && r.category == p.category && r.apiKey == p.apiKey
  {
    Request(p.country, p.category, p.apiKey, page, p.pageSize)
  }

  /** JavaScript's `v || d` for a string that may be absent: both null and "" are falsy. */
  function OrElse(v: Option<string>, d: string): (r: string)
    ensures r == d || (v == Some(r) && r != "")
    ensures v.Some? && v.value != "" ==> r == v.value
  {
    if v.Some? && v.value != "" then v.value else d
  }

  /** `response.ok`: the status code is in the 2xx range. */
  predicate IsOk(status: nat)
    ensures 200 <= status < 300 ==> IsOk(status)
    ensures status < 200 || status >= 300 ==> !IsOk(status)
  {
    200 <= status <= 299
  }

  predicate IsDigit(c: char) {
    '0' <= c <= '9'
  }

  function DigitChar(d: nat): (c: char)
    requires d < 10
    ensures IsDigit(c) && c as int - '0' as int == d
  {
    ['0', '1', '2', '3', '4', '5', '6', '7', '8', '9'][d]
  }

  /** How a template literal prints a non-negative integer: decimal digits, no leading zero. */
  function Decimal(n: nat): (s: string)
    ensures |s| >= 1
    ensures forall i :: 0 <= i < |s| ==> IsDigit(s[i])
    ensures s[0] == '0' ==> n == 0 && |s| == 1
    decreases n
  {
    if n < 10 then [DigitChar(n)] else Decimal(n / 10) + [DigitChar(n % 10)]
  }

  /** The number a string of decimal digits denotes. */
  function DecimalValue(s: string): nat
    requires forall i :: 0 <= i < |s| ==> IsDigit(s[i])
  {
    if s == [] then 0
    else
      assert IsDigit(s[|s| - 1]);
      DecimalValue(s[..|s| - 1]) * 10 + (s[|s| - 1] as int - '0' as int)
  }

  /** Reading back what `Decimal` prints gives the number again. */
  lemma {:induction false} DecimalRoundTrip(n: nat)
    ensures DecimalValue(Decimal(n)) == n
    decreases n
  {
    if n >= 10 {
      var s := Decimal(n);
      assert s[..|s| - 1] == Decimal(n / 10);
      DecimalRoundTrip(n / 10);
    }
  }

  /** The message of the error thrown for a reply whose status is not ok: the fixed prefix, then the status in decimal. */
  function HttpErrorMessage(status: nat): (m: string)
    ensures |m| > |HTTP_ERROR_PREFIX| && m[..|HTTP_ERROR_PREFIX|] == HTTP_ERROR_PREFIX
    ensures m[|HTTP_ERROR_PREFIX|..] == Decimal(status)
  {
    HTTP_ERROR_PREFIX + Decimal(status)
  }

  /** The HTTP error message carries the status code, which can be read back from it. */
  lemma HttpErrorMessageHoldsStatus(status: nat)
    ensures |HttpErrorMessage(status)| > |HTTP_ERROR_PREFIX|
    ensures HttpErrorMessage(status)[..|HTTP_ERROR_PREFIX|] == HTTP_ERROR_PREFIX
    ensures var digits := HttpErrorMessage(status)[|HTTP_ERROR_PREFIX|..];
            (forall i :: 0 <= i < |digits| ==> IsDigit(digits[i])) && DecimalValue(digits) == status
  {
    assert HttpErrorMessage(status)[|HTTP_ERROR_PREFIX|..] == Decimal(status);
    DecimalRoundTrip(status);
  }

  /** Two different status codes never produce the same HTTP error message. */
  lemma HttpErrorMessageInjective(a: nat, b: nat)
    requires HttpErrorMessage(a) == HttpErrorMessage(b)
    ensures a == b
  {
    HttpErrorMessageHoldsStatus(a);
    HttpErrorMessageHoldsStatus(b);
  }

  /**
   * The checks both loaders run on a response, in order: the fetch must not
   * reject, `response.ok` must hold, the body must parse, and its `status`
   * must be "ok". The first check that fails decides the thrown message.
   */
  function Settle(resp: Response): (r: Result<Loaded>)
    ensures r.Success? ==> resp.Reply? && IsOk(resp.status) && resp.body.Json?
    ensures resp.NetworkFailure? ==> r == Failure(resp.reason)
  {
    match resp
    case NetworkFailure(reason) => Failure(reason)
    case Reply(status, body) =>
      if !IsOk(status) then Failure(HttpErrorMessage(status))
      else match body
        case Malformed(reason) => Failure(reason)
        case Json(st, message, articles, totalResults) =>
          if st != Some("ok") then Failure(OrElse(message, API_ERROR_DEFAULT))
          else Success(Loaded(articles.GetOr([]), totalResults.GetOr(0)))
  }

  /**
   * What `Settle` decides: success exactly when every check passes; the
   * message of each failing check; and on success absent `articles` read
   * as [] and an absent `totalResults` as 0.
   */
  lemma SettleCases(resp: Response)
    ensures Settle(resp).Success? <==> resp.Reply? && IsOk(resp.status) && resp.body.Json? && resp.body.status == Some("ok")
    ensures resp.NetworkFailure? ==> Settle(resp) == Failure(resp.reason)
    ensures resp.Reply? && !IsOk(resp.status) ==> Settle(resp) == Failure(HttpErrorMessage(resp.status))
    ensures resp.Reply? && IsOk(resp.status) && resp.body.Malformed? ==> Settle(resp) == Failure(resp.body.reason)
    ensures resp.Reply? && IsOk(resp.status) && resp.body.Json? && resp.body.status != Some("ok") ==>
              Settle(resp).Failure? && Settle(resp).error != "" &&
              (resp.body.message.Some? && resp.body.message.value != "" ==> Settle(resp).error == resp.body.message.value) &&
              (resp.body.message.None? || resp.body.message.value == "" ==> Settle(resp).error == API_ERROR_DEFAULT)
    ensures Settle(resp).Success? ==>
              Settle(resp).value.articles == resp.body.articles.GetOr([])
              && Settle(resp).value.totalResults == resp.body.totalResults.GetOr(0)
  {
  }

  /** Errors raised by the component's own checks always carry a non-empty message. */
  lemma CheckedFailureHasMessage(resp: Response)
    requires resp.Reply? && Settle(resp).Failure?
    requires !(IsOk(resp.status) && resp.body.Malformed?)
    ensures Settle(resp).error != ""
  {
  }
}
