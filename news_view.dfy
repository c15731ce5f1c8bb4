/**
 * The pure rules of the News component's rendering: capitalising the
 * category, the document title, the props given to each article card, the
 * `hasMore` flag of the infinite scroll, and which of the four views
 * `render` returns for a state.
 */
module NewsView {
  import opened Options
  import opened NewsData

  const TITLE_SUFFIX := " - NewsMonkey"
  const UNKNOWN_SOURCE := "Unknown"
  const HEADING_PREFIX := "NewsApp - Top "
  const HEADING_SUFFIX := " Headlines"

  predicate IsLowerAscii(c: char) {
    'a' <= c <= 'z'
  }

  /** `toUpperCase` on one character, restricted to ASCII: only a-z change. */
  function UpperAscii(c: char): (u: char)
    ensures IsLowerAscii(c) ==> 'A' <= u <= 'Z' && u as int - 'A' as int == c as int - 'a' as int
    ensures !IsLowerAscii(c) ==> u == c
  {
    if IsLowerAscii(c) then (c as int - 32) as char else c
  }

  /** `capitalizeFirstLetter`: the first character upper-cased, the rest kept. */
  function Capitalize(s: string): (r: string)
    ensures |r| == |s|
    ensures |s| > 0 ==> r[0] == UpperAscii(s[0]) && !IsLowerAscii(r[0])
    ensures forall i :: 1 <= i < |s| ==> r[i] == s[i]
  {
    if s == [] then [] else [UpperAscii(s[0])] + s[1..]
  }

  /** Capitalising twice changes nothing more than capitalising once. */
  lemma CapitalizeIdempotent(s: string)
    ensures Capitalize(Capitalize(s)) == Capitalize(s)
  {
  }

  /** The document title set on construction: the capitalised category, then " - NewsMonkey". */
  function Title(category: string): (t: string)
    ensures |t| == |category| + |TITLE_SUFFIX|
    ensures t[..|category|] == Capitalize(category)
    ensures t[|category|..] == TITLE_SUFFIX
  {
    Capitalize(category) + TITLE_SUFFIX
  }

  /** The heading shown above the list of cards: the capitalised category between a fixed prefix and suffix. */
  function Heading(category: string): (h: string)
    ensures |h| == |HEADING_PREFIX| + |category| + |HEADING_SUFFIX|
    ensures h[..|HEADING_PREFIX|] == HEADING_PREFIX
    ensures h[|HEADING_PREFIX|..|HEADING_PREFIX| + |category|] == Capitalize(category)
    ensures h[|HEADING_PREFIX| + |category|..] == HEADING_SUFFIX
  {
    HEADING_PREFIX + Capitalize(category) + HEADING_SUFFIX
  }

  /** The props one `NewsItem` card receives. */
  datatype Card = Card(
    title: string,
    description: string,
    imageUrl: Option<string>,
    newsUrl: Option<string>,
    author: Option<string>,
    date: Option<string>,
    source: string)

  /** `source?.name`: the name of an article's source, absent when there is no source object or it has no name. */
  function SourceName(a: Article): (n: Option<string>)
    ensures a.source.None? ==> n.None?
    ensures a.source.Some? ==> n == a.source.value.name
  {
    if a.source.Some? then a.source.value.name else None
  }

  /**
   * The card for one article: a missing title or description becomes "",
   * a missing or empty source name becomes "Unknown", and the image, link,
   * author and date are passed on as they are.
   */
  function CardOf(a: Article): (c: Card)
    ensures c.title == a.title.GetOr("") && c.description == a.description.GetOr("")
    ensures c.imageUrl == a.urlToImage && c.newsUrl == a.url
    ensures c.author == a.author && c.date == a.publishedAt
    ensures c.source != ""
    ensures SourceName(a).Some? && SourceName(a).value != "" ==> c.source == SourceName(a).value
    ensures SourceName(a).None? || SourceName(a).value == "" ==> c.source == UNKNOWN_SOURCE
  {
    Card(OrElse(a.title, ""), OrElse(a.description, ""), a.urlToImage, a.url,
         a.author, a.publishedAt, OrElse(SourceName(a), UNKNOWN_SOURCE))
  }

  /** One card per article, in the order of the list. */
  function Cards(articles: seq<Article>): (cs: seq<Card>)
    ensures |cs| == |articles|
    ensures forall i :: 0 <= i < |articles| ==> cs[i] == CardOf(articles[i])
  {
    seq(|articles|, i requires 0 <= i < |articles| => CardOf(articles[i]))
  }

  /**
   * The `hasMore` flag passed to the infinite scroll: more exists only when
   * the API reported at least one result beyond those held, so an empty
   * feed with a total of 0 asks for nothing.
   */
  predicate HasMore(s: FeedState)
    ensures HasMore(s) ==> s.totalResults >= 1 && s.totalResults - |s.articles| >= 1
    ensures s.totalResults <= |s.articles| ==> !HasMore(s)
    ensures |s.articles| < s.totalResults ==> HasMore(s)
  {
    |s.articles| < s.totalResults
  }

  /** JavaScript's truthiness of the `error` field: null and "" are both falsy, any other string is truthy. */
  predicate IsTruthy(e: Option<string>)
    ensures e.None? ==> !IsTruthy(e)
    ensures e.Some? ==> (IsTruthy(e) <==> |e.value| > 0)
  {
    e.Some? && e.value != ""
  }

  /** The four things `render` can return. */
  datatype View =
    | ErrorView(message: string)    // the message and a Retry button that calls updateNews
    | SpinnerView
    | EmptyView                     // "No Articles Found"
    | ListView(heading: string, cards: seq<Card>, hasMore: bool)

  /**
   * `render`: the checks in priority order. An error wins over everything,
   * the spinner needs loading and an empty list, an empty list that is not
   * loading says "No Articles Found", and otherwise the cards are listed.
   */
  function Render(s: FeedState, category: string): (v: View)
    ensures v.ErrorView? <==> IsTruthy(s.error)
    ensures v.ErrorView? ==> v.message == s.error.value
    ensures v.SpinnerView? <==> !IsTruthy(s.error) && s.loading && s.articles == []
    ensures v.EmptyView? <==> !IsTruthy(s.error) && !s.loading && s.articles == []
    ensures v.ListView? <==> !IsTruthy(s.error) && s.articles != []
    ensures v.ListView? ==> v.heading == Heading(category) && v.cards == Cards(s.articles)
                            && (v.hasMore <==> |s.articles| < s.totalResults)
  {
    if IsTruthy(s.error) then ErrorView(s.error.value)
    else if s.loading && |s.articles| == 0 then SpinnerView
    else if |s.articles| == 0 && !s.loading then EmptyView
    else ListView(Heading(category), Cards(s.articles), HasMore(s))
  }

  /** Holding articles does not hide an error: the error view is chosen regardless of the list. */
  lemma ErrorHidesArticles(s: FeedState, category: string, more: seq<Article>)
    requires IsTruthy(s.error)
    ensures Render(s.(articles := s.articles + more), category) == Render(s, category)
  {
  }
}
