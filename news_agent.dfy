/** agents/news_agent.py: a search phrase from the local model, up to three
    articles from NewsAPI, and a Markdown reply listing them. The two HTTP
    requests are inputs: their outcomes, or a function from query to outcome. */
module NewsAgent {
  import opened Wrappers
  import opened Text
  import Json

  /** The topic used when the model cannot be reached. */
  const FallbackTopic: string := "latest news"

  /** One element of the list `fetch_news_results` returns. */
  datatype NewsItem = NewsItem(title: Json.Value, url: Json.Value, source: Json.Value, published: string)

  /** `extract_search_query` given the outcome of the request to the model
      (`Ok(text)`: the `"response"` field, empty when missing). A reply that is
      empty or blank gives the empty topic: only a failure gives the fallback. */
  function ExtractSearchQuery(reply: Result<string>): (topic: string)
    ensures reply.Raised? ==> topic == FallbackTopic
    ensures reply.Ok? ==> topic == Strip(reply.value)
  {
    match reply
    case Ok(text) => Strip(text)
    case Raised(_) => FallbackTopic
  }

  /** The dictionary built for one article `a` in the list comprehension of
      `fetch_news_results`; `None` where one of the lookups raises. */
  function ArticleOf(a: Json.Value): (item: Option<NewsItem>)
    ensures item.Some? ==>
              Json.Get(a, "title") == Some(item.value.title) &&
              Json.Get(a, "url") == Some(item.value.url) &&
              Json.GetPath(a, "source", "name") == Some(item.value.source) &&
              (exists p :: Json.Get(a, "publishedAt") == Some(Json.Str(p)) && item.value.published == PrefixTo(p, 10))
    ensures item.None? <==>
              Json.Get(a, "title").None? || Json.Get(a, "url").None? ||
              Json.GetPath(a, "source", "name").None? ||
              !(Json.Get(a, "publishedAt").Some? && Json.Get(a, "publishedAt").value.Str?)
  {
    match (Json.Get(a, "title"), Json.Get(a, "url"), Json.GetPath(a, "source", "name"), Json.Get(a, "publishedAt"))
    case (Some(title), Some(url), Some(source), Some(Str(p))) => Some(NewsItem(title, url, source, PrefixTo(p, 10)))
    case _ => None
  }

  /** The whole comprehension: it raises as soon as one article does. */
  function ArticlesOf(articles: seq<Json.Value>): (items: Option<seq<NewsItem>>)
    ensures items.Some? <==> forall i :: 0 <= i < |articles| ==> ArticleOf(articles[i]).Some?
    ensures items.Some? ==> |items.value| == |articles|
    ensures items.Some? ==> forall i :: 0 <= i < |articles| ==> ArticleOf(articles[i]) == Some(items.value[i])
  {
    if articles == [] then Some([])
    else
      match (ArticlesOf(articles[..|articles| - 1]), ArticleOf(articles[|articles| - 1]))
      case (Some(init), Some(last)) => Some(init + [last])
      case _ => None
  }

  /** `fetch_news_results(query)` given the outcome of the NewsAPI request
      (`Ok(data)`: the decoded body; `Raised`: a failed request or a body that
      is not JSON). A malformed payload gives the empty list. */
  function FetchNewsResults(response: Result<Json.Value>): (items: seq<NewsItem>)
    ensures response.Raised? ==> items == []
    ensures items != [] ==>
              var articles := Json.Get(response.value, "articles");
              articles.Some? && articles.value.Array? && ArticlesOf(articles.value.items) == Some(items)
    ensures response.Ok? && Json.Get(response.value, "articles").Some? && Json.Get(response.value, "articles").value.Array? &&
            ArticlesOf(Json.Get(response.value, "articles").value.items).Some? ==>
              items == ArticlesOf(Json.Get(response.value, "articles").value.items).value
  {
    match response
    case Raised(_) => []
    case Ok(data) =>
      match Json.Get(data, "articles")
      case Some(Array(articles, _)) => ArticlesOf(articles).GetOr([])
      case _ => []
  }

  /** With an `articles` list in the answer, every article is kept, in order,
      when each has its fields; a single article missing one empties the
      result. */
  lemma FetchKeepsArticles(data: Json.Value, articles: seq<Json.Value>, shown: string)
    requires Json.Get(data, "articles") == Some(Json.Array(articles, shown))
    ensures (forall i :: 0 <= i < |articles| ==> ArticleOf(articles[i]).Some?) ==>
              |FetchNewsResults(Ok(data))| == |articles| &&
              forall i :: 0 <= i < |articles| ==> ArticleOf(articles[i]) == Some(FetchNewsResults(Ok(data))[i])
    ensures (exists i :: 0 <= i < |articles| && ArticleOf(articles[i]).None?) ==> FetchNewsResults(Ok(data)) == []
  {
  }

  function NoNewsReply(topic: string): string {
    "Sorry, I couldn't find recent news on **" + topic + "**."
  }

  function Header(topic: string): string {
    "\U{1F5DE}\U{FE0F} Top news for **" + topic + "**:\n\n"
  }

  /** The line added for one article. */
  function Bullet(a: NewsItem): (line: string)
    ensures |line| > 0 && line[|line| - 1] == '\n'
  {
    "\U{2022} [" + Json.Show(a.title) + "](" + Json.Show(a.url) + ") \U{2014} " + Json.Show(a.source) + " (" + a.published + ")\n"
  }

  /** The texts `line(x)` of the elements `x` of `xs`, one after another. */
  function Lines<T>(xs: seq<T>, line: T -> string): string {
    if xs == [] then "" else Lines(xs[..|xs| - 1], line) + line(xs[|xs| - 1])
  }

  /** The lines of `articles`, in order. */
  function Bullets(articles: seq<NewsItem>): string {
    Lines(articles, Bullet)
  }

  /** The reply `format_news_reply(articles, topic)` builds. */
  function NewsReply(articles: seq<NewsItem>, topic: string): string {
    if articles == [] then NoNewsReply(topic) else Header(topic) + Bullets(articles)
  }

  /** `format_news_reply`: the header, then one line per article appended in a loop. */
  method FormatNewsReply(articles: seq<NewsItem>, topic: string) returns (reply: string)
    ensures reply == NewsReply(articles, topic)
  {
    if |articles| == 0 {
      return NoNewsReply(topic);
    }
    reply := Header(topic);
    var i := 0;
    while i < |articles|
      invariant 0 <= i <= |articles|
      invariant reply == Header(topic) + Bullets(articles[..i])
    {
      assert articles[..i + 1][..i] == articles[..i];
      reply := reply + Bullet(articles[i]);
      i := i + 1;
    }
    assert articles[..i] == articles;
  }

  /** `handle_news_request`: the topic from the model, the articles for that
      topic, and their reply. `newsApi` is the NewsAPI request for a query. */
  method HandleNewsRequest(reply: Result<string>, newsApi: string -> Result<Json.Value>) returns (answer: string)
    ensures var topic := ExtractSearchQuery(reply);
            answer == NewsReply(FetchNewsResults(newsApi(topic)), topic)
  {
    var topic := ExtractSearchQuery(reply);
    var articles := FetchNewsResults(newsApi(topic));
    answer := FormatNewsReply(articles, topic);
  }

  /** The lines of two lists are the lines of the first followed by the
      lines of the second. */
  lemma {:induction false} LinesConcat<T>(a: seq<T>, b: seq<T>, line: T -> string)
    ensures Lines(a + b, line) == Lines(a, line) + Lines(b, line)
  {
    if b == [] {
      assert a + b == a;
    } else {
      var init := b[..|b| - 1];
      assert (a + b)[..|a + b| - 1] == a + init;
      LinesConcat(a, init, line);
    }
  }

  /** A non-empty reply is the header, the first article's line, then the rest,
      and it ends with a newline; an empty list gets the apology naming the
      topic. The reply is never empty. */
  lemma NewsReplyShape(articles: seq<NewsItem>, topic: string)
    ensures articles == [] ==> NewsReply(articles, topic) == NoNewsReply(topic)
    ensures articles != [] ==>
              NewsReply(articles, topic) == Header(topic) + Bullet(articles[0]) + Bullets(articles[1..])
    ensures var r := NewsReply(articles, topic);
            |r| > 0 && (articles != [] ==> r[|r| - 1] == '\n')
  {
    if articles != [] {
      LinesConcat([articles[0]], articles[1..], Bullet);
      assert [articles[0]] + articles[1..] == articles;
      assert Lines([articles[0]], Bullet) == Bullet(articles[0]);
    }
  }

  /** Without articles — a failed request, a malformed payload or an empty
      result — the reply is the apology for the extracted topic; if the model
      failed as well, that topic is "latest news". */
  lemma NothingFound(reply: Result<string>, newsApi: string -> Result<Json.Value>)
    requires FetchNewsResults(newsApi(ExtractSearchQuery(reply))) == []
    ensures NewsReply(FetchNewsResults(newsApi(ExtractSearchQuery(reply))), ExtractSearchQuery(reply))
              == "Sorry, I couldn't find recent news on **" + ExtractSearchQuery(reply) + "**."
    ensures reply.Raised? ==>
              NewsReply(FetchNewsResults(newsApi(ExtractSearchQuery(reply))), ExtractSearchQuery(reply))
                == "Sorry, I couldn't find recent news on **latest news**."
  {
  }
}
