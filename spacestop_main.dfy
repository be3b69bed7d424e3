/**
 * src/spacestop/__main__.py: the slash-command cog built on src/spacestop/parser.py
 * and src/spacestop/article.py. Every answer is a card together with a view made
 * from the same article.
 */
module SpaceStopMain {
  import opened Wrappers
  import opened Dates
  import opened DateFormat
  import opened Exceptions
  import opened Upstream
  import opened Discord
  import SpaceStopParser
  import opened SpaceStopArticle

  /** How a command ended: silent, or a card sent with a view made from `viewOf`. */
  datatype Reply = Silent | SentWithView(card: Card, viewOf: Article)

  /** `parse_media_and_article_from(data=...)` of a reply that should be one record. */
  function ReadArticle(data: ApiReply): Result<Article, Raised> {
    match data
    case Fails(e) => Failure(e)
    case Ok(Array(_)) => Failure(Raised(AttributeError, "'list' object has no attribute 'get'"))
    case Ok(Object(r)) => ParseMediaAndArticleFrom(r)
  }

  /** `send_message(embed=create_embed_from(article), view=Navigation(article))`. */
  function Show(article: Result<Article, Raised>): Result<Reply, Raised> {
    if article.Failure? then Failure(article.error) else Success(SentWithView(CreateEmbedFrom(article.value), article.value))
  }

  /** `today`: `get_today_APOD()` read as one record. */
  function Today(apiKey: string, fetch: Params -> ApiReply): Result<Reply, Raised> {
    Show(ReadArticle(fetch(SpaceStopParser.RequestParams(SpaceStopParser.GetTodayApod(apiKey)))))
  }

  /** `random`: element `[0]` of `get_random_APOD(count=1)`. */
  function Random(apiKey: string, fetch: Params -> ApiReply): Result<Reply, Raised> {
    match fetch(SpaceStopParser.RequestParams(SpaceStopParser.GetRandomApod(1, apiKey)))
    case Fails(e) => Failure(e)
    case Ok(Array(items)) =>
      if items == [] then Failure(Raised(IndexError, "list index out of range"))
      else Show(ParseMediaAndArticleFrom(items[0]))
    case Ok(Object(_)) => Failure(Raised(KeyError, "0"))
  }

  /** `get_date`: a real date in the picture range is fetched and shown; any other is ignored. */
  function GetDate(day: int, month: int, year: int, today: Date, apiKey: string, fetch: Params -> ApiReply)
    : Result<Reply, Raised>
  {
    match FromYmd(year, month, day)
    case None => Failure(DateConstructorError(year, month, day))
    case Some(d) =>
      if SpaceStopParser.IsValidDate(d, today) then
        Show(ReadArticle(fetch(SpaceStopParser.RequestParams(SpaceStopParser.GetSpecificApod(d, apiKey)))))
      else Success(Silent)
  }

  /**
   * Whatever a command sends, the card and the view show one and the same article:
   * the card's author line is the view's date and its link is that date's permalink.
   */
  lemma CardAndViewAgree(apiKey: string, fetch: Params -> ApiReply, day: int, month: int, year: int, today: Date)
    ensures forall res :: (res in {Today(apiKey, fetch), Random(apiKey, fetch), GetDate(day, month, year, today, apiKey, fetch)}
                           && res.Success? && res.value.SentWithView?) ==>
      && res.value.card.author == Some(FormatDayMonYear(res.value.viewOf.date))
      && res.value.card.url == Some(Permalink(res.value.viewOf.date))
  {
  }

  /** `today` and `random` always answer with a card or raise: they are never silent. */
  lemma OnlyGetDateIsSilent(apiKey: string, fetch: Params -> ApiReply)
    ensures Today(apiKey, fetch) != Success(Silent) && Random(apiKey, fetch) != Success(Silent)
  {
  }

  /** `random` reads the first record of the list it gets, and requests one picture with thumbnails. */
  lemma RandomReadsFirst(apiKey: string, fetch: Params -> ApiReply, items: seq<Record>)
    requires fetch(map["api_key" := Str(apiKey), "count" := Int(1), "thumbs" := Bool(true)]) == Ok(Array(items))
    requires items != []
    ensures Random(apiKey, fetch) == Show(ParseMediaAndArticleFrom(items[0]))
  {
  }

  /**
   * The validity gate of `get_date`: silent exactly for a real date outside the
   * picture range; otherwise the specific picture of that date is requested.
   */
  lemma GetDateGate(day: int, month: int, year: int, today: Date, apiKey: string, fetch: Params -> ApiReply)
    ensures GetDate(day, month, year, today, apiKey, fetch) == Success(Silent) <==>
      FromYmd(year, month, day).Some? && !SpaceStopParser.IsValidDate(FromYmd(year, month, day).value, today)
    ensures FromYmd(year, month, day).None? ==> GetDate(day, month, year, today, apiKey, fetch).Failure?
  {
    if FromYmd(year, month, day).Some? {
      var d := FromYmd(year, month, day).value;
      if SpaceStopParser.IsValidDate(d, today) {
        var shown := Show(ReadArticle(fetch(SpaceStopParser.RequestParams(SpaceStopParser.GetSpecificApod(d, apiKey)))));
        assert shown.Success? ==> shown.value.SentWithView?;
      }
    }
  }

  /** A record the service dated with the requested day is shown, card and view, under that day. */
  lemma GetDateShowsThatDay(d: Date, today: Date, apiKey: string, fetch: Params -> ApiReply)
    requires SpaceStopParser.IsValidDate(d, today)
    requires var reply := fetch(map["api_key" := Str(apiKey), "date" := Str(FormatYmd(d)), "thumbs" := Bool(true)]);
      reply.Ok? && reply.json.Object? && "date" in reply.json.fields && reply.json.fields["date"] == FormatYmd(d)
    ensures GetDate(d.day, d.month, d.year, today, apiKey, fetch).Success?
    ensures var reply := GetDate(d.day, d.month, d.year, today, apiKey, fetch).value;
      reply.SentWithView? && reply.viewOf.date == d && reply.card.author == Some(FormatDayMonYear(d))
  {
    assert FromYmd(d.year, d.month, d.day) == Some(d);
    var r := fetch(map["api_key" := Str(apiKey), "date" := Str(FormatYmd(d)), "thumbs" := Bool(true)]).json.fields;
    ArticleOfRequestedDate(r, d);
  }
}
