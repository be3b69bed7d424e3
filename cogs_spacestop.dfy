/**
 * src/cogs/spacestop.py: the prefix-command cog. An `Article` is read from the
 * service through the `apod_object_parser` helpers, shown as a card, and followed
 * by the raw link when it is a video.
 */
module CogsSpaceStop {
  import opened Wrappers
  import opened Dates
  import opened DateFormat
  import opened Exceptions
  import opened Upstream
  import opened Discord
  import SpaceStopParser
  import SpaceStopArticle

  /** `Media(type, url)`. */
  datatype Media = Media(kind: string, url: Option<string>)
  {
    predicate IsVideo() { kind == "video" }
    predicate IsImage() { kind == "image" }
  }

  /** `Article(title, description, content, date, copyright)`. */
  datatype Article = Article(title: Option<string>, description: Option<string>, content: Media,
                             date: Date, copyright: Option<string>)

  /** `repr` of the key `MEDIA_PARSER` was indexed with, as a KeyError shows it. */
  function KeyRepr(kind: Option<string>): string {
    if kind.Some? then "'" + kind.value + "'" else "None"
  }

  /**
   * `MEDIA_PARSER[media_type](response)`: an image takes its `hdurl`, a video its
   * `url`; any other type, an absent one included, is a KeyError.
   */
  function MediaParser(kind: Option<string>, r: Record): (res: Result<Option<string>, Raised>)
    ensures res.Success? <==> kind == Some("image") || kind == Some("video")
    ensures res.Failure? ==> res.error == Raised(KeyError, KeyRepr(kind))
  {
    if kind == Some("image") then Success(SpaceStopParser.GetHdurl(r))
    else if kind == Some("video") then Success(SpaceStopParser.GetUrl(r))
    else Failure(Raised(KeyError, KeyRepr(kind)))
  }

  /**
   * The fields of `Article.from_data` once the response is one record: the media
   * lookup fails first, then `strptime` on the date.
   */
  function FromRecord(r: Record): (res: Result<Article, Raised>)
    ensures res.Success? <==> MediaParser(Get(r, "media_type"), r).Success? && "date" in r && ParseStrptime(r["date"]).Some?
    ensures MediaParser(Get(r, "media_type"), r).Failure? ==> res == Failure(MediaParser(Get(r, "media_type"), r).error)
    ensures MediaParser(Get(r, "media_type"), r).Success? && "date" !in r ==>
      res == Failure(Raised(TypeError, SpaceStopArticle.DateNotAString))
    ensures MediaParser(Get(r, "media_type"), r).Success? && "date" in r && ParseStrptime(r["date"]).None? ==>
      res == Failure(Raised(ValueError, SpaceStopArticle.DateFormatMismatch))
    ensures res.Success? ==>
      var a := res.value;
      && a.title == Get(r, "title") && a.description == Get(r, "explanation") && a.copyright == Get(r, "copyright")
      && Some(a.content.kind) == Get(r, "media_type")
      && (a.content.IsImage() ==> a.content.url == Get(r, "hdurl"))
      && (a.content.IsVideo() ==> a.content.url == Get(r, "url"))
      && a.date == ParseStrptime(r["date"]).value
  {
    var kind := SpaceStopParser.GetMediaType(r);
    match MediaParser(kind, r)
    case Failure(e) => Failure(e)
    case Success(url) =>
      match SpaceStopParser.GetDate(r)
      case None => Failure(Raised(TypeError, SpaceStopArticle.DateNotAString))
      case Some(text) =>
        match ParseStrptime(text)
        case None => Failure(Raised(ValueError, SpaceStopArticle.DateFormatMismatch))
        case Some(d) =>
          Success(Article(SpaceStopParser.GetTitle(r), SpaceStopParser.GetExplanation(r), Media(kind.value, url),
                          d, SpaceStopParser.GetCopyright(r)))
  }

  /** `Article.from_data`: a list is cut down to its first record (IndexError when empty). */
  function FromData(data: ApiReply): Result<Article, Raised> {
    match data
    case Fails(e) => Failure(e)
    case Ok(Array(items)) => if items == [] then Failure(Raised(IndexError, "list index out of range")) else FromRecord(items[0])
    case Ok(Object(r)) => FromRecord(r)
  }

  /** A list response reads exactly like its first record would on its own; only the empty list fails for being a list. */
  lemma FromDataFirstOfList(items: seq<Record>)
    ensures items != [] ==> FromData(Ok(Array(items))) == FromData(Ok(Object(items[0])))
    ensures items == [] <==> FromData(Ok(Array(items))) == Failure(Raised(IndexError, "list index out of range"))
  {
  }

  /**
   * `as_embed`: title and description, the date as the author line, the media url as
   * image only for an image, and a copyright footer only for a non-empty copyright.
   */
  function AsEmbed(a: Article): (c: Card)
    ensures c.title == a.title && c.description == a.description
    ensures c.url.None? && c.color.None? && c.thumbnail.None? && c.fields == []
    ensures c.author == Some(FormatDayMonYear(a.date))
    ensures c.image == (if a.content.IsImage() then a.content.url else None)
    ensures c.footer.Some? <==> Truthy(a.copyright)
    ensures Truthy(a.copyright) ==> c.footer.value == SpaceStopArticle.CopyrightPrefix + a.copyright.value
  {
    var card := NewCard(a.title, None, a.description, None).(author := Some(FormatDayMonYear(a.date)));
    var card := if a.content.IsImage() then card.(image := a.content.url) else card;
    if Truthy(a.copyright) then card.(footer := Some(SpaceStopArticle.CopyrightPrefix + a.copyright.value)) else card
  }

  /** Two cards with the same author line show the same day. */
  lemma AsEmbedNamesDate(a: Article, b: Article)
    ensures AsEmbed(a).author == AsEmbed(b).author <==> a.date == b.date
  {
    if AsEmbed(a).author == AsEmbed(b).author {
      FormatDayMonYearInjective(a.date, b.date);
    }
  }

  /** A message sent to the channel: a card, or plain text (`content=`). */
  datatype Message = CardMessage(card: Card) | TextMessage(content: Option<string>)

  /** `send`: the card, then the media url as a second message exactly for a video. */
  function Send(a: Article): (ms: seq<Message>)
    ensures |ms| >= 1 && ms[0] == CardMessage(AsEmbed(a))
    ensures |ms| == 2 <==> a.content.IsVideo()
    ensures |ms| == 2 ==> ms[1] == TextMessage(a.content.url)
  {
    [CardMessage(AsEmbed(a))] + if a.content.IsVideo() then [TextMessage(a.content.url)] else []
  }

  /** The messages of a command: nothing when it ends without sending, an error when one escapes. */
  function Respond(article: Result<Article, Raised>): Result<seq<Message>, Raised> {
    if article.Failure? then Failure(article.error) else Success(Send(article.value))
  }

  /** `today`: only the key is sent. */
  function Today(apiKey: string, fetch: Params -> ApiReply): Result<seq<Message>, Raised> {
    Respond(FromData(fetch(map["api_key" := Str(apiKey)])))
  }

  /** `random`: one random picture. */
  function Random(apiKey: string, fetch: Params -> ApiReply): Result<seq<Message>, Raised> {
    Respond(FromData(fetch(map["api_key" := Str(apiKey), "count" := Int(1)])))
  }

  /** The parameters `get_date` sends for d: the key and d as `%Y-%m-%d` text. */
  function DateParams(apiKey: string, d: Date): Params {
    map["api_key" := Str(apiKey), "date" := Str(FormatYmd(d))]
  }

  /**
   * `get_date`: numbers that name no date raise ValueError; a date between the first
   * picture and today is fetched and sent; any other date is ignored.
   */
  function GetDate(day: int, month: int, year: int, today: Date, apiKey: string, fetch: Params -> ApiReply)
    : Result<seq<Message>, Raised>
  {
    match FromYmd(year, month, day)
    case None => Failure(DateConstructorError(year, month, day))
    case Some(d) =>
      if SpaceStopParser.IsValidDate(d, today) then Respond(FromData(fetch(DateParams(apiKey, d))))
      else Success([])
  }

  /**
   * The date gate: `get_date` stays silent exactly for a real date outside the
   * picture range, and otherwise answers with the fetched article for that date.
   */
  lemma GetDateGate(day: int, month: int, year: int, today: Date, apiKey: string, fetch: Params -> ApiReply)
    ensures GetDate(day, month, year, today, apiKey, fetch) == Success([]) <==>
      FromYmd(year, month, day).Some? && !SpaceStopParser.IsValidDate(FromYmd(year, month, day).value, today)
    ensures FromYmd(year, month, day).Some? && SpaceStopParser.IsValidDate(FromYmd(year, month, day).value, today) ==>
      GetDate(day, month, year, today, apiKey, fetch) ==
      Respond(FromData(fetch(DateParams(apiKey, FromYmd(year, month, day).value))))
  {
    if FromYmd(year, month, day).Some? {
      var d := FromYmd(year, month, day).value;
      if SpaceStopParser.IsValidDate(d, today) {
        var sent := Respond(FromData(fetch(DateParams(apiKey, d))));
        assert sent.Success? ==> |sent.value| >= 1;
      }
    }
  }

  /** A record the service dated with the requested day is shown under that day. */
  lemma GetDateShowsThatDay(d: Date, today: Date, apiKey: string, fetch: Params -> ApiReply, r: Record)
    requires SpaceStopParser.IsValidDate(d, today)
    requires fetch(DateParams(apiKey, d)) == Ok(Object(r))
    requires "date" in r && r["date"] == FormatYmd(d) && (Get(r, "media_type") == Some("image") || Get(r, "media_type") == Some("video"))
    ensures GetDate(d.day, d.month, d.year, today, apiKey, fetch).Success?
    ensures GetDate(d.day, d.month, d.year, today, apiKey, fetch).value[0].card.author == Some(FormatDayMonYear(d))
  {
    ParseStrptimeFormatYmd(d);
    assert FromYmd(d.year, d.month, d.day) == Some(d);
  }

  /**
   * The two `Article` readers agree on what they both accept: the same date and, for
   * a picture with an `hdurl`, the same image. This one refuses media types the
   * other takes, and shows no image where only a plain `url` is given.
   */
  lemma CogAndArticleAgree(r: Record)
    requires FromRecord(r).Success?
    ensures SpaceStopArticle.ParseMediaAndArticleFrom(r).Success?
    ensures var mine, theirs := FromRecord(r).value, SpaceStopArticle.ParseMediaAndArticleFrom(r).value;
      && mine.date == theirs.date && mine.title == theirs.title
      && AsEmbed(mine).author == SpaceStopArticle.CreateEmbedFrom(theirs).author
      && (mine.content.IsImage() && Truthy(Get(r, "hdurl")) ==>
            AsEmbed(mine).image == SpaceStopArticle.CreateEmbedFrom(theirs).image)
      && (mine.content.IsImage() && "hdurl" !in r ==> AsEmbed(mine).image.None?)
  {
  }
}
