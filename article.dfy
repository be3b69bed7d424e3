/**
 * src/spacestop/article.py: a record of the service read into a `Media` and an
 * `Article`, and the card made from an article.
 */
module SpaceStopArticle {
  import opened Wrappers
  import opened Dates
  import opened DateFormat
  import opened Exceptions
  import opened Upstream
  import opened Discord
  import SpaceStopParser

  /** `Media`: its type and urls as the record gave them (None where a field was absent). */
  datatype Media = Media(kind: Option<string>, url: Option<string>, thumbnailUrl: Option<string>, copyright: Option<string>)
  {
    predicate IsVideo() { kind == Some("video") }
    predicate IsImage() { kind == Some("image") }
    predicate HasCopyright() { copyright.Some? }
  }

  /** A media entry is never both a video and an image; an unknown or absent type is neither. */
  lemma MediaKinds(m: Media)
    ensures !(m.IsVideo() && m.IsImage())
    ensures m.kind.None? || (m.kind.value != "video" && m.kind.value != "image") ==> !m.IsVideo() && !m.IsImage()
    ensures m.HasCopyright() <==> m.copyright != None
  {
  }

  datatype Article = Article(title: Option<string>, content: Option<string>, media: Media, date: Date)

  const DateFormatMismatch: string := "time data does not match format '%Y-%m-%d'"
  const DateNotAString: string := "strptime() argument 1 must be str, not None"

  /**
   * `parse_media_and_article_from`: the media url is `hdurl or url`; the date goes
   * through `strptime(..., "%Y-%m-%d")`, which raises TypeError when the record has
   * no date and ValueError when the text does not match.
   */
  function ParseMediaAndArticleFrom(r: Record): (res: Result<Article, Raised>)
    ensures res.Failure? <==> "date" !in r || ParseStrptime(r["date"]).None?
    ensures "date" !in r ==> res == Failure(Raised(TypeError, DateNotAString))
    ensures "date" in r && ParseStrptime(r["date"]).None? ==> res == Failure(Raised(ValueError, DateFormatMismatch))
    ensures res.Success? ==>
      var a := res.value;
      && a.date == ParseStrptime(r["date"]).value
      && a.title == Get(r, "title") && a.content == Get(r, "explanation")
      && a.media.kind == Get(r, "media_type")
      && a.media.thumbnailUrl == Get(r, "thumbnail_url") && a.media.copyright == Get(r, "copyright")
      && a.media.url == (if Truthy(Get(r, "hdurl")) then Get(r, "hdurl") else Get(r, "url"))
  {
    var media := Media(SpaceStopParser.GetMediaType(r),
                       Or(SpaceStopParser.GetHdurl(r), SpaceStopParser.GetUrl(r)),
                       SpaceStopParser.GetThumbnailUrl(r),
                       SpaceStopParser.GetCopyright(r));
    match SpaceStopParser.GetDate(r)
    case None => Failure(Raised(TypeError, DateNotAString))
    case Some(text) =>
      match ParseStrptime(text)
      case None => Failure(Raised(ValueError, DateFormatMismatch))
      case Some(d) =>
        Success(Article(SpaceStopParser.GetTitle(r), SpaceStopParser.GetExplanation(r), media, d))
  }

  /**
   * A record dated with the text `get_data` sent for d (`%Y-%m-%d`) parses, and its
   * article carries d itself.
   */
  lemma ArticleOfRequestedDate(r: Record, d: Date)
    requires "date" in r && r["date"] == FormatYmd(d)
    ensures ParseMediaAndArticleFrom(r).Success?
    ensures ParseMediaAndArticleFrom(r).value.date == d
  {
    ParseStrptimeFormatYmd(d);
  }

  /** The service's own ISO dates always parse, to the date fromisoformat would give. */
  lemma ArticleOfIsoDate(r: Record)
    requires "date" in r && ParseIso(r["date"]).Some?
    ensures ParseMediaAndArticleFrom(r).Success?
    ensures ParseMediaAndArticleFrom(r).value.date == ParseIso(r["date"]).value
  {
    ParseStrptimeAcceptsIso(r["date"]);
  }

  /** `f"https://apod.nasa.gov/apod/ap{d.strftime('%y%m%d')}.html"`. */
  function Permalink(d: Date): (s: string)
    ensures |s| == |"https://apod.nasa.gov/apod/ap"| + 6 + |".html"|
  {
    "https://apod.nasa.gov/apod/ap" + FormatYymmdd(d) + ".html"
  }

  /**
   * Two dates share a permalink exactly when they agree on day, month and year
   * modulo 100; so within one century (the feed's 1995 to 2094) it names one date.
   */
  lemma PermalinkNamesDate(a: Date, b: Date)
    ensures Permalink(a) == Permalink(b) <==> a.year % 100 == b.year % 100 && a.month == b.month && a.day == b.day
    ensures 1995 <= a.year <= 2094 && 1995 <= b.year <= 2094 ==> (Permalink(a) == Permalink(b) <==> a == b)
  {
    var prefix, suffix := "https://apod.nasa.gov/apod/ap", ".html";
    FormatYymmddDigits(a, b);
    if Permalink(a) == Permalink(b) {
      assert FormatYymmdd(a) == Permalink(a)[|prefix|..|prefix| + 6];
      assert FormatYymmdd(b) == Permalink(b)[|prefix|..|prefix| + 6];
    }
  }

  const CopyrightPrefix: string := "Image Credit & Copyright: "

  /**
   * `create_embed_from`: title, description and permalink; the date as the author
   * line; a video shows its thumbnail and everything else its media url as the
   * image; a copyright footer exactly when the media has a copyright.
   */
  function CreateEmbedFrom(a: Article): (c: Card)
    ensures c.title == a.title && c.description == a.content && c.color.None? && c.fields == []
    ensures c.url == Some(Permalink(a.date))
    ensures c.author == Some(FormatDayMonYear(a.date))
    ensures a.media.IsVideo() ==> c.thumbnail == a.media.thumbnailUrl && c.image.None?
    ensures !a.media.IsVideo() ==> c.image == a.media.url && c.thumbnail.None?
    ensures c.footer.Some? <==> a.media.HasCopyright()
    ensures a.media.HasCopyright() ==> c.footer.value == CopyrightPrefix + a.media.copyright.value
  {
    var card := NewCard(a.title, Some(Permalink(a.date)), a.content, None);
    var card := card.(author := Some(FormatDayMonYear(a.date)));
    var card := if a.media.IsVideo() then card.(thumbnail := a.media.thumbnailUrl) else card.(image := a.media.url);
    if a.media.HasCopyright() then card.(footer := Some(CopyrightPrefix + a.media.copyright.value)) else card
  }

  /** The author line names the article's date: two cards with the same author line show the same day. */
  lemma CardNamesDate(a: Article, b: Article)
    ensures CreateEmbedFrom(a).author == CreateEmbedFrom(b).author <==> a.date == b.date
  {
    if CreateEmbedFrom(a).author == CreateEmbedFrom(b).author {
      FormatDayMonYearInjective(a.date, b.date);
    }
  }

  /**
   * The card for the record fetched for date d: its permalink and author line are
   * those of d, and its media follows the record's type.
   */
  lemma CardOfRequestedDate(r: Record, d: Date)
    requires "date" in r && r["date"] == FormatYmd(d)
    ensures ParseMediaAndArticleFrom(r).Success?
    ensures var c := CreateEmbedFrom(ParseMediaAndArticleFrom(r).value);
      && c.url == Some(Permalink(d))
      && c.author == Some(FormatDayMonYear(d))
      && (Get(r, "media_type") == Some("video") ==> c.thumbnail == Get(r, "thumbnail_url"))
      && (Get(r, "media_type") != Some("video") ==> c.image == Or(Get(r, "hdurl"), Get(r, "url")))
  {
    ArticleOfRequestedDate(r, d);
  }
}
