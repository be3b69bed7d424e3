/**
 * `create_apod_embed` of spacestop/apod.py: the card made straight from a record
 * of the service, and how it compares with the card of src/spacestop/article.py.
 */
module ApodEmbed {
  import opened Wrappers
  import opened Dates
  import opened DateFormat
  import opened Exceptions
  import opened Upstream
  import opened Discord
  import opened SpaceStopArticle

  const MissingKeysMessage: string := "APOD data is missing required keys."

  /** The ValueError of `date.fromisoformat` for text it does not accept. */
  function InvalidIsoformat(text: string): Raised {
    Raised(ValueError, "Invalid isoformat string: '" + text + "'")
  }

  /**
   * `create_apod_embed`: ValueError when `date`, `title` or `explanation` is missing or
   * the date is not ISO text; otherwise a dark purple card with the title, the
   * explanation and the permalink; a Copyright field exactly when the copyright is
   * present and non-empty; the thumbnail for a video and `hdurl or url` as the image
   * for anything else; the date as the footer.
   */
  function CreateApodEmbed(r: Record): (res: Result<Card, Raised>)
    ensures res.Failure? <==> "date" !in r || "title" !in r || "explanation" !in r || ParseIso(r["date"]).None?
    ensures "date" !in r || "title" !in r || "explanation" !in r ==> res == Failure(Raised(ValueError, MissingKeysMessage))
    ensures res.Failure? ==> res.error.cls == ValueError
    ensures res.Success? ==>
      var c, d := res.value, ParseIso(r["date"]).value;
      && c.color == Some(DarkPurple) && c.title == Some(r["title"]) && c.description == Some(r["explanation"])
      && c.url == Some(Permalink(d))
      && c.footer == Some(FormatDayMonYear(d)) && c.author.None?
      && c.fields == (if Truthy(Get(r, "copyright")) then [Field("Copyright", r["copyright"], true)] else [])
      && (Get(r, "media_type") == Some("video") ==> c.thumbnail == Get(r, "thumbnail_url") && c.image.None?)
      && (Get(r, "media_type") != Some("video") ==> c.image == Or(Get(r, "hdurl"), Get(r, "url")) && c.thumbnail.None?)
  {
    if "date" !in r || "title" !in r || "explanation" !in r then Failure(Raised(ValueError, MissingKeysMessage))
    else
      match ParseIso(r["date"])
      case None => Failure(InvalidIsoformat(r["date"]))
      case Some(d) =>
        var card := NewCard(Some(r["title"]), Some(Permalink(d)), Some(r["explanation"]), Some(DarkPurple));
        var copyright := Get(r, "copyright");
        var card := if Truthy(copyright) then card.(fields := card.fields + [Field("Copyright", copyright.value, true)]) else card;
        var card := if Get(r, "media_type") == Some("video") then card.(thumbnail := Get(r, "thumbnail_url"))
                    else card.(image := Or(Get(r, "hdurl"), Get(r, "url")));
        Success(card.(footer := Some(FormatDayMonYear(d))))
  }

  /** The card of the record the service returned for date d shows d's permalink and day. */
  lemma ApodCardOfRequestedDate(r: Record, d: Date)
    requires "date" in r && r["date"] == FormatYmd(d) && "title" in r && "explanation" in r
    ensures CreateApodEmbed(r).Success?
    ensures CreateApodEmbed(r).value.url == Some(Permalink(d))
    ensures CreateApodEmbed(r).value.footer == Some(FormatDayMonYear(d))
  {
    ParseIsoFormatYmd(d);
  }

  /**
   * The two card makers agree on a well-formed record: the same title, description,
   * permalink and picture; the day this one writes as footer is the other's author
   * line. They differ in the copyright (a field here, a footer there) and in the
   * empty copyright, which only the other one shows.
   */
  lemma CardVariantsAgree(r: Record)
    requires "date" in r && "title" in r && "explanation" in r && ParseIso(r["date"]).Some?
    ensures CreateApodEmbed(r).Success? && ParseMediaAndArticleFrom(r).Success?
    ensures var mine, theirs := CreateApodEmbed(r).value, CreateEmbedFrom(ParseMediaAndArticleFrom(r).value);
      && mine.title == theirs.title && mine.description == theirs.description && mine.url == theirs.url
      && mine.image == theirs.image && mine.thumbnail == theirs.thumbnail
      && mine.footer == theirs.author
      && (Get(r, "copyright") == Some("") ==> mine.fields == [] && theirs.footer.Some?)
  {
    ArticleOfIsoDate(r);
  }
}
