/**
 * src/spacestop/ui/navigation.py: the YouTube link of a video entry, the
 * next/previous-day helpers, and the Previous/Next view that steps through
 * the feed one day at a time.
 */
module SpaceStopNavigation {
  import opened Wrappers
  import opened Dates
  import opened DateFormat
  import opened Exceptions
  import opened Upstream
  import opened Discord
  import opened PyStr
  import SpaceStopParser
  import opened SpaceStopArticle

  const WatchPrefix: string := "https://www.youtube.com/watch?v="

  /** `url.split('/')[-1].split('?')[0]`: the last path segment up to its query. */
  function VideoId(url: string): string {
    FirstPiece(LastPiece(url, '/'), '?')
  }

  /** `embed_to_video`: the watch link for an embed link. */
  function EmbedToVideo(url: string): string {
    WatchPrefix + VideoId(url)
  }

  /**
   * The watch link is the prefix and the id; the id holds neither '/' nor '?'; it
   * starts the last '/'-segment of the url and is all of it or is followed by '?';
   * and that segment ends the url and is all of it or follows a '/'.
   */
  lemma EmbedToVideoShape(url: string)
    ensures EmbedToVideo(url) == WatchPrefix + VideoId(url)
    ensures '/' !in VideoId(url) && '?' !in VideoId(url)
    ensures var segment := LastPiece(url, '/');
      && IsSuffix(segment, url) && (segment == url || url[|url| - |segment| - 1] == '/')
      && IsPrefix(VideoId(url), segment)
      && (VideoId(url) == segment || segment[|VideoId(url)|] == '?')
  {
    var segment := LastPiece(url, '/');
    LastPieceIsLongestSuffix(url, '/');
    FirstPieceIsLongestPrefix(segment, '?');
    var id := VideoId(url);
    assert '/' !in id by {
      forall i | 0 <= i < |id| ensures id[i] != '/' {
        assert id[i] == segment[i];
      }
    }
  }

  const BoundaryMessage: string := "You reached the latest/oldest of Astronomy Picture of the Day!"
  const OutOfRangeMessage: string := "date value out of range"
  const NoneHasNoSplit: string := "'NoneType' object has no attribute 'split'"

  /**
   * `calulate_next_day`: the next calendar day when it lies in [1995-06-16, today];
   * NotAValidDate when it lies outside; OverflowError past 9999-12-31.
   */
  function CalculateNextDay(d: Date, today: Date): (r: Result<Date, Raised>)
    ensures r.Success? <==> Successor(d).Some? && SpaceStopParser.IsValidDate(Successor(d).value, today)
    ensures r.Success? ==> r.value == Successor(d).value && Ordinal(r.value) == Ordinal(d) + 1
    ensures r.Failure? ==> r.error == (if Successor(d).None? then Raised(OverflowError, OutOfRangeMessage)
                                       else Raised(NotAValidDate, ""))
  {
    SuccessorOrdinal(d);
    match Successor(d)
    case None => Failure(Raised(OverflowError, OutOfRangeMessage))
    case Some(next) =>
      if SpaceStopParser.IsValidDate(next, today) then Success(next) else Failure(Raised(NotAValidDate, ""))
  }

  /**
   * `calculate_previous_day`: the previous calendar day when it lies in
   * [1995-06-16, today]; NotAValidDate when it lies outside; OverflowError before 0001-01-01.
   */
  function CalculatePreviousDay(d: Date, today: Date): (r: Result<Date, Raised>)
    ensures r.Success? <==> Predecessor(d).Some? && SpaceStopParser.IsValidDate(Predecessor(d).value, today)
    ensures r.Success? ==> r.value == Predecessor(d).value && Ordinal(r.value) == Ordinal(d) - 1
    ensures r.Failure? ==> r.error == (if Predecessor(d).None? then Raised(OverflowError, OutOfRangeMessage)
                                       else Raised(NotAValidDate, ""))
  {
    PredecessorOrdinal(d);
    match Predecessor(d)
    case None => Failure(Raised(OverflowError, OutOfRangeMessage))
    case Some(prev) =>
      if SpaceStopParser.IsValidDate(prev, today) then Success(prev) else Failure(Raised(NotAValidDate, ""))
  }

  /**
   * Stepping forward then back returns to the start, and so does stepping back then
   * forward; from a valid date the step back succeeds after every successful step forward.
   */
  lemma StepsRoundTrip(d: Date, today: Date)
    ensures CalculateNextDay(d, today).Success? && SpaceStopParser.IsValidDate(d, today) ==>
      CalculatePreviousDay(CalculateNextDay(d, today).value, today) == Success(d)
    ensures CalculatePreviousDay(d, today).Success? && SpaceStopParser.IsValidDate(d, today) ==>
      CalculateNextDay(CalculatePreviousDay(d, today).value, today) == Success(d)
    ensures CalculateNextDay(d, today).Success? && CalculatePreviousDay(CalculateNextDay(d, today).value, today).Success? ==>
      CalculatePreviousDay(CalculateNextDay(d, today).value, today).value == d
    ensures CalculatePreviousDay(d, today).Success? && CalculateNextDay(CalculatePreviousDay(d, today).value, today).Success? ==>
      CalculateNextDay(CalculatePreviousDay(d, today).value, today).value == d
  {
    StepRoundTrip(d);
  }

  /**
   * The ends of the feed: stepping back from 1995-06-16 and forward from today always
   * raise NotAValidDate, and a successful step lands inside the feed.
   */
  lemma StepBoundaries(d: Date, today: Date)
    ensures CalculatePreviousDay(FirstApod, today) == Failure(Raised(NotAValidDate, ""))
    ensures today != LastDate ==> CalculateNextDay(today, today) == Failure(Raised(NotAValidDate, ""))
    ensures CalculateNextDay(d, today).Success? ==> SpaceStopParser.IsValidDate(CalculateNextDay(d, today).value, today)
    ensures CalculatePreviousDay(d, today).Success? ==> SpaceStopParser.IsValidDate(CalculatePreviousDay(d, today).value, today)
  {
    SpaceStopParser.IsValidDateBoundaries(today);
    SuccessorOrdinal(today);
  }

  /** The record `get_specific_APOD(d)` returns, read by `parse_media_and_article_from`. */
  function FetchArticle(fetch: Params -> ApiReply, d: Date, apiKey: string): (r: Result<Article, Raised>)
    ensures fetch(SpaceStopParser.RequestParams(SpaceStopParser.GetSpecificApod(d, apiKey))).Fails? ==> r.Failure?
  {
    match fetch(SpaceStopParser.RequestParams(SpaceStopParser.GetSpecificApod(d, apiKey)))
    case Fails(e) => Failure(e)
    case Ok(Array(_)) => Failure(Raised(AttributeError, "'list' object has no attribute 'get'"))
    case Ok(Object(record)) => ParseMediaAndArticleFrom(record)
  }

  /** A record the service dated with the requested day is read back as that day. */
  lemma FetchArticleOfRequestedDate(fetch: Params -> ApiReply, d: Date, apiKey: string)
    requires var reply := fetch(SpaceStopParser.RequestParams(SpaceStopParser.GetSpecificApod(d, apiKey)));
      reply.Ok? && reply.json.Object? && "date" in reply.json.fields && reply.json.fields["date"] == FormatYmd(d)
    ensures FetchArticle(fetch, d, apiKey).Success? && FetchArticle(fetch, d, apiKey).value.date == d
  {
    ArticleOfRequestedDate(fetch(SpaceStopParser.RequestParams(SpaceStopParser.GetSpecificApod(d, apiKey))).json.fields, d);
  }

  /** What a Previous or Next press ends with. */
  datatype StepOutcome =
    | Shown(article: Article)   // the message was edited to show this article
    | Boundary                  // NotAValidDate: the ephemeral boundary message was sent
    | Escaped(error: Raised)    // an exception left the handler; nothing was sent

  /** The `discord.ui.Button(label="YouTube", url=embed_to_video(url))` of a video. */
  function YouTubeUrl(media: Media): Option<string> {
    if media.url.Some? then Some(EmbedToVideo(media.url.value)) else None
  }

  class Navigation {
    const previousButton: Button
    const nextButton: Button
    var date: Date
    var youtubeButton: Button?
    var children: seq<Button>
    var log: seq<Response>

    /**
     * The decorated Previous and Next buttons come first; a third child, if any,
     * is the button `youtube_button` refers to.
     */
    predicate Valid()
      reads this
    {
      && previousButton != nextButton
      && 2 <= |children| <= 3
      && children[0] == previousButton && children[1] == nextButton
      && (youtubeButton != null ==> youtubeButton != previousButton && youtubeButton != nextButton)
      && (|children| == 3 ==> youtubeButton != null && children[2] == youtubeButton)
    }

    /** Whether the view currently shows a YouTube button. */
    predicate HasYouTube()
      reads this
    {
      |children| == 3
    }

    /**
     * `Navigation(article)` once the button url is known: dated like the article,
     * with a YouTube button exactly when there is a url for one.
     */
    constructor (d: Date, videoUrl: Option<string>)
      ensures Valid() && fresh(previousButton) && fresh(nextButton)
      ensures date == d && log == []
      ensures HasYouTube() <==> videoUrl.Some?
      ensures HasYouTube() ==> fresh(children[2]) && children[2].caption == "YouTube" && children[2].url == videoUrl
      ensures forall b :: b in children ==> !b.disabled
    {
      previousButton := new Button("Previous", None);
      nextButton := new Button("Next", None);
      date := d;
      log := [];
      new;
      youtubeButton := null;
      children := [previousButton, nextButton];
      if videoUrl.Some? {
        var b := new Button("YouTube", videoUrl);
        youtubeButton := b;
        children := children + [b];
      }
    }

    /** `self.remove_item(self.youtube_button)`: only the Previous and Next buttons stay. */
    method DetachYouTube()
      requires Valid() && youtubeButton != null
      modifies this
      ensures Valid() && children == old(children[..2])
      ensures date == old(date) && youtubeButton == old(youtubeButton) && log == old(log)
    {
      if |children| == 3 {
        assert IndexOf(children, youtubeButton) == 2;
        assert children[..2] + children[3..] == children[..2];
      } else {
        assert youtubeButton !in children;
      }
      children := RemoveItem(children, youtubeButton);
    }

    /** `self.youtube_button = Button(...)` and `self.add_item(...)`: a new button at the end. */
    method AttachYouTube(url: Option<string>)
      requires Valid() && |children| == 2
      modifies this
      ensures Valid() && |children| == 3 && children[..2] == old(children)
      ensures fresh(children[2]) && children[2].caption == "YouTube" && children[2].url == url && !children[2].disabled
      ensures date == old(date) && log == old(log)
    {
      var b := new Button("YouTube", url);
      youtubeButton := b;
      children := children + [b];
    }

    /**
     * The buttons, the log and the outcome once `article` has been handled: a video
     * without a url is the AttributeError of `embed_to_video(None)`, raised after the
     * old YouTube button is gone; otherwise the view carries a fresh YouTube button
     * exactly for a video and the message is edited to the article's card.
     */
    twostate predicate ShowedArticle(article: Article, outcome: StepOutcome)
      reads this, children
    {
      && old(Valid()) && Valid()
      && children[..2] == old(children)[..2]
      && (article.media.IsVideo() && article.media.url.None? ==>
            outcome == Escaped(Raised(AttributeError, NoneHasNoSplit))
            && children == old(children)[..2] && log == old(log))
      && (!(article.media.IsVideo() && article.media.url.None?) ==>
            && outcome == Shown(article)
            && (HasYouTube() <==> article.media.IsVideo())
            && (HasYouTube() ==> fresh(children[2]) && children[2].url == YouTubeUrl(article.media)
                                 && children[2].caption == "YouTube" && !children[2].disabled)
            && log == old(log) + [EditMessage(CreateEmbedFrom(article), Snapshot(children))])
    }

    /**
     * After a day's article has been fetched and read: drop the old YouTube button,
     * add a new one if the article is a video, then edit the message.
     */
    method ShowArticle(article: Article) returns (outcome: StepOutcome)
      requires Valid()
      modifies this
      ensures date == old(date)
      ensures ShowedArticle(article, outcome)
    {
      if youtubeButton != null {
        DetachYouTube();
      }
      if article.media.IsVideo() {
        if article.media.url.None? {
          outcome := Escaped(Raised(AttributeError, NoneHasNoSplit));
          return;
        }
        AttachYouTube(YouTubeUrl(article.media));
      }
      var card := CreateEmbedFrom(article);
      var view := Snapshot(children);
      log := log + [EditMessage(card, view)];
      outcome := Shown(article);
    }

    /**
     * A press of Previous or Next that computed `step` from the date: NotAValidDate
     * sends the boundary message and keeps the date; any other step error escapes;
     * a good step moves the date BEFORE the fetch, so a failed fetch or read leaves
     * it moved and changes nothing else; a read article is handled as ShowedArticle says.
     */
    twostate predicate Stepped(step: Result<Date, Raised>, fetch: Params -> ApiReply, apiKey: string,
                               outcome: StepOutcome)
      reads this, children
    {
      && old(Valid()) && Valid()
      && (step.Failure? && step.error.cls == NotAValidDate ==>
            outcome == Boundary && date == old(date) && children == old(children)
            && log == old(log) + [Ephemeral(BoundaryMessage)])
      && (step.Failure? && step.error.cls != NotAValidDate ==>
            outcome == Escaped(step.error) && date == old(date) && children == old(children) && log == old(log))
      && (step.Success? ==> date == step.value)
      && (step.Success? && FetchArticle(fetch, step.value, apiKey).Failure? ==>
            outcome == Escaped(FetchArticle(fetch, step.value, apiKey).error)
            && children == old(children) && log == old(log))
      && (step.Success? && FetchArticle(fetch, step.value, apiKey).Success? ==>
            ShowedArticle(FetchArticle(fetch, step.value, apiKey).value, outcome))
    }

    /** The common body of `previous` and `next`, given the day `step` they computed. */
    method StepTo(step: Result<Date, Raised>, fetch: Params -> ApiReply, apiKey: string) returns (outcome: StepOutcome)
      requires Valid()
      modifies this
      ensures Stepped(step, fetch, apiKey, outcome)
    {
      if step.Failure? {
        if step.error.cls == NotAValidDate {
          log := log + [Ephemeral(BoundaryMessage)];
          outcome := Boundary;
        } else {
          outcome := Escaped(step.error);
        }
        return;
      }
      date := step.value;
      var fetched := FetchArticle(fetch, date, apiKey);
      if fetched.Failure? {
        outcome := Escaped(fetched.error);
        return;
      }
      outcome := ShowArticle(fetched.value);
    }

    /**
     * `previous`: the boundary message when the previous day is outside the feed;
     * otherwise the date moves back a day before the fetch and the article is shown.
     */
    method Previous(fetch: Params -> ApiReply, today: Date, apiKey: string) returns (outcome: StepOutcome)
      requires Valid()
      modifies this
      ensures Stepped(CalculatePreviousDay(old(date), today), fetch, apiKey, outcome)
      ensures outcome.Shown? ==> Ordinal(date) == Ordinal(old(date)) - 1 && outcome.article == FetchArticle(fetch, date, apiKey).value
    {
      var step := CalculatePreviousDay(date, today);
      outcome := StepTo(step, fetch, apiKey);
    }

    /**
     * `next`: the boundary message when the next day is outside the feed; otherwise
     * the date moves on a day before the fetch and the article is shown.
     */
    method Next(fetch: Params -> ApiReply, today: Date, apiKey: string) returns (outcome: StepOutcome)
      requires Valid()
      modifies this
      ensures Stepped(CalculateNextDay(old(date), today), fetch, apiKey, outcome)
      ensures outcome.Shown? ==> Ordinal(date) == Ordinal(old(date)) + 1 && outcome.article == FetchArticle(fetch, date, apiKey).value
    {
      var step := CalculateNextDay(date, today);
      outcome := StepTo(step, fetch, apiKey);
    }
  }

  /**
   * `Navigation(article)`: AttributeError when a video has no url to link to;
   * otherwise a view dated like the article with a YouTube button exactly for a video.
   */
  method OpenNavigation(article: Article) returns (r: Result<Navigation, Raised>)
    ensures article.media.IsVideo() && article.media.url.None? ==> r.Failure? && r.error.cls == AttributeError
    ensures !(article.media.IsVideo() && article.media.url.None?) ==>
      && r.Success? && fresh(r.value) && r.value.Valid()
      && r.value.date == article.date && r.value.log == []
      && (r.value.HasYouTube() <==> article.media.IsVideo())
      && (r.value.HasYouTube() ==> r.value.children[2].url == YouTubeUrl(article.media))
  {
    if article.media.IsVideo() && article.media.url.None? {
      return Failure(Raised(AttributeError, NoneHasNoSplit));
    }
    var view := new Navigation(article.date, if article.media.IsVideo() then YouTubeUrl(article.media) else None);
    r := Success(view);
  }
}
