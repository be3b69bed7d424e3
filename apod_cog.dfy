/**
 * spacestop/apod.py: the Previous/Next view built on the client of nasa/apod.py,
 * its timeout, and the cog command that answers `/today`, `/random` and `/date`.
 */
module ApodCog {
  import opened Wrappers
  import opened Dates
  import opened DateFormat
  import opened Exceptions
  import opened Upstream
  import opened Discord
  import NasaApod
  import opened ApodEmbed

  /** `super().__init__(timeout=15)`: seconds of inactivity before `on_timeout`. */
  const TimeoutSeconds: int := 15

  const NoneHasNoEdit: string := "'NoneType' object has no attribute 'edit'"
  const ListHasNoGet: string := "'list' object has no attribute 'get'"

  /** The two directions of `fetch_and_display_new_apod`: `prev` passes -1 and `next` passes +1. */
  datatype Direction = Earlier | Later
  {
    function Days(): int { if this == Earlier then -1 else 1 }
  }

  /** `self.apod_date += timedelta(days=...)`: None is the OverflowError at either end of the calendar. */
  function Shift(d: Date, dir: Direction): (r: Option<Date>)
    ensures r.Some? ==> Ordinal(r.value) == Ordinal(d) + dir.Days()
    ensures r.None? <==> (dir == Earlier && d == FirstDate) || (dir == Later && d == LastDate)
  {
    SuccessorOrdinal(d);
    PredecessorOrdinal(d);
    assert FirstDate.year != LastDate.year;
    assert dir.Days() == if dir == Earlier then -1 else 1;
    if dir == Earlier then Predecessor(d) else Successor(d)
  }

  /** What a Previous or Next press ends with. */
  datatype NavOutcome =
    | Shown(card: Card)         // the message was edited to show this card
    | RolledBack(text: string)  // DateOutOfRangeError: date restored, ephemeral text sent
    | Escaped(error: Raised)    // an exception left the handler; nothing was sent

  class Navigation {
    const client: NasaApod.Client
    const previousButton: Button
    const nextButton: Button
    var apodDate: Date
    var youtubeButton: Button?
    var children: seq<Button>
    var messageBound: bool   // `self.message` has been set
    var log: seq<Response>

    /** Previous and Next come first; a third child, if any, is the one `youtube_button` refers to. */
    predicate Valid()
      reads this
    {
      && previousButton != nextButton
      && 2 <= |children| <= 3
      && children[0] == previousButton && children[1] == nextButton
      && (youtubeButton != null ==> youtubeButton != previousButton && youtubeButton != nextButton)
      && (|children| == 3 ==> youtubeButton != null && children[2] == youtubeButton)
    }

    predicate HasYouTube()
      reads this
    {
      |children| == 3
    }

    /** `Navigation(apod_client, apod_date)`: no YouTube button and no bound message yet. */
    constructor (client: NasaApod.Client, d: Date)
      ensures Valid() && fresh(previousButton) && fresh(nextButton)
      ensures this.client == client && apodDate == d && !HasYouTube() && youtubeButton == null
      ensures !messageBound && log == []
      ensures forall b :: b in children ==> !b.disabled
    {
      this.client := client;
      previousButton := new Button("Previous", None);
      nextButton := new Button("Next", None);
      apodDate := d;
      youtubeButton := null;
      messageBound := false;
      log := [];
      new;
      children := [previousButton, nextButton];
    }

    /** `self.remove_item(self.youtube_button)`: only the Previous and Next buttons stay. */
    method DetachYouTube()
      requires Valid() && youtubeButton != null
      modifies this
      ensures Valid() && children == old(children[..2])
      ensures apodDate == old(apodDate) && youtubeButton == old(youtubeButton)
      ensures messageBound == old(messageBound) && log == old(log)
    {
      if |children| == 3 {
        assert IndexOf(children, youtubeButton) == 2;
        assert children[..2] + children[3..] == children[..2];
      } else {
        assert youtubeButton !in children;
      }
      children := RemoveItem(children, youtubeButton);
    }

    /** `self.youtube_button = Button(..., url=url)` and `self.add_item(...)`. */
    method AttachYouTube(url: string)
      requires Valid() && |children| == 2
      modifies this
      ensures Valid() && |children| == 3 && children[..2] == old(children)
      ensures fresh(children[2]) && children[2].caption == "YouTube" && children[2].url == Some(url)
      ensures !children[2].disabled
      ensures apodDate == old(apodDate) && messageBound == old(messageBound) && log == old(log)
    {
      var b := new Button("YouTube", Some(url));
      youtubeButton := b;
      children := children + [b];
    }

    /** `nav_view.message = await interaction.original_response()`. */
    method BindMessage()
      requires Valid()
      modifies this
      ensures Valid() && messageBound
      ensures apodDate == old(apodDate) && children == old(children) && youtubeButton == old(youtubeButton)
      ensures log == old(log)
    {
      messageBound := true;
    }

    /**
     * For a video record: the old YouTube button goes, and a new one linking the
     * record's `url` comes in; false when the record has no `url` (the KeyError),
     * which leaves only Previous and Next.
     */
    method SwapYouTube(r: Record) returns (linked: bool)
      requires Valid()
      modifies this
      ensures Valid() && apodDate == old(apodDate) && messageBound == old(messageBound) && log == old(log)
      ensures linked <==> "url" in r
      ensures !linked ==> children == old(children[..2])
      ensures linked ==>
        && HasYouTube() && children[..2] == old(children[..2])
        && fresh(children[2]) && children[2].url == Some(r["url"]) && !children[2].disabled
    {
      if youtubeButton != null {
        DetachYouTube();
      }
      if "url" !in r {
        return false;
      }
      AttachYouTube(r["url"]);
      linked := true;
    }

    /** `await self.message.edit(embed=..., view=self)` with the card of r, or the card maker's error. */
    method EditWith(r: Record) returns (outcome: NavOutcome)
      requires Valid()
      modifies this
      ensures Valid() && apodDate == old(apodDate) && messageBound == old(messageBound)
      ensures children == old(children) && youtubeButton == old(youtubeButton)
      ensures CreateApodEmbed(r).Failure? ==> outcome == Escaped(CreateApodEmbed(r).error) && log == old(log)
      ensures CreateApodEmbed(r).Success? ==>
        outcome == Shown(CreateApodEmbed(r).value) && log == old(log) + [EditMessage(CreateApodEmbed(r).value, Snapshot(children))]
    {
      var made := CreateApodEmbed(r);
      if made.Failure? {
        outcome := Escaped(made.error);
        return;
      }
      var view := Snapshot(children);
      log := log + [EditMessage(made.value, view)];
      outcome := Shown(made.value);
    }

    /**
     * The buttons, the log and the outcome once record r came back: a video swaps the
     * YouTube button for a fresh one linking the record's `url` (KeyError when it has
     * none, after the old button is gone); any other media keeps the buttons as they
     * were, so a button from an earlier video stays. Then the message is edited to
     * the record's card, unless the card maker raises.
     */
    twostate predicate ShowedRecord(r: Record, outcome: NavOutcome)
      reads this, children
    {
      && old(Valid()) && Valid() && messageBound == old(messageBound)
      && !outcome.RolledBack?
      && (Get(r, "media_type") != Some("video") ==>
            children == old(children) && youtubeButton == old(youtubeButton))
      && (Get(r, "media_type") == Some("video") && "url" !in r ==>
            outcome == Escaped(Raised(KeyError, "'url'")) && children == old(children)[..2] && log == old(log))
      && (Get(r, "media_type") == Some("video") && "url" in r ==>
            && HasYouTube() && children[..2] == old(children)[..2]
            && fresh(children[2]) && children[2].url == Some(r["url"]) && !children[2].disabled)
      && (!(Get(r, "media_type") == Some("video") && "url" !in r) ==>
            && (CreateApodEmbed(r).Failure? ==> outcome == Escaped(CreateApodEmbed(r).error) && log == old(log))
            && (CreateApodEmbed(r).Success? ==>
                  outcome == Shown(CreateApodEmbed(r).value)
                  && log == old(log) + [EditMessage(CreateApodEmbed(r).value, Snapshot(children))]))
    }

    /** The part of `fetch_and_display_new_apod` after a record came back. */
    method ShowRecord(r: Record) returns (outcome: NavOutcome)
      requires Valid()
      modifies this
      ensures apodDate == old(apodDate)
      ensures ShowedRecord(r, outcome)
    {
      if Get(r, "media_type") == Some("video") {
        var linked := SwapYouTube(r);
        if !linked {
          outcome := Escaped(Raised(KeyError, "'url'"));
          return;
        }
      }
      outcome := EditWith(r);
    }

    /**
     * A press that moves the date by `dir`: at either end of the calendar the
     * OverflowError escapes before anything changes. Otherwise the client is asked
     * for the new date with thumbnails; only a DateOutOfRangeError puts the date back
     * (and sends its text); any other failure leaves the date moved; a list reply is
     * the AttributeError of `.get`; a record is handled as ShowedRecord says.
     */
    twostate predicate Displayed(dir: Direction, today: Date, fetch: Params -> ApiReply, outcome: NavOutcome)
      reads this, children
    {
      && old(Valid()) && Valid() && messageBound == old(messageBound)
      && (Shift(old(apodDate), dir).None? ==>
            outcome == Escaped(Raised(OverflowError, "date value out of range"))
            && apodDate == old(apodDate) && children == old(children) && log == old(log))
      && (Shift(old(apodDate), dir).Some? ==>
            var reply := NasaApod.Get(client, Some(Shift(old(apodDate), dir).value), true, today, fetch);
            && (outcome.RolledBack? <==> reply.Fails? && Catches(DateOutOfRangeError, reply.error))
            && (reply.Fails? && Catches(DateOutOfRangeError, reply.error) ==>
                  outcome == RolledBack(reply.error.message) && apodDate == old(apodDate)
                  && children == old(children) && log == old(log) + [Ephemeral(reply.error.message)])
            && (!(reply.Fails? && Catches(DateOutOfRangeError, reply.error)) ==> apodDate == Shift(old(apodDate), dir).value)
            && (reply.Fails? && !Catches(DateOutOfRangeError, reply.error) ==>
                  outcome == Escaped(reply.error) && children == old(children) && log == old(log))
            && (reply.Ok? && reply.json.Array? ==>
                  outcome == Escaped(Raised(AttributeError, ListHasNoGet)) && children == old(children) && log == old(log))
            && (reply.Ok? && reply.json.Object? ==> ShowedRecord(reply.json.fields, outcome)))
    }

    /** `fetch_and_display_new_apod`: the date moves one day and the client is asked for it. */
    method FetchAndDisplayNewApod(dir: Direction, today: Date, fetch: Params -> ApiReply) returns (outcome: NavOutcome)
      requires Valid()
      modifies this
      ensures Displayed(dir, today, fetch, outcome)
    {
      var shifted := Shift(apodDate, dir);
      if shifted.None? {
        outcome := Escaped(Raised(OverflowError, "date value out of range"));
        return;
      }
      var initialDate := apodDate;
      apodDate := shifted.value;
      var reply := NasaApod.Get(client, Some(apodDate), true, today, fetch);
      match reply {
        case Fails(e) =>
          if Catches(DateOutOfRangeError, e) {
            apodDate := initialDate;
            log := log + [Ephemeral(e.message)];
            outcome := RolledBack(e.message);
          } else {
            outcome := Escaped(e);
          }
        case Ok(Array(_)) =>
          outcome := Escaped(Raised(AttributeError, ListHasNoGet));
        case Ok(Object(r)) =>
          outcome := ShowRecord(r);
      }
    }

    /** `prev`: one day back. */
    method Prev(today: Date, fetch: Params -> ApiReply) returns (outcome: NavOutcome)
      requires Valid()
      modifies this
      ensures Displayed(Earlier, today, fetch, outcome)
      ensures Shift(old(apodDate), Earlier).Some? && !outcome.RolledBack? ==>
        Ordinal(apodDate) == Ordinal(old(apodDate)) - 1
    {
      outcome := FetchAndDisplayNewApod(Earlier, today, fetch);
    }

    /** `next`: one day on. */
    method Next(today: Date, fetch: Params -> ApiReply) returns (outcome: NavOutcome)
      requires Valid()
      modifies this
      ensures Displayed(Later, today, fetch, outcome)
      ensures Shift(old(apodDate), Later).Some? && !outcome.RolledBack? ==>
        Ordinal(apodDate) == Ordinal(old(apodDate)) + 1
    {
      outcome := FetchAndDisplayNewApod(Later, today, fetch);
    }

    /**
     * `on_timeout`: every child is disabled in place, then the bound message is edited
     * once to show them; with no bound message the edit raises AttributeError.
     */
    method OnTimeout() returns (raised: Option<Raised>)
      requires Valid()
      modifies this, children
      ensures Valid()
      ensures children == old(children) && apodDate == old(apodDate) && youtubeButton == old(youtubeButton)
      ensures messageBound == old(messageBound)
      ensures forall b :: b in children ==> b.disabled
      ensures messageBound ==> raised == None && log == old(log) + [EditView(Snapshot(children))]
      ensures !messageBound ==> raised == Some(Raised(AttributeError, NoneHasNoEdit)) && log == old(log)
    {
      var i := 0;
      while i < |children|
        invariant 0 <= i <= |children|
        invariant forall j :: 0 <= j < i ==> children[j].disabled
        modifies children
      {
        children[i].disabled := true;
        i := i + 1;
      }
      if messageBound {
        var view := Snapshot(children);
        log := log + [EditView(view)];
        raised := None;
      } else {
        raised := Some(Raised(AttributeError, NoneHasNoEdit));
      }
    }
  }

  /** Once timed out, every button of the view shows as disabled. */
  lemma TimedOutViewIsDisabled(buttons: seq<Button>)
    requires forall b :: b in buttons ==> b.disabled
    ensures forall v :: v in Snapshot(buttons) ==> v.disabled
  {
    forall v | v in Snapshot(buttons) ensures v.disabled {
      var i :| 0 <= i < |Snapshot(buttons)| && Snapshot(buttons)[i] == v;
      assert buttons[i] in buttons;
    }
  }
}
