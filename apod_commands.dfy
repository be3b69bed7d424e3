/**
 * The `AstronomyPictureOfTheDay` cog of spacestop/apod.py: `/today`, `/random`
 * and `/date` all go through `fetch_and_respond`, which answers with one card
 * and a Previous/Next view, or with several cards and no view.
 */
module ApodCommands {
  import opened Wrappers
  import opened Dates
  import opened DateFormat
  import opened Exceptions
  import opened Upstream
  import opened Discord
  import NasaApod
  import opened ApodEmbed
  import opened ApodCog

  /** The three slash commands with their arguments. */
  datatype Command =
    | TodayCommand                                  // `get_today`: thumbs=True
    | RandomCommand(count: int)                     // `get_random(count=1)`: count=count, thumbs=True
    | DateCommand(year: int, month: int, day: int)  // `get_date`: when=date(year, month, day), thumbs=True

  /** How the interaction was answered. */
  datatype CogReply =
    | SentWithView(card: Card, view: Navigation)   // one card and a Previous/Next view
    | SentCards(cards: seq<Card>)                  // several cards, no view
    | SentEphemeral(text: string)                  // a DateOutOfRangeError's text
    | NoReply(error: Raised)                       // an exception left the command

  const UnexpectedCount: string := "APODClient.get() got an unexpected keyword argument 'count'"
  const NotAString: string := "fromisoformat: argument must be str"
  const ListIndexOutOfRange: string := "list index out of range"

  /**
   * The client call a command makes, None when it makes none: a count of 0 is falsy
   * and goes to `get(count=0, ...)`, which takes no count, and numbers that name no
   * date fail before the call.
   */
  function ClientCall(client: NasaApod.Client, cmd: Command, today: Date, fetch: Params -> ApiReply): Option<ApiReply> {
    match cmd
    case TodayCommand => Some(NasaApod.Get(client, None, true, today, fetch))
    case RandomCommand(count) =>
      if count != 0 then Some(NasaApod.GetRandom(client, count, true, today, fetch)) else None
    case DateCommand(year, month, day) =>
      match FromYmd(year, month, day)
      case None => None
      case Some(d) => Some(NasaApod.Get(client, Some(d), true, today, fetch))
  }

  /** A list comprehension over records that stops at the first exception `make` raises. */
  function Collect(items: seq<Record>, make: Record -> Result<Card, Raised>): Result<seq<Card>, Raised> {
    if items == [] then Success([])
    else
      match make(items[0])
      case Failure(e) => Failure(e)
      case Success(card) =>
        match Collect(items[1..], make)
        case Failure(e) => Failure(e)
        case Success(cards) => Success([card] + cards)
  }

  /** `[create_apod_embed(item) for item in data]`: the first record's error, or every card. */
  function CardsFor(items: seq<Record>): Result<seq<Card>, Raised> {
    Collect(items, CreateApodEmbed)
  }

  /**
   * The cards of `[create_apod_embed(item) for item in data]` for either shape of
   * reply: iterating a single record gives its keys, and a key is text, not a record
   * with a date, a title and an explanation.
   */
  function CardsOf(data: Json): (r: Result<seq<Card>, Raised>)
    ensures data.Object? ==> (r.Success? <==> data.fields == map[])
    ensures data.Object? && r.Success? ==> r.value == []
  {
    match data
    case Array(items) => CardsFor(items)
    case Object(fields) => if fields == map[] then Success([]) else Failure(Raised(ValueError, MissingKeysMessage))
  }

  /** The comprehension succeeds exactly when every record does, and then keeps one result per record, in order. */
  lemma {:induction false} CollectSucceeds(items: seq<Record>, make: Record -> Result<Card, Raised>)
    ensures Collect(items, make).Success? <==> forall i :: 0 <= i < |items| ==> make(items[i]).Success?
    ensures Collect(items, make).Success? ==>
      && |Collect(items, make).value| == |items|
      && forall i :: 0 <= i < |items| ==> Collect(items, make).value[i] == make(items[i]).value
  {
    if items != [] {
      CollectSucceeds(items[1..], make);
      if Collect(items, make).Success? {
        forall i | 0 < i < |items| ensures make(items[i]).Success? {
          assert items[i] == items[1..][i - 1];
        }
      } else if make(items[0]).Success? {
        var k :| 0 <= k < |items[1..]| && !make(items[1..][k]).Success?;
        assert items[1..][k] == items[k + 1];
      }
    }
  }

  /** A failed comprehension carries the error of the first record that fails. */
  lemma {:induction false} CollectFirstError(items: seq<Record>, make: Record -> Result<Card, Raised>)
    requires Collect(items, make).Failure?
    ensures exists i :: (0 <= i < |items| && make(items[i]) == Failure(Collect(items, make).error)
                         && forall j :: 0 <= j < i ==> make(items[j]).Success?)
  {
    if make(items[0]).Success? {
      CollectFirstError(items[1..], make);
      var k :| 0 <= k < |items[1..]| && make(items[1..][k]) == Failure(Collect(items[1..], make).error)
               && forall j :: 0 <= j < k ==> make(items[1..][j]).Success?;
      assert items[1..][k] == items[k + 1];
      forall j | 0 <= j < k + 1 ensures make(items[j]).Success? {
        if j > 0 { assert items[j] == items[1..][j - 1]; }
      }
    }
  }

  /** The cards come out one per record and in order, exactly when every record makes one. */
  lemma CardsForSucceeds(items: seq<Record>)
    ensures CardsFor(items).Success? <==> forall i :: 0 <= i < |items| ==> CreateApodEmbed(items[i]).Success?
    ensures CardsFor(items).Success? ==>
      && |CardsFor(items).value| == |items|
      && forall i :: 0 <= i < |items| ==> CardsFor(items).value[i] == CreateApodEmbed(items[i]).value
  {
    CollectSucceeds(items, CreateApodEmbed);
  }

  /** A failure is the error of the first record that makes no card. */
  lemma CardsForFirstError(items: seq<Record>)
    requires CardsFor(items).Failure?
    ensures exists i :: (0 <= i < |items| && CreateApodEmbed(items[i]) == Failure(CardsFor(items).error)
                         && forall j :: 0 <= j < i ==> CreateApodEmbed(items[j]).Success?)
  {
    CollectFirstError(items, CreateApodEmbed);
  }

  /** What a view-opening record leads to, whatever the reply shape. */
  predicate ShowsRecord(reply: CogReply, r: Record)
    reads if reply.SentWithView? then {reply.view} else {}
  {
    && reply.SentWithView? && "date" in r && CreateApodEmbed(r).Success?
    && reply.card == CreateApodEmbed(r).value
    && reply.view.Valid() && reply.view.messageBound
    && reply.view.apodDate == ParseIso(r["date"]).value
    && (reply.view.HasYouTube() <==> Get(r, "media_type") == Some("video"))
  }

  /**
   * A record a view is sent for: an ISO date that `datetime.fromisoformat` accepts, a
   * `url` when it is a video, and the three keys the card needs.
   */
  predicate Viewable(r: Record) {
    && "date" in r && ParseIso(r["date"]).Some?
    && !(Get(r, "media_type") == Some("video") && "url" !in r)
    && CreateApodEmbed(r).Success?
  }

  /**
   * A card and a view for one record: the view is dated by `datetime.fromisoformat`
   * of the record's date, carries a YouTube button linking the record's `url` for a
   * video, and is bound to the sent message.
   */
  method OpenView(client: NasaApod.Client, r: Record) returns (reply: CogReply)
    ensures "date" !in r ==> reply == NoReply(Raised(TypeError, NotAString))
    ensures "date" in r && ParseIso(r["date"]).None? ==> reply == NoReply(InvalidIsoformat(r["date"]))
    ensures "date" in r && ParseIso(r["date"]).Some? && Get(r, "media_type") == Some("video") && "url" !in r ==>
      reply == NoReply(Raised(KeyError, "'url'"))
    ensures reply.SentWithView? <==> Viewable(r)
    ensures "date" in r && ParseIso(r["date"]).Some? && !(Get(r, "media_type") == Some("video") && "url" !in r) ==>
      (CreateApodEmbed(r).Failure? ==> reply == NoReply(CreateApodEmbed(r).error))
    ensures !reply.SentCards? && !reply.SentEphemeral?
    ensures reply.NoReply? ==> !Catches(DateOutOfRangeError, reply.error)
    ensures reply.SentWithView? ==>
      && fresh(reply.view) && ShowsRecord(reply, r) && reply.view.log == [] && reply.view.client == client
      && (reply.view.HasYouTube() ==> reply.view.children[2].url == Some(r["url"]))
  {
    
    if "date" !in r {
      return NoReply(Raised(TypeError, NotAString));
    }
    var parsed := ParseIso(r["date"]);
    if parsed.None? {
      return NoReply(InvalidIsoformat(r["date"]));
    }
    reply := SendView(client, r, parsed.value);
  }

  /** Once the record's date is read as d: the YouTube button, the card, then the message binding. */
  method SendView(client: NasaApod.Client, r: Record, d: Date) returns (reply: CogReply)
    requires "date" in r && ParseIso(r["date"]) == Some(d)
    ensures Get(r, "media_type") == Some("video") && "url" !in r ==> reply == NoReply(Raised(KeyError, "'url'"))
    ensures reply.SentWithView? <==> Viewable(r)
    ensures !(Get(r, "media_type") == Some("video") && "url" !in r) && CreateApodEmbed(r).Failure? ==>
      reply == NoReply(CreateApodEmbed(r).error)
    ensures !reply.SentCards? && !reply.SentEphemeral?
    ensures reply.NoReply? ==> !Catches(DateOutOfRangeError, reply.error)
    ensures reply.SentWithView? ==>
      && fresh(reply.view) && ShowsRecord(reply, r) && reply.view.log == [] && reply.view.client == client
      && (reply.view.HasYouTube() ==> reply.view.children[2].url == Some(r["url"]))
  {
    if Get(r, "media_type") == Some("video") && "url" !in r {
      return NoReply(Raised(KeyError, "'url'"));
    }
    var view := NewView(client, r, d);
    var made := CreateApodEmbed(r);
    if made.Failure? {
      return NoReply(made.error);
    }
    view.BindMessage();
    reply := SentWithView(made.value, view);
  }

  /**
   * `Navigation(self.apod_client, ...)` and, for a video, its YouTube button linking
   * the record's `url`; nothing is bound yet.
   */
  method NewView(client: NasaApod.Client, r: Record, d: Date) returns (view: Navigation)
    requires Get(r, "media_type") == Some("video") ==> "url" in r
    ensures fresh(view) && view.Valid() && view.client == client && view.apodDate == d
    ensures !view.messageBound && view.log == []
    ensures view.HasYouTube() <==> Get(r, "media_type") == Some("video")
    ensures view.HasYouTube() ==> view.children[2].url == Some(r["url"])
  {
    view := new Navigation(client, d);
    if Get(r, "media_type") == Some("video") {
      view.AttachYouTube(r["url"]);
    }
  }

  /** The record a view is opened for: `data[0]` of a count-1 list, or the single record of `get`. */
  function ViewRecord(cmd: Command, data: ApiReply): Option<Record> {
    match data
    case Ok(Array(items)) => if cmd.RandomCommand? && cmd.count == 1 && items != [] then Some(items[0]) else None
    case Ok(Object(r)) => if cmd.RandomCommand? then None else Some(r)
    case Fails(_) => None
  }

  /**
   * The `try` body of `fetch_and_respond` once the client answered with `data`: a
   * truthy count reads `data[0]` (count 1) or every item (more), anything else reads
   * `data.get`; only a DateOutOfRangeError is answered, with its text.
   */
  method Respond(client: NasaApod.Client, cmd: Command, data: ApiReply) returns (reply: CogReply)
    requires cmd.RandomCommand? ==> cmd.count != 0
    ensures reply.SentEphemeral? <==> data.Fails? && Catches(DateOutOfRangeError, data.error)
    ensures reply.SentEphemeral? ==> reply.text == data.error.message
    ensures data.Fails? && !Catches(DateOutOfRangeError, data.error) ==> reply == NoReply(data.error)
    ensures reply.SentCards? ==>
      cmd.RandomCommand? && cmd.count != 1 && data.Ok? && CardsOf(data.json) == Success(reply.cards)
    ensures cmd.RandomCommand? && cmd.count != 1 && data.Ok? && CardsOf(data.json).Success? ==>
      reply == SentCards(CardsOf(data.json).value)
    ensures reply.SentWithView? ==>
      ViewRecord(cmd, data).Some? && fresh(reply.view) && ShowsRecord(reply, ViewRecord(cmd, data).value)
    ensures ViewRecord(cmd, data).Some? ==> (reply.SentWithView? <==> Viewable(ViewRecord(cmd, data).value))
  {
    match data {
      case Fails(e) =>
        if Catches(DateOutOfRangeError, e) {
          reply := SentEphemeral(e.message);
        } else {
          reply := NoReply(e);
        }
      case Ok(Array(items)) =>
        if !cmd.RandomCommand? {
          reply := NoReply(Raised(AttributeError, ListHasNoGet));
        } else {
          reply := RespondToList(client, cmd.count, items);
        }
      case Ok(Object(r)) =>
        reply := RespondToRecord(client, cmd, r);
    }
  }

  /** A truthy count's list: `data[0]` with a view for a count of 1, one card per item otherwise. */
  method RespondToList(client: NasaApod.Client, count: int, items: seq<Record>) returns (reply: CogReply)
    ensures !reply.SentEphemeral?
    ensures reply.NoReply? ==> !Catches(DateOutOfRangeError, reply.error)
    ensures count == 1 && items == [] ==> reply == NoReply(Raised(IndexError, ListIndexOutOfRange))
    ensures reply.SentCards? ==> count != 1 && CardsFor(items) == Success(reply.cards)
    ensures count != 1 && CardsFor(items).Success? ==> reply == SentCards(CardsFor(items).value)
    ensures reply.SentWithView? ==> count == 1 && items != [] && fresh(reply.view) && ShowsRecord(reply, items[0])
    ensures count == 1 && items != [] ==> (reply.SentWithView? <==> Viewable(items[0]))
  {
    if count == 1 {
      if items == [] {
        reply := NoReply(Raised(IndexError, ListIndexOutOfRange));
      } else {
        reply := OpenView(client, items[0]);
      }
    } else {
      reply := SendCards(items);
    }
  }

  /** `send_message(embeds=[create_apod_embed(item) for item in data])`: every card, or the first error. */
  method SendCards(items: seq<Record>) returns (reply: CogReply)
    ensures reply.SentCards? || reply.NoReply?
    ensures reply.NoReply? ==> !Catches(DateOutOfRangeError, reply.error)
    ensures CardsFor(items).Success? ==> reply == SentCards(CardsFor(items).value)
    ensures CardsFor(items).Failure? ==> reply == NoReply(CardsFor(items).error)
  {
    ApodErrorHierarchy();
    CardsForErrors(items);
    match CardsFor(items) {
      case Failure(e) => reply := NoReply(e);
      case Success(cards) => reply := SentCards(cards);
    }
  }

  /**
   * A single record: `data.get(...)` reads it when the count was falsy; a truthy count
   * expected a list, so `data[0]` is a KeyError and iterating it gives its keys,
   * which make no cards.
   */
  method RespondToRecord(client: NasaApod.Client, cmd: Command, r: Record) returns (reply: CogReply)
    ensures !reply.SentEphemeral?
    ensures reply.NoReply? ==> !Catches(DateOutOfRangeError, reply.error)
    ensures cmd.RandomCommand? && cmd.count == 1 ==> reply == NoReply(Raised(KeyError, "0"))
    ensures reply.SentCards? ==> cmd.RandomCommand? && cmd.count != 1 && CardsOf(Object(r)) == Success(reply.cards)
    ensures cmd.RandomCommand? && cmd.count != 1 && CardsOf(Object(r)).Success? ==>
      reply == SentCards(CardsOf(Object(r)).value)
    ensures reply.SentWithView? ==> !cmd.RandomCommand? && fresh(reply.view) && ShowsRecord(reply, r)
    ensures !cmd.RandomCommand? ==> (reply.SentWithView? <==> Viewable(r))
  {
    if !cmd.RandomCommand? {
      reply := OpenView(client, r);
    } else if cmd.count == 1 {
      reply := NoReply(Raised(KeyError, "0"));
    } else {
      match CardsOf(Object(r)) {
        case Failure(e) => reply := NoReply(e);
        case Success(cards) => reply := SentCards(cards);
      }
    }
  }

  /** Cards fail only with the ValueError of a malformed record, never with DateOutOfRangeError. */
  lemma CardsForErrors(items: seq<Record>)
    ensures CardsFor(items).Failure? ==> CardsFor(items).error.cls == ValueError
  {
    if CardsFor(items).Failure? {
      CardsForFirstError(items);
      var i :| 0 <= i < |items| && CreateApodEmbed(items[i]) == Failure(CardsFor(items).error);
    }
  }

  /**
   * `fetch_and_respond` behind each command: the client call the command makes, then
   * the answer to what came back. A count of 0 and numbers that name no date end
   * before any call.
   */
  method FetchAndRespond(client: NasaApod.Client, cmd: Command, today: Date, fetch: Params -> ApiReply)
    returns (reply: CogReply)
    ensures cmd.RandomCommand? && cmd.count == 0 ==> reply == NoReply(Raised(TypeError, UnexpectedCount))
    ensures cmd.DateCommand? && FromYmd(cmd.year, cmd.month, cmd.day).None? ==>
      reply == NoReply(DateConstructorError(cmd.year, cmd.month, cmd.day))
    ensures var call := ClientCall(client, cmd, today, fetch);
      && (call.None? ==> reply.NoReply?)
      && (reply.SentEphemeral? <==> call.Some? && call.value.Fails? && Catches(DateOutOfRangeError, call.value.error))
      && (reply.SentEphemeral? ==> reply.text == call.value.error.message)
      && (reply.SentCards? ==>
            (cmd.RandomCommand? && cmd.count > 1 && call.Some?
             && call.value.Ok? && CardsOf(call.value.json) == Success(reply.cards)))
      && (reply.SentWithView? ==>
            (call.Some? && ViewRecord(cmd, call.value).Some?
             && fresh(reply.view) && ShowsRecord(reply, ViewRecord(cmd, call.value).value)))
    ensures var call := ClientCall(client, cmd, today, fetch);
      call.Some? && cmd.RandomCommand? && cmd.count != 1 && call.value.Ok? && CardsOf(call.value.json).Success? ==>
        reply == SentCards(CardsOf(call.value.json).value)
    ensures var call := ClientCall(client, cmd, today, fetch);
      call.Some? && ViewRecord(cmd, call.value).Some? ==>
        (reply.SentWithView? <==> Viewable(ViewRecord(cmd, call.value).value))
  {
    var call := ClientCall(client, cmd, today, fetch);
    if call.None? {
      if cmd.RandomCommand? {
        return NoReply(Raised(TypeError, UnexpectedCount));
      }
      return NoReply(DateConstructorError(cmd.year, cmd.month, cmd.day));
    }
    reply := Respond(client, cmd, call.value);
  }

  /**
   * What each command asks the service for: always thumbnails and the key; `/date`
   * the day itself as ISO text, `/random` the count as given. A negative count fails
   * in the client with nothing sent.
   */
  lemma CommandRequests(client: NasaApod.Client, cmd: Command, today: Date, fetch: Params -> ApiReply)
    ensures cmd.TodayCommand? ==>
      ClientCall(client, cmd, today, fetch) == Some(fetch(map["api_key" := Str(client.key), "thumbs" := Bool(true)]))
    ensures cmd.DateCommand? && FromYmd(cmd.year, cmd.month, cmd.day).Some? ==>
      var d := FromYmd(cmd.year, cmd.month, cmd.day).value;
      InFeedRange(d, today) ==>
        ClientCall(client, cmd, today, fetch) ==
        Some(fetch(map["api_key" := Str(client.key), "date" := Str(FormatYmd(d)), "thumbs" := Bool(true)]))
    ensures cmd.RandomCommand? && cmd.count >= 1 ==>
      ClientCall(client, cmd, today, fetch) ==
      Some(fetch(map["api_key" := Str(client.key), "count" := Int(cmd.count), "thumbs" := Bool(true)]))
    ensures cmd.RandomCommand? && cmd.count < 0 ==>
      ClientCall(client, cmd, today, fetch) == Some(Fails(Raised(ValueError, NasaApod.CountMessage)))
  {
    match cmd
    case TodayCommand => TodayRequest(client, today);
    case DateCommand(y, m, dd) =>
      if FromYmd(y, m, dd).Some? {
        DateRequest(client, FromYmd(y, m, dd).value, today);
      }
    case RandomCommand(count) =>
      NasaApod.GetRandomParamsShape(client, count, true, today);
  }

  /** `/today` sends the key and the thumbnail flag. */
  lemma TodayRequest(client: NasaApod.Client, today: Date)
    ensures NasaApod.GetParams(client, None, true, today) == map["api_key" := Str(client.key), "thumbs" := Bool(true)]
  {
    NasaApod.GetParamsShape(client, None, true, today);
  }

  /** `/date` for a day of the feed sends the key, the day as ISO text and the thumbnail flag. */
  lemma DateRequest(client: NasaApod.Client, d: Date, today: Date)
    ensures InFeedRange(d, today) ==>
      NasaApod.GetParams(client, Some(d), true, today) ==
      map["api_key" := Str(client.key), "date" := Str(FormatYmd(d)), "thumbs" := Bool(true)]
  {
    NasaApod.GetParamsShape(client, Some(d), true, today);
  }
}
