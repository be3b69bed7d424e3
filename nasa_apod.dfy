/**
 * nasa/apod.py: the picture-of-the-day client. `_fetch` (the `requests.Session`
 * call, with its failures re-raised as APIDataFetchError) is the `fetch` parameter
 * of each call; the client's own logic is the parameter building and the
 * argument checks made before anything is fetched.
 */
module NasaApod {
  import opened Wrappers
  import opened Dates
  import opened DateFormat
  import opened Exceptions
  import opened Upstream

  const BaseUrl: string := "https://api.nasa.gov/planetary/apod"

  /** `APODClient(key)`; the session lives behind the `fetch` parameter of each call. */
  datatype Client = Client(key: string)

  /** The value comprehension of `_build_params`: a date in the feed's range becomes its ISO text. */
  function Convert(v: Value, today: Date): Value {
    if v.DateValue? && InFeedRange(v.d, today) then Str(FormatYmd(v.d)) else v
  }

  /**
   * `_build_params(**kwargs)`: the key, then every argument that is not None,
   * dates in the feed's range turned into ISO text and all else as given.
   */
  function BuildParams(key: string, kwargs: map<string, Option<Value>>, today: Date): (p: Params)
    ensures forall k :: k in p <==> k == "api_key" || (k in kwargs && kwargs[k].Some?)
    ensures forall k :: k in kwargs && kwargs[k].Some? ==> p[k] == Convert(kwargs[k].value, today)
    ensures !("api_key" in kwargs && kwargs["api_key"].Some?) ==> p["api_key"] == Str(key)
  {
    map["api_key" := Str(key)] + map k | k in kwargs && kwargs[k].Some? :: Convert(kwargs[k].value, today)
  }

  /** How `requests` writes a parameter value into the query string: `str(v)`. */
  function Encode(v: Value): string {
    match v
    case Str(s) => s
    case Int(i) => IntText(i)
    case Bool(b) => if b then "True" else "False"
    case DateValue(d) => FormatYmd(d)
  }

  /**
   * The range test of `_build_params` never changes the request: a date kept as a
   * date object is encoded as the same ISO text the conversion would give.
   */
  lemma ConvertKeepsEncoding(v: Value, today: Date)
    ensures Encode(Convert(v, today)) == Encode(v)
    ensures Convert(v, today) != v ==> v.DateValue? && InFeedRange(v.d, today)
  {
  }

  function DateArg(when: Option<Date>): Option<Value> {
    if when.Some? then Some(DateValue(when.value)) else None
  }

  /** The parameters of `get(when, thumbs)`. */
  function GetParams(c: Client, when: Option<Date>, thumbs: bool, today: Date): Params {
    BuildParams(c.key, map["date" := DateArg(when), "thumbs" := Some(Bool(thumbs))], today)
  }

  /**
   * `get` always sends the key and the thumbs flag, False included; it sends a date
   * only when given one, as ISO text when it is in range and as a date object otherwise.
   */
  lemma GetParamsShape(c: Client, when: Option<Date>, thumbs: bool, today: Date)
    ensures GetParams(c, when, thumbs, today).Keys ==
      {"api_key", "thumbs"} + (if when.Some? then {"date"} else {})
    ensures GetParams(c, when, thumbs, today)["api_key"] == Str(c.key)
    ensures GetParams(c, when, thumbs, today)["thumbs"] == Bool(thumbs)
    ensures when.Some? ==>
      (GetParams(c, when, thumbs, today)["date"] ==
       if InFeedRange(when.value, today) then Str(FormatYmd(when.value)) else DateValue(when.value))
  {
    var kwargs := map["date" := DateArg(when), "thumbs" := Some(Bool(thumbs))];
    var p := GetParams(c, when, thumbs, today);
    assert "thumbs" in kwargs && kwargs["thumbs"].Some?;
    assert p.Keys == {"api_key", "thumbs"} + (if when.Some? then {"date"} else {}) by {
      forall k ensures k in p <==> k in {"api_key", "thumbs"} + (if when.Some? then {"date"} else {}) {
        assert k in p <==> k == "api_key" || (k in kwargs && kwargs[k].Some?);
      }
    }
  }

  /** `get(when, thumbs)`: one fetch, of the parameters built from exactly those two arguments. */
  function Get(c: Client, when: Option<Date>, thumbs: bool, today: Date, fetch: Params -> ApiReply): ApiReply {
    fetch(GetParams(c, when, thumbs, today))
  }

  /** The parameters of `get_list(start, end, thumbs)`. */
  function GetListParams(c: Client, start: Date, end: Option<Date>, thumbs: bool, today: Date): Params {
    BuildParams(c.key, map["start_date" := Some(DateValue(start)), "end_date" := DateArg(end),
                           "thumbs" := Some(Bool(thumbs))], today)
  }

  const StartAfterEndMessage: string := "The start date cannot be after the end date."

  /**
   * `get_list`: StartDateAfterEndDateError, with nothing sent, exactly when start is
   * after the end date (today when no end is given); otherwise one request.
   */
  function GetList(c: Client, start: Date, end: Option<Date>, thumbs: bool, today: Date,
                   fetch: Params -> ApiReply): (r: ApiReply)
    ensures var last := if end.Some? then end.value else today;
      (Before(last, start) ==> r == Fails(Raised(StartDateAfterEndDateError, StartAfterEndMessage)))
      && (!Before(last, start) ==> r == fetch(GetListParams(c, start, end, thumbs, today)))
  {
    if Before(if end.Some? then end.value else today, start) then
      Fails(Raised(StartDateAfterEndDateError, StartAfterEndMessage))
    else fetch(GetListParams(c, start, end, thumbs, today))
  }

  /** `get_list` sends the start always and the end only when given, next to the key and flag. */
  lemma GetListParamsShape(c: Client, start: Date, end: Option<Date>, thumbs: bool, today: Date)
    ensures GetListParams(c, start, end, thumbs, today).Keys ==
      {"api_key", "start_date", "thumbs"} + (if end.Some? then {"end_date"} else {})
  {
    var kwargs := map["start_date" := Some(DateValue(start)), "end_date" := DateArg(end),
                      "thumbs" := Some(Bool(thumbs))];
    var p := GetListParams(c, start, end, thumbs, today);
    forall k ensures k in p <==> k in {"api_key", "start_date", "thumbs"} + (if end.Some? then {"end_date"} else {}) {
      assert k in p <==> k == "api_key" || (k in kwargs && kwargs[k].Some?);
    }
  }

  /** The parameters of `get_random(count, thumbs)`. */
  function GetRandomParams(c: Client, count: int, thumbs: bool, today: Date): Params {
    BuildParams(c.key, map["count" := Some(Int(count)), "thumbs" := Some(Bool(thumbs))], today)
  }

  const CountMessage: string := "Counter must be a positive integer."

  /** `get_random`: ValueError, with nothing sent, exactly when count < 1; otherwise one request. */
  function GetRandom(c: Client, count: int, thumbs: bool, today: Date, fetch: Params -> ApiReply): (r: ApiReply)
    ensures count < 1 ==> r == Fails(Raised(ValueError, CountMessage))
    ensures count >= 1 ==> r == fetch(GetRandomParams(c, count, thumbs, today))
  {
    if count < 1 then Fails(Raised(ValueError, CountMessage))
    else fetch(GetRandomParams(c, count, thumbs, today))
  }

  /** `get_random` sends exactly the key, the count as given and the thumbs flag. */
  lemma GetRandomParamsShape(c: Client, count: int, thumbs: bool, today: Date)
    ensures GetRandomParams(c, count, thumbs, today) ==
      map["api_key" := Str(c.key), "count" := Int(count), "thumbs" := Bool(thumbs)]
  {
    var kwargs := map["count" := Some(Int(count)), "thumbs" := Some(Bool(thumbs))];
    var p := GetRandomParams(c, count, thumbs, today);
    forall k ensures k in p <==> k in {"api_key", "count", "thumbs"} {
      assert k in p <==> k == "api_key" || (k in kwargs && kwargs[k].Some?);
    }
  }

  /**
   * The guards raise before any fetch, and never DateOutOfRangeError: `get_list`'s
   * error is an APODError, while `get_random`'s ValueError is not one at all.
   */
  lemma GuardsNeverRaiseOutOfRange(c: Client, start: Date, end: Option<Date>, count: int, thumbs: bool,
                                   today: Date, fetch: Params -> ApiReply)
    ensures var r := GetList(c, start, end, thumbs, today, fetch);
      r != fetch(GetListParams(c, start, end, thumbs, today)) ==>
        r.Fails? && Catches(ApodError, r.error) && !Catches(DateOutOfRangeError, r.error)
    ensures var r := GetRandom(c, count, thumbs, today, fetch);
      r != fetch(GetRandomParams(c, count, thumbs, today)) ==>
        r.Fails? && !Catches(ApodError, r.error) && !Catches(DateOutOfRangeError, r.error)
  {
    ApodErrorHierarchy();
  }
}
