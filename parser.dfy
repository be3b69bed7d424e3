/**
 * src/spacestop/parser.py: the query parameters `get_data` sends (the HTTP call
 * itself is the fetch oracle), the feed-domain check `is_valid_date`, the three
 * request shapes the commands use, and the record field getters.
 */
module SpaceStopParser {
  import opened Wrappers
  import opened Dates
  import opened DateFormat
  import opened Upstream

  /** The keyword arguments of `get_data`; None is Python's None. */
  datatype DataRequest = DataRequest(
    date: Option<Date>,
    dateRange: Option<(Date, Date)>,
    count: Option<int>,
    thumbs: Option<bool>,
    apiKey: string)

  /** The default `api_key` of `get_data`. */
  const DemoKey: string := "DEMO_KEY"

  /**
   * The parameters `get_data` sends, built by successive `params.update(...)` calls:
   * the key always, a date or range when given, a count or thumbs flag only when truthy.
   */
  function RequestParams(q: DataRequest): Params
  {
    var withKey := map["api_key" := Str(q.apiKey)];
    var withDate := withKey + (if q.date.Some? then map["date" := Str(FormatYmd(q.date.value))] else map[]);
    var withRange := withDate + (if q.dateRange.Some? then
         map["start_date" := Str(FormatYmd(q.dateRange.value.0)), "end_date" := Str(FormatYmd(q.dateRange.value.1))]
       else map[]);
    var withCount := withRange + (if q.count.Some? && q.count.value != 0 then map["count" := Int(q.count.value)] else map[]);
    withCount + (if q.thumbs == Some(true) then map["thumbs" := Bool(true)] else map[])
  }

  /**
   * The API key is always sent; a date, or a start/end pair, exactly when given,
   * as `%Y-%m-%d` text.
   */
  lemma RequestParamsDates(q: DataRequest)
    ensures "api_key" in RequestParams(q) && RequestParams(q)["api_key"] == Str(q.apiKey)
    ensures "date" in RequestParams(q) <==> q.date.Some?
    ensures q.date.Some? ==> RequestParams(q)["date"] == Str(FormatYmd(q.date.value))
    ensures "start_date" in RequestParams(q) <==> q.dateRange.Some?
    ensures "end_date" in RequestParams(q) <==> q.dateRange.Some?
    ensures q.dateRange.Some? ==>
      RequestParams(q)["start_date"] == Str(FormatYmd(q.dateRange.value.0))
      && RequestParams(q)["end_date"] == Str(FormatYmd(q.dateRange.value.1))
  {
  }

  /** A count is sent only when nonzero, the thumbs flag only when True: falsy values are dropped. */
  lemma RequestParamsFlags(q: DataRequest)
    ensures "count" in RequestParams(q) <==> q.count.Some? && q.count.value != 0
    ensures "count" in RequestParams(q) ==> RequestParams(q)["count"] == Int(q.count.value)
    ensures "thumbs" in RequestParams(q) <==> q.thumbs == Some(true)
    ensures "thumbs" in RequestParams(q) ==> RequestParams(q)["thumbs"] == Bool(true)
  {
  }

  /** Nothing else is sent: the parameters are among the six `get_data` knows. */
  lemma RequestParamsKnownKeys(q: DataRequest)
    ensures RequestParams(q).Keys <= {"api_key", "date", "start_date", "end_date", "count", "thumbs"}
  {
  }

  /** `is_valid_date`: `date.today() >= in_date >= date(1995, 6, 16)`. */
  predicate IsValidDate(d: Date, today: Date) {
    AtOrBefore(d, today) && AtOrBefore(FirstApod, d)
  }

  /** Validity compares day numbers: 1995-06-16 <= d <= today, both inclusive. */
  lemma IsValidDateByOrdinal(d: Date, today: Date)
    ensures IsValidDate(d, today) <==> Ordinal(FirstApod) <= Ordinal(d) <= Ordinal(today)
  {
    InFeedRangeByOrdinal(d, today);
  }

  /**
   * The ends of the domain: 1995-06-16 and today are valid exactly when the domain is
   * not empty, the day before 1995-06-16 never is, and neither is the day after today.
   */
  lemma IsValidDateBoundaries(today: Date)
    ensures IsValidDate(FirstApod, today) <==> AtOrBefore(FirstApod, today)
    ensures IsValidDate(today, today) <==> AtOrBefore(FirstApod, today)
    ensures Predecessor(FirstApod).Some? && !IsValidDate(Predecessor(FirstApod).value, today)
    ensures Successor(today).Some? ==> !IsValidDate(Successor(today).value, today)
  {
    if Successor(today).Some? {
      SuccessorIsNextDay(today, today);
    }
  }

  /** `get_specific_APOD(date)`: that date, with thumbnails. */
  function GetSpecificApod(d: Date, apiKey: string): (q: DataRequest)
    ensures RequestParams(q) == map["api_key" := Str(apiKey), "date" := Str(FormatYmd(d)), "thumbs" := Bool(true)]
  {
    var q := DataRequest(Some(d), None, None, Some(true), apiKey);
    RequestParamsDates(q);
    RequestParamsFlags(q);
    RequestParamsKnownKeys(q);
    assert RequestParams(q).Keys == {"api_key", "date", "thumbs"};
    q
  }

  /** `get_random_APOD(count)`: that count (dropped when 0), with thumbnails. */
  function GetRandomApod(count: int, apiKey: string): (q: DataRequest)
    ensures RequestParams(q) == if count != 0
      then map["api_key" := Str(apiKey), "count" := Int(count), "thumbs" := Bool(true)]
      else map["api_key" := Str(apiKey), "thumbs" := Bool(true)]
  {
    var q := DataRequest(None, None, Some(count), Some(true), apiKey);
    RequestParamsDates(q);
    RequestParamsFlags(q);
    RequestParamsKnownKeys(q);
    assert RequestParams(q).Keys == if count != 0 then {"api_key", "count", "thumbs"} else {"api_key", "thumbs"};
    q
  }

  /** `get_today_APOD()`: neither a date nor thumbnails, only the key. */
  function GetTodayApod(apiKey: string): (q: DataRequest)
    ensures RequestParams(q) == map["api_key" := Str(apiKey)]
  {
    var q := DataRequest(None, None, None, None, apiKey);
    RequestParamsDates(q);
    RequestParamsFlags(q);
    RequestParamsKnownKeys(q);
    assert RequestParams(q).Keys == {"api_key"};
    q
  }

  // ---------------------------------------------------------------------------
  // Field getters: `response.get(<field>)`

  function GetCopyright(r: Record): Option<string> { Get(r, "copyright") }
  function GetDate(r: Record): Option<string> { Get(r, "date") }
  function GetExplanation(r: Record): Option<string> { Get(r, "explanation") }
  function GetHdurl(r: Record): Option<string> { Get(r, "hdurl") }
  function GetMediaType(r: Record): Option<string> { Get(r, "media_type") }
  function GetServiceVersion(r: Record): Option<string> { Get(r, "service_version") }
  function GetThumbnailUrl(r: Record): Option<string> { Get(r, "thumbnail_url") }
  function GetTitle(r: Record): Option<string> { Get(r, "title") }
  function GetUrl(r: Record): Option<string> { Get(r, "url") }

  /** Each getter returns its own field of the record, or None when the record lacks it. */
  lemma GettersReadTheirFields(r: Record)
    ensures GetCopyright(r) == (if "copyright" in r then Some(r["copyright"]) else None)
    ensures GetDate(r) == (if "date" in r then Some(r["date"]) else None)
    ensures GetExplanation(r) == (if "explanation" in r then Some(r["explanation"]) else None)
    ensures GetHdurl(r) == (if "hdurl" in r then Some(r["hdurl"]) else None)
    ensures GetMediaType(r) == (if "media_type" in r then Some(r["media_type"]) else None)
    ensures GetServiceVersion(r) == (if "service_version" in r then Some(r["service_version"]) else None)
    ensures GetThumbnailUrl(r) == (if "thumbnail_url" in r then Some(r["thumbnail_url"]) else None)
    ensures GetTitle(r) == (if "title" in r then Some(r["title"]) else None)
    ensures GetUrl(r) == (if "url" in r then Some(r["url"]) else None)
  {
  }
}
