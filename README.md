# Astronomy Picture of the Day bot — a Dafny model

This project models the Discord bot that shows NASA's Astronomy Picture of the Day
(APOD). It covers three generations of the bot's command code and proves properties
of each:

- **The client and its cog.** The `APODClient` of `nasa/apod.py` builds request
  parameters and checks its arguments. The `AstronomyPictureOfTheDay` cog and the
  `Navigation` view of `spacestop/apod.py` answer `/today`, `/random` and `/date`.
  The view has Previous/Next buttons, a YouTube link button for videos, and a 15
  second timeout.
- **The article bot.** This is the `src/spacestop` package:
  - a request builder and field getters (`parser.py`);
  - `Article`/`Media` and the card made from them (`article.py`);
  - a Previous/Next view bounded by the first picture (1995-06-16) and today
    (`ui/navigation.py`);
  - the slash-command cog (`__main__.py`).
- **The prefix-command cog** of `src/cogs/spacestop.py`.

One module per source file:

| module | file |
|---|---|
| `NasaApod` | `nasa_apod.dfy` |
| `ApodEmbed` | `apod_embed.dfy` |
| `ApodCog` | `apod_cog.dfy` |
| `ApodCommands` | `apod_commands.dfy` |
| `SpaceStopParser` | `parser.dfy` |
| `SpaceStopArticle` | `article.dfy` |
| `SpaceStopNavigation` | `navigation.dfy` |
| `SpaceStopMain` | `spacestop_main.dfy` |
| `CogsSpaceStop` | `cogs_spacestop.dfy` |

Shared modules model the Python and Discord behaviour the bot relies on:

- `Dates`: `datetime.date`, its ordinal and ±1 day steps with their OverflowError.
- `DateFormat`: `isoformat`, the three `strftime` patterns, and `date.fromisoformat` and `strptime(..., "%Y-%m-%d")` with the leniency each really has.
- `PyStr`: `str.split` and `str.join`.
- `Exceptions`: the exception classes and `except` matching.
- `Upstream`: JSON records, query parameters and `dict.get`.
- `Discord`: embeds as `Card`, buttons, `remove_item`, and the responses made.

How the model is built:

- **Pure code** (parameter building, parsing, card making, the command cogs of
  `src/`) is a set of functions. Each outcome is either a value or the Python
  exception raised (`Result<_, Raised>`).
- **The two Navigation views** are classes. Their buttons are objects whose
  `disabled` flag `on_timeout` sets in place. Their methods keep a log of the
  interaction responses they make.
- **The HTTP fetch** is a parameter `fetch: Params -> ApiReply`. It returns either
  the decoded JSON body (one record or a list of records) or the exception the
  request raised.
- **"Today"** is a parameter too, as is the API key read from the environment.

An exception that escapes a handler means that no response is logged. State that
the handler changed before the raise stays changed, as it does in Python.

The contracts of the two views' button handlers are stated once, as two-state
predicates of their class, and each handler promises one of them for its own
step. In `ApodCommands`, a record is `Viewable` when `datetime.fromisoformat`
accepts its date, it has a `url` if it is a video, and `create_apod_embed` makes
its card; a slash command sends a view exactly for such a record.

Behaviours of the code that the contracts make explicit:

- **`fetch_and_respond` never sees a DateOutOfRangeError.** Its `except
  DateOutOfRangeError` (spacestop/apod.py:178) cannot fire against the real client,
  because `APODClient` never raises that class. Its own checks raise only
  StartDateAfterEndDateError and ValueError (`NasaApod.GuardsNeverRaiseOutOfRange`).
  The model still states what happens if a fetch does raise it.
- **The range test in `_build_params` changes nothing on the wire.** A date outside
  the feed is sent as `str(date)`, which is its ISO text anyway
  (`NasaApod.ConvertKeepsEncoding`).
- **The two views fail differently at the ends of the calendar.** The Previous/Next
  view of `ui/navigation.py` stops at the feed's ends with NotAValidDate. The view of
  `spacestop/apod.py` has no such check: at 0001-01-01 or 9999-12-31 it raises
  OverflowError, and otherwise it moves freely.
- **`fetch_and_display_new_apod` can leave a stale YouTube button.** When the next
  picture is not a video, it keeps the button of an earlier video
  (`ApodCog.Navigation.ShowRecord`).
- **The card makers differ in what they show.**
  - `create_apod_embed` shows a copyright only when it is non-empty.
  - `create_embed_from` shows any copyright that is present, the empty one included.
  - The prefix cog shows an image only for the `image` media type, and only from
    `hdurl`.

  `ApodEmbed.CardVariantsAgree` and `CogsSpaceStop.CogAndArticleAgree` state where
  the card makers agree.

## Model

| member | source | states |
|---|---|---|
| `Dates.OrdinalOrder` | nasa/apod.py:64 | comparing dates is comparing their ordinals, and equal ordinals mean equal dates |
| `Dates.SuccessorOrdinal` | src/spacestop/ui/navigation.py:23-25 | `+ timedelta(days=1)` overflows only on 9999-12-31 and otherwise adds one to the ordinal |
| `Dates.PredecessorOrdinal` | src/spacestop/ui/navigation.py:37-39 | `- timedelta(days=1)` overflows only on 0001-01-01 and otherwise subtracts one from the ordinal |
| `Dates.SuccessorIsNextDay` | src/spacestop/ui/navigation.py:24 | the day after d is later than d with no date strictly in between |
| `Dates.PredecessorIsPreviousDay` | src/spacestop/ui/navigation.py:38 | the day before d is earlier than d with no date strictly in between |
| `Dates.StepRoundTrip` | src/spacestop/ui/navigation.py:19-44 | a day forward then back, or back then forward, returns to the starting date |
| `Dates.InFeedRangeByOrdinal` | nasa/apod.py:49-54 | `upper_bound >= v >= lower_bound` holds exactly when the ordinal of v lies between those of 1995-06-16 and today |
| `DateFormat.FormatYmd` | src/spacestop/parser.py:28 | `%Y-%m-%d` text is ten characters: four digits, a dash, two digits, a dash, two digits |
| `DateFormat.FormatYymmdd` | spacestop/apod.py:18 | `%y%m%d` text is six digits |
| `DateFormat.FormatDayMonYear` | spacestop/apod.py:35 | `%d %b %Y` text is eleven characters with spaces at positions 2 and 6 |
| `DateFormat.FormatDayMonYearInjective` | src/spacestop/article.py:60 | two dates with the same `%d %b %Y` text are the same date |
| `DateFormat.FormatYymmddDigits` | src/spacestop/article.py:57 | two dates share `%y%m%d` text exactly when they agree on day, month and year modulo 100 |
| `DateFormat.ParseIsoFormatYmd` | spacestop/apod.py:17 | `date.fromisoformat` reads back every date's ISO text as that date |
| `DateFormat.ParseIsoCanonical` | spacestop/apod.py:17 | whatever `date.fromisoformat` accepts is exactly the ISO text of the date it returns |
| `DateFormat.ParseStrptimeFormatYmd` | src/spacestop/article.py:48 | `strptime(..., "%Y-%m-%d")` reads back the text `strftime("%Y-%m-%d")` wrote, as the same date |
| `DateFormat.ParseStrptimeAcceptsIso` | src/cogs/spacestop.py:52 | strptime accepts every text fromisoformat accepts, with the same date |
| `DateFormat.ParseStrptimeLenient` | src/spacestop/article.py:48 | strptime also takes one-digit months and days ("1995-6-16"), which fromisoformat refuses |
| `DateFormat.FormatExamples` | src/spacestop/__main__.py:16 | the first picture's date prints as "1995-06-16", "950616" and "16 Jun 1995" |
| `DateFormat.DateConstructorError` | spacestop/apod.py:220 | the error of `date(year, month, day)` for numbers naming no date is a ValueError |
| `PyStr.Split` | src/spacestop/ui/navigation.py:16 | `str.split(sep)` gives at least one piece, and no piece contains sep |
| `PyStr.SplitJoin` | src/spacestop/ui/navigation.py:16 | joining the pieces of `split(sep)` with sep gives the string back |
| `PyStr.SplitFirst` | src/spacestop/ui/navigation.py:16 | `split(sep)[0]` is a prefix that is the whole string or stops at a sep |
| `PyStr.SplitLast` | src/spacestop/ui/navigation.py:16 | `split(sep)[-1]` is a suffix that is the whole string or starts right after a sep |
| `PyStr.LastPieceIsLongestSuffix` | src/spacestop/ui/navigation.py:16 | `split('/')[-1]` is the longest suffix without a '/' |
| `PyStr.FirstPieceIsLongestPrefix` | src/spacestop/ui/navigation.py:16 | `split('?')[0]` is the longest prefix without a '?' |
| `Exceptions.ApodErrorHierarchy` | nasa/apod.py:7-24 | the three client errors are APODErrors; ValueError is not; `except DateOutOfRangeError` catches neither of its siblings |
| `Exceptions.EverythingIsAnException` | nasa/apod.py:7-24 | every class raised in the model derives from Exception |
| `Discord.Button.constructor` | spacestop/apod.py:85-88 | a new button has its caption and link and is enabled |
| `Discord.Snapshot` | spacestop/apod.py:123 | a shown view lists every button in order with its caption, link and disabled flag |
| `Discord.IndexOf` | spacestop/apod.py:83 | the position found is the first occurrence of that very button, or the length when it is absent |
| `Discord.RemoveItem` | spacestop/apod.py:83 | `remove_item` drops the first occurrence of that button and nothing else, and changes nothing when it is absent |
| `SpaceStopParser.RequestParamsDates` | src/spacestop/parser.py:27-31 | `get_data` always sends the key; it sends `date` exactly when given a date and `start_date`/`end_date` exactly when given a range, each as `%Y-%m-%d` text |
| `SpaceStopParser.RequestParamsFlags` | src/spacestop/parser.py:32-33 | `count` is sent exactly when it is truthy (non-zero) and `thumbs` exactly when it is True |
| `SpaceStopParser.RequestParamsKnownKeys` | src/spacestop/parser.py:27-33 | no parameter other than the six named ones is ever sent |
| `SpaceStopParser.IsValidDateByOrdinal` | src/spacestop/parser.py:40-46 | `is_valid_date` holds exactly when the ordinal lies between that of 1995-06-16 and today's, both included |
| `SpaceStopParser.IsValidDateBoundaries` | src/spacestop/__main__.py:12-18 | 1995-06-16 and today are valid exactly when today is not before 1995-06-16; the day before 1995-06-16 and the day after today never are |
| `SpaceStopParser.GetSpecificApod` | src/spacestop/parser.py:49-50 | the request sends exactly the key, the date as ISO text and `thumbs=True` |
| `SpaceStopParser.GetRandomApod` | src/spacestop/parser.py:53-54 | the request sends exactly the key, the count (left out when 0) and `thumbs=True` |
| `SpaceStopParser.GetTodayApod` | src/spacestop/parser.py:57-58 | the request sends the key alone, so no thumbnails are asked for |
| `SpaceStopParser.GettersReadTheirFields` | src/spacestop/parser.py:61-103 | each getter returns its own field when present and None otherwise; `get_explaination` reads `explanation` |
| `SpaceStopArticle.MediaKinds` | src/spacestop/article.py:19-26 | media is never both video and image; an unknown or absent type is neither; `has_copyright` means a copyright is present |
| `SpaceStopArticle.ParseMediaAndArticleFrom` | src/spacestop/article.py:37-50 | TypeError without a date, ValueError when strptime refuses it; otherwise every field read as given, with the media url `hdurl or url` |
| `SpaceStopArticle.ArticleOfRequestedDate` | src/spacestop/article.py:48 | a record dated with the requested day's text parses, and its article is dated that day |
| `SpaceStopArticle.ArticleOfIsoDate` | src/spacestop/article.py:48 | a record with an ISO date always parses, to the date fromisoformat gives |
| `SpaceStopArticle.Permalink` | src/spacestop/article.py:57 | the permalink is the fixed prefix, six digits and `.html` |
| `SpaceStopArticle.PermalinkNamesDate` | src/spacestop/article.py:57 | two dates share a permalink exactly when they agree on day, month and year modulo 100; between 1995 and 2094 it names one date |
| `SpaceStopArticle.CreateEmbedFrom` | src/spacestop/article.py:53-69 | title, content and permalink; the date as author; a thumbnail for a video and the media url otherwise; a copyright footer exactly when a copyright is present |
| `SpaceStopArticle.CardNamesDate` | src/spacestop/article.py:60 | two cards have the same author line exactly when their articles have the same date |
| `SpaceStopArticle.CardOfRequestedDate` | src/spacestop/article.py:53-69 | the card for the record fetched for a day links that day's permalink and names that day |
| `SpaceStopNavigation.EmbedToVideoShape` | src/spacestop/ui/navigation.py:12-16 | the watch link is the prefix plus an id free of '/' and '?'; the id starts the url's last '/' segment and ends at its '?' or its end |
| `SpaceStopNavigation.CalculateNextDay` | src/spacestop/ui/navigation.py:19-30 | succeeds exactly when the next day exists and is a valid date, and is then one ordinal later; NotAValidDate or OverflowError otherwise |
| `SpaceStopNavigation.CalculatePreviousDay` | src/spacestop/ui/navigation.py:33-44 | succeeds exactly when the previous day exists and is a valid date, and is then one ordinal earlier; NotAValidDate or OverflowError otherwise |
| `SpaceStopNavigation.StepsRoundTrip` | src/spacestop/ui/navigation.py:19-44 | from a valid date, a successful step forward can be undone by a step back, and vice versa |
| `SpaceStopNavigation.StepBoundaries` | src/spacestop/ui/navigation.py:27-28 | no step goes back from 1995-06-16 or forward from today, and every successful step lands on a valid date |
| `SpaceStopNavigation.FetchArticle` | src/spacestop/ui/navigation.py:67 | a failed fetch of the specific day fails the article |
| `SpaceStopNavigation.FetchArticleOfRequestedDate` | src/spacestop/ui/navigation.py:67 | a record the service dated with the requested day is read as that day |
| `SpaceStopNavigation.Navigation.constructor` | src/spacestop/ui/navigation.py:49-57 | the view is dated like the article, has Previous and Next, and has a YouTube button exactly when given a video link |
| `SpaceStopNavigation.Navigation.DetachYouTube` | src/spacestop/ui/navigation.py:69-70 | removing the YouTube button leaves exactly Previous and Next |
| `SpaceStopNavigation.Navigation.AttachYouTube` | src/spacestop/ui/navigation.py:73-75 | a new enabled YouTube button with the given link is appended after Previous and Next |
| `SpaceStopNavigation.Navigation.ShowArticle` | src/spacestop/ui/navigation.py:69-78 | keeps the date and ends as the two-state predicate ShowedArticle states: Previous and Next stay first; a video without url is the AttributeError with only the two arrows left and nothing sent; otherwise the outcome is that article, a fresh enabled YouTube button with its watch link is present exactly for a video, and the message is edited once to its card |
| `SpaceStopNavigation.Navigation.StepTo` | src/spacestop/ui/navigation.py:65-81 | the shared body of both buttons ends as the two-state predicate Stepped states for the step it is given: NotAValidDate keeps the date and buttons and sends the boundary message; another step error escapes with nothing changed; a good step moves the date before the fetch; a failed fetch or read escapes with the date moved and the buttons and log unchanged; a read article ends as ShowedArticle states |
| `SpaceStopNavigation.Navigation.Previous` | src/spacestop/ui/navigation.py:60-81 | ends as Stepped states for the previous day; a shown article is the one fetched for a date one day earlier |
| `SpaceStopNavigation.Navigation.Next` | src/spacestop/ui/navigation.py:84-105 | ends as Stepped states for the next day; a shown article is the one fetched for a date one day later |
| `SpaceStopNavigation.OpenNavigation` | src/spacestop/ui/navigation.py:55-57 | a video without a url raises AttributeError; otherwise a view dated like the article with a YouTube button exactly for a video |
| `NasaApod.BuildParams` | nasa/apod.py:48-57 | the key plus every argument that is not None; in-range dates become ISO text and all else is kept as given |
| `NasaApod.ConvertKeepsEncoding` | nasa/apod.py:54 | converting an in-range date to ISO text never changes what goes on the wire |
| `NasaApod.GetParamsShape` | nasa/apod.py:59-61 | `get` sends the key and the thumbs flag (False included) and a date only when given one |
| `NasaApod.GetList` | nasa/apod.py:63-67 | StartDateAfterEndDateError, with nothing fetched, exactly when start is after the end (today when none); one fetch otherwise |
| `NasaApod.GetListParamsShape` | nasa/apod.py:66 | `get_list` sends the start always and the end only when given |
| `NasaApod.GetRandom` | nasa/apod.py:69-73 | ValueError, with nothing fetched, exactly when count < 1; one fetch otherwise |
| `NasaApod.GetRandomParamsShape` | nasa/apod.py:72 | `get_random` sends exactly the key, the count and the thumbs flag |
| `NasaApod.GuardsNeverRaiseOutOfRange` | nasa/apod.py:63-73 | the client's own checks raise StartDateAfterEndDateError or ValueError, never DateOutOfRangeError |
| `ApodEmbed.CreateApodEmbed` | spacestop/apod.py:12-36 | ValueError exactly for a missing date, title or explanation or a non-ISO date; otherwise a dark purple card with the permalink, the copyright field exactly when truthy, the thumbnail for a video or `hdurl or url` as image, and the date as footer |
| `ApodEmbed.ApodCardOfRequestedDate` | spacestop/apod.py:17-23 | the card for a record dated with a day's ISO text links that day's permalink and names that day |
| `ApodEmbed.CardVariantsAgree` | spacestop/apod.py:12-36 | this card and `create_embed_from`'s agree on title, text, link and picture; only the other shows an empty copyright |
| `ApodCog.Shift` | spacestop/apod.py:78 | `+= timedelta(days=±1)` moves the ordinal by one, and overflows only at the calendar's ends |
| `ApodCog.Navigation.constructor` | spacestop/apod.py:55-66 | the view holds the client and date, has Previous and Next, no YouTube button and no bound message |
| `ApodCog.Navigation.DetachYouTube` | spacestop/apod.py:82-83 | removing the YouTube button leaves exactly Previous and Next |
| `ApodCog.Navigation.AttachYouTube` | spacestop/apod.py:85-89 | a new enabled YouTube button with the record's url is appended after Previous and Next |
| `ApodCog.Navigation.BindMessage` | spacestop/apod.py:164 | the sent message is bound to the view and nothing else changes |
| `ApodCog.Navigation.SwapYouTube` | spacestop/apod.py:81-89 | for a video the old YouTube button goes and a fresh enabled one linking the record's `url` follows Previous and Next; without a `url` only Previous and Next remain |
| `ApodCog.Navigation.EditWith` | spacestop/apod.py:90 | the buttons stay as they are; the message is edited to the record's card, or the card maker's error escapes and nothing is sent |
| `ApodCog.Navigation.ShowRecord` | spacestop/apod.py:81-90 | keeps the date and ends as the two-state predicate ShowedRecord states: non-video media keep every button, an earlier YouTube button included; a video without url is the KeyError with only the two arrows left and nothing sent; a video with url gets a fresh enabled button linking it; then a card failure escapes with nothing sent, or the message is edited once to the card |
| `ApodCog.Navigation.FetchAndDisplayNewApod` | spacestop/apod.py:68-93 | ends as the two-state predicate Displayed states for its direction: OverflowError at either end of the calendar with nothing changed; else the client is asked for the moved date with thumbnails; exactly a DateOutOfRangeError restores the date and sends its text; other errors escape with the date moved and nothing else changed; a list reply is the AttributeError of `.get`; a record ends as ShowedRecord states |
| `ApodCog.Navigation.Prev` | spacestop/apod.py:95-103 | ends as Displayed states for one day back; unless rolled back the date is one day earlier |
| `ApodCog.Navigation.Next` | spacestop/apod.py:105-113 | ends as Displayed states for one day on; unless rolled back the date is one day later |
| `ApodCog.Navigation.OnTimeout` | spacestop/apod.py:115-123 | every button is disabled in place, then the bound message is edited once (AttributeError when none is bound) |
| `ApodCog.TimedOutViewIsDisabled` | spacestop/apod.py:121-123 | after the timeout every button is shown disabled |
| `ApodCommands.CardsOf` | spacestop/apod.py:166 | a single record expected to be a list makes no cards, and fails unless it is empty |
| `ApodCommands.CollectSucceeds` | spacestop/apod.py:166 | a list comprehension over records succeeds exactly when every record does, and keeps one result per record in order |
| `ApodCommands.CollectFirstError` | spacestop/apod.py:166 | a failed list comprehension raises the error of the first record that fails |
| `ApodCommands.CardsForSucceeds` | spacestop/apod.py:166 | the cards come one per record and in order, exactly when every record makes a card |
| `ApodCommands.CardsForFirstError` | spacestop/apod.py:166 | a failure is the error of the first record that makes no card |
| `ApodCommands.CardsForErrors` | spacestop/apod.py:166 | making the cards fails only with ValueError |
| `ApodCommands.OpenView` | spacestop/apod.py:156-164 | TypeError without a date, ValueError for a non-ISO one, KeyError for a video without url, the card maker's error otherwise; a view is sent exactly for a Viewable record, with its card and a new bound view dated by the record, with a YouTube button exactly for a video |
| `ApodCommands.SendView` | spacestop/apod.py:157-164 | once the date is read: KeyError for a video without url, the card maker's error, or, exactly for a Viewable record, its card with a bound view linking its url for a video |
| `ApodCommands.NewView` | spacestop/apod.py:156-162 | a fresh unbound view dated as given, with a YouTube button linking the record's url exactly for a video |
| `ApodCommands.RespondToList` | spacestop/apod.py:155-166 | count 1 answers an empty list with IndexError and shows `data[0]` with a view exactly when it is Viewable; a larger count sends every card exactly when each record makes one |
| `ApodCommands.SendCards` | spacestop/apod.py:166 | one card per record in order when every record makes one, otherwise the first record's error; never DateOutOfRangeError |
| `ApodCommands.RespondToRecord` | spacestop/apod.py:168-177 | for `/today` and `/date` a view is sent exactly when the record is Viewable; a count of 1 gives KeyError for `data[0]`; a larger count sends cards exactly when CardsOf succeeds |
| `ApodCommands.Respond` | spacestop/apod.py:151-179 | the ephemeral error text is sent exactly when DateOutOfRangeError was raised; other errors escape; cards are sent exactly when a count other than 1 makes them; a view is sent exactly when the record the command reads is Viewable |
| `ApodCommands.FetchAndRespond` | spacestop/apod.py:144-179 | count 0 is TypeError and a bad date ValueError, both with nothing fetched; the ephemeral text exactly for DateOutOfRangeError; cards exactly when a count above 1 makes them; a view exactly when the record the command reads is Viewable |
| `ApodCommands.CommandRequests` | spacestop/apod.py:181-220 | each command asks with thumbnails: today with the key alone, a date as ISO text, random with its count; a negative count fails in the client |
| `ApodCommands.TodayRequest` | spacestop/apod.py:168 | `get()` for today sends exactly the key and the thumbnail flag |
| `ApodCommands.DateRequest` | spacestop/apod.py:168 | `get(when=d)` for a day of the feed sends exactly the key, d as ISO text and the thumbnail flag |
| `CogsSpaceStop.MediaParser` | src/cogs/spacestop.py:15-18 | the lookup succeeds exactly for `image` and `video`; any other type, an absent one included, is KeyError |
| `CogsSpaceStop.FromRecord` | src/cogs/spacestop.py:48-55 | the media lookup fails first, then a missing or malformed date; otherwise the fields as given, with `hdurl` for an image and `url` for a video |
| `CogsSpaceStop.FromDataFirstOfList` | src/cogs/spacestop.py:45-46 | a list is read exactly as its first record; only the empty list raises IndexError |
| `CogsSpaceStop.AsEmbed` | src/cogs/spacestop.py:58-71 | title and description; the date as author; the media url as image only for an image; the copyright footer exactly when the copyright is truthy |
| `CogsSpaceStop.AsEmbedNamesDate` | src/cogs/spacestop.py:63 | two cards have the same author line exactly when their articles have the same date |
| `CogsSpaceStop.Send` | src/cogs/spacestop.py:73-77 | the card first, then a second message with the media url exactly for a video |
| `CogsSpaceStop.GetDateGate` | src/cogs/spacestop.py:104-115 | silent exactly for a real date outside 1995-06-16..today; otherwise the fetched article for that date as `%Y-%m-%d` text |
| `CogsSpaceStop.GetDateShowsThatDay` | src/cogs/spacestop.py:109-115 | the record the service dated with the requested day is shown under that day |
| `CogsSpaceStop.CogAndArticleAgree` | src/cogs/spacestop.py:41-55 | whatever this reader accepts the article reader accepts too, with the same date, title, author line and (given an `hdurl`) image |
| `SpaceStopMain.CardAndViewAgree` | src/spacestop/__main__.py:26-51 | for every command the card names and links the date of the view's article |
| `SpaceStopMain.OnlyGetDateIsSilent` | src/spacestop/__main__.py:26-40 | `today` and `random` always answer or raise; they are never silent |
| `SpaceStopMain.RandomReadsFirst` | src/spacestop/__main__.py:39 | `random` shows the first record of the list it gets |
| `SpaceStopMain.GetDateGate` | src/spacestop/__main__.py:42-51 | silent exactly for a real date outside 1995-06-16..today; numbers that name no date raise |
| `SpaceStopMain.GetDateShowsThatDay` | src/spacestop/__main__.py:47-51 | for a valid date the service answers with that day's record, and the card and view are dated that day |

## Left out

- The network: `APODClient._fetch`, the `requests.Session` and `__enter__`/`__exit__`
  (nasa/apod.py:30-46), and the `requests.get` of `get_data` (src/spacestop/parser.py:35-36),
  are the `fetch` parameter. HTTP status handling and JSON decoding are not modelled.
- Discord itself: async scheduling, the 15-second timer (its expiry is the call of
  `OnTimeout`), button styles and emoji. `interaction.original_response()` is
  modelled only as binding the message.
- Process bootstrap and setup: src/bot.py, main.py, src/spacestop/__init__.py, the
  `setup` functions, and environment variables (the API key is a parameter).
- `apod_object_parser` (src/cogs/spacestop.py:11) is not part of this model. Its
  getters are the field lookups of src/spacestop/parser.py. Its `get_data` is
  assumed to send its keyword arguments as query parameters.
- `.article_ui` (src/spacestop/__main__.py:9) is not part of this model. The view
  it makes is recorded as the article it was made from.
- `int()` of the text arguments of the prefix cog's `get_date`: the model takes
  the numbers.
- Download and image helpers of src/spacestop/parser.py (PIL).
- Python version: the model follows Python 3.10 throughout. `date.fromisoformat`
  accepts only `YYYY-MM-DD`; the wider forms Python 3.11 added (such as
  "20200101") are not modelled. Error texts are 3.10's, so a method is named by its
  qualified name ("APODClient.get() got an unexpected keyword argument 'count'").
- Date text:
  - `%Y` is four digits. glibc's unpadded years below 1000 are not modelled.
  - strptime's acceptance of non-ASCII digits is not modelled.
  - The text of strptime's ValueError is fixed rather than quoting the input.
- `datetime.fromisoformat` (spacestop/apod.py:156, 169) is modelled like
  `date.fromisoformat`. Texts that only the datetime parser accepts (a time part)
  are treated as refused at the first parse, not the second. Both raise ValueError.
- Records hold string values only. Non-string JSON values are not modelled.
- Python shape errors are raised exceptions with a fixed text: a list where a
  record was expected, `None.split`, and `[0]` on a record. Iterating a non-empty
  record for several cards (spacestop/apod.py:166) is modelled as the ValueError of
  `create_apod_embed`. A key containing all of "date", "title" and "explanation" is
  not considered.
- `ApodCog.Navigation.FetchAndDisplayNewApod`: only the steps of -1 and +1 days
  that `prev` and `next` pass are modelled.
- Datetime arithmetic is modelled on dates: the time of day of the `datetime`
  values is always midnight and never changes the outcome.
