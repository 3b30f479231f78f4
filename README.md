# Route weather bot: a Dafny model

This project models the plain logic in `tgbot.py`, a Telegram bot that
collects a travel route from a user and sends a multi-day weather forecast
for every point on it. The model has three parts:

- **`get_weather`** (module `Forecast`). It makes one request for `days * 8`
  three-hour samples. A failed request gives `(None, None, None)`. A
  successful reply becomes three things: a list of day summaries (the
  first sample, then every later noon sample), the full list of dates and the
  full list of temperatures.
- **The conversation** (module `Bot`). Class `Chat` holds one user's aiogram
  FSM context: the current `WeatherStates` value and the data dictionary
  with `start_point`, `end_point` and `stops`. It also records the messages
  the bot sends and the forecast requests it makes. Each handler is a
  method. `OnMessage` and `OnCallback` pick a handler the way the
  dispatcher does: first `/start`, then `/weather` (both in any state),
  then the handler filtered on the current state, then the fallback. The
  interval callback has no state filter.
- **Small helpers**:
  - Python's `str.strip`, `str.split` and `int`, in modules `Text` and
    `Interval`;
  - the interval keyboard and its `interval_N` tags;
  - the Russian noun for the day count (`день`, `дня`, `дней`).

The network is an oracle. `GetWeather` takes a `Reply`, which is either an
exception (`Raised`) or a status with the decoded samples. The interval
handler takes one `Reply` per route point, in route order. A sample's local
hour is a field of the sample. Dates and readings are carried along but
never computed with.

The model follows what the handlers actually do. In several places this
differs from the intended flow (start, end, a stops question, stops,
interval):

- The end-point handler stores `end_point` and nothing else. It builds the
  yes/no stops keyboard but never sends it, and it does not change the
  state. So a second text message overwrites the end point
  (`PlanRouteTypingStops`).
- No handler ever sets `waiting_for_stops` or `waiting_for_interval`. The
  stops handler can never run (`StopsStepNeverRuns`; `Chat.OnMessage` and
  `Chat.OnCallback` keep `Reachable()`).
- The `add_stops` and `no_stops` buttons have no handler.
- The interval keyboard is never offered. Only the stops handler sends it,
  and that handler never runs. No run of messages and presses shows the
  user an `interval_` button (`Converse`). The interval handler runs only
  for a callback carrying such data from elsewhere (`PlanRoute`).
- The stops handler keeps empty segments (`SplitStopsKeepsEmpty`).
- The interval is never stored in the session data.
- A route point whose forecast fails is skipped silently. No "unavailable"
  message is sent.
- The button press is answered only when the interval handler completes. A
  bad tag or a missing route key raises before anything is sent or changed.
- The summary rule is "first sample, or any noon sample", not "one per
  day". A one-day request that starts at 09:00 yields two summaries
  (`MoreSummariesThanDays`).
- `/help`, which the greeting mentions, has no handler. Outside the route
  states it gets the fallback reply.
- The model has no hidden state, so two runs of the forecast loop on the
  same replies give the same results.

## Model

| member | source | states |
|---|---|---|
| `Forecast.BuildRequest` | tgbot.py:35-41 | the request names the city, metric units and Russian text, and asks for `days * 8` samples (a multiple of 8 whose eighth is `days`) |
| `Forecast.Stamps` | tgbot.py:67 | one date per sample, each the sample's own stamp, in sample order |
| `Forecast.Temps` | tgbot.py:66 | one temperature per sample, each the sample's own, in sample order |
| `Forecast.WeatherOf` | tgbot.py:45-74 | a result exists exactly when the call did not raise and the status is 200; then `dates` and `temps` have one entry per sample in input order and `forecasts` are the summaries; otherwise `(None, None, None)` with no partial lists |
| `Forecast.GetWeather` | tgbot.py:33-74 | the loop's three lists equal the summaries, dates and temperatures of the whole sample list, and the request made is `BuildRequest(city, days)` |
| `Forecast.Summaries` | tgbot.py:57-64 | the day summaries of a sample list: the first sample, then every later noon sample; `SummariesOrder` and `SummariesCoverage` state which samples these are and in what order |
| `Forecast.SummariesSnoc` | tgbot.py:57-64 | one more sample adds itself to the summaries exactly when its hour is 12 or the summary list is still empty, which is the loop's test |
| `Forecast.NoonSubsequence` | tgbot.py:57 | the noon samples keep the input order |
| `Forecast.NoonMembers` | tgbot.py:57 | a sample is among the noon samples if and only if it is an input sample with hour 12 |
| `Forecast.NoonCount` | tgbot.py:57 | there are as many noon samples as there are 12s among the sample hours |
| `Forecast.NoonSnoc` | tgbot.py:57 | one more sample joins the noon samples, at the end, exactly when its hour is 12 |
| `Forecast.SummariesOrder` | tgbot.py:57-64 | summaries are an order-preserving subsequence of the samples; empty exactly for no samples; they start with the first sample; every later one has hour 12 |
| `Forecast.SummariesCoverage` | tgbot.py:57-64 | every hour-12 sample is among the summaries and every summary is a sample; for a non-empty input there is one summary more than there are noon samples after the first |
| `Forecast.Usable` | tgbot.py:143 | the truth of `forecasts and dates and temps`; `UsableIff` states when it holds |
| `Forecast.MoreSummariesThanDays` | tgbot.py:40-64 | a one-day request whose eight samples start at 09:00 yields two summaries, 09:00 and 12:00 |
| `Forecast.UsableIff` | tgbot.py:143 | `forecasts and dates and temps` holds exactly when the status is 200 and at least one sample came back |
| `Text.IsSpace` | tgbot.py:125 | Python's `str.isspace` for one code point: TAB to CR, FS to US, SPACE, NEL, NBSP and the Unicode space separators; `Strip` and its lemmas are stated in its terms |
| `Text.TrimLeft` | tgbot.py:125 | the result is no longer than the input, everything cut from the front is whitespace, and the result does not start with whitespace |
| `Text.TrimRight` | tgbot.py:125 | the result is no longer than the input, everything cut from the back is whitespace, and the result does not end with whitespace |
| `Text.TrimLeftSuffix` | tgbot.py:125 | what is left after cutting leading whitespace is a suffix of the input |
| `Text.TrimRightPrefix` | tgbot.py:125 | what is left after cutting trailing whitespace is a prefix of the input |
| `Text.Strip` | tgbot.py:125 | the stripped text is no longer than the input and has no whitespace at either end |
| `Text.StripIsInfix` | tgbot.py:125 | the stripped text is the infix of the input left after cutting only whitespace from both ends |
| `Text.StripUntouched` | tgbot.py:125 | text with no whitespace at either end is left as it is |
| `Text.StripIdempotent` | tgbot.py:125 | stripping twice equals stripping once |
| `Text.Split` | tgbot.py:125 | splitting always yields at least one piece |
| `Text.SplitCount` | tgbot.py:125 | there is one more piece than there are separators |
| `Text.SplitPiecesFree` | tgbot.py:125 | no piece contains the separator |
| `Text.SplitJoin` | tgbot.py:125 | joining the pieces with the separator gives back the text |
| `Text.SplitAfterFirst` | tgbot.py:131 | the text before the first separator is the first piece, and the rest is split on its own |
| `Text.SplitWhole` | tgbot.py:131 | text without the separator is a single piece |
| `Bot.SplitStops` | tgbot.py:125 | `[stop.strip() for stop in text.split(',')]`; `SplitStopsSpec` states the number of stops and what each one is |
| `Bot.SplitStopsSpec` | tgbot.py:125 | there is one stop more than there are commas; stop `i` is the `i`-th comma-separated segment, stripped, and segments are kept even when empty |
| `Bot.SplitThree` | tgbot.py:125 | text made of three comma-free segments joined by commas splits into exactly those three segments |
| `Bot.SplitStopsOfThree` | tgbot.py:125 | three comma-separated segments give their three stripped forms, in order |
| `Bot.StripLetter` | tgbot.py:125 | a one-character name that is not whitespace is kept as it is |
| `Bot.StripSpacedLetter` | tgbot.py:125 | a one-character name with a blank on each side loses both blanks |
| `Bot.SplitStopsTrims` | tgbot.py:125 | for any three non-blank, non-comma characters `x`, `y`, `z`, the text `x, y ,z` gives the stops `x`, `y`, `z` |
| `Bot.SplitStopsKeepsEmpty` | tgbot.py:125 | for any two non-blank, non-comma characters `x`, `y`, the text `x,,y` gives `x`, an empty stop, and `y` |
| `Interval.DayWord` | tgbot.py:139 | the word is `день` if and only if the count is 1, `дня` if and only if it is below 5 and not 1, and `дней` if and only if it is 5 or more |
| `Interval.DecimalString` | tgbot.py:81-85 | `str(n)` is a non-empty string of digits without a leading zero |
| `Interval.ParseInt` | tgbot.py:131 | `int()` on a string: surrounding whitespace, an optional sign and ASCII digits, otherwise failure; `ParseIntRoundTrip` states that it reads back `str(n)` |
| `Interval.DigitsRoundTrip` | tgbot.py:131 | reading back the digits of `str(n)` gives `n` |
| `Interval.ParseIntRoundTrip` | tgbot.py:131 | `int(str(n)) == n` |
| `Interval.IntervalTag` | tgbot.py:81-85 | the callback data of the button for `N` days: `interval_` followed by a non-empty run of decimal digits; `IntervalTagRoundTrip` states that it reads back as `N` |
| `Interval.ParseIntervalTag` | tgbot.py:131 | `int(tag.split("_")[1])` for a tag passing the `interval_` filter; `IntervalTagSplits` shows the index cannot fail and `IntervalTagRoundTrip` that `interval_N` gives `N` |
| `Interval.IntervalTagSplits` | tgbot.py:129-131 | a tag that passes the `interval_` filter has a second `_`-separated piece, so the `[1]` index cannot fail |
| `Interval.IntervalTagRoundTrip` | tgbot.py:131 | the handler reads `N` back from the tag `interval_N` |
| `Interval.IntervalKeyboard` | tgbot.py:78-88 | the interval keyboard; `KeyboardOffersOfferedDays` states its rows, labels and tags |
| `Interval.KeyboardOffersOfferedDays` | tgbot.py:78-88 | the keyboard holds exactly the buttons for 1 and 3 days on its first row and 5 days on its second; each label is the count and its day word, and each tag is `interval_` plus the count |
| `Interval.OfferedTagsParse` | tgbot.py:81-85 | each offered tag parses back to the count on its button |
| `Bot.MessageHandler` | tgbot.py:90-164 | `/start` and `/weather` go to their commands in any state; each state-filtered handler runs only in its own state; the fallback runs exactly for other text when no state or `waiting_for_interval` is set |
| `Bot.StopsStepNeverRuns` | tgbot.py:101-127 | from any state a handler sets, a text message never reaches the stops handler |
| `Bot.RouteOf` | tgbot.py:134-137 | a route exists exactly when both `start_point` and `end_point` are stored; it is the start point, the stored stops (or none), then the end point, so it has `2 + len(stops)` points |
| `Bot.AssembleRoute` | tgbot.py:134-137 | the route list built in place by append and extend is `RouteOf` of the session data, or fails on a missing key |
| `Bot.Requests` | tgbot.py:141-142 | one request per route point, in route order, each for that point and the chosen interval |
| `Bot.PointMessage` | tgbot.py:142-154 | the message for one route point: a forecast exactly when its reply is usable, otherwise nothing; `PointMessagesCount` and `PointMessagesAreForecasts` state this for a whole route |
| `Bot.PointMessages` | tgbot.py:141-154 | the messages of the forecast loop over a route; `PointMessagesAppend`, `PointMessagesInRouteOrder` and `MiddlePointFails` state how they follow the route |
| `Bot.RequestsSnoc` | tgbot.py:141-142 | the requests for the first `i + 1` route points are those for the first `i` followed by the request for point `i` |
| `Bot.PointMessagesSnoc` | tgbot.py:141-154 | the forecast messages for the first `i + 1` route points are those for the first `i` followed by the message, if any, for point `i` |
| `Bot.PointMessagesAppend` | tgbot.py:141-154 | the messages for a route are those for its first part followed by those for the rest, so one failing point does not affect the others |
| `Bot.PointMessagesCount` | tgbot.py:141-154 | the number of per-point messages equals the number of usable replies |
| `Bot.PointMessagesAreForecasts` | tgbot.py:145-154 | every per-point message is a forecast for the chosen interval with its day word |
| `Bot.PointMessagesInRouteOrder` | tgbot.py:141-154 | the points of the forecast messages are a subsequence of the route, in route order |
| `Bot.MiddlePointFails` | tgbot.py:141-154 | with three points where only the middle one fails, the first and third points get their forecasts, in that order |
| `Bot.IntervalEffect` | tgbot.py:129-159 | the messages and requests of the interval handler, or none when it raises before acting; `IntervalEffectSpec` states when it acts and what it sends |
| `Bot.IntervalEffectSpec` | tgbot.py:129-159 | the callback takes effect exactly when the tag parses and both route ends are stored; it then requests every route point once, in order, for `N * 8` samples, sends the announcement first, ends with the closing message and the answer, and sends three messages more than there are usable replies; every message in between is a forecast for `N` days with its day word, and their points follow the route order |
| `Bot.IntervalEffectOffersNoKeyboard` | tgbot.py:129-159 | the interval handler never sends the interval keyboard |
| `Bot.Chat.constructor` | tgbot.py:22-23 | a new user has no state, empty data, and no messages or requests |
| `Bot.Chat.CmdStart` | tgbot.py:90-96 | `/start` sends the greeting and changes nothing else |
| `Bot.Chat.CmdWeather` | tgbot.py:99-102 | `/weather` sets `waiting_for_start_point` and asks for the start point; the data is kept |
| `Bot.Chat.ProcessStartPoint` | tgbot.py:104-108 | stores the text as `start_point`, leaves the other keys unchanged, sets `waiting_for_end_point` and asks for the end point |
| `Bot.Chat.ProcessEndPoint` | tgbot.py:110-118 | stores the text as `end_point` and changes nothing else: no state change and no message |
| `Bot.Chat.ProcessStops` | tgbot.py:123-127 | stores the split stop list, sends the interval keyboard, and leaves the state unchanged |
| `Bot.Chat.HandleUnknownMessage` | tgbot.py:162-164 | sends the "not understood" reply and changes nothing else |
| `Bot.Chat.CollectForecasts` | tgbot.py:141-154 | the loop makes one request per route point, in order, and sends exactly one forecast per usable reply, in route order |
| `Bot.Chat.ProcessInterval` | tgbot.py:129-159 | on a bad tag or a missing route key nothing changes; otherwise the session state and data are cleared and exactly the callback's messages and requests are added |
| `Bot.Chat.OnMessage` | tgbot.py:90-164 | runs the handler `MessageHandler` picks, with that handler's effect; never enters a state no handler sets |
| `Bot.Chat.OnCallback` | tgbot.py:129-159 | an `interval_` press has the interval handler's effect; any other press changes nothing |
| `Bot.EnterRouteEnds` | tgbot.py:99-118 | `/weather`, a start point and an end point leave the user in `waiting_for_end_point` with both ends stored and two prompts sent |
| `Bot.IntervalForTwoPoints` | tgbot.py:129-159 | a callback carrying `interval_N` on a session holding only a start and an end point announces `N` days, requests both points in order for `N * 8` samples, forecasts each usable one, and ends with the closing message and the answer |
| `Bot.Receive` | tgbot.py:90-164 | one text message or button press from a state a handler sets leaves the user in such a state, only appends to what was sent, and does not send the interval keyboard |
| `Bot.Converse` | tgbot.py:90-164 | from any state a handler sets, any run of text messages and button presses keeps the user in such a state, only appends to what was sent, and never sends the interval keyboard |
| `Bot.PlanRoute` | tgbot.py:99-159 | `/weather`, a start point, an end point, then a callback carrying an offered `interval_N` (a button the bot itself never shows) gives exactly: the two prompts, the announcement, the forecasts of the usable points, the closing message and the answer; both points are requested in order |
| `Bot.PlanRouteTypingStops` | tgbot.py:110-137 | stops typed after the end point replace the end point, so a later `interval_N` callback requests the start point and that text |

## Left out

- The aiogram transport is not modelled: the bot, the dispatcher, the memory
  storage, the decorators and polling. Sending a message becomes appending an
  `Outgoing` value. `asyncio` suspension and per-user serialisation are the
  transport's job.
- `requests.get`, JSON decoding, the endpoint URL and the API key are not
  modelled. A `Reply` oracle stands for them. A failed request, a body that
  is not JSON and a missing key all raise inside `get_weather`'s `try`, and
  all appear as `Raised`.
- `datetime.fromtimestamp` depends on the local time zone, so a sample's
  hour is given rather than computed. `strftime` formatting is not
  modelled, so a summary carries the sample itself.
- Temperature, humidity and wind are floats in the source. Here they are
  opaque `real` fields, never computed with.
- The exact emoji and Russian message text, and `str.capitalize` on the
  description, are not modelled. Only the day-word choice is kept.
- Logging and the unused `matplotlib`, `numpy` and `BytesIO` imports are not
  modelled.
- A reply whose `description` is not a string (JSON `null`, say) is stored
  by `get_weather` without raising. `process_interval` then raises at
  `.capitalize()`, after the announcement and the forecasts of the earlier
  points have been sent. The session is then not cleared and the press is
  not answered. Here `Sample.description` is always a string, so this
  partial run is not modelled.
- Messages without text (stickers, photos) are not modelled. Every inbound
  message is text.
- Interval.ParseInt: accepts surrounding whitespace, an optional sign and
  ASCII digits. Python's `int` also accepts non-ASCII decimal digits and
  `_` between digits. A piece produced by `split("_")` never contains `_`.
- Bot.Chat.ProcessInterval: takes the provider replies as a sequence with one
  entry per route point. Its precondition sizes that sequence to the route.
  A live provider could answer differently on every call; the model takes
  each answer as given.
