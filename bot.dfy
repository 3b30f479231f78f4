/**
 * One user's conversation with the bot: the aiogram FSM context (a current
 * `WeatherStates` value and a data dictionary) together with what the bot
 * sends back and the forecast requests it makes. The handlers are methods;
 * `OnMessage` and `OnCallback` pick the handler the way the dispatcher does,
 * in registration order.
 */
module Bot {
  import opened Wrappers
  import opened Seqs
  import opened Text
  import opened Interval
  import opened Forecast

  /** `WeatherStates`. */
  datatype WeatherState =
    | WaitingForStartPoint
    | WaitingForEndPoint
    | WaitingForStops
    | WaitingForInterval

  /** The FSM data dictionary: each key present or absent. */
  datatype SessionData = SessionData(
    startPoint: Option<string>, endPoint: Option<string>, stops: Option<seq<string>>)

  /** The dictionary after `state.clear()` or before the first update. */
  const EmptyData := SessionData(None, None, None)

  /** What the bot sends, up to its wording. */
  datatype Outgoing =
    | Greeting                                   // reply to /start
    | AskStartPoint                              // "enter the start point"
    | AskEndPoint                                // "now enter the end point"
    | AskInterval(keyboard: seq<seq<Button>>)    // "choose the interval" with buttons
    | Collecting(interval: int, word: string)    // "collecting the forecast for N days"
    | PointForecast(point: string, interval: int, word: string, forecasts: seq<Sample>)
    | RouteComplete                              // "forecast for the whole route collected"
    | NotUnderstood                              // the fallback reply
    | CallbackAnswered                           // `callback.answer()`

  /** The message handlers, in the order they are registered. */
  datatype Handler =
    | StartCommand | WeatherCommand | StartPointStep | EndPointStep | StopsStep | Fallback

  /** The handler the dispatcher runs for a text message: the two commands in
      any state, then the handler filtered on the current state, then the
      fallback. */
  function MessageHandler(state: Option<WeatherState>, text: string): (h: Handler)
    ensures h == StartCommand <==> text == "/start"
    ensures h == WeatherCommand <==> text == "/weather"
    ensures h == StartPointStep ==> state == Some(WaitingForStartPoint)
    ensures h == EndPointStep ==> state == Some(WaitingForEndPoint)
    ensures h == StopsStep ==> state == Some(WaitingForStops)
    ensures h == Fallback <==>
      text != "/start" && text != "/weather" && (state == None || state == Some(WaitingForInterval))
  {
    if text == "/start" then StartCommand
    else if text == "/weather" then WeatherCommand
    else match state
      case Some(WaitingForStartPoint) => StartPointStep
      case Some(WaitingForEndPoint) => EndPointStep
      case Some(WaitingForStops) => StopsStep
      case _ => Fallback
  }

  /** The states some handler ever sets. */
  predicate ReachableState(state: Option<WeatherState>)
  {
    state == None || state == Some(WaitingForStartPoint) || state == Some(WaitingForEndPoint)
  }

  /** From a state the handlers can set, the stops handler never runs. */
  lemma StopsStepNeverRuns(state: Option<WeatherState>, text: string)
    requires ReachableState(state)
    ensures MessageHandler(state, text) != StopsStep
  {
  }

  /** `[stop.strip() for stop in text.split(',')]`. */
  function SplitStops(text: string): seq<string>
  {
    var pieces := Split(text, ',');
    seq(|pieces|, i requires 0 <= i < |pieces| => Strip(pieces[i]))
  }

  /** There is one stop more than there are commas, and stop `i` is the
      `i`-th comma-separated segment of the text with its surrounding
      whitespace removed; segments are kept even when empty, and the segments
      joined with commas give back the text. */
  lemma SplitStopsSpec(text: string)
    ensures |SplitStops(text)| == Occurrences(text, ',') + 1
    ensures var pieces := Split(text, ',');
      && Join(pieces, ',') == text
      && |SplitStops(text)| == |pieces|
      && forall i :: 0 <= i < |pieces| ==>
           && ',' !in pieces[i]
           && SplitStops(text)[i] == Strip(pieces[i])
  {
    SplitCount(text, ',');
    SplitJoin(text, ',');
    SplitPiecesFree(text, ',');
  }

  /** The stops for three comma-separated segments. */
  lemma SplitStopsOfThree(text: string, a: string, b: string, c: string)
    requires ',' !in a && ',' !in b && ',' !in c
    requires text == a + [','] + b + [','] + c
    ensures SplitStops(text) == [Strip(a), Strip(b), Strip(c)]
  {
    SplitThree(text, a, b, c);
  }

  lemma SplitThree(text: string, a: string, b: string, c: string)
    requires ',' !in a && ',' !in b && ',' !in c
    requires text == a + [','] + b + [','] + c
    ensures Split(text, ',') == [a, b, c]
  {
    var tail := b + [','] + c;
    assert text == a + [','] + tail;
    SplitAfterFirst(a, ',', tail);
    SplitAfterFirst(b, ',', c);
    SplitWhole(c, ',');
  }

  /** A one-letter name survives stripping. */
  lemma StripLetter(c: char)
    requires !IsSpace(c)
    ensures Strip([c]) == [c]
  {
    StripUntouched([c]);
  }

  /** A one-letter name loses the blanks around it. */
  lemma StripSpacedLetter(c: char)
    requires !IsSpace(c)
    ensures Strip([' ', c, ' ']) == [c]
  {
    assert [' ', c, ' '][1..] == [c, ' '];
    assert TrimLeft([' ', c, ' ']) == [c, ' '];
    assert [c, ' '][..1] == [c];
    assert TrimRight([c, ' ']) == TrimRight([c]) == [c];
  }

  /** Whitespace around names is removed: "A, B ,C" gives "A", "B", "C". */
  lemma SplitStopsTrims(x: char, y: char, z: char)
    requires !IsSpace(x) && !IsSpace(y) && !IsSpace(z)
    requires x != ',' && y != ',' && z != ','
    ensures SplitStops([x, ',', ' ', y, ' ', ',', z]) == [[x], [y], [z]]
  {
    SplitStopsOfThree([x, ',', ' ', y, ' ', ',', z], [x], [' ', y, ' '], [z]);
    StripLetter(x);
    StripSpacedLetter(y);
    StripLetter(z);
  }

  /** An empty segment between two commas stays as an empty stop:
      "A,,B" gives "A", "", "B". */
  lemma SplitStopsKeepsEmpty(x: char, y: char)
    requires !IsSpace(x) && !IsSpace(y) && x != ',' && y != ','
    ensures SplitStops([x, ',', ',', y]) == [[x], [], [y]]
  {
    SplitStopsOfThree([x, ',', ',', y], [x], [], [y]);
    StripLetter(x);
    StripLetter(y);
  }

  /** The route the interval handler assembles, or `None` when the
      `start_point` or `end_point` key is missing and the lookup raises. */
  function RouteOf(data: SessionData): (route: Option<seq<string>>)
    ensures route.Some? <==> data.startPoint.Some? && data.endPoint.Some?
    ensures route.Some? ==>
      var stops := if data.stops.Some? then data.stops.value else [];
      && |route.value| == |stops| + 2
      && route.value[0] == data.startPoint.value
      && route.value[1..|route.value| - 1] == stops
      && route.value[|route.value| - 1] == data.endPoint.value
  {
    if data.startPoint.None? || data.endPoint.None? then None
    else
      var stops := if data.stops.Some? then data.stops.value else [];
      Some([data.startPoint.value] + stops + [data.endPoint.value])
  }

  /** The requests for every route point, in route order, one each. */
  function Requests(route: seq<string>, interval: int): (qs: seq<Request>)
    ensures |qs| == |route|
    ensures forall i :: 0 <= i < |route| ==> qs[i].city == route[i] && qs[i] == BuildRequest(route[i], interval)
  {
    seq(|route|, i requires 0 <= i < |route| => BuildRequest(route[i], interval))
  }

  /** The message for one point: its forecast when the reply is usable,
      nothing otherwise. */
  function PointMessage(point: string, interval: int, reply: Reply): seq<Outgoing>
  {
    var w := WeatherOf(reply);
    if Usable(w) then [PointForecast(point, interval, DayWord(interval), w.forecasts)] else []
  }

  /** The per-point messages for a route, `replies[i]` being what the
      provider returned for `route[i]`. */
  function PointMessages(route: seq<string>, interval: int, replies: seq<Reply>): seq<Outgoing>
    requires |replies| == |route|
  {
    if route == [] then []
    else PointMessage(route[0], interval, replies[0]) + PointMessages(route[1..], interval, replies[1..])
  }

  /** Which replies are usable, in route order. */
  function UsableFlags(replies: seq<Reply>): seq<bool>
  {
    seq(|replies|, i requires 0 <= i < |replies| => Usable(WeatherOf(replies[i])))
  }

  /** The messages for a route are those for its first part followed by
      those for the rest: a failed point does not affect any other point. */
  lemma {:induction false} PointMessagesAppend(
    r1: seq<string>, r2: seq<string>, interval: int, p1: seq<Reply>, p2: seq<Reply>)
    requires |p1| == |r1| && |p2| == |r2|
    ensures PointMessages(r1 + r2, interval, p1 + p2) ==
      PointMessages(r1, interval, p1) + PointMessages(r2, interval, p2)
  {
    if r1 == [] {
      assert r1 + r2 == r2 && p1 + p2 == p2;
    } else {
      assert (r1 + r2)[1..] == r1[1..] + r2;
      assert (p1 + p2)[1..] == p1[1..] + p2;
      PointMessagesAppend(r1[1..], r2, interval, p1[1..], p2);
    }
  }

  /** One message per usable reply. */
  lemma {:induction false} PointMessagesCount(route: seq<string>, interval: int, replies: seq<Reply>)
    requires |replies| == |route|
    ensures |PointMessages(route, interval, replies)| == multiset(UsableFlags(replies))[true]
  {
    if route != [] {
      PointMessagesCount(route[1..], interval, replies[1..]);
      assert UsableFlags(replies) == [Usable(WeatherOf(replies[0]))] + UsableFlags(replies[1..]);
    } else {
      assert UsableFlags(replies) == [];
    }
  }

  /** Every per-point message is a forecast for the chosen interval. */
  lemma {:induction false} PointMessagesAreForecasts(route: seq<string>, interval: int, replies: seq<Reply>)
    requires |replies| == |route|
    ensures forall m :: m in PointMessages(route, interval, replies) ==>
      m.PointForecast? && m.interval == interval && m.word == DayWord(interval)
  {
    if route != [] {
      PointMessagesAreForecasts(route[1..], interval, replies[1..]);
    }
  }

  /** The forecast messages follow the route order. */
  lemma {:induction false} PointMessagesInRouteOrder(route: seq<string>, interval: int, replies: seq<Reply>)
    requires |replies| == |route|
    ensures forall m :: m in PointMessages(route, interval, replies) ==> m.PointForecast?
    ensures IsSubsequence(PointsOf(PointMessages(route, interval, replies)), route)
  {
    PointMessagesAreForecasts(route, interval, replies);
    if route != [] {
      PointMessagesInRouteOrder(route[1..], interval, replies[1..]);
      var rest := PointMessages(route[1..], interval, replies[1..]);
      var head := PointMessage(route[0], interval, replies[0]);
      assert PointMessages(route, interval, replies) == head + rest;
      assert PointsOf(head + rest) == PointsOf(head) + PointsOf(rest);
      SubsequenceCons(route[0], PointsOf(rest), route[1..]);
      assert [route[0]] + route[1..] == route;
      if head == [] {
        assert head + rest == rest;
      } else {
        assert PointsOf(head) == [route[0]];
      }
    }
  }

  /** The points the forecast messages are about. */
  function PointsOf(ms: seq<Outgoing>): (ps: seq<string>)
    requires forall m :: m in ms ==> m.PointForecast?
    ensures |ps| == |ms| && forall i :: 0 <= i < |ms| ==> ps[i] == ms[i].point
  {
    seq(|ms|, i requires 0 <= i < |ms| => ms[i].point)
  }

  /** The requests for one more route point. */
  lemma RequestsSnoc(route: seq<string>, i: nat, interval: int)
    requires i < |route|
    ensures Requests(route[..i + 1], interval) ==
      Requests(route[..i], interval) + [BuildRequest(route[i], interval)]
  {
  }

  /** The messages for one more route point. */
  lemma PointMessagesSnoc(route: seq<string>, interval: int, replies: seq<Reply>, i: nat)
    requires |replies| == |route| && i < |route|
    ensures PointMessages(route[..i + 1], interval, replies[..i + 1]) ==
      PointMessages(route[..i], interval, replies[..i]) + PointMessage(route[i], interval, replies[i])
  {
    assert route[..i + 1] == route[..i] + [route[i]];
    assert replies[..i + 1] == replies[..i] + [replies[i]];
    PointMessagesAppend(route[..i], [route[i]], interval, replies[..i], [replies[i]]);
  }

  /** A three-point route whose middle point fails: the first and last
      points still get their forecasts, in that order. */
  lemma MiddlePointFails(route: seq<string>, interval: int, replies: seq<Reply>)
    requires |route| == |replies| == 3
    requires Usable(WeatherOf(replies[0])) && Usable(WeatherOf(replies[2]))
    requires !Usable(WeatherOf(replies[1]))
    ensures PointMessages(route, interval, replies) ==
      [ PointForecast(route[0], interval, DayWord(interval), WeatherOf(replies[0]).forecasts),
        PointForecast(route[2], interval, DayWord(interval), WeatherOf(replies[2]).forecasts) ]
  {
    assert route == route[..1] + route[1..2] + route[2..];
    assert replies == replies[..1] + replies[1..2] + replies[2..];
    PointMessagesAppend(route[..1], route[1..2], interval, replies[..1], replies[1..2]);
    PointMessagesAppend(route[..2], route[2..], interval, replies[..2], replies[2..]);
    assert route[..1] + route[1..2] == route[..2];
    assert replies[..1] + replies[1..2] == replies[..2];
  }

  /** The route list of `process_interval`, built in place: the start
      point, then the stops when stored, then the end point; `None` where a
      lookup raises. */
  method AssembleRoute(data: SessionData) returns (route: Option<seq<string>>)
    ensures route == RouteOf(data)
  {
    if data.startPoint.None? {
      return None;
    }
    var routePoints := [data.startPoint.value];
    if data.stops.Some? {
      routePoints := routePoints + data.stops.value;
    }
    if data.endPoint.None? {
      return None;
    }
    routePoints := routePoints + [data.endPoint.value];
    assert data.stops.None? ==> routePoints == [data.startPoint.value] + [] + [data.endPoint.value];
    route := Some(routePoints);
  }

  /** What the interval callback adds: the messages sent and the requests
      made. */
  datatype Effect = Effect(messages: seq<Outgoing>, requests: seq<Request>)

  /** The interval callback on session data `data`: `None` when `int()`
      rejects the tag or a route key is missing (the handler raises before
      sending anything); otherwise the announcement, one forecast per usable
      point, the closing message and the callback answer, and one request per
      route point. */
  function IntervalEffect(data: SessionData, tag: string, replies: seq<Reply>): (e: Option<Effect>)
    requires "interval_" <= tag
    requires RouteOf(data).Some? ==> |replies| == |RouteOf(data).value|
  {
    var parsed := ParseIntervalTag(tag);
    var route := RouteOf(data);
    if parsed.None? || route.None? then None
    else
      var n := parsed.value;
      Some(Effect(
        [Collecting(n, DayWord(n))] + PointMessages(route.value, n, replies)
          + [RouteComplete, CallbackAnswered],
        Requests(route.value, n)))
  }

  /** No effect when the tag does not parse or a route end is missing. */
  lemma IntervalEffectNone(data: SessionData, tag: string, replies: seq<Reply>)
    requires "interval_" <= tag
    requires RouteOf(data).Some? ==> |replies| == |RouteOf(data).value|
    requires ParseIntervalTag(tag).None? || RouteOf(data).None?
    ensures IntervalEffect(data, tag, replies).None?
  {
  }

  /** The effect once the tag has given `n` and the data the route. */
  lemma IntervalEffectOf(data: SessionData, tag: string, replies: seq<Reply>, n: int, route: seq<string>)
    requires "interval_" <= tag
    requires ParseIntervalTag(tag) == Some(n) && RouteOf(data) == Some(route) && |replies| == |route|
    ensures IntervalEffect(data, tag, replies) == Some(Effect(
      [Collecting(n, DayWord(n))] + PointMessages(route, n, replies) + [RouteComplete, CallbackAnswered],
      Requests(route, n)))
  {
  }

  /** The callback takes effect exactly when the tag parses and both route
      ends are stored; it then asks for every route point once, in order,
      and sends three messages more than there are usable replies. */
  lemma IntervalEffectSpec(data: SessionData, tag: string, replies: seq<Reply>)
    requires "interval_" <= tag
    requires RouteOf(data).Some? ==> |replies| == |RouteOf(data).value|
    ensures IntervalEffect(data, tag, replies).Some? <==>
      ParseIntervalTag(tag).Some? && data.startPoint.Some? && data.endPoint.Some?
    ensures IntervalEffect(data, tag, replies).Some? ==>
      var e := IntervalEffect(data, tag, replies).value;
      var n := ParseIntervalTag(tag).value;
      && |e.requests| == |replies|
      && (forall i :: 0 <= i < |replies| ==>
            e.requests[i].city == RouteOf(data).value[i] && e.requests[i].count == n * SamplesPerDay)
      && |e.messages| == 3 + multiset(UsableFlags(replies))[true]
      && e.messages[0] == Collecting(n, DayWord(n))
      && e.messages[|e.messages| - 2..] == [RouteComplete, CallbackAnswered]
    ensures IntervalEffect(data, tag, replies).Some? ==>
      var e := IntervalEffect(data, tag, replies).value;
      var n := ParseIntervalTag(tag).value;
      var mid := e.messages[1..|e.messages| - 2];
      && (forall m :: m in mid ==> m.PointForecast? && m.interval == n && m.word == DayWord(n))
      && IsSubsequence(PointsOf(mid), RouteOf(data).value)
  {
    if IntervalEffect(data, tag, replies).Some? {
      var n := ParseIntervalTag(tag).value;
      var route := RouteOf(data).value;
      var e := IntervalEffect(data, tag, replies).value;
      PointMessagesCount(route, n, replies);
      PointMessagesAreForecasts(route, n, replies);
      PointMessagesInRouteOrder(route, n, replies);
      assert e.messages[1..|e.messages| - 2] == PointMessages(route, n, replies);
    }
  }

  /** The interval callback sends only the announcement, forecasts, the
      closing message and the answer: never the interval keyboard. */
  lemma IntervalEffectOffersNoKeyboard(data: SessionData, tag: string, replies: seq<Reply>)
    requires "interval_" <= tag
    requires RouteOf(data).Some? ==> |replies| == |RouteOf(data).value|
    ensures IntervalEffect(data, tag, replies).Some? ==>
      forall m :: m in IntervalEffect(data, tag, replies).value.messages ==> !m.AskInterval?
  {
    if IntervalEffect(data, tag, replies).Some? {
      var n := ParseIntervalTag(tag).value;
      var route := RouteOf(data).value;
      PointMessagesAreForecasts(route, n, replies);
      var points := PointMessages(route, n, replies);
      forall m | m in IntervalEffect(data, tag, replies).value.messages
        ensures !m.AskInterval?
      {
        assert m in [Collecting(n, DayWord(n))] || m in points || m in [RouteComplete, CallbackAnswered];
      }
    }
  }

  /** One user's FSM context and what the bot has sent and requested. */
  class Chat {
    var state: Option<WeatherState>
    var data: SessionData
    var sent: seq<Outgoing>
    var requests: seq<Request>

    ghost predicate Reachable()
      reads this
    {
      ReachableState(state)
    }

    /** A user the bot has not talked to yet. */
    constructor ()
      ensures state == None && data == EmptyData && sent == [] && requests == []
      ensures Reachable()
    {
      state := None;
      data := EmptyData;
      sent := [];
      requests := [];
    }

    /** `cmd_start`. */
    method CmdStart()
      modifies this`sent
      ensures sent == old(sent) + [Greeting]
    {
      sent := sent + [Greeting];
    }

    /** `cmd_weather`: start (or restart) the dialogue; the data stays. */
    method CmdWeather()
      modifies this`state, this`sent
      ensures state == Some(WaitingForStartPoint)
      ensures sent == old(sent) + [AskStartPoint]
    {
      state := Some(WaitingForStartPoint);
      sent := sent + [AskStartPoint];
    }

    /** `process_start_point`. */
    method ProcessStartPoint(text: string)
      modifies this`state, this`data, this`sent
      ensures data == old(data).(startPoint := Some(text))
      ensures state == Some(WaitingForEndPoint)
      ensures sent == old(sent) + [AskEndPoint]
    {
      data := data.(startPoint := Some(text));
      state := Some(WaitingForEndPoint);
      sent := sent + [AskEndPoint];
    }

    /** `process_end_point`: stores the end point only; the yes/no keyboard
        it builds is never sent and the state stays `waiting_for_end_point`. */
    method ProcessEndPoint(text: string)
      modifies this`data
      ensures data == old(data).(endPoint := Some(text))
    {
      data := data.(endPoint := Some(text));
    }

    /** `process_stops`: stores the split stop list and offers the interval
        keyboard; the state does not change. */
    method ProcessStops(text: string)
      modifies this`data, this`sent
      ensures data == old(data).(stops := Some(SplitStops(text)))
      ensures sent == old(sent) + [AskInterval(IntervalKeyboard())]
    {
      data := data.(stops := Some(SplitStops(text)));
      sent := sent + [AskInterval(IntervalKeyboard())];
    }

    /** `handle_unknown_message`. */
    method HandleUnknownMessage()
      modifies this`sent
      ensures sent == old(sent) + [NotUnderstood]
    {
      sent := sent + [NotUnderstood];
    }

    /** The forecast loop of `process_interval`: one provider call per
        route point, in order, and a message for every point whose result is
        usable. */
    method CollectForecasts(routePoints: seq<string>, interval: int, replies: seq<Reply>)
      requires |replies| == |routePoints|
      modifies this`sent, this`requests
      ensures requests == old(requests) + Requests(routePoints, interval)
      ensures sent == old(sent) + PointMessages(routePoints, interval, replies)
    {
      var word := DayWord(interval);
      ghost var sent0, requests0 := sent, requests;
      var i := 0;
      while i < |routePoints|
        invariant 0 <= i <= |routePoints|
        invariant requests == requests0 + Requests(routePoints[..i], interval)
        invariant sent == sent0 + PointMessages(routePoints[..i], interval, replies[..i])
      {
        var point := routePoints[i];
        var request, weather := GetWeather(point, interval, replies[i]);
        ghost var done := PointMessages(routePoints[..i], interval, replies[..i]);
        RequestsSnoc(routePoints, i, interval);
        PointMessagesSnoc(routePoints, interval, replies, i);
        requests := requests + [request];
        if weather.Weather? && weather.forecasts != [] && weather.dates != [] && weather.temps != [] {
          assert PointMessage(point, interval, replies[i]) == [PointForecast(point, interval, word, weather.forecasts)];
          sent := sent + [PointForecast(point, interval, word, weather.forecasts)];
        } else {
          assert PointMessage(point, interval, replies[i]) == [];
        }
        assert sent == sent0 + (done + PointMessage(point, interval, replies[i]));
        i := i + 1;
      }
      assert routePoints[..i] == routePoints && replies[..i] == replies;
    }

    /** `process_interval`, with `replies[i]` standing for the provider's
        answer for the `i`-th route point. Runs in any state. */
    method ProcessInterval(tag: string, replies: seq<Reply>)
      requires "interval_" <= tag
      requires RouteOf(data).Some? ==> |replies| == |RouteOf(data).value|
      modifies this`state, this`data, this`sent, this`requests
      ensures IntervalEffect(old(data), tag, replies).None? ==>
        state == old(state) && data == old(data) && sent == old(sent) && requests == old(requests)
      ensures IntervalEffect(old(data), tag, replies).Some? ==>
        && state == None && data == EmptyData
        && sent == old(sent) + IntervalEffect(old(data), tag, replies).value.messages
        && requests == old(requests) + IntervalEffect(old(data), tag, replies).value.requests
    {
      var parsed := ParseIntervalTag(tag);
      if parsed.None? {
        IntervalEffectNone(data, tag, replies);
        return;
      }
      var interval := parsed.value;
      var route := AssembleRoute(data);
      if route.None? {
        IntervalEffectNone(data, tag, replies);
        return;
      }
      var routePoints := route.value;
      ghost var messages := PointMessages(routePoints, interval, replies);
      IntervalEffectOf(data, tag, replies, interval, routePoints);
      ghost var sent0 := sent;
      sent := sent + [Collecting(interval, DayWord(interval))];
      CollectForecasts(routePoints, interval, replies);
      sent := sent + [RouteComplete];
      state := None;
      data := EmptyData;
      sent := sent + [CallbackAnswered];
      AppendRegroup(sent0, [Collecting(interval, DayWord(interval))], messages, [RouteComplete], [CallbackAnswered]);
    }

    /** A text message, dispatched to the first handler whose filter
        matches. */
    method OnMessage(text: string)
      modifies this`state, this`data, this`sent
      ensures match MessageHandler(old(state), text)
        case StartCommand =>
          state == old(state) && data == old(data) && sent == old(sent) + [Greeting]
        case WeatherCommand =>
          state == Some(WaitingForStartPoint) && data == old(data) && sent == old(sent) + [AskStartPoint]
        case StartPointStep =>
          && state == Some(WaitingForEndPoint) && data == old(data).(startPoint := Some(text))
          && sent == old(sent) + [AskEndPoint]
        case EndPointStep =>
          state == old(state) && data == old(data).(endPoint := Some(text)) && sent == old(sent)
        case StopsStep =>
          && state == old(state) && data == old(data).(stops := Some(SplitStops(text)))
          && sent == old(sent) + [AskInterval(IntervalKeyboard())]
        case Fallback =>
          state == old(state) && data == old(data) && sent == old(sent) + [NotUnderstood]
      ensures old(Reachable()) ==> Reachable()
    {
      match MessageHandler(state, text)
      case StartCommand => CmdStart();
      case WeatherCommand => CmdWeather();
      case StartPointStep => ProcessStartPoint(text);
      case EndPointStep => ProcessEndPoint(text);
      case StopsStep => ProcessStops(text);
      case Fallback => HandleUnknownMessage();
    }

    /** A button press. Only `interval_` tags have a handler; the yes/no
        stops buttons are never offered and would go unhandled. */
    method OnCallback(tag: string, replies: seq<Reply>)
      requires "interval_" <= tag && RouteOf(data).Some? ==> |replies| == |RouteOf(data).value|
      modifies this`state, this`data, this`sent, this`requests
      ensures !("interval_" <= tag) || IntervalEffect(old(data), tag, replies).None? ==>
        state == old(state) && data == old(data) && sent == old(sent) && requests == old(requests)
      ensures "interval_" <= tag && IntervalEffect(old(data), tag, replies).Some? ==>
        && state == None && data == EmptyData
        && sent == old(sent) + IntervalEffect(old(data), tag, replies).value.messages
        && requests == old(requests) + IntervalEffect(old(data), tag, replies).value.requests
      ensures old(Reachable()) ==> Reachable()
    {
      if "interval_" <= tag {
        ProcessInterval(tag, replies);
      }
    }
  }

  /** A new user sends /weather, a start point and an end point. */
  method EnterRouteEnds(start: string, end: string) returns (chat: Chat)
    requires start != "/start" && start != "/weather" && end != "/start" && end != "/weather"
    ensures fresh(chat)
    ensures chat.state == Some(WaitingForEndPoint)
    ensures chat.data == SessionData(Some(start), Some(end), None)
    ensures chat.sent == [AskStartPoint, AskEndPoint] && chat.requests == []
  {
    chat := new Chat();
    chat.OnMessage("/weather");
    assert chat.state == Some(WaitingForStartPoint) && chat.data == EmptyData;
    chat.OnMessage(start);
    assert chat.state == Some(WaitingForEndPoint);
    chat.OnMessage(end);
  }

  /** The effect of the button for `n` days on a session holding two route
      ends and no stops. */
  lemma IntervalForTwoPoints(start: string, end: string, n: nat, replies: seq<Reply>)
    requires |replies| == 2
    ensures IntervalEffect(SessionData(Some(start), Some(end), None), IntervalTag(n), replies)
      == Some(Effect(
           [Collecting(n, DayWord(n))] + PointMessages([start, end], n, replies) + [RouteComplete, CallbackAnswered],
           [BuildRequest(start, n), BuildRequest(end, n)]))
  {
    var data := SessionData(Some(start), Some(end), None);
    assert [start] + [] + [end] == [start, end];
    assert RouteOf(data) == Some([start, end]);
    IntervalTagRoundTrip(n);
    assert Requests([start, end], n) == [BuildRequest(start, n), BuildRequest(end, n)];
    IntervalEffectOf(data, IntervalTag(n), replies, n, [start, end]);
  }

  /** /weather, a start point and an end point, then a callback carrying
      `interval_N` for one of the offered counts. The bot itself never shows
      that keyboard (`Converse`), so the press stands for callback data the
      dispatcher receives anyway. Both points are asked for, in order; no
      stops can be entered. */
  method PlanRoute(start: string, end: string, days: nat, replies: seq<Reply>)
    returns (sent: seq<Outgoing>, requests: seq<Request>)
    requires start != "/start" && start != "/weather" && end != "/start" && end != "/weather"
    requires days in OfferedDays
    requires |replies| == 2
    ensures sent == [AskStartPoint, AskEndPoint]
      + ([Collecting(days, DayWord(days))] + PointMessages([start, end], days, replies)
         + [RouteComplete, CallbackAnswered])
    ensures requests == [BuildRequest(start, days), BuildRequest(end, days)]
  {
    var chat := EnterRouteEnds(start, end);
    IntervalForTwoPoints(start, end, days, replies);
    chat.OnCallback(IntervalTag(days), replies);
    sent, requests := chat.sent, chat.requests;
  }

  /** What a user can send: a text message, or a button press with the
      provider's answer for each city the interval handler asks about. */
  datatype Event =
    | TextMessage(text: string)
    | Press(tag: string, answer: string -> Reply)

  /** The provider's answers for the points of the stored route. */
  function RouteReplies(data: SessionData, answer: string -> Reply): (replies: seq<Reply>)
    ensures RouteOf(data).Some? ==> |replies| == |RouteOf(data).value|
  {
    match RouteOf(data)
    case Some(route) => seq(|route|, i requires 0 <= i < |route| => answer(route[i]))
    case None => []
  }

  /** One message or press from a state the handlers can set: the user
      stays in such a state and the interval keyboard is not sent. */
  method Receive(chat: Chat, event: Event)
    requires chat.Reachable()
    modifies chat
    ensures chat.Reachable()
    ensures |old(chat.sent)| <= |chat.sent| && chat.sent[..|old(chat.sent)|] == old(chat.sent)
    ensures forall m :: m in chat.sent[|old(chat.sent)|..] ==> !m.AskInterval?
  {
    match event {
      case TextMessage(text) =>
        StopsStepNeverRuns(chat.state, text);
        chat.OnMessage(text);
      case Press(tag, answer) =>
        var replies := RouteReplies(chat.data, answer);
        if "interval_" <= tag {
          IntervalEffectOffersNoKeyboard(chat.data, tag, replies);
        }
        chat.OnCallback(tag, replies);
    }
  }

  /** Any run of messages and presses from a state the handlers can set:
      the interval keyboard is never among what the bot sends, because
      `process_stops`, its only sender, is never reached. */
  method Converse(chat: Chat, events: seq<Event>)
    requires chat.Reachable()
    modifies chat
    ensures chat.Reachable()
    ensures |old(chat.sent)| <= |chat.sent| && chat.sent[..|old(chat.sent)|] == old(chat.sent)
    ensures forall m :: m in chat.sent[|old(chat.sent)|..] ==> !m.AskInterval?
  {
    ghost var sent0 := chat.sent;
    var i := 0;
    while i < |events|
      invariant 0 <= i <= |events|
      invariant chat.Reachable()
      invariant |sent0| <= |chat.sent| && chat.sent[..|sent0|] == sent0
      invariant forall m :: m in chat.sent[|sent0|..] ==> !m.AskInterval?
    {
      ghost var before := chat.sent;
      Receive(chat, events[i]);
      assert chat.sent[..|before|] == before;
      assert chat.sent[|sent0|..] == before[|sent0|..] + chat.sent[|before|..];
      i := i + 1;
    }
  }

  /** A user who types the stops after the end point replaces the end point
      with that text: the state is still `waiting_for_end_point`. */
  method PlanRouteTypingStops(start: string, end: string, stopsText: string, days: nat, replies: seq<Reply>)
    returns (requests: seq<Request>)
    requires start != "/start" && start != "/weather" && end != "/start" && end != "/weather"
    requires stopsText != "/start" && stopsText != "/weather"
    requires days in OfferedDays
    requires |replies| == 2
    ensures requests == [BuildRequest(start, days), BuildRequest(stopsText, days)]
  {
    var chat := EnterRouteEnds(start, end);
    chat.OnMessage(stopsText);
    assert chat.data == SessionData(Some(start), Some(stopsText), None);
    IntervalForTwoPoints(start, stopsText, days, replies);
    chat.OnCallback(IntervalTag(days), replies);
    requests := chat.requests;
  }
}
