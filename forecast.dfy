/**
 * `get_weather`: one request to the forecast provider for `days * 8`
 * three-hour samples, and the reduction of the reply to a day summary
 * list plus the full date and temperature series.
 */
module Forecast {
  import opened Seqs

  /** One entry of the provider's `list`. `stamp` is the entry's `dt`; `hour`
      is its local hour after `datetime.fromtimestamp`; the readings are
      carried, never computed with. */
  datatype Sample = Sample(
    stamp: int, hour: int, temp: real, humidity: real, wind: real, description: string)

  /** What the provider call gives back: an exception anywhere in the call or
      the decoding of its body, or a status code with the decoded samples. */
  datatype Reply = Raised | Replied(status: int, samples: seq<Sample>)

  /** The query parameters of the request (the API key is not modelled). */
  datatype Request = Request(city: string, units: string, lang: string, count: int)

  /** `(forecasts, dates, temps)`, or `(None, None, None)` as `Unavailable`. */
  datatype Weather =
    | Unavailable
    | Weather(forecasts: seq<Sample>, dates: seq<int>, temps: seq<real>)

  /** Samples per day: one every three hours. */
  const SamplesPerDay := 8
  const StatusOk := 200
  /** The hour whose sample represents a day. */
  const NoonHour := 12

  /** The query for `days` days of forecast for `city`. */
  function BuildRequest(city: string, days: int): (q: Request)
    ensures q.city == city && q.units == "metric" && q.lang == "ru"
    ensures q.count % SamplesPerDay == 0 && q.count / SamplesPerDay == days
  {
    Request(city, "metric", "ru", days * SamplesPerDay)
  }

  /** The samples taken at noon, in input order. */
  function Noon(s: seq<Sample>): seq<Sample>
  {
    if s == [] then [] else (if s[0].hour == NoonHour then [s[0]] else []) + Noon(s[1..])
  }

  /** The day summaries: the first sample, then every later noon sample. */
  function Summaries(s: seq<Sample>): seq<Sample>
  {
    if s == [] then [] else [s[0]] + Noon(s[1..])
  }

  /** The hours of the samples, in order. */
  function Hours(s: seq<Sample>): seq<int>
  {
    seq(|s|, i requires 0 <= i < |s| => s[i].hour)
  }

  /** The `dates` series: every sample's stamp, in sample order. */
  function Stamps(s: seq<Sample>): (r: seq<int>)
    ensures |r| == |s| && forall i :: 0 <= i < |s| ==> r[i] == s[i].stamp
  {
    seq(|s|, i requires 0 <= i < |s| => s[i].stamp)
  }

  /** The `temps` series: every sample's temperature, in sample order. */
  function Temps(s: seq<Sample>): (r: seq<real>)
    ensures |r| == |s| && forall i :: 0 <= i < |s| ==> r[i] == s[i].temp
  {
    seq(|s|, i requires 0 <= i < |s| => s[i].temp)
  }

  /** What `get_weather` returns for a provider reply. */
  function WeatherOf(reply: Reply): (w: Weather)
    ensures w.Weather? <==> reply.Replied? && reply.status == StatusOk
    ensures w.Weather? ==>
      && w.forecasts == Summaries(reply.samples)
      && |w.dates| == |w.temps| == |reply.samples|
      && (forall i :: 0 <= i < |reply.samples| ==>
            w.dates[i] == reply.samples[i].stamp && w.temps[i] == reply.samples[i].temp)
  {
    match reply
    case Raised => Unavailable
    case Replied(status, samples) =>
      if status == StatusOk then Weather(Summaries(samples), Stamps(samples), Temps(samples))
      else Unavailable
  }

  /** The caller's test `if forecasts and dates and temps`: all three lists
      present and non-empty. */
  predicate Usable(w: Weather)
  {
    w.Weather? && w.forecasts != [] && w.dates != [] && w.temps != []
  }

  /** A reply is usable exactly when the status is 200 and at least one
      sample came back. */
  lemma UsableIff(reply: Reply)
    ensures Usable(WeatherOf(reply)) <==>
      reply.Replied? && reply.status == StatusOk && reply.samples != []
  {
  }

  /** Appending a sample extends the noon list by that sample when it is a
      noon sample. */
  lemma {:induction false} NoonSnoc(s: seq<Sample>, x: Sample)
    ensures Noon(s + [x]) == Noon(s) + (if x.hour == NoonHour then [x] else [])
  {
    if s != [] {
      assert (s + [x])[1..] == s[1..] + [x];
      NoonSnoc(s[1..], x);
    } else {
      assert [] + [x] == [x];
    }
  }

  /** Appending a sample adds it to the summaries when it is a noon sample
      or when there were no summaries yet: the test in the source loop. */
  lemma SummariesSnoc(s: seq<Sample>, x: Sample)
    ensures Summaries(s + [x]) ==
      Summaries(s) + (if x.hour == NoonHour || Summaries(s) == [] then [x] else [])
  {
    if s != [] {
      assert (s + [x])[1..] == s[1..] + [x];
      NoonSnoc(s[1..], x);
    } else {
      assert [] + [x] == [x];
    }
  }

  /** The noon samples keep the input order. */
  lemma {:induction false} NoonSubsequence(s: seq<Sample>)
    ensures IsSubsequence(Noon(s), s)
  {
    if s != [] {
      NoonSubsequence(s[1..]);
      SubsequenceCons(s[0], Noon(s[1..]), s[1..]);
      assert [s[0]] + s[1..] == s;
      if s[0].hour == NoonHour {
        assert Noon(s) == [s[0]] + Noon(s[1..]);
      } else {
        assert Noon(s) == Noon(s[1..]);
      }
    }
  }

  /** The noon samples are exactly the samples whose hour is 12. */
  lemma {:induction false} NoonMembers(s: seq<Sample>)
    ensures forall x :: x in Noon(s) <==> x in s && x.hour == NoonHour
  {
    if s != [] {
      NoonMembers(s[1..]);
      assert forall x :: x in s <==> x == s[0] || x in s[1..];
    }
  }

  /** There are as many noon samples as there are 12s among the hours. */
  lemma {:induction false} NoonCount(s: seq<Sample>)
    ensures |Noon(s)| == multiset(Hours(s))[NoonHour]
  {
    if s == [] {
      assert Hours(s) == [];
    } else {
      NoonCount(s[1..]);
      assert Hours(s) == [s[0].hour] + Hours(s[1..]);
    }
  }

  /** The summary list keeps the input order: it is a subsequence of the
      samples, empty exactly for no samples, starting with the first sample,
      and every later entry is a noon sample. */
  lemma SummariesOrder(s: seq<Sample>)
    ensures var r := Summaries(s);
      && IsSubsequence(r, s)
      && (s == [] <==> r == [])
      && (s != [] ==> r[0] == s[0])
      && (forall k :: 1 <= k < |r| ==> r[k].hour == NoonHour)
  {
    if s != [] {
      var rest := Noon(s[1..]);
      NoonSubsequence(s[1..]);
      NoonMembers(s[1..]);
      SubsequenceCons(s[0], rest, s[1..]);
      assert [s[0]] + s[1..] == s;
      forall k | 1 <= k < |Summaries(s)|
        ensures Summaries(s)[k].hour == NoonHour
      {
        assert Summaries(s)[k] == rest[k - 1];
        assert rest[k - 1] in rest;
      }
    }
  }

  /** The summary list covers the noon samples: it holds every sample whose
      hour is 12, nothing that is not a sample, and for a non-empty input one
      entry more than there are noon samples after the first. */
  lemma SummariesCoverage(s: seq<Sample>)
    ensures var r := Summaries(s);
      && (forall x :: x in s && x.hour == NoonHour ==> x in r)
      && (forall x :: x in r ==> x in s)
      && (s != [] ==> |r| == 1 + multiset(Hours(s[1..]))[NoonHour])
  {
    if s != [] {
      NoonMembers(s[1..]);
      NoonCount(s[1..]);
      assert forall x :: x in s <==> x == s[0] || x in s[1..];
      assert forall x :: x in Summaries(s) <==> x == s[0] || x in Noon(s[1..]);
    }
  }

  /** A one-day forecast that starts at 09:00 yields two summaries, 09:00 and
      12:00 of the same day: the rule is "first sample or noon", not "one per
      day". */
  lemma MoreSummariesThanDays(s: seq<Sample>)
    requires Hours(s) == [9, 12, 15, 18, 21, 0, 3, 6]
    ensures |s| == BuildRequest("", 1).count
    ensures Summaries(s) == [s[0], s[1]]
  {
    assert |s| == |Hours(s)| == 8;
    var later := s[2..];
    assert s[1..] == [s[1]] + later;
    assert s[1].hour == Hours(s)[1] == NoonHour;
    forall x | x in later
      ensures x.hour != NoonHour
    {
      var i :| 0 <= i < |later| && later[i] == x;
      assert x.hour == Hours(s)[i + 2];
    }
    assert Noon(later) == [] by {
      NoonMembers(later);
      if Noon(later) != [] {
        assert Noon(later)[0] in Noon(later);
      }
    }
  }

  /** `get_weather(city, days)` with `reply` standing for what the provider
      returns to the request; returns the request it makes and the result. */
  method GetWeather(city: string, days: int, reply: Reply) returns (request: Request, result: Weather)
    ensures request == BuildRequest(city, days)
    ensures result == WeatherOf(reply)
  {
    request := BuildRequest(city, days);
    match reply {
      case Raised =>
        result := Unavailable;
      case Replied(status, items) =>
        if status != StatusOk {
          result := Unavailable;
          return;
        }
        var forecasts: seq<Sample> := [];
        var temps: seq<real> := [];
        var dates: seq<int> := [];
        var i := 0;
        while i < |items|
          invariant 0 <= i <= |items|
          invariant forecasts == Summaries(items[..i])
          invariant temps == Temps(items[..i])
          invariant dates == Stamps(items[..i])
        {
          var item := items[i];
          assert items[..i + 1] == items[..i] + [item];
          SummariesSnoc(items[..i], item);
          if item.hour == NoonHour || |forecasts| == 0 {
            forecasts := forecasts + [item];
          }
          temps := temps + [item.temp];
          dates := dates + [item.stamp];
          i := i + 1;
        }
        assert items[..i] == items;
        result := Weather(forecasts, dates, temps);
    }
  }
}
