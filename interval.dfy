/**
 * The forecast interval: the inline keyboard that offers it, the
 * `interval_N` callback tag each button carries, how the handler reads N
 * back with `int(tag.split("_")[1])`, and the Russian word for "days"
 * that goes with N in every message.
 */
module Interval {
  import opened Wrappers
  import opened Text

  /** The noun after a day count: "день" for 1, "дня" below 5, "дней" otherwise. */
  function DayWord(n: int): (w: string)
    ensures w == "день" <==> n == 1
    ensures w == "дня" <==> n != 1 && n < 5
    ensures w == "дней" <==> n >= 5
  {
    if n == 1 then "день" else if n < 5 then "дня" else "дней"
  }

  predicate IsDigit(c: char)
  {
    '0' <= c <= '9'
  }

  predicate AllDigits(s: string)
  {
    forall i :: 0 <= i < |s| ==> IsDigit(s[i])
  }

  /** `str(n)` for a natural number. */
  function DecimalString(n: nat): (s: string)
    ensures |s| >= 1 && AllDigits(s)
    ensures |s| > 1 ==> s[0] != '0'
  {
    var d := [('0' as int + n % 10) as char];
    if n < 10 then d else DecimalString(n / 10) + d
  }

  /** The value of a string of decimal digits. */
  function DigitsValue(s: string): nat
    requires AllDigits(s)
  {
    if s == [] then 0
    else DigitsValue(s[..|s| - 1]) * 10 + (s[|s| - 1] as int - '0' as int)
  }

  /** Python's `int(s)` on text: whitespace around, an optional sign, then one
      or more ASCII digits; anything else raises, here `None`. */
  function ParseInt(s: string): (r: Option<int>)
  {
    var t := Strip(s);
    var negative := t != [] && t[0] == '-';
    var body := if t != [] && (t[0] == '-' || t[0] == '+') then t[1..] else t;
    if body != [] && AllDigits(body) then
      var magnitude: int := DigitsValue(body);
      Some(if negative then -magnitude else magnitude)
    else None
  }

  /** Reading the digits of `str(n)` gives back `n`. */
  lemma {:induction false} DigitsRoundTrip(n: nat)
    ensures DigitsValue(DecimalString(n)) == n
  {
    var s := DecimalString(n);
    if n >= 10 {
      DigitsRoundTrip(n / 10);
      assert s[..|s| - 1] == DecimalString(n / 10);
    }
  }

  /** `int(str(n)) == n`. */
  lemma ParseIntRoundTrip(n: nat)
    ensures ParseInt(DecimalString(n)) == Some(n)
  {
    var s := DecimalString(n);
    assert !IsSpace(s[0]) && !IsSpace(s[|s| - 1]);
    StripUntouched(s);
    DigitsRoundTrip(n);
  }

  /** The callback data of the button for `n` days. */
  function IntervalTag(n: nat): (tag: string)
    ensures "interval_" <= tag && |tag| > |"interval_"|
    ensures forall i :: |"interval_"| <= i < |tag| ==> IsDigit(tag[i])
  {
    "interval_" + DecimalString(n)
  }

  /** `int(tag.split("_")[1])` in the interval handler; `None` when `int`
      raises. Only tags that start with `interval_` reach the handler. */
  function ParseIntervalTag(tag: string): (r: Option<int>)
    requires "interval_" <= tag
  {
    IntervalTagSplits(tag);
    ParseInt(Split(tag, '_')[1])
  }

  /** A tag that passes the handler's filter splits into at least two pieces,
      and the second is whatever follows `interval_` up to the next `_`. */
  lemma IntervalTagSplits(tag: string)
    requires "interval_" <= tag
    ensures |Split(tag, '_')| >= 2
  {
    assert tag == "interval" + ['_'] + tag[9..];
    SplitAfterFirst("interval", '_', tag[9..]);
  }

  /** Every tag the keyboard offers parses back to its own day count. */
  lemma IntervalTagRoundTrip(n: nat)
    ensures ParseIntervalTag(IntervalTag(n)) == Some(n)
  {
    var d := DecimalString(n);
    assert IntervalTag(n) == "interval" + ['_'] + d;
    SplitAfterFirst("interval", '_', d);
    assert '_' !in d by {
      assert forall i :: 0 <= i < |d| ==> IsDigit(d[i]);
    }
    SplitWhole(d, '_');
    ParseIntRoundTrip(n);
  }

  datatype Button = Button(text: string, callbackData: string)

  /** The inline keyboard of `get_interval_keyboard`: "1 день" and "3 дня"
      on the first row, "5 дней" on the second. */
  function IntervalKeyboard(): seq<seq<Button>>
  {
    [ [Button("1 день", "interval_1"), Button("3 дня", "interval_3")],
      [Button("5 дней", "interval_5")] ]
  }

  /** The day counts offered, in keyboard order. */
  const OfferedDays: seq<nat> := [1, 3, 5]

  /** The button for `n` days: labelled with the count and the matching day
      word, tagged with `interval_n`. */
  function OfferButton(n: nat): Button
  {
    Button(DecimalString(n) + " " + DayWord(n), IntervalTag(n))
  }

  /** The keyboard offers exactly 1, 3 and 5 days, in that order, each
      button labelled with its count and day word. */
  lemma KeyboardOffersOfferedDays()
    ensures IntervalKeyboard() == [[OfferButton(1), OfferButton(3)], [OfferButton(5)]]
  {
    assert DecimalString(1) == "1";
    assert DecimalString(3) == "3";
    assert DecimalString(5) == "5";
    assert OfferButton(1) == Button("1 день", "interval_1");
    assert OfferButton(3) == Button("3 дня", "interval_3");
    assert OfferButton(5) == Button("5 дней", "interval_5");
  }

  /** Each offered button's tag reads back as the count on its label. */
  lemma OfferedTagsParse()
    ensures forall n :: n in OfferedDays ==> ParseIntervalTag(OfferButton(n).callbackData) == Some(n)
  {
    forall n | n in OfferedDays
      ensures ParseIntervalTag(OfferButton(n).callbackData) == Some(n)
    {
      IntervalTagRoundTrip(n);
    }
  }
}
