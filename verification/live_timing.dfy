/** Loop timing of `run_live.py`: the candle period string reported by the exchange
    ("15m", "4h", "1d", ...) becomes a sleep period in seconds, and the waits between cycles
    never drop below ten seconds. */
module LiveTiming {
  import opened Common

  /** The fallback period: one hour. */
  const DefaultSleep: int := 3600

  /** The string with every occurrence of `c` removed (str.replace(c, '')). */
  function RemoveAll(s: string, c: char): (r: string)
    ensures c !in r
    ensures |r| <= |s|
    ensures c !in s ==> r == s
    decreases |s|
  {
    if |s| == 0 then ""
    else (if s[0] == c then "" else [s[0]]) + RemoveAll(s[1..], c)
  }

  /** Exactly the occurrences of `c` go; every other character keeps its count. */
  lemma {:induction false} RemoveAllCounts(s: string, c: char)
    ensures multiset(RemoveAll(s, c)) == multiset(s)[c := 0]
    decreases |s|
  {
    if |s| > 0 {
      RemoveAllCounts(s[1..], c);
      assert s == [s[0]] + s[1..];
    }
  }

  /** Removal works character by character: it keeps the order of what remains. */
  lemma {:induction false} RemoveAllConcat(a: string, b: string, c: char)
    ensures RemoveAll(a + b, c) == RemoveAll(a, c) + RemoveAll(b, c)
    decreases |a|
  {
    if |a| > 0 {
      assert (a + b)[1..] == a[1..] + b;
      RemoveAllConcat(a[1..], b, c);
    } else {
      assert a + b == b;
    }
  }

  predicate IsDigit(ch: char)
  {
    '0' <= ch <= '9'
  }

  predicate AllDigits(s: string)
  {
    forall i :: 0 <= i < |s| ==> IsDigit(s[i])
  }

  /** Decimal value of a digit string (leading zeros allowed). */
  function DigitsValue(s: string): nat
    requires AllDigits(s)
    decreases |s|
  {
    if |s| == 0 then 0 else DigitsValue(s[..|s| - 1]) * 10 + (s[|s| - 1] as int - '0' as int)
  }

  /** Python's int() on an optional sign followed by ASCII digits; None stands for the
      ValueError raised by anything else. */
  function ParseInt(s: string): (r: Option<int>)
    ensures r.Some? ==> |s| > 0
    ensures r.Some? <==>
      || (|s| > 0 && AllDigits(s))
      || (|s| > 1 && (s[0] == '-' || s[0] == '+') && AllDigits(s[1..]))
    ensures |s| > 0 && AllDigits(s) ==> r == Some(DigitsValue(s))
    ensures |s| > 1 && s[0] == '-' && AllDigits(s[1..]) ==> r == Some(-(DigitsValue(s[1..]) as int))
    ensures |s| > 1 && s[0] == '+' && AllDigits(s[1..]) ==> r == Some(DigitsValue(s[1..]))
  {
    if |s| > 0 && (s[0] == '-' || s[0] == '+') then
      if |s| > 1 && AllDigits(s[1..]) then
        var magnitude: int := DigitsValue(s[1..]);
        Some(if s[0] == '-' then -magnitude else magnitude)
      else None
    else if |s| > 0 && AllDigits(s) then Some(DigitsValue(s))
    else None
  }

  /** Canonical decimal rendering of a natural number, the reference ParseInt inverts. */
  function Render(n: nat): (s: string)
    ensures |s| > 0 && AllDigits(s)
    decreases n
  {
    if n < 10 then [('0' as int + n) as char]
    else Render(n / 10) + [('0' as int + n % 10) as char]
  }

  lemma {:induction false} DigitsValueOfRender(n: nat)
    ensures DigitsValue(Render(n)) == n
    decreases n
  {
    if n >= 10 {
      DigitsValueOfRender(n / 10);
      var s := Render(n);
      assert s[..|s| - 1] == Render(n / 10);
    }
  }

  /** Round trip: parsing a rendered integer, with a minus sign when negative, gives it back. */
  lemma ParseRenderRoundTrip(n: int)
    ensures n >= 0 ==> ParseInt(Render(n)) == Some(n)
    ensures n < 0 ==> ParseInt("-" + Render(-n)) == Some(n)
  {
    if n >= 0 {
      DigitsValueOfRender(n);
    } else {
      DigitsValueOfRender(-n);
      assert ("-" + Render(-n))[1..] == Render(-n);
    }
  }

  /** Seconds per unit of the first unit letter found, testing 'm', then 'h', then 'd'. */
  function UnitSeconds(tf: string): (r: Option<(char, int)>)
    ensures r.Some? ==> r.value.0 in tf
    ensures r == Some(('m', 60)) <==> 'm' in tf
    ensures r == Some(('h', 3600)) <==> 'm' !in tf && 'h' in tf
    ensures r == Some(('d', 86400)) <==> 'm' !in tf && 'h' !in tf && 'd' in tf
    ensures r.None? <==> 'm' !in tf && 'h' !in tf && 'd' !in tf
  {
    if 'm' in tf then Some(('m', 60))
    else if 'h' in tf then Some(('h', 60 * 60))
    else if 'd' in tf then Some(('d', 60 * 60 * 24))
    else None
  }

  /** `sleep_seconds` from the exchange's period string; None stands for a failed lookup. An
      unrecognised unit or a number int() rejects falls back to one hour. */
  function SleepSeconds(tf: Option<string>): (secs: int)
    ensures tf.None? ==> secs == DefaultSleep
    ensures tf.Some? && UnitSeconds(tf.value).None? ==> secs == DefaultSleep
    ensures tf.Some? && UnitSeconds(tf.value).Some? ==>
      var u := UnitSeconds(tf.value).value;
      var n := ParseInt(RemoveAll(tf.value, u.0));
      (n.None? ==> secs == DefaultSleep) && (n.Some? ==> secs == n.value * u.1)
  {
    match tf
    case None => DefaultSleep
    case Some(s) =>
      if 'm' in s then
        match ParseInt(RemoveAll(s, 'm'))
        case Some(n) => n * 60
        case None => DefaultSleep
      else if 'h' in s then
        match ParseInt(RemoveAll(s, 'h'))
        case Some(n) => n * 60 * 60
        case None => DefaultSleep
      else if 'd' in s then
        match ParseInt(RemoveAll(s, 'd'))
        case Some(n) => n * 60 * 60 * 24
        case None => DefaultSleep
      else DefaultSleep
  }

  /** The usual exchange periods: a quarter hour, four hours, a day; a week falls back. */
  lemma QuarterHourSleep()
    ensures SleepSeconds(Some("15m")) == 900
  {
    RemoveSuffix("15", 'm');
    assert "15" + ['m'] == "15m";
    assert "15"[..1] == "1";
    assert DigitsValue("15") == 15;
  }

  lemma FourHourSleep()
    ensures SleepSeconds(Some("4h")) == 14400
  {
    assert 'm' !in "4h";
    RemoveSuffix("4", 'h');
    assert "4" + ['h'] == "4h";
  }

  lemma OneDaySleep()
    ensures SleepSeconds(Some("1d")) == 86400
  {
    assert 'm' !in "1d" && 'h' !in "1d";
    RemoveSuffix("1", 'd');
    assert "1" + ['d'] == "1d";
  }

  lemma WeekFallsBack()
    ensures SleepSeconds(Some("1w")) == DefaultSleep
    ensures SleepSeconds(Some("xm")) == DefaultSleep
  {
    assert 'm' !in "1w" && 'h' !in "1w" && 'd' !in "1w";
    assert RemoveAll("xm", 'm') == "x";
  }

  /** Any rendered count of minutes, hours or days maps to that many seconds. */
  lemma SleepSecondsOfRendered(n: nat, unit: char)
    requires unit == 'm' || unit == 'h' || unit == 'd'
    ensures SleepSeconds(Some(Render(n) + [unit]))
      == n * (if unit == 'm' then 60 else if unit == 'h' then 3600 else 86400)
  {
    var s := Render(n) + [unit];
    assert s[|s| - 1] == unit;
    RemoveSuffix(Render(n), unit);
    ParseRenderRoundTrip(n);
    assert forall i :: 0 <= i < |Render(n)| ==> IsDigit(s[i]);
    assert 'm' !in Render(n) && 'h' !in Render(n) && 'd' !in Render(n);
  }

  lemma RemoveSuffix(digits: string, c: char)
    requires AllDigits(digits) && !IsDigit(c)
    ensures RemoveAll(digits + [c], c) == digits
    decreases |digits|
  {
    assert c !in digits;
    RemoveAllConcat(digits, [c], c);
    assert RemoveAll([c], c) == "";
  }

  /** The wait at the end of a cycle: the rest of the period, at least ten seconds. */
  function CycleWait(sleep: int, elapsed: real): (w: real)
    ensures w >= 10.0
    ensures w == 10.0 || w == sleep as real - elapsed
    ensures w >= sleep as real - elapsed
  {
    MaxReal(10.0, sleep as real - elapsed)
  }

  /** The wait after fetching too little data: a quarter period (floor division), at least
      ten seconds. Dafny's division by a positive constant floors like Python's //. */
  function RetryWait(sleep: int): (w: int)
    ensures w >= 10
    ensures w == 10 || 4 * w <= sleep < 4 * w + 4
    // Never shorter than a quarter period (floor division, as Python's //).
    ensures 4 * w > sleep - 4
  {
    MaxInt(10, sleep / 4)
  }
}
