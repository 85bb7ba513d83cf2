/**
 * Times of day as the schedule stores them (Python `datetime.time`), written
 * with `strftime("%H:%M:%S")` and read back with `strptime(..., "%H:%M:%S")`.
 */
module TimeOfDay {
  import opened Wrappers
  import opened Decimal

  datatype Clock = Clock(hour: nat, minute: nat, second: nat)

  /** A `datetime.time` to the second: the constructor enforces these ranges. */
  type Time = t: Clock | t.hour < 24 && t.minute < 60 && t.second < 60 witness Clock(0, 0, 0)

  /** `%H`, `%M`, `%S` output: two digits, zero-padded. */
  function Pad2(n: nat): (r: string)
    requires n < 100
    ensures |r| == 2 && AllDigits(r)
  {
    [DigitChar(n / 10), DigitChar(n % 10)]
  }

  /** `t.strftime("%H:%M:%S")`. */
  function Format(t: Time): (r: string)
    ensures |r| == 8 && r[2] == ':' && r[5] == ':'
  {
    Pad2(t.hour) + ":" + Pad2(t.minute) + ":" + Pad2(t.second)
  }

  /** The pieces of `s` between the separators (`str.split`). */
  function Split(s: string, sep: char): (parts: seq<string>)
    ensures |parts| >= 1
    decreases |s|
  {
    if s == [] then [""]
    else
      var rest := Split(s[1..], sep);
      if s[0] == sep then [""] + rest else [[s[0]] + rest[0]] + rest[1..]
  }

  /** One numeric field of the format: one or two ASCII digits, below `bound`. */
  function ParseField(f: string, bound: nat): (r: Option<nat>)
    ensures r.Some? ==> r.value < bound
  {
    if 1 <= |f| <= 2 && AllDigits(f) && DigitsValue(f) < bound then Some(DigitsValue(f)) else None
  }

  /**
   * `strptime(s, "%H:%M:%S").time()`: three colon-separated fields of one or
   * two digits, hour below 24 and minute and second below 60; anything else is
   * rejected (Python raises ValueError).
   */
  function Parse(s: string): (r: Option<Time>)
    ensures r.Some? ==> |Split(s, ':')| == 3
  {
    var parts := Split(s, ':');
    if |parts| != 3 then None
    else
      match (ParseField(parts[0], 24), ParseField(parts[1], 60), ParseField(parts[2], 60))
      case (Some(h), Some(m), Some(sec)) => Some(Clock(h, m, sec))
      case _ => None
  }

  lemma {:induction false} SplitWithoutSeparator(s: string, sep: char)
    requires sep !in s
    ensures Split(s, sep) == [s]
    decreases |s|
  {
    if s != [] {
      assert s[0] in s;
      SplitWithoutSeparator(s[1..], sep);
      assert [s[0]] + s[1..] == s;
    }
  }

  lemma {:induction false} SplitAtSeparator(a: string, b: string, sep: char)
    requires sep !in a
    ensures Split(a + [sep] + b, sep) == [a] + Split(b, sep)
    decreases |a|
  {
    if a == [] {
      assert (a + [sep] + b)[1..] == b;
    } else {
      assert a[0] in a;
      SplitAtSeparator(a[1..], b, sep);
      assert (a + [sep] + b)[1..] == a[1..] + [sep] + b;
      assert [a[0]] + a[1..] == a;
    }
  }

  lemma Pad2Reads(n: nat)
    requires n < 100
    ensures DigitsValue(Pad2(n)) == n
  {
    var p := Pad2(n);
    assert DigitValue(DigitChar(n / 10)) == n / 10;
    assert DigitValue(DigitChar(n % 10)) == n % 10;
    assert p[..1][..0] == [];
    assert p[..1] == [DigitChar(n / 10)];
    assert DigitsValue(p[..1]) == n / 10;
  }

  /** Formatting a time and parsing the text back gives the same time. */
  lemma ParseFormat(t: Time)
    ensures Parse(Format(t)) == Some(t)
  {
    var h, m, s := Pad2(t.hour), Pad2(t.minute), Pad2(t.second);
    assert Format(t) == h + [':'] + (m + [':'] + s);
    SplitAtSeparator(h, m + [':'] + s, ':');
    SplitAtSeparator(m, s, ':');
    SplitWithoutSeparator(s, ':');
    Pad2Reads(t.hour);
    Pad2Reads(t.minute);
    Pad2Reads(t.second);
  }

  /** Different times format differently, so comparing formatted times is comparing times. */
  lemma FormatInjective(t: Time, u: Time)
    ensures Format(t) == Format(u) ==> t == u
  {
    ParseFormat(t);
    ParseFormat(u);
  }
}
