/**
 * The `HH:MM` helpers of src/utils.rs: `format_hm` and `format_duration`.
 * A duration is a whole number of seconds.
 */
module TimeFormat {
  import opened Primitives
  import opened Decimal

  const SECONDS_PER_MINUTE: nat := 60
  const SECONDS_PER_HOUR: nat := 3600

  /**
   * `format!("{:02}:{:02}", hour, minute)`: the hour's digits (at least two),
   * a ':', then the minute's digits (at least two).
   */
  function FormatHm(hour: u32, minute: u32): (s: string)
    ensures var i := |Pad2(hour)|;
            2 <= i && i + 3 <= |s| && s[i] == ':' &&
            AllDigits(s[..i]) && Value(s[..i]) == hour &&
            AllDigits(s[i + 1..]) && Value(s[i + 1..]) == minute
    ensures |s| == |Pad2(hour)| + 1 + |Pad2(minute)|
    ensures hour < 100 && minute < 100 ==> |s| == 5
  {
    var h, m := Pad2(hour), Pad2(minute);
    JoinParts(h, m);
    h + ":" + m
  }

  /** The two sides of `h + ":" + m` are `h` and `m`, split at index `|h|`. */
  lemma JoinParts(h: string, m: string)
    ensures var s := h + ":" + m;
            |s| == |h| + 1 + |m| && s[|h|] == ':' && s[..|h|] == h && s[|h| + 1..] == m
  {
    var s := h + ":" + m;
    assert s[..|h|] == h;
    assert s[|h| + 1..] == m;
  }

  /**
   * `format_duration` for a non-negative duration: the text reads back as the
   * whole hours, wrapped to 32 bits by the `as u32` cast, and the whole minutes
   * past the hour.
   */
  function FormatDuration(d: nat): (s: string)
    ensures ParseHm(s) == Some(((d / SECONDS_PER_HOUR) % (U32_MAX + 1),
                                d % SECONDS_PER_HOUR / SECONDS_PER_MINUTE))
  {
    var hour := (d / SECONDS_PER_HOUR) % (U32_MAX + 1);
    var minute := (d / SECONDS_PER_MINUTE) % 60;
    MinutesPastHour(d);
    FormatHmRoundTrip(hour, minute);
    FormatHm(hour, minute)
  }

  /** Whole minutes modulo 60 are the whole minutes past the whole hours. */
  lemma MinutesPastHour(d: nat)
    ensures (d / SECONDS_PER_MINUTE) % 60 == d % SECONDS_PER_HOUR / SECONDS_PER_MINUTE
  {
    var h := d / SECONDS_PER_HOUR;
    var r := d % SECONDS_PER_HOUR;
    var m := r / SECONDS_PER_MINUTE;
    assert d == h * SECONDS_PER_HOUR + r;
    assert m * SECONDS_PER_MINUTE <= r < m * SECONDS_PER_MINUTE + SECONDS_PER_MINUTE;
    assert (h * 60 + m) * SECONDS_PER_MINUTE == h * SECONDS_PER_HOUR + m * SECONDS_PER_MINUTE;
    DivUnique(d, h * 60 + m, SECONDS_PER_MINUTE);
    DivUnique(h * 60 + m, h, 60);
  }

  /** Index of the first occurrence of `c` in `s`. */
  function IndexOf(s: string, c: char): (r: Option<nat>)
    ensures r.None? ==> c !in s
    ensures r.Some? ==> r.value < |s| && s[r.value] == c && c !in s[..r.value]
  {
    if s == [] then None
    else if s[0] == c then Some(0)
    else
      match IndexOf(s[1..], c)
      case None => None
      case Some(i) =>
        assert s[..i + 1] == [s[0]] + s[1..][..i];
        Some(i + 1)
  }

  /** Splits at the first ':' and parses both sides as decimal numbers. */
  function ParseHm(s: string): Option<(nat, nat)>
  {
    match IndexOf(s, ':')
    case None => None
    case Some(i) =>
      match (Parse(s[..i]), Parse(s[i + 1..]))
      case (Some(h), Some(m)) => Some((h, m))
      case _ => None
  }

  /** For hour and minute below 100 the result is exactly `HH:MM`, five characters. */
  lemma FormatHmTwoDigits(hour: u32, minute: u32)
    requires hour < 100 && minute < 100
    ensures FormatHm(hour, minute)
         == [DigitChar(hour / 10), DigitChar(hour % 10), ':', DigitChar(minute / 10), DigitChar(minute % 10)]
  {
  }

  /** `{:02}` pads but never truncates: an hour of 100 or more keeps all its digits. */
  lemma FormatHmWideHour(hour: u32, minute: u32)
    requires hour >= 100
    ensures var s := FormatHm(hour, minute);
            |s| >= 6 && s[..|Digits(hour)|] == Digits(hour) && s[|Digits(hour)|] == ':'
    ensures FormatHm(hour, minute) == Digits(hour) + ":" + Pad2(minute)
  {
    var h, m := Digits(hour), Pad2(minute);
    assert Pad2(hour) == h;
    var s := FormatHm(hour, minute);
    assert s == h + ":" + m;
    assert s[..|h|] == h;
  }

  /** In a digit string followed by ':', the first ':' is the one after the digits. */
  lemma {:induction false} IndexOfAfterDigits(p: string, rest: string)
    requires AllDigits(p)
    ensures IndexOf(p + ":" + rest, ':') == Some(|p|)
  {
    if p != [] {
      assert IsDigit(p[0]);
      assert (p + ":" + rest)[1..] == p[1..] + ":" + rest;
      IndexOfAfterDigits(p[1..], rest);
    }
  }

  /** Splitting the result at ':' and parsing each side gives back hour and minute. */
  lemma FormatHmRoundTrip(hour: u32, minute: u32)
    ensures ParseHm(FormatHm(hour, minute)) == Some((hour as nat, minute as nat))
  {
    var h, m := Pad2(hour), Pad2(minute);
    IndexOfAfterDigits(h, m);
    assert FormatHm(hour, minute) == h + ":" + m;
  }

  /**
   * For a duration under 2^32 hours the two fields are the whole hours and the
   * whole minutes left over, read back from the text; the minute field is below
   * 60 while the hour field is unbounded (it may exceed 23).
   */
  lemma FormatDurationFields(d: nat)
    requires d < (U32_MAX + 1) * SECONDS_PER_HOUR
    ensures match ParseHm(FormatDuration(d))
            case Some((h, m)) =>
              h * SECONDS_PER_HOUR <= d < h * SECONDS_PER_HOUR + SECONDS_PER_HOUR && m < 60 &&
              m * SECONDS_PER_MINUTE <= d - h * SECONDS_PER_HOUR < m * SECONDS_PER_MINUTE + SECONDS_PER_MINUTE
            case None => false
  {
    var h := d / SECONDS_PER_HOUR;
    DivUnique(h, 0, U32_MAX + 1);
    assert d == h * SECONDS_PER_HOUR + d % SECONDS_PER_HOUR;
  }

  /** The whole hours and the minutes past the hour of `h:m:s`. */
  lemma HmsParts(h: nat, m: nat, s: nat)
    requires m < 60 && s < 60
    ensures (h * SECONDS_PER_HOUR + m * SECONDS_PER_MINUTE + s) / SECONDS_PER_HOUR == h
    ensures ((h * SECONDS_PER_HOUR + m * SECONDS_PER_MINUTE + s) / SECONDS_PER_MINUTE) % 60 == m
  {
    var d := h * SECONDS_PER_HOUR + m * SECONDS_PER_MINUTE + s;
    assert (h * 60 + m) * SECONDS_PER_MINUTE == h * SECONDS_PER_HOUR + m * SECONDS_PER_MINUTE;
    DivUnique(d, h, SECONDS_PER_HOUR);
    DivUnique(d, h * 60 + m, SECONDS_PER_MINUTE);
    DivUnique(h * 60 + m, h, 60);
  }

  /** Seconds are dropped: `h` hours, `m` minutes and `s` seconds print as `h:m`. */
  lemma FormatDurationOfHms(h: u32, m: nat, s: nat)
    requires m < 60 && s < 60
    ensures FormatDuration(h * SECONDS_PER_HOUR + m * SECONDS_PER_MINUTE + s) == FormatHm(h, m)
  {
    var d := h * SECONDS_PER_HOUR + m * SECONDS_PER_MINUTE + s;
    HmsParts(h, m, s);
    DivUnique(h, 0, U32_MAX + 1);
    assert (d / SECONDS_PER_HOUR) % (U32_MAX + 1) == h;
    assert (d / SECONDS_PER_MINUTE) % 60 == m;
  }

  /**
   * A duration under 100 hours prints as exactly five characters: two digits
   * of whole hours, ':', two digits of the minutes past the hour.
   */
  lemma FormatDurationFiveChars(d: nat)
    requires d < 100 * SECONDS_PER_HOUR
    ensures var h, m := d / SECONDS_PER_HOUR, d % SECONDS_PER_HOUR / SECONDS_PER_MINUTE;
            FormatDuration(d) == [DigitChar(h / 10), DigitChar(h % 10), ':', DigitChar(m / 10), DigitChar(m % 10)]
  {
    var h, m := d / SECONDS_PER_HOUR, d % SECONDS_PER_HOUR / SECONDS_PER_MINUTE;
    MinutesPastHour(d);
    DivUnique(h, 0, U32_MAX + 1);
    assert FormatDuration(d) == FormatHm(h, m);
    FormatHmTwoDigits(h, m);
  }
}
