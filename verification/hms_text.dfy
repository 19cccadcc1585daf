/** The `HH:MM:SS` text form of a time of day: `time_from_hms` reads it
    (split on ':' then `int` of each field) and `strftime("%H:%M:%S")`
    writes it. */
module HmsText {
  import opened Options
  import opened Clock

  /** The parts joined back with ':' between neighbours. */
  function Join(parts: seq<string>): string
    decreases |parts|
  {
    if |parts| == 0 then ""
    else if |parts| == 1 then parts[0]
    else parts[0] + ":" + Join(parts[1..])
  }

  /** `text.split(":")`: the maximal ':'-free pieces, empty ones included. */
  function Split(text: string): (parts: seq<string>)
    ensures |parts| >= 1
    ensures forall i :: 0 <= i < |parts| ==> ':' !in parts[i]
    ensures Join(parts) == text
    decreases |text|
  {
    if |text| == 0 then [""]
    else
      var rest := Split(text[1..]);
      if text[0] == ':' then
        [""] + rest
      else
        assert text == [text[0]] + text[1..];
        [[text[0]] + rest[0]] + rest[1..]
  }

  /** A ':'-free prefix followed by ':' splits off as exactly one part. */
  lemma {:induction false} SplitAtFirstColon(a: string, rest: string)
    requires ':' !in a
    ensures Split(a + ":" + rest) == [a] + Split(rest)
    decreases |a|
  {
    var text := a + ":" + rest;
    if |a| == 0 {
      assert text == [':'] + rest;
      assert text[1..] == rest;
    } else {
      assert text[0] == a[0] != ':';
      assert text[1..] == a[1..] + ":" + rest;
      SplitAtFirstColon(a[1..], rest);
      var tail := Split(text[1..]);
      assert tail[0] == a[1..] && tail[1..] == Split(rest);
      assert [a[0]] + a[1..] == a;
    }
  }

  /** A ':'-free text is a single part. */
  lemma {:induction false} SplitNoColon(a: string)
    requires ':' !in a
    ensures Split(a) == [a]
    decreases |a|
  {
    if |a| > 0 {
      SplitNoColon(a[1..]);
      assert a == [a[0]] + a[1..];
    }
  }

  predicate IsDigit(c: char) {
    '0' <= c <= '9'
  }

  predicate AllDigits(f: string) {
    forall i :: 0 <= i < |f| ==> IsDigit(f[i])
  }

  /** The decimal value of a string of ASCII digits. */
  function DigitsValue(f: string): (n: nat)
    requires AllDigits(f)
    decreases |f|
  {
    if |f| == 0 then 0
    else DigitsValue(f[..|f| - 1]) * 10 + (f[|f| - 1] - '0') as int
  }

  /** `int(field)` for a field of ASCII digits; `None` where `int` raises. */
  function ParseField(f: string): (r: Option<nat>)
    ensures r.Some? <==> |f| > 0 && AllDigits(f)
  {
    if |f| > 0 && AllDigits(f) then Some(DigitsValue(f)) else None
  }

  /** `time_from_hms(text)`: `None` where Python raises `ValueError`
      (not three fields, a field that is not a number, a field out of range). */
  function ParseHms(text: string): (r: Option<TimeOfDay>)
    ensures r.Some? ==> |Split(text)| == 3
    ensures r.Some? ==> ParseField(Split(text)[0]) == Some(ToHms(r.value).0)
    ensures r.Some? ==> ParseField(Split(text)[1]) == Some(ToHms(r.value).1)
    ensures r.Some? ==> ParseField(Split(text)[2]) == Some(ToHms(r.value).2)
  {
    var parts := Split(text);
    if |parts| != 3 then None
    else
      match (ParseField(parts[0]), ParseField(parts[1]), ParseField(parts[2]))
      case (Some(h), Some(m), Some(s)) =>
        TimeFromHms(h, m, s)
      case _ => None
  }

  /** The other direction of `ParseHms`: text of exactly three fields that
      `int` reads as in-range hour, minute and second parses to that
      instant, zero padding or not. */
  lemma ParseHmsSucceeds(text: string, h: int, m: int, s: int)
    requires |Split(text)| == 3
    requires ParseField(Split(text)[0]) == Some(h)
    requires ParseField(Split(text)[1]) == Some(m)
    requires ParseField(Split(text)[2]) == Some(s)
    requires ValidHms(h, m, s)
    ensures ParseHms(text) == Some(Seconds(h, m, s))
  {
  }

  function DigitChar(d: int): (c: char)
    requires 0 <= d < 10
    ensures IsDigit(c) && (c - '0') as int == d
  {
    ('0' as int + d) as char
  }

  /** `%02d`: two digits, zero-padded. */
  function TwoDigits(n: int): (f: string)
    requires 0 <= n < 100
    ensures |f| == 2 && AllDigits(f)
    ensures ParseField(f) == Some(n)
  {
    var f := [DigitChar(n / 10), DigitChar(n % 10)];
    assert f[..1] == [DigitChar(n / 10)];
    assert f[..1][..0] == [];
    assert DigitsValue(f[..1]) == n / 10;
    assert DigitsValue(f) == (n / 10) * 10 + n % 10;
    f
  }

  /** `strftime("%H:%M:%S")` of an instant. */
  function FormatHms(t: TimeOfDay): (text: string)
    ensures |text| == 8 && text[2] == ':' && text[5] == ':'
  {
    var (h, m, s) := ToHms(t);
    TwoDigits(h) + ":" + TwoDigits(m) + ":" + TwoDigits(s)
  }

  /** Reading back a formatted instant gives the same instant: the time a
      failed fetch writes into a placeholder is a real time of day. */
  lemma ParseFormatRoundTrip(t: TimeOfDay)
    ensures ParseHms(FormatHms(t)) == Some(t)
  {
    var (h, m, s) := ToHms(t);
    var a, b, c := TwoDigits(h), TwoDigits(m), TwoDigits(s);
    assert ':' !in a && ':' !in b && ':' !in c by {
      assert AllDigits(a) && AllDigits(b) && AllDigits(c);
    }
    assert FormatHms(t) == a + ":" + (b + ":" + c);
    SplitAtFirstColon(a, b + ":" + c);
    SplitAtFirstColon(b, c);
    SplitNoColon(c);
    assert Split(FormatHms(t)) == [a, b, c];
  }

  /** `FormatHms` of an instant, spelled out for the constants below. */
  lemma FormatOf(t: TimeOfDay, h: int, m: int, s: int)
    requires ValidHms(h, m, s) && t == Seconds(h, m, s)
    ensures FormatHms(t) == TwoDigits(h) + ":" + TwoDigits(m) + ":" + TwoDigits(s)
  {
    HmsRoundTrip(h, m, s);
  }

  /** A literal `HH:MM:SS` with in-range fields reads as the instant those
      fields name. */
  lemma LiteralReads(h: int, m: int, s: int, text: string)
    requires ValidHms(h, m, s)
    requires text == TwoDigits(h) + ":" + TwoDigits(m) + ":" + TwoDigits(s)
    ensures ParseHms(text) == Some(Seconds(h, m, s))
  {
    FormatOf(Seconds(h, m, s), h, m, s);
    ParseFormatRoundTrip(Seconds(h, m, s));
  }

  // The literals of the schedule in `main.py` read as the constants of the clock.

  lemma EmptyBeforeLiteral()
    ensures ParseHms("08:00:00") == Some(EmptyBefore)
  {
    assert TwoDigits(8) == "08" && TwoDigits(0) == "00" && TwoDigits(0) == "00";
    LiteralReads(8, 0, 0, "08:00:00");
  }

  lemma ResetStartLiteral()
    ensures ParseHms("08:50:00") == Some(ResetStart)
  {
    assert TwoDigits(8) == "08" && TwoDigits(50) == "50" && TwoDigits(0) == "00";
    LiteralReads(8, 50, 0, "08:50:00");
  }

  lemma AmStartLiteral()
    ensures ParseHms("09:00:00") == Some(AmStart)
  {
    assert TwoDigits(9) == "09" && TwoDigits(0) == "00" && TwoDigits(0) == "00";
    LiteralReads(9, 0, 0, "09:00:00");
  }

  lemma AmEndLiteral()
    ensures ParseHms("12:01:00") == Some(AmEnd)
  {
    assert TwoDigits(12) == "12" && TwoDigits(1) == "01" && TwoDigits(0) == "00";
    LiteralReads(12, 1, 0, "12:01:00");
  }

  lemma PmStartLiteral()
    ensures ParseHms("13:00:00") == Some(PmStart)
  {
    assert TwoDigits(13) == "13" && TwoDigits(0) == "00" && TwoDigits(0) == "00";
    LiteralReads(13, 0, 0, "13:00:00");
  }

  lemma PmSaveFromLiteral()
    ensures ParseHms("16:30:00") == Some(PmSaveFrom)
  {
    assert TwoDigits(16) == "16" && TwoDigits(30) == "30" && TwoDigits(0) == "00";
    LiteralReads(16, 30, 0, "16:30:00");
  }

  lemma PmEndLiteral()
    ensures ParseHms("16:30:01") == Some(PmEnd)
  {
    assert TwoDigits(16) == "16" && TwoDigits(30) == "30" && TwoDigits(1) == "01";
    LiteralReads(16, 30, 1, "16:30:01");
  }
}
