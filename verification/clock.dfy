/** Time of day as the scheduler sees it: the `HH:MM:SS` constants of `main.py`,
    `time_from_hms`, `in_range`, and the fixed table of daily windows. */
module Clock {
  import opened Options

  const SecondsPerDay: int := 86400

  /** A wall-clock time of day in whole seconds since midnight. */
  type TimeOfDay = t: int | 0 <= t < SecondsPerDay

  /** The field ranges `datetime.time(h, m, s)` accepts. */
  predicate ValidHms(h: int, m: int, s: int) {
    0 <= h < 24 && 0 <= m < 60 && 0 <= s < 60
  }

  /** The instant `h:m:s`, as seconds since midnight. */
  function Seconds(h: int, m: int, s: int): (t: TimeOfDay)
    requires ValidHms(h, m, s)
    ensures h * 3600 <= t < (h + 1) * 3600
  {
    h * 3600 + m * 60 + s
  }

  /** The (hour, minute, second) fields of an instant. */
  function ToHms(t: TimeOfDay): (r: (int, int, int))
    ensures ValidHms(r.0, r.1, r.2)
    ensures Seconds(r.0, r.1, r.2) == t
  {
    (t / 3600, (t % 3600) / 60, t % 60)
  }

  /** The fields of an instant are unique: `Seconds` and `ToHms` are inverse. */
  lemma HmsRoundTrip(h: int, m: int, s: int)
    requires ValidHms(h, m, s)
    ensures ToHms(Seconds(h, m, s)) == (h, m, s)
  {
    var t := Seconds(h, m, s);
    var r := ToHms(t);
    assert r.0 == h by {
      assert r.0 * 3600 <= t < (r.0 + 1) * 3600;
    }
    assert r.1 == m by {
      assert r.1 * 60 + r.2 == m * 60 + s;
    }
  }

  /** Python compares `datetime.time` values field by field; comparing
      seconds since midnight gives the same order. */
  lemma SecondsOrderIsLexicographic(h1: int, m1: int, s1: int, h2: int, m2: int, s2: int)
    requires ValidHms(h1, m1, s1) && ValidHms(h2, m2, s2)
    ensures Seconds(h1, m1, s1) < Seconds(h2, m2, s2) <==>
              (h1 < h2 || (h1 == h2 && (m1 < m2 || (m1 == m2 && s1 < s2))))
  {
    var a := Seconds(h1, m1, s1);
    var b := Seconds(h2, m2, s2);
    if h1 < h2 {
      assert (h1 + 1) * 3600 <= h2 * 3600;
    } else if h2 < h1 {
      assert (h2 + 1) * 3600 <= h1 * 3600;
    } else if m1 < m2 {
      assert (m1 + 1) * 60 <= m2 * 60;
    } else if m2 < m1 {
      assert (m2 + 1) * 60 <= m1 * 60;
    }
  }

  /** `time_from_hms` after the split: `None` where `datetime.time` raises. */
  function TimeFromHms(h: int, m: int, s: int): (r: Option<TimeOfDay>)
    ensures r.Some? <==> ValidHms(h, m, s)
    ensures r.Some? ==> ToHms(r.value) == (h, m, s)
  {
    if ValidHms(h, m, s) then HmsRoundTrip(h, m, s); Some(Seconds(h, m, s)) else None
  }

  // The constants of the schedule.
  const EmptyBefore: TimeOfDay := Seconds(8, 0, 0)
  const ResetStart: TimeOfDay := Seconds(8, 50, 0)
  const AmStart: TimeOfDay := Seconds(9, 0, 0)
  const AmEnd: TimeOfDay := Seconds(12, 1, 0)
  const PmStart: TimeOfDay := Seconds(13, 0, 0)
  const PmSaveFrom: TimeOfDay := Seconds(16, 30, 0)
  const PmEnd: TimeOfDay := Seconds(16, 30, 1)

  /** `in_range(start, end, t)`: the half-open interval [start, end), read
      across midnight when `start` lies after `end`. Both readings are one
      arc of the 24-hour clock: `t` lies less far after `start` than `end`
      does. */
  predicate InRange(start: TimeOfDay, end: TimeOfDay, t: TimeOfDay)
    ensures InRange(start, end, t) <==> (t - start) % SecondsPerDay < (end - start) % SecondsPerDay
  {
    if start <= end then start <= t < end
    else t >= start || t < end
  }

  /** An interval whose ends coincide contains no instant. */
  lemma EmptyRange(x: TimeOfDay, t: TimeOfDay)
    ensures !InRange(x, x, t)
  {
  }

  /** The midnight-crossing reading of [end, start) is exactly the
      complement of the ordinary range [start, end). */
  lemma WrappedRangeIsComplement(start: TimeOfDay, end: TimeOfDay, t: TimeOfDay)
    requires start != end
    ensures InRange(end, start, t) <==> !InRange(start, end, t)
  {
  }

  /** The named windows of a trading day. */
  datatype Window = PreOpen | ResetWindow | AmLive | MidDay | PmLive | PostClose

  /** The window table, read by boundaries in increasing order. */
  function Classify(t: TimeOfDay): Window {
    if t < ResetStart then PreOpen
    else if t < AmStart then ResetWindow
    else if t < AmEnd then AmLive
    else if t < PmStart then MidDay
    else if t < PmEnd then PmLive
    else PostClose
  }

  /** The three `in_range` tests the runner makes agree with the window
      table, so each tick falls in at most one of them. */
  lemma WindowsMatchTable(t: TimeOfDay)
    ensures InRange(ResetStart, AmStart, t) <==> Classify(t) == ResetWindow
    ensures InRange(AmStart, AmEnd, t) <==> Classify(t) == AmLive
    ensures InRange(PmStart, PmEnd, t) <==> Classify(t) == PmLive
  {
  }

  /** The reset, AM and PM windows are pairwise disjoint. */
  lemma WindowsDisjoint(t: TimeOfDay)
    ensures !(InRange(ResetStart, AmStart, t) && InRange(AmStart, AmEnd, t))
    ensures !(InRange(ResetStart, AmStart, t) && InRange(PmStart, PmEnd, t))
    ensures !(InRange(AmStart, AmEnd, t) && InRange(PmStart, PmEnd, t))
  {
    WindowsMatchTable(t);
  }
}
