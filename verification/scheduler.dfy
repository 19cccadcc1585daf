/** One iteration of `live_runner` as a pure step function, and finite runs
    of steps. */
module Scheduler {
  import opened Options
  import opened Clock
  import opened Snapshots

  /** The module-level runtime state of `main.py`. */
  datatype State = State(
    currentAm: Snapshot,
    currentPm: Snapshot,
    history: seq<Record>,
    lastResetDate: Option<Date>,
    lastAmSavedDate: Option<Date>,
    lastPmSavedDate: Option<Date>)

  /** The state at import time: both snapshots the placeholder, an empty
      history, no guard set. */
  function Initial(): (s: State)
    ensures s.currentAm == Placeholder && s.currentPm == Placeholder
    ensures !IsRealDate(s.currentAm.date) && !IsRealDate(s.currentPm.date)
    ensures s.history == [] && s.lastResetDate == None
    ensures s.lastAmSavedDate == None && s.lastPmSavedDate == None
  {
    State(Placeholder, Placeholder, [], None, None, None)
  }

  /** The snapshot held for a session. */
  function Current(s: State, sess: Session): Snapshot {
    match sess
    case AM => s.currentAm
    case PM => s.currentPm
  }

  /** The once-per-day save guard of a session. */
  function Guard(s: State, sess: Session): Option<Date> {
    match sess
    case AM => s.lastAmSavedDate
    case PM => s.lastPmSavedDate
  }

  /** The first instant at which a session's save is attempted. */
  function SaveFrom(sess: Session): TimeOfDay {
    match sess
    case AM => AmEnd
    case PM => PmSaveFrom
  }

  /** The reset fires: in the reset window and not yet reset today. */
  predicate ResetFires(s: State, today: Date, t: TimeOfDay) {
    InRange(ResetStart, AmStart, t) && s.lastResetDate != Some(today)
  }

  /** The AM or PM save fires: past the session's save instant, not yet saved
      today, and the held snapshot carries a real date. */
  predicate SaveFires(s: State, sess: Session, today: Date, t: TimeOfDay) {
    t >= SaveFrom(sess) && Guard(s, sess) != Some(today) && IsRealDate(Current(s, sess).date)
  }

  /** The reset: once per date, inside [08:50:00, 09:00:00), both snapshots
      become the placeholder. */
  function ResetPhase(s: State, today: Date, t: TimeOfDay): (r: State)
    ensures r.history == s.history
    ensures r.lastAmSavedDate == s.lastAmSavedDate && r.lastPmSavedDate == s.lastPmSavedDate
    ensures ResetFires(s, today, t) ==>
              r.currentAm == Placeholder && r.currentPm == Placeholder && r.lastResetDate == Some(today)
    ensures !ResetFires(s, today, t) ==> r == s
  {
    if ResetFires(s, today, t) then
      s.(currentAm := Placeholder, currentPm := Placeholder, lastResetDate := Some(today))
    else s
  }

  /** The AM fetch: inside [09:00:00, 12:01:00) the fetch result becomes the AM
      snapshot and the PM snapshot is forced to the placeholder. */
  function AmFetchPhase(s: State, t: TimeOfDay, f: Fetch): (r: State)
    ensures InRange(AmStart, AmEnd, t) ==> r.currentAm == Fetched(f) && r.currentPm == Placeholder
    ensures !InRange(AmStart, AmEnd, t) ==> r == s
    ensures r.history == s.history && r.lastResetDate == s.lastResetDate
    ensures r.lastAmSavedDate == s.lastAmSavedDate && r.lastPmSavedDate == s.lastPmSavedDate
  {
    if InRange(AmStart, AmEnd, t) then
      s.(currentAm := Fetched(f), currentPm := Placeholder)
    else s
  }

  /** The PM fetch: inside [13:00:00, 16:30:01) the fetch result becomes the PM
      snapshot; the AM snapshot is left alone. */
  function PmFetchPhase(s: State, t: TimeOfDay, f: Fetch): (r: State)
    ensures InRange(PmStart, PmEnd, t) ==> r.currentPm == Fetched(f)
    ensures !InRange(PmStart, PmEnd, t) ==> r == s
    ensures r.history == s.history && r.lastResetDate == s.lastResetDate
    ensures r.lastAmSavedDate == s.lastAmSavedDate && r.lastPmSavedDate == s.lastPmSavedDate
    ensures r.currentAm == s.currentAm
  {
    if InRange(PmStart, PmEnd, t) then s.(currentPm := Fetched(f)) else s
  }

  /** The AM or PM save: append the session's snapshot to the history and set the
      guard to today, or change nothing at all. Writing the file is a no-op. */
  function SavePhase(s: State, sess: Session, today: Date, t: TimeOfDay): (r: State)
    ensures SaveFires(s, sess, today, t) ==>
              r.history == s.history + [Record(Tag(sess), Current(s, sess))]
              && Guard(r, sess) == Some(today)
    ensures !SaveFires(s, sess, today, t) ==> r == s
    ensures r.currentAm == s.currentAm && r.currentPm == s.currentPm
    ensures r.lastResetDate == s.lastResetDate
    ensures Guard(r, if sess == AM then PM else AM) == Guard(s, if sess == AM then PM else AM)
  {
    if SaveFires(s, sess, today, t) then
      var h := s.history + [Record(Tag(sess), Current(s, sess))];
      match sess
      case AM => s.(history := h, lastAmSavedDate := Some(today))
      case PM => s.(history := h, lastPmSavedDate := Some(today))
    else s
  }

  /** One tick of `live_runner` at time `t` on date `today`, with `f` the
      result the fetch of this tick would return (used by at most one of
      the AM fetch and the PM fetch). History only grows, by at most two records, each
      tagged with a session and carrying a real date; every guard either
      keeps its value or becomes today. */
  function Step(s: State, today: Date, t: TimeOfDay, f: Fetch): (r: State)
    ensures s.history <= r.history && |r.history| <= |s.history| + 2
    ensures forall i :: |s.history| <= i < |r.history| ==>
              r.history[i].session in {"AM", "PM"} && IsRealDate(r.history[i].snap.date)
    ensures r.lastResetDate == s.lastResetDate || r.lastResetDate == Some(today)
    ensures r.lastAmSavedDate == s.lastAmSavedDate || r.lastAmSavedDate == Some(today)
    ensures r.lastPmSavedDate == s.lastPmSavedDate || r.lastPmSavedDate == Some(today)
  {
    var s1 := ResetPhase(s, today, t);
    var s2 := AmFetchPhase(s1, t, f);
    var s3 := SavePhase(s2, AM, today, t);
    var s4 := PmFetchPhase(s3, t, f);
    SavePhase(s4, PM, today, t)
  }

  /** The records a step or run appended to the history. */
  function Appended(before: State, after: State): seq<Record>
    requires before.history <= after.history
  {
    after.history[|before.history|..]
  }

  /** The number of records carrying the given session tag. */
  function CountTag(h: seq<Record>, tag: string): nat
    decreases |h|
  {
    if |h| == 0 then 0
    else (if h[0].session == tag then 1 else 0) + CountTag(h[1..], tag)
  }

  lemma {:induction false} CountTagConcat(a: seq<Record>, b: seq<Record>, tag: string)
    ensures CountTag(a + b, tag) == CountTag(a, tag) + CountTag(b, tag)
    decreases |a|
  {
    if |a| > 0 {
      assert (a + b)[1..] == a[1..] + b;
      CountTagConcat(a[1..], b, tag);
    } else {
      assert a + b == b;
    }
  }
}
