/** What one tick of the runner does, window by window. */
module StepLemmas {
  import opened Options
  import opened Clock
  import opened Snapshots
  import opened Scheduler

  /** Inside the reset window a tick performs the reset at most once per
      date: the first tick of the date sets both snapshots to the
      placeholder and records the date; every later tick of that date in the
      window changes nothing. */
  lemma ResetTick(s: State, today: Date, t: TimeOfDay, f: Fetch)
    requires InRange(ResetStart, AmStart, t)
    ensures var r := Step(s, today, t, f);
      if s.lastResetDate != Some(today) then
        r.currentAm == Placeholder && r.currentPm == Placeholder
        && r.lastResetDate == Some(today) && r.history == s.history
      else r == s
  {
    WindowsDisjoint(t);
  }

  /** A tick inside the AM window holds the fetched snapshot as AM, forces
      PM to the placeholder, and saves nothing. */
  lemma AmTick(s: State, today: Date, t: TimeOfDay, f: Fetch)
    requires InRange(AmStart, AmEnd, t)
    ensures var r := Step(s, today, t, f);
      r.currentAm == Fetched(f) && r.currentPm == Placeholder
      && r.history == s.history && r.lastResetDate == s.lastResetDate
      && r.lastAmSavedDate == s.lastAmSavedDate && r.lastPmSavedDate == s.lastPmSavedDate
  {
    WindowsDisjoint(t);
  }

  /** A tick inside the PM window holds the fetched snapshot as PM and
      leaves the AM snapshot as it was. */
  lemma PmTick(s: State, today: Date, t: TimeOfDay, f: Fetch)
    requires InRange(PmStart, PmEnd, t)
    ensures var r := Step(s, today, t, f);
      r.currentPm == Fetched(f) && r.currentAm == s.currentAm
      && r.lastResetDate == s.lastResetDate
  {
    WindowsDisjoint(t);
  }

  /** Outside the reset, AM and PM windows neither snapshot changes. */
  lemma FreezeOutsideWindows(s: State, today: Date, t: TimeOfDay, f: Fetch)
    requires Classify(t) in {PreOpen, MidDay, PostClose}
    ensures var r := Step(s, today, t, f);
      r.currentAm == s.currentAm && r.currentPm == s.currentPm
  {
    WindowsMatchTable(t);
  }

  /** Only the reset and AM windows change the AM snapshot: a tick at any
      other time, from 12:01:00 through midnight to 08:50:00, leaves it as
      it was. */
  lemma AmHeldOutsideMorning(s: State, today: Date, t: TimeOfDay, f: Fetch)
    requires Classify(t) !in {ResetWindow, AmLive}
    ensures Step(s, today, t, f).currentAm == s.currentAm
  {
    WindowsMatchTable(t);
  }

  /** The snapshot a session's save looks at during a tick: the AM save sees
      the AM snapshot as it was (the AM fetch never runs at or after the
      AM save instant); the PM save sees this tick's PM fetch when there is
      one. */
  function SeenBySave(s: State, sess: Session, t: TimeOfDay, f: Fetch): Snapshot {
    match sess
    case AM => s.currentAm
    case PM => if InRange(PmStart, PmEnd, t) then Fetched(f) else s.currentPm
  }

  /** Whether a tick's save of the session appends, judged on the state
      before the tick. */
  predicate SaveFiresOnTick(s: State, sess: Session, today: Date, t: TimeOfDay, f: Fetch) {
    t >= SaveFrom(sess) && Guard(s, sess) != Some(today) && IsRealDate(SeenBySave(s, sess, t, f).date)
  }

  /** The records a save appends when it fires. */
  function SaveRecords(s: State, sess: Session, today: Date, t: TimeOfDay, f: Fetch): seq<Record> {
    if SaveFiresOnTick(s, sess, today, t, f) then [Record(Tag(sess), SeenBySave(s, sess, t, f))] else []
  }

  /** A tick appends the AM save's records, then the PM save's, and sets
      each save guard to today exactly when that save appends. */
  lemma StepShape(s: State, today: Date, t: TimeOfDay, f: Fetch)
    ensures var r := Step(s, today, t, f);
      && r.history == s.history + SaveRecords(s, AM, today, t, f) + SaveRecords(s, PM, today, t, f)
      && r.lastAmSavedDate == (if SaveFiresOnTick(s, AM, today, t, f) then Some(today) else s.lastAmSavedDate)
      && r.lastPmSavedDate == (if SaveFiresOnTick(s, PM, today, t, f) then Some(today) else s.lastPmSavedDate)
  {
    var s1 := ResetPhase(s, today, t);
    var s2 := AmFetchPhase(s1, t, f);
    var s3 := SavePhase(s2, AM, today, t);
    var s4 := PmFetchPhase(s3, t, f);
    var r := SavePhase(s4, PM, today, t);
    assert r == Step(s, today, t, f);
    WindowsDisjoint(t);
    assert SaveFires(s2, AM, today, t) == SaveFiresOnTick(s, AM, today, t, f) by {
      if t >= AmEnd { assert s2 == s; }
    }
    assert s3.history == s.history + SaveRecords(s, AM, today, t, f);
    assert SaveFires(s4, PM, today, t) == SaveFiresOnTick(s, PM, today, t, f) by {
      if t >= PmSaveFrom {
        assert s2 == s;
        assert s4.currentPm == SeenBySave(s, PM, t, f);
      }
    }
  }

  /** The save rule of a tick, both directions: a record of the session is
      appended exactly when the tick is at or past the session's save
      instant, the guard is not today, and the snapshot seen carries a real
      date; then exactly one such record, holding that snapshot, is appended
      and the guard becomes today. Otherwise nothing of the session is
      appended and its guard keeps its value. */
  lemma SaveRule(s: State, sess: Session, today: Date, t: TimeOfDay, f: Fetch)
    ensures var r := Step(s, today, t, f);
      var fires := t >= SaveFrom(sess) && Guard(s, sess) != Some(today)
                   && IsRealDate(SeenBySave(s, sess, t, f).date);
      && CountTag(Appended(s, r), Tag(sess)) == (if fires then 1 else 0)
      && Guard(r, sess) == (if fires then Some(today) else Guard(s, sess))
      && (fires ==> Record(Tag(sess), SeenBySave(s, sess, t, f)) in Appended(s, r))
  {
    var r := Step(s, today, t, f);
    StepShape(s, today, t, f);
    var amPart := SaveRecords(s, AM, today, t, f);
    var pmPart := SaveRecords(s, PM, today, t, f);
    assert Appended(s, r) == amPart + pmPart;
    CountTagConcat(amPart, pmPart, Tag(sess));
  }

  /** A guard equal to today blocks the session's save for the rest of the
      date. */
  lemma GuardBlocksSave(s: State, sess: Session, today: Date, t: TimeOfDay, f: Fetch)
    requires Guard(s, sess) == Some(today)
    ensures var r := Step(s, today, t, f);
      CountTag(Appended(s, r), Tag(sess)) == 0 && Guard(r, sess) == Some(today)
  {
    SaveRule(s, sess, today, t, f);
  }

  /** The PM fetch runs before the PM save: on the tick in
      [16:30:00, 16:30:01) whose fetch succeeds with a real date while PM is
      unsaved today, the record appended last is exactly that tick's
      snapshot. */
  lemma PmFetchPrecedesSave(s: State, today: Date, t: TimeOfDay, snap: Snapshot)
    requires PmSaveFrom <= t < PmEnd
    requires IsRealDate(snap.date) && s.lastPmSavedDate != Some(today)
    ensures var r := Step(s, today, t, Success(snap));
      |r.history| > |s.history| && r.history[|r.history| - 1] == Record("PM", snap)
      && r.lastPmSavedDate == Some(today)
  {
  }

  /** A failed fetch in the PM window appends no PM record on that tick and
      leaves the PM guard unchanged. */
  lemma FailedPmFetchSavesNothing(s: State, today: Date, t: TimeOfDay, at: TimeOfDay)
    requires InRange(PmStart, PmEnd, t)
    ensures var r := Step(s, today, t, Failure(at));
      CountTag(Appended(s, r), "PM") == 0 && r.lastPmSavedDate == s.lastPmSavedDate
  {
    SaveRule(s, PM, today, t, Failure(at));
  }

  /** Outside the PM window no tick gives the PM snapshot a real date it
      lacked: a reset or an AM-window tick sets it to the placeholder, and
      every other tick leaves it alone. */
  lemma PmUnrealOutsideAfternoon(s: State, today: Date, t: TimeOfDay, f: Fetch)
    requires Classify(t) != PmLive && !IsRealDate(s.currentPm.date)
    ensures !IsRealDate(Step(s, today, t, f).currentPm.date)
  {
    WindowsMatchTable(t);
  }
}
