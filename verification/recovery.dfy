/** Start-up: the history read back from storage, and the AM/PM save guards
    recovered from it by scanning it from the end. */
module Recovery {
  import opened Options
  import opened Snapshots
  import opened Scheduler
  import opened Clock
  import opened StepLemmas

  /** A record the scan accepts for a tag: that session, and a truthy date. */
  predicate Recoverable(rec: Record, tag: string) {
    rec.session == tag && rec.snap.date != ""
  }

  /** Index `i` holds the last record of the history the scan accepts. */
  predicate IsLastRecoverable(h: seq<Record>, tag: string, i: int)
    requires 0 <= i < |h|
  {
    Recoverable(h[i], tag) && forall j :: i < j < |h| ==> !Recoverable(h[j], tag)
  }

  /** The `for rec in reversed(history)` scan: the date of the last record
      with this session and a truthy date, or `None` when there is none. */
  function LastSavedDate(h: seq<Record>, tag: string): (r: Option<Date>)
    ensures r.Some? ==> r.value != ""
    decreases |h|
  {
    if |h| == 0 then None
    else if Recoverable(h[|h| - 1], tag) then Some(h[|h| - 1].snap.date)
    else LastSavedDate(h[..|h| - 1], tag)
  }

  /** The scan finds nothing exactly when no record has the session and a
      truthy date; otherwise it finds the date of the last such record. */
  lemma {:induction false} LastSavedDateSpec(h: seq<Record>, tag: string)
    ensures LastSavedDate(h, tag).None? <==> forall i :: 0 <= i < |h| ==> !Recoverable(h[i], tag)
    ensures LastSavedDate(h, tag).Some? ==>
              exists i :: 0 <= i < |h| && IsLastRecoverable(h, tag, i)
                && h[i].snap.date == LastSavedDate(h, tag).value
    decreases |h|
  {
    if |h| == 0 {
    } else if Recoverable(h[|h| - 1], tag) {
      assert IsLastRecoverable(h, tag, |h| - 1);
    } else {
      var init := h[..|h| - 1];
      LastSavedDateSpec(init, tag);
      if LastSavedDate(init, tag).Some? {
        var i :| 0 <= i < |init| && IsLastRecoverable(init, tag, i)
                 && init[i].snap.date == LastSavedDate(init, tag).value;
        assert IsLastRecoverable(h, tag, i);
      } else {
        assert forall i :: 0 <= i < |init| ==> init[i] == h[i];
      }
    }
  }

  /** A save guard after the scan: the date found, or the old value. */
  function RecoverGuard(g: Option<Date>, h: seq<Record>, tag: string): Option<Date> {
    match LastSavedDate(h, tag)
    case Some(d) => Some(d)
    case None => g
  }

  /** `load_history`, with the file's contents as `stored`: `None` when the
      file is missing or unreadable (history emptied, guards untouched);
      otherwise the stored history replaces the in-memory one and each save
      guard becomes the date of the last record of its session with a truthy
      date, or keeps its value when there is no such record. The snapshots
      and the reset guard are not restored. */
  function LoadHistory(s: State, stored: Option<seq<Record>>): (r: State)
    ensures r.history == (if stored.Some? then stored.value else [])
    ensures r.currentAm == s.currentAm && r.currentPm == s.currentPm
    ensures r.lastResetDate == s.lastResetDate
    ensures stored.None? ==> Guard(r, AM) == Guard(s, AM) && Guard(r, PM) == Guard(s, PM)
    ensures forall sess: Session :: stored.Some? ==>
              if exists i :: 0 <= i < |r.history| && Recoverable(r.history[i], Tag(sess)) then
                exists i :: 0 <= i < |r.history| && IsLastRecoverable(r.history, Tag(sess), i)
                  && Guard(r, sess) == Some(r.history[i].snap.date)
              else Guard(r, sess) == Guard(s, sess)
  {
    match stored
    case None => s.(history := [])
    case Some(h) =>
      LastSavedDateSpec(h, "AM");
      LastSavedDateSpec(h, "PM");
      s.(history := h,
         lastAmSavedDate := RecoverGuard(s.lastAmSavedDate, h, "AM"),
         lastPmSavedDate := RecoverGuard(s.lastPmSavedDate, h, "PM"))
  }

  /** The history's last record accepted for a tag decides the scan. */
  lemma {:induction false} LastRecordDecides(h: seq<Record>, x: Record, tail: seq<Record>, tag: string)
    requires Recoverable(x, tag)
    requires forall j :: 0 <= j < |tail| ==> !Recoverable(tail[j], tag)
    ensures LastSavedDate(h + [x] + tail, tag) == Some(x.snap.date)
    decreases |tail|
  {
    var full := h + [x] + tail;
    if |tail| == 0 {
      assert full[|full| - 1] == x;
    } else {
      var shorter := tail[..|tail| - 1];
      assert !Recoverable(full[|full| - 1], tag) by {
        assert full[|full| - 1] == tail[|tail| - 1];
      }
      assert full[..|full| - 1] == h + [x] + shorter;
      LastRecordDecides(h, x, shorter, tag);
    }
  }

  /** A restart right after a tick that saved a session recovers, as that
      session's guard, the date of the snapshot just saved; it agrees with
      the guard the running loop set exactly when that date is today. */
  lemma ReloadAfterSave(s: State, sess: Session, today: Date, t: TimeOfDay, f: Fetch, restarted: State)
    requires t >= SaveFrom(sess) && Guard(s, sess) != Some(today)
    requires IsRealDate(SeenBySave(s, sess, t, f).date)
    ensures var r := Step(s, today, t, f);
      Guard(LoadHistory(restarted, Some(r.history)), sess) == Some(SeenBySave(s, sess, t, f).date)
  {
    var r := Step(s, today, t, f);
    StepShape(s, today, t, f);
    var seen := SeenBySave(s, sess, t, f);
    var amPart := SaveRecords(s, AM, today, t, f);
    var pmPart := SaveRecords(s, PM, today, t, f);
    match sess
    case AM =>
      assert r.history == s.history + [Record("AM", seen)] + pmPart;
      LastRecordDecides(s.history, Record("AM", seen), pmPart, "AM");
    case PM =>
      assert r.history == (s.history + amPart) + [Record("PM", seen)] + [];
      LastRecordDecides(s.history + amPart, Record("PM", seen), [], "PM");
  }
}
