/** Finite runs of the runner loop: what a sequence of ticks can and cannot
    do to the state. */
module Runs {
  import opened Options
  import opened Clock
  import opened Snapshots
  import opened Scheduler
  import opened StepLemmas
  import opened Recovery

  /** One iteration's inputs: the date, the time of day, the fetch result. */
  datatype Tick = Tick(today: Date, now: TimeOfDay, fetch: Fetch)

  /** The state after the ticks, in order. */
  function Run(s: State, ticks: seq<Tick>): (r: State)
    ensures s.history <= r.history && |r.history| <= |s.history| + 2 * |ticks|
    decreases |ticks|
  {
    if |ticks| == 0 then s
    else Run(Step(s, ticks[0].today, ticks[0].now, ticks[0].fetch), ticks[1..])
  }

  /** How many ticks of the run perform the reset. */
  function ResetCount(s: State, ticks: seq<Tick>): nat
    decreases |ticks|
  {
    if |ticks| == 0 then 0
    else
      (if ResetFires(s, ticks[0].today, ticks[0].now) then 1 else 0)
      + ResetCount(Step(s, ticks[0].today, ticks[0].now, ticks[0].fetch), ticks[1..])
  }

  predicate AllOnDate(ticks: seq<Tick>, d: Date) {
    forall i :: 0 <= i < |ticks| ==> ticks[i].today == d
  }

  /** The history is append-only over a run, and every record a run appends
      is tagged "AM" or "PM" and carries a real date. */
  lemma {:induction false} RunAppendOnly(s: State, ticks: seq<Tick>)
    ensures s.history <= Run(s, ticks).history
    ensures forall i :: |s.history| <= i < |Run(s, ticks).history| ==>
              Run(s, ticks).history[i].session in {"AM", "PM"}
              && IsRealDate(Run(s, ticks).history[i].snap.date)
    decreases |ticks|
  {
    if |ticks| > 0 {
      var s1 := Step(s, ticks[0].today, ticks[0].now, ticks[0].fetch);
      RunAppendOnly(s1, ticks[1..]);
    }
  }

  /** The records a run appends are those of its first step followed by
      those of the rest of the run. */
  lemma AppendedSplits(s: State, s1: State, r: State)
    requires s.history <= s1.history <= r.history
    ensures Appended(s, r) == Appended(s, s1) + Appended(s1, r)
  {
  }

  /** On one date, a run appends at most one record per session; none when
      the session's guard already holds that date. */
  lemma {:induction false} AtMostOneSavePerDay(s: State, ticks: seq<Tick>, d: Date, sess: Session)
    requires AllOnDate(ticks, d)
    ensures s.history <= Run(s, ticks).history
    ensures CountTag(Appended(s, Run(s, ticks)), Tag(sess)) <= 1
    ensures Guard(s, sess) == Some(d) ==>
              CountTag(Appended(s, Run(s, ticks)), Tag(sess)) == 0
    decreases |ticks|
  {
    RunAppendOnly(s, ticks);
    if |ticks| == 0 {
      assert Appended(s, s) == [];
    } else {
      var tk := ticks[0];
      var s1 := Step(s, tk.today, tk.now, tk.fetch);
      var r := Run(s1, ticks[1..]);
      assert r == Run(s, ticks);
      SaveRule(s, sess, tk.today, tk.now, tk.fetch);
      AtMostOneSavePerDay(s1, ticks[1..], d, sess);
      AppendedSplits(s, s1, r);
      CountTagConcat(Appended(s, s1), Appended(s1, r), Tag(sess));
    }
  }

  /** On one date, a run performs the reset at most once; not at all when
      the reset guard already holds that date. */
  lemma {:induction false} ResetOncePerDay(s: State, ticks: seq<Tick>, d: Date)
    requires AllOnDate(ticks, d)
    ensures ResetCount(s, ticks) <= 1
    ensures s.lastResetDate == Some(d) ==> ResetCount(s, ticks) == 0
    decreases |ticks|
  {
    if |ticks| > 0 {
      var tk := ticks[0];
      var s1 := Step(s, tk.today, tk.now, tk.fetch);
      if ResetFires(s, tk.today, tk.now) {
        ResetTick(s, tk.today, tk.now, tk.fetch);
      }
      ResetOncePerDay(s1, ticks[1..], d);
    }
  }

  /** After the AM window closes, the AM snapshot stays frozen until the
      next reset: a run none of whose ticks falls in the reset or AM window
      (mid-day, PM, evening, and the next morning before 08:50:00) leaves it
      unchanged. */
  lemma {:induction false} AmFrozenUntilReset(s: State, ticks: seq<Tick>)
    requires forall i :: 0 <= i < |ticks| ==> Classify(ticks[i].now) !in {ResetWindow, AmLive}
    ensures Run(s, ticks).currentAm == s.currentAm
    decreases |ticks|
  {
    if |ticks| > 0 {
      var tk := ticks[0];
      AmHeldOutsideMorning(s, tk.today, tk.now, tk.fetch);
      AmFrozenUntilReset(Step(s, tk.today, tk.now, tk.fetch), ticks[1..]);
    }
  }

  /** Ticks outside the reset, AM and PM windows change neither snapshot. */
  lemma {:induction false} SnapshotsHeldOutsideWindows(s: State, ticks: seq<Tick>)
    requires forall i :: 0 <= i < |ticks| ==> Classify(ticks[i].now) in {PreOpen, MidDay, PostClose}
    ensures Run(s, ticks).currentAm == s.currentAm && Run(s, ticks).currentPm == s.currentPm
    decreases |ticks|
  {
    if |ticks| > 0 {
      var tk := ticks[0];
      FreezeOutsideWindows(s, tk.today, tk.now, tk.fetch);
      SnapshotsHeldOutsideWindows(Step(s, tk.today, tk.now, tk.fetch), ticks[1..]);
    }
  }

  /** An AM snapshot without a real date, once the AM window has closed, is
      never saved: a run with no tick in the reset or AM window appends no
      AM record and leaves the AM guard as it was, whatever dates its ticks
      carry. The unset guard is not a retry. */
  lemma {:induction false} AmLostAfterClose(s: State, ticks: seq<Tick>)
    requires !IsRealDate(s.currentAm.date)
    requires forall i :: 0 <= i < |ticks| ==> Classify(ticks[i].now) !in {ResetWindow, AmLive}
    ensures CountTag(Appended(s, Run(s, ticks)), "AM") == 0
    ensures Run(s, ticks).lastAmSavedDate == s.lastAmSavedDate
    decreases |ticks|
  {
    if |ticks| == 0 {
      assert Appended(s, s) == [];
    } else {
      var tk := ticks[0];
      var s1 := Step(s, tk.today, tk.now, tk.fetch);
      var r := Run(s1, ticks[1..]);
      assert r == Run(s, ticks);
      AmHeldOutsideMorning(s, tk.today, tk.now, tk.fetch);
      SaveRule(s, AM, tk.today, tk.now, tk.fetch);
      AmLostAfterClose(s1, ticks[1..]);
      AppendedSplits(s, s1, r);
      CountTagConcat(Appended(s, s1), Appended(s1, r), "AM");
    }
  }

  /** A PM snapshot without a real date is never saved by ticks outside the
      PM window: such a run appends no PM record and leaves the PM guard as
      it was. */
  lemma {:induction false} PmLostOutsideAfternoon(s: State, ticks: seq<Tick>)
    requires !IsRealDate(s.currentPm.date)
    requires forall i :: 0 <= i < |ticks| ==> Classify(ticks[i].now) != PmLive
    ensures CountTag(Appended(s, Run(s, ticks)), "PM") == 0
    ensures Run(s, ticks).lastPmSavedDate == s.lastPmSavedDate
    decreases |ticks|
  {
    if |ticks| == 0 {
      assert Appended(s, s) == [];
    } else {
      var tk := ticks[0];
      var s1 := Step(s, tk.today, tk.now, tk.fetch);
      var r := Run(s1, ticks[1..]);
      assert r == Run(s, ticks);
      WindowsMatchTable(tk.now);
      PmUnrealOutsideAfternoon(s, tk.today, tk.now, tk.fetch);
      SaveRule(s, PM, tk.today, tk.now, tk.fetch);
      PmLostOutsideAfternoon(s1, ticks[1..]);
      AppendedSplits(s, s1, r);
      CountTagConcat(Appended(s, s1), Appended(s1, r), "PM");
    }
  }

  /** A failed fetch on an AM-window tick, followed only by ticks outside the
      reset and AM windows (the 12:00:59 tick followed by the rest of the
      day), loses the morning: every earlier good quote was overwritten, and
      no AM record is appended nor the AM guard set. */
  lemma LastAmFailureLosesMorning(s: State, today: Date, t0: TimeOfDay, at: TimeOfDay, ticks: seq<Tick>)
    requires Classify(t0) == AmLive
    requires forall i :: 0 <= i < |ticks| ==> Classify(ticks[i].now) !in {ResetWindow, AmLive}
    ensures var s1 := Step(s, today, t0, Failure(at));
      && s.history <= Run(s1, ticks).history
      && CountTag(Appended(s, Run(s1, ticks)), "AM") == 0
      && Run(s1, ticks).lastAmSavedDate == s.lastAmSavedDate
  {
    var s1 := Step(s, today, t0, Failure(at));
    WindowsMatchTable(t0);
    AmTick(s, today, t0, Failure(at));
    AmLostAfterClose(s1, ticks);
  }

  /** A failed fetch on the 16:30:00 tick, followed only by ticks outside the
      PM window, loses the afternoon: no PM record is appended and the PM
      guard keeps its value. */
  lemma LastPmFailureLosesAfternoon(s: State, today: Date, at: TimeOfDay, ticks: seq<Tick>)
    requires forall i :: 0 <= i < |ticks| ==> Classify(ticks[i].now) != PmLive
    ensures var s1 := Step(s, today, PmSaveFrom, Failure(at));
      && s.history <= Run(s1, ticks).history
      && CountTag(Appended(s, Run(s1, ticks)), "PM") == 0
      && Run(s1, ticks).lastPmSavedDate == s.lastPmSavedDate
  {
    var s1 := Step(s, today, PmSaveFrom, Failure(at));
    var r := Run(s1, ticks);
    FailedPmFetchSavesNothing(s, today, PmSaveFrom, at);
    PmTick(s, today, PmSaveFrom, Failure(at));
    PmLostOutsideAfternoon(s1, ticks);
    AppendedSplits(s, s1, r);
    CountTagConcat(Appended(s, s1), Appended(s1, r), "PM");
  }

  /** Ticks outside the reset window never change the reset date. */
  lemma {:induction false} ResetDateKeptOutsideWindow(s: State, ticks: seq<Tick>)
    requires forall i :: 0 <= i < |ticks| ==> Classify(ticks[i].now) != ResetWindow
    ensures Run(s, ticks).lastResetDate == s.lastResetDate
    decreases |ticks|
  {
    if |ticks| > 0 {
      var tk := ticks[0];
      WindowsMatchTable(tk.now);
      ResetDateKeptOutsideWindow(Step(s, tk.today, tk.now, tk.fetch), ticks[1..]);
    }
  }

  /** A process started on any day, whatever history it loads and however
      many ticks it runs outside the reset window first, performs the reset
      on its first tick in the reset window: the reset date is not among the
      things recovered at start-up. */
  lemma RestartResetsAgain(stored: Option<seq<Record>>, ticks: seq<Tick>, today: Date, t: TimeOfDay)
    requires forall i :: 0 <= i < |ticks| ==> Classify(ticks[i].now) != ResetWindow
    requires InRange(ResetStart, AmStart, t)
    ensures ResetFires(Run(LoadHistory(Initial(), stored), ticks), today, t)
  {
    ResetDateKeptOutsideWindow(LoadHistory(Initial(), stored), ticks);
  }
}
