/** The `/data` endpoint: which AM/PM values are shown at a time of day. */
module DataView {
  import opened Options
  import opened Clock
  import opened Snapshots
  import opened Scheduler
  import opened Runs

  /** A shown value: the empty dictionary `{}` or a snapshot. */
  datatype Shown = Empty | Shows(snap: Snapshot)

  /** The response body: AM, PM and the history. */
  datatype View = View(am: Shown, pm: Shown, history: seq<Record>)

  /** `get_data` at time `t`, branch by branch as written, including the two
      guards bounded above by 08:50:00 after a lower bound of 12:01:00 or
      16:30:00. Those guards hold for no instant, so the response is: empty
      before 08:00:00, placeholders in the reset window, the AM snapshot with
      a placeholder PM in the AM window, and both held snapshots at every
      other time. */
  function GetData(s: State, t: TimeOfDay): (v: View)
    ensures v.history == s.history
    ensures t < EmptyBefore ==> v.am == Empty && v.pm == Empty
    ensures InRange(ResetStart, AmStart, t) ==>
              v.am == Shows(Placeholder) && v.pm == Shows(Placeholder)
    ensures InRange(AmStart, AmEnd, t) ==>
              v.am == Shows(s.currentAm) && v.pm == Shows(Placeholder)
    ensures t >= EmptyBefore && Classify(t) !in {ResetWindow, AmLive} ==>
              v.am == Shows(s.currentAm) && v.pm == Shows(s.currentPm)
  {
    WindowsMatchTable(t);
    if t < EmptyBefore then
      View(Empty, Empty, s.history)
    else if InRange(ResetStart, AmStart, t) then
      View(Shows(Placeholder), Shows(Placeholder), s.history)
    else if InRange(AmStart, AmEnd, t) then
      View(Shows(s.currentAm), Shows(Placeholder), s.history)
    else if AmEnd <= t < ResetStart then
      View(Shows(s.currentAm), Shows(Placeholder), s.history)
    else if PmSaveFrom <= t < ResetStart then
      View(Shows(s.currentAm), Shows(s.currentPm), s.history)
    else if InRange(PmStart, PmEnd, t) then
      View(Shows(s.currentAm), Shows(s.currentPm), s.history)
    else
      View(Shows(s.currentAm), Shows(s.currentPm), s.history)
  }

  /** Read right after a tick at the same instant, from 08:00:00 on, the
      endpoint shows exactly the snapshots the tick left in the state,
      except in the reset window on a date whose reset has already happened
      (then it shows placeholders whatever is held). In particular it shows
      the fetched quote as AM during the AM window and as PM during the PM
      window. */
  lemma ViewAfterTick(s: State, today: Date, t: TimeOfDay, f: Fetch)
    requires t >= EmptyBefore
    requires !(InRange(ResetStart, AmStart, t) && s.lastResetDate == Some(today))
    ensures var r := Step(s, today, t, f);
      GetData(r, t) == View(Shows(r.currentAm), Shows(r.currentPm), r.history)
    ensures InRange(AmStart, AmEnd, t) ==> GetData(Step(s, today, t, f), t).am == Shows(Fetched(f))
    ensures InRange(PmStart, PmEnd, t) ==> GetData(Step(s, today, t, f), t).pm == Shows(Fetched(f))
  {
    var r := Step(s, today, t, f);
    WindowsMatchTable(t);
    WindowsDisjoint(t);
    if InRange(ResetStart, AmStart, t) {
      assert r.currentAm == Placeholder && r.currentPm == Placeholder;
    } else if InRange(AmStart, AmEnd, t) {
      assert r.currentAm == Fetched(f) && r.currentPm == Placeholder;
    } else if InRange(PmStart, PmEnd, t) {
      assert r.currentPm == Fetched(f);
    }
  }

  /** The 12:01:00–13:00:00 branch of `get_data` never fires, yet after an
      AM-window tick the held PM snapshot is the placeholder, and mid-day
      ticks leave it so: a mid-day read after an AM-window tick and any
      number of mid-day ticks shows a placeholder PM. */
  lemma MidDayPmAfterAmTick(s: State, today: Date, t0: TimeOfDay, f: Fetch, ticks: seq<Tick>, t: TimeOfDay)
    requires Classify(t0) == AmLive && Classify(t) == MidDay
    requires forall i :: 0 <= i < |ticks| ==> Classify(ticks[i].now) == MidDay
    ensures GetData(Run(Step(s, today, t0, f), ticks), t).pm == Shows(Placeholder)
  {
    WindowsMatchTable(t0);
    WindowsMatchTable(t);
    SnapshotsHeldOutsideWindows(Step(s, today, t0, f), ticks);
  }
}
