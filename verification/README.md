# Live AM/PM scheduler — a Dafny model

This project models the scheduler at the core of `main.py`. A background loop
(`live_runner`) runs one iteration, then sleeps one second, forever. It
keeps a current AM and a current PM snapshot, and on every calendar date it
resets both to a placeholder (there is no trading calendar). It fetches the
stock-index page only inside the AM window [09:00:00, 12:01:00), where the
result becomes the AM snapshot, and inside the PM window [13:00:00,
16:30:01), where it becomes the PM snapshot. At most once per session and date it
appends the snapshot to a history log, guarded by `last_am_saved_date` and
`last_pm_saved_date`. At start-up `load_history` rebuilds these two guards
from the stored history. The `/data` endpoint (`get_data`) projects the state
according to the time of day.

The model is functional: an immutable `State` record, and one pure `Step`
per loop iteration that takes the date, the time of day and the fetch
outcome. Finite runs of steps are folds of `Step`.

| file | module | models |
|---|---|---|
| `options.dfy` | `Options` | `None`-or-value guards |
| `clock.dfy` | `Clock` | seconds since midnight, `datetime.time` fields and order, `in_range`, the window table |
| `hms_text.dfy` | `HmsText` | `time_from_hms` on `"HH:MM:SS"` text, `strftime("%H:%M:%S")` |
| `snapshots.dfy` | `Snapshots` | `PLACEHOLDER`, snapshots, fetch outcomes, history records |
| `scheduler.dfy` | `Scheduler` | the state and one iteration of `live_runner` |
| `step_lemmas.dfy` | `StepLemmas` | what one tick does, window by window |
| `runs.dfy` | `Runs` | sequences of ticks: once-per-day, append-only, freeze |
| `recovery.dfy` | `Recovery` | `load_history` and its guard-recovery scan |
| `data_view.dfy` | `DataView` | `get_data` |

Modelling choices:
- A time of day is a whole number of seconds since midnight. `datetime.time`
  also has microseconds, but every constant in the file is a whole second,
  so rounding an instant down to its second changes no comparison.
  `Clock.SecondsOrderIsLexicographic` shows that comparing seconds agrees
  with Python's field-by-field `time` comparison.
- The fetch is an input. It is either `Success(snapshot)` or `Failure(at)`,
  where `at` is the instant the failing `get_live` read from its own clock.
- The history file is a value. `LoadHistory` takes the stored records, or
  `None` when the file is missing or unreadable. Writing the file is a no-op.
- Behaviours of the code that the model keeps as written:
  - A save sets its guard only when it appends a record. A snapshot without
    a real date leaves the guard unset, and the save is tried again on every
    later tick. That retry cannot succeed for AM: every AM-window tick
    overwrites the AM snapshot with the fetch result, a failure included
    (main.py:159-160), and nothing changes it between 12:01:00 and the next
    reset. So one failed fetch on the 12:00:59 tick discards the whole
    morning (`Runs.LastAmFailureLosesMorning`). A PM retry can succeed only
    on a later PM-window tick, so a failed fetch on the 16:30:00 tick
    discards the afternoon (`Runs.LastPmFailureLosesAfternoon`).
  - A save is tried on any tick at or after its instant, not only on the
    first tick after the window closes.
  - `last_reset_date` is not restored at start-up, so a restarted process
    resets again in its first reset-window tick.
  - `get_data`'s docstring (main.py:211-218) promises a placeholder PM from
    12:01:00 to 13:00:00. The branch meant for that (main.py:235) compares
    against `08:50:00` as its upper bound, and so does the following one
    (main.py:237). Neither can fire, so in that interval the endpoint shows
    the held PM snapshot. Every reset and every AM-window tick sets that
    snapshot to the placeholder (main.py:153, 162), so a non-placeholder PM
    shows there only when no reset-window or AM-window tick has run since
    the last PM-window tick. After an AM-window tick and any number of
    mid-day ticks, a mid-day read shows a placeholder PM
    (`DataView.MidDayPmAfterAmTick`).
  - The second of those branches (main.py:237) is indented by five spaces
    inside a block indented by four. CPython rejects the file as written with
    `IndentationError` ("unindent does not match any outer indentation
    level"), so as written neither `live_runner` nor `get_data` ever runs.
    The model reads that line as a statement at function level, the evident
    intent; since its guard never holds, the reading does not change the
    result.

## Model

| member | source | states |
|---|---|---|
| Clock.Seconds | main.py:43-45 | an instant lies within the hour its hour field names |
| Clock.ToHms | main.py:43-45 | the hour, minute and second fields of an instant are in range and recompose to the instant |
| Clock.HmsRoundTrip | main.py:43-45 | the fields of a valid `h:m:s` are recovered from its seconds, so the representation is unique |
| Clock.SecondsOrderIsLexicographic | main.py:47-53 | comparing seconds since midnight orders instants as Python orders `datetime.time` values: hour, then minute, then second |
| Clock.TimeFromHms | main.py:43-45 | `datetime.time(h, m, s)` succeeds exactly for in-range fields, and the instant built carries exactly those fields |
| Clock.InRange | main.py:47-55 | the instant lies on the clock arc from start (inclusive) to end (exclusive): it is less far after start, modulo 24 hours, than end is; an empty arc when start equals end |
| Clock.EmptyRange | main.py:47-53 | a range whose start equals its end contains no instant |
| Clock.WrappedRangeIsComplement | main.py:52-55 | for start after end, the midnight-crossing branch accepts exactly the instants outside [end, start) |
| Clock.WindowsMatchTable | main.py:149-181 | the three `in_range` tests of the loop are the reset, AM-live and PM-live rows of the ordered window table |
| Clock.WindowsDisjoint | main.py:149-181 | no instant is in two of the reset, AM and PM windows, so one tick performs at most one of reset, AM fetch and PM fetch |
| HmsText.Split | main.py:44 | `split(":")` yields ':'-free parts that join back with ':' to the original text |
| HmsText.ParseField | main.py:44 | `int` succeeds on a non-empty field of decimal digits and fails otherwise |
| HmsText.ParseHms | main.py:43-45 | a successful parse had exactly three fields, and they read as the hour, minute and second of the instant produced |
| HmsText.ParseHmsSucceeds | main.py:43-45 | text of exactly three fields that read as in-range hour, minute and second parses to that instant, whether or not the fields are zero-padded |
| HmsText.TwoDigits | main.py:129 | `%H`, `%M` and `%S` write two decimal digits that read back as the number |
| HmsText.FormatHms | main.py:126-129 | the formatted time has the `HH:MM:SS` shape |
| HmsText.ParseFormatRoundTrip | main.py:126-133 | reading a formatted instant back with `time_from_hms` gives the same instant |
| HmsText.LiteralReads | main.py:150-184 | a zero-padded `HH:MM:SS` literal reads as the instant its fields name |
| HmsText.EmptyBeforeLiteral | main.py:223 | the literal `"08:00:00"` reads as the constant `EmptyBefore` |
| HmsText.ResetStartLiteral | main.py:150 | the literal `"08:50:00"` reads as the constant `ResetStart` |
| HmsText.AmStartLiteral | main.py:150 | the literal `"09:00:00"` reads as the constant `AmStart` |
| HmsText.AmEndLiteral | main.py:158 | the literal `"12:01:00"` reads as the constant `AmEnd` |
| HmsText.PmStartLiteral | main.py:178 | the literal `"13:00:00"` reads as the constant `PmStart` |
| HmsText.PmSaveFromLiteral | main.py:184 | the literal `"16:30:00"` reads as the constant `PmSaveFrom` |
| HmsText.PmEndLiteral | main.py:178 | the literal `"16:30:01"` reads as the constant `PmEnd` |
| Snapshots.Fetched | main.py:124-133 | a success yields the scraped snapshot; a failure yields the placeholder with a zero-padded `HH:MM:SS` time stamp that reads back as the failure instant, and a date that no save accepts |
| Scheduler.Initial | main.py:30-38 | at import time both snapshots are the placeholder (so neither holds a saveable date), the history is empty and no guard is set |
| Scheduler.ResetPhase | main.py:149-154 | when the reset fires, both snapshots become the placeholder and the reset date becomes today; otherwise nothing changes; the history and save guards are never touched |
| Scheduler.AmFetchPhase | main.py:157-162 | inside [09:00:00, 12:01:00) the AM snapshot becomes the fetch result and the PM snapshot the placeholder; otherwise nothing changes |
| Scheduler.SavePhase | main.py:167-189 | a save that fires appends the session's snapshot under its tag and sets that session's guard to today; otherwise nothing changes; snapshots and the other guards are never touched |
| Scheduler.PmFetchPhase | main.py:177-181 | inside [13:00:00, 16:30:01) the PM snapshot becomes the fetch result, otherwise nothing changes; the AM snapshot, the history and all guards are never touched |
| Scheduler.Step | main.py:144-190 | the history is only extended, by at most two records, each tagged AM or PM with a real date; each guard either keeps its value or becomes today |
| StepLemmas.ResetTick | main.py:149-154 | in the reset window, the first tick of a date sets both snapshots to the placeholder and records the date; later ticks of that date change nothing |
| StepLemmas.AmTick | main.py:157-165 | an AM-window tick holds the fetch result as AM, forces PM to the placeholder, and saves nothing |
| StepLemmas.PmTick | main.py:177-181 | a PM-window tick holds the fetch result as PM and leaves AM unchanged |
| StepLemmas.FreezeOutsideWindows | main.py:149-190 | outside the reset, AM and PM windows a tick changes neither snapshot |
| StepLemmas.AmHeldOutsideMorning | main.py:149-181 | a tick outside the reset and AM windows, from 12:01:00 through midnight to 08:50:00, never changes the AM snapshot |
| StepLemmas.StepShape | main.py:167-189 | a tick appends the AM save's record, if any, then the PM save's, and each save guard becomes today exactly when that save appends |
| StepLemmas.SaveRule | main.py:167-189 | a session record is appended exactly when the tick is past the save instant, the guard is not today and the snapshot seen has a real date; then exactly one record holding that snapshot is appended and the guard becomes today, otherwise the guard keeps its value |
| StepLemmas.GuardBlocksSave | main.py:168-174 | a guard equal to today blocks the session's save on that tick |
| StepLemmas.PmFetchPrecedesSave | main.py:177-189 | on the 16:30:00 tick with a successful fetch and PM unsaved today, the last record appended is exactly that tick's snapshot |
| StepLemmas.FailedPmFetchSavesNothing | main.py:177-189 | a failed PM-window fetch appends no PM record and keeps the PM guard unchanged |
| StepLemmas.PmUnrealOutsideAfternoon | main.py:149-181 | outside the PM window no tick gives the PM snapshot a real date it lacked |
| Runs.Run | main.py:144-193 | a run of ticks keeps the old history as a prefix and appends at most two records per tick |
| Runs.RunAppendOnly | main.py:172-187 | over any run the old history stays a prefix, and every appended record is tagged AM or PM with a real date |
| Runs.AtMostOneSavePerDay | main.py:167-189 | over a run on one date, at most one record per session is appended, and none once the guard holds that date |
| Runs.ResetOncePerDay | main.py:149-154 | over a run on one date the reset fires at most once, and never once the reset guard holds that date |
| Runs.AmFrozenUntilReset | main.py:149-190 | a run with no tick in the reset or AM window, including the next day's ticks before 08:50:00, leaves the AM snapshot unchanged, so it stays frozen from 12:01:00 until the next reset |
| Runs.SnapshotsHeldOutsideWindows | main.py:149-181 | a run whose ticks all fall outside the reset, AM and PM windows changes neither snapshot |
| Runs.AmLostAfterClose | main.py:157-174 | an AM snapshot without a real date is never saved by a run with no reset-window or AM-window tick: no AM record is appended and the AM guard keeps its value |
| Runs.PmLostOutsideAfternoon | main.py:177-189 | a PM snapshot without a real date is never saved by a run with no PM-window tick: no PM record is appended and the PM guard keeps its value |
| Runs.LastAmFailureLosesMorning | main.py:157-174 | a failed fetch on an AM-window tick followed only by ticks outside the reset and AM windows appends no AM record and leaves the AM guard unchanged, whatever the earlier fetches returned |
| Runs.LastPmFailureLosesAfternoon | main.py:177-189 | a failed fetch on the 16:30:00 tick followed only by ticks outside the PM window appends no PM record and leaves the PM guard unchanged |
| Runs.ResetDateKeptOutsideWindow | main.py:149-154 | a run with no tick in the reset window keeps the reset date unchanged |
| Runs.RestartResetsAgain | main.py:57-78 | after start-up, whatever history is loaded and whatever ticks outside the reset window run first, the first tick in the reset window performs the reset, because the reset date is not recovered |
| Recovery.LastSavedDate | main.py:67-76 | the scan only ever yields a non-empty (truthy) date; its full characterisation is `LastSavedDateSpec` |
| Recovery.LastSavedDateSpec | main.py:67-76 | the reversed scan finds nothing exactly when no record has the session and a truthy date; otherwise it returns the date of the last such record |
| Recovery.LoadHistory | main.py:57-78 | loading replaces the history, sets each save guard to the date of the last record of its session with a truthy date or leaves it unchanged, and never restores the snapshots or the reset guard |
| Recovery.LastRecordDecides | main.py:69-76 | a qualifying record followed only by non-qualifying ones decides the scan |
| Recovery.ReloadAfterSave | main.py:67-76 | after a tick that saved a session, reloading its history recovers that session's guard as the date of the saved snapshot |
| DataView.GetData | main.py:209-245 | empty before 08:00:00, placeholders in the reset window, AM with a placeholder PM in the AM window, both held snapshots at all other times |
| DataView.MidDayPmAfterAmTick | main.py:234-245 | although the mid-day branch never fires, a mid-day read after an AM-window tick followed by any number of mid-day ticks shows a placeholder PM |
| DataView.ViewAfterTick | main.py:219-245 | read right after a tick from 08:00:00 on, the endpoint shows the snapshots the tick left, including the fetched quote during the AM and PM windows; not claimed for a reset-window tick on a date already reset, where it shows placeholders whatever is held |

## Left out

- The scraping in `get_live` (HTTP request, HTML parsing, table indexing, main.py:94-103). This is network I/O against a third-party page, so the fetch outcome is an input.
- The two-digit derivation (main.py:105-114). It relies on `float` parsing and `"{:.2f}"` rounding, which are floating-point numerics. A successful snapshot's fields are taken as given.
- JSON file I/O in `load_history` and `save_history`, and the exceptions they swallow. The stored history is a value, and writing it is a no-op.
- Recovery.LoadHistory: does not model a stored entry that is not a dictionary. There `rec.get` raises part-way through the scan (main.py:70, 74), possibly after the AM guard was already set, and the `except` at main.py:77-78 empties the history but keeps that guard. Stored entries are records here, so this partial update cannot arise.
- The thread, `time.sleep`, and the infinite loop (main.py:144, 193, 197-198). Runs are finite sequences of ticks.
- The `pytz` time zone and `datetime.now`. The date and the time of day are inputs to each tick.
- The FastAPI application, the `/` endpoint, and `print` logging.
- HmsText.ParseField: accepts only ASCII digit fields. Python's `int` also accepts signs, surrounding whitespace, underscores and other Unicode digits. Every literal the schedule parses is plain digits.
- Snapshots.Fetched: does not tie a success's `date` and `time` to the clock. In the source they come from the same `datetime.now` reading, which is an input the model does not have.
- DataView.GetData: the response's dictionaries are modelled as snapshots or `Empty`. JSON serialisation is not modelled.
