/** The values the scheduler holds: quote snapshots, the placeholder, the
    outcome of one fetch, and the records of the history log. */
module Snapshots {
  import opened Options
  import opened Clock
  import HmsText

  /** A calendar date in ISO form (`YYYY-MM-DD`), compared as text. */
  type Date = string

  /** The "--" marker for a field that holds no real data. */
  const Sentinel: string := "--"

  /** One quote: the five string fields of the dictionaries in `main.py`
      (`date`, `time`, `set`, `value`, `twod`). */
  datatype Snapshot = Snapshot(date: string, time: string, setIndex: string, value: string, twod: string)

  /** `PLACEHOLDER`: every field is the sentinel. */
  const Placeholder: Snapshot := Snapshot(Sentinel, Sentinel, Sentinel, Sentinel, Sentinel)

  /** A date field a save accepts: present (non-empty) and not the sentinel. */
  predicate IsRealDate(d: string) {
    d != "" && d != Sentinel
  }

  /** The outcome of `get_live`: the scraped quote, or a failure observed at
      the given instant of the fetch's own clock reading. */
  datatype Fetch = Success(snap: Snapshot) | Failure(at: TimeOfDay)

  /** The snapshot `get_live` returns. A failure degrades to the placeholder
      with a real `HH:MM:SS` time stamp, so it never passes for saved data. */
  function Fetched(f: Fetch): (r: Snapshot)
    ensures f.Success? ==> r == f.snap
    ensures f.Failure? ==> !IsRealDate(r.date) && r.(time := Sentinel) == Placeholder
    ensures f.Failure? ==> HmsText.ParseHms(r.time) == Some(f.at)
    ensures f.Failure? ==> |r.time| == 8 && r.time[2] == ':' && r.time[5] == ':'
  {
    match f
    case Success(snap) => snap
    case Failure(at) =>
      HmsText.ParseFormatRoundTrip(at);
      Placeholder.(time := HmsText.FormatHms(at))
  }

  /** The two trading sessions. */
  datatype Session = AM | PM

  /** The `session` value written into a history record. */
  function Tag(sess: Session): string {
    match sess
    case AM => "AM"
    case PM => "PM"
  }

  /** One history entry: a session tag next to a snapshot's fields. Entries
      read back from the file may carry any tag; `""` stands for a missing
      `date` key. */
  datatype Record = Record(session: string, snap: Snapshot)
}
