/**
 * The due-ness rule of the scheduler (`_should_run`). The natural-language
 * recurrence parser is a foreign library; it is a parameter here: given the
 * schedule text and the relative base, it yields the next occurrence or
 * nothing.
 */
module Schedule {
  import opened Wrappers

  /** A point in time; only the order of timestamps matters to the scheduler. */
  type Timestamp = int

  /** `dateparser.parse(spec, RELATIVE_BASE = base, PREFER_DATES_FROM = future)`. */
  type ScheduleParser = (string, Timestamp) -> Option<Timestamp>

  /** The error raised when a schedule cannot be resolved to a timestamp. */
  datatype ScheduleError = CouldNotParse(spec: string)

  /** The relative base of the parse: the last run when there is one, else now. */
  function Anchor(lastRun: Option<Timestamp>, now: Timestamp): Timestamp {
    match lastRun
    case Some(t) => t
    case None => now
  }

  /** The half-open window `(lastRun, now]` in which an occurrence makes a job due. */
  predicate InWindow(t: Timestamp, lastRun: Timestamp, now: Timestamp) {
    lastRun < t <= now
  }

  /**
   * Whether a job with schedule `spec`, last completed at `lastRun` (if ever),
   * is due at `now`. The schedule is parsed first, so an unparseable schedule
   * raises even for a job that never ran.
   */
  function ShouldRun(parse: ScheduleParser, spec: string, lastRun: Option<Timestamp>, now: Timestamp): (r: Result<bool, ScheduleError>)
    ensures r.Err? ==> r.error == CouldNotParse(spec)
    ensures r == Ok(true) ==> lastRun.None? || lastRun.value < now
  {
    match parse(spec, Anchor(lastRun, now))
    case None => Err(CouldNotParse(spec))
    case Some(next) =>
      match lastRun
      case None => Ok(true)
      case Some(last) => Ok(last < next <= now)
  }

  /**
   * The decision fails exactly when the schedule does not resolve against
   * the anchor, whether or not the job has run before.
   */
  lemma ErrorIffUnparseable(parse: ScheduleParser, spec: string, lastRun: Option<Timestamp>, now: Timestamp)
    ensures ShouldRun(parse, spec, lastRun, now).Err? <==> parse(spec, Anchor(lastRun, now)).None?
    ensures ShouldRun(parse, spec, lastRun, now).Err? ==> ShouldRun(parse, spec, lastRun, now).error == CouldNotParse(spec)
  {
  }

  /** Bootstrap: a job that never ran is due, provided its schedule parses against now. */
  lemma NeverRunIsDue(parse: ScheduleParser, spec: string, now: Timestamp)
    ensures ShouldRun(parse, spec, None, now) == if parse(spec, now).Some? then Ok(true) else Err(CouldNotParse(spec))
  {
  }

  /**
   * A job that ran before is due exactly when the occurrence resolved
   * against its last run lies in the window `(lastRun, now]`.
   */
  lemma DueIffOccurrenceInWindow(parse: ScheduleParser, spec: string, last: Timestamp, now: Timestamp)
    ensures ShouldRun(parse, spec, Some(last), now) == Ok(true)
        <==> parse(spec, last).Some? && InWindow(parse(spec, last).value, last, now)
    ensures ShouldRun(parse, spec, Some(last), now) == Ok(false)
        <==> parse(spec, last).Some? && !InWindow(parse(spec, last).value, last, now)
  {
  }

  /** A pass whose clock is not past a job's last run never finds that job due. */
  lemma NotDueUntilAfterLastRun(parse: ScheduleParser, spec: string, last: Timestamp, now: Timestamp)
    requires now <= last
    ensures ShouldRun(parse, spec, Some(last), now) != Ok(true)
  {
  }

  /**
   * A second pass soon after a run does not repeat it: if the occurrence
   * resolved against the recorded run lies after the new clock, the job is
   * not due.
   */
  lemma NotDueBeforeNextOccurrence(parse: ScheduleParser, spec: string, last: Timestamp, now: Timestamp)
    requires parse(spec, last).Some? && now < parse(spec, last).value
    ensures ShouldRun(parse, spec, Some(last), now) == Ok(false)
  {
  }

  /** Once due, a job stays due at every later clock until it runs again. */
  lemma DueStaysDue(parse: ScheduleParser, spec: string, last: Timestamp, now: Timestamp, later: Timestamp)
    requires ShouldRun(parse, spec, Some(last), now) == Ok(true)
    requires now <= later
    ensures ShouldRun(parse, spec, Some(last), later) == Ok(true)
  {
  }

  /**
   * A schedule that resolves to an instant no later than the last run (a
   * past date, say) never makes that job due again, whatever the clock.
   */
  lemma PastOccurrenceNeverDue(parse: ScheduleParser, spec: string, last: Timestamp, now: Timestamp)
    requires parse(spec, last).Some? && parse(spec, last).value <= last
    ensures ShouldRun(parse, spec, Some(last), now) == Ok(false)
  {
  }

  /** A parser that resolves "every day" to one day after its base, in seconds. */
  function DailyParser(spec: string, base: Timestamp): Option<Timestamp> {
    if spec == "every day" then Some(base + 86400) else None
  }

  /**
   * Due-ness is anchored to the time of the last run, not to calendar days:
   * with a daily schedule, a job last run at noon is not due at ten the next
   * morning, while one run at midnight is due a minute after the next midnight.
   */
  lemma DailyScheduleAnchoredToLastRun()
    ensures ShouldRun(DailyParser, "every day", Some(12 * 3600), 86400 + 10 * 3600) == Ok(false)
    ensures ShouldRun(DailyParser, "every day", Some(0), 86400 + 60) == Ok(true)
  {
  }
}
