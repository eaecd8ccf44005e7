/** Schedules and their next run time (`schedule.rs`). */
module Schedules {
  import opened Prelude
  import opened Retry

  datatype Schedule =
    | Cron(expr: string)
    | Every(seconds: U64)
    | At(at: Time)
    | After(seconds: U64, registeredAt: Time)

  /** What the `cron` and `chrono-tz` crates answer: whether a zone exists, and the next cron instant. */
  datatype Calendar = Calendar(isZone: string -> bool, cronNext: (string, Time, string) -> Option<Time>)

  function SecondsAsDuration(seconds: U64): Time {
    AsI64(seconds) * TICKS_PER_SECOND
  }

  /** When a one-shot schedule fires. */
  function FireTime(schedule: Schedule): Time
    requires IsOneShot(schedule)
  {
    match schedule
    case At(at) => at
    case After(seconds, registeredAt) => registeredAt + SecondsAsDuration(seconds)
  }

  /** The next run strictly after `after`; both an error and a schedule that is over give None. */
  function NextRunAfter(calendar: Calendar, schedule: Schedule, after: Time, zone: string): Option<Time> {
    if !calendar.isZone(zone) then None
    else
      match schedule
      case Cron(expr) => calendar.cronNext(expr, after, zone)
      case Every(seconds) => Some(after + SecondsAsDuration(seconds))
      case At(at) => if at > after then Some(at) else None
      case After(seconds, registeredAt) =>
        var fireAt := registeredAt + SecondsAsDuration(seconds);
        if fireAt > after then Some(fireAt) else None
  }

  predicate IsOneShot(schedule: Schedule) {
    schedule.At? || schedule.After?
  }

  /** A one-shot schedule is due at its fire time, and only while that lies ahead. */
  lemma OneShotNext(calendar: Calendar, schedule: Schedule, after: Time, zone: string)
    requires IsOneShot(schedule)
    ensures NextRunAfter(calendar, schedule, after, zone)
         == if calendar.isZone(zone) && FireTime(schedule) > after then Some(FireTime(schedule)) else None
  {
  }

  /** A schedule asked again and again, each time from its last answer. */
  function NthRun(calendar: Calendar, schedule: Schedule, lo: Time, zone: string, n: nat): Option<Time> {
    if n == 0 then Some(lo)
    else
      var last := NthRun(calendar, schedule, lo, zone, n - 1);
      if last.None? then None else NextRunAfter(calendar, schedule, last.value, zone)
  }

  /** An interval does not drift: its n-th run is n intervals after the start. */
  lemma {:induction false} EveryIsPeriodic(calendar: Calendar, seconds: U64, lo: Time, zone: string, n: nat)
    requires calendar.isZone(zone) && seconds <= I64_MAX
    ensures NthRun(calendar, Every(seconds), lo, zone, n) == Some(lo + n * (seconds * TICKS_PER_SECOND))
  {
    if n > 0 {
      EveryIsPeriodic(calendar, seconds, lo, zone, n - 1);
      assert n * (seconds * TICKS_PER_SECOND) == (n - 1) * (seconds * TICKS_PER_SECOND) + seconds * TICKS_PER_SECOND;
    }
  }

  /** A delay from the registration is the instant it ends at, once: nothing follows. */
  lemma AfterIsAt(calendar: Calendar, seconds: U64, registeredAt: Time, lo: Time, zone: string)
    requires seconds <= I64_MAX && calendar.isZone(zone)
    ensures var fire := registeredAt + seconds * TICKS_PER_SECOND;
      && NthRun(calendar, After(seconds, registeredAt), lo, zone, 1) == (if lo < fire then Some(fire) else None)
      && NthRun(calendar, At(fire), lo, zone, 1) == (if lo < fire then Some(fire) else None)
      && NthRun(calendar, After(seconds, registeredAt), lo, zone, 2) == None
      && NthRun(calendar, At(fire), lo, zone, 2) == None
  {
    assert NthRun(calendar, After(seconds, registeredAt), lo, zone, 0) == Some(lo);
    assert NthRun(calendar, At(registeredAt + seconds * TICKS_PER_SECOND), lo, zone, 0) == Some(lo);
  }

  /** A zone that does not exist yields no run, and a cron expression what the calendar answers for it. */
  lemma CalendarAnswers(calendar: Calendar, expr: string, schedule: Schedule, lo: Time, zone: string)
    ensures !calendar.isZone(zone) ==> NextRunAfter(calendar, schedule, lo, zone) == None
    ensures calendar.isZone(zone) ==> NextRunAfter(calendar, Cron(expr), lo, zone) == calendar.cronNext(expr, lo, zone)
  {
  }
}
