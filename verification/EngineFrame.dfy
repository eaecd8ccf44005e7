/** One timer's part of the engine, and that blocks about other timers leave it alone. */
module EngineFrame {
  import opened Prelude
  import opened Retry
  import opened Schedules
  import opened Timers
  import opened Events
  import opened Heap
  import opened Engine

  /** What a core holds about one timer. */
  datatype Slice = Slice(spec: Option<TimerSpec>, state: Option<TimerState>, pending: Option<PendingRetry>,
                         next: Option<Time>, waiting: Bag, events: seq<Event>)

  function Look<K, V>(m: map<K, V>, k: K): Option<V> {
    if k in m then Some(m[k]) else None
  }

  function OfTimer(bag: Bag, id: TimerId): Bag {
    map k | k in bag && bag[k].timer == id :: bag[k]
  }

  function Concerning(log: seq<Event>, id: TimerId): seq<Event> {
    if log == [] then []
    else
      var before := Concerning(log[..|log| - 1], id);
      if Subject(log[|log| - 1]) == id then before + [log[|log| - 1]] else before
  }

  function SliceOf(c: Core, id: TimerId): Slice {
    Slice(Look(c.mem.specs, id), Look(c.mem.states, id), Look(c.mem.pendingRetries, id), Look(c.mem.nextRuns, id),
          OfTimer(c.bag, id), Concerning(c.log, id))
  }

  /** From `b` to `c`, nothing about the timer has changed. */
  ghost predicate Elsewhere(b: Core, c: Core, id: TimerId) {
    Numbered(c) && SliceOf(c, id) == SliceOf(b, id)
  }

  lemma ConcerningAppend(log: seq<Event>, e: Event, id: TimerId)
    ensures Concerning(log + [e], id) == Concerning(log, id) + if Subject(e) == id then [e] else []
  {
    assert (log + [e])[..|log|] == log;
  }

  // ----- Pieces -----

  lemma AppendElsewhere(b: Core, c: Core, e: Event, accepted: bool, id: TimerId)
    requires Elsewhere(b, c, id) && Subject(e) != id
    ensures Elsewhere(b, Append(c, e, accepted), id)
  {
    OtherTimer(c.mem, e, id);
    ConcerningAppend(c.log, e, id);
    ApplyNext(c.mem, e);
    hide Apply, Concerning;
  }

  lemma ApplyNext(m: Memory, e: Event)
    ensures Apply(m, e).nextRuns == m.nextRuns
  {
  }

  lemma UnscheduleElsewhere(b: Core, c: Core, other: TimerId, id: TimerId)
    requires Elsewhere(b, c, id) && other != id
    ensures Elsewhere(b, ClearNext(c, other), id) && Elsewhere(b, Unschedule(c, other), id)
  {
    assert OfTimer(WithoutTimer(c.bag, other), id) == OfTimer(c.bag, id);
    hide Concerning;
  }

  lemma PushElsewhere(b: Core, c: Core, entry: ScheduledTimer, id: TimerId)
    requires Elsewhere(b, c, id) && entry.timer != id
    ensures Elsewhere(b, Push(c, entry), id)
  {
    assert OfTimer(c.bag[c.pushed := entry], id) == OfTimer(c.bag, id);
    hide Concerning, OfTimer;
  }

  lemma PushNextElsewhere(b: Core, c: Core, other: TimerId, next: Time, id: TimerId)
    requires Elsewhere(b, c, id) && other != id
    ensures Elsewhere(b, PushNext(c, other, next), id)
  {
    var d := c.(mem := c.mem.(nextRuns := c.mem.nextRuns[other := next]));
    assert Elsewhere(b, d, id) by { hide Concerning, OfTimer; }
    hide Elsewhere;
    PushElsewhere(b, d, ScheduledTimer(other, next, None, 1), id);
  }

  lemma RescheduleElsewhere(calendar: Calendar, b: Core, c: Core, spec: TimerSpec, from: Time, id: TimerId)
    requires Elsewhere(b, c, id) && spec.id != id
    ensures Elsewhere(b, RescheduleFrom(calendar, c, spec, from), id)
  {
    var next := NextRunAfter(calendar, spec.schedule, from, spec.timezone);
    hide Elsewhere, NextRunAfter;
    UnscheduleElsewhere(b, c, spec.id, id);
    if next.Some? {
      PushNextElsewhere(b, c, spec.id, next.value, id);
    }
  }

  lemma RegisteredElsewhere(b: Core, c: Core, q: Request, id: TimerId)
    requires Elsewhere(b, c, id) && q.id != id
    ensures Elsewhere(b, Registered(c, q), id)
  {
    hide Concerning, OfTimer;
  }

  /** The count of active runs is no part of any timer. */
  lemma FinishRunElsewhere(b: Core, c: Core, id: TimerId)
    requires Elsewhere(b, c, id)
    ensures Elsewhere(b, FinishRun(c), id)
  {
    hide Concerning, OfTimer;
  }

  // ----- Blocks -----

  lemma ScheduleElsewhere(calendar: Calendar, c: Core, q: Request, now: Time, later: Time, accepted: bool, id: TimerId)
    requires Numbered(c) && q.id != id
    ensures var r := ScheduleTimer(calendar, c, q, now, later, accepted);
      r.Accepted? ==> Elsewhere(c, r.core, id)
  {
    var spec := SpecOf(c.mem, q, now);
    var created, updated := Append(c, TimerCreated(spec), true), Append(c, TimerUpdated(spec), true);
    assert Elsewhere(c, c, id);
    hide Elsewhere, Append, NextRunAfter;
    AppendElsewhere(c, c, TimerCreated(spec), true, id);
    AppendElsewhere(c, c, TimerUpdated(spec), true, id);
    UnscheduleElsewhere(c, updated, q.id, id);
    var g := Registered(Record(c, q, now), q);
    RegisteredElsewhere(c, Record(c, q, now), q, id);
    hide Record, Registered;
    var next := NextRunAfter(calendar, spec.schedule, later, spec.timezone);
    if next.Some? {
      PushNextElsewhere(c, g, q.id, next.value, id);
    }
  }

  lemma SkipElsewhere(calendar: Calendar, b: Core, c: Core, spec: TimerSpec, entry: ScheduledTimer, run: RunId, now: Time,
                      accepted: bool, id: TimerId)
    requires Elsewhere(b, c, id) && entry.timer != id && spec.id == entry.timer
    ensures Elsewhere(b, SkipRun(calendar, c, spec, entry, run, now, accepted), id)
  {
    hide Append, RescheduleFrom, Elsewhere;
    var e := RunSkippedOverlap(entry.timer, run, entry.at, now);
    AppendElsewhere(b, c, e, accepted, id);
    RescheduleElsewhere(calendar, b, Append(c, e, accepted), spec, entry.at, id);
  }

  lemma StartElsewhere(calendar: Calendar, b: Core, c: Core, spec: TimerSpec, entry: ScheduledTimer, run: RunId, now: Time,
                       due: bool, start: bool, id: TimerId)
    requires Elsewhere(b, c, id) && entry.timer != id && spec.id == entry.timer
    ensures Elsewhere(b, StartRun(calendar, c, spec, entry, run, now, due, start).core, id)
  {
    hide Append, RescheduleFrom, Elsewhere, FinishRun;
    var d := Append(c, RunDue(entry.timer, run, entry.at), due);
    var s := Append(d, RunStarted(entry.timer, run, now, entry.attempt), start);
    AppendElsewhere(b, c, RunDue(entry.timer, run, entry.at), due, id);
    AppendElsewhere(b, d, RunStarted(entry.timer, run, now, entry.attempt), start, id);
    RescheduleElsewhere(calendar, b, s, spec, entry.at, id);
    FinishRunElsewhere(b, d, id);
    FinishRunElsewhere(b, s, id);
  }

  lemma BeginElsewhere(calendar: Calendar, c: Core, entry: ScheduledTimer, newId: RunId, now: Time, due: bool, start: bool,
                       id: TimerId)
    requires Numbered(c) && entry.timer != id
    requires entry.timer in c.mem.specs ==> c.mem.specs[entry.timer].id == entry.timer
    ensures Elsewhere(c, Begin(calendar, c, entry, newId, now, due, start).core, id)
  {
    var run := OrElse(entry.run, newId);
    assert Elsewhere(c, c, id);
    hide Elsewhere, ClearNext, SkipRun, StartRun, FinishRun;
    var cleared := ClearNext(c, entry.timer);
    UnscheduleElsewhere(c, c, entry.timer, id);
    FinishRunElsewhere(c, cleared, id);
    if entry.timer in c.mem.specs {
      var spec := c.mem.specs[entry.timer];
      SkipElsewhere(calendar, c, cleared, spec, entry, run, now, due, id);
      FinishRunElsewhere(c, SkipRun(calendar, cleared, spec, entry, run, now, due), id);
      StartElsewhere(calendar, c, cleared, spec, entry, run, now, due, start, id);
    }
  }

  lemma MissingElsewhere(b: Core, c: Core, f: Flight, id: TimerId)
    requires Elsewhere(b, c, id) && f.spec.id != id
    ensures Elsewhere(b, FinishMissing(c, f), id)
  {
    UnscheduleElsewhere(b, c, f.spec.id, id);
    var u := UnscheduleUnlessDelay(c, f.spec);
    assert Elsewhere(b, u, id);
    hide Concerning, OfTimer, UnscheduleUnlessDelay;
  }

  lemma RetryElsewhere(b: Core, c: Core, f: Flight, attempt: Attempt, at: Time, accepted: bool, id: TimerId)
    requires Elsewhere(b, c, id) && f.spec.id != id && attempt < U32_MAX
    ensures Elsewhere(b, RetryLater(c, f, attempt, at, accepted), id)
  {
    var e := RunRetrying(f.spec.id, f.run, attempt + 1, at);
    hide Append, Elsewhere, Push, Unschedule;
    UnscheduleElsewhere(b, c, f.spec.id, id);
    AppendElsewhere(b, UnscheduleUnlessDelay(c, f.spec), e, accepted, id);
    PushElsewhere(b, Append(UnscheduleUnlessDelay(c, f.spec), e, accepted),
                  ScheduledTimer(f.spec.id, at, Some(f.run), attempt + 1), id);
  }

  lemma GiveUpElsewhere(calendar: Calendar, b: Core, c: Core, f: Flight, now: Time, accepted: bool, id: TimerId)
    requires Elsewhere(b, c, id) && f.spec.id != id
    ensures Elsewhere(b, GiveUp(calendar, c, f, now, accepted), id)
  {
    hide Append, Elsewhere, RescheduleFrom;
    AppendElsewhere(b, c, RunDead(f.spec.id, f.run, now), accepted, id);
    RescheduleElsewhere(calendar, b, Append(c, RunDead(f.spec.id, f.run, now), accepted), f.spec, now, id);
  }

  lemma ErrElsewhere(calendar: Calendar, c: Core, f: Flight, error: string, now: Time, fail: bool, next: bool, id: TimerId)
    requires Elsewhere(c, c, id) && f.spec.id != id
    ensures Elsewhere(c, FinishErr(calendar, c, f, error, now, fail, next), id)
  {
    var attempt := CurrentAttempt(c.mem, f.spec.id);
    var e := RunFailed(f.spec.id, f.run, now, error, attempt);
    hide Append, Elsewhere, RetryLater, GiveUp;
    AppendElsewhere(c, c, e, fail, id);
    var n := NextRetryAt(f.spec.retry, now, attempt);
    if n.RetryAt? {
      RetryElsewhere(c, Append(c, e, fail), f, attempt, n.at, next, id);
    }
    GiveUpElsewhere(calendar, c, Append(c, e, fail), f, now, next, id);
  }

  lemma OkElsewhere(calendar: Calendar, c: Core, f: Flight, now: Time, accepted: bool, id: TimerId)
    requires Elsewhere(c, c, id) && f.spec.id != id
    ensures Elsewhere(c, FinishOk(calendar, c, f, now, accepted), id)
  {
    hide Append, Elsewhere, RescheduleFrom;
    var e := RunSucceeded(f.spec.id, f.run, now, Elapsed(f.startedAt, now));
    AppendElsewhere(c, c, e, accepted, id);
    RescheduleElsewhere(calendar, c, Append(c, e, accepted), f.spec, now, id);
  }

  lemma FinishElsewhere(calendar: Calendar, c: Core, f: Flight, outcome: Result<(), string>, now: Time, first: bool,
                        second: bool, id: TimerId)
    requires Numbered(c) && f.spec.id != id
    ensures Elsewhere(c, Finish(calendar, c, f, outcome, now, first, second), id)
  {
    assert Elsewhere(c, c, id);
    hide Elsewhere, FinishMissing, FinishOk, FinishErr, FinishRun;
    MissingElsewhere(c, c, f, id);
    FinishRunElsewhere(c, FinishMissing(c, f), id);
    OkElsewhere(calendar, c, f, now, first, id);
    FinishRunElsewhere(c, FinishOk(calendar, c, f, now, first), id);
    if outcome.Err? {
      ErrElsewhere(calendar, c, f, outcome.error, now, first, second, id);
      FinishRunElsewhere(c, FinishErr(calendar, c, f, outcome.error, now, first, second), id);
    }
  }

  // ----- A timer's own pieces -----

  /** Rescheduling touches nothing but the next run and the heap. */
  lemma RescheduleEffect(calendar: Calendar, c: Core, spec: TimerSpec, from: Time)
    ensures var d := RescheduleFrom(calendar, c, spec, from);
      && d.mem == c.mem.(nextRuns := d.mem.nextRuns)
      && d.log == c.log && d.base == c.base && d.since == c.since && d.registry == c.registry && d.runtime == c.runtime
  {
    hide NextRunAfter;
  }
}
