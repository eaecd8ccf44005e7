/**
 What a block logs and leaves in the heap, for every policy; and that the next run time on display is the time
 of the timer's waiting run, so that registering a timer again is harmless while it waits.
 */
module EngineNext {
  import opened Prelude
  import opened Retry
  import opened Schedules
  import opened Timers
  import opened Events
  import opened Heap
  import opened Engine
  import opened EngineRuns
  import opened EngineFrame
  import opened EngineParts
  import opened EnginePlans
  import opened EngineDelay
  import EngineGoesOn
  import EngineInherited
  import EngineReregister

  // ----- What the blocks log -----

  function One(e: Event, accepted: bool): seq<Event> {
    if accepted then [e] else []
  }

  /** A due entry is skipped, or falls due and starts; what follows a rejected event is not logged. */
  lemma BeginTells(calendar: Calendar, c: Core, entry: ScheduledTimer, newId: RunId, now: Time, due: bool, start: bool)
    ensures var id, run := entry.timer, if entry.run.Some? then entry.run.value else newId;
      Begin(calendar, c, entry, newId, now, due, start).core.log
      == c.log
         + (if id !in c.mem.specs then []
            else if Overlaps(c.mem, id) then One(RunSkippedOverlap(id, run, entry.at, now), due)
            else One(RunDue(id, run, entry.at), due) + One(RunStarted(id, run, now, entry.attempt), due && start))
  {
    hide Apply, NextRunAfter, Overlaps;
  }

  /** An outcome is logged, and after a failure the retry or the death that the policy asks for. */
  lemma FinishTells(calendar: Calendar, c: Core, f: Flight, outcome: Result<(), string>, now: Time, first: bool, second: bool)
    requires f.callable && !Panics(c, f, outcome, now)
    ensures var id, attempt, d := f.spec.id, CurrentAttempt(c.mem, f.spec.id),
                                  Finish(calendar, c, f, outcome, now, first, second);
      && (outcome.Ok? ==> d.log == c.log + One(RunSucceeded(id, f.run, now, Elapsed(f.startedAt, now)), first))
      && (outcome.Err? ==>
            d.log == c.log + One(RunFailed(id, f.run, now, outcome.error, attempt), first)
                           + (if attempt >= f.spec.retry.maxAttempts then One(RunDead(id, f.run, now), first && second)
                              else One(RunRetrying(id, f.run, attempt + 1,
                                                   now + Wait(f.spec.retry, attempt) * TICKS_PER_SECOND), first && second)))
  {
    if outcome.Err? {
      ErrTells(calendar, c, f, outcome.error, now, first, second);
    }
    hide Apply, NextRunAfter, FinishErr;
  }

  lemma ErrTells(calendar: Calendar, c: Core, f: Flight, error: string, now: Time, first: bool, second: bool)
    requires f.callable && !Panics(c, f, Err(error), now)
    ensures var id, attempt := f.spec.id, CurrentAttempt(c.mem, f.spec.id);
      FinishErr(calendar, c, f, error, now, first, second).log
      == c.log + One(RunFailed(id, f.run, now, error, attempt), first)
               + (if attempt >= f.spec.retry.maxAttempts then One(RunDead(id, f.run, now), first && second)
                  else One(RunRetrying(id, f.run, attempt + 1, now + Wait(f.spec.retry, attempt) * TICKS_PER_SECOND),
                           first && second))
  {
    hide Apply, NextRunAfter, CurrentAttempt, Wait;
  }

  /** Whole milliseconds that have passed, and none if the clock went back. */
  lemma ElapsedExact(lo: Time, hi: Time)
    ensures hi <= lo ==> Elapsed(lo, hi) == 0
    ensures lo <= hi ==> lo + Elapsed(lo, hi) * 1_000_000 <= hi < lo + (Elapsed(lo, hi) + 1) * 1_000_000
  {
  }

  // ----- What a registration and an opening leave -----

  /**
   An accepted registration: what was asked for is on record, and where nothing was, three attempts with an
   exponential backoff from 30 seconds to an hour, UTC and the delay policy; a known timer keeps its creation
   time and, unless asked otherwise, its policy.
   */
  lemma RegistrationRecords(calendar: Calendar, c: Core, q: Request, now: Time, later: Time, accepted: bool)
    requires ScheduleTimer(calendar, c, q, now, later, accepted).Accepted?
    ensures var m := ScheduleTimer(calendar, c, q, now, later, accepted).core.mem;
      && q.id in m.specs && m.specs[q.id].id == q.id && m.specs[q.id].schedule == q.schedule
      && m.specs[q.id].retry == (if q.retry.Some? then q.retry.value else RetryPolicy(3, Exponential(30, 3600)))
      && m.specs[q.id].timezone == (if q.timezone.Some? then q.timezone.value else "UTC")
      && m.specs[q.id].createdAt == (if q.id in c.mem.specs then c.mem.specs[q.id].createdAt else now)
      && m.specs[q.id].overlap == (if q.overlap.Some? then q.overlap.value
                                   else if q.id in c.mem.specs then c.mem.specs[q.id].overlap else Delay)
  {
    EngineReregister.ScheduledSpec(calendar, c, q, now, later, accepted);
    hide ScheduleTimer;
  }

  /** The timer is bound to its function, and scheduled if it was unknown or orphaned. */
  lemma RegistrationBinds(calendar: Calendar, c: Core, q: Request, now: Time, later: Time, accepted: bool)
    requires ScheduleTimer(calendar, c, q, now, later, accepted).Accepted?
    ensures var d := ScheduleTimer(calendar, c, q, now, later, accepted).core;
      && q.id in d.registry && q.id in d.mem.fnNames && d.mem.fnNames[q.id] == q.fnName
      && q.id in d.mem.states
      && d.mem.states[q.id] == (if q.id in c.mem.specs && q.id in c.mem.states && c.mem.states[q.id] != Orphaned
                                then c.mem.states[q.id] else Scheduled)
  {
    hide NextRunAfter;
  }

  /**
   A registration logs a specification that is new or differs, drops what waited under a differing one, and
   adds the next run after `later` unless one is on display.
   */
  lemma RegistrationSchedules(calendar: Calendar, c: Core, q: Request, now: Time, later: Time, accepted: bool)
    requires ScheduleTimer(calendar, c, q, now, later, accepted).Accepted?
    ensures var d := ScheduleTimer(calendar, c, q, now, later, accepted).core;
      var spec, known := SpecOf(c.mem, q, now), q.id in c.mem.specs;
      var differs := known && c.mem.specs[q.id] != spec;
      var next := NextRunAfter(calendar, q.schedule, later, spec.timezone);
      var kept := map k | k in c.bag && !(differs && c.bag[k].timer == q.id) :: c.bag[k];
      && d.log == c.log + (if !known then [TimerCreated(spec)] else if differs then [TimerUpdated(spec)] else [])
      && d.bag == (if (q.id in c.mem.nextRuns && !differs) || next.None? then kept
                   else kept[c.pushed := ScheduledTimer(q.id, next.value, None, 1)])
  {
    assert SpecOf(c.mem, q, now).schedule == q.schedule;
    RecordedCore(c, q, now);
    hide Record, NextRunAfter, SpecOf;
  }

  /** What recording a specification leaves of the log, the heap and the display. */
  lemma RecordedCore(c: Core, q: Request, now: Time)
    ensures var d, spec, known := Record(c, q, now), SpecOf(c.mem, q, now), q.id in c.mem.specs;
      var differs := known && c.mem.specs[q.id] != spec;
      && d.pushed == c.pushed
      && d.log == c.log + (if !known then [TimerCreated(spec)] else if differs then [TimerUpdated(spec)] else [])
      && d.bag == (map k | k in c.bag && !(differs && c.bag[k].timer == q.id) :: c.bag[k])
      && (q.id in d.mem.nextRuns <==> q.id in c.mem.nextRuns && !differs)
  {
    assert forall k :: k in c.bag ==> c.bag[k] == c.bag[k];
    ApplyNext(c.mem, TimerCreated(SpecOf(c.mem, q, now)));
    ApplyNext(c.mem, TimerUpdated(SpecOf(c.mem, q, now)));
    hide Apply, SpecOf;
  }

  /** An engine that is opened has nothing scheduled or bound, and every timer of its files awaits its function. */
  lemma OpeningOrphans(c: Core, t: TimerId)
    ensures var d := OpenedCore(c);
      && d.bag == map[] && d.mem.nextRuns == map[] && d.registry == {} && d.runtime == Runtime(false, false, false, 0)
      && d.log == c.log && d.mem.specs == OnDisk(c).specs && d.mem.pendingRetries == OnDisk(c).pendingRetries
      && d.mem.lastRuns == OnDisk(c).lastRuns && d.mem.retries7d == OnDisk(c).retries7d
      && (t in d.mem.specs ==> t in d.mem.states && d.mem.states[t] == Orphaned)
  {
    hide OnDisk;
  }

  /** A run without a function leaves its timer orphaned if it was live, unbound, and unscheduled unless delayed. */
  lemma MissingOrphans(calendar: Calendar, c: Core, f: Flight, outcome: Result<(), string>, now: Time, first: bool, second: bool)
    requires !f.callable
    ensures var id, d := f.spec.id, Finish(calendar, c, f, outcome, now, first, second);
      && d.log == c.log && id !in d.mem.fnNames && d.mem.specs == c.mem.specs
      && d.bag == (if f.spec.overlap.Delay? then c.bag else map k | k in c.bag && c.bag[k].timer != id :: c.bag[k])
      && (id in c.mem.states ==>
            id in d.mem.states
            && d.mem.states[id] == if c.mem.states[id] in {Scheduled, Retrying, Running} then Orphaned else c.mem.states[id])
  {
  }

  // ----- What the skip and allow policies leave in the heap -----

  /**
   Under skip and allow the end of a run schedules nothing afresh: only a retry enters the heap, and then it
   is the timer's one entry there.
   */
  lemma FinishKeepsHeap(calendar: Calendar, c: Core, f: Flight, outcome: Result<(), string>, now: Time)
    requires f.callable && !f.spec.overlap.Delay? && !Halting(c) && !Panics(c, f, outcome, now)
    ensures var id, attempt := f.spec.id, CurrentAttempt(c.mem, f.spec.id);
      Finish(calendar, c, f, outcome, now, true, true).bag
      == if outcome.Ok? || attempt >= f.spec.retry.maxAttempts then c.bag
         else (map k | k in c.bag && c.bag[k].timer != id :: c.bag[k])
              [c.pushed := ScheduledTimer(id, now + Wait(f.spec.retry, attempt) * TICKS_PER_SECOND, Some(f.run), attempt + 1)]
  {
    if outcome.Err? {
      ErrKeepsHeap(calendar, c, f, outcome.error, now);
    }
    hide Apply, NextRunAfter, FinishErr, CurrentAttempt, Wait;
  }

  lemma ErrKeepsHeap(calendar: Calendar, c: Core, f: Flight, error: string, now: Time)
    requires f.callable && !f.spec.overlap.Delay? && !Halting(c) && !Panics(c, f, Err(error), now)
    ensures var id, attempt := f.spec.id, CurrentAttempt(c.mem, f.spec.id);
      FinishErr(calendar, c, f, error, now, true, true).bag
      == if attempt >= f.spec.retry.maxAttempts then c.bag
         else (map k | k in c.bag && c.bag[k].timer != id :: c.bag[k])
              [c.pushed := ScheduledTimer(id, now + Wait(f.spec.retry, attempt) * TICKS_PER_SECOND, Some(f.run), attempt + 1)]
  {
    hide Apply, NextRunAfter, CurrentAttempt, Wait;
  }

  // ----- The next run on display -----

  /** A timer with one entry or run displays a next run exactly while a fresh run waits, and then its time. */
  ghost predicate Displays(p: Part, halting: bool) {
    && (forall k, e :: EntryAt(p, k, e) && e.run.None? ==> p.core.next == Some(e.at))
    && (p.core.next.Some? ==> halting || exists k, e :: EntryAt(p, k, e) && e.run.None?)
  }

  /** Nothing of the timer, and no next run. */
  predicate Blank(p: Part) {
    p.core.waiting == map[] && p.popped == map[] && p.spawned == map[] && p.core.next.None?
  }

  lemma BlankDisplays(p: Part, halting: bool)
    requires Blank(p)
    ensures Displays(p, halting)
  {
  }

  /** One waiting entry. */
  lemma WaitingDisplays(p: Part, k: nat, e: ScheduledTimer, halting: bool)
    requires p.core.waiting == map[k := e] && p.popped == map[] && p.spawned == map[]
    requires p.core.next == if e.run.None? then Some(e.at) else None
    ensures Displays(p, halting)
  {
    assert EntryAt(p, k, e);
  }

  /** A run in flight displays nothing. */
  lemma FlyingBlank(p: Part, k: nat, n: nat, halting: bool)
    requires Token(p, n) && Displays(p, halting) && k in p.flying && !halting
    requires k !in p.core.waiting && k !in p.popped && k !in p.spawned
    ensures Blank(p)
  {
    AloneFlying(p, k, n);
    hide Token;
  }

  lemma BeginClears(calendar: Calendar, c: Core, entry: ScheduledTimer, newId: RunId, now: Time, due: bool, start: bool)
    requires entry.timer in c.mem.specs && c.mem.specs[entry.timer].overlap.Delay?
    ensures Begin(calendar, c, entry, newId, now, due, start).core.mem.nextRuns == c.mem.nextRuns - {entry.timer}
  {
    var cleared := ClearNext(c, entry.timer);
    var run := OrElse(entry.run, newId);
    ApplyNext(cleared.mem, RunDue(entry.timer, run, entry.at));
    ApplyNext(Append(cleared, RunDue(entry.timer, run, entry.at), due).mem, RunStarted(entry.timer, run, now, entry.attempt));
    hide Apply, RescheduleFrom;
  }

  /** What a block leaves of a timer of which nothing was in the heap: nothing, or one entry and its display. */
  ghost predicate LeavesShown(c: Core, d: Core, id: TimerId) {
    || (OfTimer(d.bag, id) == map[] && id !in d.mem.nextRuns)
    || (c.pushed in d.bag && OfTimer(d.bag, id) == map[c.pushed := d.bag[c.pushed]]
        && (if d.bag[c.pushed].run.None? then id in d.mem.nextRuns && d.mem.nextRuns[id] == d.bag[c.pushed].at
            else id !in d.mem.nextRuns))
  }

  lemma AppendNext(c: Core, e: Event, accepted: bool)
    ensures var d := Append(c, e, accepted);
      d.mem.nextRuns == c.mem.nextRuns && d.bag == c.bag && d.pushed == c.pushed
  {
    ApplyNext(c.mem, e);
    hide Apply;
  }

  lemma RescheduleShown(calendar: Calendar, c: Core, spec: TimerSpec, from: Time)
    requires OfTimer(c.bag, spec.id) == map[] && spec.id !in c.mem.nextRuns
    ensures LeavesShown(c, RescheduleFrom(calendar, c, spec, from), spec.id)
  {
    var next := NextRunAfter(calendar, spec.schedule, from, spec.timezone);
    if next.Some? {
      EngineGoesOn.PushedAlone(c.bag, c.pushed, ScheduledTimer(spec.id, next.value, None, 1), spec.id);
    }
    hide NextRunAfter, OfTimer;
  }

  lemma FinishShown(calendar: Calendar, c: Core, f: Flight, outcome: Result<(), string>, now: Time, first: bool, second: bool)
    requires f.callable && f.spec.overlap.Delay? && OfTimer(c.bag, f.spec.id) == map[] && f.spec.id !in c.mem.nextRuns
    ensures LeavesShown(c, Finish(calendar, c, f, outcome, now, first, second), f.spec.id)
  {
    if outcome.Ok? {
      var e := RunSucceeded(f.spec.id, f.run, now, Elapsed(f.startedAt, now));
      AppendNext(c, e, first);
      RescheduleShown(calendar, Append(c, e, first), f.spec, now);
      hide Append, RescheduleFrom, OfTimer;
    } else {
      ErrShown(calendar, c, f, outcome.error, now, first, second);
      hide FinishErr, OfTimer;
    }
  }

  lemma RetryShown(c: Core, f: Flight, attempt: Attempt, at: Time, accepted: bool)
    requires f.spec.overlap.Delay? && OfTimer(c.bag, f.spec.id) == map[] && f.spec.id !in c.mem.nextRuns && attempt < U32_MAX
    ensures LeavesShown(c, RetryLater(c, f, attempt, at, accepted), f.spec.id)
  {
    var e := RunRetrying(f.spec.id, f.run, attempt + 1, at);
    AppendNext(c, e, accepted);
    EngineGoesOn.PushedAlone(c.bag, c.pushed, ScheduledTimer(f.spec.id, at, Some(f.run), attempt + 1), f.spec.id);
    hide Append, OfTimer;
  }

  lemma GiveUpShown(calendar: Calendar, c: Core, f: Flight, now: Time, accepted: bool)
    requires f.spec.overlap.Delay? && OfTimer(c.bag, f.spec.id) == map[] && f.spec.id !in c.mem.nextRuns
    ensures LeavesShown(c, GiveUp(calendar, c, f, now, accepted), f.spec.id)
  {
    var e := RunDead(f.spec.id, f.run, now);
    AppendNext(c, e, accepted);
    RescheduleShown(calendar, Append(c, e, accepted), f.spec, now);
    hide Append, RescheduleFrom, OfTimer;
  }

  lemma ErrShown(calendar: Calendar, c: Core, f: Flight, error: string, now: Time, first: bool, second: bool)
    requires f.callable && f.spec.overlap.Delay? && OfTimer(c.bag, f.spec.id) == map[] && f.spec.id !in c.mem.nextRuns
    ensures LeavesShown(c, FinishErr(calendar, c, f, error, now, first, second), f.spec.id)
  {
    var attempt := CurrentAttempt(c.mem, f.spec.id);
    var e := RunFailed(f.spec.id, f.run, now, error, attempt);
    var d, r := Append(c, e, first), NextRetryAt(f.spec.retry, now, attempt);
    AppendNext(c, e, first);
    BelowLimit(f.spec.retry, now, attempt);
    hide Append, RetryLater, GiveUp, NextRetryAt, CurrentAttempt, OfTimer;
    if r.RetryAt? {
      RetryShown(d, f, attempt, r.at, second);
    }
    GiveUpShown(calendar, d, f, now, second);
  }

  lemma ShownDisplays(c: Core, d: Core, id: TimerId, halting: bool)
    requires LeavesShown(c, d, id)
    ensures Displays(Part(SliceOf(d, id), map[], map[], map[]), halting)
  {
    hide Concerning;
    var p := Part(SliceOf(d, id), map[], map[], map[]);
    if OfTimer(d.bag, id) == map[] && id !in d.mem.nextRuns {
      BlankDisplays(p, halting);
    } else {
      WaitingDisplays(p, c.pushed, d.bag[c.pushed], halting);
    }
  }

  // ----- Steps -----

  lemma HaltingBlocks(calendar: Calendar, c: Core, entry: ScheduledTimer, newId: RunId, now: Time, due: bool, start: bool)
    requires Halting(c)
    ensures Halting(Begin(calendar, c, entry, newId, now, due, start).core)
  {
    hide Apply, NextRunAfter;
  }

  /** A halting engine schedules nothing at the end of a run. */
  lemma HaltingFinish(calendar: Calendar, c: Core, f: Flight, outcome: Result<(), string>, now: Time, first: bool, second: bool)
    requires Halting(c)
    ensures var d := Finish(calendar, c, f, outcome, now, first, second);
      Halting(d) && (f.spec.overlap.Delay? && f.callable ==> d.bag == c.bag)
  {
    hide Apply, NextRunAfter, NextRetryAt;
  }

  lemma HaltingStays(calendar: Calendar, w: World, s: Step)
    requires Enabled(w, s) && !s.Restart? && Halting(w.core)
    ensures Halting(Take(calendar, w, s).core)
  {
    match s
    case BeginRun(k, newId, now, due, start) =>
      HaltingBlocks(calendar, w.core, w.spawned[k], newId, now, due, start);
      hide Begin;
    case FinishRunning(k, outcome, now, first, second) =>
      HaltingFinish(calendar, w.core, w.executing[k], outcome, now, first, second);
      hide Finish, Panics;
    case _ =>
  }

  lemma MoreHalting(p: Part, halting: bool, later: bool)
    requires Displays(p, halting) && (halting ==> later)
    ensures Displays(p, later)
  {
  }

  lemma PopDisplays(w: World, now: Time, id: TimerId)
    requires w.popped == map[] && Displays(PartOf(w, id), Halting(w.core))
    ensures Displays(PartOf(AfterPop(w, now), id), Halting(w.core))
  {
    hide Concerning;
    var p, q := PartOf(w, id), PartOf(AfterPop(w, now), id);
    assert forall k, e :: EntryAt(q, k, e) <==> EntryAt(p, k, e);
    SameDisplay(p, q, Halting(w.core));
  }

  lemma SpawnDisplays(w: World, k: nat, id: TimerId)
    requires k in w.popped && k !in w.spawned && Displays(PartOf(w, id), Halting(w.core))
    ensures Displays(PartOf(AfterSpawn(w, k), id), Halting(w.core))
  {
    hide Concerning;
    var p, q := PartOf(w, id), PartOf(AfterSpawn(w, k), id);
    assert forall j, e :: EntryAt(q, j, e) <==> EntryAt(p, j, e);
    SameDisplay(p, q, Halting(w.core));
  }

  lemma SameDisplay(p: Part, q: Part, halting: bool)
    requires Displays(p, halting) && q.core.next == p.core.next && forall k, e :: EntryAt(q, k, e) <==> EntryAt(p, k, e)
    ensures Displays(q, halting)
  {
    hide EntryAt;
  }

  lemma LeaveDisplays(w: World, id: TimerId)
    requires Displays(PartOf(w, id), Halting(w.core)) && Halting(w.core)
    ensures Displays(PartOf(w.(popped := map[]), id), true)
  {
    hide Concerning;
    var p, q := PartOf(w, id), PartOf(w.(popped := map[]), id);
    assert forall k, e :: EntryAt(q, k, e) ==> EntryAt(p, k, e);
    assert q.core.next == p.core.next;
    hide EntryAt;
  }

  lemma BeginDisplays(calendar: Calendar, w: World, k: nat, newId: RunId, now: Time, due: bool, start: bool, id: TimerId, n: nat,
                      halting: bool)
    requires Sound(w) && k in w.spawned && w.spawned[k].timer == id && Token(PartOf(w, id), n)
    ensures var v := AfterBegin(w, k, newId, now, Begin(calendar, w.core, w.spawned[k], newId, now, due, start));
      Displays(PartOf(v, id), halting)
  {
    var b := Begin(calendar, w.core, w.spawned[k], newId, now, due, start);
    PlaceOf(w, k, id);
    SoundSpawned(w, k);
    AloneSpawned(PartOf(w, id), k, n);
    assert w.core.mem.specs[id].overlap.Delay? by { hide Concerning, OfTimer, FlightsOf, SlicePhase; }
    hide Sound, Begin, Token, FlightsOf, SlicePhase, EntryFits, Concerning, AfterBegin, Delays;
    BeginClears(calendar, w.core, w.spawned[k], newId, now, due, start);
    EngineReregister.DelayedBegin(calendar, w.core, w.spawned[k], newId, now, due, start);
    BeginRuntime(calendar, w.core, w.spawned[k], newId, now, due, start);
    BegunPart(w, k, newId, now, b, id);
    var q := PartOf(AfterBegin(w, k, newId, now, b), id);
    assert q.spawned == map[] && q.popped == map[] && q.core.waiting == map[];
    BlankDisplays(q, halting);
  }

  lemma FinishDisplays(calendar: Calendar, w: World, k: nat, outcome: Result<(), string>, now: Time, first: bool, second: bool,
                       id: TimerId, n: nat)
    requires Sound(w) && k in w.executing && w.executing[k].spec.id == id && Token(PartOf(w, id), n)
    requires Displays(PartOf(w, id), Halting(w.core))
    ensures var v := AfterFinish(w, k, now, Finish(calendar, w.core, w.executing[k], outcome, now, first, second));
      Displays(PartOf(v, id), Halting(v.core))
  {
    var f := w.executing[k];
    var c := Finish(calendar, w.core, f, outcome, now, first, second);
    var p, q := PartOf(w, id), PartOf(AfterFinish(w, k, now, c), id);
    PlaceOf(w, k, id);
    SoundExecuting(w, k);
    AloneFlying(p, k, n);
    assert f.spec.overlap.Delay? by { hide Concerning, OfTimer, SlicePhase; }
    FinishedPart(w, k, now, c, id);
    assert AfterFinish(w, k, now, c).core == c;
    assert OfTimer(w.core.bag, id) == map[] && q == Part(SliceOf(c, id), map[], map[], map[]);
    hide Sound, Finish, Token, FlightsOf, SlicePhase, FlightFits, Concerning, AfterFinish, Delays, Halting;
    if Halting(w.core) {
      HaltingFinish(calendar, w.core, f, outcome, now, first, second);
      EmptyHalting(q);
    } else {
      FlyingBlank(p, k, n, false);
      FinishShown(calendar, w.core, f, outcome, now, first, second);
      ShownDisplays(w.core, c, id, Halting(c));
    }
  }

  lemma EmptyHalting(p: Part)
    requires p.core.waiting == map[] && p.popped == map[] && p.spawned == map[]
    ensures Displays(p, true)
  {
  }

  lemma RegisterShown(calendar: Calendar, c: Core, q: Request, now: Time, later: Time, accepted: bool)
    requires Numbered(c) && OfTimer(c.bag, q.id) == map[] && q.id !in c.mem.nextRuns
    ensures var r := ScheduleTimer(calendar, c, q, now, later, accepted);
      LeavesShown(c, if r.Accepted? then r.core else c, q.id)
  {
    EngineReregister.RecordLeaves(c, q, now);
    var g := Registered(Record(c, q, now), q);
    var next := NextRunAfter(calendar, q.schedule, later, SpecOf(c.mem, q, now).timezone);
    assert SpecOf(c.mem, q, now).schedule == q.schedule;
    hide Record, Registered, NextRunAfter, SpecOf, NeedsRecord, OfTimer, PushNext, Numbered;
    if next.Some? {
      PushNextShown(c, g, q.id, next.value);
    }
  }

  lemma PushNextShown(c: Core, g: Core, id: TimerId, next: Time)
    requires OfTimer(g.bag, id) == map[] && g.pushed == c.pushed
    ensures LeavesShown(c, PushNext(g, id, next), id)
  {
    EngineGoesOn.PushedAlone(g.bag, g.pushed, ScheduledTimer(id, next, None, 1), id);
    hide OfTimer;
  }

  lemma RegisterDisplays(calendar: Calendar, w: World, s: Step, id: TimerId, n: nat)
    requires Sound(w) && Enabled(w, s) && s.Register? && s.q.id == id && EngineGoesOn.Ready(PartOf(w, id), n)
    ensures Displays(PartOf(Take(calendar, w, s), id), Halting(Take(calendar, w, s).core))
  {
    var v := Take(calendar, w, s);
    SoundNumbered(w);
    IdleEmpty(PartOf(w, id), n);
    RegisterShown(calendar, w.core, s.q, s.now, s.later, s.accepted);
    assert PartOf(v, id) == Part(SliceOf(v.core, id), map[], map[], map[]) by { hide Concerning, OfTimer, ScheduleTimer; }
    hide ScheduleTimer, LeavesShown, Displays, Sound, Concerning, OfTimer;
    ShownDisplays(w.core, v.core, id, Halting(v.core));
  }

  lemma RepeatDisplays(calendar: Calendar, w: World, s: Step, id: TimerId)
    requires Enabled(w, s) && s.Register? && s.q.id == id && Repeats(calendar, w.core, s)
    requires Displays(PartOf(w, id), Halting(w.core))
    ensures Displays(PartOf(Take(calendar, w, s), id), Halting(Take(calendar, w, s).core))
  {
    var p, v := PartOf(w, id), Take(calendar, w, s);
    var q := PartOf(v, id);
    assert q.core.waiting == p.core.waiting && q.core.next == p.core.next && v.core.runtime == w.core.runtime by {
      assert SpecOf(w.core.mem, s.q, s.now).schedule == s.q.schedule;
      hide Concerning, OfTimer, NextRunAfter, SpecOf, Apply;
    }
    assert q.popped == p.popped && q.spawned == p.spawned;
    hide Take, PartOf;
    assert forall k, e :: EntryAt(q, k, e) <==> EntryAt(p, k, e);
    SameDisplay(p, q, Halting(w.core));
  }

  /** The start: nothing of the timer and no next run, or one token that displays its next run. */
  ghost predicate Showing(w: World, id: TimerId, n: nat, mayRegister: bool) {
    EngineGoesOn.Ready(PartOf(w, id), n)
    || (!mayRegister && Token(PartOf(w, id), n) && Displays(PartOf(w, id), Halting(w.core)))
  }

  lemma TokenDisplays(calendar: Calendar, w: World, s: Step, id: TimerId, n: nat)
    requires Sound(w) && Enabled(w, s) && !s.Restart? && !(s.Register? && s.q.id == id)
    requires Token(PartOf(w, id), n) && Displays(PartOf(w, id), Halting(w.core))
    ensures Displays(PartOf(Take(calendar, w, s), id), Halting(Take(calendar, w, s).core))
  {
    var v := Take(calendar, w, s);
    if Halting(w.core) {
      HaltingStays(calendar, w, s);
    }
    hide Sound, PartOf, AfterSpawn, AfterBegin, AfterFinish, Begin, Finish, ScheduleTimer, Panics, Token, Displays;
    if !Touches(w, s, id) {
      StepElsewhere(calendar, w, s, id);
      hide Take, Enabled;
      MoreHalting(PartOf(w, id), Halting(w.core), Halting(v.core));
    } else {
      match s
      case Pop(now) => PopDisplays(w, now, id);
      case Spawn(k) =>
        SoundPopped(w, k);
        SpawnDisplays(w, k, id);
        MoreHalting(PartOf(v, id), Halting(w.core), Halting(v.core));
      case LeaveLoop => LeaveDisplays(w, id);
      case BeginRun(k, newId, now, due, start) =>
        BeginDisplays(calendar, w, k, newId, now, due, start, id, n, Halting(v.core));
      case FinishRunning(k, outcome, now, first, second) =>
        FinishDisplays(calendar, w, k, outcome, now, first, second, id, n);
    }
  }

  lemma ReadyStays(calendar: Calendar, w: World, s: Step, id: TimerId, n: nat)
    requires Sound(w) && Enabled(w, s) && !s.Restart? && !(s.Register? && s.q.id == id)
    requires EngineGoesOn.Ready(PartOf(w, id), n)
    ensures EngineGoesOn.Ready(PartOf(Take(calendar, w, s), id), n)
  {
    IdleStep(calendar, w, s, id, n);
    IdleEmpty(PartOf(w, id), n);
    NothingThere(w, s, id);
    assert s.Pop? || s.LeaveLoop? ==> PartOf(Take(calendar, w, s), id).core.next == PartOf(w, id).core.next by {
      hide Concerning, OfTimer, FlightsOf;
    }
    hide Sound, Idle, PartOf, AfterPop, AfterSpawn, AfterBegin, AfterFinish, Begin, Finish, ScheduleTimer, Panics;
    if !Touches(w, s, id) {
      StepElsewhere(calendar, w, s, id);
    }
  }

  lemma RepeatReady(calendar: Calendar, w: World, s: Step, id: TimerId, n: nat)
    requires Enabled(w, s) && s.Register? && s.q.id == id && Repeats(calendar, w.core, s)
    requires EngineGoesOn.Ready(PartOf(w, id), n)
    ensures EngineGoesOn.Ready(PartOf(Take(calendar, w, s), id), n)
  {
    RepeatStep(calendar, w, s, id, n);
    assert SpecOf(w.core.mem, s.q, s.now).schedule == s.q.schedule;
    assert PartOf(Take(calendar, w, s), id).core.next == PartOf(w, id).core.next by {
      hide Concerning, OfTimer, NextRunAfter, SpecOf, Apply;
    }
    hide PartOf, Take, Repeats, Idle;
  }

  /**
   In every session of `DelayIsOneToken` that starts without a next run for the timer: while the engine is
   neither stopped nor shutting down, a next run is on display exactly while a fresh run of the timer waits,
   and is its time.
   */
  lemma {:induction false} DisplayIsExact(calendar: Calendar, w: World, steps: seq<Step>, id: TimerId, n: nat, mayRegister: bool)
    requires Sound(w) && Possible(calendar, w, steps)
    requires Showing(w, id, n, mayRegister) && DelaySession(calendar, w, steps, id, mayRegister)
    ensures Showing(Reach(calendar, w, steps), id, n, false)
    decreases |steps|
  {
    hide Sound, Take, Enabled, PartOf, Token, EngineGoesOn.Ready, Repeats, Displays, Halting;
    if steps != [] {
      var s := steps[0];
      var v := Take(calendar, w, s);
      StepSound(calendar, w, s);
      if s.Register? && s.q.id == id {
        if Repeats(calendar, w.core, s) && DelaySession(calendar, v, steps[1..], id, mayRegister) {
          RepeatShowing(calendar, w, s, id, n, mayRegister);
          DisplayIsExact(calendar, v, steps[1..], id, n, mayRegister);
        } else {
          RegisterShowing(calendar, w, s, id, n);
          DisplayIsExact(calendar, v, steps[1..], id, n, false);
        }
      } else {
        if EngineGoesOn.Ready(PartOf(w, id), n) {
          ReadyStays(calendar, w, s, id, n);
        } else {
          TokenStep(calendar, w, s, id, n);
          TokenDisplays(calendar, w, s, id, n);
        }
        DisplayIsExact(calendar, v, steps[1..], id, n, mayRegister);
      }
    }
  }

  lemma RepeatShowing(calendar: Calendar, w: World, s: Step, id: TimerId, n: nat, mayRegister: bool)
    requires Enabled(w, s) && s.Register? && s.q.id == id && Repeats(calendar, w.core, s)
    requires Showing(w, id, n, mayRegister)
    ensures Showing(Take(calendar, w, s), id, n, mayRegister)
  {
    hide Take, Enabled, PartOf, Token, EngineGoesOn.Ready, Repeats, Displays, Halting;
    if EngineGoesOn.Ready(PartOf(w, id), n) {
      RepeatReady(calendar, w, s, id, n);
    } else {
      RepeatStep(calendar, w, s, id, n);
      RepeatDisplays(calendar, w, s, id);
    }
  }

  lemma RegisterShowing(calendar: Calendar, w: World, s: Step, id: TimerId, n: nat)
    requires Sound(w) && Enabled(w, s) && s.Register? && s.q.id == id && SpecOf(w.core.mem, s.q, s.now).overlap.Delay?
    requires EngineGoesOn.Ready(PartOf(w, id), n)
    ensures Showing(Take(calendar, w, s), id, n, false)
  {
    var v := Take(calendar, w, s);
    assert Idle(PartOf(w, id), n) by { hide Idle, PartOf; }
    RegisterStep(calendar, w, s, id, n);
    RegisterDisplays(calendar, w, s, id, n);
    hide Sound, Take, Enabled, Token, Displays, SpecOf;
    if Idle(PartOf(v, id), n) && !Token(PartOf(v, id), n) {
      NothingDisplayed(PartOf(v, id), n, Halting(v.core));
    }
  }

  lemma NothingDisplayed(p: Part, n: nat, halting: bool)
    requires Idle(p, n) && Displays(p, halting)
    ensures p.core.next.None? || halting
  {
    IdleEmpty(p, n);
  }

  /** While a fresh run of the timer waits, registering it again unchanged repeats what is on record. */
  lemma WaitingIsRegistered(calendar: Calendar, w: World, s: Step, n: nat, k: nat, e: ScheduledTimer)
    requires s.Register? && !NeedsRecord(w.core.mem, s.q, s.now)
    requires Showing(w, s.q.id, n, false) && EntryAt(PartOf(w, s.q.id), k, e) && e.run.None?
    ensures Repeats(calendar, w.core, s)
  {
    var p := PartOf(w, s.q.id);
    if EngineGoesOn.Ready(p, n) {
      IdleEmpty(p, n);
    }
    hide Token, NeedsRecord, ScheduleTimer, Concerning, OfTimer, SpecOf;
  }
}
