/**
 The embedded engine (`engine.rs`): the state behind its lock, and the blocks of code that run while
 holding it. Every append takes a flag saying whether the log accepted the event.
 */
module Engine {
  import opened Prelude
  import opened Retry
  import opened Schedules
  import opened Timers
  import opened Events
  import opened Heap
  import Snapshots

  datatype Runtime = Runtime(started: bool, stopped: bool, shuttingDown: bool, activeRuns: nat)

  /**
   What the lock guards. `log` is every event ever appended; the files hold the snapshot `base` and the
   events from `since` on. `registry` names the timers with a callable.
   */
  datatype Core = Core(mem: Memory, bag: Bag, pushed: nat, log: seq<Event>, base: Memory, since: nat,
                       registry: set<TimerId>, runtime: Runtime)

  /** A run between its start block and its finish block. */
  datatype Flight = Flight(spec: TimerSpec, run: RunId, startedAt: Time, callable: bool)

  datatype Begun = Begun(core: Core, flight: Option<Flight>)

  /** The arguments of `schedule_with_overlap`. */
  datatype Request = Request(id: TimerId, schedule: Schedule, fnName: string, retry: Option<RetryPolicy>,
                             timezone: Option<string>, overlap: Option<OverlapPolicy>)

  datatype Refusal = AlreadyStopped | AlreadyStarted | AppendFailed

  datatype Scheduling = Accepted(core: Core) | Refused(reason: Refusal)

  const DEFAULT_RETRY: RetryPolicy := RetryPolicy(3, Exponential(30, 3600))

  function OrElse<T>(x: Option<T>, otherwise: T): T {
    if x.Some? then x.value else otherwise
  }

  predicate Halting(c: Core) {
    c.runtime.shuttingDown || c.runtime.stopped
  }

  /** Push numbers in use are below the count. */
  ghost predicate Numbered(c: Core) {
    forall k :: k in c.bag ==> k < c.pushed
  }

  // ----- Pieces of the blocks -----

  function Append(c: Core, e: Event, accepted: bool): Core {
    if accepted then c.(log := c.log + [e], mem := Apply(c.mem, e))
    else c.(runtime := c.runtime.(shuttingDown := true, stopped := true))
  }

  function FinishRun(c: Core): Core {
    c.(runtime := c.runtime.(activeRuns := if c.runtime.activeRuns == 0 then 0 else c.runtime.activeRuns - 1))
  }

  function ClearNext(c: Core, id: TimerId): Core {
    c.(mem := c.mem.(nextRuns := c.mem.nextRuns - {id}))
  }

  function Unschedule(c: Core, id: TimerId): Core {
    ClearNext(c, id).(bag := WithoutTimer(c.bag, id))
  }

  function Push(c: Core, entry: ScheduledTimer): Core {
    c.(bag := c.bag[c.pushed := entry], pushed := c.pushed + 1)
  }

  function PushNext(c: Core, id: TimerId, next: Time): Core {
    Push(c.(mem := c.mem.(nextRuns := c.mem.nextRuns[id := next])), ScheduledTimer(id, next, None, 1))
  }

  function RescheduleFrom(calendar: Calendar, c: Core, spec: TimerSpec, from: Time): Core {
    if Halting(c) then c
    else
      match NextRunAfter(calendar, spec.schedule, from, spec.timezone)
      case Some(next) => PushNext(c, spec.id, next)
      case None => ClearNext(c, spec.id)
  }

  // ----- Scheduling a timer -----

  function SpecOf(m: Memory, q: Request, now: Time): TimerSpec {
    TimerSpec(q.id, q.schedule, OrElse(q.retry, DEFAULT_RETRY), OrElse(q.timezone, "UTC"),
              if q.id in m.specs then m.specs[q.id].createdAt else now,
              OrElse(q.overlap, if q.id in m.specs then m.specs[q.id].overlap else Delay))
  }

  /** The specification is recorded if it is new or differs; a differing one unschedules the timer. */
  function Record(c: Core, q: Request, now: Time): Core {
    var spec := SpecOf(c.mem, q, now);
    if q.id !in c.mem.specs then Append(c, TimerCreated(spec), true)
    else if c.mem.specs[q.id] != spec then Unschedule(Append(c, TimerUpdated(spec), true), q.id)
    else c
  }

  predicate NeedsRecord(m: Memory, q: Request, now: Time) {
    q.id !in m.specs || m.specs[q.id] != SpecOf(m, q, now)
  }

  function Registered(c: Core, q: Request): Core {
    c.(registry := c.registry + {q.id}, mem := WithFunction(c.mem, q.id, q.fnName))
  }

  function ScheduleTimer(calendar: Calendar, c: Core, q: Request, now: Time, later: Time, accepted: bool): Scheduling {
    if Halting(c) then Refused(AlreadyStopped)
    else if NeedsRecord(c.mem, q, now) && !accepted then Refused(AppendFailed)
    else
      var spec := SpecOf(c.mem, q, now);
      var registered := Registered(Record(c, q, now), q);
      if q.id in registered.mem.nextRuns then Accepted(registered)
      else
        match NextRunAfter(calendar, spec.schedule, later, spec.timezone)
        case Some(next) => Accepted(PushNext(registered, q.id, next))
        case None => Accepted(registered)
  }

  // ----- One run -----

  /** The skip policy meets a timer that is running. */
  predicate Overlaps(m: Memory, id: TimerId) {
    id in m.specs && m.specs[id].overlap.Skip? && id in m.states && m.states[id].Running?
  }

  function SkipRun(calendar: Calendar, c: Core, spec: TimerSpec, entry: ScheduledTimer, run: RunId, now: Time,
                   accepted: bool): Core {
    var skipped := Append(c, RunSkippedOverlap(entry.timer, run, entry.at, now), accepted);
    if accepted then RescheduleFrom(calendar, skipped, spec, entry.at) else skipped
  }

  /** A run that falls due; it starts if both events are accepted. */
  function StartRun(calendar: Calendar, c: Core, spec: TimerSpec, entry: ScheduledTimer, run: RunId, now: Time,
                    dueAccepted: bool, startAccepted: bool): Begun {
    var due := Append(c, RunDue(entry.timer, run, entry.at), dueAccepted);
    if !dueAccepted then Begun(FinishRun(due), None)
    else
      var started := Append(due, RunStarted(entry.timer, run, now, entry.attempt), startAccepted);
      if !startAccepted then Begun(FinishRun(started), None)
      else
        Begun(if spec.overlap.Delay? then started else RescheduleFrom(calendar, started, spec, entry.at),
              Some(Flight(spec, run, now, entry.timer in c.registry)))
  }

  /** The start block of `run_timer`: the core after it, and the run now executing, if any. */
  function Begin(calendar: Calendar, c: Core, entry: ScheduledTimer, newId: RunId, now: Time,
                 dueAccepted: bool, startAccepted: bool): Begun {
    var id, run := entry.timer, OrElse(entry.run, newId);
    var cleared := ClearNext(c, id);
    if id !in c.mem.specs then Begun(FinishRun(cleared), None)
    else if Overlaps(c.mem, id) then
      Begun(FinishRun(SkipRun(calendar, cleared, c.mem.specs[id], entry, run, now, dueAccepted)), None)
    else StartRun(calendar, cleared, c.mem.specs[id], entry, run, now, dueAccepted, startAccepted)
  }

  function Elapsed(from: Time, to: Time): nat {
    if to <= from then 0 else (to - from) / 1_000_000
  }

  function CurrentAttempt(m: Memory, id: TimerId): Attempt {
    if id in m.pendingRetries then m.pendingRetries[id].attempt else 1
  }

  function FinishOk(calendar: Calendar, c: Core, f: Flight, now: Time, accepted: bool): Core {
    var done := Append(c, RunSucceeded(f.spec.id, f.run, now, Elapsed(f.startedAt, now)), accepted);
    if accepted && f.spec.overlap.Delay? then RescheduleFrom(calendar, done, f.spec, now) else done
  }

  function UnscheduleUnlessDelay(c: Core, spec: TimerSpec): Core {
    if spec.overlap.Delay? then c else Unschedule(c, spec.id)
  }

  function FinishMissing(c: Core, f: Flight): Core {
    var u := UnscheduleUnlessDelay(c, f.spec);
    u.(mem := WithoutFunction(u.mem, f.spec.id))
  }

  function RetryLater(c: Core, f: Flight, attempt: Attempt, at: Time, accepted: bool): Core
    requires attempt < U32_MAX
  {
    var id := f.spec.id;
    var retrying := Append(UnscheduleUnlessDelay(c, f.spec), RunRetrying(id, f.run, attempt + 1, at), accepted);
    if !accepted || Halting(retrying) then retrying
    else Push(retrying, ScheduledTimer(id, at, Some(f.run), attempt + 1))
  }

  function GiveUp(calendar: Calendar, c: Core, f: Flight, now: Time, accepted: bool): Core {
    var dead := Append(c, RunDead(f.spec.id, f.run, now), accepted);
    if accepted && f.spec.overlap.Delay? && !IsOneShot(f.spec.schedule)
    then RescheduleFrom(calendar, dead, f.spec, now) else dead
  }

  function FinishErr(calendar: Calendar, c: Core, f: Flight, error: string, now: Time,
                     failAccepted: bool, nextAccepted: bool): Core {
    var attempt := CurrentAttempt(c.mem, f.spec.id);
    var failed := Append(c, RunFailed(f.spec.id, f.run, now, error, attempt), failAccepted);
    if !failAccepted then failed
    else
      match NextRetryAt(f.spec.retry, now, attempt)
      case RetryAt(at) => RetryLater(failed, f, attempt, at, nextAccepted)
      case NoMore => GiveUp(calendar, failed, f, now, nextAccepted)
      case Panic => failed
  }

  /** The finish block of `run_timer`. */
  function Finish(calendar: Calendar, c: Core, f: Flight, outcome: Result<(), string>, now: Time,
                  firstAccepted: bool, secondAccepted: bool): Core {
    FinishRun(
      if !f.callable then FinishMissing(c, f)
      else if outcome.Ok? then FinishOk(calendar, c, f, now, firstAccepted)
      else FinishErr(calendar, c, f, outcome.error, now, firstAccepted, secondAccepted))
  }

  /** The retry delay is beyond what chrono represents: the source panics holding the lock. */
  predicate Panics(c: Core, f: Flight, outcome: Result<(), string>, now: Time) {
    f.callable && outcome.Err? && NextRetryAt(f.spec.retry, now, CurrentAttempt(c.mem, f.spec.id)).Panic?
  }

  // ----- Opening and compacting -----

  /** What `Engine::open` makes of a loaded state: nothing is scheduled, every timer awaits its function. */
  function Opened(m: Memory): Memory {
    m.(nextRuns := map[], states := map id | id in m.states.Keys + m.specs.Keys ::
                                      if id in m.specs then Orphaned else m.states[id])
  }

  /** The events behind the snapshot. */
  function InFile(c: Core): seq<Event> {
    if c.since <= |c.log| then c.log[c.since..] else []
  }

  /** The state the files stand for. */
  function OnDisk(c: Core): Memory {
    Replay(c.base, InFile(c))
  }

  function OpenedCore(c: Core): Core {
    Core(Opened(OnDisk(c)), map[], 0, c.log, c.base, c.since, {}, Runtime(false, false, false, 0))
  }

  function Compacted(c: Core): Core {
    c.(base := Snapshots.Forget(c.mem), since := |c.log|)
  }

  const NEW_CORE: Core := Core(BLANK, map[], 0, [], BLANK, 0, {}, Runtime(false, false, false, 0))

  // ----- The engine as the source mutates it -----

  class Engine {
    const calendar: Calendar
    const state: EngineState
    const heap: TimerHeap
    var log: seq<Event>
    var base: Memory
    var since: nat
    var registry: set<TimerId>
    var started: bool
    var stopped: bool
    var shuttingDown: bool
    var activeRuns: nat

    ghost predicate Valid()
      reads this, heap
    {
      heap.Valid()
    }

    function View(): Core
      reads this, state, heap
    {
      Core(state.View(), heap.inner, heap.pushed, log, base, since, registry,
           Runtime(started, stopped, shuttingDown, activeRuns))
    }

    /** Opens the files that a core's `log`, `base` and `since` describe. */
    constructor (calendar: Calendar, files: Core)
      ensures Valid() && this.calendar == calendar && View() == OpenedCore(files)
      ensures fresh(state) && fresh(heap)
    {
      this.calendar := calendar;
      var m := Replay(files.base, InFile(files));
      var ids := m.specs.Keys;
      state := new EngineState(m.(nextRuns := map[], states := map id | id in m.states.Keys + ids ::
                                                        if id in ids then Orphaned else m.states[id]));
      heap := new TimerHeap();
      log, base, since, registry := files.log, files.base, files.since, {};
      started, stopped, shuttingDown, activeRuns := false, false, false, 0;
    }

    method AppendApplyOrStop(e: Event, accepted: bool)
      requires Valid()
      modifies this, state
      ensures Valid() && View() == Append(old(View()), e, accepted)
    {
      if !accepted {
        shuttingDown, stopped := true, true;
        return;
      }
      log := log + [e];
      state.ApplyEvent(e);
    }

    method FinishOne()
      requires Valid()
      modifies this`activeRuns
      ensures Valid() && View() == FinishRun(old(View()))
    {
      activeRuns := if activeRuns > 0 then activeRuns - 1 else 0;
    }

    method Schedule(q: Request, now: Time, later: Time, accepted: bool) returns (r: Result<(), Refusal>)
      requires Valid()
      modifies this, state, heap
      ensures Valid()
      ensures var s := ScheduleTimer(calendar, old(View()), q, now, later, accepted);
        if s.Accepted? then r == Ok(()) && View() == s.core else r == Err(s.reason) && View() == old(View())
    {
      if shuttingDown || stopped {
        return Err(AlreadyStopped);
      }
      var spec := SpecOf(state.View(), q, now);
      var recorded := RecordSpec(q, spec, now, accepted);
      if !recorded {
        return Err(AppendFailed);
      }
      registry := registry + {q.id};
      state.RegisterFunction(q.id, q.fnName);
      if q.id !in state.nextRuns {
        var next := NextRunAfter(calendar, spec.schedule, later, spec.timezone);
        if next.Some? {
          state.nextRuns := state.nextRuns[q.id := next.value];
          heap.Push(ScheduledTimer(q.id, next.value, None, 1));
        }
      }
      return Ok(());
    }

    method RecordSpec(q: Request, spec: TimerSpec, now: Time, accepted: bool) returns (ok: bool)
      requires Valid() && spec == SpecOf(state.View(), q, now)
      modifies this, state, heap
      ensures Valid() && ok == (accepted || !NeedsRecord(old(state.View()), q, now))
      ensures View() == if ok then Record(old(View()), q, now) else old(View())
    {
      if q.id !in state.specs {
        if !accepted {
          return false;
        }
        AppendApplyOrStop(TimerCreated(spec), true);
      } else if state.specs[q.id] != spec {
        if !accepted {
          return false;
        }
        AppendApplyOrStop(TimerUpdated(spec), true);
        heap.RemoveTimer(q.id);
        state.nextRuns := state.nextRuns - {q.id};
      }
      return true;
    }

    method Reschedule(spec: TimerSpec, from: Time)
      requires Valid()
      modifies state, heap
      ensures Valid() && View() == RescheduleFrom(calendar, old(View()), spec, from)
    {
      if shuttingDown || stopped {
        return;
      }
      var next := NextRunAfter(calendar, spec.schedule, from, spec.timezone);
      if next.Some? {
        state.nextRuns := state.nextRuns[spec.id := next.value];
        heap.Push(ScheduledTimer(spec.id, next.value, None, 1));
      } else {
        state.nextRuns := state.nextRuns - {spec.id};
      }
    }

    method RemoveUnlessDelay(spec: TimerSpec)
      requires Valid()
      modifies state, heap
      ensures Valid() && View() == UnscheduleUnlessDelay(old(View()), spec)
    {
      if spec.overlap != Delay {
        heap.RemoveTimer(spec.id);
        state.nextRuns := state.nextRuns - {spec.id};
      }
    }

    method RunTimerStart(entry: ScheduledTimer, newId: RunId, now: Time, dueAccepted: bool, startAccepted: bool)
      returns (flight: Option<Flight>)
      requires Valid()
      modifies this, state, heap
      ensures Valid()
      ensures Begun(View(), flight) == Begin(calendar, old(View()), entry, newId, now, dueAccepted, startAccepted)
    {
      hide Apply;
      var id := entry.timer;
      var run := OrElse(entry.run, newId);
      state.nextRuns := state.nextRuns - {id};
      if id !in state.specs {
        FinishOne();
        return None;
      }
      var spec := state.specs[id];
      if spec.overlap == Skip && id in state.states && state.states[id] == Running {
        AppendApplyOrStop(RunSkippedOverlap(id, run, entry.at, now), dueAccepted);
        if dueAccepted {
          Reschedule(spec, entry.at);
        }
        FinishOne();
        return None;
      }
      AppendApplyOrStop(RunDue(id, run, entry.at), dueAccepted);
      if !dueAccepted {
        FinishOne();
        return None;
      }
      AppendApplyOrStop(RunStarted(id, run, now, entry.attempt), startAccepted);
      if !startAccepted {
        FinishOne();
        return None;
      }
      if spec.overlap == Skip || spec.overlap == Allow {
        Reschedule(spec, entry.at);
      }
      return Some(Flight(spec, run, now, id in registry));
    }

    method RunTimerFinish(f: Flight, outcome: Result<(), string>, now: Time, firstAccepted: bool, secondAccepted: bool)
      requires Valid() && !Panics(View(), f, outcome, now)
      modifies this, state, heap
      ensures Valid()
      ensures View() == Finish(calendar, old(View()), f, outcome, now, firstAccepted, secondAccepted)
    {
      var id := f.spec.id;
      if !f.callable {
        RemoveUnlessDelay(f.spec);
        state.MarkFunctionMissing(id);
      } else if outcome.Ok? {
        AppendApplyOrStop(RunSucceeded(id, f.run, now, Elapsed(f.startedAt, now)), firstAccepted);
        if firstAccepted && f.spec.overlap == Delay {
          Reschedule(f.spec, now);
        }
      } else {
        RunFailedNow(f, outcome.error, now, firstAccepted, secondAccepted);
      }
      FinishOne();
    }

    method RunFailedNow(f: Flight, error: string, now: Time, failAccepted: bool, nextAccepted: bool)
      requires Valid() && !Panics(View(), f.(callable := true), Err(error), now)
      modifies this, state, heap
      ensures Valid()
      ensures View() == FinishErr(calendar, old(View()), f, error, now, failAccepted, nextAccepted)
    {
      hide Apply;
      var id := f.spec.id;
      var attempt: Attempt := 1;
      if id in state.pendingRetries {
        attempt := state.pendingRetries[id].attempt;
      }
      AppendApplyOrStop(RunFailed(id, f.run, now, error, attempt), failAccepted);
      if !failAccepted {
        return;
      }
      var next := NextRetryAt(f.spec.retry, now, attempt);
      if next.RetryAt? {
        RemoveUnlessDelay(f.spec);
        AppendApplyOrStop(RunRetrying(id, f.run, attempt + 1, next.at), nextAccepted);
        if nextAccepted && !shuttingDown && !stopped {
          heap.Push(ScheduledTimer(id, next.at, Some(f.run), attempt + 1));
        }
      } else {
        AppendApplyOrStop(RunDead(id, f.run, now), nextAccepted);
        if nextAccepted && f.spec.overlap == Delay && !IsOneShot(f.spec.schedule) {
          Reschedule(f.spec, now);
        }
      }
    }

    method Start() returns (r: Result<(), Refusal>)
      requires Valid()
      modifies this`started
      ensures Valid()
      ensures r == if stopped then Err(AlreadyStopped) else if old(started) then Err(AlreadyStarted) else Ok(())
      ensures View() == old(View()).(runtime := old(View()).runtime.(started := r.Ok? || old(started)))
    {
      if stopped {
        return Err(AlreadyStopped);
      }
      if started {
        return Err(AlreadyStarted);
      }
      started := true;
      return Ok(());
    }

    /** One turn of the background loop: None when it ends. */
    method PopDue(now: Time) returns (due: Option<seq<ScheduledTimer>>, keys: seq<nat>)
      requires Valid()
      modifies heap
      ensures Valid() && (due.None? <==> shuttingDown)
      ensures due.None? ==> View() == old(View())
      ensures due.Some? ==>
        && Lists(old(heap.inner), keys, due.value) && SortedByTime(due.value)
        && (set k | k in keys) == DueKeys(old(heap.inner), now)
        && View() == old(View()).(bag := old(heap.inner) - DueKeys(old(heap.inner), now))
    {
      keys := [];
      if shuttingDown {
        return None, keys;
      }
      var popped;
      popped, keys := heap.PopDue(now);
      due := Some(popped);
    }

    /** The check before a popped entry is spawned. */
    method AdmitRun() returns (ok: bool)
      requires Valid()
      modifies this`activeRuns
      ensures Valid() && ok == !shuttingDown
      ensures View() == if ok then Admitted(old(View())) else old(View())
    {
      if shuttingDown {
        return false;
      }
      activeRuns := activeRuns + 1;
      return true;
    }

    /** The first block of `shutdown`; true if it returns at once. */
    method BeginShutdown() returns (done: bool)
      requires Valid()
      modifies this`stopped, this`shuttingDown
      ensures Valid() && View() == ShutdownBegun(old(View()))
      ensures done == (old(stopped) || !started)
    {
      if stopped {
        return true;
      }
      if !started {
        stopped := true;
        return true;
      }
      shuttingDown := true;
      return false;
    }

    /** What `shutdown` does once no run is active. */
    method EndShutdown()
      requires Valid() && activeRuns == 0
      modifies this`stopped
      ensures Valid() && View() == old(View()).(runtime := old(View()).runtime.(stopped := true))
    {
      stopped := true;
    }

    method Compact()
      requires Valid()
      modifies this
      ensures Valid() && View() == Compacted(old(View()))
    {
      base := Snapshots.Forget(state.View());
      since := |log|;
    }
  }

  function Admitted(c: Core): Core {
    c.(runtime := c.runtime.(activeRuns := c.runtime.activeRuns + 1))
  }

  function ShutdownBegun(c: Core): Core {
    if c.runtime.stopped then c
    else if !c.runtime.started then c.(runtime := c.runtime.(stopped := true))
    else c.(runtime := c.runtime.(shuttingDown := true))
  }
}
