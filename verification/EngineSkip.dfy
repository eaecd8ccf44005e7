/** The skip policy is mutual exclusion. */
module EngineSkip {
  import opened Prelude
  import opened Retry
  import opened Schedules
  import opened Timers
  import opened Events
  import opened Heap
  import opened Engine
  import opened EngineRuns
  import opened EngineFrame

  /** At most one run of the timer is executing, and then the timer's state is Running. */
  ghost predicate Exclusive(w: World, id: TimerId) {
    && (forall j, k :: j in w.executing && w.executing[j].spec.id == id && k in w.executing && w.executing[k].spec.id == id
          ==> j == k)
    && (forall k :: k in w.executing && w.executing[k].spec.id == id ==> IsRunning(w.core.mem, id))
  }

  predicate IsRunning(m: Memory, id: TimerId) {
    id in m.states && m.states[id].Running?
  }

  predicate SkipsOverlap(m: Memory, id: TimerId) {
    id in m.specs ==> m.specs[id].overlap.Skip?
  }

  /** In every state of the run, the timer's policy is to skip. */
  predicate AlwaysSkips(calendar: Calendar, w: World, steps: seq<Step>, id: TimerId)
    requires Possible(calendar, w, steps)
    decreases |steps|
  {
    SkipsOverlap(w.core.mem, id)
    && (steps != [] ==> AlwaysSkips(calendar, Take(calendar, w, steps[0]), steps[1..], id))
  }

  lemma SliceRunning(c: Core, d: Core, id: TimerId)
    requires SliceOf(c, id) == SliceOf(d, id)
    ensures IsRunning(c.mem, id) <==> IsRunning(d.mem, id)
    ensures id in c.mem.specs <==> id in d.mem.specs
    ensures id in c.mem.specs ==> c.mem.specs[id] == d.mem.specs[id]
  {
    hide Concerning, OfTimer;
  }

  /** Registering again leaves a running timer running. */
  lemma ScheduleStates(calendar: Calendar, c: Core, q: Request, now: Time, later: Time, accepted: bool, id: TimerId)
    requires Numbered(c) && id in c.mem.specs && IsRunning(c.mem, id)
    ensures var r := ScheduleTimer(calendar, c, q, now, later, accepted);
      r.Accepted? ==> IsRunning(r.core.mem, id)
  {
    var r := ScheduleTimer(calendar, c, q, now, later, accepted);
    if q.id != id {
      ScheduleElsewhere(calendar, c, q, now, later, accepted, id);
      hide ScheduleTimer, SliceOf;
      if r.Accepted? {
        SliceRunning(c, r.core, id);
      }
    } else {
      RegisteredRunning(c, q, now);
      hide Record, Registered, NextRunAfter;
    }
  }

  lemma RegisteredRunning(c: Core, q: Request, now: Time)
    requires q.id in c.mem.specs && IsRunning(c.mem, q.id)
    ensures IsRunning(Registered(Record(c, q, now), q).mem, q.id)
  {
  }

  /** A run starts only on a timer that is not skipping over another, and marks it running. */
  lemma BeginStates(calendar: Calendar, c: Core, entry: ScheduledTimer, newId: RunId, now: Time, due: bool, start: bool,
                    id: TimerId)
    requires Numbered(c) && (entry.timer in c.mem.specs ==> c.mem.specs[entry.timer].id == entry.timer)
    ensures var b := Begin(calendar, c, entry, newId, now, due, start);
      && (IsRunning(c.mem, id) ==> IsRunning(b.core.mem, id))
      && (b.flight.Some? ==> IsRunning(b.core.mem, entry.timer) && !Overlaps(c.mem, entry.timer))
  {
    BeginOwnState(calendar, c, entry, newId, now, due, start);
    var b := Begin(calendar, c, entry, newId, now, due, start);
    hide Begin;
    if entry.timer != id {
      BeginElsewhere(calendar, c, entry, newId, now, due, start, id);
      hide SliceOf;
      SliceRunning(c, b.core, id);
    }
  }

  lemma BeginOwnState(calendar: Calendar, c: Core, entry: ScheduledTimer, newId: RunId, now: Time, due: bool, start: bool)
    ensures var b := Begin(calendar, c, entry, newId, now, due, start);
      && (IsRunning(c.mem, entry.timer) ==> IsRunning(b.core.mem, entry.timer))
      && (b.flight.Some? ==> IsRunning(b.core.mem, entry.timer) && !Overlaps(c.mem, entry.timer))
  {
    var cleared, run := ClearNext(c, entry.timer), OrElse(entry.run, newId);
    if entry.timer in c.mem.specs {
      SkipState(calendar, cleared, c.mem.specs[entry.timer], entry, run, now, due);
      StartState(calendar, cleared, c.mem.specs[entry.timer], entry, run, now, due, start);
      hide SkipRun, StartRun;
    }
  }

  lemma SkipState(calendar: Calendar, c: Core, spec: TimerSpec, entry: ScheduledTimer, run: RunId, now: Time, accepted: bool)
    ensures SkipRun(calendar, c, spec, entry, run, now, accepted).mem.states == c.mem.states
  {
    RescheduleEffect(calendar, Append(c, RunSkippedOverlap(entry.timer, run, entry.at, now), accepted), spec, entry.at);
    hide RescheduleFrom;
  }

  lemma StartState(calendar: Calendar, c: Core, spec: TimerSpec, entry: ScheduledTimer, run: RunId, now: Time,
                   due: bool, start: bool)
    ensures var b := StartRun(calendar, c, spec, entry, run, now, due, start);
      && (IsRunning(c.mem, entry.timer) || b.flight.Some? ==> IsRunning(b.core.mem, entry.timer))
  {
    var d := Append(c, RunDue(entry.timer, run, entry.at), due);
    var s := Append(d, RunStarted(entry.timer, run, now, entry.attempt), start);
    RescheduleEffect(calendar, s, spec, entry.at);
    hide RescheduleFrom;
  }

  lemma FinishStates(calendar: Calendar, c: Core, f: Flight, outcome: Result<(), string>, now: Time, first: bool, second: bool,
                     id: TimerId)
    requires Numbered(c) && id != f.spec.id
    ensures var d := Finish(calendar, c, f, outcome, now, first, second);
      IsRunning(c.mem, id) ==> IsRunning(d.mem, id)
  {
    FinishElsewhere(calendar, c, f, outcome, now, first, second, id);
    hide Finish, SliceOf;
    SliceRunning(c, Finish(calendar, c, f, outcome, now, first, second), id);
  }

  lemma AddedExclusive(w: World, k: nat, newId: RunId, now: Time, b: Begun, id: TimerId)
    requires Exclusive(w, id) && k !in w.executing
    requires IsRunning(w.core.mem, id) ==> IsRunning(b.core.mem, id)
    requires b.flight.Some? && b.flight.value.spec.id == id ==> IsRunning(b.core.mem, id) && !IsRunning(w.core.mem, id)
    ensures Exclusive(AfterBegin(w, k, newId, now, b), id)
  {
  }

  lemma BeginExclusive(calendar: Calendar, w: World, k: nat, newId: RunId, now: Time, due: bool, start: bool, id: TimerId)
    requires Sound(w) && k in w.spawned && Exclusive(w, id) && SkipsOverlap(w.core.mem, id)
    ensures Exclusive(AfterBegin(w, k, newId, now, Begin(calendar, w.core, w.spawned[k], newId, now, due, start)), id)
  {
    var entry := w.spawned[k];
    SoundSpawned(w, k);
    hide Sound, Exclusive, Begin, AfterBegin;
    BeginStates(calendar, w.core, entry, newId, now, due, start, id);
    BeginRuntime(calendar, w.core, entry, newId, now, due, start);
    AddedExclusive(w, k, newId, now, Begin(calendar, w.core, entry, newId, now, due, start), id);
  }

  lemma FinishExclusive(calendar: Calendar, w: World, k: nat, outcome: Result<(), string>, now: Time, first: bool, second: bool,
                        id: TimerId)
    requires Sound(w) && k in w.executing && Exclusive(w, id)
    ensures Exclusive(AfterFinish(w, k, now, Finish(calendar, w.core, w.executing[k], outcome, now, first, second)), id)
  {
    SoundExecuting(w, k);
    hide Sound;
    if w.executing[k].spec.id != id {
      FinishStates(calendar, w.core, w.executing[k], outcome, now, first, second, id);
    }
    hide Finish;
  }

  lemma RegisterExclusive(calendar: Calendar, w: World, q: Request, now: Time, later: Time, accepted: bool, id: TimerId)
    requires Sound(w) && Exclusive(w, id)
    ensures var r := ScheduleTimer(calendar, w.core, q, now, later, accepted);
      Exclusive(w.(core := if r.Accepted? then r.core else w.core, clock := later), id)
  {
    assert forall k :: k in w.executing && w.executing[k].spec.id == id ==> Known(w.core, id);
    hide Sound;
    if id in w.core.mem.specs && IsRunning(w.core.mem, id) {
      ScheduleStates(calendar, w.core, q, now, later, accepted, id);
    }
    hide ScheduleTimer;
  }

  lemma StepExclusive(calendar: Calendar, w: World, s: Step, id: TimerId)
    requires Sound(w) && Enabled(w, s) && Exclusive(w, id) && SkipsOverlap(w.core.mem, id)
    ensures Exclusive(Take(calendar, w, s), id)
  {
    hide Sound, AfterBegin, AfterFinish, Begin, Finish, ScheduleTimer, OpenedCore, SkipsOverlap;
    match s
    case Register(q, now, later, accepted) => RegisterExclusive(calendar, w, q, now, later, accepted, id);
    case BeginRun(k, newId, now, due, start) => BeginExclusive(calendar, w, k, newId, now, due, start, id);
    case FinishRunning(k, outcome, now, first, second) =>
      FinishExclusive(calendar, w, k, outcome, now, first, second, id);
    case _ =>
  }

  /**
   While a timer's policy stays skip, no interleaving of popping, starting, finishing, retrying,
   registering again, compacting and restarting has two of its runs executing at once, and the timer
   reads Running as long as one is.
   */
  lemma {:induction false} SkipIsExclusive(calendar: Calendar, w: World, steps: seq<Step>, id: TimerId)
    requires Sound(w) && Possible(calendar, w, steps) && Exclusive(w, id)
    requires AlwaysSkips(calendar, w, steps, id)
    ensures Exclusive(Reach(calendar, w, steps), id)
    decreases |steps|
  {
    hide Sound, Take, Enabled, Exclusive, SkipsOverlap;
    if steps != [] {
      StepSound(calendar, w, steps[0]);
      StepExclusive(calendar, w, steps[0], id);
      SkipIsExclusive(calendar, Take(calendar, w, steps[0]), steps[1..], id);
    }
  }

  /** The allow policy does not exclude: a second due entry of a running timer starts. */
  lemma AllowOverlaps(calendar: Calendar, w: World, j: nat, k: nat, newId: RunId, now: Time)
    requires Sound(w) && j in w.executing && k in w.spawned && w.spawned[k].timer == w.executing[j].spec.id
    requires w.core.mem.specs[w.spawned[k].timer].overlap.Allow?
    ensures var v := AfterBegin(w, k, newId, now, Begin(calendar, w.core, w.spawned[k], newId, now, true, true));
      j in v.executing && k in v.executing && j != k && v.executing[j].spec.id == v.executing[k].spec.id
  {
    var entry := w.spawned[k];
    SoundSpawned(w, k);
    hide NextRunAfter, Apply, Sound;
  }
}
