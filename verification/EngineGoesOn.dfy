/** A recurring timer goes on: while the engine runs undisturbed, there is always a next entry or a run of it. */
module EngineGoesOn {
  import opened Prelude
  import opened Retry
  import opened Schedules
  import opened Timers
  import opened Events
  import opened Heap
  import opened Engine
  import opened EngineRuns
  import opened EngineFrame
  import opened EngineParts
  import opened EnginePlans
  import opened EngineDelay
  import EngineInherited
  import EngineReregister

  /** A schedule that is never over. */
  ghost predicate Recurs(calendar: Calendar, spec: TimerSpec) {
    !IsOneShot(spec.schedule) && forall lo :: NextRunAfter(calendar, spec.schedule, lo, spec.timezone).Some?
  }

  /** The log accepts what the step appends, and the engine is neither shut down nor reopened. */
  predicate Smooth(s: Step) {
    match s
    case Register(_, _, _, accepted) => accepted
    case BeginRun(_, _, _, due, start) => due && start
    case FinishRunning(_, _, _, first, second) => first && second
    case LeaveLoop => false
    case BeginShutdown => false
    case EndShutdown => false
    case Restart => false
    case _ => true
  }

  lemma SmoothRunning(calendar: Calendar, w: World, s: Step)
    requires Enabled(w, s) && Smooth(s) && !Halting(w.core)
    ensures !Halting(Take(calendar, w, s).core)
  {
    match s
    case Register(q, now, later, accepted) =>
      ScheduleRuntime(calendar, w.core, q, now, later, accepted);
      hide ScheduleTimer;
    case BeginRun(k, newId, now, due, start) =>
      BeginRunning(calendar, w.core, w.spawned[k], newId, now);
      hide Begin;
    case FinishRunning(k, outcome, now, first, second) =>
      FinishRunningOn(calendar, w.core, w.executing[k], outcome, now);
      hide Finish, Panics;
    case _ =>
  }

  lemma BeginRunning(calendar: Calendar, c: Core, entry: ScheduledTimer, newId: RunId, now: Time)
    ensures Halting(Begin(calendar, c, entry, newId, now, true, true).core) == Halting(c)
  {
    hide Apply, NextRunAfter;
  }

  lemma FinishRunningOn(calendar: Calendar, c: Core, f: Flight, outcome: Result<(), string>, now: Time)
    ensures Halting(Finish(calendar, c, f, outcome, now, true, true)) == Halting(c)
  {
    hide Apply, NextRunAfter, NextRetryAt;
  }

  // ----- What the blocks schedule -----

  lemma RescheduleBag(calendar: Calendar, c: Core, spec: TimerSpec, from: Time)
    ensures var next := NextRunAfter(calendar, spec.schedule, from, spec.timezone);
      RescheduleFrom(calendar, c, spec, from).bag
      == if !Halting(c) && next.Some? then c.bag[c.pushed := ScheduledTimer(spec.id, next.value, None, 1)] else c.bag
  {
    hide NextRunAfter;
  }

  /**
   For every schedule: the start block makes the run after the entry's time due, and nothing else, exactly if
   the policy is not delay, the schedule yields one, the engine is running and the log accepts the events.
   */
  lemma StartSchedules(calendar: Calendar, c: Core, entry: ScheduledTimer, newId: RunId, now: Time, due: bool, start: bool)
    requires entry.timer in c.mem.specs && c.mem.specs[entry.timer].id == entry.timer
    ensures var spec := c.mem.specs[entry.timer];
      var next := NextRunAfter(calendar, spec.schedule, entry.at, spec.timezone);
      Begin(calendar, c, entry, newId, now, due, start).core.bag
      == if !spec.overlap.Delay? && next.Some? && !Halting(c) && due && (start || Overlaps(c.mem, entry.timer))
         then c.bag[c.pushed := ScheduledTimer(entry.timer, next.value, None, 1)] else c.bag
  {
    var id, run, spec := entry.timer, OrElse(entry.run, newId), c.mem.specs[entry.timer];
    var cleared := ClearNext(c, id);
    RescheduleBag(calendar, Append(cleared, RunSkippedOverlap(id, run, entry.at, now), due), spec, entry.at);
    var d := Append(cleared, RunDue(id, run, entry.at), due);
    RescheduleBag(calendar, Append(d, RunStarted(id, run, now, entry.attempt), start), spec, entry.at);
    hide RescheduleFrom, Apply, NextRunAfter;
  }

  /** The run after `now`, or the retry that a failure asks for. */
  function NextEntry(calendar: Calendar, m: Memory, f: Flight, outcome: Result<(), string>, now: Time): ScheduledTimer
    requires outcome.Ok? || CurrentAttempt(m, f.spec.id) >= f.spec.retry.maxAttempts ==>
               NextRunAfter(calendar, f.spec.schedule, now, f.spec.timezone).Some?
  {
    var id, attempt := f.spec.id, CurrentAttempt(m, f.spec.id);
    if outcome.Ok? || attempt >= f.spec.retry.maxAttempts then
      ScheduledTimer(id, NextRunAfter(calendar, f.spec.schedule, now, f.spec.timezone).value, None, 1)
    else ScheduledTimer(id, now + Wait(f.spec.retry, attempt) * TICKS_PER_SECOND, Some(f.run), attempt + 1)
  }

  lemma ErrSchedules(calendar: Calendar, c: Core, f: Flight, error: string, now: Time)
    requires f.callable && f.spec.overlap.Delay? && Recurs(calendar, f.spec) && !Halting(c)
    requires !Panics(c, f, Err(error), now)
    ensures FinishErr(calendar, c, f, error, now, true, true).bag
         == c.bag[c.pushed := NextEntry(calendar, c.mem, f, Err(error), now)]
  {
    var id, attempt := f.spec.id, CurrentAttempt(c.mem, f.spec.id);
    var d := Append(c, RunFailed(id, f.run, now, error, attempt), true);
    RescheduleBag(calendar, Append(d, RunDead(id, f.run, now), true), f.spec, now);
    hide Apply, RescheduleFrom, NextRunAfter, CurrentAttempt, Wait;
  }

  /** After a run of a recurring delay timer the next one, or its retry, is the one entry pushed. */
  lemma FinishSchedules(calendar: Calendar, c: Core, f: Flight, outcome: Result<(), string>, now: Time)
    requires f.callable && f.spec.overlap.Delay? && Recurs(calendar, f.spec) && !Halting(c)
    requires !Panics(c, f, outcome, now)
    ensures Finish(calendar, c, f, outcome, now, true, true).bag
         == c.bag[c.pushed := NextEntry(calendar, c.mem, f, outcome, now)]
  {
    if outcome.Ok? {
      RescheduleBag(calendar, Append(c, RunSucceeded(f.spec.id, f.run, now, Elapsed(f.startedAt, now)), true), f.spec, now);
      hide Apply, RescheduleFrom, NextRunAfter;
    } else {
      hide FinishErr;
      ErrSchedules(calendar, c, f, outcome.error, now);
    }
  }

  // ----- The delay policy -----

  /** One token, and not none: the timer is exactly one entry or run. */
  ghost predicate Going(calendar: Calendar, p: Part, n: nat) {
    Token(p, n) && Keys(p) != {} && Recurs(calendar, p.core.spec.value)
  }

  /** Before its registration: no entry, no run and no next run. */
  predicate Ready(p: Part, n: nat) {
    Idle(p, n) && p.core.next.None?
  }

  lemma GoingIsOne(calendar: Calendar, p: Part, n: nat)
    requires Going(calendar, p, n)
    ensures exists k :: Keys(p) == {k}
  {
    var k :| k in Keys(p);
    assert forall j :: j in Keys(p) ==> j == k;
    assert Keys(p) == {k};
  }

  lemma PopKeeps(w: World, now: Time, id: TimerId)
    requires w.popped == map[]
    ensures Keys(PartOf(w, id)) <= Keys(PartOf(AfterPop(w, now), id))
    ensures PartOf(AfterPop(w, now), id).core.next == PartOf(w, id).core.next
  {
    hide Concerning;
    var p, q := PartOf(w, id), PartOf(AfterPop(w, now), id);
    forall k | k in Keys(p) ensures k in Keys(q) {
      if k in p.core.waiting && k in DueKeys(w.core.bag, now) {
        assert k in q.popped;
      } else if k in p.core.waiting {
        assert k in q.core.waiting;
      }
    }
  }

  lemma SpawnKeeps(w: World, k: nat, id: TimerId)
    requires k in w.popped && k !in w.spawned
    ensures Keys(PartOf(w, id)) <= Keys(PartOf(AfterSpawn(w, k), id))
    ensures PartOf(AfterSpawn(w, k), id).core.next == PartOf(w, id).core.next
  {
    hide Concerning;
    var p, q := PartOf(w, id), PartOf(AfterSpawn(w, k), id);
    assert p.popped.Keys <= q.popped.Keys + q.spawned.Keys && p.spawned.Keys <= q.spawned.Keys;
  }

  lemma BeginFlies(calendar: Calendar, c: Core, entry: ScheduledTimer, newId: RunId, now: Time)
    requires entry.timer in c.mem.specs && c.mem.specs[entry.timer].overlap.Delay?
    ensures Begin(calendar, c, entry, newId, now, true, true).flight.Some?
  {
    hide Apply;
  }

  lemma BeginGoing(calendar: Calendar, w: World, k: nat, newId: RunId, now: Time, id: TimerId, n: nat)
    requires Sound(w) && k in w.spawned && w.spawned[k].timer == id && Going(calendar, PartOf(w, id), n)
    ensures var v := AfterBegin(w, k, newId, now, Begin(calendar, w.core, w.spawned[k], newId, now, true, true));
      k in Keys(PartOf(v, id))
  {
    var b := Begin(calendar, w.core, w.spawned[k], newId, now, true, true);
    SoundSpawned(w, k);
    assert w.core.mem.specs[id].overlap.Delay? by {
      hide Concerning, OfTimer, FlightsOf, SlicePhase, Keys;
    }
    hide Sound, SliceOf, Begin, Token, OfTimer, FlightsOf, AfterBegin;
    BeginFlies(calendar, w.core, w.spawned[k], newId, now);
    BeginRuntime(calendar, w.core, w.spawned[k], newId, now, true, true);
    BegunPart(w, k, newId, now, b, id);
  }

  /**
   When the run of a going timer finishes, what is left of the timer is one waiting entry: the run after
   `now` if it succeeded or was given up, and else its retry.
   */
  lemma FinishLeavesNext(calendar: Calendar, w: World, k: nat, outcome: Result<(), string>, now: Time, id: TimerId, n: nat)
    requires Sound(w) && k in w.executing && w.executing[k].spec.id == id && !Panics(w.core, w.executing[k], outcome, now)
    requires Going(calendar, PartOf(w, id), n) && !Halting(w.core)
    ensures var f := w.executing[k];
      var v := AfterFinish(w, k, now, Finish(calendar, w.core, f, outcome, now, true, true));
      var q := PartOf(v, id);
      && f.spec.overlap.Delay? && Recurs(calendar, f.spec)
      && q.core.waiting == map[w.core.pushed := NextEntry(calendar, w.core.mem, f, outcome, now)]
      && q.popped == map[] && q.spawned == map[] && q.flying == map[]
  {
    var f, c := w.executing[k], Finish(calendar, w.core, w.executing[k], outcome, now, true, true);
    PlaceOf(w, k, id);
    SoundExecuting(w, k);
    AloneFlying(PartOf(w, id), k, n);
    assert f.spec.overlap.Delay? && Recurs(calendar, f.spec) by {
      hide Concerning, OfTimer, SlicePhase, FlightsOf, Keys;
    }
    hide Sound, Finish, Token, FlightsOf, Panics, Concerning, FlightFits, SlicePhase, Delays, Recurs, Keys;
    FinishSchedules(calendar, w.core, f, outcome, now);
    FinishedPart(w, k, now, c, id);
    PushedAlone(w.core.bag, w.core.pushed, NextEntry(calendar, w.core.mem, f, outcome, now), id);
  }

  lemma PushedAlone(bag: Bag, k: nat, e: ScheduledTimer, id: TimerId)
    requires OfTimer(bag, id) == map[] && e.timer == id
    ensures OfTimer(bag[k := e], id) == map[k := e]
  {
  }

  lemma GoingStep(calendar: Calendar, w: World, s: Step, id: TimerId, n: nat)
    requires Sound(w) && Enabled(w, s) && Smooth(s) && !Halting(w.core) && !(s.Register? && s.q.id == id)
    requires Going(calendar, PartOf(w, id), n)
    ensures Going(calendar, PartOf(Take(calendar, w, s), id), n)
  {
    var v := Take(calendar, w, s);
    TokenStep(calendar, w, s, id, n);
    EngineInherited.StepContinues(calendar, w, s, id);
    KeyStep(calendar, w, s, id, n);
    hide Take, PartOf, Token, Keys, Sound, Recurs, Enabled;
  }

  lemma KeyStep(calendar: Calendar, w: World, s: Step, id: TimerId, n: nat)
    requires Sound(w) && Enabled(w, s) && Smooth(s) && !Halting(w.core) && !(s.Register? && s.q.id == id)
    requires Going(calendar, PartOf(w, id), n)
    ensures Keys(PartOf(Take(calendar, w, s), id)) != {}
  {
    var p, q := PartOf(w, id), PartOf(Take(calendar, w, s), id);
    hide Sound, PartOf, AfterPop, AfterSpawn, AfterBegin, AfterFinish, Begin, Finish, ScheduleTimer, Panics, Token, Recurs, Keys;
    if !Touches(w, s, id) {
      StepElsewhere(calendar, w, s, id);
    } else {
      match s
      case Pop(now) => PopKeeps(w, now, id);
      case Spawn(k) =>
        SoundPopped(w, k);
        SpawnKeeps(w, k, id);
      case BeginRun(k, newId, now, _, _) => BeginGoing(calendar, w, k, newId, now, id, n);
      case FinishRunning(k, outcome, now, _, _) =>
        FinishLeavesNext(calendar, w, k, outcome, now, id, n);
        WaitingKey(q, w.core.pushed);
    }
  }

  lemma WaitingKey(p: Part, k: nat)
    requires k in p.core.waiting
    ensures k in Keys(p)
  {
  }

  // ----- Registration with the delay policy -----

  lemma AcceptedRunning(calendar: Calendar, c: Core, q: Request, now: Time, later: Time)
    requires !Halting(c)
    ensures ScheduleTimer(calendar, c, q, now, later, true).Accepted?
  {
    hide Record, NextRunAfter, NeedsRecord;
  }

  lemma RegisterAdds(calendar: Calendar, w: World, s: Step, id: TimerId)
    requires Sound(w) && Enabled(w, s) && s.Register? && s.q.id == id && s.accepted && !Halting(w.core)
    requires Recurs(calendar, SpecOf(w.core.mem, s.q, s.now)) && PartOf(w, id).core.next.None?
    ensures var q := PartOf(Take(calendar, w, s), id);
      w.core.pushed in q.core.waiting && q.core.spec == Some(SpecOf(w.core.mem, s.q, s.now))
  {
    SoundNumbered(w);
    AcceptedRunning(calendar, w.core, s.q, s.now, s.later);
    EngineReregister.RegistrationAdds(calendar, w.core, s.q, s.now, s.later, true);
    EngineReregister.ScheduledSpec(calendar, w.core, s.q, s.now, s.later, true);
    assert SpecOf(w.core.mem, s.q, s.now).schedule == s.q.schedule;
    hide Sound, ScheduleTimer, Concerning, OfTimer, SpecOf, NextRunAfter, NeedsRecord;
  }

  lemma RegisterGoing(calendar: Calendar, w: World, s: Step, id: TimerId, n: nat)
    requires Sound(w) && Enabled(w, s) && s.Register? && s.q.id == id && s.accepted && !Halting(w.core)
    requires SpecOf(w.core.mem, s.q, s.now).overlap.Delay? && Recurs(calendar, SpecOf(w.core.mem, s.q, s.now))
    requires Ready(PartOf(w, id), n)
    ensures Going(calendar, PartOf(Take(calendar, w, s), id), n)
  {
    RegisterStep(calendar, w, s, id, n);
    RegisterAdds(calendar, w, s, id);
    hide Take, PartOf, Token, Sound, Recurs, Enabled, SpecOf, Keys;
    WaitingKey(PartOf(Take(calendar, w, s), id), w.core.pushed);
  }

  lemma ReadyStep(calendar: Calendar, w: World, s: Step, id: TimerId, n: nat)
    requires Sound(w) && Enabled(w, s) && Smooth(s) && !(s.Register? && s.q.id == id) && Ready(PartOf(w, id), n)
    ensures Ready(PartOf(Take(calendar, w, s), id), n)
  {
    IdleStep(calendar, w, s, id, n);
    IdleEmpty(PartOf(w, id), n);
    NothingThere(w, s, id);
    hide Sound, Idle, PartOf, AfterPop, AfterSpawn, AfterBegin, AfterFinish, Begin, Finish, ScheduleTimer, Panics;
    if !Touches(w, s, id) {
      StepElsewhere(calendar, w, s, id);
    } else {
      PopKeeps(w, s.now, id);
    }
  }

  lemma RepeatKeys(calendar: Calendar, w: World, s: Step, id: TimerId)
    requires Enabled(w, s) && s.Register? && s.q.id == id && Repeats(calendar, w.core, s)
    ensures var p, q := PartOf(w, id), PartOf(Take(calendar, w, s), id);
      Keys(q) == Keys(p) && q.core.spec == p.core.spec
  {
    var p, q := PartOf(w, id), PartOf(Take(calendar, w, s), id);
    assert Same(q.core, p.core) by {
      assert SpecOf(w.core.mem, s.q, s.now).schedule == s.q.schedule;
      hide Concerning, OfTimer, NextRunAfter, SpecOf, Apply;
    }
    hide SliceOf, ScheduleTimer;
  }

  /** An idle timer without a next run is scheduled by its registration, which so repeats nothing. */
  lemma ReadyNotRepeated(calendar: Calendar, w: World, s: Step, id: TimerId, n: nat)
    requires s.Register? && s.q.id == id && s.accepted && !Halting(w.core) && Ready(PartOf(w, id), n)
    requires Recurs(calendar, SpecOf(w.core.mem, s.q, s.now))
    ensures !Repeats(calendar, w.core, s)
  {
    AcceptedRunning(calendar, w.core, s.q, s.now, s.later);
    assert SpecOf(w.core.mem, s.q, s.now).schedule == s.q.schedule;
    hide ScheduleTimer, Concerning, OfTimer, SpecOf, NextRunAfter, NeedsRecord;
  }

  // ----- Whole runs -----

  /** Every registration of the timer resolves to a schedule that is never over, under the delay policy or another. */
  ghost predicate AllRecur(calendar: Calendar, w: World, steps: seq<Step>, id: TimerId, delayed: bool)
    requires Possible(calendar, w, steps)
    decreases |steps|
  {
    steps == [] || (
      && (steps[0].Register? && steps[0].q.id == id ==>
            var spec := SpecOf(w.core.mem, steps[0].q, steps[0].now);
            Recurs(calendar, spec) && (spec.overlap.Delay? <==> delayed))
      && AllRecur(calendar, Take(calendar, w, steps[0]), steps[1..], id, delayed))
  }

  predicate Asked(steps: seq<Step>, id: TimerId) {
    exists i :: 0 <= i < |steps| && steps[i].Register? && steps[i].q.id == id
  }

  lemma AskedLater(steps: seq<Step>, id: TimerId)
    requires steps != []
    ensures Asked(steps, id) <==> (steps[0].Register? && steps[0].q.id == id) || Asked(steps[1..], id)
  {
    if Asked(steps, id) {
      var i :| 0 <= i < |steps| && steps[i].Register? && steps[i].q.id == id;
      if i > 0 {
        assert steps[1..][i - 1] == steps[i];
      }
    }
    if Asked(steps[1..], id) {
      var i :| 0 <= i < |steps[1..]| && steps[1..][i].Register? && steps[1..][i].q.id == id;
      assert steps[i + 1] == steps[1..][i];
    }
  }

  lemma {:induction false} GoingStays(calendar: Calendar, w: World, steps: seq<Step>, id: TimerId, n: nat)
    requires Sound(w) && Possible(calendar, w, steps) && !Halting(w.core) && forall s :: s in steps ==> Smooth(s)
    requires DelaySession(calendar, w, steps, id, false) && Going(calendar, PartOf(w, id), n)
    ensures Going(calendar, PartOf(Reach(calendar, w, steps), id), n)
    decreases |steps|
  {
    hide Sound, Take, Enabled, PartOf, Token, Keys, Recurs, Repeats, Smooth, Halting;
    if steps != [] {
      var s := steps[0];
      var v := Take(calendar, w, s);
      StepSound(calendar, w, s);
      assert Smooth(s);
      SmoothRunning(calendar, w, s);
      if s.Register? && s.q.id == id {
        RepeatStep(calendar, w, s, id, n);
        RepeatKeys(calendar, w, s, id);
      } else {
        GoingStep(calendar, w, s, id, n);
      }
      GoingStays(calendar, v, steps[1..], id, n);
    }
  }

  /**
   A timer with the delay policy and a schedule that is never over, in a session undisturbed by rejected
   appends, shutdown and reopening: from its registration on it is exactly one entry or one run.
   */
  lemma {:induction false} DelayGoesOn(calendar: Calendar, w: World, steps: seq<Step>, id: TimerId, n: nat)
    requires Sound(w) && Possible(calendar, w, steps) && !Halting(w.core) && forall s :: s in steps ==> Smooth(s)
    requires DelaySession(calendar, w, steps, id, true) && AllRecur(calendar, w, steps, id, true)
    requires Ready(PartOf(w, id), n)
    ensures var p := PartOf(Reach(calendar, w, steps), id);
      if Asked(steps, id) then exists k :: Keys(p) == {k} else Keys(p) == {}
    decreases |steps|
  {
    hide Sound, Take, Enabled, PartOf, Token, Keys, Recurs, Repeats, Smooth, Halting, SpecOf, Asked;
    if steps != [] {
      var s := steps[0];
      var v := Take(calendar, w, s);
      StepSound(calendar, w, s);
      assert Smooth(s);
      SmoothRunning(calendar, w, s);
      AskedLater(steps, id);
      if s.Register? && s.q.id == id {
        SmoothRegistration(s);
        ReadyNotRepeated(calendar, w, s, id, n);
        RegisterGoing(calendar, w, s, id, n);
        GoingStays(calendar, v, steps[1..], id, n);
        GoingIsOne(calendar, PartOf(Reach(calendar, w, steps), id), n);
      } else {
        ReadyStep(calendar, w, s, id, n);
        DelayGoesOn(calendar, v, steps[1..], id, n);
      }
    } else {
      NeverAsked(id);
    }
  }

  lemma SmoothRegistration(s: Step)
    requires Smooth(s) && s.Register?
    ensures s.accepted
  {
  }

  lemma NeverAsked(id: TimerId)
    ensures !Asked([], id)
  {
  }

  // ----- The skip and allow policies -----

  /** An entry of the timer is waiting, popped or spawned. */
  ghost predicate HasEntry(p: Part) {
    exists k, e :: EntryAt(p, k, e)
  }

  /** So it is, and the timer and its runs reschedule when they start. */
  ghost predicate Entered(calendar: Calendar, p: Part) {
    && HasEntry(p)
    && p.core.spec.Some? && Recurs(calendar, p.core.spec.value) && !p.core.spec.value.overlap.Delay?
    && StartDriven(p)
  }

  predicate StartDriven(p: Part) {
    forall k :: k in p.flying ==> !p.flying[k].spec.overlap.Delay?
  }

  lemma WaitingEntry(p: Part, k: nat)
    requires k in p.core.waiting
    ensures HasEntry(p)
  {
    assert EntryAt(p, k, p.core.waiting[k]);
  }

  lemma PopEntries(w: World, now: Time, id: TimerId)
    requires w.popped == map[] && HasEntry(PartOf(w, id))
    ensures HasEntry(PartOf(AfterPop(w, now), id))
  {
    hide Concerning;
    var p, q := PartOf(w, id), PartOf(AfterPop(w, now), id);
    var k, e :| EntryAt(p, k, e);
    assert EntryAt(q, k, e);
  }

  lemma SpawnEntries(w: World, k: nat, id: TimerId)
    requires k in w.popped && k !in w.spawned && HasEntry(PartOf(w, id))
    ensures HasEntry(PartOf(AfterSpawn(w, k), id))
  {
    hide Concerning;
    var p, q := PartOf(w, id), PartOf(AfterSpawn(w, k), id);
    var j, e :| EntryAt(p, j, e);
    assert EntryAt(q, j, e);
  }

  lemma BeginEnters(calendar: Calendar, w: World, k: nat, newId: RunId, now: Time, id: TimerId)
    requires Sound(w) && k in w.spawned && w.spawned[k].timer == id && Entered(calendar, PartOf(w, id)) && !Halting(w.core)
    ensures var v := AfterBegin(w, k, newId, now, Begin(calendar, w.core, w.spawned[k], newId, now, true, true));
      HasEntry(PartOf(v, id)) && StartDriven(PartOf(v, id))
  {
    var e, p := w.spawned[k], PartOf(w, id);
    var b := Begin(calendar, w.core, e, newId, now, true, true);
    SoundSpawned(w, k);
    assert p.core.spec == Some(w.core.mem.specs[id]) by { hide Concerning, OfTimer, FlightsOf; }
    hide Sound, Begin, FlightsOf, Concerning, AfterBegin, HasEntry, OfTimer, Recurs;
    BeginPushes(calendar, w.core, e, newId, now);
    BeginRuntime(calendar, w.core, e, newId, now, true, true);
    BegunPart(w, k, newId, now, b, id);
    WaitingEntry(PartOf(AfterBegin(w, k, newId, now, b), id), w.core.pushed);
  }

  lemma BeginPushes(calendar: Calendar, c: Core, entry: ScheduledTimer, newId: RunId, now: Time)
    requires entry.timer in c.mem.specs && c.mem.specs[entry.timer].id == entry.timer && !Halting(c)
    requires Recurs(calendar, c.mem.specs[entry.timer]) && !c.mem.specs[entry.timer].overlap.Delay?
    ensures c.pushed in OfTimer(Begin(calendar, c, entry, newId, now, true, true).core.bag, entry.timer)
  {
    StartSchedules(calendar, c, entry, newId, now, true, true);
    hide Begin, NextRunAfter;
  }

  lemma FinishEntries(calendar: Calendar, c: Core, f: Flight, outcome: Result<(), string>, now: Time)
    requires f.callable && !f.spec.overlap.Delay? && !Halting(c) && !Panics(c, f, outcome, now)
    ensures var d := Finish(calendar, c, f, outcome, now, true, true);
      d.bag == c.bag || (c.pushed in d.bag && d.bag[c.pushed].timer == f.spec.id)
  {
    if outcome.Err? {
      ErrEntries(calendar, c, f, outcome.error, now);
    }
    hide FinishErr, Apply, RescheduleFrom;
  }

  lemma ErrEntries(calendar: Calendar, c: Core, f: Flight, error: string, now: Time)
    requires f.callable && !f.spec.overlap.Delay? && !Halting(c) && !Panics(c, f, Err(error), now)
    ensures var d := FinishErr(calendar, c, f, error, now, true, true);
      d.bag == c.bag || (c.pushed in d.bag && d.bag[c.pushed].timer == f.spec.id)
  {
    hide Apply, RescheduleFrom, CurrentAttempt, Wait;
  }

  lemma FinishEnters(calendar: Calendar, w: World, k: nat, outcome: Result<(), string>, now: Time, id: TimerId)
    requires Sound(w) && k in w.executing && w.executing[k].spec.id == id && !Panics(w.core, w.executing[k], outcome, now)
    requires Entered(calendar, PartOf(w, id)) && !Halting(w.core)
    ensures var v := AfterFinish(w, k, now, Finish(calendar, w.core, w.executing[k], outcome, now, true, true));
      HasEntry(PartOf(v, id)) && StartDriven(PartOf(v, id))
  {
    var f, c := w.executing[k], Finish(calendar, w.core, w.executing[k], outcome, now, true, true);
    var p, q := PartOf(w, id), PartOf(AfterFinish(w, k, now, c), id);
    SoundExecuting(w, k);
    assert k in p.flying && p.flying[k] == f by { hide Concerning, OfTimer; }
    FinishEntries(calendar, w.core, f, outcome, now);
    FinishedPart(w, k, now, c, id);
    hide Sound, Finish, FlightsOf, Panics, Concerning, AfterFinish, HasEntry;
    if c.bag == w.core.bag {
      SameEntries(p, q);
    } else {
      WaitingEntry(q, w.core.pushed);
    }
  }

  lemma SameEntries(p: Part, q: Part)
    requires q.core.waiting == p.core.waiting && q.popped == p.popped && q.spawned == p.spawned
    ensures HasEntry(p) ==> HasEntry(q)
  {
    if HasEntry(p) {
      var k, e :| EntryAt(p, k, e);
      assert EntryAt(q, k, e);
    }
  }

  lemma EnteredStep(calendar: Calendar, w: World, s: Step, id: TimerId)
    requires Sound(w) && Enabled(w, s) && Smooth(s) && !Halting(w.core) && !(s.Register? && s.q.id == id)
    requires Entered(calendar, PartOf(w, id))
    ensures Entered(calendar, PartOf(Take(calendar, w, s), id))
  {
    var p, q := PartOf(w, id), PartOf(Take(calendar, w, s), id);
    EngineInherited.StepContinues(calendar, w, s, id);
    EntryStep(calendar, w, s, id);
    hide Take, PartOf, Sound, Recurs, Enabled;
  }

  lemma EntryStep(calendar: Calendar, w: World, s: Step, id: TimerId)
    requires Sound(w) && Enabled(w, s) && Smooth(s) && !Halting(w.core) && !(s.Register? && s.q.id == id)
    requires Entered(calendar, PartOf(w, id))
    ensures var q := PartOf(Take(calendar, w, s), id);
      HasEntry(q) && StartDriven(q)
  {
    hide Sound, PartOf, AfterPop, AfterSpawn, AfterBegin, AfterFinish, Begin, Finish, ScheduleTimer, Panics, Recurs, HasEntry;
    if !Touches(w, s, id) {
      StepElsewhere(calendar, w, s, id);
    } else {
      match s
      case Pop(now) =>
        PopEntries(w, now, id);
        PopMoves(w, now, id);
      case Spawn(k) =>
        SoundPopped(w, k);
        SpawnEntries(w, k, id);
        SpawnMoves(w, k, id);
      case BeginRun(k, newId, now, _, _) => BeginEnters(calendar, w, k, newId, now, id);
      case FinishRunning(k, outcome, now, _, _) => FinishEnters(calendar, w, k, outcome, now, id);
    }
  }

  /** A registration keeps an entry or makes one. */
  lemma RegisterEnters(calendar: Calendar, w: World, s: Step, id: TimerId)
    requires Sound(w) && Enabled(w, s) && s.Register? && s.q.id == id && s.accepted && !Halting(w.core)
    requires Recurs(calendar, SpecOf(w.core.mem, s.q, s.now)) && !SpecOf(w.core.mem, s.q, s.now).overlap.Delay?
    requires PartOf(w, id).core.next.None? || HasEntry(PartOf(w, id))
    requires StartDriven(PartOf(w, id))
    ensures Entered(calendar, PartOf(Take(calendar, w, s), id))
  {
    var c, p, q := w.core, PartOf(w, id), PartOf(Take(calendar, w, s), id);
    SoundNumbered(w);
    AcceptedRunning(calendar, c, s.q, s.now, s.later);
    EngineReregister.RegistrationAdds(calendar, c, s.q, s.now, s.later, true);
    EngineReregister.ScheduledSpec(calendar, c, s.q, s.now, s.later, true);
    assert SpecOf(c.mem, s.q, s.now).schedule == s.q.schedule;
    hide Sound, ScheduleTimer, Concerning, OfTimer, SpecOf, NextRunAfter, NeedsRecord, FlightsOf;
    if EngineReregister.AddsRun(calendar, c.mem, s.q, s.now, s.later) {
      WaitingEntry(q, c.pushed);
    } else {
      KeptEntries(p, q);
    }
  }

  lemma KeptEntries(p: Part, q: Part)
    requires q.core.waiting.Keys == p.core.waiting.Keys && q.popped == p.popped && q.spawned == p.spawned && HasEntry(p)
    ensures HasEntry(q)
  {
    var k, e :| EntryAt(p, k, e);
    if k in p.core.waiting {
      assert EntryAt(q, k, q.core.waiting[k]);
    } else {
      assert EntryAt(q, k, e);
    }
  }

  lemma {:induction false} EnteredStays(calendar: Calendar, w: World, steps: seq<Step>, id: TimerId)
    requires Sound(w) && Possible(calendar, w, steps) && !Halting(w.core) && forall s :: s in steps ==> Smooth(s)
    requires AllRecur(calendar, w, steps, id, false) && Entered(calendar, PartOf(w, id))
    ensures Entered(calendar, PartOf(Reach(calendar, w, steps), id))
    decreases |steps|
  {
    hide Sound, Take, Enabled, PartOf, Recurs, Smooth, Halting, SpecOf;
    if steps != [] {
      var s := steps[0];
      StepSound(calendar, w, s);
      assert Smooth(s);
      SmoothRunning(calendar, w, s);
      if s.Register? && s.q.id == id {
        SmoothRegistration(s);
        RegisterEnters(calendar, w, s, id);
      } else {
        EnteredStep(calendar, w, s, id);
      }
      EnteredStays(calendar, Take(calendar, w, s), steps[1..], id);
    }
  }

  /**
   A timer with the skip or allow policy and a schedule that is never over, in a session undisturbed in the
   same way, however often it is registered: from its first registration on an entry of it exists.
   */
  lemma {:induction false} SkipAllowGoOn(calendar: Calendar, w: World, steps: seq<Step>, id: TimerId, n: nat)
    requires Sound(w) && Possible(calendar, w, steps) && !Halting(w.core) && forall s :: s in steps ==> Smooth(s)
    requires AllRecur(calendar, w, steps, id, false) && Ready(PartOf(w, id), n)
    ensures Asked(steps, id) ==> HasEntry(PartOf(Reach(calendar, w, steps), id))
    decreases |steps|
  {
    hide Sound, Take, Enabled, PartOf, Recurs, Smooth, Halting, SpecOf, Asked, Idle;
    if steps != [] {
      var s := steps[0];
      var v := Take(calendar, w, s);
      StepSound(calendar, w, s);
      assert Smooth(s);
      SmoothRunning(calendar, w, s);
      AskedLater(steps, id);
      if s.Register? && s.q.id == id {
        SmoothRegistration(s);
        IdleEmpty(PartOf(w, id), n);
        RegisterEnters(calendar, w, s, id);
        EnteredStays(calendar, v, steps[1..], id);
      } else {
        ReadyStep(calendar, w, s, id, n);
        SkipAllowGoOn(calendar, v, steps[1..], id, n);
      }
    } else {
      NeverAsked(id);
    }
  }
}
