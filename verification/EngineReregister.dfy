/** What further registrations do to a timer's single token. */
module EngineReregister {
  import opened Prelude
  import opened Retry
  import opened Schedules
  import opened Timers
  import opened Events
  import opened Heap
  import opened Engine
  import opened EngineRuns
  import opened EngineFrame
  import opened EngineParts
  import opened EnginePlans
  import opened EngineScript
  import EngineDelay
  import opened EngineOneShot

  // ----- When a registration keeps one token -----

  /** The timer is at most one entry or one run. */
  ghost predicate OneKey(p: Part) {
    forall j, k :: j in Keys(p) && k in Keys(p) ==> j == k
  }

  /** The request differs from what is on record. */
  predicate Differs(m: Memory, q: Request, now: Time) {
    q.id in m.specs && NeedsRecord(m, q, now)
  }

  /** What a registration leaves of a timer before it schedules a run: a change removes the waiting entries. */
  function Left(p: Part, differs: bool): Part {
    if differs then p.(core := p.core.(waiting := map[])) else p
  }

  /** The registration finds no next run on record and the schedule yields one. */
  predicate AddsRun(calendar: Calendar, m: Memory, q: Request, now: Time, later: Time) {
    (q.id !in m.nextRuns || Differs(m, q, now))
    && NextRunAfter(calendar, q.schedule, later, SpecOf(m, q, now).timezone).Some?
  }

  lemma RecordLeaves(c: Core, q: Request, now: Time)
    requires Numbered(c)
    ensures var r, differs := Registered(Record(c, q, now), q), Differs(c.mem, q, now);
      && Numbered(r) && r.pushed == c.pushed
      && OfTimer(r.bag, q.id) == (if differs then map[] else OfTimer(c.bag, q.id))
      && (q.id in r.mem.nextRuns <==> q.id in c.mem.nextRuns && !differs)
  {
    hide SpecOf;
    assert OfTimer(WithoutTimer(c.bag, q.id), q.id) == map[];
  }

  lemma RegistrationAdds(calendar: Calendar, c: Core, q: Request, now: Time, later: Time, accepted: bool)
    requires Numbered(c)
    ensures var r := ScheduleTimer(calendar, c, q, now, later, accepted);
      var kept := if Differs(c.mem, q, now) then map[] else OfTimer(c.bag, q.id);
      r.Accepted? ==>
        OfTimer(r.core.bag, q.id).Keys
        == kept.Keys + if AddsRun(calendar, c.mem, q, now, later) then {c.pushed} else {}
  {
    RecordLeaves(c, q, now);
    var g := Registered(Record(c, q, now), q);
    var next := NextRunAfter(calendar, q.schedule, later, SpecOf(c.mem, q, now).timezone);
    assert SpecOf(c.mem, q, now).schedule == q.schedule;
    hide Record, Registered, NextRunAfter, SpecOf, NeedsRecord, OfTimer, Numbered, PushNext;
    if next.Some? {
      PushNextKeys(g, q.id, next.value);
    }
  }

  lemma PushNextKeys(c: Core, id: TimerId, next: Time)
    ensures OfTimer(PushNext(c, id, next).bag, id).Keys == OfTimer(c.bag, id).Keys + {c.pushed}
  {
  }

  lemma KeysBelow(w: World, id: TimerId)
    requires Sound(w)
    ensures w.core.pushed !in Keys(PartOf(w, id))
  {
    hide Agrees, Counted, Concerning;
  }

  /**
   A registration, of any policy, keeps a timer to one token exactly if nothing of the timer is left once a
   changed specification has removed its waiting entries, or no run is scheduled: there is a next run on
   record and nothing changed, or the schedule yields none.
   */
  lemma RegistrationExact(calendar: Calendar, w: World, q: Request, now: Time, later: Time, accepted: bool)
    requires Sound(w) && Enabled(w, Register(q, now, later, accepted)) && OneKey(PartOf(w, q.id))
    requires ScheduleTimer(calendar, w.core, q, now, later, accepted).Accepted?
    ensures OneKey(PartOf(Take(calendar, w, Register(q, now, later, accepted)), q.id))
       <==> Keys(Left(PartOf(w, q.id), Differs(w.core.mem, q, now))) == {} || !AddsRun(calendar, w.core.mem, q, now, later)
  {
    var v := Take(calendar, w, Register(q, now, later, accepted));
    var p, t := PartOf(w, q.id), PartOf(v, q.id);
    SoundNumbered(w);
    KeysBelow(w, q.id);
    RegistrationAdds(calendar, w.core, q, now, later, accepted);
    var differs, adds := Differs(w.core.mem, q, now), AddsRun(calendar, w.core.mem, q, now, later);
    assert t.core.waiting.Keys == (if differs then {} else p.core.waiting.Keys) + if adds then {w.core.pushed} else {};
    hide Sound, ScheduleTimer, Concerning, OfTimer, FlightsOf, Differs, AddsRun, OneKey, Keys, Left;
    KeysAfter(p, t, differs, adds, w.core.pushed);
  }

  lemma KeysAfter(p: Part, t: Part, differs: bool, adds: bool, k: nat)
    requires t.popped == p.popped && t.spawned == p.spawned && t.flying == p.flying && k !in Keys(p) && OneKey(p)
    requires t.core.waiting.Keys == (if differs then {} else p.core.waiting.Keys) + if adds then {k} else {}
    ensures OneKey(t) <==> Keys(Left(p, differs)) == {} || !adds
  {
    var left := Keys(Left(p, differs));
    assert left <= Keys(p);
    assert Keys(t) == left + if adds then {k} else {};
    hide Keys;
    if adds && left != {} {
      var j :| j in left;
      assert j in Keys(t) && k in Keys(t) && j != k;
    }
  }

  /**
   Registering an unchanged timer keeps it to one token exactly if it has a next run on record, or no entry
   or run of it exists, or its schedule yields no next run.
   */
  lemma UnchangedExact(calendar: Calendar, w: World, q: Request, now: Time, later: Time, accepted: bool)
    requires Sound(w) && Enabled(w, Register(q, now, later, accepted)) && OneKey(PartOf(w, q.id))
    requires !Halting(w.core) && !NeedsRecord(w.core.mem, q, now)
    ensures OneKey(PartOf(Take(calendar, w, Register(q, now, later, accepted)), q.id))
       <==> q.id in w.core.mem.nextRuns || Keys(PartOf(w, q.id)) == {}
            || NextRunAfter(calendar, q.schedule, later, SpecOf(w.core.mem, q, now).timezone).None?
  {
    RegistrationExact(calendar, w, q, now, later, accepted);
    hide Sound, PartOf, OneKey, Keys, SpecOf, NextRunAfter;
  }

  // ----- Whole runs of a timer with the delay policy -----

  /** The timer and its runs in flight have the delay policy. */
  predicate Delayed(p: Part) {
    (p.core.spec.Some? ==> p.core.spec.value.overlap.Delay?) && forall k :: k in p.flying ==> p.flying[k].spec.overlap.Delay?
  }

  /** Without a reschedule the start block leaves the heap alone. */
  lemma DelayedBegin(calendar: Calendar, c: Core, entry: ScheduledTimer, newId: RunId, now: Time, due: bool, start: bool)
    requires entry.timer in c.mem.specs && c.mem.specs[entry.timer].overlap.Delay?
    ensures var b := Begin(calendar, c, entry, newId, now, due, start);
      && b.core.bag == c.bag && b.core.mem.specs == c.mem.specs
      && (b.flight.Some? ==> b.flight.value.spec == c.mem.specs[entry.timer])
  {
    var run, cleared := OrElse(entry.run, newId), ClearNext(c, entry.timer);
    var e := RunDue(entry.timer, run, entry.at);
    var d := Append(cleared, e, due);
    ApplySpecs(cleared.mem, e);
    ApplySpecs(d.mem, RunStarted(entry.timer, run, now, entry.attempt));
    hide Apply, RescheduleFrom;
  }

  /** Specifications stay, and at most one entry is pushed. */
  predicate OneMore(c: Core, d: Core) {
    && d.mem.specs == c.mem.specs && d.pushed <= c.pushed + 1
    && (d.bag == c.bag || (c.pushed in d.bag && d.bag == c.bag[c.pushed := d.bag[c.pushed]]))
  }

  lemma DelayedOk(calendar: Calendar, c: Core, f: Flight, now: Time, accepted: bool)
    ensures OneMore(c, FinishOk(calendar, c, f, now, accepted))
  {
    AppendsSpecs(c, RunSucceeded(f.spec.id, f.run, now, Elapsed(f.startedAt, now)), accepted);
    hide NextRunAfter, Apply;
  }

  lemma DelayedGiveUp(calendar: Calendar, c: Core, f: Flight, now: Time, accepted: bool)
    ensures OneMore(c, GiveUp(calendar, c, f, now, accepted))
  {
    AppendsSpecs(c, RunDead(f.spec.id, f.run, now), accepted);
    hide NextRunAfter, Apply;
  }

  lemma DelayedRetry(c: Core, f: Flight, attempt: Attempt, at: Time, accepted: bool)
    requires attempt < U32_MAX && f.spec.overlap.Delay?
    ensures OneMore(c, RetryLater(c, f, attempt, at, accepted))
  {
    AppendsSpecs(c, RunRetrying(f.spec.id, f.run, attempt + 1, at), accepted);
    hide Apply;
  }

  lemma DelayedErr(calendar: Calendar, c: Core, f: Flight, error: string, now: Time, fail: bool, next: bool)
    requires f.spec.overlap.Delay?
    ensures OneMore(c, FinishErr(calendar, c, f, error, now, fail, next))
  {
    var attempt := CurrentAttempt(c.mem, f.spec.id);
    var e := RunFailed(f.spec.id, f.run, now, error, attempt);
    var d := Append(c, e, fail);
    var r := NextRetryAt(f.spec.retry, now, attempt);
    AppendsSpecs(c, e, fail);
    BelowLimit(f.spec.retry, now, attempt);
    assert d.bag == c.bag && d.pushed == c.pushed by { hide Apply; }
    hide NextRetryAt, Append, CurrentAttempt, RetryLater, GiveUp;
    if r.RetryAt? {
      DelayedRetry(d, f, attempt, r.at, next);
    }
    DelayedGiveUp(calendar, d, f, now, next);
  }

  /** The finish block pushes at most one entry. */
  lemma DelayedFinish(calendar: Calendar, c: Core, f: Flight, outcome: Result<(), string>, now: Time, first: bool, second: bool)
    requires f.spec.overlap.Delay? && f.callable
    ensures OneMore(c, Finish(calendar, c, f, outcome, now, first, second))
  {
    hide FinishOk, FinishErr;
    if outcome.Ok? {
      DelayedOk(calendar, c, f, now, first);
    } else {
      DelayedErr(calendar, c, f, outcome.error, now, first, second);
    }
  }

  lemma AppendsSpecs(c: Core, e: Event, accepted: bool)
    requires !e.TimerCreated? && !e.TimerUpdated?
    ensures Append(c, e, accepted).mem.specs == c.mem.specs
  {
    ApplySpecs(c.mem, e);
    hide Apply;
  }

  lemma FewerKeys(p: Part, q: Part)
    requires OneKey(p) && Keys(q) <= Keys(p)
    ensures OneKey(q)
  {
    hide Keys;
  }

  lemma BeginOneKey(calendar: Calendar, w: World, k: nat, newId: RunId, now: Time, due: bool, start: bool, id: TimerId)
    requires Sound(w) && k in w.spawned && w.spawned[k].timer == id && OneKey(PartOf(w, id)) && Delayed(PartOf(w, id))
    ensures var v := AfterBegin(w, k, newId, now, Begin(calendar, w.core, w.spawned[k], newId, now, due, start));
      OneKey(PartOf(v, id)) && Delayed(PartOf(v, id))
  {
    var b := Begin(calendar, w.core, w.spawned[k], newId, now, due, start);
    var p, q := PartOf(w, id), PartOf(AfterBegin(w, k, newId, now, b), id);
    SoundSpawned(w, k);
    PlaceOf(w, k, id);
    assert p.core.spec == Some(w.core.mem.specs[id]);
    hide Sound, Begin, Concerning, FlightsOf, OneKey, AfterBegin;
    DelayedBegin(calendar, w.core, w.spawned[k], newId, now, due, start);
    BegunPart(w, k, newId, now, b, id);
    assert q.core.waiting == p.core.waiting && q.core.spec == p.core.spec;
    hide OfTimer;
    assert Keys(q) <= Keys(p);
    FewerKeys(p, q);
  }

  lemma LoneFlight(p: Part, q: Part, k: nat)
    requires OneKey(p) && k in p.flying && k !in p.core.waiting && k !in p.popped && k !in p.spawned
    requires q.popped == p.popped && q.spawned == p.spawned && q.flying == p.flying - {k}
    requires p.core.waiting == map[] ==> forall i, j :: i in q.core.waiting && j in q.core.waiting ==> i == j
    ensures OneKey(q)
  {
    assert k in Keys(p);
    assert p.core.waiting.Keys <= Keys(p) && p.popped.Keys <= Keys(p) && p.spawned.Keys <= Keys(p) && p.flying.Keys <= Keys(p);
    assert p.core.waiting == map[] && q.popped == map[] && q.spawned == map[] && q.flying == map[];
    assert Keys(q) == q.core.waiting.Keys;
  }

  lemma FinishOneKey(calendar: Calendar, w: World, k: nat, outcome: Result<(), string>, now: Time, first: bool, second: bool,
                     id: TimerId)
    requires Sound(w) && k in w.executing && w.executing[k].spec.id == id && OneKey(PartOf(w, id)) && Delayed(PartOf(w, id))
    ensures var v := AfterFinish(w, k, now, Finish(calendar, w.core, w.executing[k], outcome, now, first, second));
      OneKey(PartOf(v, id)) && Delayed(PartOf(v, id))
  {
    var c := Finish(calendar, w.core, w.executing[k], outcome, now, first, second);
    var p, q := PartOf(w, id), PartOf(AfterFinish(w, k, now, c), id);
    SoundExecuting(w, k);
    PlaceOf(w, k, id);
    hide Sound, Finish, Concerning, FlightsOf, OneKey, AfterFinish;
    DelayedFinish(calendar, w.core, w.executing[k], outcome, now, first, second);
    FinishedPart(w, k, now, c, id);
    assert q.core.spec == p.core.spec;
    AtMostOne(w.core.bag, c.bag, w.core.pushed, id);
    LoneFlight(p, q, k);
  }

  lemma AtMostOne(bag: Bag, after: Bag, k: nat, id: TimerId)
    requires after == bag || (k in after && after == bag[k := after[k]])
    ensures OfTimer(bag, id) == map[] ==> forall i, j :: i in OfTimer(after, id) && j in OfTimer(after, id) ==> i == j
  {
    assert forall i :: i in OfTimer(after, id) && i != k ==> i in OfTimer(bag, id);
  }

  lemma StepOneKey(calendar: Calendar, w: World, s: Step, id: TimerId)
    requires Sound(w) && Enabled(w, s) && !(s.Register? && s.q.id == id) && OneKey(PartOf(w, id)) && Delayed(PartOf(w, id))
    ensures OneKey(PartOf(Take(calendar, w, s), id)) && Delayed(PartOf(Take(calendar, w, s), id))
  {
    var v := Take(calendar, w, s);
    var p, q := PartOf(w, id), PartOf(v, id);
    hide Sound, PartOf, AfterPop, AfterSpawn, AfterBegin, AfterFinish, Begin, Finish, ScheduleTimer, Panics, OpenedCore, OneKey,
         Delayed;
    if !Touches(w, s, id) {
      StepElsewhere(calendar, w, s, id);
    } else {
      match s
      case Pop(now) =>
        PopMoves(w, now, id);
        MovedOneKey(p, q);
      case Spawn(k) =>
        SpawnMoves(w, k, id);
        MovedOneKey(p, q);
      case LeaveLoop =>
        LeaveMoves(w, id);
        MovedOneKey(p, q);
      case BeginRun(k, newId, now, due, start) => BeginOneKey(calendar, w, k, newId, now, due, start, id);
      case FinishRunning(k, outcome, now, first, second) => FinishOneKey(calendar, w, k, outcome, now, first, second, id);
      case Restart => RestartOneKey(w, id);
    }
  }

  lemma MovedOneKey(p: Part, q: Part)
    requires Moved(p, q) && OneKey(p) && Delayed(p)
    ensures OneKey(q) && Delayed(q)
  {
    MovedKeys(p, q);
    FewerKeys(p, q);
    hide OneKey, EntryAt;
  }

  lemma RestartOneKey(w: World, id: TimerId)
    requires Sound(w) && Delayed(PartOf(w, id))
    ensures var v := World(OpenedCore(w.core), map[], map[], map[], w.clock, w.used);
      OneKey(PartOf(v, id)) && Delayed(PartOf(v, id))
  {
    assert OnDisk(w.core).specs == w.core.mem.specs by {
      assert Agrees(w.core);
      assert DurableOf(w.core.mem) == DurableOf(OnDisk(w.core));
    }
    hide Sound, OnDisk, Concerning;
  }

  /** Every registration of the timer resolves to the delay policy. */
  predicate RunDelayed(calendar: Calendar, w: World, steps: seq<Step>, id: TimerId)
    requires Possible(calendar, w, steps)
    decreases |steps|
  {
    steps == [] || (
      && (steps[0].Register? && steps[0].q.id == id ==> SpecOf(w.core.mem, steps[0].q, steps[0].now).overlap.Delay?)
      && RunDelayed(calendar, Take(calendar, w, steps[0]), steps[1..], id))
  }

  /** A registration that is refused, finds nothing of the timer left, or schedules nothing. */
  predicate Harmless(calendar: Calendar, w: World, s: Step)
    requires s.Register?
  {
    || ScheduleTimer(calendar, w.core, s.q, s.now, s.later, s.accepted).Refused?
    || Keys(Left(PartOf(w, s.q.id), Differs(w.core.mem, s.q, s.now))) == {}
    || !AddsRun(calendar, w.core.mem, s.q, s.now, s.later)
  }

  predicate AllHarmless(calendar: Calendar, w: World, steps: seq<Step>, id: TimerId)
    requires Possible(calendar, w, steps)
    decreases |steps|
  {
    steps == [] || (
      && (steps[0].Register? && steps[0].q.id == id ==> Harmless(calendar, w, steps[0]))
      && AllHarmless(calendar, Take(calendar, w, steps[0]), steps[1..], id))
  }

  ghost predicate AlwaysOne(calendar: Calendar, w: World, steps: seq<Step>, id: TimerId)
    requires Possible(calendar, w, steps)
    decreases |steps|
  {
    OneKey(PartOf(w, id)) && (steps == [] || AlwaysOne(calendar, Take(calendar, w, steps[0]), steps[1..], id))
  }

  lemma RegisterDelayed(calendar: Calendar, w: World, s: Step)
    requires Sound(w) && Enabled(w, s) && s.Register? && OneKey(PartOf(w, s.q.id)) && Delayed(PartOf(w, s.q.id))
    requires SpecOf(w.core.mem, s.q, s.now).overlap.Delay?
    ensures Delayed(PartOf(Take(calendar, w, s), s.q.id))
    ensures OneKey(PartOf(Take(calendar, w, s), s.q.id)) <==> Harmless(calendar, w, s)
  {
    var r := ScheduleTimer(calendar, w.core, s.q, s.now, s.later, s.accepted);
    if r.Accepted? {
      ScheduledSpec(calendar, w.core, s.q, s.now, s.later, s.accepted);
      RegistrationExact(calendar, w, s.q, s.now, s.later, s.accepted);
      hide Sound, ScheduleTimer, Concerning, OfTimer, OneKey, Keys, SpecOf, AddsRun, Differs, Left;
    } else {
      hide Sound, ScheduleTimer, Concerning, OfTimer, OneKey, Keys, SpecOf, AddsRun, Differs, Left;
    }
  }

  lemma ScheduledSpec(calendar: Calendar, c: Core, q: Request, now: Time, later: Time, accepted: bool)
    ensures var r := ScheduleTimer(calendar, c, q, now, later, accepted);
      r.Accepted? ==> Look(r.core.mem.specs, q.id) == Some(SpecOf(c.mem, q, now))
  {
    assert SpecOf(c.mem, q, now).id == q.id;
    ApplySpecs(c.mem, TimerCreated(SpecOf(c.mem, q, now)));
    ApplySpecs(c.mem, TimerUpdated(SpecOf(c.mem, q, now)));
    hide Apply, SpecOf, NextRunAfter;
  }

  /**
   Over any sessions, whatever is on record at the start: a timer always registered with the delay policy
   is at most one entry or run throughout a run exactly if every registration of it is harmless.
   */
  lemma {:induction false} DelayTokenExact(calendar: Calendar, w: World, steps: seq<Step>, id: TimerId)
    requires Sound(w) && Possible(calendar, w, steps) && RunDelayed(calendar, w, steps, id)
    requires OneKey(PartOf(w, id)) && Delayed(PartOf(w, id))
    ensures AlwaysOne(calendar, w, steps, id) <==> AllHarmless(calendar, w, steps, id)
    decreases |steps|
  {
    hide Sound, Take, Enabled, PartOf, OneKey, Delayed, Harmless;
    if steps != [] {
      var s := steps[0];
      var v := Take(calendar, w, s);
      StepSound(calendar, w, s);
      if s.Register? && s.q.id == id {
        RegisterDelayed(calendar, w, s);
      } else {
        StepOneKey(calendar, w, s, id);
      }
      if OneKey(PartOf(v, id)) {
        DelayTokenExact(calendar, v, steps[1..], id);
      }
    }
  }

  // ----- Two runs at once under the delay policy -----

  /** The start block of a delay timer logs two events and schedules nothing. */
  lemma DelayedIs(calendar: Calendar, c: Core, spec: TimerSpec, e: ScheduledTimer, newId: RunId, now: Time)
    requires spec.overlap.Delay? && e.timer == spec.id && e.run.None?
    requires spec.id in c.mem.specs && c.mem.specs[spec.id] == spec && spec.id in c.registry
    ensures var due, started := RunDue(spec.id, newId, e.at), RunStarted(spec.id, newId, now, e.attempt);
      Begin(calendar, c, e, newId, now, true, true)
      == Begun(Append(Append(ClearNext(c, spec.id), due, true), started, true), Some(Flight(spec, newId, now, true)))
  {
    hide Apply;
  }

  lemma StillClear(c: Core, e: Event, id: TimerId)
    requires id !in c.mem.nextRuns
    ensures id !in Append(c, e, true).mem.nextRuns
  {
    ApplyNext(c.mem, e);
    hide Apply;
  }

  lemma DelayedBegins(calendar: Calendar, c: Core, spec: TimerSpec, f: Facts, e: ScheduledTimer, newId: RunId, now: Time)
    requires spec.overlap.Delay? && Shows(c, spec, f) && e.timer == spec.id && e.run.None?
    ensures var b := Begin(calendar, c, e, newId, now, true, true);
      && b.flight == Some(Flight(spec, newId, now, true)) && spec.id !in b.core.mem.nextRuns
      && b.core.log == c.log + [RunDue(spec.id, newId, e.at), RunStarted(spec.id, newId, now, e.attempt)]
      && Shows(b.core, spec, f.(running := true, started := f.started + {newId}))
  {
    var due, started := RunDue(spec.id, newId, e.at), RunStarted(spec.id, newId, now, e.attempt);
    var cleared := ClearNext(c, spec.id);
    assert spec.id !in cleared.mem.nextRuns;
    assert AfterEvent(AfterEvent(f, due), started) == f.(running := true, started := f.started + {newId});
    KnowsTimer(c, spec, f);
    ClearShows(c, spec, f);
    assert Append(Append(cleared, due, true), started, true).log == c.log + [due, started];
    hide Shows, Append, AfterEvent, Begin, ClearNext;
    DelayedIs(calendar, c, spec, e, newId, now);
    AppendShows(cleared, spec, f, due);
    AppendShows(Append(cleared, due, true), spec, AfterEvent(f, due), started);
    StillClear(cleared, due, spec.id);
    StillClear(Append(cleared, due, true), started, spec.id);
  }

  lemma DelayedTurn(calendar: Calendar, w: World, spec: TimerSpec, f: Facts, k: nat, at: Time, newId: RunId,
                    executing: map<nat, Flight>, used: set<RunId>, clock: Time) returns (v: World)
    requires spec.overlap.Delay? && clock <= at && newId !in used && k !in executing
    requires f.bag == map[k := ScheduledTimer(spec.id, at, None, 1)] && Stands(w, spec, f, executing, used, clock)
    ensures Possible(calendar, w, Turn(k, newId, at)) && v == Reach(calendar, w, Turn(k, newId, at))
    ensures spec.id !in v.core.mem.nextRuns
    ensures v.core.log == w.core.log + [RunDue(spec.id, newId, at), RunStarted(spec.id, newId, at, 1)]
    ensures Stands(v, spec, f.(bag := map[], active := f.active + 1, running := true, started := f.started + {newId}),
                   executing[k := Flight(spec, newId, at, true)], used + {newId}, at)
  {
    var e := ScheduledTimer(spec.id, at, None, 1);
    var p := AfterPop(w, at);
    var q := AfterSpawn(p, k);
    SpawnShows(w, spec, f, k, e, at);
    assert w.core.runtime == Runtime(true, false, false, f.active) by { hide Concerning; }
    hide Shows, Begin, DueKeys;
    DelayedBegins(calendar, q.core, spec, f.(bag := map[], active := f.active + 1), e, newId, at);
    v := AfterBegin(q, k, newId, at, Begin(calendar, q.core, e, newId, at, true, true));
    assert q.spawned - {k} == map[];
    TurnReaches(calendar, w, k, newId, at);
  }

  lemma FirstRegistration(calendar: Calendar, spec: TimerSpec, clock: Time, first: Time)
    requires spec.createdAt == clock && NextRunAfter(calendar, spec.schedule, clock, spec.timezone) == Some(first)
    ensures var r := ScheduleTimer(calendar, NEW_CORE, Asking(spec), clock, clock, true);
      r.Accepted? && !r.core.runtime.stopped && !r.core.runtime.started && r.core.log == [TimerCreated(spec)]
      && Shows(r.core.(runtime := r.core.runtime.(started := true)), spec,
               Facts(map[0 := ScheduledTimer(spec.id, first, None, 1)], 1, 0, false, 1, {}))
  {
    assert SpecOf(NEW_CORE.mem, Asking(spec), clock) == spec;
    ConcerningAppend([], TimerCreated(spec), spec.id);
    assert [] + [TimerCreated(spec)] == [TimerCreated(spec)];
    StartedAppend([], TimerCreated(spec));
    assert StartedRuns([]) == {} && Concerning([], spec.id) == [];
    hide StartedRuns, Concerning, NextRunAfter, SpecOf;
  }

  lemma SecondRegistration(calendar: Calendar, c: Core, spec: TimerSpec, f: Facts, now: Time, second: Time)
    requires Shows(c, spec, f) && f.bag == map[] && f.running && spec.id !in c.mem.nextRuns
    requires NextRunAfter(calendar, spec.schedule, now, spec.timezone) == Some(second)
    ensures var r := ScheduleTimer(calendar, c, Asking(spec), now, now, true);
      r.Accepted?
      && Shows(r.core, spec, f.(bag := map[f.pushed := ScheduledTimer(spec.id, second, None, 1)], pushed := f.pushed + 1))
  {
    KnowsTimer(c, spec, f);
    assert SpecOf(c.mem, Asking(spec), now) == spec;
    var g := Registered(c, Asking(spec));
    assert Shows(g, spec, f) by { hide Concerning, StartedRuns; }
    PushShows(g, spec, f, ScheduledTimer(spec.id, second, None, 1));
    hide Shows, SpecOf, NextRunAfter, PushNext;
  }

  function Again(spec: TimerSpec, now: Time): Step {
    Register(Asking(spec), now, now, true)
  }

  /** The registration, the start of the loop, and the first run's start block. */
  lemma FirstRuns(calendar: Calendar, spec: TimerSpec, clock: Time, first: Time) returns (v: World)
    requires spec.overlap.Delay? && spec.createdAt == clock <= first
    requires NextRunAfter(calendar, spec.schedule, clock, spec.timezone) == Some(first)
    ensures var steps := [Again(spec, clock), StartLoop] + Turn(0, "r1", first);
      Possible(calendar, NewWorldAt(clock), steps) && v == Reach(calendar, NewWorldAt(clock), steps)
    ensures spec.id !in v.core.mem.nextRuns
    ensures v.core.log == [TimerCreated(spec), RunDue(spec.id, "r1", first), RunStarted(spec.id, "r1", first, 1)]
    ensures Stands(v, spec, Facts(map[], 1, 1, true, 1, {"r1"}), map[0 := Flight(spec, "r1", first, true)], {"r1"}, first)
  {
    FirstRegistration(calendar, spec, clock, first);
    var f := Facts(map[0 := ScheduledTimer(spec.id, first, None, 1)], 1, 0, false, 1, {});
    hide ScheduleTimer, Shows, Asking;
    var w := NewWorldAt(clock);
    var u := Take(calendar, w, Again(spec, clock));
    var x := Take(calendar, u, StartLoop);
    OneStep(calendar, w, Again(spec, clock));
    OneStep(calendar, u, StartLoop);
    Concatenate(calendar, w, [Again(spec, clock)], [StartLoop]);
    assert [Again(spec, clock)] + [StartLoop] == [Again(spec, clock), StartLoop];
    assert Stands(x, spec, f, map[], {}, clock);
    hide Take, Possible, Reach, Stands, NewWorldAt;
    v := DelayedTurn(calendar, x, spec, f, 0, first, "r1", map[], {}, clock);
    Concatenate(calendar, w, [Again(spec, clock), StartLoop], Turn(0, "r1", first));
    assert {} + {"r1"} == {"r1"};
  }

  /** Registering again while the run executes, and the second run's start block. */
  lemma SecondRuns(calendar: Calendar, w: World, spec: TimerSpec, first: Time, second: Time) returns (v: World)
    requires spec.overlap.Delay? && first <= second && spec.id !in w.core.mem.nextRuns
    requires NextRunAfter(calendar, spec.schedule, first, spec.timezone) == Some(second)
    requires var flying := map[0 := Flight(spec, "r1", first, true)];
      Stands(w, spec, Facts(map[], 1, 1, true, 1, {"r1"}), flying, {"r1"}, first)
    ensures var steps := [Again(spec, first)] + Turn(1, "r2", second);
      Possible(calendar, w, steps) && v == Reach(calendar, w, steps)
    ensures v.executing == map[0 := Flight(spec, "r1", first, true), 1 := Flight(spec, "r2", second, true)]
  {
    var flying := map[0 := Flight(spec, "r1", first, true)];
    SecondRegistration(calendar, w.core, spec, Facts(map[], 1, 1, true, 1, {"r1"}), first, second);
    var f := Facts(map[1 := ScheduledTimer(spec.id, second, None, 1)], 2, 1, true, 1, {"r1"});
    hide ScheduleTimer, Shows, Asking;
    var u := Take(calendar, w, Again(spec, first));
    OneStep(calendar, w, Again(spec, first));
    assert Stands(u, spec, f, flying, {"r1"}, first);
    hide Take, Possible, Reach;
    v := DelayedTurn(calendar, u, spec, f, 1, second, "r2", flying, {"r1"}, first);
    Concatenate(calendar, w, [Again(spec, first)], Turn(1, "r2", second));
  }

  /** The registration, made twice: once at the start, and unchanged while the first run executes. */
  function Twice(spec: TimerSpec, first: Time, second: Time): seq<Step> {
    [Again(spec, spec.createdAt), StartLoop] + Turn(0, "r1", first) + ([Again(spec, first)] + Turn(1, "r2", second))
  }

  /**
   Every timer with the delay policy whose schedule has two runs ahead can be made to overlap itself:
   registered again, unchanged, while its first run executes, it executes both.
   */
  lemma DelayOverlaps(calendar: Calendar, spec: TimerSpec, first: Time, second: Time)
    requires spec.overlap.Delay? && spec.createdAt <= first <= second
    requires NextRunAfter(calendar, spec.schedule, spec.createdAt, spec.timezone) == Some(first)
    requires NextRunAfter(calendar, spec.schedule, first, spec.timezone) == Some(second)
    ensures Possible(calendar, NewWorldAt(spec.createdAt), Twice(spec, first, second))
    ensures Reach(calendar, NewWorldAt(spec.createdAt), Twice(spec, first, second)).executing
         == map[0 := Flight(spec, "r1", first, true), 1 := Flight(spec, "r2", second, true)]
  {
    hide Possible, Reach, Stands, NextRunAfter, NewWorldAt;
    var w := FirstRuns(calendar, spec, spec.createdAt, first);
    var v := SecondRuns(calendar, w, spec, first, second);
    Concatenate(calendar, NewWorldAt(spec.createdAt), [Again(spec, spec.createdAt), StartLoop] + Turn(0, "r1", first),
                [Again(spec, first)] + Turn(1, "r2", second));
  }

  /** In particular a timer that is due every minute. */
  lemma MinutelyOverlaps(calendar: Calendar)
    requires calendar.isZone("UTC")
    ensures var minute := 60 * TICKS_PER_SECOND;
      var spec := TimerSpec("t", Every(60), DEFAULT_RETRY, "UTC", 0, Delay);
      Possible(calendar, NewWorldAt(0), Twice(spec, minute, 2 * minute))
      && Reach(calendar, NewWorldAt(0), Twice(spec, minute, 2 * minute)).executing.Keys == {0, 1}
  {
    var minute := 60 * TICKS_PER_SECOND;
    DelayOverlaps(calendar, TimerSpec("t", Every(60), DEFAULT_RETRY, "UTC", 0, Delay), minute, 2 * minute);
    hide Possible, Reach, Twice, NewWorldAt;
  }
}
