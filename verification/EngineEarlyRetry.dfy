/**
 Which retry policies keep a one-shot timer to a single run: those that do not fire early, and no
 others. For every other policy a run, from an empty data directory, starts two run ids.
 */
module EngineEarlyRetry {
  import opened Prelude
  import opened Retry
  import opened Schedules
  import opened Timers
  import opened Events
  import opened Heap
  import opened Engine
  import opened EngineRuns
  import opened EngineFrame
  import opened EngineParts
  import opened EnginePlans
  import opened EngineOneShot
  import opened EngineScript
  import EngineDelay

  /** A one-shot timer that is rescheduled when a run of it starts. */
  predicate Renews(calendar: Calendar, spec: TimerSpec) {
    IsOneShot(spec.schedule) && !spec.overlap.Delay? && calendar.isZone(spec.timezone)
  }

  function Fire(spec: TimerSpec): Time {
    if IsOneShot(spec.schedule) then FireTime(spec.schedule) else 0
  }

  function Fresh(spec: TimerSpec): ScheduledTimer {
    ScheduledTimer(spec.id, Fire(spec), None, 1)
  }

  /** The facts after rescheduling: from before the fire time a fresh run is due, from then on nothing. */
  function Renewed(spec: TimerSpec, f: Facts, from: Time): Facts {
    if from < Fire(spec) then f.(bag := map[f.pushed := Fresh(spec)], pushed := f.pushed + 1) else f
  }

  lemma RescheduleShows(calendar: Calendar, c: Core, spec: TimerSpec, f: Facts, from: Time)
    requires Renews(calendar, spec) && Shows(c, spec, f) && f.bag == map[]
    ensures Shows(RescheduleFrom(calendar, c, spec, from), spec, Renewed(spec, f, from))
  {
    OneShotNext(calendar, spec.schedule, from, spec.timezone);
    ClearShows(c, spec, f);
    PushShows(c, spec, f, Fresh(spec));
    assert !Halting(c) by { hide StartedRuns, Concerning; }
    hide Shows, NextRunAfter, FireTime;
  }

  lemma StartShows(calendar: Calendar, c: Core, spec: TimerSpec, f: Facts, e: ScheduledTimer, run: RunId, now: Time)
    requires Renews(calendar, spec) && Shows(c, spec, f) && f.bag == map[] && !f.running && e.timer == spec.id
    ensures var b := StartRun(calendar, c, spec, e, run, now, true, true);
      && b.flight == Some(Flight(spec, run, now, true))
      && Shows(b.core, spec, Underway(spec, f, e, run))
  {
    var due, started := RunDue(spec.id, run, e.at), RunStarted(spec.id, run, now, e.attempt);
    var g := AfterEvent(AfterEvent(f, due), started);
    assert g == f.(running := true, started := f.started + {run});
    KnowsTimer(c, spec, f);
    hide Shows, Append, RescheduleFrom, FinishRun, Renewed;
    AppendShows(c, spec, f, due);
    AppendShows(Append(c, due, true), spec, AfterEvent(f, due), started);
    hide AfterEvent;
    RescheduleShows(calendar, Append(Append(c, due, true), started, true), spec, g, e.at);
  }

  /** The facts after a run has begun: an early entry has made the next run due. */
  function Underway(spec: TimerSpec, f: Facts, e: ScheduledTimer, run: RunId): Facts {
    Renewed(spec, f.(running := true, started := f.started + {run}), e.at)
  }

  lemma BeginShows(calendar: Calendar, c: Core, spec: TimerSpec, f: Facts, e: ScheduledTimer, newId: RunId, now: Time)
    requires Renews(calendar, spec) && Shows(c, spec, f) && f.bag == map[] && !f.running && e.timer == spec.id
    ensures var b := Begin(calendar, c, e, newId, now, true, true);
      && b.flight == Some(Flight(spec, OrElse(e.run, newId), now, true))
      && Shows(b.core, spec, Underway(spec, f, e, OrElse(e.run, newId)))
  {
    KnowsTimer(c, spec, f);
    ClearShows(c, spec, f);
    StartShows(calendar, ClearNext(c, spec.id), spec, f, e, OrElse(e.run, newId), now);
    hide Shows, ClearNext, Overlaps, StartRun, SkipRun, FinishRun, Underway, Renews;
  }

  lemma OkShows(calendar: Calendar, c: Core, spec: TimerSpec, f: Facts, flight: Flight, now: Time)
    requires Shows(c, spec, f) && f.active == 1 && flight.callable && flight.spec == spec && !spec.overlap.Delay?
    ensures Shows(Finish(calendar, c, flight, Ok(()), now, true, true), spec, f.(running := false, attempt := 1, active := 0))
  {
    var e := RunSucceeded(spec.id, flight.run, now, Elapsed(flight.startedAt, now));
    AppendShows(c, spec, f, e);
    ClearShows(Append(c, e, true), spec, AfterEvent(f, e));
    hide Shows, Append, FinishRun;
  }

  /** The facts after a failed run has been put off until `at`. */
  function PutOff(spec: TimerSpec, f: Facts, run: RunId, at: Time): Facts
    requires f.attempt < U32_MAX
  {
    f.(running := false, attempt := f.attempt + 1, bag := map[f.pushed := ScheduledTimer(spec.id, at, Some(run), f.attempt + 1)],
       pushed := f.pushed + 1)
  }

  lemma ErrShows(calendar: Calendar, c: Core, spec: TimerSpec, f: Facts, flight: Flight, now: Time, at: Time)
    requires Shows(c, spec, f) && f.active == 1 && flight.callable && flight.spec == spec && f.bag == map[]
    requires !spec.overlap.Delay? && NextRetryAt(spec.retry, now, f.attempt) == RetryAt(at)
    ensures f.attempt < U32_MAX && !Panics(c, flight, Err("failed"), now)
    ensures Shows(Finish(calendar, c, flight, Err("failed"), now, true, true), spec,
                  PutOff(spec, f, flight.run, at).(active := 0))
  {
    var failed := RunFailed(spec.id, flight.run, now, "failed", f.attempt);
    var d := Append(c, failed, true);
    assert AfterEvent(f, failed) == f;
    KnowsTimer(c, spec, f);
    assert f.attempt < U32_MAX;
    hide Shows, Append, RetryLater, FinishRun, NextRetryAt, CurrentAttempt, AfterEvent, PutOff;
    AppendShows(c, spec, f, failed);
    LaterShows(d, spec, f, flight, at);

    ClearShows(RetryLater(d, flight, f.attempt, at, true), spec, PutOff(spec, f, flight.run, at));
  }

  lemma LaterShows(c: Core, spec: TimerSpec, f: Facts, flight: Flight, at: Time)
    requires Shows(c, spec, f) && flight.spec == spec && f.bag == map[] && f.attempt < U32_MAX && !spec.overlap.Delay?
    ensures Shows(RetryLater(c, flight, f.attempt, at, true), spec, PutOff(spec, f, flight.run, at))
  {
    var retrying := RunRetrying(spec.id, flight.run, f.attempt + 1, at);
    var entry := ScheduledTimer(spec.id, at, Some(flight.run), f.attempt + 1);
    var g := f.(running := false, attempt := f.attempt + 1);
    assert g == AfterEvent(f, retrying);
    LaterPushes(c, flight, f.attempt, at);
    var u := Unschedule(c, spec.id);
    var r := Append(u, retrying, true);
    hide Shows, Append, Push, Unschedule, Halting, RetryLater, AfterEvent;
    ClearShows(c, spec, f);
    AppendShows(u, spec, f, retrying);
    KnowsTimer(r, spec, g);
    PushShows(r, spec, g, entry);
  }

  lemma LaterPushes(c: Core, flight: Flight, attempt: Attempt, at: Time)
    requires !flight.spec.overlap.Delay? && attempt < U32_MAX
    ensures var id := flight.spec.id;
      var r := Append(Unschedule(c, id), RunRetrying(id, flight.run, attempt + 1, at), true);
      !Halting(r) ==>
        RetryLater(c, flight, attempt, at, true) == Push(r, ScheduledTimer(id, at, Some(flight.run), attempt + 1))
  {
    hide Append, Push, Unschedule, Halting;
  }

  // ----- The run -----

  lemma TurnStands(calendar: Calendar, w: World, spec: TimerSpec, f: Facts, k: nat, e: ScheduledTimer, newId: RunId,
                   used: set<RunId>, clock: Time, now: Time) returns (v: World)
    requires Renews(calendar, spec) && e.timer == spec.id && e.at <= now && clock <= now && newId !in used
    requires f.bag == map[k := e] && f.active == 0 && !f.running && Stands(w, spec, f, map[], used, clock)
    ensures Possible(calendar, w, Turn(k, newId, now)) && v == Reach(calendar, w, Turn(k, newId, now))
    ensures var run := OrElse(e.run, newId);
      Stands(v, spec, Underway(spec, f.(bag := map[], active := 1), e, run), map[k := Flight(spec, run, now, true)],
             used + {newId}, now)
  {
    var p := AfterPop(w, now);
    var q := AfterSpawn(p, k);
    SpawnShows(w, spec, f, k, e, now);
    assert w.core.runtime == Runtime(true, false, false, 0) by { hide StartedRuns, Concerning; }
    hide Shows, Begin, DueKeys, Underway, Renews;
    BeginShows(calendar, q.core, spec, f.(bag := map[], active := 1), e, newId, now);
    v := AfterBegin(q, k, newId, now, Begin(calendar, q.core, e, newId, now, true, true));
    assert q.spawned - {k} == map[];
    TurnReaches(calendar, w, k, newId, now);
  }

  // ----- From the empty data directory -----

  /** The engine opens one instant before the fire time. */
  function Start(spec: TimerSpec): World {
    NewWorldAt(Fire(spec) - 1)
  }

  /** The steps lead from the start to the world, registering nothing but the timer. */
  predicate Leads(calendar: Calendar, spec: TimerSpec, steps: seq<Step>, w: World) {
    && Possible(calendar, Start(spec), steps) && w == Reach(calendar, Start(spec), steps)
    && forall i :: 0 <= i < |steps| && steps[i].Register? ==> steps[i].q == Asking(spec)
  }

  lemma LeadsOn(calendar: Calendar, spec: TimerSpec, steps: seq<Step>, w: World, more: seq<Step>)
    requires Leads(calendar, spec, steps, w) && Possible(calendar, w, more)
    requires forall i :: 0 <= i < |more| ==> !more[i].Register?
    ensures Leads(calendar, spec, steps + more, Reach(calendar, w, more))
  {
    Concatenate(calendar, Start(spec), steps, more);
    hide Possible, Reach, Start, Asking;
  }

  function Opening(spec: TimerSpec): seq<Step> {
    [Register(Asking(spec), Fire(spec) - 1, Fire(spec) - 1, true), StartLoop]
  }

  function Registering(spec: TimerSpec): Facts {
    Facts(map[0 := Fresh(spec)], 1, 0, false, 1, {})
  }

  lemma RegisterShows(calendar: Calendar, spec: TimerSpec)
    requires Renews(calendar, spec) && spec.createdAt == Fire(spec) - 1
    ensures var r := ScheduleTimer(calendar, NEW_CORE, Asking(spec), Fire(spec) - 1, Fire(spec) - 1, true);
      r.Accepted? && !r.core.runtime.stopped && !r.core.runtime.started
      && Shows(r.core.(runtime := r.core.runtime.(started := true)), spec, Registering(spec))
  {
    OneShotNext(calendar, spec.schedule, Fire(spec) - 1, spec.timezone);
    assert SpecOf(NEW_CORE.mem, Asking(spec), Fire(spec) - 1) == spec;
    ConcerningAppend([], TimerCreated(spec), spec.id);
    assert [] + [TimerCreated(spec)] == [TimerCreated(spec)];
    StartedAppend([], TimerCreated(spec));
    assert StartedRuns([]) == {} && Concerning([], spec.id) == [];
    hide StartedRuns, Concerning, NextRunAfter, SpecOf;
  }

  lemma OpeningStands(calendar: Calendar, spec: TimerSpec) returns (v: World)
    requires Renews(calendar, spec) && spec.createdAt == Fire(spec) - 1
    ensures Leads(calendar, spec, Opening(spec), v)
    ensures Stands(v, spec, Registering(spec), map[], {}, Fire(spec) - 1)
  {
    RegisterShows(calendar, spec);
    var s := Register(Asking(spec), Fire(spec) - 1, Fire(spec) - 1, true);
    hide ScheduleTimer, Shows, Asking, Fire, Registering;
    var u := Take(calendar, Start(spec), s);
    v := Take(calendar, u, StartLoop);
    OneStep(calendar, Start(spec), s);
    OneStep(calendar, u, StartLoop);
    Concatenate(calendar, Start(spec), [s], [StartLoop]);
    assert [s] + [StartLoop] == Opening(spec);
  }

  lemma ThenTurn(calendar: Calendar, spec: TimerSpec, before: seq<Step>, w: World, f: Facts, k: nat, e: ScheduledTimer,
                 newId: RunId, used: set<RunId>, clock: Time, now: Time) returns (steps: seq<Step>, v: World)
    requires Renews(calendar, spec) && e.timer == spec.id && e.at <= now && clock <= now && newId !in used
    requires f.bag == map[k := e] && f.active == 0 && !f.running
    requires Leads(calendar, spec, before, w) && Stands(w, spec, f, map[], used, clock)
    ensures Leads(calendar, spec, steps, v)
    ensures var run := OrElse(e.run, newId);
      Stands(v, spec, Underway(spec, f.(bag := map[], active := 1), e, run), map[k := Flight(spec, run, now, true)],
             used + {newId}, now)
  {
    v := TurnStands(calendar, w, spec, f, k, e, newId, used, clock, now);
    hide Stands, Leads, Possible, Reach;
    steps := before + Turn(k, newId, now);
    LeadsOn(calendar, spec, before, w, Turn(k, newId, now));
  }

  /** An entry that is not early: its run starts, fails and is put off. */
  lemma ThenFail(calendar: Calendar, spec: TimerSpec, before: seq<Step>, w: World, f: Facts, k: nat, e: ScheduledTimer,
                 newId: RunId, used: set<RunId>, clock: Time, now: Time, at: Time) returns (steps: seq<Step>, v: World)
    requires Renews(calendar, spec) && e.timer == spec.id && Fire(spec) <= e.at <= now && clock <= now && newId !in used
    requires f.bag == map[k := e] && f.active == 0 && !f.running
    requires Leads(calendar, spec, before, w) && Stands(w, spec, f, map[], used, clock)
    requires NextRetryAt(spec.retry, now, f.attempt) == RetryAt(at) && f.attempt < U32_MAX
    ensures Leads(calendar, spec, steps, v)
    ensures var run := OrElse(e.run, newId);
      Stands(v, spec, PutOff(spec, f.(started := f.started + {run}), run, at), map[], used + {newId}, now)
  {
    var run := OrElse(e.run, newId);
    var g := f.(bag := map[], active := 1, running := true, started := f.started + {run});
    var flight := Flight(spec, run, now, true);
    steps, v := ThenTurn(calendar, spec, before, w, f, k, e, newId, used, clock, now);
    assert Underway(spec, f.(bag := map[], active := 1), e, run) == g;
    assert PutOff(spec, g, run, at).(active := 0) == PutOff(spec, f.(started := f.started + {run}), run, at);
    assert Shows(v.core, spec, g) by { hide Shows; }
    hide Stands, Leads, Possible, Reach, Shows, Finish, Panics, PutOff, NextRetryAt, Underway;
    ErrShows(calendar, v.core, spec, g, flight, now, at);
    var s := FinishRunning(k, Err("failed"), now, true, true);
    var u := FinishStands(calendar, v, spec, k, g, flight, Err("failed"), used + {newId}, now,
                          PutOff(spec, g, run, at).(active := 0));
    LeadsOn(calendar, spec, steps, v, [s]);
    steps, v := steps + [s], u;
  }

  /** An early retry: its run starts and succeeds, and a fresh run is due. */
  lemma ThenRenew(calendar: Calendar, spec: TimerSpec, before: seq<Step>, w: World, f: Facts, k: nat, e: ScheduledTimer,
                  newId: RunId, used: set<RunId>, now: Time) returns (steps: seq<Step>, v: World)
    requires Renews(calendar, spec) && e.timer == spec.id && e.at < Fire(spec) <= now && newId !in used
    requires f.bag == map[k := e] && f.active == 0 && !f.running
    requires Leads(calendar, spec, before, w) && Stands(w, spec, f, map[], used, now)
    ensures Leads(calendar, spec, steps, v)
    ensures Stands(v, spec, Facts(map[f.pushed := Fresh(spec)], f.pushed + 1, 0, false, 1, f.started + {OrElse(e.run, newId)}),
                   map[], used + {newId}, now)
  {
    var run := OrElse(e.run, newId);
    var g := Facts(map[f.pushed := Fresh(spec)], f.pushed + 1, 1, true, f.attempt, f.started + {run});
    var flight := Flight(spec, run, now, true);
    steps, v := ThenTurn(calendar, spec, before, w, f, k, e, newId, used, now, now);
    assert Underway(spec, f.(bag := map[], active := 1), e, run) == g;
    assert Shows(v.core, spec, g) by { hide Shows; }
    hide Stands, Leads, Possible, Reach, Shows, Finish, Panics, Underway;
    OkShows(calendar, v.core, spec, g, flight, now);
    OkNeverPanics(v.core, flight, now);
    var s := FinishRunning(k, Ok(()), now, true, true);
    var u := FinishStands(calendar, v, spec, k, g, flight, Ok(()), used + {newId}, now,
                          g.(running := false, attempt := 1, active := 0));
    LeadsOn(calendar, spec, steps, v, [s]);
    steps, v := steps + [s], u;
  }

  /** Up to a retry of r1 that is due before the fire time. */
  ghost predicate EarlyAt(calendar: Calendar, spec: TimerSpec, steps: seq<Step>, w: World, k: nat, at: Time, attempt: Attempt,
                          used: set<RunId>, now: Time) {
    && Leads(calendar, spec, steps, w) && at < Fire(spec) <= now && used <= {"r1", "r2"}
    && Stands(w, spec, Facts(map[k := ScheduledTimer(spec.id, at, Some("r1"), attempt)], k + 1, 0, false, attempt, {"r1"}),
              map[], used, now)
  }

  lemma FirstFails(calendar: Calendar, spec: TimerSpec) returns (steps: seq<Step>, w: World)
    requires Renews(calendar, spec) && spec.createdAt == Fire(spec) - 1
    requires 1 < spec.retry.maxAttempts && IsDuration(Wait(spec.retry, 1))
    ensures Leads(calendar, spec, steps, w)
    ensures var at := FirstRetry(spec.retry, Fire(spec));
      Stands(w, spec, Facts(map[1 := ScheduledTimer(spec.id, at, Some("r1"), 2)], 2, 0, false, 2, {"r1"}), map[], {"r1"},
             Fire(spec))
  {
    hide Stands, Leads, Possible, Reach, Wait;
    var at := FirstRetry(spec.retry, Fire(spec));
    w := OpeningStands(calendar, spec);
    steps, w := ThenFail(calendar, spec, Opening(spec), w, Registering(spec), 0, Fresh(spec), "r1", {}, Fire(spec) - 1,
                         Fire(spec), at);
    assert {} + {"r1"} == {"r1"};
  }

  lemma UntilEarly(calendar: Calendar, spec: TimerSpec)
    returns (steps: seq<Step>, w: World, k: nat, at: Time, attempt: Attempt, used: set<RunId>, now: Time)
    requires Renews(calendar, spec) && spec.createdAt == Fire(spec) - 1 && FiresEarly(spec.retry)
    ensures EarlyAt(calendar, spec, steps, w, k, at, attempt, used, now)
  {
    hide Stands, Leads, Possible, Reach, Wait;
    steps, w := FirstFails(calendar, spec);
    var first := FirstRetry(spec.retry, Fire(spec));
    if Wait(spec.retry, 1) < 0 {
      k, at, attempt, used, now := 1, first, 2, {"r1"}, Fire(spec);
    } else {
      var f := Facts(map[1 := ScheduledTimer(spec.id, first, Some("r1"), 2)], 2, 0, false, 2, {"r1"});
      at := first + Wait(spec.retry, 2) * TICKS_PER_SECOND;
      steps, w := ThenFail(calendar, spec, steps, w, f, 1, ScheduledTimer(spec.id, first, Some("r1"), 2), "r2", {"r1"},
                           Fire(spec), first, at);
      assert {"r1"} + {"r1"} == {"r1"};
      k, attempt, used, now := 2, 3, {"r1"} + {"r2"}, first;
    }
  }

  /** A policy that fires early, with skip or allow, starts two runs: r1 and, after an early retry of it, r4. */
  lemma StartsTwice(calendar: Calendar, spec: TimerSpec) returns (steps: seq<Step>)
    requires Renews(calendar, spec) && spec.createdAt == Fire(spec) - 1 && FiresEarly(spec.retry)
    ensures Possible(calendar, Start(spec), steps)
    ensures forall i :: 0 <= i < |steps| && steps[i].Register? ==> steps[i].q == Asking(spec)
    ensures StartedRuns(Concerning(Reach(calendar, Start(spec), steps).core.log, spec.id)) == {"r1", "r4"}
  {
    hide Stands, Leads, Possible, Reach, StartedRuns, Concerning, FiresEarly;
    var w, k, at, attempt, used, now;
    steps, w, k, at, attempt, used, now := UntilEarly(calendar, spec);
    var e := ScheduledTimer(spec.id, at, Some("r1"), attempt);
    steps, w := ThenRenew(calendar, spec, steps, w, Facts(map[k := e], k + 1, 0, false, attempt, {"r1"}), k, e, "r3", used, now);
    assert {"r1"} + {"r1"} == {"r1"};
    var f := Facts(map[k + 1 := Fresh(spec)], k + 2, 0, false, 1, {"r1"});
    steps, w := ThenTurn(calendar, spec, steps, w, f, k + 1, Fresh(spec), "r4", used + {"r3"}, now, now);
    assert {"r1"} + {"r4"} == {"r1", "r4"};
    Arrives(calendar, spec, steps, w, Underway(spec, f.(bag := map[], active := 1), Fresh(spec), "r4"),
            map[k + 1 := Flight(spec, "r4", now, true)], used + {"r3"} + {"r4"}, now);
  }

  lemma Arrives(calendar: Calendar, spec: TimerSpec, steps: seq<Step>, w: World, f: Facts, executing: map<nat, Flight>,
                used: set<RunId>, clock: Time)
    requires Leads(calendar, spec, steps, w) && Stands(w, spec, f, executing, used, clock)
    ensures Possible(calendar, Start(spec), steps)
    ensures forall i :: 0 <= i < |steps| && steps[i].Register? ==> steps[i].q == Asking(spec)
    ensures StartedRuns(Concerning(Reach(calendar, Start(spec), steps).core.log, spec.id)) == f.started
  {
    hide Possible, Reach, StartedRuns, Concerning;
  }

  // ----- When the zone does not exist -----

  /** No entry, no run, and none before. */
  ghost predicate Unborn(p: Part) {
    Keys(p) == {} && StartedRuns(p.core.events) == {}
  }

  lemma UnbornEmpty(p: Part)
    requires Unborn(p)
    ensures p.core.waiting == map[] && p.popped == map[] && p.spawned == map[] && p.flying == map[]
  {
    hide StartedRuns;
    assert p.core.waiting.Keys <= Keys(p) && p.popped.Keys <= Keys(p) && p.spawned.Keys <= Keys(p) && p.flying.Keys <= Keys(p);
  }

  /** In a zone that does not exist nothing ever falls due. */
  lemma UnzonedRegisters(calendar: Calendar, c: Core, q: Request, now: Time, later: Time, accepted: bool)
    requires !calendar.isZone(SpecOf(c.mem, q, now).timezone)
    ensures var r, s := ScheduleTimer(calendar, c, q, now, later, accepted), SliceOf(c, q.id);
      r.Accepted? ==>
        var t := SliceOf(r.core, q.id);
        StartedRuns(t.events) == StartedRuns(s.events) && (t.waiting == s.waiting || t.waiting == map[])
  {
    RecordPlanned(c, q, now);
    hide SliceOf, Record, Registered, StartedRuns, SpecOf;
  }

  lemma StepUnborn(calendar: Calendar, w: World, s: Step, id: TimerId, plan: Schedule, terms: Terms)
    requires Sound(w) && Enabled(w, s) && Unborn(PartOf(w, id))
    requires terms.Agreed? && !calendar.isZone(terms.zone) && StepFollows(w, s, id, plan, terms)
    ensures Unborn(PartOf(Take(calendar, w, s), id))
  {
    var v := Take(calendar, w, s);
    var p, q := PartOf(w, id), PartOf(v, id);
    UnbornEmpty(p);
    if s.Register? && s.q.id == id {
      UnzonedRegisters(calendar, w.core, s.q, s.now, s.later, s.accepted);
      hide Sound, SliceOf, ScheduleTimer, StartedRuns, SpecOf;
    } else if s.Restart? {
      hide Sound, OnDisk, Concerning, StartedRuns;
    } else {
      EngineDelay.NothingThere(w, s, id);
      hide Sound, PartOf, AfterPop, AfterSpawn, AfterBegin, AfterFinish, Begin, Finish, ScheduleTimer, Panics, StartedRuns, Keys;
      if !Touches(w, s, id) {
        StepElsewhere(calendar, w, s, id);
      } else if s.Pop? {
        PopMoves(w, s.now, id);
        MovedKeys(p, q);
      } else {
        LeaveMoves(w, id);
        MovedKeys(p, q);
      }
    }
  }

  lemma {:induction false} RunUnborn(calendar: Calendar, w: World, steps: seq<Step>, id: TimerId, plan: Schedule, terms: Terms)
    requires Sound(w) && Possible(calendar, w, steps) && Unborn(PartOf(w, id))
    requires terms.Agreed? && !calendar.isZone(terms.zone) && RunFollows(calendar, w, steps, id, plan, terms)
    ensures Unborn(PartOf(Reach(calendar, w, steps), id))
    decreases |steps|
  {
    hide Sound, Take, Enabled, PartOf, Unborn, StepFollows;
    if steps != [] {
      StepSound(calendar, w, steps[0]);
      StepUnborn(calendar, w, steps[0], id, plan, terms);
      RunUnborn(calendar, Take(calendar, w, steps[0]), steps[1..], id, plan, terms);
    }
  }

  lemma UnzonedNeverStarts(calendar: Calendar, clock: Time, steps: seq<Step>, id: TimerId, plan: Schedule, terms: Terms)
    requires Possible(calendar, NewWorldAt(clock), steps) && RunFollows(calendar, NewWorldAt(clock), steps, id, plan, terms)
    requires terms.Agreed? && !calendar.isZone(terms.zone)
    ensures OneStart(Reach(calendar, NewWorldAt(clock), steps).core.log, id)
  {
    NothingKept(clock, id, At(0), terms);
    assert Unborn(PartOf(NewWorldAt(clock), id)) by { hide Kept, Sound; }
    RunUnborn(calendar, NewWorldAt(clock), steps, id, plan, terms);
    var log := Reach(calendar, NewWorldAt(clock), steps).core.log;
    hide Reach, Possible, StartedRuns, Concerning, RunFollows, Kept, Sound, NewWorldAt;
    forall i | 0 <= i < |log| && log[i].RunStarted? && log[i].timer == id ensures false {
      StartedInLog(log, id, i);
    }
  }

  // ----- The exact condition -----

  /** In every run from an empty data directory, at any clock reading, the timer starts at most one run id. */
  ghost predicate StartsOnce(calendar: Calendar, id: TimerId, plan: Schedule, terms: Terms) {
    forall clock: Time, steps: seq<Step> ::
      Possible(calendar, NewWorldAt(clock), steps) && RunFollows(calendar, NewWorldAt(clock), steps, id, plan, terms)
      ==> OneStart(Reach(calendar, NewWorldAt(clock), steps).core.log, id)
  }

  lemma {:induction false} Weaken(calendar: Calendar, w: World, steps: seq<Step>, id: TimerId, plan: Schedule, terms: Terms,
                                  weaker: Terms)
    requires Possible(calendar, w, steps) && RunFollows(calendar, w, steps, id, plan, terms)
    requires forall spec :: Follows(spec, plan, terms) ==> Follows(spec, plan, weaker)
    ensures RunFollows(calendar, w, steps, id, plan, weaker)
    decreases |steps|
  {
    hide Take, Enabled, Follows;
    if steps != [] {
      Weaken(calendar, Take(calendar, w, steps[0]), steps[1..], id, plan, terms, weaker);
    }
  }

  /** Registering with nothing left open resolves to what was asked for, whatever is on record. */
  lemma {:induction false} AskingFollows(calendar: Calendar, w: World, steps: seq<Step>, spec: TimerSpec)
    requires Possible(calendar, w, steps)
    requires forall i :: 0 <= i < |steps| && steps[i].Register? ==> steps[i].q == Asking(spec)
    ensures RunFollows(calendar, w, steps, spec.id, spec.schedule, Agreed(spec.retry, spec.overlap, spec.timezone))
    decreases |steps|
  {
    hide Take, Enabled;
    if steps != [] {
      AskingFollows(calendar, Take(calendar, w, steps[0]), steps[1..], spec);
    }
  }

  /** A started run on record is in the log. */
  lemma {:induction false} FindStart(log: seq<Event>, id: TimerId, run: RunId) returns (i: nat)
    requires run in StartedRuns(Concerning(log, id))
    ensures i < |log| && log[i].RunStarted? && log[i].timer == id && log[i].run == run
  {
    assert log != [];
    var before, e := log[..|log| - 1], log[|log| - 1];
    assert log == before + [e];
    ConcerningAppend(before, e, id);
    StartedAppend(Concerning(before, id), e);
    if Subject(e) == id && e.RunStarted? && e.run == run {
      i := |before|;
    } else {
      i := FindStart(before, id, run);
    }
  }

  lemma EarlyFails(calendar: Calendar, spec: TimerSpec)
    requires Renews(calendar, spec) && spec.createdAt == Fire(spec) - 1 && FiresEarly(spec.retry)
    ensures !StartsOnce(calendar, spec.id, spec.schedule, Agreed(spec.retry, spec.overlap, spec.timezone))
  {
    var steps := StartsTwice(calendar, spec);
    AskingFollows(calendar, Start(spec), steps, spec);
    var log := Reach(calendar, Start(spec), steps).core.log;
    hide Reach, Possible, RunFollows, StartedRuns, Concerning;
    var i := FindStart(log, spec.id, "r1");
    var j := FindStart(log, spec.id, "r4");
    assert log[i].run != log[j].run;
  }

  /**
   Registered with one schedule, retry policy, overlap policy and zone, a one-shot timer starts at most one
   run in every run of the engine exactly if its runs are delayed, its zone does not exist, or its retry
   policy does not fire early.
   */
  lemma OneShotExact(calendar: Calendar, id: TimerId, plan: Schedule, retry: RetryPolicy, overlap: OverlapPolicy, zone: string)
    requires IsOneShot(plan)
    ensures StartsOnce(calendar, id, plan, Agreed(retry, overlap, zone))
       <==> overlap.Delay? || !calendar.isZone(zone) || !FiresEarly(retry)
  {
    var terms := Agreed(retry, overlap, zone);
    if overlap.Delay? || !calendar.isZone(zone) || !FiresEarly(retry) {
      forall clock: Time, steps: seq<Step> |
        Possible(calendar, NewWorldAt(clock), steps) && RunFollows(calendar, NewWorldAt(clock), steps, id, plan, terms)
        ensures OneStart(Reach(calendar, NewWorldAt(clock), steps).core.log, id)
      {
        if !calendar.isZone(zone) {
          UnzonedNeverStarts(calendar, clock, steps, id, plan, terms);
        } else {
          var safe := if overlap.Delay? then AlwaysDelay else OnePolicy(retry);
          Weaken(calendar, NewWorldAt(clock), steps, id, plan, terms, safe);
          OneShotStartsOnce(calendar, clock, steps, id, plan, safe);
        }
      }
    } else {
      EarlyFails(calendar, TimerSpec(id, plan, retry, zone, FireTime(plan) - 1, overlap));
    }
    hide Possible, Reach, RunFollows, OneStart, FiresEarly, FireTime;
  }

  /**
   The policies that wrap around in the cast: a retry delay of 2^64 - 1 seconds is minus one second, and
   a delay that grows from one second to 2^64 - 2 fires early only with its second retry. A delay of
   2^63 seconds is refused by chrono, and does not.
   */
  lemma WrappingPolicies()
    ensures FiresEarly(RetryPolicy(2, Fixed(U64_MAX)))
    ensures FiresEarly(RetryPolicy(3, Linear(1, U64_MAX - 2, U64_MAX)))
    ensures !FiresEarly(RetryPolicy(2, Linear(1, U64_MAX - 2, U64_MAX)))
    ensures !FiresEarly(RetryPolicy(3, Fixed(I64_MAX + 1)))
  {
  }
}
