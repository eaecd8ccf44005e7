/** Runs of the engine with a single timer, built step by step. */
module EngineScript {
  import opened Prelude
  import opened Retry
  import opened Schedules
  import opened Timers
  import opened Events
  import opened Heap
  import opened Engine
  import opened EngineRuns
  import opened EngineFrame
  import opened EnginePlans

  /** What matters of a core in which the timer is the only one. */
  datatype Facts = Facts(bag: Bag, pushed: nat, active: nat, running: bool, attempt: Attempt, started: set<RunId>)

  predicate Shows(c: Core, spec: TimerSpec, f: Facts) {
    var id := spec.id;
    && c.bag == f.bag && c.pushed == f.pushed && c.runtime == Runtime(true, false, false, f.active)
    && id in c.mem.specs && c.mem.specs[id] == spec && id in c.registry
    && (id in c.mem.states && c.mem.states[id].Running? <==> f.running)
    && CurrentAttempt(c.mem, id) == f.attempt
    && StartedRuns(Concerning(c.log, id)) == f.started
  }

  function AfterEvent(f: Facts, e: Event): Facts {
    match e
    case RunDue(_, _, _) => f.(running := true)
    case RunStarted(_, run, _, _) => f.(running := true, started := f.started + {run})
    case RunSucceeded(_, _, _, _) => f.(running := false, attempt := 1)
    case RunRetrying(_, _, attempt, _) => f.(running := false, attempt := attempt)
    case _ => f
  }

  lemma AppendShows(c: Core, spec: TimerSpec, f: Facts, e: Event)
    requires Shows(c, spec, f) && Subject(e) == spec.id
    requires e.RunDue? || e.RunStarted? || e.RunSucceeded? || e.RunFailed? || e.RunRetrying?
    ensures Shows(Append(c, e, true), spec, AfterEvent(f, e))
  {
    ConcerningAppend(c.log, e, spec.id);
    StartedAppend(Concerning(c.log, spec.id), e);
    hide StartedRuns, Concerning;
  }

  lemma ClearShows(c: Core, spec: TimerSpec, f: Facts)
    requires Shows(c, spec, f)
    ensures Shows(ClearNext(c, spec.id), spec, f)
    ensures f.bag == map[] ==> Shows(Unschedule(c, spec.id), spec, f)
    ensures f.active > 0 ==> Shows(FinishRun(c), spec, f.(active := f.active - 1))
  {
    assert WithoutTimer(map[], spec.id) == map[];
    hide StartedRuns, Concerning;
  }

  lemma PushShows(c: Core, spec: TimerSpec, f: Facts, entry: ScheduledTimer)
    requires Shows(c, spec, f) && f.bag == map[] && entry.timer == spec.id
    ensures Shows(Push(c, entry), spec, f.(bag := map[f.pushed := entry], pushed := f.pushed + 1))
    ensures entry == ScheduledTimer(spec.id, entry.at, None, 1) ==>
      Shows(PushNext(c, spec.id, entry.at), spec, f.(bag := map[f.pushed := entry], pushed := f.pushed + 1))
  {
    hide StartedRuns, Concerning;
  }

  lemma KnowsTimer(c: Core, spec: TimerSpec, f: Facts)
    requires Shows(c, spec, f)
    ensures spec.id in c.mem.specs && c.mem.specs[spec.id] == spec && spec.id in c.registry && !Halting(c)
    ensures Overlaps(c.mem, spec.id) ==> f.running
    ensures CurrentAttempt(c.mem, spec.id) == f.attempt
  {
    hide StartedRuns, Concerning;
  }

  /** A world of the run, between two steps, with nothing popped or spawned. */
  predicate Stands(w: World, spec: TimerSpec, f: Facts, executing: map<nat, Flight>, used: set<RunId>, clock: Time) {
    Shows(w.core, spec, f) && w.popped == map[] && w.spawned == map[] && w.executing == executing && w.used == used
    && w.clock == clock
  }

  lemma {:induction false} Concatenate(calendar: Calendar, w: World, steps: seq<Step>, more: seq<Step>)
    requires Possible(calendar, w, steps) && Possible(calendar, Reach(calendar, w, steps), more)
    ensures Possible(calendar, w, steps + more)
    ensures Reach(calendar, w, steps + more) == Reach(calendar, Reach(calendar, w, steps), more)
    decreases |steps|
  {
    hide Take, Enabled;
    if steps == [] {
      assert steps + more == more;
    } else {
      assert (steps + more)[1..] == steps[1..] + more;
      Concatenate(calendar, Take(calendar, w, steps[0]), steps[1..], more);
    }
  }

  /** The popped entry is spawned and its run begins. */
  function Turn(k: nat, newId: RunId, now: Time): seq<Step> {
    [Pop(now), Spawn(k), BeginRun(k, newId, now, true, true)]
  }

  lemma TurnReaches(calendar: Calendar, w: World, k: nat, newId: RunId, now: Time)
    requires Enabled(w, Pop(now)) && Enabled(AfterPop(w, now), Spawn(k))
    requires Enabled(AfterSpawn(AfterPop(w, now), k), BeginRun(k, newId, now, true, true))
    ensures Possible(calendar, w, Turn(k, newId, now))
    ensures var q := AfterSpawn(AfterPop(w, now), k);
      Reach(calendar, w, Turn(k, newId, now))
      == AfterBegin(q, k, newId, now, Begin(calendar, q.core, q.spawned[k], newId, now, true, true))
  {
    var p := AfterPop(w, now);
    var q := AfterSpawn(p, k);
    var steps := Turn(k, newId, now);
    assert steps[1..] == [Spawn(k), BeginRun(k, newId, now, true, true)];
    assert steps[1..][1..] == [BeginRun(k, newId, now, true, true)];
    assert steps[1..][1..][1..] == [];
    assert Take(calendar, w, Pop(now)) == p && Take(calendar, p, Spawn(k)) == q;
    hide AfterPop, AfterSpawn, AfterBegin, Begin;
    assert Possible(calendar, q, steps[1..][1..]);
    assert Reach(calendar, q, steps[1..][1..]) == Take(calendar, q, BeginRun(k, newId, now, true, true));
    assert Possible(calendar, p, steps[1..]);
  }

  /** The only entry, popped and spawned. */
  lemma SpawnShows(w: World, spec: TimerSpec, f: Facts, k: nat, e: ScheduledTimer, now: Time)
    requires Shows(w.core, spec, f) && f.bag == map[k := e] && w.spawned == map[] && e.at <= now
    ensures var p := AfterPop(w, now);
      && p.popped == map[k := e]
      && AfterSpawn(p, k).popped == map[] && AfterSpawn(p, k).spawned == map[k := e]
      && Shows(AfterSpawn(p, k).core, spec, f.(bag := map[], active := f.active + 1))
  {
    var p := AfterPop(w, now);
    assert w.core.bag - DueKeys(w.core.bag, now) == map[];
    assert p.popped == map[k := e];
    assert p.popped - {k} == map[] && AfterSpawn(p, k).spawned == map[k := e];
    hide StartedRuns, Concerning;
  }

  lemma OneStep(calendar: Calendar, w: World, s: Step)
    requires Enabled(w, s)
    ensures Possible(calendar, w, [s]) && Reach(calendar, w, [s]) == Take(calendar, w, s)
  {
    hide Take, Enabled;
    assert [s][1..] == [];
  }

  lemma FinishTakes(calendar: Calendar, w: World, k: nat, flight: Flight, outcome: Result<(), string>, now: Time)
    requires w.executing == map[k := flight] && w.clock <= now && !Panics(w.core, flight, outcome, now)
    ensures var s := FinishRunning(k, outcome, now, true, true);
      Enabled(w, s)
      && Take(calendar, w, s) == AfterFinish(w, k, now, Finish(calendar, w.core, flight, outcome, now, true, true))
  {
    hide Finish, Panics, AfterFinish;
  }

  lemma FinishedStands(w: World, spec: TimerSpec, k: nat, flight: Flight, c: Core, g: Facts, used: set<RunId>, now: Time)
    requires w.popped == map[] && w.spawned == map[] && w.executing == map[k := flight] && w.used == used
    requires Shows(c, spec, g)
    ensures Stands(AfterFinish(w, k, now, c), spec, g, map[], used, now)
  {
    assert w.executing - {k} == map[];
    hide Shows;
  }

  lemma FinishStands(calendar: Calendar, w: World, spec: TimerSpec, k: nat, f: Facts, flight: Flight,
                     outcome: Result<(), string>, used: set<RunId>, now: Time, g: Facts) returns (v: World)
    requires Stands(w, spec, f, map[k := flight], used, now) && !Panics(w.core, flight, outcome, now)
    requires Shows(Finish(calendar, w.core, flight, outcome, now, true, true), spec, g)
    ensures var s := FinishRunning(k, outcome, now, true, true);
      Possible(calendar, w, [s]) && v == Reach(calendar, w, [s])
    ensures Stands(v, spec, g, map[], used, now)
  {
    var c := Finish(calendar, w.core, flight, outcome, now, true, true);
    v := AfterFinish(w, k, now, c);
    hide Shows, Finish, Panics;
    FinishTakes(calendar, w, k, flight, outcome, now);
    FinishedStands(w, spec, k, flight, c, g, used, now);
    OneStep(calendar, w, FinishRunning(k, outcome, now, true, true));
  }

  lemma OkNeverPanics(c: Core, flight: Flight, now: Time)
    ensures !Panics(c, flight, Ok(()), now)
  {
  }

  function Asking(spec: TimerSpec): Request {
    Request(spec.id, spec.schedule, "f", Some(spec.retry), Some(spec.timezone), Some(spec.overlap))
  }
}
