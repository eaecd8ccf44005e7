/** A run of the engine in which a retry left from an earlier session spoils a delay timer's next run. */
module EngineInheritedRun {
  import opened Prelude
  import opened Retry
  import opened Schedules
  import opened Timers
  import opened Events
  import opened Heap
  import opened Engine
  import opened EngineRuns
  import opened EngineFrame
  import opened EnginePlans
  import opened EngineScript
  import opened EngineReregister
  import EngineOneShot

  /** From the start, the steps lead to the world. */
  predicate Comes(calendar: Calendar, start: World, steps: seq<Step>, w: World) {
    Possible(calendar, start, steps) && w == Reach(calendar, start, steps)
  }

  lemma ComesOn(calendar: Calendar, start: World, steps: seq<Step>, w: World, more: seq<Step>)
    requires Comes(calendar, start, steps, w) && Possible(calendar, w, more)
    ensures Comes(calendar, start, steps + more, Reach(calendar, w, more))
  {
    Concatenate(calendar, start, steps, more);
  }

  /** The facts after the first attempt has failed. */
  function Delayedly(spec: TimerSpec, f: Facts, run: RunId, at: Time): Facts {
    f.(running := false, attempt := 2, active := 0, bag := map[f.pushed := ScheduledTimer(spec.id, at, Some(run), 2)],
       pushed := f.pushed + 1)
  }

  /** The finish block after a first failure with delays: two events and an entry. */
  lemma FailsIs(calendar: Calendar, c: Core, flight: Flight, now: Time, at: Time)
    requires flight.callable && flight.spec.overlap.Delay? && CurrentAttempt(c.mem, flight.spec.id) == 1
    requires NextRetryAt(flight.spec.retry, now, 1) == RetryAt(at) && !Halting(c)
    ensures !Panics(c, flight, Err("failed"), now)
    ensures var id := flight.spec.id;
      var failed, retrying := RunFailed(id, flight.run, now, "failed", 1), RunRetrying(id, flight.run, 2, at);
      Finish(calendar, c, flight, Err("failed"), now, true, true)
      == FinishRun(Push(Append(Append(c, failed, true), retrying, true), ScheduledTimer(id, at, Some(flight.run), 2)))
  {
    hide Apply, NextRetryAt, CurrentAttempt;
  }

  lemma TwoLogged(c: Core, e: Event, more: Event, entry: ScheduledTimer)
    ensures FinishRun(Push(Append(Append(c, e, true), more, true), entry)).log == c.log + [e, more]
  {
    hide Apply;
  }

  lemma FailsOnce(calendar: Calendar, c: Core, spec: TimerSpec, f: Facts, flight: Flight, now: Time, at: Time)
    requires Shows(c, spec, f) && f.active == 1 && f.attempt == 1 && f.bag == map[] && spec.overlap.Delay?
    requires flight.spec == spec && flight.callable && NextRetryAt(spec.retry, now, 1) == RetryAt(at)
    ensures !Panics(c, flight, Err("failed"), now)
    ensures var d := Finish(calendar, c, flight, Err("failed"), now, true, true);
      && Shows(d, spec, Delayedly(spec, f, flight.run, at))
      && d.log == c.log + [RunFailed(spec.id, flight.run, now, "failed", 1), RunRetrying(spec.id, flight.run, 2, at)]
  {
    var failed, retrying := RunFailed(spec.id, flight.run, now, "failed", 1), RunRetrying(spec.id, flight.run, 2, at);
    var entry := ScheduledTimer(spec.id, at, Some(flight.run), 2);
    var d := Append(Append(c, failed, true), retrying, true);
    var g := f.(running := false, attempt := 2);
    assert AfterEvent(AfterEvent(f, failed), retrying) == g;
    TwoLogged(c, failed, retrying, entry);
    KnowsTimer(c, spec, f);
    hide Shows, Append, AfterEvent, Push, FinishRun, NextRetryAt, CurrentAttempt, Halting, Finish, Panics;
    FailsIs(calendar, c, flight, now, at);
    AppendShows(c, spec, f, failed);
    AppendShows(Append(c, failed, true), spec, AfterEvent(f, failed), retrying);
    PushShows(d, spec, g, entry);
    ClearShows(Push(d, entry), spec, g.(bag := map[f.pushed := entry], pushed := f.pushed + 1));
  }

  /** Reopened, registered again and started, the timer waits for its next run, with the retry still on record. */
  lemma ReopenedShows(calendar: Calendar, w: World, spec: TimerSpec, f: Facts, now: Time, second: Time)
    requires Sound(w) && Shows(w.core, spec, f) && NextRunAfter(calendar, spec.schedule, now, spec.timezone) == Some(second)
    ensures var r := ScheduleTimer(calendar, OpenedCore(w.core), Asking(spec), now, now, true);
      && r.Accepted? && !r.core.runtime.stopped && !r.core.runtime.started && r.core.log == w.core.log
      && Shows(r.core.(runtime := r.core.runtime.(started := true)), spec,
               Facts(map[0 := ScheduledTimer(spec.id, second, None, 1)], 1, 0, false, f.attempt, f.started))
  {
    var m := w.core.mem;
    assert OnDisk(w.core).specs == m.specs && OnDisk(w.core).pendingRetries == m.pendingRetries by {
      assert Agrees(w.core);
      assert DurableOf(m) == DurableOf(OnDisk(w.core));
    }
    KnowsTimer(w.core, spec, f);
    var c := OpenedCore(w.core);
    assert SpecOf(c.mem, Asking(spec), now) == spec;
    hide Sound, OnDisk, Concerning, StartedRuns, NextRunAfter, SpecOf;
  }

  /** A failure at the limit. */
  lemma GivesUpLog(calendar: Calendar, c: Core, flight: Flight, now: Time)
    requires flight.callable && flight.spec.retry.maxAttempts <= CurrentAttempt(c.mem, flight.spec.id)
    ensures !Panics(c, flight, Err("failed"), now)
    ensures var id := flight.spec.id;
      Finish(calendar, c, flight, Err("failed"), now, true, true).log
      == c.log + [RunFailed(id, flight.run, now, "failed", CurrentAttempt(c.mem, id)), RunDead(id, flight.run, now)]
  {
    hide Apply, NextRunAfter, CurrentAttempt, Wait;
  }

  function Fails(now: Time): Step {
    FinishRunning(0, Err("failed"), now, true, true)
  }

  lemma FailsTakes(calendar: Calendar, w: World, flight: Flight, now: Time)
    requires w.executing == map[0 := flight] && w.clock <= now && !Panics(w.core, flight, Err("failed"), now)
    ensures Possible(calendar, w, [Fails(now)])
    ensures Reach(calendar, w, [Fails(now)])
         == AfterFinish(w, 0, now, Finish(calendar, w.core, flight, Err("failed"), now, true, true))
  {
    FinishTakes(calendar, w, 0, flight, Err("failed"), now);
    hide Finish, Panics, AfterFinish;
    OneStep(calendar, w, Fails(now));
  }

  function FirstSession(spec: TimerSpec, first: Time): seq<Step> {
    [Again(spec, spec.createdAt), StartLoop] + Turn(0, "r1", first) + [Fails(first)]
  }

  function SecondSession(spec: TimerSpec, first: Time, second: Time): seq<Step> {
    [Restart, Again(spec, first), StartLoop] + Turn(0, "r2", second) + [Fails(second)]
  }

  /** The first session: r1 starts and fails, and waits for its retry. */
  lemma FirstSessionComes(calendar: Calendar, spec: TimerSpec, first: Time, at: Time) returns (w: World)
    requires spec.overlap.Delay? && spec.createdAt <= first && NextRetryAt(spec.retry, first, 1) == RetryAt(at)
    requires NextRunAfter(calendar, spec.schedule, spec.createdAt, spec.timezone) == Some(first)
    ensures Comes(calendar, EngineOneShot.NewWorldAt(spec.createdAt), FirstSession(spec, first), w)
    ensures w.core.log == [TimerCreated(spec), RunDue(spec.id, "r1", first), RunStarted(spec.id, "r1", first, 1),
                           RunFailed(spec.id, "r1", first, "failed", 1), RunRetrying(spec.id, "r1", 2, at)]
    ensures Stands(w, spec, Facts(map[1 := ScheduledTimer(spec.id, at, Some("r1"), 2)], 2, 0, false, 2, {"r1"}), map[],
                   {"r1"}, first)
  {
    var v := FirstRuns(calendar, spec, spec.createdAt, first);
    var f, flight := Facts(map[], 1, 1, true, 1, {"r1"}), Flight(spec, "r1", first, true);
    assert Shows(v.core, spec, f) by { hide Shows; }
    hide Possible, Reach, Shows, Finish, Panics, NextRetryAt, NextRunAfter, EngineOneShot.NewWorldAt;
    FailsOnce(calendar, v.core, spec, f, flight, first, at);
    FailsTakes(calendar, v, flight, first);
    var steps := [Again(spec, spec.createdAt), StartLoop] + Turn(0, "r1", first);
    ComesOn(calendar, EngineOneShot.NewWorldAt(spec.createdAt), steps, v, [Fails(first)]);
    w := Reach(calendar, v, [Fails(first)]);
    FinishedStands(v, spec, 0, flight, Finish(calendar, v.core, flight, Err("failed"), first, true, true),
                   Delayedly(spec, f, "r1", at), {"r1"}, first);
  }

  lemma Reopens(calendar: Calendar, w: World, spec: TimerSpec, f: Facts, now: Time, second: Time, used: set<RunId>)
    returns (v: World)
    requires Sound(w) && Stands(w, spec, f, map[], used, now)
    requires NextRunAfter(calendar, spec.schedule, now, spec.timezone) == Some(second)
    ensures Comes(calendar, w, [Restart, Again(spec, now), StartLoop], v) && v.core.log == w.core.log
    ensures Stands(v, spec, Facts(map[0 := ScheduledTimer(spec.id, second, None, 1)], 1, 0, false, f.attempt, f.started), map[],
                   used, now)
  {
    ReopenedShows(calendar, w, spec, f, now, second);
    hide Sound, ScheduleTimer, Shows, Asking, OpenedCore, NextRunAfter;
    var x := Take(calendar, w, Restart);
    var y := Take(calendar, x, Again(spec, now));
    v := Take(calendar, y, StartLoop);
    OneStep(calendar, w, Restart);
    OneStep(calendar, x, Again(spec, now));
    OneStep(calendar, y, StartLoop);
    Concatenate(calendar, x, [Again(spec, now)], [StartLoop]);
    Concatenate(calendar, w, [Restart], [Again(spec, now)] + [StartLoop]);
    assert [Restart] + ([Again(spec, now)] + [StartLoop]) == [Restart, Again(spec, now), StartLoop];
  }

  lemma SecondSessionComes(calendar: Calendar, w: World, spec: TimerSpec, f: Facts, first: Time, second: Time) returns (v: World)
    requires Sound(w) && Stands(w, spec, f, map[], {"r1"}, first) && f.attempt == 2 == spec.retry.maxAttempts
    requires spec.overlap.Delay? && first <= second
    requires NextRunAfter(calendar, spec.schedule, first, spec.timezone) == Some(second)
    ensures Comes(calendar, w, SecondSession(spec, first, second), v)
    ensures v.core.log == w.core.log + [RunDue(spec.id, "r2", second), RunStarted(spec.id, "r2", second, 1),
                                        RunFailed(spec.id, "r2", second, "failed", 2), RunDead(spec.id, "r2", second)]
  {
    hide Possible, Reach, Stands, Sound, NextRunAfter, Finish, Panics;
    var x := Reopens(calendar, w, spec, f, first, second, {"r1"});
    var g := Facts(map[0 := ScheduledTimer(spec.id, second, None, 1)], 1, 0, false, 2, f.started);
    var y := DelayedTurn(calendar, x, spec, g, 0, second, "r2", map[], {"r1"}, first);
    var flight := Flight(spec, "r2", second, true);
    ComesOn(calendar, w, [Restart, Again(spec, first), StartLoop], x, Turn(0, "r2", second));
    StandsTold(y, spec, g.(bag := map[], active := 1, running := true, started := f.started + {"r2"}), map[0 := flight],
               {"r1"} + {"r2"}, second);
    GivesUpLog(calendar, y.core, flight, second);
    FailsTakes(calendar, y, flight, second);
    ComesOn(calendar, w, [Restart, Again(spec, first), StartLoop] + Turn(0, "r2", second), y, [Fails(second)]);
    v := Reach(calendar, y, [Fails(second)]);
  }

  lemma StandsTold(w: World, spec: TimerSpec, f: Facts, executing: map<nat, Flight>, used: set<RunId>, clock: Time)
    requires Stands(w, spec, f, executing, used, clock)
    ensures w.executing == executing && w.clock == clock && CurrentAttempt(w.core.mem, spec.id) == f.attempt
  {
    KnowsTimer(w.core, spec, f);
    hide Shows;
  }

  /**
   A delay timer that allows two attempts fails once. Opened again, with the retry still on record, and
   registered again, it runs afresh, and is given up after a single attempt, logged as the second.
   */
  lemma InheritedRun(calendar: Calendar, spec: TimerSpec, first: Time, second: Time, at: Time)
    requires spec.overlap.Delay? && spec.retry.maxAttempts == 2 && spec.createdAt <= first <= second
    requires NextRunAfter(calendar, spec.schedule, spec.createdAt, spec.timezone) == Some(first)
    requires NextRunAfter(calendar, spec.schedule, first, spec.timezone) == Some(second)
    requires NextRetryAt(spec.retry, first, 1) == RetryAt(at)
    ensures var start := EngineOneShot.NewWorldAt(spec.createdAt);
      var steps := FirstSession(spec, first) + SecondSession(spec, first, second);
      && Possible(calendar, start, steps)
      && Reach(calendar, start, steps).core.log
         == [TimerCreated(spec), RunDue(spec.id, "r1", first), RunStarted(spec.id, "r1", first, 1),
             RunFailed(spec.id, "r1", first, "failed", 1), RunRetrying(spec.id, "r1", 2, at),
             RunDue(spec.id, "r2", second), RunStarted(spec.id, "r2", second, 1),
             RunFailed(spec.id, "r2", second, "failed", 2), RunDead(spec.id, "r2", second)]
  {
    hide Possible, Reach, Stands, Sound, NextRunAfter, NextRetryAt, FirstSession, SecondSession, EngineOneShot.NewWorldAt;
    var start := EngineOneShot.NewWorldAt(spec.createdAt);
    var w := FirstSessionComes(calendar, spec, first, at);
    EngineOneShot.NothingKept(spec.createdAt, spec.id, At(0), AlwaysDelay);
    RunSound(calendar, start, FirstSession(spec, first));
    var f := Facts(map[1 := ScheduledTimer(spec.id, at, Some("r1"), 2)], 2, 0, false, 2, {"r1"});
    var v := SecondSessionComes(calendar, w, spec, f, first, second);
    ComesOn(calendar, start, FirstSession(spec, first), w, SecondSession(spec, first, second));
  }
}
