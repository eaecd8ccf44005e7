/** Shutdown quiesces the engine: no run is in flight when it returns, and nothing is logged afterwards. */
module EngineShutdown {
  import opened Prelude
  import opened Retry
  import opened Schedules
  import opened Timers
  import opened Events
  import opened Heap
  import opened Engine
  import opened EngineRuns

  /** Stopped, with no run in flight and none that could start. */
  predicate Quiet(w: World) {
    && w.core.runtime.stopped && (w.core.runtime.shuttingDown || !w.core.runtime.started)
    && w.spawned == map[] && w.executing == map[]
  }

  /** The log took every event of the runs. */
  predicate Accepting(s: Step) {
    match s
    case BeginRun(_, _, _, due, start) => due && start
    case FinishRunning(_, _, _, first, second) => first && second
    case _ => true
  }

  predicate AllAccepting(steps: seq<Step>) {
    forall i :: 0 <= i < |steps| ==> Accepting(steps[i]) && !steps[i].Restart?
  }

  predicate NoRestart(steps: seq<Step>) {
    forall i :: 0 <= i < |steps| ==> !steps[i].Restart?
  }

  /** The number of active runs is exactly the spawned and executing ones, so it is never decremented below zero. */
  lemma ActiveRunsExact(calendar: Calendar, w: World, steps: seq<Step>)
    requires Sound(w) && Possible(calendar, w, steps)
    ensures var v := Reach(calendar, w, steps);
      && v.core.runtime.activeRuns == |v.spawned| + |v.executing|
      && (forall k :: k in v.spawned || k in v.executing ==> v.core.runtime.activeRuns > 0)
  {
    RunSound(calendar, w, steps);
    hide Agrees, TasksOk, Possible, Take;
    var v := Reach(calendar, w, steps);
    hide Reach;
    forall k | k in v.spawned || k in v.executing ensures v.core.runtime.activeRuns > 0 {
      SomethingCounted(v, k);
    }
  }

  lemma NothingActive(w: World)
    requires Counted(w) && w.core.runtime.activeRuns == 0
    ensures w.spawned == map[] && w.executing == map[]
  {
    if k :| k in w.spawned {
      SomethingCounted(w, k);
    } else if k :| k in w.executing {
      SomethingCounted(w, k);
    }
  }

  lemma BeginRunning(calendar: Calendar, c: Core, entry: ScheduledTimer, newId: RunId, now: Time)
    ensures Begin(calendar, c, entry, newId, now, true, true).core.runtime.stopped == c.runtime.stopped
  {
    hide Apply, NextRunAfter;
  }

  lemma FinishStays(calendar: Calendar, c: Core, f: Flight, outcome: Result<(), string>, now: Time)
    ensures Finish(calendar, c, f, outcome, now, true, true).runtime.stopped == c.runtime.stopped
  {
    hide Apply, NextRunAfter, NextRetryAt;
  }

  lemma QuietStep(calendar: Calendar, w: World, s: Step)
    requires Sound(w) && Quiet(w) && Enabled(w, s) && !s.Restart?
    ensures Quiet(Take(calendar, w, s)) && Take(calendar, w, s).core.log == w.core.log
  {
    hide Agrees, TasksOk, Begin, Finish;
  }

  lemma OrderlyStep(calendar: Calendar, w: World, s: Step)
    requires Sound(w) && (w.core.runtime.stopped ==> Quiet(w)) && Enabled(w, s) && Accepting(s) && !s.Restart?
    ensures var v := Take(calendar, w, s);
      v.core.runtime.stopped ==> Quiet(v)
  {
    if w.core.runtime.stopped {
      QuietStep(calendar, w, s);
    } else {
      hide Agrees, TasksOk, Begin, Finish, ScheduleTimer;
      match s
      case Register(q, now, later, accepted) => ScheduleRuntime(calendar, w.core, q, now, later, accepted);
      case BeginRun(k, newId, now, _, _) => BeginRunning(calendar, w.core, w.spawned[k], newId, now);
      case FinishRunning(k, outcome, now, _, _) => FinishStays(calendar, w.core, w.executing[k], outcome, now);
      case EndShutdown => NothingActive(w);
      case _ =>
    }
  }

  lemma {:induction false} StoppedIsQuiet(calendar: Calendar, w: World, steps: seq<Step>)
    requires Sound(w) && Possible(calendar, w, steps) && AllAccepting(steps)
    requires w.core.runtime.stopped ==> Quiet(w)
    ensures var v := Reach(calendar, w, steps);
      v.core.runtime.stopped ==> Quiet(v)
    decreases |steps|
  {
    hide Sound, Quiet, Take, Enabled;
    if steps != [] {
      StepSound(calendar, w, steps[0]);
      OrderlyStep(calendar, w, steps[0]);
      StoppedIsQuiet(calendar, Take(calendar, w, steps[0]), steps[1..]);
    }
  }

  lemma {:induction false} QuietForever(calendar: Calendar, w: World, steps: seq<Step>)
    requires Sound(w) && Possible(calendar, w, steps) && Quiet(w) && NoRestart(steps)
    ensures Quiet(Reach(calendar, w, steps)) && Reach(calendar, w, steps).core.log == w.core.log
    decreases |steps|
  {
    hide Sound, Quiet, Take, Enabled;
    if steps != [] {
      StepSound(calendar, w, steps[0]);
      QuietStep(calendar, w, steps[0]);
      QuietForever(calendar, Take(calendar, w, steps[0]), steps[1..]);
    }
  }

  /**
   Once `shutdown` has returned Ok, with no event of a run rejected by the log before: no run is in
   flight, and whatever the callers and the loop still do, no run starts and nothing is logged.
   */
  lemma ShutdownQuiesces(calendar: Calendar, w: World, before: seq<Step>, later: seq<Step>)
    requires Sound(w) && !w.core.runtime.stopped
    requires Possible(calendar, w, before) && AllAccepting(before)
    requires Reach(calendar, w, before).core.runtime.stopped
    requires Possible(calendar, Reach(calendar, w, before), later) && NoRestart(later)
    ensures var v := Reach(calendar, w, before);
      && v.spawned == map[] && v.executing == map[]
      && Reach(calendar, v, later).core.log == v.core.log
      && Reach(calendar, v, later).executing == map[]
  {
    hide Sound, Take, Enabled, AllAccepting, NoRestart;
    RunSound(calendar, w, before);
    StoppedIsQuiet(calendar, w, before);
    QuietForever(calendar, Reach(calendar, w, before), later);
    hide Reach, Possible;
  }

  /** A stopped engine has nothing in flight if and only if it counts no active run. */
  lemma QuietWhenNoneActive(w: World)
    requires Sound(w) && w.core.runtime.stopped
    ensures Quiet(w) <==> w.core.runtime.activeRuns == 0
  {
    hide Agrees, TasksOk;
    if w.core.runtime.activeRuns == 0 {
      NothingActive(w);
    }
  }

  // ----- Exactly when a stopped engine stays silent -----

  /** There is always a run id not used yet. */
  lemma {:induction false} LongerThanAll(used: set<RunId>) returns (n: nat)
    ensures forall r :: r in used ==> |r| < n
    decreases |used|
  {
    n := 0;
    if used != {} {
      var r :| r in used;
      var m := LongerThanAll(used - {r});
      n := if m > |r| then m else |r| + 1;
      assert forall q :: q in used ==> q == r || q in used - {r};
    }
  }

  lemma UnusedId(used: set<RunId>) returns (id: RunId)
    ensures id !in used
  {
    var n := LongerThanAll(used);
    id := seq(n, _ => 'r');
  }

  lemma FinishLogs(calendar: Calendar, c: Core, f: Flight, now: Time)
    requires f.callable
    ensures !Panics(c, f, Ok(()), now)
    ensures |Finish(calendar, c, f, Ok(()), now, true, true).log| == |c.log| + 1
  {
    hide Apply, NextRunAfter, NextRetryAt;
  }

  lemma BeginLogs(calendar: Calendar, c: Core, entry: ScheduledTimer, newId: RunId, now: Time)
    requires entry.timer in c.mem.specs
    ensures |Begin(calendar, c, entry, newId, now, true, true).core.log| > |c.log|
  {
    hide Apply, NextRunAfter;
  }

  lemma FinishStepLogs(calendar: Calendar, w: World, k: nat)
    requires k in w.executing && w.executing[k].callable
    ensures var s := FinishRunning(k, Ok(()), w.clock, true, true);
      Enabled(w, s) && |Take(calendar, w, s).core.log| > |w.core.log|
  {
    FinishLogs(calendar, w.core, w.executing[k], w.clock);
    hide Finish, Panics;
  }

  lemma BeginStepLogs(calendar: Calendar, w: World, k: nat, newId: RunId)
    requires k in w.spawned && w.spawned[k].timer in w.core.mem.specs && newId !in w.used
    ensures var s := BeginRun(k, newId, w.clock, true, true);
      Enabled(w, s) && |Take(calendar, w, s).core.log| > |w.core.log|
  {
    BeginLogs(calendar, w.core, w.spawned[k], newId, w.clock);
    hide Begin;
  }

  lemma SomethingActive(w: World)
    requires Sound(w) && w.core.runtime.activeRuns > 0
    ensures w.executing != map[] || w.spawned != map[]
  {
    hide Agrees, TasksOk;
  }

  /** A run in flight may end, and a spawned one may begin: either is logged. */
  lemma ActiveLogs(calendar: Calendar, w: World) returns (s: Step)
    requires Sound(w) && w.core.runtime.activeRuns > 0
    ensures Enabled(w, s) && !s.Restart? && |Take(calendar, w, s).core.log| > |w.core.log|
  {
    SomethingActive(w);
    hide Sound, Take, Enabled;
    if k :| k in w.executing {
      SoundExecuting(w, k);
      FinishStepLogs(calendar, w, k);
      s := FinishRunning(k, Ok(()), w.clock, true, true);
    } else {
      var k :| k in w.spawned;
      var newId := UnusedId(w.used);
      SoundSpawned(w, k);
      BeginStepLogs(calendar, w, k, newId);
      s := BeginRun(k, newId, w.clock, true, true);
    }
  }

  /** Nothing that callers, the loop or tasks may still do in this process is logged. */
  ghost predicate Silent(calendar: Calendar, w: World) {
    forall steps: seq<Step> | Possible(calendar, w, steps) && NoRestart(steps) ::
      Reach(calendar, w, steps).core.log == w.core.log
  }

  /** A stopped engine, however it was stopped, logs nothing more if and only if it counts no active run. */
  lemma SilentExact(calendar: Calendar, w: World)
    requires Sound(w) && w.core.runtime.stopped
    ensures Silent(calendar, w) <==> w.core.runtime.activeRuns == 0
  {
    QuietWhenNoneActive(w);
    hide Sound, Quiet, Take, Enabled, NoRestart;
    if w.core.runtime.activeRuns == 0 {
      forall steps: seq<Step> | Possible(calendar, w, steps) && NoRestart(steps)
        ensures Reach(calendar, w, steps).core.log == w.core.log
      {
        QuietForever(calendar, w, steps);
      }
    } else {
      var s := ActiveLogs(calendar, w);
      OneStepRun(calendar, w, s);
      assert Possible(calendar, w, [s]) && NoRestart([s]);
    }
  }

  lemma OneStepRun(calendar: Calendar, w: World, s: Step)
    requires Enabled(w, s) && !s.Restart?
    ensures Possible(calendar, w, [s]) && NoRestart([s]) && Reach(calendar, w, [s]) == Take(calendar, w, s)
  {
    hide Take, Enabled;
    assert [s][1..] == [];
  }

  /**
   Without the hypothesis it fails: the log rejects one run's event while another run executes. The
   engine is stopped at once, so `shutdown` returns at once, and the other run still ends and is logged.
   */
  lemma RejectionStopsTooEarly(calendar: Calendar, w: World, j: nat, k: nat, newId: RunId, now: Time)
    requires Sound(w) && j in w.executing && k in w.spawned && w.clock <= now && newId !in w.used
    requires !Overlaps(w.core.mem, w.spawned[k].timer)
    ensures var v := AfterBegin(w, k, newId, now, Begin(calendar, w.core, w.spawned[k], newId, now, false, false));
      var u := Take(calendar, v, FinishRunning(j, Ok(()), now, true, true));
      && v.core.runtime.stopped && j in v.executing
      && |u.core.log| == |v.core.log| + 1
  {
    SoundSpawned(w, k);
    SoundExecuting(w, j);
    hide Sound, NextRunAfter, Apply;
  }
}
