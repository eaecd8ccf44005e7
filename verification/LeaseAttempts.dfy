/** The attempts of a run in the lease queue: one more after each lost lease, until the run is dead. */
module LeaseAttempts {
  import opened Prelude
  import opened Retry
  import opened Schedules
  import opened Timers
  import M = Machine
  import opened LeaseQueue
  import opened LeaseRuns

  // ----- What the history says of a run -----

  /** How often the run has lost its lease. */
  function Losses(h: seq<Record>, id: TimerId, r: RunId): nat {
    if h == [] then 0
    else
      var last := h[|h| - 1];
      Losses(h[..|h| - 1], id, r) + if last.RunLeaseExpired? && last.timer == id && last.run == r then 1 else 0
  }

  /** How often it was declared dead. */
  function Deaths(h: seq<Record>, id: TimerId, r: RunId): nat {
    if h == [] then 0
    else Deaths(h[..|h| - 1], id, r) + if h[|h| - 1] == RunDead(id, r) then 1 else 0
  }

  lemma Recorded(h: seq<Record>, e: Record, id: TimerId, r: RunId)
    ensures Losses(h + [e], id, r) == Losses(h, id, r) + if e.RunLeaseExpired? && e.timer == id && e.run == r then 1 else 0
    ensures Deaths(h + [e], id, r) == Deaths(h, id, r) + if e == RunDead(id, r) then 1 else 0
  {
    assert (h + [e])[..|h|] == h;
  }

  /** A history that adds neither a loss nor a death. */
  ghost predicate SameTally(h: seq<Record>, g: seq<Record>) {
    forall id, r :: Losses(g, id, r) == Losses(h, id, r) && Deaths(g, id, r) == Deaths(h, id, r)
  }

  lemma QuietRecord(h: seq<Record>, e: Record)
    requires !e.RunLeaseExpired? && !e.RunDead?
    ensures SameTally(h, h + [e])
  {
    forall id, r ensures Losses(h + [e], id, r) == Losses(h, id, r) && Deaths(h + [e], id, r) == Deaths(h, id, r) {
      Recorded(h, e, id, r);
    }
  }

  lemma {:induction false} LoseTally(q: Queue, lost: seq<WorkerId>)
    ensures SameTally(q.history, LoseWorkers(q, lost).history)
    decreases |lost|
  {
    hide Losses, Deaths;
    if lost != [] {
      QuietRecord(q.history, WorkerLost(lost[0]));
      LoseTally(q.(workers := q.workers - {lost[0]}, history := q.history + [WorkerLost(lost[0])]), lost[1..]);
    }
  }

  // ----- Attempts count the losses -----

  /** A live unit is the attempt after the losses of its run, which is not dead. */
  predicate Fresh(h: seq<Record>, id: TimerId, r: RunId, attempt: nat) {
    attempt == 1 + Losses(h, id, r) && Deaths(h, id, r) == 0
  }

  ghost predicate Tallied(q: Queue) {
    && (forall i :: 0 <= i < |q.pending| ==>
          Fresh(q.history, q.pending[i].timer, q.pending[i].runId, q.pending[i].attempt))
    && (forall r :: r in q.active ==> Fresh(q.history, q.active[r].timerId, r, q.active[r].attempt))
  }

  /** The runs of a timer die at their last loss, and only then. */
  ghost predicate DieAt(q: Queue, id: TimerId, limit: nat) {
    forall r :: Losses(q.history, id, r) <= limit
                && Deaths(q.history, id, r) == if Losses(q.history, id, r) == limit then 1 else 0
  }

  /** New runs have not been heard of. */
  ghost predicate NewRuns(q: Queue, s: Step) {
    s.Enqueue? ==> forall i :: 0 <= i < |s.due| ==>
      forall id :: Losses(q.history, id, s.due[i].1) == 0 && Deaths(q.history, id, s.due[i].1) == 0
  }

  lemma SameUnitsTallied(q: Queue, p: Queue)
    requires Tallied(q) && p.pending == q.pending && p.active == q.active && SameTally(q.history, p.history)
    ensures Tallied(p)
  {
    hide Losses, Deaths;
  }

  lemma SameDieAt(q: Queue, p: Queue, id: TimerId, limit: nat)
    requires DieAt(q, id, limit) && SameTally(q.history, p.history)
    ensures DieAt(p, id, limit)
  {
    hide Losses, Deaths;
  }

  lemma EnqueueOneTallied(q: Queue, id: TimerId, newId: RunId)
    requires Tallied(q) && Losses(q.history, id, newId) == 0 && Deaths(q.history, id, newId) == 0
    ensures Tallied(EnqueueOne(q, id, newId)) && EnqueueOne(q, id, newId).history == q.history
  {
    hide Losses, Deaths;
  }

  lemma {:induction false} EnqueueTallied(q: Queue, due: seq<(TimerId, RunId)>)
    requires Tallied(q)
    requires forall i :: 0 <= i < |due| ==>
               forall id :: Losses(q.history, id, due[i].1) == 0 && Deaths(q.history, id, due[i].1) == 0
    ensures Tallied(EnqueueAll(q, due)) && EnqueueAll(q, due).history == q.history
    decreases |due|
  {
    hide Losses, Deaths, EnqueueOne, Tallied;
    if due != [] {
      EnqueueOneTallied(q, due[0].0, due[0].1);
      EnqueueTallied(EnqueueOne(q, due[0].0, due[0].1), due[1..]);
    }
  }

  /** Without the run, whose record is then free to change. */
  lemma RemovedTallied(q: Queue, r: RunId)
    requires Tallied(q)
    ensures Tallied(q.(active := q.active - {r}))
  {
    hide Losses, Deaths;
  }

  /** A loss, and perhaps a death, of a run without a live unit. */
  lemma LostTallied(q: Queue, p: Queue, run: M.ActiveRun)
    requires Tallied(q) && !UsesRun(q, run.runId) && p.pending == q.pending && p.active == q.active
    requires p.history == Noted(q, run).history || p.history == Buried(Noted(q, run), run).history
    ensures Tallied(p)
  {
    forall id, r | r != run.runId
      ensures Losses(p.history, id, r) == Losses(q.history, id, r) && Deaths(p.history, id, r) == Deaths(q.history, id, r)
    {
      NotedTally(q, run, id, r);
    }
    hide Losses, Deaths, Noted, Buried;
  }

  lemma NotedTally(q: Queue, run: M.ActiveRun, id: TimerId, r: RunId)
    ensures var here := if id == run.timerId && r == run.runId then 1 else 0;
      && Losses(Noted(q, run).history, id, r) == Losses(q.history, id, r) + here
      && Deaths(Noted(q, run).history, id, r) == Deaths(q.history, id, r)
      && Losses(Buried(Noted(q, run), run).history, id, r) == Losses(q.history, id, r) + here
      && Deaths(Buried(Noted(q, run), run).history, id, r) == Deaths(q.history, id, r) + here
  {
    var noted := RunLeaseExpired(run.timerId, run.runId, run.workerId, run.fencingToken);
    Recorded(q.history, noted, id, r);
    Recorded(q.history + [noted], RunDead(run.timerId, run.runId), id, r);
  }

  lemma IssueTallied(q: Queue, id: TimerId, r: RunId, attempt: nat, state: TimerState)
    requires Tallied(q) && id in q.timers && q.timers[id].target.WorkerTask? && Fresh(q.history, id, r, attempt)
    ensures Tallied(Issue(q, id, r, attempt, state)) && Issue(q, id, r, attempt, state).history == q.history
  {
    hide Losses, Deaths;
  }

  lemma ExpireOneTallied(q: Queue, r: RunId)
    requires Sound(q) && Tallied(q)
    ensures Tallied(ExpireOne(q, r))
  {
    if r in q.active {
      var run, removed := q.active[r], q.(active := q.active - {r});
      assert run.runId == r && Fresh(q.history, run.timerId, r, run.attempt);
      RemovedTallied(q, r);
      RemoveSound(q, r);
      if run.timerId in q.timers {
        NotedTally(removed, run, run.timerId, r);
        LostTallied(removed, Noted(removed, run), run);
        LostTallied(removed, Buried(Noted(removed, run), run), run);
        var spec := q.timers[run.timerId];
        hide Losses, Deaths, Tallied, Sound, UsesRun, Live, Noted, Buried, Issue;
        if run.attempt < spec.retry.maxAttempts && spec.target.WorkerTask? {
          NotedSame(removed, run);
          IssueTallied(Noted(removed, run), run.timerId, r, run.attempt + 1, Retrying);
        }
      }
    }
  }

  lemma {:induction false} ExpireTallied(q: Queue, expired: seq<RunId>)
    requires Sound(q) && Tallied(q)
    ensures Tallied(ExpireAll(q, expired))
    decreases |expired|
  {
    hide Sound, Tallied, ExpireOne, TokensGrow;
    if expired != [] {
      ExpireOneTallied(q, expired[0]);
      ExpireOneSound(q, expired[0]);
      ExpireTallied(ExpireOne(q, expired[0]), expired[1..]);
    }
  }

  lemma ClaimTallied(q: Queue, worker: WorkerId, pos: nat, nowUtc: Time)
    requires Tallied(q) && pos < |q.pending|
    ensures Tallied(Claimed(q, worker, pos, nowUtc)) && SameTally(q.history, Claimed(q, worker, pos, nowUtc).history)
  {
    var p, run := Claimed(q, worker, pos, nowUtc), q.pending[pos];
    QuietRecord(q.history, RunClaimed(run.timer, run.runId, worker, run.fencingToken));
    hide Losses, Deaths;
    assert forall i :: 0 <= i < |p.pending| ==> p.pending[i] == q.pending[if i < pos then i else i + 1];
  }

  lemma StepTallied(calendar: Calendar, q: Queue, s: Step)
    requires Sound(q) && Tallied(q) && Enabled(q, s) && NewRuns(q, s)
    ensures Tallied(Take(calendar, q, s))
  {
    hide Sound, Tallied, EnqueueAll, ExpireAll, LoseWorkers, ListsDue, ListsLost, ListsExpired, UsesRun, FirstMatch, Losses,
         Deaths, TokensGrow;
    match s
    case Enqueue(_, due) => EnqueueTallied(q, due);
    case Expire(_, _, lost, expired) =>
      var w := LoseWorkers(q, lost);
      LoseSame(q, lost);
      LoseTally(q, lost);
      SameUnitsTallied(q, w);
      SameUnitsSound(q, w);
      ExpireTallied(w, expired);
    case ClaimPending(worker, tasks, nowUtc, _) =>
      var pos := FirstMatch(q.pending, tasks, WorkerTasks(q, worker, tasks));
      if pos < |q.pending| {
        ClaimTallied(q, worker, pos, nowUtc);
      }
    case Complete(run, worker, token, _, accepted) =>
      if Validate(q, run, worker, token).Ok? && accepted {
        EndTallied(q, Take(calendar, q, s), run);
      }
    case Fail(run, worker, token, _, accepted) =>
      if Validate(q, run, worker, token).Ok? && accepted {
        EndTallied(q, Take(calendar, q, s), run);
      }
    case _ => OtherTallied(calendar, q, s);
  }

  lemma EndTallied(q: Queue, p: Queue, run: RunId)
    requires Tallied(q) && p.pending == q.pending && p.active == q.active - {run}
    requires exists e: Record :: !e.RunLeaseExpired? && !e.RunDead? && p.history == q.history + [e]
    ensures Tallied(p) && SameTally(q.history, p.history)
  {
    var e: Record :| !e.RunLeaseExpired? && !e.RunDead? && p.history == q.history + [e];
    QuietRecord(q.history, e);
    RemovedTallied(q, run);
    hide Tallied, Losses, Deaths;
    SameUnitsTallied(q.(active := q.active - {run}), p);
  }

  /** Steps that leave the units alone. */
  predicate Idle(s: Step) {
    s.Create? || s.Cancel? || s.Pause? || s.Resume? || s.RegisterWorker? || s.Heartbeat?
  }

  lemma OtherTally(calendar: Calendar, q: Queue, s: Step)
    requires Idle(s)
    ensures var p := Take(calendar, q, s);
      p.pending == q.pending && p.active == q.active && SameTally(q.history, p.history)
  {
    if s.Create? {
      QuietRecord(q.history, TimerCreated(s.spec.id));
    } else if s.RegisterWorker? {
      QuietRecord(q.history, WorkerRegistered(s.worker));
    }
    hide Losses, Deaths;
  }

  lemma OtherTallied(calendar: Calendar, q: Queue, s: Step)
    requires Idle(s) && Tallied(q)
    ensures Tallied(Take(calendar, q, s))
  {
    OtherTally(calendar, q, s);
    hide Take, Tallied, Losses, Deaths;
    SameUnitsTallied(q, Take(calendar, q, s));
  }

  // ----- The last loss -----

  /** What an expiry records: nothing for a run that is not active or whose timer is gone, else a loss, or a loss and a death. */
  lemma ExpireHistory(q: Queue, r: RunId)
    ensures var p := ExpireOne(q, r);
      && p.timers == q.timers
      && p.history
         == if r !in q.active || q.active[r].timerId !in q.timers then q.history
            else if q.active[r].attempt >= q.timers[q.active[r].timerId].retry.maxAttempts
            then Buried(Noted(q, q.active[r]), q.active[r]).history else Noted(q, q.active[r]).history
  {
  }

  lemma LossDies(q: Queue, p: Queue, run: M.ActiveRun, id: TimerId, limit: nat)
    requires DieAt(q, id, limit) && Fresh(q.history, run.timerId, run.runId, run.attempt)
    requires p.history == if run.attempt >= limit then Buried(Noted(q, run), run).history else Noted(q, run).history
    requires limit >= 1
    ensures DieAt(p, id, limit)
  {
    forall x
      ensures Losses(p.history, id, x) <= limit
      ensures Deaths(p.history, id, x) == if Losses(p.history, id, x) == limit then 1 else 0
    {
      NotedTally(q, run, id, x);
      assert Losses(q.history, id, x) <= limit && Deaths(q.history, id, x) == if Losses(q.history, id, x) == limit then 1 else 0;
      hide Losses, Deaths, Noted, Buried;
    }
  }

  lemma OtherLoss(q: Queue, p: Queue, run: M.ActiveRun, id: TimerId, limit: nat)
    requires DieAt(q, id, limit) && id != run.timerId
    requires p.history == Buried(Noted(q, run), run).history || p.history == Noted(q, run).history
    ensures DieAt(p, id, limit)
  {
    forall x
      ensures Losses(p.history, id, x) <= limit
      ensures Deaths(p.history, id, x) == if Losses(p.history, id, x) == limit then 1 else 0
    {
      NotedTally(q, run, id, x);
      assert Losses(q.history, id, x) <= limit && Deaths(q.history, id, x) == if Losses(q.history, id, x) == limit then 1 else 0;
      hide Losses, Deaths, Noted, Buried;
    }
  }

  lemma ExpireOneDies(q: Queue, r: RunId, id: TimerId, spec: M.TimerSpec)
    requires Sound(q) && Tallied(q) && DieAt(q, id, Limit(spec)) && spec.target.WorkerTask?
    requires id in q.timers ==> q.timers[id] == spec
    ensures DieAt(ExpireOne(q, r), id, Limit(spec)) && ExpireOne(q, r).timers == q.timers
  {
    var p := ExpireOne(q, r);
    assert r in q.active ==> q.active[r].runId == r && Fresh(q.history, q.active[r].timerId, r, q.active[r].attempt);
    hide Sound, Tallied, DieAt, Losses, Deaths, Noted, Buried, ExpireOne;
    ExpireHistory(q, r);
    if r !in q.active || q.active[r].timerId !in q.timers {
      NoChange(q.history);
      SameDieAt(q, p, id, Limit(spec));
    } else if q.active[r].timerId == id {
      LossDies(q, p, q.active[r], id, Limit(spec));
    } else {
      OtherLoss(q, p, q.active[r], id, Limit(spec));
    }
  }

  lemma {:induction false} ExpireDies(q: Queue, expired: seq<RunId>, id: TimerId, spec: M.TimerSpec)
    requires Sound(q) && Tallied(q) && DieAt(q, id, Limit(spec)) && spec.target.WorkerTask?
    requires id in q.timers ==> q.timers[id] == spec
    ensures DieAt(ExpireAll(q, expired), id, Limit(spec)) && ExpireAll(q, expired).timers == q.timers
    decreases |expired|
  {
    hide Sound, Tallied, ExpireOne, TokensGrow, DieAt;
    if expired != [] {
      ExpireOneTallied(q, expired[0]);
      ExpireOneSound(q, expired[0]);
      ExpireOneDies(q, expired[0], id, spec);
      ExpireDies(ExpireOne(q, expired[0]), expired[1..], id, spec);
    }
  }

  lemma {:induction false} EnqueueTimers(q: Queue, due: seq<(TimerId, RunId)>)
    ensures EnqueueAll(q, due).timers == q.timers
    decreases |due|
  {
    if due != [] {
      EnqueueTimers(EnqueueOne(q, due[0].0, due[0].1), due[1..]);
    }
  }

  /** Whenever the timer is created, it is with this specification. */
  predicate Fixed(s: Step, id: TimerId, spec: M.TimerSpec) {
    s.Create? && s.spec.id == id ==> s.spec == spec
  }

  lemma StepDies(calendar: Calendar, q: Queue, s: Step, id: TimerId, spec: M.TimerSpec)
    requires Sound(q) && Tallied(q) && Enabled(q, s) && NewRuns(q, s) && Fixed(s, id, spec)
    requires DieAt(q, id, Limit(spec)) && spec.target.WorkerTask? && (id in q.timers ==> q.timers[id] == spec)
    ensures var p := Take(calendar, q, s);
      DieAt(p, id, Limit(spec)) && (id in p.timers ==> p.timers[id] == spec)
  {
    var p := Take(calendar, q, s);
    hide Sound, Tallied, EnqueueAll, ExpireAll, LoseWorkers, ListsDue, ListsLost, ListsExpired, UsesRun, FirstMatch, Losses,
         Deaths, TokensGrow, DieAt;
    match s
    case Enqueue(_, due) =>
      EnqueueTallied(q, due);
      EnqueueTimers(q, due);
      NoChange(q.history);
      SameDieAt(q, p, id, Limit(spec));
    case Expire(_, _, lost, expired) =>
      var w := LoseWorkers(q, lost);
      LoseSame(q, lost);
      LoseTally(q, lost);
      SameUnitsTallied(q, w);
      SameUnitsSound(q, w);
      SameDieAt(q, w, id, Limit(spec));
      ExpireDies(w, expired, id, spec);
    case ClaimPending(worker, tasks, nowUtc, accepted) =>
      NoChange(q.history);
      var pos := FirstMatch(q.pending, tasks, WorkerTasks(q, worker, tasks));
      if pos < |q.pending| {
        ClaimTallied(q, worker, pos, nowUtc);
      }
      SameDieAt(q, p, id, Limit(spec));
    case Complete(run, worker, token, _, accepted) =>
      NoChange(q.history);
      if Validate(q, run, worker, token).Ok? && accepted {
        EndTallied(q, p, run);
      }
      SameDieAt(q, p, id, Limit(spec));
    case Fail(run, worker, token, _, accepted) =>
      NoChange(q.history);
      if Validate(q, run, worker, token).Ok? && accepted {
        EndTallied(q, p, run);
      }
      SameDieAt(q, p, id, Limit(spec));
    case _ =>
      OtherTally(calendar, q, s);
      SameDieAt(q, p, id, Limit(spec));
  }

  lemma NoChange(h: seq<Record>)
    ensures SameTally(h, h)
  {
  }

  // ----- Runs -----

  ghost predicate AllNew(calendar: Calendar, q: Queue, steps: seq<Step>)
    decreases |steps|
  {
    steps == [] || (NewRuns(q, steps[0]) && AllNew(calendar, Take(calendar, q, steps[0]), steps[1..]))
  }

  lemma {:induction false} RunTallied(calendar: Calendar, q: Queue, steps: seq<Step>)
    requires Sound(q) && Possible(calendar, q, steps) && AllNew(calendar, q, steps) && Tallied(q)
    ensures Tallied(Reach(calendar, q, steps))
    decreases |steps|
  {
    hide Sound, TokensGrow, Take, Enabled, NewRuns, Tallied;
    if steps != [] {
      StepSound(calendar, q, steps[0]);
      StepTallied(calendar, q, steps[0]);
      RunTallied(calendar, Take(calendar, q, steps[0]), steps[1..]);
    }
  }

  lemma {:induction false} RunDies(calendar: Calendar, q: Queue, steps: seq<Step>, id: TimerId, spec: M.TimerSpec)
    requires Sound(q) && Possible(calendar, q, steps) && AllNew(calendar, q, steps) && Tallied(q)
    requires forall s :: s in steps ==> Fixed(s, id, spec)
    requires DieAt(q, id, Limit(spec)) && spec.target.WorkerTask? && (id in q.timers ==> q.timers[id] == spec)
    ensures DieAt(Reach(calendar, q, steps), id, Limit(spec))
    decreases |steps|
  {
    hide Sound, TokensGrow, Take, Enabled, NewRuns, Tallied, DieAt, Fixed;
    if steps != [] {
      StepSound(calendar, q, steps[0]);
      StepTallied(calendar, q, steps[0]);
      StepDies(calendar, q, steps[0], id, spec);
      RunDies(calendar, Take(calendar, q, steps[0]), steps[1..], id, spec);
    }
  }

  /**
   In every run of the leader in which run ids are not used twice: a live unit's attempt is one more than the
   number of leases its run has lost, and the run is not dead.
   */
  lemma AttemptsCount(calendar: Calendar, steps: seq<Step>)
    requires Possible(calendar, EMPTY, steps) && AllNew(calendar, EMPTY, steps)
    ensures var q := Reach(calendar, EMPTY, steps);
      && (forall i :: 0 <= i < |q.pending| ==>
            var unit := q.pending[i];
            unit.attempt == 1 + Losses(q.history, unit.timer, unit.runId) && Deaths(q.history, unit.timer, unit.runId) == 0)
      && (forall r :: r in q.active ==>
            var run := q.active[r];
            run.attempt == 1 + Losses(q.history, run.timerId, r) && Deaths(q.history, run.timerId, r) == 0)
  {
    EmptySound();
    RunTallied(calendar, EMPTY, steps);
    hide Reach, Possible, AllNew, Losses, Deaths;
  }

  /**
   A worker timer whose specification never changes: however often its runs are lost, a run is declared dead
   once, at its loss number max(1, max_attempts), and loses no lease after that.
   */
  lemma DeadAtLimit(calendar: Calendar, steps: seq<Step>, id: TimerId, spec: M.TimerSpec, r: RunId)
    requires Possible(calendar, EMPTY, steps) && AllNew(calendar, EMPTY, steps)
    requires spec.target.WorkerTask? && forall s :: s in steps ==> Fixed(s, id, spec)
    ensures var h, limit := Reach(calendar, EMPTY, steps).history,
                            if spec.retry.maxAttempts == 0 then 1 else spec.retry.maxAttempts;
      && Losses(h, id, r) <= limit
      && Deaths(h, id, r) == if Losses(h, id, r) == limit then 1 else 0
  {
    EmptySound();
    RunDies(calendar, EMPTY, steps, id, spec);
    hide Reach, Possible, AllNew, Losses, Deaths;
  }
}
