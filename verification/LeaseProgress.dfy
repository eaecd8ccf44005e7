/**
 What the leader's operations achieve: due timers get a unit of work, workers get the first unit they can do
 under a lease that lasts, lost runs leave, and a completed timer gets its next run.
 */
module LeaseProgress {
  import opened Prelude
  import opened Retry
  import opened Schedules
  import opened Timers
  import M = Machine
  import opened LeaseQueue
  import opened LeaseRuns

  // ----- Enqueueing -----

  predicate IsWorkers(q: Queue, id: TimerId) {
    id in q.timers && q.timers[id].target.WorkerTask?
  }

  /** A timer without a live unit gets one: a first attempt under the next token, with the timer's task. */
  lemma EnqueueOneReaches(q: Queue, id: TimerId, newId: RunId)
    requires IsWorkers(q, id)
    ensures var p := EnqueueOne(q, id, newId);
      && Live(p, id)
      && (!Live(q, id) ==>
            && |p.pending| == |q.pending| + 1 && p.pending[..|q.pending|] == q.pending
            && p.pending[|q.pending|] == M.WorkerRun(id, q.timers[id].tenantId, newId, q.timers[id].target.task,
                                                     q.timers[id].target.payload, 1, TokenOf(q, id) + 1)
            && id in p.states && p.states[id] == Scheduled)
  {
    var p := EnqueueOne(q, id, newId);
    if !Live(q, id) {
      assert p.pending[|p.pending| - 1].timer == id;
    }
  }

  lemma EnqueueOneKeeps(q: Queue, of: TimerId, newId: RunId, id: TimerId)
    ensures var p := EnqueueOne(q, of, newId);
      p.timers == q.timers && p.active == q.active && (Live(q, id) ==> Live(p, id))
  {
    var p := EnqueueOne(q, of, newId);
    assert p.pending == q.pending || p.pending == q.pending + [p.pending[|q.pending|]];
    if i :| 0 <= i < |q.pending| && q.pending[i].timer == id {
      assert p.pending[i].timer == id;
    }
  }

  lemma {:induction false} EnqueueAllKeeps(q: Queue, due: seq<(TimerId, RunId)>, id: TimerId)
    ensures var p := EnqueueAll(q, due);
      p.timers == q.timers && p.active == q.active && (Live(q, id) ==> Live(p, id))
    decreases |due|
  {
    hide EnqueueOne, Live;
    if due != [] {
      EnqueueOneKeeps(q, due[0].0, due[0].1, id);
      EnqueueAllKeeps(EnqueueOne(q, due[0].0, due[0].1), due[1..], id);
    }
  }

  lemma {:induction false} EnqueueAllReaches(q: Queue, due: seq<(TimerId, RunId)>, i: nat)
    requires i < |due| && IsWorkers(q, due[i].0)
    ensures Live(EnqueueAll(q, due), due[i].0)
    decreases |due|
  {
    var p := EnqueueOne(q, due[0].0, due[0].1);
    EnqueueOneKeeps(q, due[0].0, due[0].1, due[i].0);
    if i == 0 {
      EnqueueOneReaches(q, due[0].0, due[0].1);
      EnqueueAllKeeps(p, due[1..], due[0].0);
    } else {
      EnqueueAllReaches(p, due[1..], i - 1);
    }
    hide EnqueueOne, Live;
  }

  /** After due runs are enqueued, every due worker timer has a pending or an active unit. */
  lemma DueAreLive(calendar: Calendar, q: Queue, now: Time, due: seq<(TimerId, RunId)>, id: TimerId)
    requires Enabled(q, Enqueue(now, due)) && id in q.nextRuns && q.nextRuns[id] <= now && IsWorkers(q, id)
    ensures Live(Take(calendar, q, Enqueue(now, due)), id)
  {
    var i :| 0 <= i < |due| && due[i].0 == id;
    EnqueueAllReaches(q, due, i);
    hide EnqueueAll, Live;
  }

  // ----- Claiming -----

  /** The worker asks for the task and, if it is registered, is registered for it. */
  predicate CanDo(q: Queue, worker: WorkerId, tasks: seq<string>, run: M.WorkerRun) {
    run.task in tasks && (worker in q.workers ==> run.task in q.workers[worker].tasks)
  }

  /** The first pending unit that a worker can do becomes its active run for 30 seconds, and is what it gets. */
  lemma ClaimTakesFirst(calendar: Calendar, q: Queue, worker: WorkerId, tasks: seq<string>, nowUtc: Time, i: nat)
    requires i < |q.pending| && CanDo(q, worker, tasks, q.pending[i])
    requires forall j :: 0 <= j < i ==> !CanDo(q, worker, tasks, q.pending[j])
    ensures var p, run := Take(calendar, q, ClaimPending(worker, tasks, nowUtc, true)), q.pending[i];
      && Claim(q, worker, tasks, nowUtc, true).1 == Some(run)
      && p.pending == q.pending[..i] + q.pending[i + 1..]
      && p.active == q.active[run.runId := M.ActiveRun(run.timer, run.runId, worker, run.fencingToken, run.attempt,
                                                       nowUtc + 30 * 1_000_000_000)]
      && p.states == q.states[run.timer := Running]
      && p.history == q.history + [RunClaimed(run.timer, run.runId, worker, run.fencingToken)]
  {
    var pos := FirstMatch(q.pending, tasks, WorkerTasks(q, worker, tasks));
    hide FirstMatch;
    assert pos < |q.pending| ==> CanDo(q, worker, tasks, q.pending[pos]);
    assert pos == i;
  }

  /** A worker that can do nothing pending, or whose claim is not logged, gets nothing and changes nothing. */
  lemma ClaimFindsNothing(calendar: Calendar, q: Queue, worker: WorkerId, tasks: seq<string>, nowUtc: Time, accepted: bool)
    requires !accepted || forall j :: 0 <= j < |q.pending| ==> !CanDo(q, worker, tasks, q.pending[j])
    ensures Take(calendar, q, ClaimPending(worker, tasks, nowUtc, accepted)) == q
    ensures Claim(q, worker, tasks, nowUtc, accepted).1 == None
  {
    var pos := FirstMatch(q.pending, tasks, WorkerTasks(q, worker, tasks));
    hide FirstMatch;
    assert pos < |q.pending| ==> CanDo(q, worker, tasks, q.pending[pos]);
  }

  // ----- Reports -----

  /** The run is the worker's, under this token. */
  predicate Owns(q: Queue, run: RunId, worker: WorkerId, token: nat) {
    run in q.active && q.active[run].workerId == worker && q.active[run].fencingToken == token
  }

  /** A report counts exactly if it is the owner's with the current token, and is logged. */
  lemma ReportExact(calendar: Calendar, q: Queue, run: RunId, worker: WorkerId, token: nat, now: Time, error: string,
                    accepted: bool)
    ensures Validate(q, run, worker, token).Ok? <==> Owns(q, run, worker, token)
    ensures var p := Take(calendar, q, Complete(run, worker, token, now, accepted));
      if Owns(q, run, worker, token) && accepted then
        && p.active == q.active - {run} && p.pending == q.pending && p.fencing == q.fencing && p.timers == q.timers
        && p.states == q.states[q.active[run].timerId := Scheduled]
        && p.history == q.history + [RunSucceeded(q.active[run].timerId, run, token)]
      else p == q
    ensures var p := Take(calendar, q, Fail(run, worker, token, error, accepted));
      if Owns(q, run, worker, token) && accepted then
        && p.active == q.active - {run} && p.pending == q.pending && p.fencing == q.fencing && p.timers == q.timers
        && p.states == q.states[q.active[run].timerId := Dead] && p.nextRuns == q.nextRuns
        && p.history == q.history + [RunFailed(q.active[run].timerId, run, error, token)]
      else p == q
  {
    hide Rescheduled;
  }

  // ----- Expiry -----

  /** What an expiry does to other runs, and to the lost one. */
  lemma ExpireOneEffect(q: Queue, lost: RunId, r: RunId)
    ensures var p := ExpireOne(q, lost);
      && lost !in p.active && p.workers == q.workers && p.nextRuns == q.nextRuns
      && (r != lost ==> (r in p.active <==> r in q.active) && (r in q.active ==> p.active[r] == q.active[r]))
  {
  }

  /**
   A lost run is recorded with its worker and token. At its timer's limit it is recorded dead, below it the
   unit goes back to the queue, with the timer's task, under the next attempt and token.
   */
  lemma LossEffect(q: Queue, r: RunId)
    requires r in q.active && q.active[r].timerId in q.timers && q.active[r].runId == r
    ensures var run, spec, p := q.active[r], q.timers[q.active[r].timerId], ExpireOne(q, r);
      var id, dead, worker := run.timerId, run.attempt >= spec.retry.maxAttempts, spec.target.WorkerTask?;
      && p.timers == q.timers
      && p.history == q.history + [RunLeaseExpired(id, r, run.workerId, run.fencingToken)]
                      + (if dead then [RunDead(id, r)] else [])
      && p.states == (if dead then q.states[id := Dead] else if worker then q.states[id := Retrying] else q.states)
      && p.pending == q.pending
                      + (if !dead && worker
                         then [M.WorkerRun(id, spec.tenantId, r, spec.target.task, spec.target.payload, run.attempt + 1,
                                           TokenOf(q, id) + 1)]
                         else [])
  {
  }

  lemma {:induction false} ExpireAllEffect(q: Queue, expired: seq<RunId>, r: RunId)
    ensures var p := ExpireAll(q, expired);
      && p.nextRuns == q.nextRuns
      && (r in p.active <==> r in q.active && r !in expired) && (r in p.active ==> p.active[r] == q.active[r])
    decreases |expired|
  {
    hide ExpireOne;
    if expired != [] {
      assert expired == [expired[0]] + expired[1..];
      ExpireOneEffect(q, expired[0], r);
      ExpireAllEffect(ExpireOne(q, expired[0]), expired[1..], r);
    }
  }

  lemma {:induction false} LoseEffect(q: Queue, lost: seq<WorkerId>, w: WorkerId)
    ensures var p := LoseWorkers(q, lost);
      && p.nextRuns == q.nextRuns && (w in p.workers <==> w in q.workers && w !in lost)
    decreases |lost|
  {
    if lost != [] {
      assert lost == [lost[0]] + lost[1..];
      LoseEffect(q.(workers := q.workers - {lost[0]}, history := q.history + [WorkerLost(lost[0])]), lost[1..], w);
    }
  }

  /**
   Expiry takes away exactly the active runs whose lease has run out or whose worker is not registered or has
   missed its heartbeats; every other run stays as it is.
   */
  lemma ExpireExact(calendar: Calendar, q: Queue, now: Time, nowUtc: Time, lost: seq<WorkerId>, expired: seq<RunId>, r: RunId)
    requires Enabled(q, Expire(now, nowUtc, lost, expired))
    ensures var p := Take(calendar, q, Expire(now, nowUtc, lost, expired));
      && (r in p.active <==>
            && r in q.active && nowUtc < q.active[r].leaseDeadline
            && q.active[r].workerId in q.workers && now <= q.workers[q.active[r].workerId].leaseUntil)
      && (r in p.active ==> p.active[r] == q.active[r])
  {
    var w := LoseWorkers(q, lost);
    LoseSame(q, lost);
    ExpireAllEffect(w, expired, r);
    if r in q.active {
      LoseEffect(q, lost, q.active[r].workerId);
    }
    hide LoseWorkers, ExpireAll;
  }

  /** The steps that may take a run away: a report of it, or an expiry. */
  predicate MayEnd(s: Step, r: RunId) {
    match s
    case Complete(run, _, _, _, _) => run == r
    case Fail(run, _, _, _, _) => run == r
    case Expire(_, _, _, _) => true
    case _ => false
  }

  /** Any other step leaves an active run as it is. */
  lemma RunStays(calendar: Calendar, q: Queue, s: Step, r: RunId)
    requires Sound(q) && Enabled(q, s) && r in q.active && !MayEnd(s, r)
    ensures r in Take(calendar, q, s).active && Take(calendar, q, s).active[r] == q.active[r]
  {
    match s
    case Enqueue(_, due) =>
      EnqueueAllKeeps(q, due, q.active[r].timerId);
      hide EnqueueAll, ListsDue;
    case ClaimPending(worker, tasks, nowUtc, accepted) =>
      var pos := FirstMatch(q.pending, tasks, WorkerTasks(q, worker, tasks));
      assert pos < |q.pending| ==> q.pending[pos].runId != r;
      hide FirstMatch;
    case _ =>
  }

  // ----- Operators and workers -----

  /** What creating, cancelling, pausing and resuming a timer do to timers and their lifecycle states. */
  lemma OperatorEffect(calendar: Calendar, q: Queue, s: Step)
    requires s.Create? || s.Cancel? || s.Pause? || s.Resume?
    ensures var p := Take(calendar, q, s);
      && p.timers == (if s.Create? then q.timers[s.spec.id := s.spec] else q.timers)
      && p.states == (if s.Create? then q.states[s.spec.id := Scheduled]
                      else q.states[s.id := if s.Cancel? then Cancelled else if s.Pause? then Paused else Scheduled])
      && p.history == q.history + (if s.Create? then [TimerCreated(s.spec.id)] else [])
      && p.workers == q.workers && SameUnits(q, p)
  {
    hide NextRunAfter;
  }

  /** A worker is registered with its tasks, and a heartbeat extends the lease of a registered one. */
  lemma WorkerEffect(calendar: Calendar, q: Queue, worker: WorkerId, tasks: seq<string>, until: Time)
    ensures var p := Take(calendar, q, RegisterWorker(worker, tasks, until));
      p == q.(workers := q.workers[worker := Worker(tasks, until)], history := q.history + [WorkerRegistered(worker)])
    ensures var p := Take(calendar, q, Heartbeat(worker, until));
      && p == q.(workers := p.workers) && p.workers.Keys == q.workers.Keys
      && forall w :: w in q.workers ==>
           p.workers[w] == if w == worker then Worker(q.workers[w].tasks, until) else q.workers[w]
  {
  }

  // ----- Next runs -----

  /** The next run that a step decides on. Creating a timer without one leaves the old one. */
  function DecidesNext(calendar: Calendar, q: Queue, s: Step, id: TimerId): Option<Option<Time>> {
    match s
    case Create(spec, next) => if spec.id == id && next.Some? then Some(next) else None
    case Cancel(of) => if of == id then Some(None) else None
    case Pause(of) => if of == id then Some(None) else None
    case Resume(of, now) =>
      if of == id && id in q.timers
      then Some(NextRunAfter(calendar, q.timers[id].schedule, now, q.timers[id].timezone)) else None
    case Complete(run, worker, token, now, accepted) =>
      if accepted && Owns(q, run, worker, token) && q.active[run].timerId == id && id in q.timers
      then Some(NextRunAfter(calendar, q.timers[id].schedule, now, q.timers[id].timezone)) else None
    case _ => None
  }

  function NextOf(q: Queue, id: TimerId): Option<Time> {
    if id in q.nextRuns then Some(q.nextRuns[id]) else None
  }

  lemma {:induction false} EnqueueKeepsNext(q: Queue, due: seq<(TimerId, RunId)>)
    ensures EnqueueAll(q, due).nextRuns == q.nextRuns
    decreases |due|
  {
    if due != [] {
      EnqueueKeepsNext(EnqueueOne(q, due[0].0, due[0].1), due[1..]);
    }
  }

  lemma NextStep(calendar: Calendar, q: Queue, s: Step, id: TimerId)
    requires Enabled(q, s)
    ensures var d := DecidesNext(calendar, q, s, id);
      NextOf(Take(calendar, q, s), id) == if d.Some? then d.value else NextOf(q, id)
  {
    hide NextRunAfter, ListsDue, ListsLost, ListsExpired, UsesRun, EnqueueAll, ExpireAll, LoseWorkers, FirstMatch;
    match s
    case Enqueue(_, due) => EnqueueKeepsNext(q, due);
    case Expire(_, _, lost, expired) =>
      LoseEffect(q, lost, "");
      ExpireAllEffect(LoseWorkers(q, lost), expired, "");
    case _ =>
  }

  ghost predicate Undecided(calendar: Calendar, q: Queue, steps: seq<Step>, id: TimerId)
    decreases |steps|
  {
    steps == [] ||
    (DecidesNext(calendar, q, steps[0], id).None? && Undecided(calendar, Take(calendar, q, steps[0]), steps[1..], id))
  }

  lemma {:induction false} UndecidedKeeps(calendar: Calendar, q: Queue, steps: seq<Step>, id: TimerId)
    requires Possible(calendar, q, steps) && Undecided(calendar, q, steps, id)
    ensures NextOf(Reach(calendar, q, steps), id) == NextOf(q, id)
    decreases |steps|
  {
    hide Take, Enabled, DecidesNext, NextOf;
    if steps != [] {
      NextStep(calendar, q, steps[0], id);
      UndecidedKeeps(calendar, Take(calendar, q, steps[0]), steps[1..], id);
    }
  }

  /** After a completion its timer has the next run of its schedule, until a later step decides on it. */
  lemma CompletionReschedules(calendar: Calendar, q: Queue, run: RunId, worker: WorkerId, token: nat, now: Time, steps: seq<Step>)
    requires Owns(q, run, worker, token) && q.active[run].timerId in q.timers
    requires var s := Complete(run, worker, token, now, true);
      Possible(calendar, q, [s] + steps) && Undecided(calendar, Take(calendar, q, s), steps, q.active[run].timerId)
    ensures var id := q.active[run].timerId;
      NextOf(Reach(calendar, q, [Complete(run, worker, token, now, true)] + steps), id)
      == NextRunAfter(calendar, q.timers[id].schedule, now, q.timers[id].timezone)
  {
    var id, s := q.active[run].timerId, Complete(run, worker, token, now, true);
    assert ([s] + steps)[1..] == steps;
    hide Take, NextOf, NextRunAfter;
    NextStep(calendar, q, s, id);
    UndecidedKeeps(calendar, Take(calendar, q, s), steps, id);
  }
}
