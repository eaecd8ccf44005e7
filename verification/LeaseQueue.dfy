/**
 The leader's lease queue of the file-based cluster engine (`cluster.rs`): due runs are queued with a
 fencing token, claimed by workers under a lease, and requeued with a new token when the lease is lost.
 Where the source iterates over a hash map, the order of iteration is a parameter.
 */
module LeaseQueue {
  import opened Prelude
  import opened Retry
  import opened Schedules
  import opened Timers
  import M = Machine

  type WorkerId = M.WorkerId

  const LEASE: Time := 30 * TICKS_PER_SECOND

  datatype Worker = Worker(tasks: seq<string>, leaseUntil: Time)

  datatype Record =
    | TimerCreated(timer: TimerId)
    | WorkerRegistered(worker: WorkerId)
    | WorkerLost(worker: WorkerId)
    | RunClaimed(timer: TimerId, run: RunId, worker: WorkerId, token: nat)
    | RunSucceeded(timer: TimerId, run: RunId, token: nat)
    | RunFailed(timer: TimerId, run: RunId, error: string, token: nat)
    | RunLeaseExpired(timer: TimerId, run: RunId, worker: WorkerId, token: nat)
    | RunDead(timer: TimerId, run: RunId)

  datatype Queue = Queue(timers: map<TimerId, M.TimerSpec>, states: map<TimerId, TimerState>,
                         nextRuns: map<TimerId, Time>, workers: map<WorkerId, Worker>, pending: seq<M.WorkerRun>,
                         active: map<RunId, M.ActiveRun>, fencing: map<TimerId, nat>, history: seq<Record>)

  const EMPTY: Queue := Queue(map[], map[], map[], map[], [], map[], map[], [])

  datatype Refusal = NotActive | NotOwner | StaleToken | AppendFailed

  function TokenOf(q: Queue, id: TimerId): nat {
    if id in q.fencing then q.fencing[id] else 0
  }

  predicate IsPending(q: Queue, id: TimerId) {
    exists i :: 0 <= i < |q.pending| && q.pending[i].timer == id
  }

  predicate IsActive(q: Queue, id: TimerId) {
    exists r :: r in q.active && q.active[r].timerId == id
  }

  // ----- Enqueueing -----

  /** A new unit of work for the timer, under the next token. */
  function Issue(q: Queue, id: TimerId, runId: RunId, attempt: nat, state: TimerState): Queue
    requires id in q.timers && q.timers[id].target.WorkerTask?
  {
    var spec, token := q.timers[id], TokenOf(q, id) + 1;
    q.(fencing := q.fencing[id := token],
       pending := q.pending + [M.WorkerRun(id, spec.tenantId, runId, spec.target.task, spec.target.payload, attempt, token)],
       states := q.states[id := state])
  }

  function EnqueueOne(q: Queue, id: TimerId, newId: RunId): Queue {
    if IsPending(q, id) || IsActive(q, id) || id !in q.timers || !q.timers[id].target.WorkerTask? then q
    else Issue(q, id, newId, 1, Scheduled)
  }

  /** Each due timer with the run id it would get. */
  function EnqueueAll(q: Queue, due: seq<(TimerId, RunId)>): Queue
    decreases |due|
  {
    if due == [] then q else EnqueueAll(EnqueueOne(q, due[0].0, due[0].1), due[1..])
  }

  /** `due` visits every timer whose next run has come, once. */
  predicate ListsDue(q: Queue, now: Time, due: seq<(TimerId, RunId)>) {
    && (forall i :: 0 <= i < |due| ==> due[i].0 in q.nextRuns && q.nextRuns[due[i].0] <= now)
    && (forall id :: id in q.nextRuns && q.nextRuns[id] <= now ==> exists i :: 0 <= i < |due| && due[i].0 == id)
    && (forall i, j :: 0 <= i < j < |due| ==> due[i].0 != due[j].0)
  }

  // ----- Expiry -----

  function LoseWorkers(q: Queue, lost: seq<WorkerId>): Queue
    decreases |lost|
  {
    if lost == [] then q
    else LoseWorkers(q.(workers := q.workers - {lost[0]}, history := q.history + [WorkerLost(lost[0])]), lost[1..])
  }

  predicate ListsLost(q: Queue, now: Time, lost: seq<WorkerId>) {
    && (forall i :: 0 <= i < |lost| ==> lost[i] in q.workers && q.workers[lost[i]].leaseUntil < now)
    && (forall w :: w in q.workers && q.workers[w].leaseUntil < now ==> w in lost)
    && (forall i, j :: 0 <= i < j < |lost| ==> lost[i] != lost[j])
  }

  predicate LeaseLost(q: Queue, run: M.ActiveRun, nowUtc: Time) {
    run.leaseDeadline <= nowUtc || run.workerId !in q.workers
  }

  predicate ListsExpired(q: Queue, nowUtc: Time, expired: seq<RunId>) {
    && (forall i :: 0 <= i < |expired| ==> expired[i] in q.active && LeaseLost(q, q.active[expired[i]], nowUtc))
    && (forall r :: r in q.active && LeaseLost(q, q.active[r], nowUtc) ==> r in expired)
    && (forall i, j :: 0 <= i < j < |expired| ==> expired[i] != expired[j])
  }

  function Noted(q: Queue, run: M.ActiveRun): Queue {
    q.(history := q.history + [RunLeaseExpired(run.timerId, run.runId, run.workerId, run.fencingToken)])
  }

  function Buried(q: Queue, run: M.ActiveRun): Queue {
    q.(states := q.states[run.timerId := Dead], history := q.history + [RunDead(run.timerId, run.runId)])
  }

  /** What becomes of a run taken from its worker: dead when its attempts are used up, else queued under a new token. */
  function Requeued(q: Queue, run: M.ActiveRun): Queue
    requires run.timerId in q.timers
  {
    var spec := q.timers[run.timerId];
    if run.attempt >= spec.retry.maxAttempts then Buried(Noted(q, run), run)
    else if !spec.target.WorkerTask? then Noted(q, run)
    else Issue(Noted(q, run), run.timerId, run.runId, run.attempt + 1, Retrying)
  }

  function ExpireOne(q: Queue, runId: RunId): Queue {
    if runId !in q.active then q
    else
      var run, removed := q.active[runId], q.(active := q.active - {runId});
      if run.timerId in q.timers then Requeued(removed, run) else removed
  }

  function ExpireAll(q: Queue, expired: seq<RunId>): Queue
    decreases |expired|
  {
    if expired == [] then q else ExpireAll(ExpireOne(q, expired[0]), expired[1..])
  }

  // ----- Claiming -----

  /** The first pending run whose task the worker asks for and is registered for. */
  function FirstMatch(pending: seq<M.WorkerRun>, tasks: seq<string>, workerTasks: seq<string>): (pos: nat)
    ensures pos <= |pending|
    ensures pos < |pending| ==> pending[pos].task in tasks && pending[pos].task in workerTasks
    ensures forall i :: 0 <= i < pos ==> !(pending[i].task in tasks && pending[i].task in workerTasks)
  {
    if pending == [] || (pending[0].task in tasks && pending[0].task in workerTasks) then 0
    else 1 + FirstMatch(pending[1..], tasks, workerTasks)
  }

  function WorkerTasks(q: Queue, worker: WorkerId, tasks: seq<string>): seq<string> {
    if worker in q.workers then q.workers[worker].tasks else tasks
  }

  function Claimed(q: Queue, worker: WorkerId, pos: nat, nowUtc: Time): Queue
    requires pos < |q.pending|
  {
    var run := q.pending[pos];
    q.(pending := q.pending[..pos] + q.pending[pos + 1..],
       active := q.active[run.runId := M.ActiveRun(run.timer, run.runId, worker, run.fencingToken, run.attempt, nowUtc + LEASE)],
       states := q.states[run.timer := Running],
       history := q.history + [RunClaimed(run.timer, run.runId, worker, run.fencingToken)])
  }

  function Claim(q: Queue, worker: WorkerId, tasks: seq<string>, nowUtc: Time, accepted: bool): (Queue, Option<M.WorkerRun>) {
    var pos := FirstMatch(q.pending, tasks, WorkerTasks(q, worker, tasks));
    if pos < |q.pending| && accepted then (Claimed(q, worker, pos, nowUtc), Some(q.pending[pos])) else (q, None)
  }

  // ----- Completing and failing -----

  function Validate(q: Queue, runId: RunId, worker: WorkerId, token: nat): Result<M.ActiveRun, Refusal> {
    if runId !in q.active then Err(NotActive)
    else if q.active[runId].workerId != worker then Err(NotOwner)
    else if q.active[runId].fencingToken != token then Err(StaleToken)
    else Ok(q.active[runId])
  }

  function Rescheduled(calendar: Calendar, q: Queue, id: TimerId, now: Time): map<TimerId, Time> {
    if id !in q.timers then q.nextRuns
    else M.Put(q.nextRuns, id, NextRunAfter(calendar, q.timers[id].schedule, now, q.timers[id].timezone))
  }

  function Completed(calendar: Calendar, q: Queue, runId: RunId, now: Time): Queue
    requires runId in q.active
  {
    var run := q.active[runId];
    q.(active := q.active - {runId}, states := q.states[run.timerId := Scheduled],
       history := q.history + [RunSucceeded(run.timerId, runId, run.fencingToken)],
       nextRuns := Rescheduled(calendar, q, run.timerId, now))
  }

  function Failed(q: Queue, runId: RunId, error: string): Queue
    requires runId in q.active
  {
    var run := q.active[runId];
    q.(active := q.active - {runId}, states := q.states[run.timerId := Dead],
       history := q.history + [RunFailed(run.timerId, runId, error, run.fencingToken)])
  }

  function Created(q: Queue, spec: M.TimerSpec, next: Option<Time>): Queue {
    q.(timers := q.timers[spec.id := spec], states := q.states[spec.id := Scheduled],
       nextRuns := if next.Some? then q.nextRuns[spec.id := next.value] else q.nextRuns,
       history := q.history + [TimerCreated(spec.id)])
  }

  // ----- The leader as the source mutates it -----

  class Leader {
    const calendar: Calendar
    var timers: map<TimerId, M.TimerSpec>
    var states: map<TimerId, TimerState>
    var nextRuns: map<TimerId, Time>
    var workers: map<WorkerId, Worker>
    var pending: seq<M.WorkerRun>
    var active: map<RunId, M.ActiveRun>
    var fencing: map<TimerId, nat>
    var history: seq<Record>

    constructor (calendar: Calendar)
      ensures View() == EMPTY && this.calendar == calendar
    {
      this.calendar := calendar;
      timers, states, nextRuns, workers := map[], map[], map[], map[];
      pending, active, fencing, history := [], map[], map[], [];
    }

    function View(): Queue
      reads this
    {
      Queue(timers, states, nextRuns, workers, pending, active, fencing, history)
    }

    method PushUnit(id: TimerId, runId: RunId, attempt: nat, state: TimerState)
      requires id in timers && timers[id].target.WorkerTask?
      modifies this
      ensures View() == Issue(old(View()), id, runId, attempt, state)
    {
      var spec := timers[id];
      if id !in fencing {
        fencing := fencing[id := 0];
      }
      var token := fencing[id] + 1;
      fencing := fencing[id := token];
      pending := pending + [M.WorkerRun(id, spec.tenantId, runId, spec.target.task, spec.target.payload, attempt, token)];
      states := states[id := state];
    }

    method EnqueueDueRuns(now: Time, due: seq<(TimerId, RunId)>)
      requires ListsDue(View(), now, due)
      modifies this
      ensures View() == EnqueueAll(old(View()), due)
    {
      var i := 0;
      assert due[0..] == due;
      while i < |due|
        invariant i <= |due| && EnqueueAll(View(), due[i..]) == EnqueueAll(old(View()), due)
      {
        var id := due[i].0;
        assert due[i..][0] == due[i] && due[i..][1..] == due[i + 1..];
        ghost var before := View();
        if !(exists j :: 0 <= j < |pending| && pending[j].timer == id)
           && !(exists r :: r in active && active[r].timerId == id) {
          if id in timers && timers[id].target.WorkerTask? {
            PushUnit(id, due[i].1, 1, Scheduled);
          }
        }
        assert View() == EnqueueOne(before, id, due[i].1);
        i := i + 1;
      }
    }

    method RemoveWorkers(now: Time, lost: seq<WorkerId>)
      requires ListsLost(View(), now, lost)
      modifies this`workers, this`history
      ensures View() == LoseWorkers(old(View()), lost)
    {
      var i := 0;
      assert lost[0..] == lost;
      while i < |lost|
        invariant i <= |lost| && LoseWorkers(View(), lost[i..]) == LoseWorkers(old(View()), lost)
      {
        assert lost[i..][0] == lost[i] && lost[i..][1..] == lost[i + 1..];
        workers := workers - {lost[i]};
        history := history + [WorkerLost(lost[i])];
        i := i + 1;
      }
    }

    method ExpireRun(runId: RunId)
      modifies this
      ensures View() == ExpireOne(old(View()), runId)
    {
      if runId !in active {
        return;
      }
      var run := active[runId];
      active := active - {runId};
      if run.timerId !in timers {
        return;
      }
      var spec := timers[run.timerId];
      history := history + [RunLeaseExpired(run.timerId, run.runId, run.workerId, run.fencingToken)];
      if run.attempt >= spec.retry.maxAttempts {
        states := states[run.timerId := Dead];
        history := history + [RunDead(run.timerId, run.runId)];
        return;
      }
      if spec.target.WorkerTask? {
        PushUnit(run.timerId, run.runId, run.attempt + 1, Retrying);
      }
    }

    /** The workers whose lease ran out go first, then the runs they or the clock have lost. */
    method ExpireWorkers(now: Time, nowUtc: Time, lost: seq<WorkerId>, expired: seq<RunId>)
      requires ListsLost(View(), now, lost) && ListsExpired(LoseWorkers(View(), lost), nowUtc, expired)
      modifies this
      ensures View() == ExpireAll(LoseWorkers(old(View()), lost), expired)
    {
      RemoveWorkers(now, lost);
      ghost var start := View();
      var i := 0;
      assert expired[0..] == expired;
      while i < |expired|
        invariant i <= |expired| && ExpireAll(View(), expired[i..]) == ExpireAll(start, expired)
      {
        assert expired[i..][0] == expired[i] && expired[i..][1..] == expired[i + 1..];
        ExpireRun(expired[i]);
        i := i + 1;
      }
    }

    method FindPending(tasks: seq<string>, workerTasks: seq<string>) returns (pos: nat)
      ensures pos == FirstMatch(pending, tasks, workerTasks) <= |pending|
    {
      pos := 0;
      assert pending[0..] == pending;
      while pos < |pending| && !(pending[pos].task in tasks && pending[pos].task in workerTasks)
        invariant pos <= |pending|
        invariant FirstMatch(pending, tasks, workerTasks) == pos + FirstMatch(pending[pos..], tasks, workerTasks)
      {
        assert pending[pos..][1..] == pending[pos + 1..];
        pos := pos + 1;
      }
    }

    method ClaimPendingFor(worker: WorkerId, tasks: seq<string>, nowUtc: Time, accepted: bool)
      returns (claimed: Option<M.WorkerRun>)
      modifies this
      ensures (View(), claimed) == Claim(old(View()), worker, tasks, nowUtc, accepted)
    {
      var workerTasks := tasks;
      if worker in workers {
        workerTasks := workers[worker].tasks;
      }
      var pos := FindPending(tasks, workerTasks);
      if pos == |pending| || !accepted {
        return None;
      }
      var run := pending[pos];
      pending := pending[..pos] + pending[pos + 1..];
      active := active[run.runId := M.ActiveRun(run.timer, run.runId, worker, run.fencingToken, run.attempt, nowUtc + LEASE)];
      states := states[run.timer := Running];
      history := history + [RunClaimed(run.timer, run.runId, worker, run.fencingToken)];
      return Some(run);
    }

    method CompleteRun(runId: RunId, worker: WorkerId, token: nat, now: Time, accepted: bool) returns (r: Result<(), Refusal>)
      modifies this
      ensures var v := Validate(old(View()), runId, worker, token);
        && (v.Err? ==> r == Err(v.error))
        && (v.Ok? ==> r == if accepted then Ok(()) else Err(AppendFailed))
        && View() == if r.Ok? then Completed(calendar, old(View()), runId, now) else old(View())
    {
      var valid := Validate(View(), runId, worker, token);
      if valid.Err? {
        return Err(valid.error);
      }
      if !accepted {
        return Err(AppendFailed);
      }
      var run := valid.value;
      active := active - {runId};
      states := states[run.timerId := Scheduled];
      history := history + [RunSucceeded(run.timerId, runId, run.fencingToken)];
      if run.timerId in timers {
        var spec := timers[run.timerId];
        var next := NextRunAfter(calendar, spec.schedule, now, spec.timezone);
        if next.Some? {
          nextRuns := nextRuns[run.timerId := next.value];
        } else {
          nextRuns := nextRuns - {run.timerId};
        }
      }
      return Ok(());
    }

    method FailRun(runId: RunId, worker: WorkerId, token: nat, error: string, accepted: bool) returns (r: Result<(), Refusal>)
      modifies this
      ensures var v := Validate(old(View()), runId, worker, token);
        && (v.Err? ==> r == Err(v.error))
        && (v.Ok? ==> r == if accepted then Ok(()) else Err(AppendFailed))
        && View() == if r.Ok? then Failed(old(View()), runId, error) else old(View())
    {
      var valid := Validate(View(), runId, worker, token);
      if valid.Err? {
        return Err(valid.error);
      }
      if !accepted {
        return Err(AppendFailed);
      }
      active := active - {runId};
      states := states[valid.value.timerId := Dead];
      history := history + [RunFailed(valid.value.timerId, runId, error, valid.value.fencingToken)];
      return Ok(());
    }

    method ApplyCreateTimer(spec: M.TimerSpec, next: Option<Time>)
      modifies this
      ensures View() == Created(old(View()), spec, next)
    {
      timers := timers[spec.id := spec];
      states := states[spec.id := Scheduled];
      if next.Some? {
        nextRuns := nextRuns[spec.id := next.value];
      }
      history := history + [TimerCreated(spec.id)];
    }
  }
}
