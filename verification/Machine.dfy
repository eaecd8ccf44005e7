/** The replicated state machine of the server: `apply_kron_command` of `file_store.rs`. */
module Machine {
  import opened Prelude
  import opened Retry
  import opened Schedules
  import opened Timers

  type WorkerId = string

  datatype Target = EmbeddedFn(name: string) | WorkerTask(task: string, payload: string) | HttpTarget(url: string)

  datatype TimerSpec = TimerSpec(id: TimerId, tenantId: Option<string>, schedule: Schedule, retry: RetryPolicy,
                                 timezone: string, target: Target, createdAt: Time)

  datatype Timer = Timer(spec: TimerSpec, state: TimerState, fencingToken: nat)

  datatype ActiveRun = ActiveRun(timerId: TimerId, runId: RunId, workerId: WorkerId, fencingToken: nat,
                                 attempt: nat, leaseDeadline: Time)

  datatype WorkerRun = WorkerRun(timer: TimerId, tenantId: Option<string>, runId: RunId, task: string,
                                 payload: string, attempt: nat, fencingToken: nat)

  datatype Worker = Worker(tasks: seq<string>, leaseUntil: Time)

  datatype Node = Node(nodeId: string, httpAddr: string, raftAddr: string)

  datatype Command =
    | CreateTimer(spec: TimerSpec, nextRunAt: Option<Time>)
    | UpdateTimer(spec: TimerSpec, nextRunAt: Option<Time>)
    | CancelTimer(timerId: TimerId)
    | PauseTimer(timerId: TimerId)
    | ResumeTimer(timerId: TimerId, nextRunAt: Option<Time>)
    | ClaimRun(timerId: TimerId, runId: RunId, workerId: WorkerId, fencingToken: nat, attempt: nat, leaseDeadline: Time)
    | CompleteRun(runId: RunId, workerId: WorkerId, fencingToken: nat, completedAt: Time)
    | FailRun(runId: RunId, workerId: WorkerId, fencingToken: nat, error: string, failedAt: Time)
    | ExpireRunLease(runId: RunId, replacement: Option<WorkerRun>, expiredAt: Time)
    | HeartbeatWorker(workerId: WorkerId, leaseUntil: Time)
    | RegisterWorker(workerId: WorkerId, tasks: seq<string>, leaseUntil: Time)
    | UnregisterWorker(workerId: WorkerId)
    | AddNode(node: Node)
    | RemoveNode(nodeId: string)

  datatype Ending = Succeeded | Failed(error: string) | LeaseExpired

  datatype Record =
    | TimerCreated(timer: TimerId, tenantId: Option<string>)
    | RunClaimed(timer: TimerId, tenantId: Option<string>, runId: RunId, workerId: WorkerId, fencingToken: nat)
    | RunEnded(ending: Ending, timer: TimerId, tenantId: Option<string>, runId: RunId, workerId: WorkerId,
               fencingToken: nat)
    | WorkerRegistered(workerId: WorkerId)

  datatype State = State(timers: map<TimerId, Timer>, nextRuns: map<TimerId, Time>, pending: seq<WorkerRun>,
                         activeRuns: map<RunId, ActiveRun>, workers: map<WorkerId, Worker>,
                         nodes: map<string, Node>, history: seq<Record>)

  const EMPTY: State := State(map[], map[], [], map[], map[], map[], [])

  function Put<K, V>(m: map<K, V>, k: K, v: Option<V>): map<K, V> {
    match v
    case Some(value) => m[k := value]
    case None => m - {k}
  }

  function SetState(timers: map<TimerId, Timer>, id: TimerId, state: TimerState): map<TimerId, Timer> {
    if id in timers then timers[id := timers[id].(state := state)] else timers
  }

  function TimerTenant(timers: map<TimerId, Timer>, id: TimerId): Option<string> {
    if id in timers then timers[id].spec.tenantId else None
  }

  predicate HasActiveRun(s: State, id: TimerId) {
    exists r :: r in s.activeRuns && s.activeRuns[r].timerId == id
  }

  function RemovePending(pending: seq<WorkerRun>, runId: RunId): seq<WorkerRun> {
    if pending == [] then []
    else if pending[0].runId == runId then pending[1..]
    else [pending[0]] + RemovePending(pending[1..], runId)
  }

  lemma {:induction false} RemovePendingAt(pending: seq<WorkerRun>, runId: RunId, i: nat)
    requires i <= |pending| && forall j :: 0 <= j < i ==> pending[j].runId != runId
    requires i < |pending| ==> pending[i].runId == runId
    ensures RemovePending(pending, runId) == if i < |pending| then pending[..i] + pending[i + 1..] else pending
  {
    if i > 0 {
      RemovePendingAt(pending[1..], runId, i - 1);
    }
  }

  /** The next run after a completion: one-shot timers have none. */
  function Rescheduled(calendar: Calendar, s: State, id: TimerId, after: Time): map<TimerId, Time> {
    if id !in s.timers then s.nextRuns
    else
      var spec := s.timers[id].spec;
      if IsOneShot(spec.schedule) then s.nextRuns - {id}
      else Put(s.nextRuns, id, NextRunAfter(calendar, spec.schedule, after, spec.timezone))
  }

  function Claimed(s: State, c: Command): State
    requires c.ClaimRun?
  {
    if HasActiveRun(s, c.timerId) then s
    else
      var timers := if c.timerId in s.timers
                    then s.timers[c.timerId := s.timers[c.timerId].(state := Running, fencingToken := c.fencingToken)]
                    else s.timers;
      s.(timers := timers,
         pending := RemovePending(s.pending, c.runId),
         activeRuns := s.activeRuns[c.runId := ActiveRun(c.timerId, c.runId, c.workerId, c.fencingToken, c.attempt,
                                                         c.leaseDeadline)],
         history := s.history + [RunClaimed(c.timerId, TimerTenant(timers, c.timerId), c.runId, c.workerId, c.fencingToken)])
  }

  /** The apply-time fencing check of completions and failures. */
  predicate OwnedBy(s: State, runId: RunId, workerId: WorkerId, fencingToken: nat) {
    runId in s.activeRuns
    && s.activeRuns[runId].workerId == workerId
    && s.activeRuns[runId].fencingToken == fencingToken
  }

  /** The run is removed, its timer enters `state`, and the ending is recorded. */
  function Ended(s: State, runId: RunId, timers: map<TimerId, Timer>, ending: Ending): State
    requires runId in s.activeRuns
  {
    var run := s.activeRuns[runId];
    s.(timers := timers,
       activeRuns := s.activeRuns - {runId},
       history := s.history + [RunEnded(ending, run.timerId, TimerTenant(s.timers, run.timerId),
                                        if ending.LeaseExpired? then run.runId else runId,
                                        run.workerId, run.fencingToken)])
  }

  function Expired(s: State, c: Command): State
    requires c.ExpireRunLease? && c.runId in s.activeRuns
  {
    match c.replacement
    case None =>
      Ended(s, c.runId, SetState(s.timers, s.activeRuns[c.runId].timerId, Dead), LeaseExpired)
    case Some(run) =>
      var timers := if run.timer in s.timers
                    then s.timers[run.timer := s.timers[run.timer].(state := Retrying, fencingToken := run.fencingToken)]
                    else s.timers;
      Ended(s, c.runId, timers, LeaseExpired).(pending := s.pending + [run])
  }

  function Apply(calendar: Calendar, s: State, c: Command): State {
    match c
    case CreateTimer(spec, next) => Created(s, spec, next)
    case UpdateTimer(spec, next) => Created(s, spec, next)
    case CancelTimer(id) => s.(timers := SetState(s.timers, id, Cancelled), nextRuns := s.nextRuns - {id})
    case PauseTimer(id) => s.(timers := SetState(s.timers, id, Paused), nextRuns := s.nextRuns - {id})
    case ResumeTimer(id, next) => s.(timers := SetState(s.timers, id, Scheduled), nextRuns := Put(s.nextRuns, id, next))
    case ClaimRun(_, _, _, _, _, _) => Claimed(s, c)
    case CompleteRun(runId, worker, token, at) =>
      if OwnedBy(s, runId, worker, token) then
        var id := s.activeRuns[runId].timerId;
        var done := Ended(s, runId, SetState(s.timers, id, Scheduled), Succeeded);
        done.(nextRuns := Rescheduled(calendar, done, id, at))
      else s
    case FailRun(runId, worker, token, error, _) =>
      if OwnedBy(s, runId, worker, token)
      then Ended(s, runId, SetState(s.timers, s.activeRuns[runId].timerId, Dead), Failed(error))
      else s
    case ExpireRunLease(runId, _, _) => if runId in s.activeRuns then Expired(s, c) else s
    case HeartbeatWorker(id, until) =>
      if id in s.workers then s.(workers := s.workers[id := s.workers[id].(leaseUntil := until)]) else s
    case RegisterWorker(id, tasks, until) =>
      s.(workers := s.workers[id := Worker(tasks, until)], history := s.history + [WorkerRegistered(id)])
    case UnregisterWorker(id) => s.(workers := s.workers - {id})
    case AddNode(node) => s.(nodes := s.nodes[node.nodeId := node])
    case RemoveNode(id) => s.(nodes := s.nodes - {id})
  }

  function Created(s: State, spec: TimerSpec, next: Option<Time>): State {
    s.(timers := s.timers[spec.id := Timer(spec, Scheduled, 0)],
       nextRuns := Put(s.nextRuns, spec.id, next),
       history := s.history + [TimerCreated(spec.id, spec.tenantId)])
  }

  // ----- The state machine as the store mutates it -----

  class PersistedStateMachine {
    const calendar: Calendar
    var timers: map<TimerId, Timer>
    var nextRuns: map<TimerId, Time>
    var pending: seq<WorkerRun>
    var activeRuns: map<RunId, ActiveRun>
    var workers: map<WorkerId, Worker>
    var nodes: map<string, Node>
    var history: seq<Record>

    constructor (calendar: Calendar)
      ensures View() == EMPTY && this.calendar == calendar
    {
      this.calendar := calendar;
      timers, nextRuns, pending, activeRuns := map[], map[], [], map[];
      workers, nodes, history := map[], map[], [];
    }

    function View(): State
      reads this
    {
      State(timers, nextRuns, pending, activeRuns, workers, nodes, history)
    }

    method SetTimerState(id: TimerId, state: TimerState)
      modifies this`timers
      ensures timers == SetState(old(timers), id, state)
    {
      if id in timers {
        timers := timers[id := timers[id].(state := state)];
      }
    }

    method RescheduleTimer(id: TimerId, after: Time)
      modifies this`nextRuns
      ensures nextRuns == Rescheduled(calendar, old(View()), id, after)
    {
      if id !in timers {
        return;
      }
      var spec := timers[id].spec;
      if spec.schedule.At? || spec.schedule.After? {
        nextRuns := nextRuns - {id};
      } else {
        var next := NextRunAfter(calendar, spec.schedule, after, spec.timezone);
        if next.Some? {
          nextRuns := nextRuns[id := next.value];
        } else {
          nextRuns := nextRuns - {id};
        }
      }
    }

    method RemovePendingRun(runId: RunId)
      modifies this`pending
      ensures pending == RemovePending(old(pending), runId)
    {
      var i := 0;
      while i < |pending| && pending[i].runId != runId
        invariant i <= |pending| && pending == old(pending)
        invariant forall j :: 0 <= j < i ==> pending[j].runId != runId
      {
        i := i + 1;
      }
      RemovePendingAt(pending, runId, i);
      if i < |pending| {
        pending := pending[..i] + pending[i + 1..];
      }
    }

    method ApplyKronCommand(c: Command)
      modifies this
      ensures View() == Apply(calendar, old(View()), c)
    {
      match c
      case CreateTimer(spec, next) => CreateOrUpdate(spec, next);
      case UpdateTimer(spec, next) => CreateOrUpdate(spec, next);
      case CancelTimer(id) =>
        SetTimerState(id, Cancelled);
        nextRuns := nextRuns - {id};
      case PauseTimer(id) =>
        SetTimerState(id, Paused);
        nextRuns := nextRuns - {id};
      case ResumeTimer(id, next) =>
        SetTimerState(id, Scheduled);
        SetNextRun(id, next);
      case ClaimRun(_, _, _, _, _, _) => ApplyClaim(c);
      case CompleteRun(_, _, _, _) => ApplyEnd(c);
      case FailRun(_, _, _, _, _) => ApplyEnd(c);
      case ExpireRunLease(_, _, _) => ApplyExpiry(c);
      case HeartbeatWorker(id, until) =>
        if id in workers {
          workers := workers[id := workers[id].(leaseUntil := until)];
        }
      case RegisterWorker(id, tasks, until) =>
        workers := workers[id := Worker(tasks, until)];
        history := history + [WorkerRegistered(id)];
      case UnregisterWorker(id) => workers := workers - {id};
      case AddNode(node) => nodes := nodes[node.nodeId := node];
      case RemoveNode(id) => nodes := nodes - {id};
    }

    method ApplyEnd(c: Command)
      requires c.CompleteRun? || c.FailRun?
      modifies this
      ensures View() == Apply(calendar, old(View()), c)
    {
      match c
      case CompleteRun(runId, workerId, token, at) =>
        var valid := OwnedBy(View(), runId, workerId, token);
        if valid {
          var run := activeRuns[runId];
          activeRuns := activeRuns - {runId};
          SetTimerState(run.timerId, Scheduled);
          RescheduleTimer(run.timerId, at);
          history := history + [RunEnded(Succeeded, run.timerId, TimerTenant(timers, run.timerId), runId, workerId,
                                         run.fencingToken)];
        }
      case FailRun(runId, workerId, token, error, _) =>
        var valid := OwnedBy(View(), runId, workerId, token);
        if valid {
          var run := activeRuns[runId];
          activeRuns := activeRuns - {runId};
          SetTimerState(run.timerId, Dead);
          history := history + [RunEnded(Failed(error), run.timerId, TimerTenant(timers, run.timerId), runId, workerId,
                                         run.fencingToken)];
        }
    }

    method ApplyClaim(c: Command)
      requires c.ClaimRun?
      modifies this
      ensures View() == Claimed(old(View()), c)
    {
      if exists r :: r in activeRuns && activeRuns[r].timerId == c.timerId {
        return;
      }
      if c.timerId in timers {
        timers := timers[c.timerId := timers[c.timerId].(state := Running, fencingToken := c.fencingToken)];
      }
      RemovePendingRun(c.runId);
      activeRuns := activeRuns[c.runId := ActiveRun(c.timerId, c.runId, c.workerId, c.fencingToken, c.attempt,
                                                    c.leaseDeadline)];
      history := history + [RunClaimed(c.timerId, TimerTenant(timers, c.timerId), c.runId, c.workerId, c.fencingToken)];
    }

    method ApplyExpiry(c: Command)
      requires c.ExpireRunLease?
      modifies this
      ensures View() == if c.runId in old(activeRuns) then Expired(old(View()), c) else old(View())
    {
      if c.runId !in activeRuns {
        return;
      }
      var run := activeRuns[c.runId];
      activeRuns := activeRuns - {c.runId};
      history := history + [RunEnded(LeaseExpired, run.timerId, TimerTenant(timers, run.timerId), run.runId, run.workerId,
                                     run.fencingToken)];
      if c.replacement.Some? {
        var next := c.replacement.value;
        if next.timer in timers {
          timers := timers[next.timer := timers[next.timer].(state := Retrying, fencingToken := next.fencingToken)];
        }
        pending := pending + [next];
      } else {
        SetTimerState(run.timerId, Dead);
      }
    }

    method SetNextRun(id: TimerId, next: Option<Time>)
      modifies this`nextRuns
      ensures nextRuns == Put(old(nextRuns), id, next)
    {
      if next.Some? {
        nextRuns := nextRuns[id := next.value];
      } else {
        nextRuns := nextRuns - {id};
      }
    }

    method CreateOrUpdate(spec: TimerSpec, next: Option<Time>)
      modifies this
      ensures View() == Created(old(View()), spec, next)
    {
      timers := timers[spec.id := Timer(spec, Scheduled, 0)];
      SetNextRun(spec.id, next);
      history := history + [TimerCreated(spec.id, TimerTenant(timers, spec.id))];
    }
  }
}
