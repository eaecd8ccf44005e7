/**
 The committed state part by part: which commands change the queue, the active runs, the workers, the nodes
 and the history, and how.
 */
module Parts {
  import opened Prelude
  import opened Retry
  import opened Schedules
  import opened Timers
  import opened Machine
  import opened Ownership
  import opened Leases

  /** A claim of a timer without an active run. */
  predicate ClaimsNow(s: State, c: Command) {
    c.ClaimRun? && forall r :: r in s.activeRuns ==> s.activeRuns[r].timerId != c.timerId
  }

  /** A completion, failure or expiry that finds its run active, and under the reported worker and token. */
  predicate EndsNow(s: State, c: Command) {
    (c.CompleteRun? || c.FailRun? || c.ExpireRunLease?) && c.runId in s.activeRuns
    && (!c.ExpireRunLease? ==>
          s.activeRuns[c.runId].workerId == c.workerId && s.activeRuns[c.runId].fencingToken == c.fencingToken)
  }

  /** The active runs gain a claimed run and lose an ended one, and change in no other way. */
  lemma ActiveRunsPart(calendar: Calendar, s: State, c: Command)
    ensures Apply(calendar, s, c).activeRuns
         == if ClaimsNow(s, c) then
              s.activeRuns[c.runId := ActiveRun(c.timerId, c.runId, c.workerId, c.fencingToken, c.attempt, c.leaseDeadline)]
            else if EndsNow(s, c) then s.activeRuns - {c.runId}
            else s.activeRuns
  {
    hide Rescheduled, RemovePending;
  }

  /** The index of the first pending unit of a run, or the length of the queue. */
  function FirstOf(pending: seq<WorkerRun>, r: RunId): (i: nat)
    ensures i <= |pending| && (i < |pending| ==> pending[i].runId == r)
    ensures forall j :: 0 <= j < i ==> pending[j].runId != r
  {
    if pending == [] || pending[0].runId == r then 0 else 1 + FirstOf(pending[1..], r)
  }

  /** The queue loses the first unit of a claimed run, gains a replacement at its end, and changes in no other way. */
  lemma PendingPart(calendar: Calendar, s: State, c: Command)
    ensures Apply(calendar, s, c).pending
         == if ClaimsNow(s, c) then
              var i := FirstOf(s.pending, c.runId);
              if i < |s.pending| then s.pending[..i] + s.pending[i + 1..] else s.pending
            else if c.ExpireRunLease? && EndsNow(s, c) && c.replacement.Some? then s.pending + [c.replacement.value]
            else s.pending
  {
    if c.ClaimRun? {
      RemovePendingAt(s.pending, c.runId, FirstOf(s.pending, c.runId));
    }
    hide Rescheduled, RemovePending;
  }

  /** Workers are registered, kept alive while registered, and unregistered. */
  lemma WorkersPart(calendar: Calendar, s: State, c: Command, w: WorkerId)
    ensures var s' := Apply(calendar, s, c);
      && (w in s'.workers <==> (c.RegisterWorker? && c.workerId == w) || (w in s.workers && c != UnregisterWorker(w)))
      && (w in s'.workers ==>
            s'.workers[w]
            == if c.RegisterWorker? && c.workerId == w then Worker(c.tasks, c.leaseUntil)
               else if c.HeartbeatWorker? && c.workerId == w then Worker(s.workers[w].tasks, c.leaseUntil)
               else s.workers[w])
  {
    hide Rescheduled, RemovePending;
  }

  lemma NodesPart(calendar: Calendar, s: State, c: Command, n: string)
    ensures var s' := Apply(calendar, s, c);
      && (n in s'.nodes <==> (c.AddNode? && c.node.nodeId == n) || (n in s.nodes && c != RemoveNode(n)))
      && (n in s'.nodes ==> s'.nodes[n] == if c.AddNode? && c.node.nodeId == n then c.node else s.nodes[n])
  {
    hide Rescheduled, RemovePending;
  }

  /** The tenant of a timer, as records show it. */
  function TenantOf(s: State, t: TimerId): Option<string> {
    if t in s.timers then s.timers[t].spec.tenantId else None
  }

  /** The record of a command that has an effect on runs, timers or workers. */
  function RecordOf(s: State, c: Command): Option<Record> {
    match c
    case CreateTimer(spec, _) => Some(TimerCreated(spec.id, spec.tenantId))
    case UpdateTimer(spec, _) => Some(TimerCreated(spec.id, spec.tenantId))
    case RegisterWorker(w, _, _) => Some(WorkerRegistered(w))
    case ClaimRun(t, r, w, token, _, _) =>
      if ClaimsNow(s, c) then Some(RunClaimed(t, TenantOf(s, t), r, w, token)) else None
    case CompleteRun(r, w, token, _) =>
      if EndsNow(s, c) then
        var t := s.activeRuns[r].timerId;
        Some(RunEnded(Succeeded, t, TenantOf(s, t), r, w, token))
      else None
    case FailRun(r, w, token, error, _) =>
      if EndsNow(s, c) then
        var t := s.activeRuns[r].timerId;
        Some(RunEnded(Failed(error), t, TenantOf(s, t), r, w, token))
      else None
    case ExpireRunLease(r, _, _) =>
      if EndsNow(s, c) then
        var run := s.activeRuns[r];
        Some(RunEnded(LeaseExpired, run.timerId, TenantOf(s, run.timerId), run.runId, run.workerId, run.fencingToken))
      else None
    case _ => None
  }

  /** The history grows by the record of every command that has an effect, and by nothing else. */
  lemma HistoryPart(calendar: Calendar, s: State, c: Command)
    ensures Apply(calendar, s, c).history == s.history + if RecordOf(s, c).Some? then [RecordOf(s, c).value] else []
  {
    hide Rescheduled, RemovePending;
  }

  // ----- Over the log -----

  /** The records of the first `k` commands that had an effect. */
  ghost function RecordsOf(calendar: Calendar, log: seq<Command>, k: nat): seq<Record>
    requires k <= |log|
  {
    if k == 0 then []
    else
      var r := RecordOf(StateAt(calendar, log, k - 1), log[k - 1]);
      RecordsOf(calendar, log, k - 1) + if r.Some? then [r.value] else []
  }

  /** The committed history tells every command that had an effect, once and in order. */
  lemma {:induction false} HistoryTells(calendar: Calendar, log: seq<Command>, k: nat)
    requires k <= |log|
    ensures StateAt(calendar, log, k).history == RecordsOf(calendar, log, k)
  {
    hide Apply, RecordOf;
    if k > 0 {
      HistoryTells(calendar, log, k - 1);
      StateStep(calendar, log, k);
      HistoryPart(calendar, StateAt(calendar, log, k - 1), log[k - 1]);
    }
  }

  ghost predicate ClaimsAt(calendar: Calendar, log: seq<Command>, i: nat, r: RunId) {
    i < |log| && log[i].ClaimRun? && log[i].runId == r && ClaimsNow(StateAt(calendar, log, i), log[i])
  }

  ghost predicate EndsAt(calendar: Calendar, log: seq<Command>, j: nat, r: RunId) {
    j < |log| && EndsNow(StateAt(calendar, log, j), log[j]) && log[j].runId == r
  }

  /** Claimed by command `i`, and not ended before `k`. */
  ghost predicate Lasts(calendar: Calendar, log: seq<Command>, i: nat, k: nat, r: RunId) {
    i < k && ClaimsAt(calendar, log, i, r) && forall j :: i < j < k ==> !EndsAt(calendar, log, j, r)
  }

  /** A run is active exactly if it was claimed and no later command has ended it. */
  lemma {:induction false} ActiveSinceClaim(calendar: Calendar, log: seq<Command>, k: nat, r: RunId)
    requires k <= |log|
    ensures r in StateAt(calendar, log, k).activeRuns <==> exists i: nat :: Lasts(calendar, log, i, k, r)
  {
    hide Apply, ClaimsAt, EndsAt;
    if k > 0 {
      ActiveSinceClaim(calendar, log, k - 1, r);
      ActiveAt(calendar, log, k - 1, r);
      hide StateAt;
      if i: nat :| Lasts(calendar, log, i, k, r) {
        assert i == k - 1 || Lasts(calendar, log, i, k - 1, r);
      }
      var n := k - 1;
      if i: nat :| Lasts(calendar, log, i, n, r) {
        assert EndsAt(calendar, log, k - 1, r) || Lasts(calendar, log, i, k, r);
      }
      if ClaimsAt(calendar, log, k - 1, r) {
        assert Lasts(calendar, log, k - 1, k, r);
      }
    }
  }

  lemma ActiveAt(calendar: Calendar, log: seq<Command>, k: nat, r: RunId)
    requires k < |log|
    ensures r in StateAt(calendar, log, k + 1).activeRuns <==>
            ClaimsAt(calendar, log, k, r) || (r in StateAt(calendar, log, k).activeRuns && !EndsAt(calendar, log, k, r))
  {
    StateStep(calendar, log, k + 1);
    ActiveRunsPart(calendar, StateAt(calendar, log, k), log[k]);
    hide Apply, StateAt;
  }
}
