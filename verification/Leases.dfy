/**
 Claiming, completing and expiring runs on the server (`runtime.rs`). A node reads a committed
 state, builds a command from it, and the command is committed later, after any others.
 */
module Leases {
  import opened Prelude
  import opened Retry
  import opened Schedules
  import opened Timers
  import opened Machine
  import opened Ownership

  // ----- What a node proposes from the state it sees -----

  predicate TenantMatches(request: Option<string>, resource: Option<string>) {
    request == None || request == Some("*") || resource == request
  }

  predicate Claimable(s: State, id: TimerId, tasks: seq<string>, tenant: Option<string>, now: Time) {
    && id in s.timers
    && TenantMatches(tenant, s.timers[id].spec.tenantId)
    && !HasActiveRun(s, id)
    && id in s.nextRuns && s.nextRuns[id] <= now
    && s.timers[id].spec.target.WorkerTask?
    && s.timers[id].spec.target.task in tasks
  }

  /** A request under a tenant sees the timers of that tenant and no others; one under none, or under all, sees every timer. */
  lemma TenantsApart(request: Option<string>, resource: Option<string>)
    ensures request.Some? && request.value != "*" ==> (TenantMatches(request, resource) <==> resource == request)
    ensures request.None? || request.value == "*" ==> TenantMatches(request, resource)
  {
  }

  function ClaimFor(s: State, id: TimerId, runId: RunId): WorkerRun
    requires id in s.timers && s.timers[id].spec.target.WorkerTask?
  {
    var timer := s.timers[id];
    WorkerRun(id, timer.spec.tenantId, runId, timer.spec.target.task, timer.spec.target.payload, 1, timer.fencingToken + 1)
  }

  /** The unit of work carries the tenant, task and payload of its timer. */
  predicate OffersTask(view: State, run: WorkerRun) {
    run.timer in view.timers
    && var spec := view.timers[run.timer].spec;
      spec.target == WorkerTask(run.task, run.payload) && run.tenantId == spec.tenantId
  }

  function ClaimCommand(run: WorkerRun, workerId: WorkerId, leaseDeadline: Time): Command {
    ClaimRun(run.timer, run.runId, workerId, run.fencingToken, run.attempt, leaseDeadline)
  }

  /** The facts about a claim command that the protocol rests on. */
  ghost predicate ProposesClaim(view: State, c: Command) {
    && c.ClaimRun?
    && c.timerId in view.timers
    && !HasActiveRun(view, c.timerId)
    && c.fencingToken == view.timers[c.timerId].fencingToken + 1
    && c.attempt == 1
  }

  /**
   The selection of `try_claim`: the first claimable timer, in the key order `order` of the timers.
   `runId` is the new run's id.
   */
  method SelectClaim(view: State, order: seq<TimerId>, tasks: seq<string>, tenant: Option<string>, now: Time,
                     runId: RunId, workerId: WorkerId, leaseDeadline: Time)
    returns (run: Option<WorkerRun>)
    requires forall id :: id in order <==> id in view.timers
    ensures run == None <==> forall id :: !Claimable(view, id, tasks, tenant, now)
    ensures run.Some? ==> exists k | 0 <= k < |order| ::
              && Claimable(view, order[k], tasks, tenant, now)
              && (forall j :: 0 <= j < k ==> !Claimable(view, order[j], tasks, tenant, now))
              && run.value == ClaimFor(view, order[k], runId)
    ensures run.Some? ==> ProposesClaim(view, ClaimCommand(run.value, workerId, leaseDeadline))
    ensures run.Some? ==> run.value.runId == runId && OffersTask(view, run.value)
  {
    for k := 0 to |order|
      invariant forall j :: 0 <= j < k ==> !Claimable(view, order[j], tasks, tenant, now)
    {
      var id := order[k];
      var timer := view.timers[id];
      if TenantMatches(tenant, timer.spec.tenantId) && !HasActiveRun(view, id) {
        if id in view.nextRuns && view.nextRuns[id] <= now {
          if timer.spec.target.WorkerTask? && timer.spec.target.task in tasks {
            assert Claimable(view, id, tasks, tenant, now);
            return Some(ClaimFor(view, id, runId));
          }
        }
      }
    }
    return None;
  }

  /** The final check of `try_claim`: the run is handed out only if it is owned in the state read back. */
  function HandOut(view: State, run: WorkerRun, workerId: WorkerId): Option<WorkerRun> {
    if OwnedBy(view, run.runId, workerId, run.fencingToken) then Some(run) else None
  }

  /** What replaces a run whose lease ran out; None sends the timer to Dead. */
  function Replacement(view: State, run: ActiveRun): Option<WorkerRun> {
    if run.timerId !in view.timers then None
    else
      var timer := view.timers[run.timerId];
      if run.attempt >= timer.spec.retry.maxAttempts || !timer.spec.target.WorkerTask? then None
      else Some(WorkerRun(run.timerId, timer.spec.tenantId, run.runId, timer.spec.target.task, timer.spec.target.payload,
                          run.attempt + 1, timer.fencingToken + 1))
  }

  /**
   The run is replaced exactly if its timer exists, is a worker's and allows another attempt; then by the
   same run of the same timer, with the timer's task, under the next attempt and the next token.
   */
  predicate ReplacedFairly(view: State, run: ActiveRun, replacement: Option<WorkerRun>) {
    && (replacement.Some? <==>
          && run.timerId in view.timers && view.timers[run.timerId].spec.target.WorkerTask?
          && run.attempt < view.timers[run.timerId].spec.retry.maxAttempts)
    && (replacement.Some? ==>
          var next, spec := replacement.value, view.timers[run.timerId].spec;
          && next.timer == run.timerId && next.tenantId == spec.tenantId && next.runId == run.runId
          && next.task == spec.target.task && next.payload == spec.target.payload
          && next.attempt == run.attempt + 1 && next.fencingToken == view.timers[run.timerId].fencingToken + 1)
  }

  ghost predicate ProposesExpiry(view: State, c: Command) {
    && c.ExpireRunLease?
    && c.runId in view.activeRuns
    && view.activeRuns[c.runId].leaseDeadline <= c.expiredAt
    && c.replacement == Replacement(view, view.activeRuns[c.runId])
  }

  /** `order` lists the active runs; every overdue one gets a command, no other does. */
  method ExpireActiveLeases(view: State, order: seq<RunId>, now: Time) returns (commands: seq<Command>)
    requires forall r :: r in order <==> r in view.activeRuns
    requires forall r :: r in view.activeRuns ==> view.activeRuns[r].runId == r
    ensures forall c :: c in commands ==> ProposesExpiry(view, c) && c.expiredAt == now
    ensures forall c :: c in commands ==>
              && c.ExpireRunLease? && c.runId in view.activeRuns
              && ReplacedFairly(view, view.activeRuns[c.runId], c.replacement)
    ensures forall r :: (exists c :: c in commands && c.ExpireRunLease? && c.runId == r)
                        <==> (r in view.activeRuns && view.activeRuns[r].leaseDeadline <= now)
  {
    commands := [];
    for k := 0 to |order|
      invariant forall c :: c in commands ==> ProposesExpiry(view, c) && c.expiredAt == now
      invariant forall c :: c in commands ==> c.runId in order[..k]
      invariant forall r :: r in order[..k] && view.activeRuns[r].leaseDeadline <= now ==>
                  ExpireRunLease(r, Replacement(view, view.activeRuns[r]), now) in commands
    {
      var active := view.activeRuns[order[k]];
      if active.leaseDeadline <= now {
        commands := commands + [ExpireRunLease(active.runId, Replacement(view, active), now)];
      }
      assert order[..k + 1] == order[..k] + [order[k]];
    }
    assert order[..|order|] == order;
    forall r | r in view.activeRuns && view.activeRuns[r].leaseDeadline <= now
      ensures exists c :: c in commands && c.ExpireRunLease? && c.runId == r
    {
      assert ExpireRunLease(r, Replacement(view, view.activeRuns[r]), now) in commands;
    }
  }

  datatype Refusal = NotActive | NotOwner | StaleToken | WrongTenant

  /** The check a node makes before it proposes a completion or failure; None lets it through. */
  function ValidateActiveRun(view: State, runId: RunId, workerId: WorkerId, token: nat, tenant: Option<string>): Option<Refusal>
  {
    if runId !in view.activeRuns then Some(NotActive)
    else
      var run := view.activeRuns[runId];
      if run.workerId != workerId then Some(NotOwner)
      else if run.fencingToken != token then Some(StaleToken)
      else if !TenantMatches(tenant, TimerTenant(view.timers, run.timerId)) then Some(WrongTenant)
      else None
  }

  /** A report passes exactly if it is the owner's, with the run's token, and from a tenant that may see the timer. */
  lemma ValidateExact(view: State, runId: RunId, workerId: WorkerId, token: nat, tenant: Option<string>)
    ensures ValidateActiveRun(view, runId, workerId, token, tenant) == None <==>
            && runId in view.activeRuns
            && view.activeRuns[runId].workerId == workerId && view.activeRuns[runId].fencingToken == token
            && TenantMatches(tenant, TimerTenant(view.timers, view.activeRuns[runId].timerId))
    ensures ValidateActiveRun(view, runId, workerId, token, tenant) == Some(NotActive) <==> runId !in view.activeRuns
    ensures ValidateActiveRun(view, runId, workerId, token, tenant) == Some(NotOwner) <==>
            runId in view.activeRuns && view.activeRuns[runId].workerId != workerId
  {
  }

  // ----- Logs that nodes produce -----

  /**
   Command `i` of the log was built from the committed state after `views[i]` commands, an
   earlier one: nodes may lag, commands may be delayed and duplicated. Operators and workers may
   propose anything else, including completions that nobody validated.
   */
  ghost predicate Honest(calendar: Calendar, log: seq<Command>, views: seq<nat>) {
    && FreshRunIds(log)
    && |views| == |log|
    && (forall i :: 0 <= i < |log| ==> views[i] <= i)
    && (forall i :: 0 <= i < |log| && log[i].ClaimRun? ==> ProposesClaim(StateAt(calendar, log, views[i]), log[i]))
    && (forall i :: 0 <= i < |log| && log[i].ExpireRunLease? ==>
          ProposesExpiry(StateAt(calendar, log, views[i]), log[i]))
  }

  // ----- A run is active in one stretch, unchanged -----

  /** A run is active because it was, unchanged, or because the command just claimed it. */
  lemma ActiveStep(calendar: Calendar, s: State, c: Command, r: RunId)
    requires r in Apply(calendar, s, c).activeRuns
    ensures var run := Apply(calendar, s, c).activeRuns[r];
      if c.ClaimRun? && c.runId == r && !HasActiveRun(s, c.timerId)
      then run == ActiveRun(c.timerId, r, c.workerId, c.fencingToken, c.attempt, c.leaseDeadline)
      else r in s.activeRuns && run == s.activeRuns[r]
  {
  }

  lemma {:induction false} ActiveFromClaim(calendar: Calendar, log: seq<Command>, k: nat, r: RunId) returns (c: nat)
    requires k <= |log| && r in StateAt(calendar, log, k).activeRuns
    ensures c < k && log[c].ClaimRun? && log[c].runId == r
    ensures var run := StateAt(calendar, log, k).activeRuns[r];
      run == ActiveRun(log[c].timerId, r, log[c].workerId, log[c].fencingToken, log[c].attempt, log[c].leaseDeadline)
    ensures !HasActiveRun(StateAt(calendar, log, c), log[c].timerId)
    ensures forall j :: c < j <= k ==> r in StateAt(calendar, log, j).activeRuns
  {
    hide Apply;
    StateStep(calendar, log, k);
    var s := StateAt(calendar, log, k - 1);
    ActiveStep(calendar, s, log[k - 1], r);
    if log[k - 1].ClaimRun? && log[k - 1].runId == r && !HasActiveRun(s, log[k - 1].timerId) {
      c := k - 1;
    } else {
      c := ActiveFromClaim(calendar, log, k - 1, r);
    }
  }

  /** If a run is active in two states, it is the same run, active in all states between. */
  lemma ActiveStretch(calendar: Calendar, log: seq<Command>, k: nat, i: nat, r: RunId)
    requires FreshRunIds(log) && k <= i <= |log|
    requires r in StateAt(calendar, log, k).activeRuns && r in StateAt(calendar, log, i).activeRuns
    ensures StateAt(calendar, log, k).activeRuns[r] == StateAt(calendar, log, i).activeRuns[r]
    ensures forall j :: k <= j <= i ==> r in StateAt(calendar, log, j).activeRuns
  {
    var c := ActiveFromClaim(calendar, log, k, r);
    var d := ActiveFromClaim(calendar, log, i, r);
    assert c == d;
  }

  lemma EndedStays(calendar: Calendar, log: seq<Command>, k: nat, i: nat, r: RunId)
    requires FreshRunIds(log) && k < i <= |log|
    requires r in StateAt(calendar, log, k).activeRuns && r !in StateAt(calendar, log, k + 1).activeRuns
    ensures r !in StateAt(calendar, log, i).activeRuns
  {
    if r in StateAt(calendar, log, i).activeRuns {
      ActiveStretch(calendar, log, k, i, r);
    }
  }

  /** Once a run has ended, no completion, failure or expiry of it changes the committed state. */
  lemma EndedForever(calendar: Calendar, log: seq<Command>, k: nat, i: nat, c: Command)
    requires FreshRunIds(log) && k < i <= |log|
    requires c.CompleteRun? || c.FailRun? || c.ExpireRunLease?
    requires c.runId in StateAt(calendar, log, k).activeRuns && c.runId !in StateAt(calendar, log, k + 1).activeRuns
    ensures Apply(calendar, StateAt(calendar, log, i), c) == StateAt(calendar, log, i)
  {
    EndedStays(calendar, log, k, i, c.runId);
  }

  // ----- Lease expiry is exact -----

  /**
   However late or often an expiry is committed: it removes a run only at or after the run's
   deadline, with the timer of that run as the replacement's timer, and then no later expiry of
   the run has any effect -- so a claim is replaced at most once.
   */
  lemma ExpiryExact(calendar: Calendar, log: seq<Command>, views: seq<nat>, i: nat)
    requires Honest(calendar, log, views) && i < |log| && log[i].ExpireRunLease?
    requires log[i].runId in StateAt(calendar, log, i).activeRuns
    ensures var run := StateAt(calendar, log, i).activeRuns[log[i].runId];
      && run.leaseDeadline <= log[i].expiredAt
      && run == StateAt(calendar, log, views[i]).activeRuns[log[i].runId]
      && (log[i].replacement.Some? ==>
            log[i].replacement.value.timer == run.timerId && log[i].replacement.value.runId == run.runId)
    ensures forall j :: i < j <= |log| ==> log[i].runId !in StateAt(calendar, log, j).activeRuns
  {
    var r := log[i].runId;
    ActiveStretch(calendar, log, views[i], i, r);
    StateStep(calendar, log, i + 1);
    forall j | i < j <= |log|
      ensures r !in StateAt(calendar, log, j).activeRuns
    {
      EndedStays(calendar, log, i, j, r);
    }
  }

  /** A completion that a node validated, on however old a view, ends the run if and only if it is still active. */
  lemma ValidatedCompletion(calendar: Calendar, log: seq<Command>, k: nat, i: nat, c: Command, tenant: Option<string>)
    requires FreshRunIds(log) && k <= i <= |log| && c.CompleteRun?
    requires ValidateActiveRun(StateAt(calendar, log, k), c.runId, c.workerId, c.fencingToken, tenant) == None
    ensures var s := StateAt(calendar, log, i); var s' := Apply(calendar, s, c);
      && (c.runId in s.activeRuns ==> s'.activeRuns == s.activeRuns - {c.runId} && |s'.history| == |s.history| + 1)
      && (c.runId !in s.activeRuns ==> s' == s)
  {
    if c.runId in StateAt(calendar, log, i).activeRuns {
      ActiveStretch(calendar, log, k, i, c.runId);
    }
  }

  // ----- Running means owned -----

  ghost predicate OwnedTimer(s: State, t: TimerId, r: RunId)
    requires t in s.timers
  {
    r in s.activeRuns && s.activeRuns[r].timerId == t && s.activeRuns[r].fencingToken == s.timers[t].fencingToken
  }

  ghost predicate RunningOwned(s: State) {
    forall t :: t in s.timers && s.timers[t].state == Running ==> exists r :: OwnedTimer(s, t, r)
  }

  /** A timer enters Running only by a claim; any other command leaves a Running timer as it was. */
  lemma RunningBefore(calendar: Calendar, s: State, c: Command, t: TimerId)
    requires var s' := Apply(calendar, s, c); t in s'.timers && s'.timers[t].state == Running
    requires !(c.ClaimRun? && c.timerId == t && !HasActiveRun(s, t))
    ensures t in s.timers && s.timers[t] == Apply(calendar, s, c).timers[t]
  {
  }

  /** An active run disappears only with a command that ends it. */
  lemma RunKept(calendar: Calendar, s: State, c: Command, r: RunId)
    requires r in s.activeRuns && (c.ClaimRun? ==> c.runId !in s.activeRuns)
    ensures var s' := Apply(calendar, s, c);
      || (r in s'.activeRuns && s'.activeRuns[r] == s.activeRuns[r])
      || ((c.CompleteRun? || c.FailRun? || c.ExpireRunLease?) && c.runId == r && s' != s)
  {
  }

  /** A command that ends a run takes its timer out of Running. */
  lemma EndStopsRunning(calendar: Calendar, s: State, c: Command, t: TimerId)
    requires (c.CompleteRun? || c.FailRun? || c.ExpireRunLease?) && Apply(calendar, s, c) != s
    requires c.runId in s.activeRuns && s.activeRuns[c.runId].timerId == t && t in s.timers
    requires c.ExpireRunLease? && c.replacement.Some? ==> c.replacement.value.timer == t
    ensures t in Apply(calendar, s, c).timers && Apply(calendar, s, c).timers[t].state != Running
  {
  }

  lemma RunningStep(calendar: Calendar, s: State, c: Command, t: TimerId)
    requires RunningOwned(s)
    requires forall r :: r in s.activeRuns ==> s.activeRuns[r].runId == r
    requires c.ClaimRun? ==> c.runId !in s.activeRuns
    requires c.ExpireRunLease? && c.runId in s.activeRuns && c.replacement.Some? ==>
               c.replacement.value.timer == s.activeRuns[c.runId].timerId
    requires var s' := Apply(calendar, s, c); t in s'.timers && s'.timers[t].state == Running
    ensures exists r :: OwnedTimer(Apply(calendar, s, c), t, r)
  {
    if c.ClaimRun? && c.timerId == t && !HasActiveRun(s, t) {
      assert OwnedTimer(Apply(calendar, s, c), t, c.runId);
    } else {
      hide Apply;
      RunningBefore(calendar, s, c, t);
      var r :| OwnedTimer(s, t, r);
      RunKept(calendar, s, c, r);
      if (c.CompleteRun? || c.FailRun? || c.ExpireRunLease?) && c.runId == r && Apply(calendar, s, c) != s {
        EndStopsRunning(calendar, s, c, t);
      }
      assert OwnedTimer(Apply(calendar, s, c), t, r);
    }
  }

  /** A command of an honest log satisfies what `RunningStep` asks of it. */
  lemma HonestCommand(calendar: Calendar, log: seq<Command>, views: seq<nat>, k: nat)
    requires Honest(calendar, log, views) && k < |log|
    ensures var s, c := StateAt(calendar, log, k), log[k];
      && (forall r :: r in s.activeRuns ==> s.activeRuns[r].runId == r)
      && (c.ClaimRun? ==> c.runId !in s.activeRuns)
      && (c.ExpireRunLease? && c.runId in s.activeRuns && c.replacement.Some? ==>
            c.replacement.value.timer == s.activeRuns[c.runId].timerId)
  {
    hide StateAt, Apply;
    var s, c := StateAt(calendar, log, k), log[k];
    LogKeeps(calendar, log, k);
    if c.ClaimRun? && c.runId in s.activeRuns {
      var i := ActiveFromClaim(calendar, log, k, c.runId);
    }
    if c.ExpireRunLease? && c.runId in s.activeRuns {
      ExpiryExact(calendar, log, views, k);
    }
  }

  /**
   In every committed state of an honest log, a timer in Running has an active run with the
   timer's fencing token, and no timer has two active runs.
   */
  lemma {:induction false} RunningMeansOwned(calendar: Calendar, log: seq<Command>, views: seq<nat>, k: nat)
    requires Honest(calendar, log, views) && k <= |log|
    ensures var s := StateAt(calendar, log, k);
      && RunningOwned(s)
      && forall q, r | q in s.activeRuns && r in s.activeRuns && q != r ::
           s.activeRuns[q].timerId != s.activeRuns[r].timerId
  {
    hide Apply, Honest, Check;
    assert FreshRunIds(log) by { HonestFresh(calendar, log, views); }
    SingleOwner(calendar, log, k);
    if k > 0 {
      RunningMeansOwned(calendar, log, views, k - 1);
      RunningStepAt(calendar, log, views, k - 1);
    }
  }

  lemma HonestFresh(calendar: Calendar, log: seq<Command>, views: seq<nat>)
    requires Honest(calendar, log, views)
    ensures FreshRunIds(log)
  {
  }

  lemma RunningStepAt(calendar: Calendar, log: seq<Command>, views: seq<nat>, k: nat)
    requires Honest(calendar, log, views) && k < |log| && RunningOwned(StateAt(calendar, log, k))
    ensures RunningOwned(StateAt(calendar, log, k + 1))
  {
    hide StateAt, Apply;
    var s, c, s' := StateAt(calendar, log, k), log[k], StateAt(calendar, log, k + 1);
    HonestCommand(calendar, log, views, k);
    StateStep(calendar, log, k + 1);
    forall t | t in s'.timers && s'.timers[t].state == Running
      ensures exists r :: OwnedTimer(s', t, r)
    {
      RunningStep(calendar, s, c, t);
    }
  }

  // ----- Every run handed out was claimed -----

  lemma EffectiveClaim(s: State, c: Command)
    requires c.ClaimRun? && !HasActiveRun(s, c.timerId)
    ensures exists tenant ::
      Claimed(s, c).history == s.history + [RunClaimed(c.timerId, tenant, c.runId, c.workerId, c.fencingToken)]
  {
    assert Claimed(s, c).history == s.history + [RunClaimed(c.timerId, Claimed(s, c).history[|s.history|].tenantId,
                                                            c.runId, c.workerId, c.fencingToken)];
  }

  /** A run that `try_claim` returns was claimed by an effective command, recorded with its worker and token. */
  lemma HandedOutWasClaimed(calendar: Calendar, log: seq<Command>, k: nat, run: WorkerRun, workerId: WorkerId)
    returns (c: nat)
    requires k <= |log|
    requires HandOut(StateAt(calendar, log, k), run, workerId).Some?
    ensures c < k && log[c].ClaimRun?
    ensures exists tenant ::
      StateAt(calendar, log, c + 1).history
      == StateAt(calendar, log, c).history + [RunClaimed(log[c].timerId, tenant, run.runId, workerId, run.fencingToken)]
  {
    c := ActiveFromClaim(calendar, log, k, run.runId);
    EffectiveClaim(StateAt(calendar, log, c), log[c]);
    StateStep(calendar, log, c + 1);
  }

  /** A claim proposed from the state that it meets is effective, and its run is handed out, with the command's token. */
  lemma AtomicClaimHandsOut(calendar: Calendar, s: State, run: WorkerRun, workerId: WorkerId, leaseDeadline: Time)
    requires ProposesClaim(s, ClaimCommand(run, workerId, leaseDeadline))
    ensures var s' := Apply(calendar, s, ClaimCommand(run, workerId, leaseDeadline));
      && HandOut(s', run, workerId) == Some(run)
      && run.runId in s'.activeRuns && s'.activeRuns[run.runId].leaseDeadline == leaseDeadline
      && run.timer in s'.timers && s'.timers[run.timer].state == Running
      && s'.timers[run.timer].fencingToken == run.fencingToken
  {
  }

  // ----- Fencing tokens -----

  /** Every claim is read and committed in one step. */
  ghost predicate AtomicClaims(log: seq<Command>, views: seq<nat>)
    requires |views| == |log|
  {
    forall i :: 0 <= i < |log| && log[i].ClaimRun? ==> views[i] == i
  }

  /** The timer is created once and not updated. */
  ghost predicate CreatedOnce(calendar: Calendar, log: seq<Command>, t: TimerId) {
    forall i :: 0 <= i < |log| && (log[i].CreateTimer? || log[i].UpdateTimer?) && log[i].spec.id == t ==>
      t !in StateAt(calendar, log, i).timers
  }

  /** The command takes a fresh token for `t`: an effective claim, or an expiry that replaces the run. */
  ghost predicate TakesToken(s: State, c: Command, t: TimerId) {
    || (c.ClaimRun? && c.timerId == t && !HasActiveRun(s, t))
    || (c.ExpireRunLease? && c.runId in s.activeRuns && s.activeRuns[c.runId].timerId == t && c.replacement.Some?)
  }

  lemma OtherCommandsKeepToken(calendar: Calendar, s: State, c: Command, t: TimerId)
    requires t in s.timers && !TakesToken(s, c, t)
    requires (c.CreateTimer? || c.UpdateTimer?) ==> c.spec.id != t
    requires c.ExpireRunLease? && c.runId in s.activeRuns && c.replacement.Some? ==>
               c.replacement.value.timer == s.activeRuns[c.runId].timerId
    ensures var s' := Apply(calendar, s, c); t in s'.timers && s'.timers[t].fencingToken == s.timers[t].fencingToken
  {
  }

  ghost function TokenAt(calendar: Calendar, log: seq<Command>, k: nat, t: TimerId): Option<nat>
    requires k <= |log|
  {
    var s := StateAt(calendar, log, k);
    if t in s.timers then Some(s.timers[t].fencingToken) else None
  }

  ghost predicate RunsAt(calendar: Calendar, log: seq<Command>, k: nat, r: RunId, t: TimerId)
    requires k <= |log|
  {
    var s := StateAt(calendar, log, k);
    r in s.activeRuns && s.activeRuns[r].timerId == t
  }

  lemma TokenStep(calendar: Calendar, log: seq<Command>, views: seq<nat>, i: nat, r: RunId, t: TimerId)
    requires Honest(calendar, log, views) && CreatedOnce(calendar, log, t) && i < |log|
    requires RunsAt(calendar, log, i, r, t) && RunsAt(calendar, log, i + 1, r, t)
    requires TokenAt(calendar, log, i, t).Some?
    ensures TokenAt(calendar, log, i + 1, t) == TokenAt(calendar, log, i, t)
  {
    var s, c := StateAt(calendar, log, i), log[i];
    StateStep(calendar, log, i + 1);
    SingleOwner(calendar, log, i);
    if c.ExpireRunLease? && c.runId in s.activeRuns {
      ExpiryExact(calendar, log, views, i);
    }
    OtherCommandsKeepToken(calendar, s, c, t);
  }

  /** While a run of `t` is active, the token of `t` stays. */
  lemma TokenHeld(calendar: Calendar, log: seq<Command>, views: seq<nat>, k: nat, i: nat, r: RunId, t: TimerId)
    requires Honest(calendar, log, views) && CreatedOnce(calendar, log, t) && k <= i <= |log|
    requires RunsAt(calendar, log, k, r, t) && r in StateAt(calendar, log, i).activeRuns
    requires TokenAt(calendar, log, k, t).Some?
    ensures TokenAt(calendar, log, i, t) == TokenAt(calendar, log, k, t)
  {
    hide StateAt;
    ActiveStretch(calendar, log, k, i, r);
    forall j | k <= j <= i
      ensures RunsAt(calendar, log, j, r, t)
    {
      ActiveStretch(calendar, log, k, j, r);
    }
    for j := k to i
      invariant TokenAt(calendar, log, j, t) == TokenAt(calendar, log, k, t)
    {
      TokenStep(calendar, log, views, j, r, t);
    }
  }

  /**
   If the timer is created once, its token grows by exactly one with every replaced expiry, however
   stale, and with every effective claim that is atomic itself, and with nothing else.
   */
  lemma TokenGrows(calendar: Calendar, log: seq<Command>, views: seq<nat>, i: nat, t: TimerId)
    requires Honest(calendar, log, views) && CreatedOnce(calendar, log, t)
    requires i < |log| && t in StateAt(calendar, log, i).timers && (log[i].ClaimRun? ==> views[i] == i)
    ensures t in StateAt(calendar, log, i + 1).timers
    ensures StateAt(calendar, log, i + 1).timers[t].fencingToken
         == StateAt(calendar, log, i).timers[t].fencingToken + if TakesToken(StateAt(calendar, log, i), log[i], t) then 1 else 0
  {
    var s, c := StateAt(calendar, log, i), log[i];
    StateStep(calendar, log, i + 1);
    if c.ExpireRunLease? && c.runId in s.activeRuns {
      ExpiryExact(calendar, log, views, i);
    }
    if !TakesToken(s, c, t) {
      OtherCommandsKeepToken(calendar, s, c, t);
    } else if c.ExpireRunLease? {
      TokenHeld(calendar, log, views, views[i], i, c.runId, t);
    }
  }

  lemma TimersKept(calendar: Calendar, s: State, c: Command)
    ensures s.timers.Keys <= Apply(calendar, s, c).timers.Keys
  {
  }

  lemma TimersPersist(calendar: Calendar, log: seq<Command>, k: nat, i: nat, t: TimerId)
    requires k <= i <= |log| && t in StateAt(calendar, log, k).timers
    ensures t in StateAt(calendar, log, i).timers
  {
    hide StateAt, Apply;
    for j := k to i
      invariant t in StateAt(calendar, log, j).timers
    {
      StateStep(calendar, log, j + 1);
      TimersKept(calendar, StateAt(calendar, log, j), log[j]);
    }
  }

  lemma ClaimSetsToken(calendar: Calendar, s: State, c: Command)
    requires c.ClaimRun? && !HasActiveRun(s, c.timerId) && c.timerId in s.timers
    ensures var s' := Apply(calendar, s, c);
      c.timerId in s'.timers && s'.timers[c.timerId].fencingToken == c.fencingToken
  {
  }

  /**
   Without atomic claims a claim takes the token after the one its node saw, so it raises the
   token if and only if the token has not moved on since.
   */
  lemma ClaimTokenExact(calendar: Calendar, log: seq<Command>, views: seq<nat>, i: nat)
    requires Honest(calendar, log, views) && i < |log| && log[i].ClaimRun?
    requires !HasActiveRun(StateAt(calendar, log, i), log[i].timerId)
    ensures var t := log[i].timerId;
      && TokenAt(calendar, log, views[i], t).Some? && TokenAt(calendar, log, i, t).Some?
      && TokenAt(calendar, log, i + 1, t) == Some(TokenAt(calendar, log, views[i], t).value + 1)
      && (TokenAt(calendar, log, i + 1, t).value > TokenAt(calendar, log, i, t).value
          <==> TokenAt(calendar, log, i, t).value <= TokenAt(calendar, log, views[i], t).value)
  {
    hide StateAt, Apply;
    TimersPersist(calendar, log, views[i], i, log[i].timerId);
    ClaimSetsToken(calendar, StateAt(calendar, log, i), log[i]);
    StateStep(calendar, log, i + 1);
  }

  function StaleLog(spec: TimerSpec): seq<Command> {
    [CreateTimer(spec, Some(0)), ClaimRun(spec.id, "r1", "w1", 1, 1, 30), CompleteRun("r1", "w1", 1, 5),
     ClaimRun(spec.id, "r2", "w2", 1, 1, 60)]
  }

  lemma StaleStates(calendar: Calendar, spec: TimerSpec)
    ensures StateAt(calendar, StaleLog(spec), 1).timers == map[spec.id := Timer(spec, Scheduled, 0)]
    ensures StateAt(calendar, StaleLog(spec), 1).activeRuns == map[]
    ensures TokenAt(calendar, StaleLog(spec), 2, spec.id) == Some(1)
    ensures StateAt(calendar, StaleLog(spec), 3).timers == map[spec.id := Timer(spec, Scheduled, 1)]
    ensures StateAt(calendar, StaleLog(spec), 3).activeRuns == map[]
  {
    var log := StaleLog(spec);
    StateStep(calendar, log, 1);
    StateStep(calendar, log, 2);
    StateStep(calendar, log, 3);
    assert StateAt(calendar, log, 0) == EMPTY;
    hide StateAt, Rescheduled;
    assert StateAt(calendar, log, 2).activeRuns == map["r1" := ActiveRun(spec.id, "r1", "w1", 1, 1, 30)];
    assert OwnedBy(StateAt(calendar, log, 2), "r1", "w1", 1);
  }

  /** A delayed claim: the run of worker w2 is claimed with the very token that worker w1's run had. */
  lemma StaleClaimRepeatsToken(calendar: Calendar, spec: TimerSpec) returns (log: seq<Command>, views: seq<nat>)
    ensures Honest(calendar, log, views) && |log| == 4
    ensures log[1].ClaimRun? && log[3].ClaimRun?
    ensures TakesToken(StateAt(calendar, log, 1), log[1], spec.id)
    ensures TakesToken(StateAt(calendar, log, 3), log[3], spec.id)
    ensures log[1].workerId != log[3].workerId && log[1].fencingToken == log[3].fencingToken
    ensures TokenAt(calendar, log, 4, spec.id) == TokenAt(calendar, log, 2, spec.id) == Some(1)
  {
    log, views := StaleLog(spec), [0, 1, 2, 1];
    StaleHonest(calendar, spec);
    StaleStates(calendar, spec);
    StateStep(calendar, log, 4);
    hide StateAt, Honest;
  }

  lemma StaleHonest(calendar: Calendar, spec: TimerSpec)
    ensures Honest(calendar, StaleLog(spec), [0, 1, 2, 1])
  {
    StaleStates(calendar, spec);
    hide StateAt;
  }

  function RecreatedLog(spec: TimerSpec): seq<Command> {
    [CreateTimer(spec, Some(0)), ClaimRun(spec.id, "r1", "w1", 1, 1, 30), CompleteRun("r1", "w1", 1, 5),
     CreateTimer(spec, Some(0)), ClaimRun(spec.id, "r2", "w2", 1, 1, 60)]
  }

  /** Logs with a common beginning go through the same states. */
  lemma {:induction false} SameBeginning(calendar: Calendar, log: seq<Command>, other: seq<Command>, k: nat)
    requires k <= |log| && k <= |other| && log[..k] == other[..k]
    ensures StateAt(calendar, log, k) == StateAt(calendar, other, k)
  {
    hide Apply;
    if k > 0 {
      assert log[..k][..k - 1] == log[..k - 1] && other[..k][..k - 1] == other[..k - 1];
      assert log[..k][k - 1] == log[k - 1] && other[..k][k - 1] == other[k - 1];
      SameBeginning(calendar, log, other, k - 1);
    }
  }

  lemma RecreatedStates(calendar: Calendar, spec: TimerSpec)
    ensures forall k :: 0 <= k <= 3 ==> StateAt(calendar, RecreatedLog(spec), k) == StateAt(calendar, StaleLog(spec), k)
    ensures StateAt(calendar, RecreatedLog(spec), 4).timers == map[spec.id := Timer(spec, Scheduled, 0)]
    ensures StateAt(calendar, RecreatedLog(spec), 4).activeRuns == map[]
    ensures TokenAt(calendar, RecreatedLog(spec), 5, spec.id) == Some(1)
  {
    var log := RecreatedLog(spec);
    forall k | 0 <= k <= 3 ensures StateAt(calendar, log, k) == StateAt(calendar, StaleLog(spec), k) {
      SameBeginning(calendar, log, StaleLog(spec), k);
    }
    StaleStates(calendar, spec);
    StateStep(calendar, log, 4);
    StateStep(calendar, log, 5);
    hide StateAt, Rescheduled;
  }

  lemma RecreatedHonest(calendar: Calendar, spec: TimerSpec)
    ensures Honest(calendar, RecreatedLog(spec), [0, 1, 2, 3, 4])
  {
    RecreatedStates(calendar, spec);
    StaleStates(calendar, spec);
    hide StateAt;
  }

  /** Even with atomic claims, creating a timer again hands out a token a second time, to another worker. */
  lemma RecreationRepeatsToken(calendar: Calendar, spec: TimerSpec) returns (log: seq<Command>, views: seq<nat>)
    ensures Honest(calendar, log, views) && AtomicClaims(log, views) && |log| == 5
    ensures log[1].ClaimRun? && log[4].ClaimRun? && log[3] == CreateTimer(spec, Some(0))
    ensures TakesToken(StateAt(calendar, log, 1), log[1], spec.id)
    ensures TakesToken(StateAt(calendar, log, 4), log[4], spec.id)
    ensures log[1].workerId != log[4].workerId && log[1].fencingToken == log[4].fencingToken
    ensures TokenAt(calendar, log, 5, spec.id) == TokenAt(calendar, log, 2, spec.id) == Some(1)
  {
    log, views := RecreatedLog(spec), [0, 1, 2, 3, 4];
    RecreatedHonest(calendar, spec);
    RecreatedStates(calendar, spec);
    StaleStates(calendar, spec);
    hide StateAt, Honest;
  }
}
