/** What becomes of a run whose lease is lost: it is replaced while its timer allows, and its timer is Dead otherwise. */
module Replacements {
  import opened Prelude
  import opened Retry
  import opened Schedules
  import opened Timers
  import opened Machine
  import opened Ownership
  import opened Leases

  lemma ProposedFairly(view: State, c: Command)
    requires ProposesExpiry(view, c)
    ensures ReplacedFairly(view, view.activeRuns[c.runId], c.replacement)
  {
  }

  /** Every active run is a first attempt: a node claims nothing else. */
  lemma FirstAttempts(calendar: Calendar, log: seq<Command>, views: seq<nat>, k: nat, r: RunId)
    requires Honest(calendar, log, views) && k <= |log| && r in StateAt(calendar, log, k).activeRuns
    ensures StateAt(calendar, log, k).activeRuns[r].attempt == 1
  {
    hide StateAt;
    var c := ActiveFromClaim(calendar, log, k, r);
  }

  /** The timer of an active run exists, in this state and in all later ones. */
  lemma ActiveTimerExists(calendar: Calendar, log: seq<Command>, views: seq<nat>, k: nat, i: nat, r: RunId)
    requires Honest(calendar, log, views) && k <= i <= |log| && r in StateAt(calendar, log, k).activeRuns
    ensures StateAt(calendar, log, k).activeRuns[r].timerId in StateAt(calendar, log, i).timers
  {
    hide StateAt;
    var c := ActiveFromClaim(calendar, log, k, r);
    TimersPersist(calendar, log, views[c], i, log[c].timerId);
  }

  lemma PendingStep(calendar: Calendar, s: State, c: Command, w: WorkerRun)
    requires w in Apply(calendar, s, c).pending
    ensures w in s.pending || (c.ExpireRunLease? && c.runId in s.activeRuns && c.replacement == Some(w))
  {
    if c.ClaimRun? {
      RemovedFrom(s.pending, c.runId, w);
    }
    hide RemovePending;
  }

  lemma {:induction false} RemovedFrom(pending: seq<WorkerRun>, runId: RunId, w: WorkerRun)
    ensures w in RemovePending(pending, runId) ==> w in pending
  {
    if pending != [] && pending[0].runId != runId {
      RemovedFrom(pending[1..], runId, w);
    }
  }

  /** A pending run was queued by an expiry that took effect. */
  lemma {:induction false} PendingFromExpiry(calendar: Calendar, log: seq<Command>, k: nat, w: WorkerRun) returns (i: nat)
    requires k <= |log| && w in StateAt(calendar, log, k).pending
    ensures i < k && log[i].ExpireRunLease? && log[i].runId in StateAt(calendar, log, i).activeRuns
    ensures log[i].replacement == Some(w)
  {
    hide Apply;
    var s := StateAt(calendar, log, k - 1);
    StateStep(calendar, log, k);
    PendingStep(calendar, s, log[k - 1], w);
    if w in s.pending {
      i := PendingFromExpiry(calendar, log, k - 1, w);
    } else {
      i := k - 1;
    }
  }

  /** Whenever the timer is created or updated, it is with this specification. */
  ghost predicate FixedSpec(log: seq<Command>, t: TimerId, spec: TimerSpec) {
    forall i :: 0 <= i < |log| && (log[i].CreateTimer? || log[i].UpdateTimer?) && log[i].spec.id == t ==> log[i].spec == spec
  }

  lemma SpecFrom(calendar: Calendar, s: State, c: Command, t: TimerId)
    requires t in Apply(calendar, s, c).timers
    ensures ((c.CreateTimer? || c.UpdateTimer?) && c.spec.id == t && Apply(calendar, s, c).timers[t].spec == c.spec)
            || (t in s.timers && Apply(calendar, s, c).timers[t].spec == s.timers[t].spec)
  {
  }

  lemma {:induction false} SpecIsFixed(calendar: Calendar, log: seq<Command>, k: nat, t: TimerId, spec: TimerSpec)
    requires k <= |log| && FixedSpec(log, t, spec) && t in StateAt(calendar, log, k).timers
    ensures StateAt(calendar, log, k).timers[t].spec == spec
  {
    hide Apply;
    if k > 0 {
      StateStep(calendar, log, k);
      SpecFrom(calendar, StateAt(calendar, log, k - 1), log[k - 1], t);
      if t in StateAt(calendar, log, k - 1).timers {
        SpecIsFixed(calendar, log, k - 1, t, spec);
      }
    }
  }

  /**
   In every state of an honest log a pending run is a second attempt, of a worker timer that allows one when
   its specification never changes: no attempt beyond the limit is queued.
   */
  lemma PendingWithinLimit(calendar: Calendar, log: seq<Command>, views: seq<nat>, k: nat, w: WorkerRun, spec: TimerSpec)
    requires Honest(calendar, log, views) && k <= |log| && w in StateAt(calendar, log, k).pending
    requires FixedSpec(log, w.timer, spec)
    ensures w.attempt == 2 <= spec.retry.maxAttempts && spec.target.WorkerTask?
    ensures w.task == spec.target.task && w.payload == spec.target.payload && w.tenantId == spec.tenantId
  {
    hide StateAt;
    var i := PendingFromExpiry(calendar, log, k, w);
    ExpiryExact(calendar, log, views, i);
    FirstAttempts(calendar, log, views, i, log[i].runId);
    ProposedFairly(StateAt(calendar, log, views[i]), log[i]);
    SpecIsFixed(calendar, log, views[i], w.timer, spec);
  }

  lemma ExpiryStep(calendar: Calendar, s: State, c: Command, t: TimerId)
    requires c.ExpireRunLease? && c.runId in s.activeRuns && s.activeRuns[c.runId].timerId == t && t in s.timers
    requires c.replacement.Some? ==> c.replacement.value.timer == t
    ensures var s' := Apply(calendar, s, c);
      && t in s'.timers && c.runId !in s'.activeRuns
      && (if c.replacement.Some?
          then s'.timers[t].state == Retrying && s'.timers[t].fencingToken == c.replacement.value.fencingToken
               && s'.pending == s.pending + [c.replacement.value]
          else s'.timers[t].state == Dead && s'.timers[t].fencingToken == s.timers[t].fencingToken && s'.pending == s.pending)
  {
  }

  /**
   An expiry that takes effect leaves its timer Dead exactly if, in the view it was proposed from, the timer
   allows no further attempt or is not a worker's. Otherwise the timer is Retrying, with the run's next
   attempt queued last.
   */
  lemma ExpiryOutcome(calendar: Calendar, log: seq<Command>, views: seq<nat>, i: nat)
    requires Honest(calendar, log, views) && i < |log| && log[i].ExpireRunLease?
    requires log[i].runId in StateAt(calendar, log, i).activeRuns
    ensures var run, s' := StateAt(calendar, log, i).activeRuns[log[i].runId], StateAt(calendar, log, i + 1);
      var t, view := run.timerId, StateAt(calendar, log, views[i]);
      && t in view.timers && t in s'.timers && (s'.timers[t].state == Dead || s'.timers[t].state == Retrying)
      && (s'.timers[t].state == Dead <==>
            run.attempt >= view.timers[t].spec.retry.maxAttempts || !view.timers[t].spec.target.WorkerTask?)
      && (s'.timers[t].state == Retrying ==>
            |s'.pending| == |StateAt(calendar, log, i).pending| + 1
            && var next := s'.pending[|s'.pending| - 1];
               next.timer == t && next.runId == run.runId && next.attempt == run.attempt + 1
               && next.fencingToken == s'.timers[t].fencingToken == view.timers[t].fencingToken + 1)
  {
    hide StateAt, Apply;
    var r := log[i].runId;
    ExpiryExact(calendar, log, views, i);
    ActiveTimerExists(calendar, log, views, views[i], views[i], r);
    ActiveTimerExists(calendar, log, views, i, i, r);
    ProposedFairly(StateAt(calendar, log, views[i]), log[i]);
    StateStep(calendar, log, i + 1);
    ExpiryStep(calendar, StateAt(calendar, log, i), log[i], StateAt(calendar, log, i).activeRuns[r].timerId);
  }
}
