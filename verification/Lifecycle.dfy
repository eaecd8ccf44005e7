/**
 What the log says of a timer: its next run and its lifecycle state are those that the last command to
 decide them decided, so a timer goes on after a completion.
 */
module Lifecycle {
  import opened Prelude
  import opened Retry
  import opened Schedules
  import opened Timers
  import opened Machine
  import opened Ownership
  import opened Leases

  function NextOf(s: State, t: TimerId): Option<Time> {
    if t in s.nextRuns then Some(s.nextRuns[t]) else None
  }

  // ----- What a command decides about a timer -----

  /** A completion or failure of an active run of the timer, by its worker and with its token. */
  predicate Reports(s: State, c: Command, t: TimerId) {
    (c.CompleteRun? || c.FailRun?) && c.runId in s.activeRuns
    && var run := s.activeRuns[c.runId];
      run.timerId == t && run.workerId == c.workerId && run.fencingToken == c.fencingToken
  }

  predicate Replaces(c: Command, t: TimerId) {
    (c.CreateTimer? || c.UpdateTimer?) && c.spec.id == t
  }

  /** The next run that the command decides on, if it decides. */
  function DecidesNext(calendar: Calendar, s: State, c: Command, t: TimerId): Option<Option<Time>> {
    if Replaces(c, t) then Some(c.nextRunAt)
    else if (c.CancelTimer? || c.PauseTimer?) && c.timerId == t then Some(None)
    else if c.ResumeTimer? && c.timerId == t then Some(c.nextRunAt)
    else if c.CompleteRun? && Reports(s, c, t) && t in s.timers then
      var spec := s.timers[t].spec;
      Some(if IsOneShot(spec.schedule) then None else NextRunAfter(calendar, spec.schedule, c.completedAt, spec.timezone))
    else None
  }

  /** The lifecycle state that the command decides on, for a timer that exists. */
  function DecidesState(s: State, c: Command, t: TimerId): Option<TimerState> {
    if Replaces(c, t) then Some(Scheduled)
    else if c.CancelTimer? && c.timerId == t then Some(Cancelled)
    else if c.PauseTimer? && c.timerId == t then Some(Paused)
    else if c.ResumeTimer? && c.timerId == t then Some(Scheduled)
    else if c.ClaimRun? && c.timerId == t && !HasActiveRun(s, t) then Some(Running)
    else if Reports(s, c, t) then Some(if c.CompleteRun? then Scheduled else Dead)
    else if c.ExpireRunLease? && c.runId in s.activeRuns && s.activeRuns[c.runId].timerId == t then
      Some(if c.replacement.Some? then Retrying else Dead)
    else None
  }

  lemma NextStep(calendar: Calendar, s: State, c: Command, t: TimerId)
    ensures var d := DecidesNext(calendar, s, c, t);
      NextOf(Apply(calendar, s, c), t) == if d.Some? then d.value else NextOf(s, t)
  {
    hide NextRunAfter;
  }

  lemma StateDecided(calendar: Calendar, s: State, c: Command, t: TimerId)
    requires t in s.timers
    requires c.ExpireRunLease? && c.runId in s.activeRuns && c.replacement.Some? ==>
               c.replacement.value.timer == s.activeRuns[c.runId].timerId
    ensures var d, s' := DecidesState(s, c, t), Apply(calendar, s, c);
      t in s'.timers && s'.timers[t].state == if d.Some? then d.value else s.timers[t].state
  {
    hide NextRunAfter;
  }

  // ----- Over the log -----

  ghost function NextAt(calendar: Calendar, log: seq<Command>, i: nat, t: TimerId): Option<Option<Time>>
    requires i < |log|
  {
    DecidesNext(calendar, StateAt(calendar, log, i), log[i], t)
  }

  ghost function LifecycleAt(calendar: Calendar, log: seq<Command>, i: nat, t: TimerId): Option<TimerState>
    requires i < |log|
  {
    DecidesState(StateAt(calendar, log, i), log[i], t)
  }

  /** No command from `lo` up to, and without, `hi` decides on the timer's next run. */
  ghost predicate Undecided(calendar: Calendar, log: seq<Command>, lo: nat, hi: nat, t: TimerId)
    requires hi <= |log|
  {
    forall j :: lo <= j < hi ==> NextAt(calendar, log, j, t).None?
  }

  ghost predicate SameLifecycle(calendar: Calendar, log: seq<Command>, lo: nat, hi: nat, t: TimerId)
    requires hi <= |log|
  {
    forall j :: lo <= j < hi ==> LifecycleAt(calendar, log, j, t).None?
  }

  lemma {:induction false} UndecidedKeeps(calendar: Calendar, log: seq<Command>, lo: nat, hi: nat, t: TimerId)
    requires lo <= hi <= |log| && Undecided(calendar, log, lo, hi, t)
    ensures NextOf(StateAt(calendar, log, hi), t) == NextOf(StateAt(calendar, log, lo), t)
    decreases hi
  {
    hide Apply, NextOf, DecidesNext;
    if lo < hi {
      UndecidedKeeps(calendar, log, lo, hi - 1, t);
      StateStep(calendar, log, hi);
      NextStep(calendar, StateAt(calendar, log, hi - 1), log[hi - 1], t);
      assert NextAt(calendar, log, hi - 1, t).None?;
    }
  }

  /** The next run of a timer is the one the last command to decide on it decided, and before any there is none. */
  lemma NextIsLastDecided(calendar: Calendar, log: seq<Command>, k: nat, t: TimerId)
    requires k <= |log|
    ensures Undecided(calendar, log, 0, k, t) ==> NextOf(StateAt(calendar, log, k), t) == None
    ensures forall i :: 0 <= i < k && NextAt(calendar, log, i, t).Some? && Undecided(calendar, log, i + 1, k, t) ==>
              NextOf(StateAt(calendar, log, k), t) == NextAt(calendar, log, i, t).value
  {
    NothingAtFirst(calendar, log, t);
    hide Apply, NextOf, DecidesNext, Undecided, StateAt;
    if Undecided(calendar, log, 0, k, t) {
      UndecidedKeeps(calendar, log, 0, k, t);
    }
    forall i | 0 <= i < k && NextAt(calendar, log, i, t).Some? && Undecided(calendar, log, i + 1, k, t)
      ensures NextOf(StateAt(calendar, log, k), t) == NextAt(calendar, log, i, t).value
    {
      UndecidedKeeps(calendar, log, i + 1, k, t);
      StateStep(calendar, log, i + 1);
      NextStep(calendar, StateAt(calendar, log, i), log[i], t);
    }
  }

  lemma NothingAtFirst(calendar: Calendar, log: seq<Command>, t: TimerId)
    ensures NextOf(StateAt(calendar, log, 0), t) == None && StateAt(calendar, log, 0).timers == map[]
  {
  }

  lemma {:induction false} LifecycleKeeps(calendar: Calendar, log: seq<Command>, views: seq<nat>, lo: nat, hi: nat, t: TimerId)
    requires Honest(calendar, log, views) && lo <= hi <= |log| && SameLifecycle(calendar, log, lo, hi, t)
    requires t in StateAt(calendar, log, lo).timers
    ensures t in StateAt(calendar, log, hi).timers
    ensures StateAt(calendar, log, hi).timers[t].state == StateAt(calendar, log, lo).timers[t].state
    decreases hi
  {
    hide Apply, DecidesState, Honest, StateAt;
    if lo < hi {
      LifecycleKeeps(calendar, log, views, lo, hi - 1, t);
      StateStep(calendar, log, hi);
      HonestCommand(calendar, log, views, hi - 1);
      StateDecided(calendar, StateAt(calendar, log, hi - 1), log[hi - 1], t);
      assert LifecycleAt(calendar, log, hi - 1, t).None?;
    }
  }

  /** The lifecycle state of a timer is the one the last command to decide on it decided. */
  lemma StateIsLastDecided(calendar: Calendar, log: seq<Command>, views: seq<nat>, i: nat, k: nat, t: TimerId)
    requires Honest(calendar, log, views) && i < k <= |log| && LifecycleAt(calendar, log, i, t).Some?
    requires (t in StateAt(calendar, log, i).timers || Replaces(log[i], t)) && SameLifecycle(calendar, log, i + 1, k, t)
    ensures t in StateAt(calendar, log, k).timers
    ensures StateAt(calendar, log, k).timers[t].state == LifecycleAt(calendar, log, i, t).value
  {
    hide Apply, DecidesState, Honest, StateAt, Replaces;
    StateStep(calendar, log, i + 1);
    HonestCommand(calendar, log, views, i);
    if Replaces(log[i], t) {
      ReplacedScheduled(calendar, StateAt(calendar, log, i), log[i], t);
    } else {
      StateDecided(calendar, StateAt(calendar, log, i), log[i], t);
    }
    LifecycleKeeps(calendar, log, views, i + 1, k, t);
  }

  lemma ReplacedScheduled(calendar: Calendar, s: State, c: Command, t: TimerId)
    requires Replaces(c, t)
    ensures var s' := Apply(calendar, s, c); t in s'.timers && s'.timers[t].state == Scheduled && s'.timers[t].spec == c.spec
    ensures DecidesState(s, c, t) == Some(Scheduled)
  {
  }

  // ----- A timer goes on after a completion -----

  /**
   After an effective completion, until a later command decides on it: a one-shot timer has no next run,
   any other the first run of its schedule after the completion, if there is one.
   */
  lemma CompletionReschedules(calendar: Calendar, log: seq<Command>, i: nat, k: nat, t: TimerId)
    requires i < k <= |log| && log[i].CompleteRun? && Reports(StateAt(calendar, log, i), log[i], t)
    requires t in StateAt(calendar, log, i).timers && Undecided(calendar, log, i + 1, k, t)
    ensures var spec := StateAt(calendar, log, i).timers[t].spec;
      NextOf(StateAt(calendar, log, k), t)
      == if IsOneShot(spec.schedule) then None
         else NextRunAfter(calendar, spec.schedule, log[i].completedAt, spec.timezone)
  {
    hide StateAt, NextRunAfter, Undecided, NextOf;
    NextIsLastDecided(calendar, log, k, t);
    assert NextAt(calendar, log, i, t).Some?;
  }

  lemma SpecKept(calendar: Calendar, s: State, c: Command, t: TimerId)
    requires t in s.timers && !Replaces(c, t)
    ensures t in Apply(calendar, s, c).timers && Apply(calendar, s, c).timers[t].spec == s.timers[t].spec
  {
  }

  /** No run of the timer is active, and no command claims one. */
  lemma {:induction false} StaysFree(calendar: Calendar, log: seq<Command>, lo: nat, hi: nat, t: TimerId)
    requires lo <= hi <= |log| && t in StateAt(calendar, log, lo).timers && !HasActiveRun(StateAt(calendar, log, lo), t)
    requires forall j :: lo <= j < hi ==> !Replaces(log[j], t) && !(log[j].ClaimRun? && log[j].timerId == t)
    ensures !HasActiveRun(StateAt(calendar, log, hi), t) && t in StateAt(calendar, log, hi).timers
    ensures StateAt(calendar, log, hi).timers[t].spec == StateAt(calendar, log, lo).timers[t].spec
    decreases hi
  {
    hide Apply, StateAt;
    if lo < hi {
      StaysFree(calendar, log, lo, hi - 1, t);
      var s, s' := StateAt(calendar, log, hi - 1), StateAt(calendar, log, hi);
      StateStep(calendar, log, hi);
      SpecKept(calendar, s, log[hi - 1], t);
      if HasActiveRun(s', t) {
        var r :| r in s'.activeRuns && s'.activeRuns[r].timerId == t;
        ActiveStep(calendar, s, log[hi - 1], r);
      }
    }
  }

  lemma FreeAfterReport(calendar: Calendar, log: seq<Command>, i: nat, t: TimerId)
    requires FreshRunIds(log) && i < |log| && Reports(StateAt(calendar, log, i), log[i], t)
    ensures !HasActiveRun(StateAt(calendar, log, i + 1), t)
  {
    StateStep(calendar, log, i + 1);
    SingleOwner(calendar, log, i);
    ReportRemoves(calendar, StateAt(calendar, log, i), log[i], t);
    hide StateAt, Apply;
  }

  lemma ReportRemoves(calendar: Calendar, s: State, c: Command, t: TimerId)
    requires Reports(s, c, t)
    ensures Apply(calendar, s, c).activeRuns == s.activeRuns - {c.runId}
  {
  }

  /**
   A recurring worker timer whose run was completed is claimable again from its next run on, by any worker
   that does its task and may see it, until it is claimed or a command decides on it.
   */
  lemma ClaimableAgain(calendar: Calendar, log: seq<Command>, i: nat, k: nat, t: TimerId, at: Time, tasks: seq<string>,
                       tenant: Option<string>, now: Time)
    requires FreshRunIds(log) && i < k <= |log| && log[i].CompleteRun? && Reports(StateAt(calendar, log, i), log[i], t)
    requires t in StateAt(calendar, log, i).timers && Undecided(calendar, log, i + 1, k, t)
    requires forall j :: i < j < k ==> !(log[j].ClaimRun? && log[j].timerId == t)
    requires var spec := StateAt(calendar, log, i).timers[t].spec;
      && !IsOneShot(spec.schedule)
      && NextRunAfter(calendar, spec.schedule, log[i].completedAt, spec.timezone) == Some(at) && at <= now
      && spec.target.WorkerTask? && spec.target.task in tasks && TenantMatches(tenant, spec.tenantId)
    ensures Claimable(StateAt(calendar, log, k), t, tasks, tenant, now)
  {
    var spec := StateAt(calendar, log, i).timers[t].spec;
    hide StateAt, NextRunAfter, HasActiveRun, Reports, Undecided, FreshRunIds, IsOneShot, NextOf, TenantMatches, Claimable;
    CompletionReschedules(calendar, log, i, k, t);
    FreeSinceReport(calendar, log, i, k, t);
    FreeAndDue(StateAt(calendar, log, k), t, at, tasks, tenant, now);
  }

  /** After a report, with no decision and no claim since, the timer is there as it was and has no active run. */
  lemma FreeSinceReport(calendar: Calendar, log: seq<Command>, i: nat, k: nat, t: TimerId)
    requires FreshRunIds(log) && i < k <= |log| && log[i].CompleteRun? && Reports(StateAt(calendar, log, i), log[i], t)
    requires t in StateAt(calendar, log, i).timers && Undecided(calendar, log, i + 1, k, t)
    requires forall j :: i < j < k ==> !(log[j].ClaimRun? && log[j].timerId == t)
    ensures var s := StateAt(calendar, log, k);
      t in s.timers && !HasActiveRun(s, t) && s.timers[t].spec == StateAt(calendar, log, i).timers[t].spec
  {
    UndecidedUnreplaced(calendar, log, i + 1, k, t);
    assert !Replaces(log[i], t);
    hide StateAt, HasActiveRun, Reports, Undecided, Replaces, FreshRunIds, Apply;
    FreeAfterReport(calendar, log, i, t);
    StateStep(calendar, log, i + 1);
    SpecKept(calendar, StateAt(calendar, log, i), log[i], t);
    StaysFree(calendar, log, i + 1, k, t);
  }

  lemma FreeAndDue(s: State, t: TimerId, at: Time, tasks: seq<string>, tenant: Option<string>, now: Time)
    requires t in s.timers && !HasActiveRun(s, t) && NextOf(s, t) == Some(at) && at <= now
    requires s.timers[t].spec.target.WorkerTask? && s.timers[t].spec.target.task in tasks
    requires TenantMatches(tenant, s.timers[t].spec.tenantId)
    ensures Claimable(s, t, tasks, tenant, now)
  {
  }

  lemma UndecidedUnreplaced(calendar: Calendar, log: seq<Command>, lo: nat, hi: nat, t: TimerId)
    requires hi <= |log| && Undecided(calendar, log, lo, hi, t)
    ensures forall j :: lo <= j < hi ==> !Replaces(log[j], t)
  {
    hide StateAt;
    forall j | lo <= j < hi ensures !Replaces(log[j], t) {
      assert NextAt(calendar, log, j, t).None?;
    }
  }
}
