/**
 What the log of the embedded engine says of a timer: each part of the folded state is the one that the last
 event to decide it decided, and the retries are counted one by one.
 */
module EventHistory {
  import opened Prelude
  import opened Retry
  import opened Schedules
  import opened Timers
  import opened Events

  function Known<K, V>(m: map<K, V>, k: K): Option<V> {
    if k in m then Some(m[k]) else None
  }

  // ----- What an event decides -----

  function DecidesSpec(e: Event, t: TimerId): Option<TimerSpec> {
    if (e.TimerCreated? || e.TimerUpdated?) && e.spec.id == t then Some(e.spec) else None
  }

  predicate Mentions(e: Event, t: TimerId) {
    !e.TimerCreated? && !e.TimerUpdated? && e.timer == t
  }

  /** The lifecycle state; resuming depends on whether a function is bound. */
  function DecidesState(e: Event, t: TimerId, bound: bool): Option<TimerState> {
    if e.TimerCreated? && e.spec.id == t then Some(Orphaned)
    else if !Mentions(e, t) then None
    else if e.TimerPaused? then Some(Paused)
    else if e.TimerResumed? then Some(if bound then Scheduled else Orphaned)
    else if e.TimerCancelled? then Some(Cancelled)
    else if e.RunDue? || e.RunStarted? then Some(Running)
    else if e.RunSucceeded? then Some(Scheduled)
    else if e.RunRetrying? then Some(Retrying)
    else if e.RunDead? then Some(Dead)
    else None
  }

  /** The retry on record: a retry sets it, an end removes it. */
  function DecidesRetry(e: Event, t: TimerId): Option<Option<PendingRetry>> {
    if !Mentions(e, t) then None
    else if e.RunRetrying? then Some(Some(PendingRetry(e.run, e.nextRetryAt, e.attempt)))
    else if e.RunSucceeded? || e.RunDead? then Some(None)
    else None
  }

  /** The last run shown: a finished attempt, a skipped run or a dead one, under its status. */
  function DecidesLast(e: Event, t: TimerId): Option<LastRun> {
    if !Mentions(e, t) then None
    else if e.RunSucceeded? then Some(LastRun(e.run, e.at, Some(e.durationMs), OkStatus))
    else if e.RunFailed? then Some(LastRun(e.run, e.at, None, FailedStatus(e.error)))
    else if e.RunSkippedOverlap? then Some(LastRun(e.run, e.at, None, SkippedOverlapStatus))
    else if e.RunDead? then Some(LastRun(e.run, e.at, None, DeadStatus))
    else None
  }

  function Newer<T>(decided: Option<T>, before: Option<T>): Option<T> {
    if decided.Some? then decided else before
  }

  lemma DecidedStep(m: Memory, e: Event, t: TimerId)
    ensures var n := Apply(m, e);
      && Known(n.specs, t) == Newer(DecidesSpec(e, t), Known(m.specs, t))
      && Known(n.states, t) == Newer(DecidesState(e, t, t in m.fnNames), Known(m.states, t))
      && Known(n.lastRuns, t) == Newer(DecidesLast(e, t), Known(m.lastRuns, t))
      && n.fnNames == m.fnNames && n.nextRuns == m.nextRuns
  {
  }

  lemma RetryStep(m: Memory, e: Event, t: TimerId)
    ensures var n, d := Apply(m, e), DecidesRetry(e, t);
      && Known(n.pendingRetries, t) == (if d.Some? then d.value else Known(m.pendingRetries, t))
      && RetryCount(n.retries7d, t) == RetryCount(m.retries7d, t) + if e.RunRetrying? && e.timer == t then 1 else 0
  {
  }

  // ----- Over a log -----

  function LastSpec(es: seq<Event>, t: TimerId): Option<TimerSpec> {
    if es == [] then None else Newer(DecidesSpec(es[|es| - 1], t), LastSpec(es[..|es| - 1], t))
  }

  function LastState(es: seq<Event>, t: TimerId): Option<TimerState> {
    if es == [] then None else Newer(DecidesState(es[|es| - 1], t, false), LastState(es[..|es| - 1], t))
  }

  function LastRunOf(es: seq<Event>, t: TimerId): Option<LastRun> {
    if es == [] then None else Newer(DecidesLast(es[|es| - 1], t), LastRunOf(es[..|es| - 1], t))
  }

  function RetryOnRecord(es: seq<Event>, t: TimerId): Option<PendingRetry> {
    if es == [] then None
    else
      var d := DecidesRetry(es[|es| - 1], t);
      if d.Some? then d.value else RetryOnRecord(es[..|es| - 1], t)
  }

  function RetriesOf(es: seq<Event>, t: TimerId): nat {
    if es == [] then 0
    else RetriesOf(es[..|es| - 1], t) + if es[|es| - 1].RunRetrying? && es[|es| - 1].timer == t then 1 else 0
  }

  lemma ReplaySnoc(m: Memory, es: seq<Event>, e: Event)
    ensures Replay(m, es + [e]) == Apply(Replay(m, es), e)
  {
    ReplayAppend(m, es, [e]);
    assert [e][1..] == [];
    hide Apply;
  }

  /**
   A log replayed from nothing, with no function bound: specification, lifecycle state, last run and retry
   on record are the last ones decided, and the retries are counted.
   */
  lemma {:induction false} ReplayTells(es: seq<Event>, t: TimerId)
    ensures var m := Replay(BLANK, es);
      && Known(m.specs, t) == LastSpec(es, t)
      && Known(m.states, t) == LastState(es, t)
      && Known(m.lastRuns, t) == LastRunOf(es, t)
      && Known(m.pendingRetries, t) == RetryOnRecord(es, t)
      && RetryCount(m.retries7d, t) == RetriesOf(es, t)
      && m.fnNames == map[] && m.nextRuns == map[]
  {
    hide Apply, DecidesSpec, DecidesState, DecidesLast, DecidesRetry;
    if es != [] {
      var before, e := es[..|es| - 1], es[|es| - 1];
      assert es == before + [e];
      ReplayTells(before, t);
      ReplaySnoc(BLANK, before, e);
      DecidedStep(Replay(BLANK, before), e, t);
      RetryStep(Replay(BLANK, before), e, t);
    }
  }
}
