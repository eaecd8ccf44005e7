/**
 The embedded engine's events and the state they fold into (`event.rs`, `state.rs`).
 */
module Events {
  import opened Prelude
  import opened Retry
  import opened Schedules
  import opened Timers

  datatype OverlapPolicy = Delay | Skip | Allow

  datatype TimerSpec = TimerSpec(id: TimerId, schedule: Schedule, retry: RetryPolicy, timezone: string,
                                 createdAt: Time, overlap: OverlapPolicy)

  datatype Event =
    | TimerCreated(spec: TimerSpec)
    | TimerUpdated(spec: TimerSpec)
    | TimerPaused(timer: TimerId, at: Time)
    | TimerResumed(timer: TimerId, at: Time)
    | TimerCancelled(timer: TimerId, at: Time)
    | RunDue(timer: TimerId, run: RunId, scheduledAt: Time)
    | RunStarted(timer: TimerId, run: RunId, at: Time, attempt: Attempt)
    | RunSkippedOverlap(timer: TimerId, run: RunId, scheduledAt: Time, at: Time)
    | RunSucceeded(timer: TimerId, run: RunId, at: Time, durationMs: nat)
    | RunFailed(timer: TimerId, run: RunId, at: Time, error: string, attempt: Attempt)
    | RunRetrying(timer: TimerId, run: RunId, attempt: Attempt, nextRetryAt: Time)
    | RunDead(timer: TimerId, run: RunId, at: Time)

  datatype RunStatus = SkippedOverlapStatus | OkStatus | FailedStatus(error: string) | DeadStatus

  datatype LastRun = LastRun(run: RunId, finishedAt: Time, durationMs: Option<nat>, status: RunStatus)

  datatype PendingRetry = PendingRetry(run: RunId, at: Time, attempt: Attempt)

  datatype Memory = Memory(specs: map<TimerId, TimerSpec>, states: map<TimerId, TimerState>,
                           fnNames: map<TimerId, string>, lastRuns: map<TimerId, LastRun>,
                           nextRuns: map<TimerId, Time>, retries7d: map<TimerId, nat>,
                           pendingRetries: map<TimerId, PendingRetry>)

  const BLANK: Memory := Memory(map[], map[], map[], map[], map[], map[], map[])

  function Subject(e: Event): TimerId {
    if e.TimerCreated? || e.TimerUpdated? then e.spec.id else e.timer
  }

  predicate IsRunEnd(e: Event) {
    e.RunSkippedOverlap? || e.RunSucceeded? || e.RunFailed? || e.RunRetrying? || e.RunDead?
  }

  function RetryCount(retries: map<TimerId, nat>, id: TimerId): nat {
    if id in retries then retries[id] else 0
  }

  /** The effect of one event. */
  function Apply(m: Memory, e: Event): Memory {
    match e
    case TimerCreated(spec) => m.(states := m.states[spec.id := Orphaned], specs := m.specs[spec.id := spec])
    case TimerUpdated(spec) => m.(specs := m.specs[spec.id := spec])
    case TimerPaused(id, _) => m.(states := m.states[id := Paused])
    case TimerResumed(id, _) => m.(states := m.states[id := if id in m.fnNames then Scheduled else Orphaned])
    case TimerCancelled(id, _) => m.(states := m.states[id := Cancelled])
    case RunDue(id, _, _) => m.(states := m.states[id := Running])
    case RunStarted(id, _, _, _) => m.(states := m.states[id := Running])
    case RunSkippedOverlap(id, run, _, at) =>
      m.(lastRuns := m.lastRuns[id := LastRun(run, at, None, SkippedOverlapStatus)])
    case RunSucceeded(id, run, at, duration) =>
      m.(states := m.states[id := Scheduled],
         lastRuns := m.lastRuns[id := LastRun(run, at, Some(duration), OkStatus)],
         pendingRetries := m.pendingRetries - {id})
    case RunFailed(id, run, at, error, _) =>
      m.(lastRuns := m.lastRuns[id := LastRun(run, at, None, FailedStatus(error))])
    case RunRetrying(id, run, attempt, at) =>
      m.(states := m.states[id := Retrying],
         pendingRetries := m.pendingRetries[id := PendingRetry(run, at, attempt)],
         retries7d := m.retries7d[id := RetryCount(m.retries7d, id) + 1])
    case RunDead(id, run, at) =>
      m.(states := m.states[id := Dead],
         lastRuns := m.lastRuns[id := LastRun(run, at, None, DeadStatus)],
         pendingRetries := m.pendingRetries - {id})
  }

  function Replay(m: Memory, es: seq<Event>): Memory
    decreases |es|
  {
    if es == [] then m else Replay(Apply(m, es[0]), es[1..])
  }

  function WithFunction(m: Memory, id: TimerId, name: string): Memory {
    m.(fnNames := m.fnNames[id := name],
       states := if id !in m.states || m.states[id] == Orphaned then m.states[id := Scheduled] else m.states)
  }

  function WithoutFunction(m: Memory, id: TimerId): Memory {
    m.(fnNames := m.fnNames - {id},
       states := if id in m.states && m.states[id] in {Scheduled, Retrying, Running}
                 then m.states[id := Orphaned] else m.states)
  }

  // ----- The state as the engine mutates it -----

  class EngineState {
    var specs: map<TimerId, TimerSpec>
    var states: map<TimerId, TimerState>
    var fnNames: map<TimerId, string>
    var lastRuns: map<TimerId, LastRun>
    var nextRuns: map<TimerId, Time>
    var retries7d: map<TimerId, nat>
    var pendingRetries: map<TimerId, PendingRetry>

    constructor (m: Memory)
      ensures View() == m
    {
      specs, states, fnNames, lastRuns := m.specs, m.states, m.fnNames, m.lastRuns;
      nextRuns, retries7d, pendingRetries := m.nextRuns, m.retries7d, m.pendingRetries;
    }

    function View(): Memory
      reads this
    {
      Memory(specs, states, fnNames, lastRuns, nextRuns, retries7d, pendingRetries)
    }

    method ApplyEvent(e: Event)
      modifies this
      ensures View() == Apply(old(View()), e)
    {
      match e
      case TimerCreated(spec) =>
        states := states[spec.id := Orphaned];
        specs := specs[spec.id := spec];
      case TimerUpdated(spec) =>
        specs := specs[spec.id := spec];
      case TimerPaused(id, _) =>
        states := states[id := Paused];
      case TimerResumed(id, _) =>
        var nextState := Orphaned;
        if id in fnNames {
          nextState := Scheduled;
        }
        states := states[id := nextState];
      case TimerCancelled(id, _) =>
        states := states[id := Cancelled];
      case RunDue(id, _, _) =>
        states := states[id := Running];
      case RunStarted(id, _, _, _) =>
        states := states[id := Running];
      case _ => ApplyRunEnd(e);
    }

    method ApplyRunEnd(e: Event)
      requires IsRunEnd(e)
      modifies this
      ensures View() == Apply(old(View()), e)
    {
      match e
      case RunSkippedOverlap(id, run, _, at) =>
        lastRuns := lastRuns[id := LastRun(run, at, None, SkippedOverlapStatus)];
      case RunSucceeded(id, run, at, duration) =>
        states := states[id := Scheduled];
        lastRuns := lastRuns[id := LastRun(run, at, Some(duration), OkStatus)];
        pendingRetries := pendingRetries - {id};
      case RunFailed(id, run, at, error, _) =>
        lastRuns := lastRuns[id := LastRun(run, at, None, FailedStatus(error))];
      case RunRetrying(id, run, attempt, at) =>
        states := states[id := Retrying];
        pendingRetries := pendingRetries[id := PendingRetry(run, at, attempt)];
        retries7d := retries7d[id := RetryCount(retries7d, id) + 1];
      case RunDead(id, run, at) =>
        states := states[id := Dead];
        lastRuns := lastRuns[id := LastRun(run, at, None, DeadStatus)];
        pendingRetries := pendingRetries - {id};
    }

    method ReplayEvents(es: seq<Event>)
      modifies this
      ensures View() == Replay(old(View()), es)
    {
      hide Apply;
      var i := 0;
      assert es[0..] == es;
      while i < |es|
        invariant i <= |es|
        invariant Replay(View(), es[i..]) == Replay(old(View()), es)
      {
        assert es[i..][0] == es[i] && es[i..][1..] == es[i + 1..];
        ApplyEvent(es[i]);
        i := i + 1;
      }
    }

    method RegisterFunction(id: TimerId, name: string)
      modifies this
      ensures View() == WithFunction(old(View()), id, name)
    {
      fnNames := fnNames[id := name];
      var current := Orphaned;
      if id in states {
        current := states[id];
      }
      if current == Orphaned {
        states := states[id := Scheduled];
      }
    }

    method MarkFunctionMissing(id: TimerId)
      modifies this
      ensures View() == WithoutFunction(old(View()), id)
    {
      fnNames := fnNames - {id};
      var current := Orphaned;
      if id in states {
        current := states[id];
      }
      if current == Scheduled || current == Retrying || current == Running {
        states := states[id := Orphaned];
      }
    }
  }

  // ----- What the fold determines -----

  lemma {:induction false} ReplayAppend(m: Memory, es: seq<Event>, fs: seq<Event>)
    ensures Replay(m, es + fs) == Replay(Replay(m, es), fs)
    decreases |es|
  {
    if es == [] {
      assert es + fs == fs;
    } else {
      assert (es + fs)[1..] == es[1..] + fs;
      ReplayAppend(Apply(m, es[0]), es[1..], fs);
    }
  }

  /** The part of the state that the log alone determines. */
  datatype Durable = Durable(specs: map<TimerId, TimerSpec>, lastRuns: map<TimerId, LastRun>,
                             retries7d: map<TimerId, nat>, pendingRetries: map<TimerId, PendingRetry>)

  function DurableOf(m: Memory): Durable {
    Durable(m.specs, m.lastRuns, m.retries7d, m.pendingRetries)
  }

  /** Two states alike in their durable part and with the same timers in `states`. */
  predicate Alike(m: Memory, n: Memory) {
    DurableOf(m) == DurableOf(n) && m.states.Keys == n.states.Keys
  }

  lemma ApplyAlike(m: Memory, n: Memory, e: Event)
    requires Alike(m, n)
    ensures Alike(Apply(m, e), Apply(n, e))
  {
    ApplyTimers(m, e);
    ApplyTimers(n, e);
    ApplyDurable(m, e);
    ApplyDurable(n, e);
    hide Apply, DurableAfter;
  }

  function DurableAfter(d: Durable, e: Event): Durable {
    match e
    case TimerCreated(spec) => d.(specs := d.specs[spec.id := spec])
    case TimerUpdated(spec) => d.(specs := d.specs[spec.id := spec])
    case RunSkippedOverlap(id, run, _, at) =>
      d.(lastRuns := d.lastRuns[id := LastRun(run, at, None, SkippedOverlapStatus)])
    case RunSucceeded(id, run, at, duration) =>
      d.(lastRuns := d.lastRuns[id := LastRun(run, at, Some(duration), OkStatus)], pendingRetries := d.pendingRetries - {id})
    case RunFailed(id, run, at, error, _) => d.(lastRuns := d.lastRuns[id := LastRun(run, at, None, FailedStatus(error))])
    case RunRetrying(id, run, attempt, at) =>
      d.(pendingRetries := d.pendingRetries[id := PendingRetry(run, at, attempt)],
         retries7d := d.retries7d[id := RetryCount(d.retries7d, id) + 1])
    case RunDead(id, run, at) =>
      d.(lastRuns := d.lastRuns[id := LastRun(run, at, None, DeadStatus)], pendingRetries := d.pendingRetries - {id})
    case _ => d
  }

  /** What the log determines changes by what the log determines. */
  lemma ApplyDurable(m: Memory, e: Event)
    ensures DurableOf(Apply(m, e)) == DurableAfter(DurableOf(m), e)
  {
  }

  /** The timers that have a lifecycle state after an event. */
  lemma ApplyTimers(m: Memory, e: Event)
    ensures Apply(m, e).states.Keys
         == if e.TimerUpdated? || e.RunSkippedOverlap? || e.RunFailed? then m.states.Keys else m.states.Keys + {Subject(e)}
  {
  }

  /** States alike stay alike under any further events, however their volatile parts differ. */
  lemma {:induction false} ReplayAlike(m: Memory, n: Memory, es: seq<Event>)
    requires Alike(m, n)
    ensures Alike(Replay(m, es), Replay(n, es))
    decreases |es|
  {
    hide Apply, Alike;
    if es != [] {
      ApplyAlike(m, n, es[0]);
      ReplayAlike(Apply(m, es[0]), Apply(n, es[0]), es[1..]);
    }
  }

  /** What another timer's event leaves alone. */
  lemma OtherTimer(m: Memory, e: Event, id: TimerId)
    requires Subject(e) != id
    ensures var n := Apply(m, e);
      && (id in n.specs <==> id in m.specs) && (id in m.specs ==> n.specs[id] == m.specs[id])
      && (id in n.states <==> id in m.states) && (id in m.states ==> n.states[id] == m.states[id])
      && (id in n.pendingRetries <==> id in m.pendingRetries)
      && (id in m.pendingRetries ==> n.pendingRetries[id] == m.pendingRetries[id])
  {
  }
}
