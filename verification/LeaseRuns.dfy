/** Runs of the lease queue: one live unit a timer, tokens that only grow, and bounded attempts. */
module LeaseRuns {
  import opened Prelude
  import opened Retry
  import opened Schedules
  import opened Timers
  import M = Machine
  import opened LeaseQueue

  datatype Step =
    | Enqueue(now: Time, due: seq<(TimerId, RunId)>)
    | Expire(now: Time, nowUtc: Time, lost: seq<WorkerId>, expired: seq<RunId>)
    | ClaimPending(worker: WorkerId, tasks: seq<string>, nowUtc: Time, accepted: bool)
    | Complete(run: RunId, worker: WorkerId, token: nat, now: Time, accepted: bool)
    | Fail(run: RunId, worker: WorkerId, token: nat, error: string, accepted: bool)
    | Create(spec: M.TimerSpec, next: Option<Time>)
    | Cancel(id: TimerId)
    | Pause(id: TimerId)
    | Resume(id: TimerId, now: Time)
    | RegisterWorker(worker: WorkerId, tasks: seq<string>, until: Time)
    | Heartbeat(worker: WorkerId, until: Time)

  predicate UsesRun(q: Queue, r: RunId) {
    r in q.active || exists i :: 0 <= i < |q.pending| && q.pending[i].runId == r
  }

  /** New run ids are fresh; the lists visit what the source's iterators visit. */
  predicate Enabled(q: Queue, s: Step) {
    match s
    case Enqueue(now, due) =>
      && ListsDue(q, now, due)
      && (forall i :: 0 <= i < |due| ==> !UsesRun(q, due[i].1))
      && (forall i, j :: 0 <= i < j < |due| ==> due[i].1 != due[j].1)
    case Expire(now, nowUtc, lost, expired) =>
      ListsLost(q, now, lost) && ListsExpired(LoseWorkers(q, lost), nowUtc, expired)
    case _ => true
  }

  function Take(calendar: Calendar, q: Queue, s: Step): Queue {
    match s
    case Enqueue(_, due) => EnqueueAll(q, due)
    case Expire(_, _, lost, expired) => ExpireAll(LoseWorkers(q, lost), expired)
    case ClaimPending(worker, tasks, nowUtc, accepted) => Claim(q, worker, tasks, nowUtc, accepted).0
    case Complete(run, worker, token, now, accepted) =>
      if Validate(q, run, worker, token).Ok? && accepted then Completed(calendar, q, run, now) else q
    case Fail(run, worker, token, error, accepted) =>
      if Validate(q, run, worker, token).Ok? && accepted then Failed(q, run, error) else q
    case Create(spec, next) => Created(q, spec, next)
    case Cancel(id) => q.(states := q.states[id := Cancelled], nextRuns := q.nextRuns - {id})
    case Pause(id) => q.(states := q.states[id := Paused], nextRuns := q.nextRuns - {id})
    case Resume(id, now) => q.(states := q.states[id := Scheduled], nextRuns := Rescheduled(calendar, q, id, now))
    case RegisterWorker(worker, tasks, until) =>
      q.(workers := q.workers[worker := Worker(tasks, until)], history := q.history + [WorkerRegistered(worker)])
    case Heartbeat(worker, until) =>
      if worker in q.workers then q.(workers := q.workers[worker := q.workers[worker].(leaseUntil := until)]) else q
  }

  // ----- One live unit a timer -----

  /** At most one pending or active unit a timer, each under its own run id. */
  ghost predicate OneUnit(q: Queue) {
    && (forall i, j :: 0 <= i < j < |q.pending| ==>
          q.pending[i].timer != q.pending[j].timer && q.pending[i].runId != q.pending[j].runId)
    && (forall i, r :: 0 <= i < |q.pending| && r in q.active ==>
          q.pending[i].timer != q.active[r].timerId && q.pending[i].runId != r)
    && (forall r, s :: r in q.active && s in q.active && q.active[r].timerId == q.active[s].timerId ==> r == s)
    && (forall r :: r in q.active ==> q.active[r].runId == r)
  }

  /** A live unit carries the last token issued for its timer. */
  ghost predicate LatestTokens(q: Queue) {
    && (forall i :: 0 <= i < |q.pending| ==> q.pending[i].fencingToken == TokenOf(q, q.pending[i].timer))
    && (forall r :: r in q.active ==> q.active[r].fencingToken == TokenOf(q, q.active[r].timerId))
  }

  ghost predicate Sound(q: Queue) {
    OneUnit(q) && LatestTokens(q)
  }

  predicate Live(q: Queue, id: TimerId) {
    IsPending(q, id) || IsActive(q, id)
  }

  /** Tokens never shrink, and a timer that gains a unit gains a token. */
  ghost predicate TokensGrow(q: Queue, p: Queue) {
    forall id :: TokenOf(q, id) <= TokenOf(p, id) && (TokenOf(q, id) == TokenOf(p, id) && Live(p, id) ==> Live(q, id))
  }

  lemma TokensGrowTwice(q: Queue, p: Queue, o: Queue)
    requires TokensGrow(q, p) && TokensGrow(p, o)
    ensures TokensGrow(q, o)
  {
    hide TokenOf, Live;
  }

  /** What the queue's guarantees depend on. */
  predicate SameUnits(q: Queue, p: Queue) {
    q.pending == p.pending && q.active == p.active && q.fencing == p.fencing
  }

  lemma SameUnitsSound(q: Queue, p: Queue)
    requires Sound(q) && SameUnits(q, p)
    ensures Sound(p) && TokensGrow(q, p)
  {
  }

  lemma IssueSound(q: Queue, id: TimerId, runId: RunId, attempt: nat, state: TimerState)
    requires Sound(q) && !Live(q, id) && !UsesRun(q, runId)
    requires id in q.timers && q.timers[id].target.WorkerTask?
    ensures var p := Issue(q, id, runId, attempt, state);
      Sound(p) && TokensGrow(q, p)
  {
    var p := Issue(q, id, runId, attempt, state);
    forall other | other != id && Live(p, other) ensures Live(q, other) {
      if i :| 0 <= i < |p.pending| && p.pending[i].timer == other {
        assert q.pending[i].timer == other;
      }
    }
  }

  lemma RemoveSound(q: Queue, runId: RunId)
    requires Sound(q) && runId in q.active
    ensures var p := q.(active := q.active - {runId});
      Sound(p) && TokensGrow(q, p) && !Live(p, q.active[runId].timerId) && !UsesRun(p, runId)
  {
  }

  lemma EnqueueOneSound(q: Queue, id: TimerId, newId: RunId)
    requires Sound(q) && !UsesRun(q, newId)
    ensures Sound(EnqueueOne(q, id, newId)) && TokensGrow(q, EnqueueOne(q, id, newId))
    ensures forall r :: r != newId && !UsesRun(q, r) ==> !UsesRun(EnqueueOne(q, id, newId), r)
  {
    var p := EnqueueOne(q, id, newId);
    if p != q {
      IssueSound(q, id, newId, 1, Scheduled);
    }
    hide Sound, TokensGrow;
  }

  lemma {:induction false} EnqueueSound(q: Queue, due: seq<(TimerId, RunId)>)
    requires Sound(q)
    requires forall i :: 0 <= i < |due| ==> !UsesRun(q, due[i].1)
    requires forall i, j :: 0 <= i < j < |due| ==> due[i].1 != due[j].1
    ensures Sound(EnqueueAll(q, due)) && TokensGrow(q, EnqueueAll(q, due))
    decreases |due|
  {
    hide Sound, TokensGrow, EnqueueOne, UsesRun;
    SameUnitsSound(q, q);
    if due != [] {
      var p := EnqueueOne(q, due[0].0, due[0].1);
      EnqueueOneSound(q, due[0].0, due[0].1);
      assert forall i :: 0 <= i < |due[1..]| ==> due[1..][i] == due[i + 1];
      EnqueueSound(p, due[1..]);
      TokensGrowTwice(q, p, EnqueueAll(q, due));
    }
  }

  lemma NotedSame(q: Queue, run: M.ActiveRun)
    ensures SameUnits(q, Noted(q, run)) && SameUnits(q, Buried(Noted(q, run), run)) && Noted(q, run).timers == q.timers
  {
  }

  lemma RequeuedSound(q: Queue, run: M.ActiveRun)
    requires Sound(q) && run.timerId in q.timers && !Live(q, run.timerId) && !UsesRun(q, run.runId)
    ensures Sound(Requeued(q, run)) && TokensGrow(q, Requeued(q, run))
  {
    var noted, dead := Noted(q, run), Buried(Noted(q, run), run);
    hide Sound, TokensGrow, Live, UsesRun, Issue, Noted, Buried, SameUnits;
    NotedSame(q, run);
    SameLive(q, noted, run.timerId, run.runId);
    SameUnitsSound(q, noted);
    SameUnitsSound(q, dead);
    if run.attempt < q.timers[run.timerId].retry.maxAttempts && q.timers[run.timerId].target.WorkerTask? {
      IssueSound(noted, run.timerId, run.runId, run.attempt + 1, Retrying);
      TokensGrowTwice(q, noted, Requeued(q, run));
    }
  }

  lemma ExpireOneSound(q: Queue, runId: RunId)
    requires Sound(q)
    ensures Sound(ExpireOne(q, runId)) && TokensGrow(q, ExpireOne(q, runId))
  {
    SameUnitsSound(q, q);
    if runId in q.active {
      var run, removed := q.active[runId], q.(active := q.active - {runId});
      assert run.runId == runId;
      RemoveSound(q, runId);
      hide Sound, TokensGrow, Live, UsesRun, Requeued;
      if run.timerId in q.timers {
        RequeuedSound(removed, run);
        TokensGrowTwice(q, removed, ExpireOne(q, runId));
      }
    }
  }

  lemma SameLive(q: Queue, p: Queue, id: TimerId, r: RunId)
    requires SameUnits(q, p)
    ensures Live(p, id) <==> Live(q, id)
    ensures UsesRun(p, r) <==> UsesRun(q, r)
  {
  }

  lemma {:induction false} ExpireSound(q: Queue, expired: seq<RunId>)
    requires Sound(q)
    ensures Sound(ExpireAll(q, expired)) && TokensGrow(q, ExpireAll(q, expired))
    decreases |expired|
  {
    hide Sound, TokensGrow, ExpireOne;
    SameUnitsSound(q, q);
    if expired != [] {
      ExpireOneSound(q, expired[0]);
      ExpireSound(ExpireOne(q, expired[0]), expired[1..]);
      TokensGrowTwice(q, ExpireOne(q, expired[0]), ExpireAll(q, expired));
    }
  }

  lemma {:induction false} LoseSame(q: Queue, lost: seq<WorkerId>)
    ensures SameUnits(q, LoseWorkers(q, lost)) && LoseWorkers(q, lost).timers == q.timers
    decreases |lost|
  {
    if lost != [] {
      LoseSame(q.(workers := q.workers - {lost[0]}, history := q.history + [WorkerLost(lost[0])]), lost[1..]);
    }
  }

  lemma ClaimSound(q: Queue, worker: WorkerId, pos: nat, nowUtc: Time)
    requires Sound(q) && pos < |q.pending|
    ensures Sound(Claimed(q, worker, pos, nowUtc)) && TokensGrow(q, Claimed(q, worker, pos, nowUtc))
    ensures q.pending[pos].runId !in q.active
  {
    var p, run := Claimed(q, worker, pos, nowUtc), q.pending[pos];
    assert forall i :: 0 <= i < |p.pending| ==> p.pending[i] == q.pending[if i < pos then i else i + 1];
    forall id | Live(p, id) ensures Live(q, id) {
      if r :| r in p.active && p.active[r].timerId == id {
        assert r == run.runId ==> q.pending[pos].timer == id;
      }
    }
  }

  lemma StepSound(calendar: Calendar, q: Queue, s: Step)
    requires Sound(q) && Enabled(q, s)
    ensures Sound(Take(calendar, q, s)) && TokensGrow(q, Take(calendar, q, s))
  {
    var p := Take(calendar, q, s);
    hide Sound, TokensGrow, EnqueueAll, ExpireAll, LoseWorkers, ListsDue, ListsLost, ListsExpired, UsesRun, FirstMatch;
    if SameUnits(q, p) {
      SameUnitsSound(q, p);
    } else {
      match s
      case Enqueue(_, due) => EnqueueSound(q, due);
      case Expire(_, _, lost, expired) =>
        var w := LoseWorkers(q, lost);
        LoseSame(q, lost);
        SameUnitsSound(q, w);
        ExpireSound(w, expired);
        TokensGrowTwice(q, w, p);
      case ClaimPending(worker, tasks, nowUtc, _) =>
        ClaimSound(q, worker, FirstMatch(q.pending, tasks, WorkerTasks(q, worker, tasks)), nowUtc);
      case Complete(run, _, _, _, _) => RemovedSound(q, p, run);
      case Fail(run, _, _, _, _) => RemovedSound(q, p, run);
    }
  }

  lemma RemovedSound(q: Queue, p: Queue, run: RunId)
    requires Sound(q) && run in q.active
    requires p.pending == q.pending && p.active == q.active - {run} && p.fencing == q.fencing
    ensures Sound(p) && TokensGrow(q, p)
  {
    var removed := q.(active := q.active - {run});
    RemoveSound(q, run);
    hide Sound, TokensGrow, Live, UsesRun;
    SameUnitsSound(removed, p);
    TokensGrowTwice(q, removed, p);
  }

  // ----- Runs -----

  predicate Possible(calendar: Calendar, q: Queue, steps: seq<Step>)
    decreases |steps|
  {
    steps == [] || (Enabled(q, steps[0]) && Possible(calendar, Take(calendar, q, steps[0]), steps[1..]))
  }

  function Reach(calendar: Calendar, q: Queue, steps: seq<Step>): Queue
    decreases |steps|
  {
    if steps == [] then q else Reach(calendar, Take(calendar, q, steps[0]), steps[1..])
  }

  /**
   However the leader's operations interleave: one live unit a timer at most, its token the last one
   issued, tokens never shrink, and a timer that has gained a unit has gained a token.
   */
  lemma {:induction false} RunSound(calendar: Calendar, q: Queue, steps: seq<Step>)
    requires Sound(q) && Possible(calendar, q, steps)
    ensures Sound(Reach(calendar, q, steps)) && TokensGrow(q, Reach(calendar, q, steps))
    decreases |steps|
  {
    hide Sound, TokensGrow, Take, Enabled;
    SameUnitsSound(q, q);
    if steps != [] {
      var p := Take(calendar, q, steps[0]);
      StepSound(calendar, q, steps[0]);
      RunSound(calendar, p, steps[1..]);
      TokensGrowTwice(q, p, Reach(calendar, q, steps));
    }
  }

  lemma EmptySound()
    ensures Sound(EMPTY)
  {
  }

  /** A completion or failure is accepted only with the last token issued for the run's timer. */
  lemma AcceptedIsLatest(calendar: Calendar, steps: seq<Step>, run: RunId, worker: WorkerId, token: nat)
    requires Possible(calendar, EMPTY, steps)
    requires Validate(Reach(calendar, EMPTY, steps), run, worker, token).Ok?
    ensures var q := Reach(calendar, EMPTY, steps);
      && token == TokenOf(q, q.active[run].timerId)
      && q.active[run].workerId == worker
      && !IsPending(q, q.active[run].timerId)
  {
    EmptySound();
    RunSound(calendar, EMPTY, steps);
    hide Reach, Possible;
  }

  /** A token once superseded is never accepted again, in any later state. */
  lemma SupersededForever(calendar: Calendar, q: Queue, steps: seq<Step>, id: TimerId, run: RunId, worker: WorkerId, token: nat)
    requires Sound(q) && Possible(calendar, q, steps) && token < TokenOf(q, id)
    ensures var p := Reach(calendar, q, steps);
      Validate(p, run, worker, token).Ok? ==> p.active[run].timerId != id
  {
    RunSound(calendar, q, steps);
    hide Reach, Possible;
    var p := Reach(calendar, q, steps);
    assert TokenOf(q, id) <= TokenOf(p, id);
  }

  /** An expired run that is queued again is out of reach of the worker that lost it. */
  lemma ExpirySupersedes(q: Queue, runId: RunId)
    requires Sound(q) && runId in q.active
    ensures var run, p := q.active[runId], ExpireOne(q, runId);
      && runId !in p.active
      && (IsPending(p, run.timerId) <==>
            run.timerId in q.timers && run.attempt < q.timers[run.timerId].retry.maxAttempts
            && q.timers[run.timerId].target.WorkerTask?)
      && (IsPending(p, run.timerId) ==> run.fencingToken < TokenOf(p, run.timerId))
  {
    var p := ExpireOne(q, runId);
    var run := q.active[runId];
    assert !IsPending(q, run.timerId);
    if p.pending != q.pending {
      assert p.pending[|p.pending| - 1].timer == run.timerId;
    }
  }

  // ----- The tokens issued -----

  /** The token of the unit that a step from `q` to `p` has queued for the timer, if it has queued one. */
  function IssuedBetween(q: Queue, p: Queue, id: TimerId): seq<nat> {
    if |p.pending| > |q.pending| && p.pending[|p.pending| - 1].timer == id then [p.pending[|p.pending| - 1].fencingToken]
    else []
  }

  function EnqueueIssues(q: Queue, due: seq<(TimerId, RunId)>, id: TimerId): seq<nat>
    decreases |due|
  {
    if due == [] then []
    else
      var p := EnqueueOne(q, due[0].0, due[0].1);
      IssuedBetween(q, p, id) + EnqueueIssues(p, due[1..], id)
  }

  function ExpireIssues(q: Queue, expired: seq<RunId>, id: TimerId): seq<nat>
    decreases |expired|
  {
    if expired == [] then []
    else
      var p := ExpireOne(q, expired[0]);
      IssuedBetween(q, p, id) + ExpireIssues(p, expired[1..], id)
  }

  function StepIssues(q: Queue, s: Step, id: TimerId): seq<nat> {
    match s
    case Enqueue(_, due) => EnqueueIssues(q, due, id)
    case Expire(_, _, lost, expired) => ExpireIssues(LoseWorkers(q, lost), expired, id)
    case _ => []
  }

  /** All the tokens issued for the timer over a run, in order. */
  function Issued(calendar: Calendar, q: Queue, steps: seq<Step>, id: TimerId): seq<nat>
    decreases |steps|
  {
    if steps == [] then []
    else StepIssues(q, steps[0], id) + Issued(calendar, Take(calendar, q, steps[0]), steps[1..], id)
  }

  /** The tokens go on from `last`, one by one, up to `next`. */
  predicate Counts(last: nat, tokens: seq<nat>, next: nat) {
    next == last + |tokens| && forall i :: 0 <= i < |tokens| ==> tokens[i] == last + 1 + i
  }

  lemma CountsTwice(last: nat, tokens: seq<nat>, mid: nat, more: seq<nat>, next: nat)
    requires Counts(last, tokens, mid) && Counts(mid, more, next)
    ensures Counts(last, tokens + more, next)
  {
  }

  lemma IssueCounts(q: Queue, of: TimerId, runId: RunId, attempt: nat, state: TimerState, id: TimerId)
    requires of in q.timers && q.timers[of].target.WorkerTask?
    ensures var p := Issue(q, of, runId, attempt, state);
      Counts(TokenOf(q, id), IssuedBetween(q, p, id), TokenOf(p, id))
  {
  }

  lemma EnqueueOneCounts(q: Queue, of: TimerId, newId: RunId, id: TimerId)
    ensures var p := EnqueueOne(q, of, newId);
      Counts(TokenOf(q, id), IssuedBetween(q, p, id), TokenOf(p, id))
  {
    if EnqueueOne(q, of, newId) != q {
      IssueCounts(q, of, newId, 1, Scheduled, id);
      hide Issue, Counts;
    }
  }

  lemma ExpireOneCounts(q: Queue, runId: RunId, id: TimerId)
    ensures var p := ExpireOne(q, runId);
      Counts(TokenOf(q, id), IssuedBetween(q, p, id), TokenOf(p, id))
  {
    if runId in q.active {
      var run, removed := q.active[runId], q.(active := q.active - {runId});
      if run.timerId in q.timers && q.timers[run.timerId].target.WorkerTask? {
        IssueCounts(Noted(removed, run), run.timerId, run.runId, run.attempt + 1, Retrying, id);
        hide Issue;
      }
    }
  }

  lemma {:induction false} EnqueueCounts(q: Queue, due: seq<(TimerId, RunId)>, id: TimerId)
    ensures Counts(TokenOf(q, id), EnqueueIssues(q, due, id), TokenOf(EnqueueAll(q, due), id))
    decreases |due|
  {
    if due != [] {
      var p := EnqueueOne(q, due[0].0, due[0].1);
      EnqueueOneCounts(q, due[0].0, due[0].1, id);
      EnqueueCounts(p, due[1..], id);
      CountsTwice(TokenOf(q, id), IssuedBetween(q, p, id), TokenOf(p, id), EnqueueIssues(p, due[1..], id),
                  TokenOf(EnqueueAll(q, due), id));
      hide Counts, TokenOf, EnqueueOne, IssuedBetween;
    }
  }

  lemma {:induction false} ExpireCounts(q: Queue, expired: seq<RunId>, id: TimerId)
    ensures Counts(TokenOf(q, id), ExpireIssues(q, expired, id), TokenOf(ExpireAll(q, expired), id))
    decreases |expired|
  {
    if expired != [] {
      var p := ExpireOne(q, expired[0]);
      ExpireOneCounts(q, expired[0], id);
      ExpireCounts(p, expired[1..], id);
      CountsTwice(TokenOf(q, id), IssuedBetween(q, p, id), TokenOf(p, id), ExpireIssues(p, expired[1..], id),
                  TokenOf(ExpireAll(q, expired), id));
      hide Counts, TokenOf, ExpireOne, IssuedBetween;
    }
  }

  lemma StepCounts(calendar: Calendar, q: Queue, s: Step, id: TimerId)
    ensures Counts(TokenOf(q, id), StepIssues(q, s, id), TokenOf(Take(calendar, q, s), id))
  {
    hide EnqueueAll, ExpireAll, EnqueueIssues, ExpireIssues, LoseWorkers;
    match s
    case Enqueue(_, due) => EnqueueCounts(q, due, id);
    case Expire(_, _, lost, expired) =>
      LoseSame(q, lost);
      ExpireCounts(LoseWorkers(q, lost), expired, id);
    case _ =>
  }

  /**
   Over any run the tokens issued for a timer are consecutive numbers, the first of them the one after the
   timer's last token: they strictly increase, and none is left out or issued twice.
   */
  lemma {:induction false} IssuedCounts(calendar: Calendar, q: Queue, steps: seq<Step>, id: TimerId)
    ensures Counts(TokenOf(q, id), Issued(calendar, q, steps, id), TokenOf(Reach(calendar, q, steps), id))
    decreases |steps|
  {
    if steps != [] {
      var p := Take(calendar, q, steps[0]);
      StepCounts(calendar, q, steps[0], id);
      IssuedCounts(calendar, p, steps[1..], id);
      CountsTwice(TokenOf(q, id), StepIssues(q, steps[0], id), TokenOf(p, id), Issued(calendar, p, steps[1..], id),
                  TokenOf(Reach(calendar, q, steps), id));
      hide Counts, TokenOf, Take, StepIssues;
    }
  }

  // ----- Attempts -----

  function Limit(spec: M.TimerSpec): nat {
    if spec.retry.maxAttempts == 0 then 1 else spec.retry.maxAttempts
  }

  predicate AttemptFits(q: Queue, id: TimerId, attempt: nat) {
    id in q.timers && 1 <= attempt <= Limit(q.timers[id])
  }

  ghost predicate AttemptsFit(q: Queue) {
    && (forall i :: 0 <= i < |q.pending| ==> AttemptFits(q, q.pending[i].timer, q.pending[i].attempt))
    && (forall r :: r in q.active ==> AttemptFits(q, q.active[r].timerId, q.active[r].attempt))
  }

  /** Creating a timer again does not lower its limit. */
  predicate KeepsLimit(q: Queue, s: Step) {
    s.Create? && s.spec.id in q.timers ==> Limit(q.timers[s.spec.id]) <= Limit(s.spec)
  }

  lemma EnqueueOneFits(q: Queue, id: TimerId, newId: RunId)
    requires AttemptsFit(q)
    ensures AttemptsFit(EnqueueOne(q, id, newId)) && EnqueueOne(q, id, newId).timers == q.timers
  {
  }

  lemma {:induction false} EnqueueFits(q: Queue, due: seq<(TimerId, RunId)>)
    requires AttemptsFit(q)
    ensures AttemptsFit(EnqueueAll(q, due))
    decreases |due|
  {
    hide AttemptsFit, EnqueueOne;
    if due != [] {
      EnqueueOneFits(q, due[0].0, due[0].1);
      EnqueueFits(EnqueueOne(q, due[0].0, due[0].1), due[1..]);
    }
  }

  lemma ExpireOneFits(q: Queue, runId: RunId)
    requires AttemptsFit(q)
    ensures AttemptsFit(ExpireOne(q, runId))
  {
    if runId in q.active {
      assert AttemptFits(q, q.active[runId].timerId, q.active[runId].attempt);
    }
  }

  lemma {:induction false} ExpireFits(q: Queue, expired: seq<RunId>)
    requires AttemptsFit(q)
    ensures AttemptsFit(ExpireAll(q, expired))
    decreases |expired|
  {
    hide AttemptsFit, ExpireOne;
    if expired != [] {
      ExpireOneFits(q, expired[0]);
      ExpireFits(ExpireOne(q, expired[0]), expired[1..]);
    }
  }

  lemma SameFits(q: Queue, p: Queue)
    requires AttemptsFit(q) && SameUnits(q, p) && p.timers == q.timers
    ensures AttemptsFit(p)
  {
  }

  lemma StepFits(calendar: Calendar, q: Queue, s: Step)
    requires AttemptsFit(q) && Enabled(q, s) && KeepsLimit(q, s)
    ensures AttemptsFit(Take(calendar, q, s))
  {
    var p := Take(calendar, q, s);
    hide FirstMatch, EnqueueAll, ExpireAll, LoseWorkers, AttemptsFit, ListsDue, ListsLost, ListsExpired, UsesRun;
    match s
    case Enqueue(_, due) => EnqueueFits(q, due);
    case Expire(_, _, lost, expired) =>
      LoseSame(q, lost);
      SameFits(q, LoseWorkers(q, lost));
      ExpireFits(LoseWorkers(q, lost), expired);
    case ClaimPending(worker, tasks, nowUtc, accepted) =>
      var pos := FirstMatch(q.pending, tasks, WorkerTasks(q, worker, tasks));
      if pos < |q.pending| && accepted {
        ClaimFits(q, worker, pos, nowUtc);
      }
    case Create(spec, next) => CreateFits(q, spec, next);
    case _ => FewerFits(q, p);
  }

  lemma ClaimFits(q: Queue, worker: WorkerId, pos: nat, nowUtc: Time)
    requires AttemptsFit(q) && pos < |q.pending|
    ensures AttemptsFit(Claimed(q, worker, pos, nowUtc))
  {
    assert AttemptFits(q, q.pending[pos].timer, q.pending[pos].attempt);
  }

  lemma CreateFits(q: Queue, spec: M.TimerSpec, next: Option<Time>)
    requires AttemptsFit(q) && (spec.id in q.timers ==> Limit(q.timers[spec.id]) <= Limit(spec))
    ensures AttemptsFit(Created(q, spec, next))
  {
  }

  lemma FewerFits(q: Queue, p: Queue)
    requires AttemptsFit(q) && p.timers == q.timers && p.pending == q.pending
    requires forall r :: r in p.active ==> r in q.active && p.active[r] == q.active[r]
    ensures AttemptsFit(p)
  {
  }

  predicate AllKeepLimits(calendar: Calendar, q: Queue, steps: seq<Step>)
    decreases |steps|
  {
    steps == [] || (KeepsLimit(q, steps[0]) && AllKeepLimits(calendar, Take(calendar, q, steps[0]), steps[1..]))
  }

  /** While no timer's limit is lowered, attempts stay within it, however often leases are lost. */
  lemma {:induction false} RunFits(calendar: Calendar, q: Queue, steps: seq<Step>)
    requires AttemptsFit(q) && Possible(calendar, q, steps) && AllKeepLimits(calendar, q, steps)
    ensures AttemptsFit(Reach(calendar, q, steps))
    decreases |steps|
  {
    hide AttemptsFit, Take, Enabled, KeepsLimit;
    if steps != [] {
      StepFits(calendar, q, steps[0]);
      RunFits(calendar, Take(calendar, q, steps[0]), steps[1..]);
    }
  }
}
