/**
 Single ownership of runs on the server: whatever commands are committed, and however stale the
 views they were proposed from, the committed history is a sequence of well-nested runs.
 */
module Ownership {
  import opened Prelude
  import opened Schedules
  import opened Timers
  import opened Machine

  /** The committed state after the first `k` commands of the log. */
  function StateAt(calendar: Calendar, log: seq<Command>, k: nat): State
    requires k <= |log|
  {
    if k == 0 then EMPTY else Apply(calendar, StateAt(calendar, log, k - 1), log[k - 1])
  }

  /** Every claim is proposed with a run id of its own. */
  ghost predicate FreshRunIds(log: seq<Command>) {
    forall i, j :: 0 <= i < j < |log| && log[i].ClaimRun? && log[j].ClaimRun? ==> log[i].runId != log[j].runId
  }

  // ----- An independent ledger of histories -----

  datatype Claim = Claim(runId: RunId, workerId: WorkerId, fencingToken: nat)

  /** Who owns each timer, and which runs were ever claimed or ended. */
  datatype Ledger = Ledger(owner: map<TimerId, Claim>, claimed: set<RunId>, ended: set<RunId>)

  /** A timer is claimed only while unowned, by a new run; only its owner ends it, with the claim's worker and token. */
  function Book(l: Ledger, r: Record): Option<Ledger> {
    match r
    case RunClaimed(timer, _, run, worker, token) =>
      if timer in l.owner || run in l.claimed then None
      else Some(l.(owner := l.owner[timer := Claim(run, worker, token)], claimed := l.claimed + {run}))
    case RunEnded(_, timer, _, run, worker, token) =>
      if timer in l.owner && l.owner[timer] == Claim(run, worker, token)
      then Some(l.(owner := l.owner - {timer}, ended := l.ended + {run}))
      else None
    case _ => Some(l)
  }

  /** The books after the first `k` records. */
  function BooksAt(history: seq<Record>, k: nat): Option<Ledger>
    requires k <= |history|
  {
    if k == 0 then Some(Ledger(map[], {}, {}))
    else
      match BooksAt(history, k - 1)
      case None => None
      case Some(l) => Book(l, history[k - 1])
  }

  function Check(history: seq<Record>): Option<Ledger> {
    BooksAt(history, |history|)
  }

  lemma {:induction false} BooksOfPrefix(history: seq<Record>, r: Record, k: nat)
    requires k <= |history|
    ensures BooksAt(history + [r], k) == BooksAt(history, k)
  {
    if k > 0 {
      BooksOfPrefix(history, r, k - 1);
    }
  }

  lemma CheckSnoc(history: seq<Record>, r: Record)
    requires Check(history).Some?
    ensures Check(history + [r]) == Book(Check(history).value, r)
  {
    BooksOfPrefix(history, r, |history|);
  }

  // ----- What an accepted history means -----

  lemma {:induction false} BooksBefore(history: seq<Record>, k: nat, n: nat)
    requires k <= n <= |history| && BooksAt(history, n).Some?
    ensures BooksAt(history, k).Some?
    decreases n
  {
    if k < n {
      BooksBefore(history, k, n - 1);
    }
  }

  ghost predicate Ends(end: Record, claim: Record)
    requires claim.RunClaimed?
  {
    end.RunEnded? && end.timer == claim.timer && end.runId == claim.runId
    && end.workerId == claim.workerId && end.fencingToken == claim.fencingToken
  }

  /** After a claim, its timer stays owned by it until a record ends that very run. */
  lemma {:induction false} OwnedUntilEnded(history: seq<Record>, i: nat, k: nat)
    requires i < k <= |history| && BooksAt(history, k).Some? && history[i].RunClaimed?
    ensures var c := history[i]; var owner := BooksAt(history, k).value.owner;
      || (c.timer in owner && owner[c.timer] == Claim(c.runId, c.workerId, c.fencingToken))
      || exists e :: i < e < k && Ends(history[e], c)
    decreases k
  {
    BooksBefore(history, k - 1, k);
    if i < k - 1 {
      OwnedUntilEnded(history, i, k - 1);
    }
  }

  /** Two claims of one timer are separated by the end of the first run, with its worker and token. */
  lemma ClaimsSeparated(history: seq<Record>, i: nat, j: nat)
    requires Check(history).Some? && i < j < |history|
    requires history[i].RunClaimed? && history[j].RunClaimed? && history[i].timer == history[j].timer
    ensures exists e :: i < e < j && Ends(history[e], history[i])
  {
    BooksBefore(history, j + 1, |history|);
    BooksBefore(history, j, |history|);
    OwnedUntilEnded(history, i, j);
  }

  function CountClaims(history: seq<Record>, k: nat): nat
    requires k <= |history|
  {
    if k == 0 then 0 else CountClaims(history, k - 1) + if history[k - 1].RunClaimed? then 1 else 0
  }

  function CountEnds(history: seq<Record>, k: nat): nat
    requires k <= |history|
  {
    if k == 0 then 0 else CountEnds(history, k - 1) + if history[k - 1].RunEnded? then 1 else 0
  }

  /** Claims that have not ended are exactly the owners. */
  lemma {:induction false} ClaimsBalance(history: seq<Record>, k: nat)
    requires k <= |history| && BooksAt(history, k).Some?
    ensures CountClaims(history, k) == CountEnds(history, k) + |BooksAt(history, k).value.owner|
  {
    if k > 0 {
      BooksBefore(history, k - 1, k);
      ClaimsBalance(history, k - 1);
      var before := BooksAt(history, k - 1).value.owner;
      var after := BooksAt(history, k).value.owner;
      match history[k - 1]
      case RunClaimed(timer, _, _, _, _) => assert after.Keys == before.Keys + {timer};
      case RunEnded(_, timer, _, _, _, _) => assert after.Keys + {timer} == before.Keys;
      case _ =>
    }
  }

  /** A run owns at most one timer, an ended run owns none, and both were claimed. */
  ghost predicate Consistent(l: Ledger) {
    && l.ended <= l.claimed
    && (forall t :: t in l.owner ==> l.owner[t].runId in l.claimed && l.owner[t].runId !in l.ended)
    && (forall t, u :: t in l.owner && u in l.owner && l.owner[t].runId == l.owner[u].runId ==> t == u)
  }

  lemma {:induction false} LedgerConsistent(history: seq<Record>, k: nat)
    requires k <= |history| && BooksAt(history, k).Some?
    ensures Consistent(BooksAt(history, k).value)
  {
    if k > 0 {
      BooksBefore(history, k - 1, k);
      LedgerConsistent(history, k - 1);
    }
  }

  lemma {:induction false} EndedRecorded(history: seq<Record>, e: nat, k: nat)
    requires e < k <= |history| && BooksAt(history, k).Some? && history[e].RunEnded?
    ensures history[e].runId in BooksAt(history, k).value.ended
    decreases k
  {
    BooksBefore(history, k - 1, k);
    if e < k - 1 {
      EndedRecorded(history, e, k - 1);
    }
  }

  /** No run ends twice. */
  lemma EndsOnce(history: seq<Record>, e: nat, f: nat)
    requires Check(history).Some? && e < f < |history|
    requires history[e].RunEnded? && history[f].RunEnded?
    ensures history[e].runId != history[f].runId
  {
    BooksBefore(history, f + 1, |history|);
    BooksBefore(history, f, |history|);
    EndedRecorded(history, e, f);
    LedgerConsistent(history, f);
  }

  // ----- The committed state keeps the books -----

  /** The active runs are the owners. */
  ghost predicate Agrees(active: map<RunId, ActiveRun>, l: Ledger) {
    && (forall r :: r in active ==>
          && active[r].runId == r
          && active[r].timerId in l.owner
          && l.owner[active[r].timerId] == Claim(r, active[r].workerId, active[r].fencingToken))
    && (forall t :: t in l.owner ==> l.owner[t].runId in active && active[l.owner[t].runId].timerId == t)
    && |active| == |l.owner|
  }

  /** The history checks, its owners are the active runs, and only runs in `known` were ever claimed. */
  ghost predicate Kept(s: State, known: set<RunId>) {
    && Check(s.history).Some?
    && Agrees(s.activeRuns, Check(s.history).value)
    && Check(s.history).value.claimed <= known
  }

  lemma AgreesClaim(active: map<RunId, ActiveRun>, l: Ledger, run: ActiveRun)
    requires Agrees(active, l) && run.timerId !in l.owner && run.runId !in active
    ensures Agrees(active[run.runId := run],
                   l.(owner := l.owner[run.timerId := Claim(run.runId, run.workerId, run.fencingToken)],
                      claimed := l.claimed + {run.runId}))
  {
    var active' := active[run.runId := run];
    var owner' := l.owner[run.timerId := Claim(run.runId, run.workerId, run.fencingToken)];
    assert active'.Keys == active.Keys + {run.runId} && owner'.Keys == l.owner.Keys + {run.timerId};
    forall r | r in active'
      ensures active'[r].runId == r && active'[r].timerId in owner'
      ensures owner'[active'[r].timerId] == Claim(r, active'[r].workerId, active'[r].fencingToken)
    {
      assert r == run.runId || (r in active && active[r].timerId in l.owner);
    }
    forall t | t in owner'
      ensures owner'[t].runId in active' && active'[owner'[t].runId].timerId == t
    {
      assert t == run.timerId || (t in l.owner && l.owner[t].runId in active);
    }
  }

  lemma AgreesEnd(active: map<RunId, ActiveRun>, l: Ledger, r: RunId)
    requires Agrees(active, l) && r in active
    ensures Agrees(active - {r}, l.(owner := l.owner - {active[r].timerId}, ended := l.ended + {r}))
  {
    assert (active - {r}).Keys + {r} == active.Keys;
    assert (l.owner - {active[r].timerId}).Keys + {active[r].timerId} == l.owner.Keys;
  }

  lemma ClaimKeeps(s: State, c: Command, known: set<RunId>)
    requires Kept(s, known) && c.ClaimRun? && c.runId !in known
    ensures Kept(Claimed(s, c), known + {c.runId})
  {
    if !HasActiveRun(s, c.timerId) {
      var s' := Claimed(s, c);
      CheckSnoc(s.history, s'.history[|s.history|]);
      LedgerConsistent(s.history, |s.history|);
      AgreesClaim(s.activeRuns, Check(s.history).value, s'.activeRuns[c.runId]);
    }
  }

  lemma EndKeeps(s: State, runId: RunId, timers: map<TimerId, Timer>, ending: Ending, known: set<RunId>)
    requires Kept(s, known) && runId in s.activeRuns
    ensures Kept(Ended(s, runId, timers, ending), known)
  {
    var s' := Ended(s, runId, timers, ending);
    CheckSnoc(s.history, s'.history[|s.history|]);
    AgreesEnd(s.activeRuns, Check(s.history).value, runId);
  }

  lemma OtherKeeps(s: State, s': State, known: set<RunId>)
    requires Kept(s, known) && s'.activeRuns == s.activeRuns
    requires || s'.history == s.history
             || exists r: Record :: s'.history == s.history + [r] && !r.RunClaimed? && !r.RunEnded?
    ensures Kept(s', known)
  {
    if s'.history != s.history {
      var r: Record :| s'.history == s.history + [r] && !r.RunClaimed? && !r.RunEnded?;
      CheckSnoc(s.history, r);
    }
  }

  lemma CompleteKeeps(calendar: Calendar, s: State, c: Command, known: set<RunId>)
    requires Kept(s, known) && (c.CompleteRun? || c.FailRun?)
    ensures Kept(Apply(calendar, s, c), known)
  {
    hide Kept;
    if OwnedBy(s, c.runId, c.workerId, c.fencingToken) {
      var timer := s.activeRuns[c.runId].timerId;
      var ended := Ended(s, c.runId, SetState(s.timers, timer, if c.FailRun? then Dead else Scheduled),
                         if c.FailRun? then Failed(c.error) else Succeeded);
      EndKeeps(s, c.runId, ended.timers, if c.FailRun? then Failed(c.error) else Succeeded, known);
      assert Apply(calendar, s, c).activeRuns == ended.activeRuns && Apply(calendar, s, c).history == ended.history;
      hide Apply, Ended, SetState;
      OtherKeeps(ended, Apply(calendar, s, c), known);
    }
  }

  lemma ExpireKeeps(calendar: Calendar, s: State, c: Command, known: set<RunId>)
    requires Kept(s, known) && c.ExpireRunLease?
    ensures Kept(Apply(calendar, s, c), known)
  {
    hide Kept, SetState;
    if c.runId in s.activeRuns {
      var ended := Ended(s, c.runId, Expired(s, c).timers, LeaseExpired);
      EndKeeps(s, c.runId, ended.timers, LeaseExpired, known);
      assert Expired(s, c).activeRuns == ended.activeRuns && Expired(s, c).history == ended.history;
      OtherKeeps(ended, Expired(s, c), known);
    }
  }

  /** Every command keeps the books; only a claim adds to the runs ever claimed. */
  lemma ApplyKeeps(calendar: Calendar, s: State, c: Command, known: set<RunId>)
    requires Kept(s, known) && (c.ClaimRun? ==> c.runId !in known)
    ensures Kept(Apply(calendar, s, c), known + if c.ClaimRun? then {c.runId} else {})
  {
    hide Kept, Claimed, Expired, Rescheduled, Ended;
    assert known + {} == known;
    match c
    case ClaimRun(_, _, _, _, _, _) => ClaimKeeps(s, c, known);
    case CompleteRun(_, _, _, _) => CompleteKeeps(calendar, s, c, known);
    case FailRun(_, _, _, _, _) => CompleteKeeps(calendar, s, c, known);
    case ExpireRunLease(_, _, _) => ExpireKeeps(calendar, s, c, known);
    case _ => OtherKeeps(s, Apply(calendar, s, c), known);
  }

  ghost function ClaimedIn(log: seq<Command>, k: nat): set<RunId>
    requires k <= |log|
  {
    if k == 0 then {} else ClaimedIn(log, k - 1) + if log[k - 1].ClaimRun? then {log[k - 1].runId} else {}
  }

  lemma {:induction false} ClaimedBefore(log: seq<Command>, k: nat, r: RunId)
    requires k <= |log| && r in ClaimedIn(log, k)
    ensures exists i :: 0 <= i < k && log[i].ClaimRun? && log[i].runId == r
  {
    if !(log[k - 1].ClaimRun? && log[k - 1].runId == r) {
      ClaimedBefore(log, k - 1, r);
    }
  }

  lemma StateStep(calendar: Calendar, log: seq<Command>, k: nat)
    requires 0 < k <= |log|
    ensures StateAt(calendar, log, k) == Apply(calendar, StateAt(calendar, log, k - 1), log[k - 1])
    ensures ClaimedIn(log, k) == ClaimedIn(log, k - 1) + if log[k - 1].ClaimRun? then {log[k - 1].runId} else {}
  {
  }

  lemma FreshClaim(log: seq<Command>, k: nat)
    requires FreshRunIds(log) && k < |log| && log[k].ClaimRun?
    ensures log[k].runId !in ClaimedIn(log, k)
  {
    if log[k].runId in ClaimedIn(log, k) {
      ClaimedBefore(log, k, log[k].runId);
    }
  }

  lemma StepKeeps(calendar: Calendar, log: seq<Command>, k: nat)
    requires 0 < k <= |log| && Kept(StateAt(calendar, log, k - 1), ClaimedIn(log, k - 1))
    requires log[k - 1].ClaimRun? ==> log[k - 1].runId !in ClaimedIn(log, k - 1)
    ensures Kept(StateAt(calendar, log, k), ClaimedIn(log, k))
  {
    hide Apply;
    ApplyKeeps(calendar, StateAt(calendar, log, k - 1), log[k - 1], ClaimedIn(log, k - 1));
    StateStep(calendar, log, k);
  }

  lemma EmptyKept(calendar: Calendar, log: seq<Command>)
    ensures Kept(StateAt(calendar, log, 0), ClaimedIn(log, 0))
  {
  }

  /** Every state of a log with fresh run ids keeps the books. */
  lemma {:induction false} LogKeeps(calendar: Calendar, log: seq<Command>, k: nat)
    requires FreshRunIds(log) && k <= |log|
    ensures Kept(StateAt(calendar, log, k), ClaimedIn(log, k))
  {
    hide *;
    if k == 0 {
      EmptyKept(calendar, log);
    } else {
      LogKeeps(calendar, log, k - 1);
      if log[k - 1].ClaimRun? {
        FreshClaim(log, k - 1);
      }
      StepKeeps(calendar, log, k);
    }
  }

  /**
   For every log with fresh run ids and after every prefix of it: a timer has at most one active
   run, claims are ends plus active runs, and the history has been well-nested all along.
   */
  lemma SingleOwner(calendar: Calendar, log: seq<Command>, k: nat)
    requires FreshRunIds(log) && k <= |log|
    ensures var s := StateAt(calendar, log, k); var h := s.history;
      && (forall q, r | q in s.activeRuns && r in s.activeRuns && q != r ::
            s.activeRuns[q].timerId != s.activeRuns[r].timerId)
      && CountClaims(h, |h|) == CountEnds(h, |h|) + |s.activeRuns|
      && (forall i, j | 0 <= i < j < |h| && h[i].RunClaimed? && h[j].RunClaimed? && h[i].timer == h[j].timer ::
            exists e :: i < e < j && Ends(h[e], h[i]))
      && (forall e, f | 0 <= e < f < |h| && h[e].RunEnded? && h[f].RunEnded? :: h[e].runId != h[f].runId)
  {
    LogKeeps(calendar, log, k);
    var h := StateAt(calendar, log, k).history;
    ClaimsBalance(h, |h|);
    forall i, j | 0 <= i < j < |h| && h[i].RunClaimed? && h[j].RunClaimed? && h[i].timer == h[j].timer
      ensures exists e :: i < e < j && Ends(h[e], h[i])
    {
      ClaimsSeparated(h, i, j);
    }
    forall e, f | 0 <= e < f < |h| && h[e].RunEnded? && h[f].RunEnded?
      ensures h[e].runId != h[f].runId
    {
      EndsOnce(h, e, f);
    }
  }
}
