/**
 When the fencing tokens of a timer are handed out once each: exactly when no token is taken from a
 view that has forgotten the earlier ones, because the timer was created or updated before it.
 */
module Tokens {
  import opened Prelude
  import opened Retry
  import opened Schedules
  import opened Timers
  import opened Machine
  import opened Ownership
  import opened Leases

  ghost predicate TakesAt(calendar: Calendar, log: seq<Command>, j: nat, t: TimerId) {
    j < |log| && TakesToken(StateAt(calendar, log, j), log[j], t)
  }

  /** The token that a claim or a replaced expiry hands out. */
  function TokenOfTake(c: Command): nat {
    if c.ClaimRun? then c.fencingToken
    else if c.ExpireRunLease? && c.replacement.Some? then c.replacement.value.fencingToken
    else 0
  }

  predicate Recreates(c: Command, t: TimerId) {
    (c.CreateTimer? || c.UpdateTimer?) && c.spec.id == t
  }

  /** The timer is created or updated while its token is above 0: the token starts over. */
  ghost predicate ResetsAt(calendar: Calendar, log: seq<Command>, i: nat, t: TimerId) {
    i < |log| && Recreates(log[i], t) && TokenAt(calendar, log, i, t).Some? && TokenAt(calendar, log, i, t).value > 0
  }

  ghost predicate NoTakes(calendar: Calendar, log: seq<Command>, lo: nat, hi: nat, t: TimerId) {
    forall k :: lo <= k < hi ==> !TakesAt(calendar, log, k, t)
  }

  /** The first token taken after a reset is taken from a view that has seen the reset. */
  ghost predicate Forgets(calendar: Calendar, log: seq<Command>, views: seq<nat>, i: nat, j: nat, t: TimerId)
    requires |views| == |log|
  {
    && i < j < |log| && ResetsAt(calendar, log, i, t) && TakesAt(calendar, log, j, t)
    && i < views[j] && NoTakes(calendar, log, i + 1, j, t)
  }

  ghost predicate DistinctTokens(calendar: Calendar, log: seq<Command>, t: TimerId) {
    forall a, b :: 0 <= a < b < |log| && TakesAt(calendar, log, a, t) && TakesAt(calendar, log, b, t) ==>
      TokenOfTake(log[a]) != TokenOfTake(log[b])
  }

  // ----- One command -----

  /** A token is the one after the token in the proposer's view, and becomes the timer's token. */
  lemma TakeFollowsView(calendar: Calendar, log: seq<Command>, views: seq<nat>, j: nat, t: TimerId)
    requires Honest(calendar, log, views) && TakesAt(calendar, log, j, t)
    ensures views[j] <= j && TokenAt(calendar, log, views[j], t).Some?
    ensures TokenOfTake(log[j]) == TokenAt(calendar, log, views[j], t).value + 1
    ensures TokenAt(calendar, log, j + 1, t) == Some(TokenOfTake(log[j]))
  {
    StateStep(calendar, log, j + 1);
    if log[j].ExpireRunLease? {
      ExpiryExact(calendar, log, views, j);
    }
    TimersPersist(calendar, log, views[j], j, t);
    hide StateAt;
  }

  /** While a node proposes an expiry and until it is committed, nothing else takes a token of the timer. */
  lemma NoTakeSinceView(calendar: Calendar, log: seq<Command>, views: seq<nat>, j: nat, t: TimerId)
    requires Honest(calendar, log, views) && AtomicClaims(log, views) && TakesAt(calendar, log, j, t)
    ensures NoTakes(calendar, log, views[j], j, t)
  {
    if log[j].ExpireRunLease? {
      var r := log[j].runId;
      ExpiryExact(calendar, log, views, j);
      forall k | views[j] <= k < j ensures !TakesAt(calendar, log, k, t) {
        ActiveStretch(calendar, log, views[j], j, r);
        ActiveStretch(calendar, log, k, j, r);
        StillActive(calendar, log, views, k, r, t);
      }
    }
  }

  lemma StillActive(calendar: Calendar, log: seq<Command>, views: seq<nat>, k: nat, r: RunId, t: TimerId)
    requires Honest(calendar, log, views) && k < |log|
    requires RunsAt(calendar, log, k, r, t) && r in StateAt(calendar, log, k + 1).activeRuns
    ensures !TakesAt(calendar, log, k, t)
  {
    HonestFresh(calendar, log, views);
    hide Honest, Check;
    SingleOwner(calendar, log, k);
    StateStep(calendar, log, k + 1);
    hide StateAt;
  }

  lemma KeepsToken(calendar: Calendar, log: seq<Command>, views: seq<nat>, k: nat, t: TimerId)
    requires Honest(calendar, log, views) && k < |log| && !TakesAt(calendar, log, k, t)
    ensures TokenAt(calendar, log, k + 1, t) == if Recreates(log[k], t) then Some(0) else TokenAt(calendar, log, k, t)
  {
    var s, c := StateAt(calendar, log, k), log[k];
    StateStep(calendar, log, k + 1);
    if c.ExpireRunLease? && c.runId in s.activeRuns {
      ExpiryExact(calendar, log, views, k);
    }
    hide StateAt, Honest;
    if !Recreates(c, t) {
      if t in s.timers {
        OtherCommandsKeepToken(calendar, s, c, t);
      } else {
        NoNewTimer(calendar, s, c, t);
      }
    }
  }

  lemma NoNewTimer(calendar: Calendar, s: State, c: Command, t: TimerId)
    requires t !in s.timers && !Recreates(c, t)
    ensures t !in Apply(calendar, s, c).timers
  {
  }

  // ----- Tokens count the takes, until one is forgotten -----

  ghost function CountTakes(calendar: Calendar, log: seq<Command>, k: nat, t: TimerId): nat
    requires k <= |log|
  {
    if k == 0 then 0
    else CountTakes(calendar, log, k - 1, t) + if TakesAt(calendar, log, k - 1, t) then 1 else 0
  }

  lemma {:induction false} CountsSame(calendar: Calendar, log: seq<Command>, lo: nat, hi: nat, t: TimerId)
    requires lo <= hi <= |log|
    ensures CountTakes(calendar, log, lo, t) <= CountTakes(calendar, log, hi, t)
    ensures NoTakes(calendar, log, lo, hi, t) ==> CountTakes(calendar, log, lo, t) == CountTakes(calendar, log, hi, t)
    decreases hi
  {
    hide TakesAt;
    if lo < hi {
      CountsSame(calendar, log, lo, hi - 1, t);
    }
  }

  ghost predicate NeverForgets(calendar: Calendar, log: seq<Command>, views: seq<nat>, k: nat, t: TimerId)
    requires |views| == |log|
  {
    forall i: nat, j: nat :: i < j < k ==> !Forgets(calendar, log, views, i, j, t)
  }

  /** The token has been reset since it was last taken. */
  ghost predicate Pending(calendar: Calendar, log: seq<Command>, k: nat, t: TimerId)
    requires k <= |log|
  {
    TokenAt(calendar, log, k, t) == Some(0)
    && exists i: nat :: i < k && ResetsAt(calendar, log, i, t) && NoTakes(calendar, log, i + 1, k, t)
  }

  ghost predicate Counting(calendar: Calendar, log: seq<Command>, k: nat, t: TimerId)
    requires k <= |log|
  {
    var token := TokenAt(calendar, log, k, t);
    if token.None? then CountTakes(calendar, log, k, t) == 0
    else token.value == CountTakes(calendar, log, k, t) || Pending(calendar, log, k, t)
  }

  /** If nothing is forgotten, the token taken from a view counts the takes so far. */
  lemma TakeCounts(calendar: Calendar, log: seq<Command>, views: seq<nat>, j: nat, t: TimerId)
    requires Honest(calendar, log, views) && AtomicClaims(log, views) && TakesAt(calendar, log, j, t)
    requires NeverForgets(calendar, log, views, j + 1, t) && Counting(calendar, log, views[j], t)
    ensures TokenOfTake(log[j]) == CountTakes(calendar, log, j, t) + 1
  {
    TakeFollowsView(calendar, log, views, j, t);
    NoTakeSinceView(calendar, log, views, j, t);
    CountsSame(calendar, log, views[j], j, t);
    hide TakesAt, TokenAt, ResetsAt, Honest, StateAt, CountTakes, NoTakes, AtomicClaims;
    if Pending(calendar, log, views[j], t) {
      PendingForgets(calendar, log, views, j, t);
    }
  }

  lemma PendingForgets(calendar: Calendar, log: seq<Command>, views: seq<nat>, j: nat, t: TimerId)
    requires |views| == |log| && j < |log| && TakesAt(calendar, log, j, t) && views[j] <= j
    requires Pending(calendar, log, views[j], t) && NoTakes(calendar, log, views[j], j, t)
    ensures !NeverForgets(calendar, log, views, j + 1, t)
  {
    hide TakesAt, TokenAt, ResetsAt, StateAt, NoTakes;
    var i: nat :| i < views[j] && ResetsAt(calendar, log, i, t) && NoTakes(calendar, log, i + 1, views[j], t);
    NoTakesJoin(calendar, log, i + 1, views[j], j, t);
    assert Forgets(calendar, log, views, i, j, t);
  }

  lemma NoTakesJoin(calendar: Calendar, log: seq<Command>, lo: nat, mid: nat, hi: nat, t: TimerId)
    requires NoTakes(calendar, log, lo, mid, t) && NoTakes(calendar, log, mid, hi, t)
    ensures NoTakes(calendar, log, lo, hi, t)
  {
  }

  lemma CountingStep(calendar: Calendar, log: seq<Command>, views: seq<nat>, k: nat, t: TimerId)
    requires Honest(calendar, log, views) && k < |log| && Counting(calendar, log, k, t)
    requires TakesAt(calendar, log, k, t) ==> TokenOfTake(log[k]) == CountTakes(calendar, log, k, t) + 1
    ensures Counting(calendar, log, k + 1, t)
  {
    if TakesAt(calendar, log, k, t) {
      TakeFollowsView(calendar, log, views, k, t);
      hide TakesAt, TokenAt, Honest, StateAt, Pending, TokenOfTake;
    } else {
      KeepsToken(calendar, log, views, k, t);
      hide TakesAt, TokenAt, Honest, StateAt, Pending;
      if Recreates(log[k], t) {
        RecreatedCounts(calendar, log, k, t);
      } else {
        PendingLasts(calendar, log, k, t);
      }
    }
  }

  lemma RecreatedCounts(calendar: Calendar, log: seq<Command>, k: nat, t: TimerId)
    requires k < |log| && Counting(calendar, log, k, t) && !TakesAt(calendar, log, k, t)
    requires Recreates(log[k], t) && TokenAt(calendar, log, k + 1, t) == Some(0)
    ensures Counting(calendar, log, k + 1, t)
  {
    hide TakesAt, TokenAt, StateAt;
    var token := TokenAt(calendar, log, k, t);
    if token.Some? && token.value > 0 {
      assert ResetsAt(calendar, log, k, t) && NoTakes(calendar, log, k + 1, k + 1, t);
    } else {
      PendingLasts(calendar, log, k, t);
    }
  }

  lemma PendingLasts(calendar: Calendar, log: seq<Command>, k: nat, t: TimerId)
    requires k < |log| && !TakesAt(calendar, log, k, t)
    ensures Pending(calendar, log, k, t) && TokenAt(calendar, log, k + 1, t) == Some(0) ==> Pending(calendar, log, k + 1, t)
  {
    hide TakesAt, TokenAt, ResetsAt, StateAt;
    if Pending(calendar, log, k, t) {
      var i: nat :| i < k && ResetsAt(calendar, log, i, t) && NoTakes(calendar, log, i + 1, k, t);
      assert NoTakes(calendar, log, i + 1, k + 1, t);
    }
  }

  /** What the induction over the log establishes. */
  ghost predicate CountsUpTo(calendar: Calendar, log: seq<Command>, k: nat, t: TimerId)
    requires k <= |log|
  {
    && (forall m :: 0 <= m <= k ==> Counting(calendar, log, m, t))
    && forall j :: 0 <= j < k && TakesAt(calendar, log, j, t) ==>
         TokenOfTake(log[j]) == CountTakes(calendar, log, j, t) + 1
  }

  lemma {:induction false} TokensCount(calendar: Calendar, log: seq<Command>, views: seq<nat>, k: nat, t: TimerId)
    requires Honest(calendar, log, views) && AtomicClaims(log, views) && k <= |log|
    requires NeverForgets(calendar, log, views, k, t)
    ensures CountsUpTo(calendar, log, k, t)
  {
    if k == 0 {
      assert Counting(calendar, log, 0, t);
    } else {
      hide Honest, AtomicClaims, NeverForgets, CountsUpTo;
      ForgetsLess(calendar, log, views, k, t);
      HonestLength(calendar, log, views);
      TokensCount(calendar, log, views, k - 1, t);
      CountOneMore(calendar, log, views, k - 1, t);
    }
  }

  lemma HonestLength(calendar: Calendar, log: seq<Command>, views: seq<nat>)
    requires Honest(calendar, log, views)
    ensures |views| == |log| && forall i :: 0 <= i < |log| ==> views[i] <= i
  {
  }

  lemma CountOneMore(calendar: Calendar, log: seq<Command>, views: seq<nat>, k: nat, t: TimerId)
    requires Honest(calendar, log, views) && AtomicClaims(log, views) && k < |log|
    requires NeverForgets(calendar, log, views, k + 1, t) && CountsUpTo(calendar, log, k, t)
    ensures CountsUpTo(calendar, log, k + 1, t)
  {
    HonestLength(calendar, log, views);
    CountsAt(calendar, log, k, views[k], t);
    CountsAt(calendar, log, k, k, t);
    hide *;
    if TakesAt(calendar, log, k, t) {
      TakeCounts(calendar, log, views, k, t);
    }
    CountingStep(calendar, log, views, k, t);
    CountsMore(calendar, log, k, t);
  }

  lemma CountsAt(calendar: Calendar, log: seq<Command>, k: nat, m: nat, t: TimerId)
    requires m <= k <= |log| && CountsUpTo(calendar, log, k, t)
    ensures Counting(calendar, log, m, t)
  {
  }

  lemma CountsMore(calendar: Calendar, log: seq<Command>, k: nat, t: TimerId)
    requires k < |log| && CountsUpTo(calendar, log, k, t) && Counting(calendar, log, k + 1, t)
    requires TakesAt(calendar, log, k, t) ==> TokenOfTake(log[k]) == CountTakes(calendar, log, k, t) + 1
    ensures CountsUpTo(calendar, log, k + 1, t)
  {
    hide Counting, TakesAt, CountTakes, TokenOfTake;
  }

  lemma ForgetsLess(calendar: Calendar, log: seq<Command>, views: seq<nat>, k: nat, t: TimerId)
    requires |views| == |log| && k > 0 && NeverForgets(calendar, log, views, k, t)
    ensures NeverForgets(calendar, log, views, k - 1, t)
  {
  }

  // ----- Once forgotten, the first token comes again -----

  /** A token above 0 means that token 1 has been taken. */
  lemma {:induction false} FirstTaken(calendar: Calendar, log: seq<Command>, views: seq<nat>, k: nat, t: TimerId) returns (m: nat)
    requires Honest(calendar, log, views) && k <= |log|
    requires TokenAt(calendar, log, k, t).Some? && TokenAt(calendar, log, k, t).value > 0
    ensures m < k && TakesAt(calendar, log, m, t) && TokenOfTake(log[m]) == 1
    decreases k
  {
    assert k > 0;
    if TakesAt(calendar, log, k - 1, t) {
      TakeFollowsView(calendar, log, views, k - 1, t);
      hide TakesAt, TokenAt, Honest, StateAt;
      if TokenOfTake(log[k - 1]) == 1 {
        m := k - 1;
      } else {
        m := FirstTaken(calendar, log, views, views[k - 1], t);
      }
    } else {
      KeepsToken(calendar, log, views, k - 1, t);
      hide TakesAt, TokenAt, Honest, StateAt;
      m := FirstTaken(calendar, log, views, k - 1, t);
    }
  }

  lemma {:induction false} StaysZero(calendar: Calendar, log: seq<Command>, views: seq<nat>, i: nat, k: nat, t: TimerId)
    requires Honest(calendar, log, views) && i < k <= |log| && Recreates(log[i], t) && NoTakes(calendar, log, i, k, t)
    ensures TokenAt(calendar, log, k, t) == Some(0)
    decreases k
  {
    hide TakesAt, TokenAt, Honest, StateAt;
    KeepsToken(calendar, log, views, k - 1, t);
    if i < k - 1 {
      StaysZero(calendar, log, views, i, k - 1, t);
    }
  }

  lemma RecreationTakesNothing(calendar: Calendar, log: seq<Command>, i: nat, t: TimerId)
    ensures ResetsAt(calendar, log, i, t) ==> !TakesAt(calendar, log, i, t)
  {
  }

  lemma ForgottenIsOne(calendar: Calendar, log: seq<Command>, views: seq<nat>, i: nat, j: nat, t: TimerId)
    requires Honest(calendar, log, views) && Forgets(calendar, log, views, i, j, t)
    ensures TokenOfTake(log[j]) == 1
  {
    RecreationTakesNothing(calendar, log, i, t);
    TakeFollowsView(calendar, log, views, j, t);
    assert NoTakes(calendar, log, i, views[j], t);
    hide TakesAt, TokenAt, Honest, StateAt, NoTakes;
    StaysZero(calendar, log, views, i, views[j], t);
  }

  lemma ForgottenRepeats(calendar: Calendar, log: seq<Command>, views: seq<nat>, i: nat, j: nat, t: TimerId)
    requires Honest(calendar, log, views) && Forgets(calendar, log, views, i, j, t)
    ensures !DistinctTokens(calendar, log, t)
  {
    ForgottenIsOne(calendar, log, views, i, j, t);
    hide TakesAt, TokenAt, Honest, StateAt, NoTakes, TokenOfTake;
    var m := FirstTaken(calendar, log, views, i, t);
  }

  /**
   With atomic claims, the tokens taken by a timer are pairwise distinct if and only if the first
   token taken after a creation or update at a token above 0 is never taken from a view that has
   already seen it.
   */
  lemma TokensDistinctExact(calendar: Calendar, log: seq<Command>, views: seq<nat>, t: TimerId)
    requires Honest(calendar, log, views) && AtomicClaims(log, views)
    ensures DistinctTokens(calendar, log, t) <==> forall i: nat, j: nat :: !Forgets(calendar, log, views, i, j, t)
  {
    if i: nat, j: nat :| Forgets(calendar, log, views, i, j, t) {
      ForgottenRepeats(calendar, log, views, i, j, t);
    } else {
      NeverForgottenDistinct(calendar, log, views, t);
    }
  }

  lemma NeverForgottenDistinct(calendar: Calendar, log: seq<Command>, views: seq<nat>, t: TimerId)
    requires Honest(calendar, log, views) && AtomicClaims(log, views)
    requires forall i: nat, j: nat :: !Forgets(calendar, log, views, i, j, t)
    ensures DistinctTokens(calendar, log, t)
  {
    hide TakesAt, Honest, StateAt, Counting, Forgets, CountTakes, TokenOfTake, AtomicClaims, NoTakes;
    TokensCount(calendar, log, views, |log|, t);
    forall a, b | 0 <= a < b < |log| && TakesAt(calendar, log, a, t) && TakesAt(calendar, log, b, t)
      ensures TokenOfTake(log[a]) != TokenOfTake(log[b])
    {
      TakenBefore(calendar, log, b, t);
      TakenBefore(calendar, log, a, t);
      CountsSame(calendar, log, a + 1, b, t);
    }
  }

  lemma TakenBefore(calendar: Calendar, log: seq<Command>, j: nat, t: TimerId)
    requires TakesAt(calendar, log, j, t)
    ensures j < |log| && CountTakes(calendar, log, j + 1, t) == CountTakes(calendar, log, j, t) + 1
  {
    hide StateAt;
  }

  /** While no lost run of the timer is replaced: exactly when no claim follows a creation or update at a token above 0. */
  lemma ClaimsDistinctExact(calendar: Calendar, log: seq<Command>, views: seq<nat>, t: TimerId)
    requires Honest(calendar, log, views) && AtomicClaims(log, views)
    requires forall j: nat :: TakesAt(calendar, log, j, t) ==> log[j].ClaimRun?
    ensures DistinctTokens(calendar, log, t) <==>
            forall i: nat, j: nat :: i < j ==> !(ResetsAt(calendar, log, i, t) && TakesAt(calendar, log, j, t))
  {
    TokensDistinctExact(calendar, log, views, t);
    if i: nat, j: nat :| i < j && ResetsAt(calendar, log, i, t) && TakesAt(calendar, log, j, t) {
      var k := FirstTakeAfter(calendar, log, i + 1, j, t);
      assert Forgets(calendar, log, views, i, k, t) by { AtomicView(log, views, k); }
    }
  }

  lemma AtomicView(log: seq<Command>, views: seq<nat>, k: nat)
    requires |views| == |log| && AtomicClaims(log, views) && k < |log| && log[k].ClaimRun?
    ensures views[k] == k
  {
  }

  lemma FirstTakeAfter(calendar: Calendar, log: seq<Command>, lo: nat, j: nat, t: TimerId) returns (k: nat)
    requires lo <= j && TakesAt(calendar, log, j, t)
    ensures lo <= k <= j && TakesAt(calendar, log, k, t) && NoTakes(calendar, log, lo, k, t)
  {
    hide TakesAt;
    k := lo;
    while !TakesAt(calendar, log, k, t)
      invariant lo <= k <= j && NoTakes(calendar, log, lo, k, t)
      decreases j - k
    {
      k := k + 1;
    }
  }

  // ----- The condition at work -----

  /** Creating a running timer again and then losing its lease repeats the token, without a further claim. */
  function LostLog(spec: TimerSpec, token: nat): seq<Command>
    requires spec.target.WorkerTask?
  {
    [CreateTimer(spec, Some(0)), ClaimRun(spec.id, "r1", "w1", 1, 1, 30), CreateTimer(spec, Some(0)),
     ExpireRunLease("r1", Some(WorkerRun(spec.id, spec.tenantId, "r1", spec.target.task, spec.target.payload, 2, token)), 30)]
  }

  lemma LostStates(calendar: Calendar, spec: TimerSpec, token: nat)
    requires spec.target.WorkerTask?
    ensures var log := LostLog(spec, token);
      var run := ActiveRun(spec.id, "r1", "w1", 1, 1, 30);
      && StateAt(calendar, log, 0) == EMPTY
      && StateAt(calendar, log, 1).timers == map[spec.id := Timer(spec, Scheduled, 0)]
      && StateAt(calendar, log, 1).activeRuns == map[]
      && StateAt(calendar, log, 2).timers == map[spec.id := Timer(spec, Running, 1)]
      && StateAt(calendar, log, 2).activeRuns == map["r1" := run]
      && StateAt(calendar, log, 3).timers == map[spec.id := Timer(spec, Scheduled, 0)]
      && StateAt(calendar, log, 3).activeRuns == map["r1" := run]
  {
    var log := LostLog(spec, token);
    StateStep(calendar, log, 1);
    StateStep(calendar, log, 2);
    StateStep(calendar, log, 3);
    assert StateAt(calendar, log, 0) == EMPTY;
    hide StateAt, Rescheduled;
  }

  lemma LostHonest(calendar: Calendar, spec: TimerSpec, view: nat)
    requires spec.target.WorkerTask? && spec.retry.maxAttempts > 1 && 2 <= view <= 3
    ensures Honest(calendar, LostLog(spec, if view == 2 then 2 else 1), [0, 1, 2, view])
    ensures AtomicClaims(LostLog(spec, if view == 2 then 2 else 1), [0, 1, 2, view])
  {
    LostStates(calendar, spec, if view == 2 then 2 else 1);
    hide StateAt;
  }

  lemma LostTakes(calendar: Calendar, spec: TimerSpec, token: nat, j: nat)
    requires spec.target.WorkerTask?
    ensures TakesAt(calendar, LostLog(spec, token), j, spec.id) <==> j == 1 || j == 3
    ensures ResetsAt(calendar, LostLog(spec, token), j, spec.id) <==> j == 2
  {
    LostStates(calendar, spec, token);
    hide StateAt;
  }

  /**
   The creation at token 1 is not followed by any claim. A node that saw it replaces the lost run under
   token 1 again; a node that did not replaces it under token 2, and the tokens stay distinct.
   */
  lemma LostRunDecides(calendar: Calendar, spec: TimerSpec, view: nat)
    requires spec.target.WorkerTask? && spec.retry.maxAttempts > 1 && 2 <= view <= 3
    ensures var log := LostLog(spec, if view == 2 then 2 else 1);
      && Honest(calendar, log, [0, 1, 2, view]) && AtomicClaims(log, [0, 1, 2, view])
      && ResetsAt(calendar, log, 2, spec.id) && !log[3].ClaimRun?
      && (DistinctTokens(calendar, log, spec.id) <==> view == 2)
  {
    var token := if view == 2 then 2 else 1;
    var log := LostLog(spec, token);
    LostHonest(calendar, spec, view);
    LostTakes(calendar, spec, token, 1);
    LostTakes(calendar, spec, token, 2);
    LostTakes(calendar, spec, token, 3);
    hide TakesAt, ResetsAt, Honest, AtomicClaims;
    forall j ensures TakesAt(calendar, log, j, spec.id) ==> j == 1 || j == 3 {
      LostTakes(calendar, spec, token, j);
    }
    assert TokenOfTake(log[1]) == 1 && TokenOfTake(log[3]) == token;
  }

  /** The log of `RecreationRepeatsToken` is such a case: the claim at 4 has forgotten token 1. */
  lemma RecreationForgets(calendar: Calendar, spec: TimerSpec)
    ensures Forgets(calendar, RecreatedLog(spec), [0, 1, 2, 3, 4], 3, 4, spec.id)
  {
    RecreatedStates(calendar, spec);
    StaleStates(calendar, spec);
    hide StateAt;
  }
}
