/**
 When fencing tokens are distinct although claims reach the log late: exactly when each is taken from a
 view whose token counts the tokens taken before it.
 */
module DelayedClaims {
  import opened Prelude
  import opened Retry
  import opened Schedules
  import opened Timers
  import opened Machine
  import opened Ownership
  import opened Leases
  import opened Tokens

  /** The token in the proposer's view is the number of tokens taken before the command. */
  ghost predicate OnCount(calendar: Calendar, log: seq<Command>, views: seq<nat>, j: nat, t: TimerId) {
    && j < |log| && j < |views| && views[j] <= j
    && TokenAt(calendar, log, views[j], t) == Some(CountTakes(calendar, log, j, t))
  }

  /** The timer's token has not changed since the proposer's view. */
  ghost predicate Current(calendar: Calendar, log: seq<Command>, views: seq<nat>, j: nat, t: TimerId) {
    && j < |log| && j < |views| && views[j] <= j
    && TokenAt(calendar, log, views[j], t) == TokenAt(calendar, log, j, t)
  }

  /** The tokens taken before `k` are 1, 2, 3, .... */
  ghost predicate CountedTo(calendar: Calendar, log: seq<Command>, k: nat, t: TimerId)
    requires k <= |log|
  {
    forall a :: 0 <= a < k && TakesAt(calendar, log, a, t) ==> TokenOfTake(log[a]) == CountTakes(calendar, log, a, t) + 1
  }

  lemma OnCountToken(calendar: Calendar, log: seq<Command>, views: seq<nat>, j: nat, t: TimerId)
    requires Honest(calendar, log, views) && TakesAt(calendar, log, j, t)
    ensures OnCount(calendar, log, views, j, t) <==> TokenOfTake(log[j]) == CountTakes(calendar, log, j, t) + 1
  {
    TakeFollowsView(calendar, log, views, j, t);
    hide TakesAt, TokenAt, Honest, CountTakes, TokenOfTake;
  }

  lemma NothingYet(calendar: Calendar, log: seq<Command>, t: TimerId)
    ensures TokenAt(calendar, log, 0, t).None?
  {
    assert StateAt(calendar, log, 0) == EMPTY;
  }

  lemma {:induction false} TokenWithinCount(calendar: Calendar, log: seq<Command>, views: seq<nat>, k: nat, t: TimerId)
    requires Honest(calendar, log, views) && k <= |log| && CountedTo(calendar, log, k, t)
    ensures TokenAt(calendar, log, k, t).Some? ==> TokenAt(calendar, log, k, t).value <= CountTakes(calendar, log, k, t)
  {
    hide TakesAt, TokenAt, Honest, TokenOfTake, Recreates;
    if k > 0 {
      TokenWithinCount(calendar, log, views, k - 1, t);
      if TakesAt(calendar, log, k - 1, t) {
        TakeFollowsView(calendar, log, views, k - 1, t);
      } else {
        KeepsToken(calendar, log, views, k - 1, t);
      }
    } else {
      NothingYet(calendar, log, t);
    }
  }

  /** Every number up to the count has been taken. */
  lemma {:induction false} TakenAs(calendar: Calendar, log: seq<Command>, k: nat, n: nat, t: TimerId) returns (a: nat)
    requires k <= |log| && 0 < n <= CountTakes(calendar, log, k, t)
    ensures a < k && TakesAt(calendar, log, a, t) && CountTakes(calendar, log, a, t) + 1 == n
    decreases k
  {
    hide TakesAt;
    assert k > 0;
    if CountTakes(calendar, log, k - 1, t) < n {
      a := k - 1;
    } else {
      a := TakenAs(calendar, log, k - 1, n, t);
    }
  }

  /** The first token off the count is one that has been taken. */
  lemma OffCountRepeats(calendar: Calendar, log: seq<Command>, views: seq<nat>, j: nat, t: TimerId)
    requires Honest(calendar, log, views) && TakesAt(calendar, log, j, t) && CountedTo(calendar, log, j, t)
    requires TokenOfTake(log[j]) != CountTakes(calendar, log, j, t) + 1
    ensures !DistinctTokens(calendar, log, t)
  {
    TakeFollowsView(calendar, log, views, j, t);
    CountsSame(calendar, log, views[j], j, t);
    assert CountedTo(calendar, log, views[j], t) by { hide TakesAt, CountTakes; }
    TokenWithinCount(calendar, log, views, views[j], t);
    hide TakesAt, TokenAt, Honest, CountTakes, TokenOfTake;
    var a := TakenAs(calendar, log, j, TokenOfTake(log[j]), t);
  }

  lemma {:induction false} FirstOffCount(calendar: Calendar, log: seq<Command>, k: nat, t: TimerId) returns (j: nat)
    requires k <= |log| && !CountedTo(calendar, log, k, t)
    ensures j < k && TakesAt(calendar, log, j, t) && CountedTo(calendar, log, j, t)
    ensures TokenOfTake(log[j]) != CountTakes(calendar, log, j, t) + 1
  {
    hide TakesAt, CountTakes, TokenOfTake;
    assert k > 0;
    if CountedTo(calendar, log, k - 1, t) {
      j := k - 1;
    } else {
      j := FirstOffCount(calendar, log, k - 1, t);
    }
  }

  lemma CountedIsDistinct(calendar: Calendar, log: seq<Command>, t: TimerId)
    requires CountedTo(calendar, log, |log|, t)
    ensures DistinctTokens(calendar, log, t)
  {
    hide TakesAt, CountTakes, TokenOfTake;
    forall a, b | 0 <= a < b < |log| && TakesAt(calendar, log, a, t) && TakesAt(calendar, log, b, t)
      ensures TokenOfTake(log[a]) != TokenOfTake(log[b])
    {
      TakenBefore(calendar, log, a, t);
      CountsSame(calendar, log, a + 1, b, t);
    }
  }

  lemma DistinctIsCounted(calendar: Calendar, log: seq<Command>, views: seq<nat>, t: TimerId)
    requires Honest(calendar, log, views) && DistinctTokens(calendar, log, t)
    ensures CountedTo(calendar, log, |log|, t)
  {
    hide TakesAt, CountTakes, TokenOfTake, Honest, CountedTo, DistinctTokens;
    if !CountedTo(calendar, log, |log|, t) {
      var j := FirstOffCount(calendar, log, |log|, t);
      OffCountRepeats(calendar, log, views, j, t);
    }
  }

  /**
   However late claims are committed and whenever the timer is created again: the tokens it hands out are
   pairwise distinct if and only if each command takes its token from a view in which the timer's token is
   the number of tokens taken before the command.
   */
  lemma OnCountExact(calendar: Calendar, log: seq<Command>, views: seq<nat>, t: TimerId)
    requires Honest(calendar, log, views)
    ensures DistinctTokens(calendar, log, t) <==>
            forall j: nat :: TakesAt(calendar, log, j, t) ==> OnCount(calendar, log, views, j, t)
  {
    HonestLength(calendar, log, views);
    forall j: nat | TakesAt(calendar, log, j, t)
      ensures j < |log|
      ensures OnCount(calendar, log, views, j, t) <==> TokenOfTake(log[j]) == CountTakes(calendar, log, j, t) + 1
    {
      OnCountToken(calendar, log, views, j, t);
    }
    hide TakesAt, CountTakes, TokenOfTake, Honest, OnCount, DistinctTokens;
    if DistinctTokens(calendar, log, t) {
      DistinctIsCounted(calendar, log, views, t);
    } else if CountedTo(calendar, log, |log|, t) {
      CountedIsDistinct(calendar, log, t);
    }
  }

  // ----- A timer created once -----

  ghost predicate Tracks(calendar: Calendar, log: seq<Command>, k: nat, t: TimerId)
    requires k <= |log|
  {
    var token := TokenAt(calendar, log, k, t);
    if token.Some? then token.value == CountTakes(calendar, log, k, t) else CountTakes(calendar, log, k, t) == 0
  }

  /** A take that is on count, or a command that takes nothing, keeps the token equal to the count. */
  lemma TracksOn(calendar: Calendar, log: seq<Command>, views: seq<nat>, k: nat, t: TimerId)
    requires Honest(calendar, log, views) && CreatedOnce(calendar, log, t) && k < |log| && Tracks(calendar, log, k, t)
    requires TakesAt(calendar, log, k, t) ==> TokenOfTake(log[k]) == CountTakes(calendar, log, k, t) + 1
    ensures Tracks(calendar, log, k + 1, t)
  {
    if TakesAt(calendar, log, k, t) {
      TakeFollowsView(calendar, log, views, k, t);
    } else {
      KeepsToken(calendar, log, views, k, t);
      assert Recreates(log[k], t) ==> TokenAt(calendar, log, k, t).None? by { hide StateAt; }
    }
    hide TakesAt, TokenAt, Honest, TokenOfTake, Recreates, CreatedOnce;
  }

  /** While the token is the count, a claim is on count exactly if it is current, and a replaced expiry always is. */
  lemma CurrentOnCount(calendar: Calendar, log: seq<Command>, views: seq<nat>, k: nat, t: TimerId)
    requires Honest(calendar, log, views) && CreatedOnce(calendar, log, t)
    requires TakesAt(calendar, log, k, t) && Tracks(calendar, log, k, t)
    ensures TokenOfTake(log[k]) == CountTakes(calendar, log, k, t) + 1
       <==> !log[k].ClaimRun? || Current(calendar, log, views, k, t)
  {
    TakeFollowsView(calendar, log, views, k, t);
    TimersPersist(calendar, log, views[k], k, t) by { hide StateAt; }
    assert TokenAt(calendar, log, k, t).Some? by { hide StateAt; }
    if !log[k].ClaimRun? {
      TokenGrows(calendar, log, views, k, t);
    }
    hide StateAt, Honest, CreatedOnce, CountTakes, TokenOfTake;
  }

  /** Every effective claim before `k` is current. */
  ghost predicate CurrentTo(calendar: Calendar, log: seq<Command>, views: seq<nat>, k: nat, t: TimerId)
    requires k <= |log|
  {
    forall j :: 0 <= j < k && TakesAt(calendar, log, j, t) && log[j].ClaimRun? ==> Current(calendar, log, views, j, t)
  }

  lemma {:induction false} CountedTracks(calendar: Calendar, log: seq<Command>, views: seq<nat>, k: nat, t: TimerId)
    requires Honest(calendar, log, views) && CreatedOnce(calendar, log, t) && k <= |log| && CountedTo(calendar, log, k, t)
    ensures Tracks(calendar, log, k, t)
  {
    hide TakesAt, Honest, TokenOfTake, CreatedOnce, TokenAt;
    if k > 0 {
      CountedTracks(calendar, log, views, k - 1, t);
      TracksOn(calendar, log, views, k - 1, t);
    } else {
      NothingYet(calendar, log, t);
    }
  }

  lemma {:induction false} CurrentCounted(calendar: Calendar, log: seq<Command>, views: seq<nat>, k: nat, t: TimerId)
    requires Honest(calendar, log, views) && CreatedOnce(calendar, log, t) && k <= |log|
    requires CurrentTo(calendar, log, views, k, t)
    ensures Tracks(calendar, log, k, t) && CountedTo(calendar, log, k, t)
  {
    hide TakesAt, Honest, TokenOfTake, CreatedOnce, TokenAt, Current;
    if k > 0 {
      CurrentCounted(calendar, log, views, k - 1, t);
      if TakesAt(calendar, log, k - 1, t) {
        CurrentOnCount(calendar, log, views, k - 1, t);
      }
      TracksOn(calendar, log, views, k - 1, t);
    } else {
      NothingYet(calendar, log, t);
    }
  }

  /**
   For a timer created once, however late claims are committed: the tokens are pairwise distinct if and only
   if no effective claim is committed after the token has moved on from the view it was read from.
   */
  lemma CurrentExact(calendar: Calendar, log: seq<Command>, views: seq<nat>, t: TimerId)
    requires Honest(calendar, log, views) && CreatedOnce(calendar, log, t)
    ensures DistinctTokens(calendar, log, t) <==>
            forall j: nat :: TakesAt(calendar, log, j, t) && log[j].ClaimRun? ==> Current(calendar, log, views, j, t)
  {
    HonestLength(calendar, log, views);
    assert forall j: nat :: TakesAt(calendar, log, j, t) ==> j < |log|;
    hide TakesAt, TokenOfTake, Honest, CreatedOnce, Tracks, CountTakes, Current, DistinctTokens;
    if DistinctTokens(calendar, log, t) {
      DistinctIsCounted(calendar, log, views, t);
      forall j: nat | TakesAt(calendar, log, j, t) && log[j].ClaimRun? ensures Current(calendar, log, views, j, t) {
        CountedTracks(calendar, log, views, j, t);
        CurrentOnCount(calendar, log, views, j, t);
      }
    } else if forall j: nat :: TakesAt(calendar, log, j, t) && log[j].ClaimRun? ==> Current(calendar, log, views, j, t) {
      CurrentCounted(calendar, log, views, |log|, t);
      CountedIsDistinct(calendar, log, t);
    }
  }

  // ----- Late claims -----

  /** The claim at 3 of `StaleLog` is not current, and takes token 1 again. */
  lemma StaleIsNotCurrent(calendar: Calendar, spec: TimerSpec)
    ensures var log, views := StaleLog(spec), [0, 1, 2, 1];
      && Honest(calendar, log, views) && CreatedOnce(calendar, log, spec.id) && TakesAt(calendar, log, 3, spec.id)
      && !Current(calendar, log, views, 3, spec.id) && !DistinctTokens(calendar, log, spec.id)
  {
    var log, views := StaleLog(spec), [0, 1, 2, 1];
    StaleHonest(calendar, spec);
    StaleStates(calendar, spec);
    assert StateAt(calendar, log, 0) == EMPTY;
    hide StateAt, Honest;
    assert TakesAt(calendar, log, 1, spec.id) && TakesAt(calendar, log, 3, spec.id);
    assert TokenOfTake(log[1]) == 1 == TokenOfTake(log[3]);
  }
}
