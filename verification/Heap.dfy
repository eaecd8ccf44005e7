/** The scheduler's heap of future runs (`heap.rs`), over the standard library's unordered-among-equals binary heap. */
module Heap {
  import opened Prelude
  import opened Retry
  import opened Timers

  datatype ScheduledTimer = ScheduledTimer(timer: TimerId, at: Time, run: Option<RunId>, attempt: Attempt)

  /** What a heap holds, each entry under the number of its push. */
  type Bag = map<nat, ScheduledTimer>

  ghost predicate IsEarliest(bag: Bag, k: nat) {
    k in bag && forall j :: j in bag ==> bag[k].at <= bag[j].at
  }

  function DueKeys(bag: Bag, now: Time): set<nat> {
    set k | k in bag && bag[k].at <= now
  }

  function WithoutTimer(bag: Bag, id: TimerId): Bag {
    map k | k in bag && bag[k].timer != id :: bag[k]
  }

  predicate SortedByTime(entries: seq<ScheduledTimer>) {
    forall i, j :: 0 <= i < j < |entries| ==> entries[i].at <= entries[j].at
  }

  /** `keys` lists the pushes behind `entries`, each once. */
  predicate Lists(bag: Bag, keys: seq<nat>, entries: seq<ScheduledTimer>) {
    && |keys| == |entries|
    && (forall i :: 0 <= i < |keys| ==> keys[i] in bag && entries[i] == bag[keys[i]])
    && (forall i, j :: 0 <= i < j < |keys| ==> keys[i] != keys[j])
  }

  lemma {:induction false} EarliestExists(bag: Bag)
    requires bag != map[]
    ensures exists k :: IsEarliest(bag, k)
    decreases |bag|
  {
    var k :| k in bag;
    var rest := bag - {k};
    if rest == map[] {
      assert IsEarliest(bag, k) by {
        forall j | j in bag ensures j == k {
          assert j in rest || j == k;
        }
      }
    } else {
      assert |rest| < |bag| by { SmallerWithout(bag, k); }
      EarliestExists(rest);
      var e :| IsEarliest(rest, e);
      var first := if bag[e].at <= bag[k].at then e else k;
      forall j | j in bag ensures bag[first].at <= bag[j].at {
        assert j == k || j in rest;
      }
      assert IsEarliest(bag, first);
    }
  }

  lemma SmallerWithout(bag: Bag, k: nat)
    requires k in bag
    ensures |bag - {k}| == |bag| - 1
  {
    assert (bag - {k}).Keys == bag.Keys - {k};
    assert |bag.Keys| == |bag| && |(bag - {k}).Keys| == |bag - {k}|;
  }

  /** In the middle of popping: `entries` have left `was`, `bag` is what remains. */
  ghost predicate Popping(was: Bag, bag: Bag, keys: seq<nat>, entries: seq<ScheduledTimer>, now: Time) {
    && Lists(was, keys, entries)
    && SortedByTime(entries)
    && (forall k :: k in was <==> k in bag || k in keys)
    && (forall k :: k in keys ==> k !in bag)
    && (forall k :: k in bag ==> bag[k] == was[k])
    && (forall i :: 0 <= i < |entries| ==> entries[i].at <= now)
    && (forall i, k :: 0 <= i < |entries| && k in bag ==> entries[i].at <= bag[k].at)
  }

  lemma PoppingNothing(bag: Bag, now: Time)
    ensures Popping(bag, bag, [], [], now)
  {
  }

  lemma PopOne(was: Bag, bag: Bag, keys: seq<nat>, entries: seq<ScheduledTimer>, now: Time, k: nat)
    requires Popping(was, bag, keys, entries, now) && IsEarliest(bag, k) && bag[k].at <= now
    ensures Popping(was, bag - {k}, keys + [k], entries + [bag[k]], now)
  {
    assert forall i :: 0 <= i < |keys| ==> keys[i] in keys;
    assert (keys + [k])[|keys|] == k;
    assert forall i :: 0 <= i < |keys| ==> (keys + [k])[i] == keys[i];
    assert forall j :: j in keys + [k] <==> j in keys || j == k;
  }

  lemma PoppedAll(was: Bag, bag: Bag, keys: seq<nat>, entries: seq<ScheduledTimer>, now: Time)
    requires Popping(was, bag, keys, entries, now)
    requires forall k :: k in bag ==> bag[k].at > now
    ensures Lists(was, keys, entries) && SortedByTime(entries)
    ensures (set k | k in keys) == DueKeys(was, now)
    ensures bag == was - DueKeys(was, now)
  {
    forall k | k in keys ensures k in DueKeys(was, now) {
      var i :| 0 <= i < |keys| && keys[i] == k;
      assert entries[i] == was[k];
    }
  }

  /** `pushed` counts the pushes; it only tells equal entries apart. */
  class TimerHeap {
    var inner: Bag
    var pushed: nat

    ghost predicate Valid()
      reads this
    {
      forall k :: k in inner ==> k < pushed
    }

    constructor ()
      ensures Valid() && inner == map[] && pushed == 0
    {
      inner, pushed := map[], 0;
    }

    method Push(entry: ScheduledTimer)
      requires Valid()
      modifies this
      ensures Valid() && pushed == old(pushed) + 1 && inner == old(inner)[old(pushed) := entry]
    {
      inner, pushed := inner[pushed := entry], pushed + 1;
    }

    /** The number of an entry with the nearest deadline; among equals, any of them. */
    method Peek() returns (top: Option<nat>)
      ensures top.None? <==> inner == map[]
      ensures top.Some? ==> IsEarliest(inner, top.value)
    {
      if inner == map[] {
        return None;
      }
      EarliestExists(inner);
      var k :| k in inner && forall j :: j in inner ==> inner[k].at <= inner[j].at;
      return Some(k);
    }

    method PeekNextAt() returns (at: Option<Time>)
      ensures at.None? <==> inner == map[]
      ensures at.Some? ==> forall k :: k in inner ==> at.value <= inner[k].at
      ensures at.Some? ==> exists k :: k in inner && inner[k].at == at.value
    {
      var top := Peek();
      if top.None? {
        return None;
      }
      return Some(inner[top.value].at);
    }

    /** Takes out exactly the entries that are due, earliest first. */
    method PopDue(now: Time) returns (due: seq<ScheduledTimer>, keys: seq<nat>)
      requires Valid()
      modifies this`inner
      ensures Valid()
      ensures Lists(old(inner), keys, due) && SortedByTime(due)
      ensures (set k | k in keys) == DueKeys(old(inner), now)
      ensures inner == old(inner) - DueKeys(old(inner), now)
    {
      hide Popping, Lists, SortedByTime, DueKeys;
      due, keys := [], [];
      PoppingNothing(inner, now);
      var top := Peek();
      while top.Some? && inner[top.value].at <= now
        invariant Popping(old(inner), inner, keys, due, now)
        invariant top.None? <==> inner == map[]
        invariant top.Some? ==> IsEarliest(inner, top.value)
        decreases |inner|
      {
        PopOne(old(inner), inner, keys, due, now, top.value);
        SmallerWithout(inner, top.value);
        due, keys := due + [inner[top.value]], keys + [top.value];
        inner := inner - {top.value};
        top := Peek();
      }
      PoppedAll(old(inner), inner, keys, due, now);
    }

    method RemoveTimer(id: TimerId)
      requires Valid()
      modifies this`inner
      ensures Valid() && inner == WithoutTimer(old(inner), id)
    {
      var kept := map k | k in inner && inner[k].timer != id :: inner[k];
      inner := kept;
    }
  }
}
