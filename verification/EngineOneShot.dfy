/** A one-shot timer starts at most one run, over all sessions. */
module EngineOneShot {
  import opened Prelude
  import opened Retry
  import opened Schedules
  import opened Timers
  import opened Events
  import opened Heap
  import opened Engine
  import opened EngineRuns
  import opened EngineFrame
  import opened EngineParts
  import opened EnginePlans
  import EngineDurable

  // ----- The whole part of a one-shot timer -----

  lemma FollowsMeans(spec: TimerSpec, plan: Schedule, terms: Terms)
    requires Follows(spec, plan, terms)
    ensures spec.schedule == plan && (terms.AlwaysDelay? ==> spec.overlap.Delay?)
    ensures terms.OnePolicy? ==> spec.retry == terms.retry
    ensures terms.NeverBackwards? ==> forall a: Attempt :: !WaitsBackwards(spec.retry, a)
  {
  }

  lemma LaterPlanned(p: Part, clock: Time, later: Time, plan: Schedule, terms: Terms)
    requires IsOneShot(plan) && Planned(p, clock, plan, terms) && clock <= later
    ensures Planned(p, later, plan, terms)
  {
    hide Follows, StartedRuns, FireTime;
  }

  lemma MovedPlanned(p: Part, q: Part, clock: Time, later: Time, plan: Schedule, terms: Terms)
    requires IsOneShot(plan) && Planned(p, clock, plan, terms) && Moved(p, q) && clock <= later
    requires q.core.next == p.core.next
    requires forall k :: k in q.core.waiting ==> k in p.core.waiting && q.core.waiting[k] == p.core.waiting[k]
    requires forall k :: k in q.popped || k in q.spawned ==> FireTime(plan) <= later
    ensures Planned(q, later, plan, terms)
  {
    hide StartedRuns, FireTime, Follows, EntryPlanned, EntryAt;
    assert forall k :: FreshAt(q, k) ==> FreshAt(p, k);
  }

  lemma BegunPlanned(p: Part, q: Part, clock: Time, now: Time, k: nat, run: RunId, flight: Option<Flight>, plan: Schedule,
                     terms: Terms)
    requires IsOneShot(plan) && Planned(p, clock, plan, terms) && clock <= now
    requires k in p.spawned && k !in p.core.waiting && k !in p.popped && k !in p.flying
    requires p.spawned[k].run.Some? ==> run == p.spawned[k].run.value
    requires Logged(p.core, q.core, if flight.Some? then Some(run) else None)
    requires flight.Some? ==> Follows(flight.value.spec, plan, terms) && flight.value.run == run
    requires q.popped == p.popped && q.spawned == p.spawned - {k}
    requires q.flying == if flight.Some? then p.flying[k := flight.value] else p.flying
    ensures Planned(q, now, plan, terms)
  {
    var started, after := StartedRuns(p.core.events), StartedRuns(q.core.events);
    BegunEntries(p, q, k, plan, terms, started);
    BegunStarts(started, p.spawned[k], run, plan, terms);
    hide StartedRuns, FireTime, Follows, EntryAt, EntryPlanned, FreshAt;
    assert forall j, x :: EntryAt(q, j, x) ==> after == started && EntryPlanned(x, plan, terms, started);
    AllRetries(q, now, plan, terms, after);
  }

  /** A part without fresh entries is planned if its retries and runs are. */
  lemma AllRetries(p: Part, clock: Time, plan: Schedule, terms: Terms, started: set<RunId>)
    requires IsOneShot(plan) && started == StartedRuns(p.core.events) && (started != {} ==> FireTime(plan) <= clock)
    requires p.core.spec.Some? ==> Follows(p.core.spec.value, plan, terms)
    requires forall r, q :: r in started && q in started ==> r == q
    requires forall k, e :: EntryAt(p, k, e) ==> e.run.Some? && EntryPlanned(e, plan, terms, started)
    requires forall k :: k in p.popped || k in p.spawned ==> FireTime(plan) <= clock
    requires forall k :: k in p.flying ==> Follows(p.flying[k].spec, plan, terms) && p.flying[k].run in started
    ensures Planned(p, clock, plan, terms)
  {
    hide StartedRuns, FireTime, Follows, EntryPlanned;
    assert forall k :: !FreshAt(p, k);
    assert forall k :: k in p.core.waiting ==> EntryAt(p, k, p.core.waiting[k]);
  }

  lemma BegunStarts(started: set<RunId>, e: ScheduledTimer, run: RunId, plan: Schedule, terms: Terms)
    requires IsOneShot(plan) && EntryPlanned(e, plan, terms, started)
    requires forall r, q :: r in started && q in started ==> r == q
    requires e.run.Some? ==> run == e.run.value
    ensures started + {} == started && (started == {} || started + {run} == started)
    ensures forall r, q :: r in started + {run} && q in started + {run} ==> r == q
    ensures e.run.Some? ==> started + {run} == started
  {
    hide FireTime;
  }

  /** A task that begins leaves the other entries alone; a fresh one is the only entry. */
  lemma BegunEntries(p: Part, q: Part, k: nat, plan: Schedule, terms: Terms, started: set<RunId>)
    requires IsOneShot(plan) && k in p.spawned && k !in p.core.waiting && k !in p.popped
    requires forall j, e :: EntryAt(p, j, e) ==> EntryPlanned(e, plan, terms, started)
    requires forall i, j :: FreshAt(p, i) && FreshAt(p, j) ==> i == j
    requires q.core.waiting == p.core.waiting && q.popped == p.popped && q.spawned == p.spawned - {k}
    ensures EntryPlanned(p.spawned[k], plan, terms, started)
    ensures forall j, x :: EntryAt(q, j, x) ==> EntryAt(p, j, x) && x.run.Some? && p.spawned[k].run.Some?
    ensures forall j :: j in q.core.waiting ==> EntryAt(q, j, q.core.waiting[j])
  {
    hide FireTime;
    var e := p.spawned[k];
    assert EntryAt(p, k, e);
    forall j, x | EntryAt(q, j, x) ensures EntryAt(p, j, x) && x.run.Some? && e.run.Some? {
      assert EntryAt(p, j, x) && j != k;
      assert e.run.None? ==> FreshAt(p, k);
      assert x.run.None? ==> FreshAt(p, j);
    }
  }

  lemma FinishedPlanned(p: Part, q: Part, clock: Time, now: Time, k: nat, plan: Schedule, terms: Terms,
                        retry: Option<PendingRetry>)
    requires IsOneShot(plan) && Planned(p, clock, plan, terms) && clock <= now
    requires k in p.flying && Ended(p.core, q.core, retry)
    requires retry.Some? ==> retry.value.run == p.flying[k].run && (terms.AlwaysDelay? || FireTime(plan) <= retry.value.at)
    requires q.popped == p.popped && q.spawned == p.spawned && q.flying == p.flying - {k}
    ensures Planned(q, now, plan, terms)
  {
    hide StartedRuns, FireTime, Follows, FreshAt;
    var started := StartedRuns(p.core.events);
    assert p.flying[k].run in started;
    forall j, x | EntryAt(q, j, x) ensures EntryPlanned(x, plan, terms, started) && x.run.Some? {
      if EntryAt(p, j, x) {
        assert EntryPlanned(x, plan, terms, started);
      }
    }
    AllRetries(q, now, plan, terms, started);
  }

  lemma ReregisteredPlanned(p: Part, q: Part, clock: Time, later: Time, spec: TimerSpec, plan: Schedule, terms: Terms,
                            kept: Bag, next: Option<Time>, k: nat)
    requires IsOneShot(plan) && Planned(p, clock, plan, terms) && clock <= later && Follows(spec, plan, terms)
    requires spec.schedule == plan && Reregistered(p.core, q.core, spec, later, kept, next, k)
    requires q.popped == p.popped && q.spawned == p.spawned && q.flying == p.flying
    ensures Planned(q, later, plan, terms)
    ensures q.core.waiting != kept ==>
      StartedRuns(p.core.events) == {} && p.popped == map[] && p.spawned == map[] && kept == map[]
  {
    hide StartedRuns, FireTime, Follows;
    var started := StartedRuns(p.core.events);
    assert forall j, x :: EntryAt(q, j, x) && !(j == k && q.core.waiting != kept) ==> EntryAt(p, j, x);
    if q.core.waiting != kept {
      assert started == {} && p.popped == map[] && p.spawned == map[];
      assert forall j, x :: EntryAt(q, j, x) && j != k ==> EntryPlanned(x, plan, terms, started) && j in p.core.waiting;
      assert forall j :: j in kept ==> EntryAt(p, j, kept[j]);
      assert kept == map[];
      assert forall j :: FreshAt(q, j) ==> j == k;
    } else {
      assert forall j :: FreshAt(q, j) ==> FreshAt(p, j);
    }
  }

  // ----- The timing of retries under one policy -----

  /** The instant at which the retry of an instantly failing run is due. */
  function FirstRetry(retry: RetryPolicy, fire: Time): Time {
    fire + Wait(retry, 1) * TICKS_PER_SECOND
  }

  /** A retry came after delays that chrono accepts, and after the first of them has passed. */
  predicate Covered(retry: RetryPolicy, r: PendingRetry, clock: Time, fire: Time) {
    && 2 <= r.attempt && (forall b: Attempt :: b < r.attempt ==> IsDuration(Wait(retry, b)))
    && (FirstRetry(retry, fire) <= r.at || FirstRetry(retry, fire) <= clock)
  }

  /** The timer is one entry or one run, its retries are on record, and neither starts before its time. */
  ghost predicate Timed(p: Part, clock: Time, fire: Time, retry: RetryPolicy) {
    var pending := p.core.pending;
    && (forall j, k :: j in Keys(p) && k in Keys(p) ==> j == k)
    && (forall k, e :: EntryAt(p, k, e) ==> if e.run.None? then pending.None? else pending.Some? && e.at == pending.value.at)
    && (forall k :: k in p.popped ==> p.popped[k].at <= clock)
    && (forall k :: k in p.spawned ==> p.spawned[k].at <= clock)
    && (pending.Some? ==> StartedRuns(p.core.events) != {} && Covered(retry, pending.value, clock, fire))
    && (pending.Some? && p.flying != map[] ==> pending.value.at <= clock)
  }

  lemma LaterTimed(p: Part, clock: Time, later: Time, fire: Time, retry: RetryPolicy)
    requires Timed(p, clock, fire, retry) && clock <= later
    ensures Timed(p, later, fire, retry)
  {
    hide StartedRuns, FirstRetry, Keys, EntryAt, IsDuration;
  }

  lemma MovedTimed(p: Part, q: Part, clock: Time, later: Time, fire: Time, retry: RetryPolicy)
    requires Timed(p, clock, fire, retry) && Moved(p, q) && clock <= later
    requires forall k :: k in q.popped ==> q.popped[k].at <= later
    requires forall k :: k in q.spawned ==> q.spawned[k].at <= later
    ensures Timed(q, later, fire, retry)
  {
    MovedKeys(p, q);
    hide StartedRuns, FirstRetry, Keys, EntryAt, IsDuration;
  }

  /** Where the only task is. */
  lemma AloneAt(p: Part, k: nat)
    requires k in Keys(p) && forall j, k :: j in Keys(p) && k in Keys(p) ==> j == k
    ensures forall j :: j in p.core.waiting || j in p.popped || j in p.spawned || j in p.flying ==> j == k
  {
  }

  lemma BegunTimed(p: Part, q: Part, clock: Time, now: Time, k: nat, run: RunId, flight: Option<Flight>, fire: Time,
                   retry: RetryPolicy)
    requires Timed(p, clock, fire, retry) && clock <= now
    requires k in p.spawned && k !in p.core.waiting && k !in p.popped && k !in p.flying
    requires Logged(p.core, q.core, if flight.Some? then Some(run) else None)
    requires q.popped == p.popped && q.spawned == p.spawned - {k}
    requires q.flying == if flight.Some? then p.flying[k := flight.value] else p.flying
    ensures Timed(q, now, fire, retry)
  {
    hide StartedRuns, FirstRetry, IsDuration;
    assert EntryAt(p, k, p.spawned[k]);
    AloneAt(p, k);
    assert forall j, x :: !EntryAt(q, j, x);
    assert forall j :: j in Keys(q) ==> j == k;
  }

  lemma FinishedTimed(p: Part, q: Part, clock: Time, now: Time, k: nat, fire: Time, policy: RetryPolicy,
                      retry: Option<PendingRetry>)
    requires Timed(p, clock, fire, policy) && clock <= now
    requires k in p.flying && k !in p.core.waiting && k !in p.popped && k !in p.spawned
    requires Ended(p.core, q.core, retry) && StartedRuns(p.core.events) != {}
    requires retry.Some? ==> Covered(policy, retry.value, now, fire)
    requires q.popped == p.popped && q.spawned == p.spawned && q.flying == p.flying - {k}
    ensures Timed(q, now, fire, policy)
  {
    hide StartedRuns, FirstRetry, IsDuration;
    AloneAt(p, k);
    assert p.core.waiting == map[] && q.flying == map[];
    assert forall j, x :: EntryAt(q, j, x) ==> j in q.core.waiting;
    assert forall i, j :: i in q.core.waiting && j in q.core.waiting ==> i == j;
  }

  lemma ReregisteredTimed(p: Part, q: Part, clock: Time, later: Time, spec: TimerSpec, plan: Schedule, terms: Terms,
                          kept: Bag, next: Option<Time>, k: nat, retry: RetryPolicy)
    requires IsOneShot(plan) && Planned(p, clock, plan, terms) && Timed(p, clock, FireTime(plan), retry) && clock <= later
    requires spec.schedule == plan && Reregistered(p.core, q.core, spec, later, kept, next, k)
    requires q.core.waiting != kept ==>
      StartedRuns(p.core.events) == {} && p.popped == map[] && p.spawned == map[] && kept == map[]
    requires q.popped == p.popped && q.spawned == p.spawned && q.flying == p.flying
    ensures Timed(q, later, FireTime(plan), retry)
  {
    hide StartedRuns, FirstRetry, IsDuration, Follows, FireTime, EntryPlanned;
    if q.core.waiting == kept {
      assert forall j, x :: EntryAt(q, j, x) ==> EntryAt(p, j, x);
      assert Keys(q) <= Keys(p);
    } else {
      assert p.flying == map[];
      assert Keys(q) == {k};
      assert forall j, x :: EntryAt(q, j, x) ==> x.run.None?;
    }
  }

  /** Under a policy that does not fire early, the next retry is covered and not before the fire time. */
  lemma NextCovered(retry: RetryPolicy, pending: Option<PendingRetry>, now: Time, fire: Time, run: RunId)
    requires !FiresEarly(retry) && fire <= now
    requires pending.Some? ==> Covered(retry, pending.value, now, fire) && pending.value.at <= now
    ensures var attempt: Attempt := if pending.None? then 1 else pending.value.attempt;
      var next := NextRetryAt(retry, now, attempt);
      next.RetryAt? ==> fire <= next.at && Covered(retry, PendingRetry(run, next.at, attempt + 1), now, fire)
  {
    var attempt: Attempt := if pending.None? then 1 else pending.value.attempt;
    if NextRetryAt(retry, now, attempt).RetryAt? {
      assert forall b: Attempt :: b < attempt ==> IsDuration(Wait(retry, b));
      hide Wait;
      CoveredByFirst(retry, attempt);
    }
  }

  // ----- What every state of a run keeps -----

  ghost predicate Kept(p: Part, clock: Time, plan: Schedule, terms: Terms)
    requires IsOneShot(plan)
  {
    Planned(p, clock, plan, terms) && (terms.OnePolicy? ==> Timed(p, clock, FireTime(plan), terms.retry))
  }

  /** A run that fails is never retried before the fire time, unless runs are delayed. */
  lemma RetryKept(c: Core, p: Part, clock: Time, k: nat, outcome: Result<(), string>, now: Time, plan: Schedule, terms: Terms)
    requires IsOneShot(plan) && Kept(p, clock, plan, terms) && Safe(terms) && clock <= now
    requires k in p.flying && p.core == SliceOf(c, p.flying[k].spec.id)
    ensures var retry := RetryOf(c.mem, p.flying[k], outcome, now);
      retry.Some? ==>
        && retry.value.run == p.flying[k].run && (terms.AlwaysDelay? || FireTime(plan) <= retry.value.at)
        && (terms.OnePolicy? ==> Covered(terms.retry, retry.value, now, FireTime(plan)))
  {
    var f := p.flying[k];
    var attempt := CurrentAttempt(c.mem, f.spec.id);
    assert attempt == if p.core.pending.None? then 1 else p.core.pending.value.attempt by { hide Concerning, OfTimer; }
    FollowsMeans(f.spec, plan, terms);
    var next := NextRetryAt(f.spec.retry, now, attempt);
    assert FireTime(plan) <= now && (terms.OnePolicy? && p.core.pending.Some? ==> p.core.pending.value.at <= clock);
    hide SliceOf, Follows, FireTime, CurrentAttempt;
    if outcome.Err? && next.RetryAt? {
      if terms.NeverBackwards? {
        RetryIsLater(f.spec.retry, now, attempt);
      } else if terms.OnePolicy? {
        LaterTimed(p, clock, now, FireTime(plan), terms.retry);
        hide NextRetryAt, FiresEarly;
        NextCovered(terms.retry, p.core.pending, now, FireTime(plan), f.run);
      }
    }
  }

  // ----- Steps -----

  lemma BeginStep(calendar: Calendar, w: World, k: nat, newId: RunId, now: Time, due: bool, start: bool, id: TimerId,
                  plan: Schedule, terms: Terms)
    requires Sound(w) && k in w.spawned && w.spawned[k].timer == id && w.clock <= now
    requires IsOneShot(plan) && Kept(PartOf(w, id), w.clock, plan, terms)
    ensures var v := AfterBegin(w, k, newId, now, Begin(calendar, w.core, w.spawned[k], newId, now, due, start));
      Kept(PartOf(v, id), now, plan, terms)
  {
    var entry := w.spawned[k];
    var b := Begin(calendar, w.core, entry, newId, now, due, start);
    var p, v := PartOf(w, id), AfterBegin(w, k, newId, now, b);
    PlaceOf(w, k, id);
    SoundSpawned(w, k);
    SpawnedPlanned(p, w.clock, k, plan, terms);
    assert p.core.spec == Some(w.core.mem.specs[id]);
    BeginRuntime(calendar, w.core, entry, newId, now, due, start);
    BegunPart(w, k, newId, now, b, id);
    hide Sound, SliceOf, Begin, Planned, Timed, Logged, OfTimer, FlightsOf, AfterBegin, FireTime, StartedRuns, Follows;
    BeginPlanned(calendar, w.core, entry, newId, now, due, start);
    BegunPlanned(p, PartOf(v, id), w.clock, now, k, OrElse(entry.run, newId), b.flight, plan, terms);
    if terms.OnePolicy? {
      BegunTimed(p, PartOf(v, id), w.clock, now, k, OrElse(entry.run, newId), b.flight, FireTime(plan), terms.retry);
    }
  }

  lemma SpawnedPlanned(p: Part, clock: Time, k: nat, plan: Schedule, terms: Terms)
    requires IsOneShot(plan) && Planned(p, clock, plan, terms) && k in p.spawned && p.core.spec.Some?
    ensures Follows(p.core.spec.value, plan, terms) && p.core.spec.value.schedule == plan
    ensures p.core.spec.value.overlap.Delay? || FireTime(plan) <= p.spawned[k].at
  {
    FollowsMeans(p.core.spec.value, plan, terms);
    hide StartedRuns, FireTime, Follows;
    assert EntryAt(p, k, p.spawned[k]);
  }

  lemma FlyingPlanned(p: Part, clock: Time, k: nat, plan: Schedule, terms: Terms)
    requires IsOneShot(plan) && Planned(p, clock, plan, terms) && k in p.flying
    ensures FireTime(plan) <= clock && p.flying[k].spec.schedule == plan && StartedRuns(p.core.events) != {}
  {
    FollowsMeans(p.flying[k].spec, plan, terms);
    hide StartedRuns, FireTime, Follows;
  }

  lemma FinishStep(calendar: Calendar, w: World, k: nat, outcome: Result<(), string>, now: Time, first: bool, second: bool,
                   id: TimerId, plan: Schedule, terms: Terms)
    requires Sound(w) && k in w.executing && w.executing[k].spec.id == id && w.clock <= now
    requires !Panics(w.core, w.executing[k], outcome, now)
    requires IsOneShot(plan) && Kept(PartOf(w, id), w.clock, plan, terms) && Safe(terms)
    ensures var v := AfterFinish(w, k, now, Finish(calendar, w.core, w.executing[k], outcome, now, first, second));
      Kept(PartOf(v, id), now, plan, terms)
  {
    var f := w.executing[k];
    var c := Finish(calendar, w.core, f, outcome, now, first, second);
    var p, v := PartOf(w, id), AfterFinish(w, k, now, c);
    PlaceOf(w, k, id);
    SoundExecuting(w, k);
    FlyingPlanned(p, w.clock, k, plan, terms);
    FinishedPart(w, k, now, c, id);
    hide Sound, SliceOf, Finish, Planned, Timed, Ended, OfTimer, FlightsOf, AfterFinish, FireTime, StartedRuns, Follows, Panics,
         RetryOf, Covered;
    RetryKept(w.core, p, w.clock, k, outcome, now, plan, terms);
    FinishEnded(calendar, w.core, f, outcome, now, first, second);
    FinishedPlanned(p, PartOf(v, id), w.clock, now, k, plan, terms, RetryOf(w.core.mem, f, outcome, now));
    if terms.OnePolicy? {
      FinishedTimed(p, PartOf(v, id), w.clock, now, k, FireTime(plan), terms.retry, RetryOf(w.core.mem, f, outcome, now));
    }
  }

  lemma RegisterStep(calendar: Calendar, w: World, q: Request, now: Time, later: Time, accepted: bool, plan: Schedule,
                     terms: Terms)
    requires Sound(w) && w.clock <= now <= later
    requires IsOneShot(plan) && Kept(PartOf(w, q.id), w.clock, plan, terms)
    requires Follows(SpecOf(w.core.mem, q, now), plan, terms)
    ensures var r := ScheduleTimer(calendar, w.core, q, now, later, accepted);
      Kept(PartOf(w.(core := if r.Accepted? then r.core else w.core, clock := later), q.id), later, plan, terms)
  {
    SoundNumbered(w);
    var spec := SpecOf(w.core.mem, q, now);
    FollowsMeans(spec, plan, terms);
    var r := ScheduleTimer(calendar, w.core, q, now, later, accepted);
    var v := w.(core := if r.Accepted? then r.core else w.core, clock := later);
    var p, t := PartOf(w, q.id), PartOf(v, q.id);
    assert q.schedule == plan;
    hide Sound, SliceOf, ScheduleTimer, Planned, Timed, Reregistered, FireTime, StartedRuns, Follows, SpecOf;
    if r.Accepted? {
      var kept, next := ScheduleReregisters(calendar, w.core, q, now, later, accepted);
      var k := Registered(Record(w.core, q, now), q).pushed;
      ReregisteredPlanned(p, t, w.clock, later, spec, plan, terms, kept, next, k);
      if terms.OnePolicy? {
        ReregisteredTimed(p, t, w.clock, later, spec, plan, terms, kept, next, k, terms.retry);
      }
    } else {
      LaterPlanned(p, w.clock, later, plan, terms);
      if terms.OnePolicy? {
        LaterTimed(p, w.clock, later, FireTime(plan), terms.retry);
      }
    }
  }

  lemma RestartStep(w: World, id: TimerId, plan: Schedule, terms: Terms)
    requires Sound(w) && IsOneShot(plan) && Kept(PartOf(w, id), w.clock, plan, terms)
    ensures Kept(PartOf(World(OpenedCore(w.core), map[], map[], map[], w.clock, w.used), id), w.clock, plan, terms)
  {
    var p, q := PartOf(w, id), PartOf(World(OpenedCore(w.core), map[], map[], map[], w.clock, w.used), id);
    assert OnDisk(w.core).specs == w.core.mem.specs && OnDisk(w.core).pendingRetries == w.core.mem.pendingRetries by {
      assert Agrees(w.core);
      assert DurableOf(w.core.mem) == DurableOf(OnDisk(w.core));
    }
    assert q.core.waiting == map[] && q.core.spec == p.core.spec && q.core.pending == p.core.pending
           && q.core.events == p.core.events && q.popped == map[] && q.spawned == map[] && q.flying == map[] by {
      hide Sound, StartedRuns, Kept, OnDisk, Concerning;
    }
    hide PartOf, Sound, OnDisk;
    EmptiedKept(p, q, w.clock, plan, terms);
  }

  lemma EmptiedKept(p: Part, q: Part, clock: Time, plan: Schedule, terms: Terms)
    requires IsOneShot(plan) && Kept(p, clock, plan, terms)
    requires q.core.waiting == map[] && q.core.spec == p.core.spec && q.core.pending == p.core.pending
    requires q.core.events == p.core.events && q.popped == map[] && q.spawned == map[] && q.flying == map[]
    ensures Kept(q, clock, plan, terms)
  {
    hide StartedRuns, Follows, FireTime, Covered;
  }

  lemma PopStep(w: World, now: Time, id: TimerId, plan: Schedule, terms: Terms)
    requires w.popped == map[] && w.clock <= now && IsOneShot(plan) && Kept(PartOf(w, id), w.clock, plan, terms)
    ensures Kept(PartOf(AfterPop(w, now), id), now, plan, terms)
  {
    var p, q := PartOf(w, id), PartOf(AfterPop(w, now), id);
    PopMoves(w, now, id);
    assert forall k :: k in q.popped ==> k in p.core.waiting && EntryAt(p, k, q.popped[k]) && q.popped[k].at <= now;
    assert forall k :: k in q.core.waiting ==> k in p.core.waiting && q.core.waiting[k] == p.core.waiting[k];
    assert q.spawned == p.spawned && q.core.next == p.core.next;
    hide PartOf, AfterPop, Moved;
    PoppedKept(p, q, w.clock, now, plan, terms);
  }

  lemma PoppedKept(p: Part, q: Part, clock: Time, now: Time, plan: Schedule, terms: Terms)
    requires IsOneShot(plan) && Kept(p, clock, plan, terms) && Moved(p, q) && clock <= now
    requires forall k :: k in q.popped ==> EntryAt(p, k, q.popped[k]) && q.popped[k].at <= now
    requires forall k :: k in q.core.waiting ==> k in p.core.waiting && q.core.waiting[k] == p.core.waiting[k]
    requires q.spawned == p.spawned && q.core.next == p.core.next
    ensures Kept(q, now, plan, terms)
  {
    forall k | k in q.popped ensures FireTime(plan) <= now {
      assert EntryPlanned(q.popped[k], plan, terms, StartedRuns(p.core.events));
      hide StartedRuns, FireTime, Follows;
    }
    assert forall k :: k in q.spawned ==> FireTime(plan) <= clock by { hide FireTime, StartedRuns, Follows; }
    assert terms.OnePolicy? ==> forall k :: k in q.spawned ==> q.spawned[k].at <= clock;
    hide Planned, Timed, Moved, FireTime;
    MovedPlanned(p, q, clock, now, plan, terms);
    if terms.OnePolicy? {
      MovedTimed(p, q, clock, now, FireTime(plan), terms.retry);
    }
  }

  lemma CarriedKept(p: Part, q: Part, clock: Time, plan: Schedule, terms: Terms)
    requires IsOneShot(plan) && Kept(p, clock, plan, terms) && Moved(p, q) && q.core == p.core
    requires forall k :: k in q.popped ==> k in p.popped && q.popped[k] == p.popped[k]
    requires forall k :: k in q.spawned ==> (k in p.popped && q.spawned[k] == p.popped[k])
                                            || (k in p.spawned && q.spawned[k] == p.spawned[k])
    ensures Kept(q, clock, plan, terms)
  {
    assert forall k :: k in q.popped || k in q.spawned ==> FireTime(plan) <= clock by { hide FireTime, StartedRuns, Follows; }
    assert terms.OnePolicy? ==> forall k :: k in q.spawned ==> q.spawned[k].at <= clock;
    assert terms.OnePolicy? ==> forall k :: k in q.popped ==> q.popped[k].at <= clock;
    hide Planned, Timed, Moved, FireTime;
    MovedPlanned(p, q, clock, clock, plan, terms);
    if terms.OnePolicy? {
      MovedTimed(p, q, clock, clock, FireTime(plan), terms.retry);
    }
  }

  lemma SpawnStep(w: World, k: nat, id: TimerId, plan: Schedule, terms: Terms)
    requires k in w.popped && IsOneShot(plan) && Kept(PartOf(w, id), w.clock, plan, terms)
    ensures Kept(PartOf(AfterSpawn(w, k), id), w.clock, plan, terms)
  {
    var p, q := PartOf(w, id), PartOf(AfterSpawn(w, k), id);
    SpawnMoves(w, k, id);
    assert q.core == p.core;
    hide Kept, Moved, SliceOf;
    CarriedKept(p, q, w.clock, plan, terms);
  }

  lemma LeaveStep(w: World, id: TimerId, plan: Schedule, terms: Terms)
    requires IsOneShot(plan) && Kept(PartOf(w, id), w.clock, plan, terms)
    ensures Kept(PartOf(w.(popped := map[]), id), w.clock, plan, terms)
  {
    var p, q := PartOf(w, id), PartOf(w.(popped := map[]), id);
    LeaveMoves(w, id);
    assert q.core == p.core && q.popped == map[] && q.spawned == p.spawned;
    hide PartOf, Kept, Moved;
    CarriedKept(p, q, w.clock, plan, terms);
  }

  /** Every registration of the timer resolves to a specification under the terms. */
  ghost predicate StepFollows(w: World, s: Step, id: TimerId, plan: Schedule, terms: Terms) {
    s.Register? && s.q.id == id ==> Follows(SpecOf(w.core.mem, s.q, s.now), plan, terms)
  }

  ghost predicate RunFollows(calendar: Calendar, w: World, steps: seq<Step>, id: TimerId, plan: Schedule, terms: Terms)
    requires Possible(calendar, w, steps)
    decreases |steps|
  {
    steps == [] || (StepFollows(w, steps[0], id, plan, terms)
                    && RunFollows(calendar, Take(calendar, w, steps[0]), steps[1..], id, plan, terms))
  }

  lemma ClockGrows(calendar: Calendar, w: World, s: Step)
    requires Enabled(w, s)
    ensures w.clock <= Take(calendar, w, s).clock
  {
    hide Begin, Finish, ScheduleTimer, Panics;
  }

  lemma LaterKept(p: Part, clock: Time, later: Time, plan: Schedule, terms: Terms)
    requires IsOneShot(plan) && Kept(p, clock, plan, terms) && clock <= later
    ensures Kept(p, later, plan, terms)
  {
    hide Planned, Timed;
    LaterPlanned(p, clock, later, plan, terms);
    if terms.OnePolicy? {
      LaterTimed(p, clock, later, FireTime(plan), terms.retry);
    }
  }

  lemma StepKept(calendar: Calendar, w: World, s: Step, id: TimerId, plan: Schedule, terms: Terms)
    requires Sound(w) && Enabled(w, s) && StepFollows(w, s, id, plan, terms) && Safe(terms)
    requires IsOneShot(plan) && Kept(PartOf(w, id), w.clock, plan, terms)
    ensures var v := Take(calendar, w, s);
      Kept(PartOf(v, id), v.clock, plan, terms)
  {
    var v := Take(calendar, w, s);
    ClockGrows(calendar, w, s);
    hide Sound, PartOf, AfterPop, AfterSpawn, AfterBegin, AfterFinish, Begin, Finish, ScheduleTimer, OpenedCore, Kept, Panics,
         Follows;
    if !Touches(w, s, id) {
      StepElsewhere(calendar, w, s, id);
      LaterKept(PartOf(w, id), w.clock, v.clock, plan, terms);
    } else {
      ClockOf(w);
      match s
      case Register(q, now, later, accepted) => RegisterStep(calendar, w, q, now, later, accepted, plan, terms);
      case Pop(now) => PopStep(w, now, id, plan, terms);
      case Spawn(k) => SpawnStep(w, k, id, plan, terms);
      case LeaveLoop => LeaveStep(w, id, plan, terms);
      case BeginRun(k, newId, now, due, start) => BeginStep(calendar, w, k, newId, now, due, start, id, plan, terms);
      case FinishRunning(k, outcome, now, first, second) =>
        FinishStep(calendar, w, k, outcome, now, first, second, id, plan, terms);
      case Restart => RestartStep(w, id, plan, terms);
    }
  }

  lemma ClockOf(w: World)
    ensures forall now :: AfterPop(w, now).clock == now
    ensures forall k :: k in w.popped ==> AfterSpawn(w, k).clock == w.clock
    ensures forall k, newId, now, b :: AfterBegin(w, k, newId, now, b).clock == now
    ensures forall k, now, c :: AfterFinish(w, k, now, c).clock == now
  {
  }

  lemma {:induction false} RunKept(calendar: Calendar, w: World, steps: seq<Step>, id: TimerId, plan: Schedule, terms: Terms)
    requires Sound(w) && Possible(calendar, w, steps) && RunFollows(calendar, w, steps, id, plan, terms) && Safe(terms)
    requires IsOneShot(plan) && Kept(PartOf(w, id), w.clock, plan, terms)
    ensures var v := Reach(calendar, w, steps);
      Kept(PartOf(v, id), v.clock, plan, terms)
    decreases |steps|
  {
    hide Sound, Take, Enabled, PartOf, Kept, StepFollows;
    if steps != [] {
      StepSound(calendar, w, steps[0]);
      StepKept(calendar, w, steps[0], id, plan, terms);
      RunKept(calendar, Take(calendar, w, steps[0]), steps[1..], id, plan, terms);
    }
  }

  lemma {:induction false} StartedInLog(log: seq<Event>, id: TimerId, i: nat)
    requires i < |log| && log[i].RunStarted? && log[i].timer == id
    ensures log[i].run in StartedRuns(Concerning(log, id))
  {
    var before, e := log[..|log| - 1], log[|log| - 1];
    assert log == before + [e];
    ConcerningAppend(before, e, id);
    StartedAppend(Concerning(before, id), e);
    if i < |before| {
      StartedInLog(before, id, i);
    }
  }

  /** An engine opened on an empty data directory at some clock reading. */
  function NewWorldAt(clock: Time): World {
    NEW_WORLD.(clock := clock)
  }

  lemma NothingKept(clock: Time, id: TimerId, plan: Schedule, terms: Terms)
    requires IsOneShot(plan)
    ensures Kept(PartOf(NewWorldAt(clock), id), clock, plan, terms) && Sound(NewWorldAt(clock))
  {
    EngineDurable.NewWorldSound();
    SameTasks(NEW_WORLD, NewWorldAt(clock));
    EmptyKept(PartOf(NewWorldAt(clock), id), clock, plan, terms) by {
      hide Sound;
    }
    hide PartOf, Kept, TasksOk, Agrees;
  }

  lemma EmptyKept(p: Part, clock: Time, plan: Schedule, terms: Terms)
    requires IsOneShot(plan) && p == Part(Slice(None, None, None, None, map[], []), map[], map[], map[])
    ensures Kept(p, clock, plan, terms)
  {
    hide Follows, FireTime;
  }

  /** No two started runs of the timer differ. */
  ghost predicate OneStart(log: seq<Event>, id: TimerId) {
    forall i, j ::
      (0 <= i < |log| && 0 <= j < |log| && log[i].RunStarted? && log[j].RunStarted?
       && log[i].timer == id && log[j].timer == id) ==> log[i].run == log[j].run
  }

  /**
   From an empty data directory, over any sessions with a clock that never goes back: a timer always
   registered with the same one-shot schedule starts at most one run id, whatever its registrations,
   retries, crashes and rejected appends, if its runs are always delayed, or no retry policy of it waits
   backwards, or it has one retry policy and this does not fire early.
   */
  lemma OneShotStartsOnce(calendar: Calendar, clock: Time, steps: seq<Step>, id: TimerId, plan: Schedule, terms: Terms)
    requires IsOneShot(plan) && Safe(terms) && Possible(calendar, NewWorldAt(clock), steps)
    requires RunFollows(calendar, NewWorldAt(clock), steps, id, plan, terms)
    ensures OneStart(Reach(calendar, NewWorldAt(clock), steps).core.log, id)
  {
    NothingKept(clock, id, plan, terms);
    RunKept(calendar, NewWorldAt(clock), steps, id, plan, terms);
    var v := Reach(calendar, NewWorldAt(clock), steps);
    var log := v.core.log;
    forall i, j | 0 <= i < |log| && 0 <= j < |log| && log[i].RunStarted? && log[j].RunStarted?
                  && log[i].timer == id && log[j].timer == id
      ensures log[i].run == log[j].run
    {
      StartedInLog(log, id, i);
      StartedInLog(log, id, j);
    }
    hide Reach, Possible, StartedRuns, Concerning, RunFollows, Follows;
  }
}
