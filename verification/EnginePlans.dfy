/** What the blocks of the engine do to a one-shot timer. */
module EnginePlans {
  import opened Prelude
  import opened Retry
  import opened Schedules
  import opened Timers
  import opened Events
  import opened Heap
  import opened Engine
  import opened EngineRuns
  import opened EngineFrame
  import opened EngineParts

  /** The ids of the runs that were started. */
  function StartedRuns(es: seq<Event>): set<RunId> {
    if es == [] then {}
    else
      var e := es[|es| - 1];
      StartedRuns(es[..|es| - 1]) + (if e.RunStarted? then {e.run} else {})
  }

  lemma StartedAppend(es: seq<Event>, e: Event)
    ensures StartedRuns(es + [e]) == StartedRuns(es) + (if e.RunStarted? then {e.run} else {})
  {
    assert (es + [e])[..|es|] == es;
  }

  /** What the registrations of a one-shot timer have in common, besides the schedule. */
  datatype Terms =
    | AlwaysDelay
    | NeverBackwards
    | OnePolicy(retry: RetryPolicy)
    | Agreed(retry: RetryPolicy, overlap: OverlapPolicy, zone: string)

  predicate Follows(spec: TimerSpec, plan: Schedule, terms: Terms) {
    && spec.schedule == plan
    && match terms
       case AlwaysDelay => spec.overlap.Delay?
       case NeverBackwards => forall a: Attempt :: !WaitsBackwards(spec.retry, a)
       case OnePolicy(retry) => spec.retry == retry
       case Agreed(retry, overlap, zone) => spec.retry == retry && spec.overlap == overlap && spec.timezone == zone
  }

  /** Terms under which a one-shot timer starts at most one run. */
  predicate Safe(terms: Terms) {
    terms.AlwaysDelay? || terms.NeverBackwards? || (terms.OnePolicy? && !FiresEarly(terms.retry))
  }

  /** The only fresh entry, at the fire time, or a retry of the started run, never before it unless runs are delayed. */
  predicate EntryPlanned(e: ScheduledTimer, plan: Schedule, terms: Terms, started: set<RunId>)
    requires IsOneShot(plan)
  {
    if e.run.None? then e.at == FireTime(plan) && started == {}
    else e.run.value in started && (terms.AlwaysDelay? || FireTime(plan) <= e.at)
  }

  ghost predicate FreshAt(p: Part, k: nat) {
    exists e :: EntryAt(p, k, e) && e.run.None?
  }

  ghost predicate Planned(p: Part, clock: Time, plan: Schedule, terms: Terms)
    requires IsOneShot(plan)
  {
    var started := StartedRuns(p.core.events);
    && (p.core.spec.Some? ==> Follows(p.core.spec.value, plan, terms))
    && (forall r, q :: r in started && q in started ==> r == q)
    && (started != {} ==> FireTime(plan) <= clock)
    && (forall k, e :: EntryAt(p, k, e) ==> EntryPlanned(e, plan, terms, started))
    && (forall j, k :: FreshAt(p, j) && FreshAt(p, k) ==> j == k)
    && (forall k :: k in p.core.waiting && p.core.waiting[k].run.None? ==> p.core.next.Some?)
    && (forall k :: k in p.popped || k in p.spawned ==> FireTime(plan) <= clock)
    && (forall k :: k in p.flying ==> Follows(p.flying[k].spec, plan, terms) && p.flying[k].run in started)
  }

  // ----- When a one-shot timer is rescheduled -----

  lemma NoReschedule(calendar: Calendar, c: Core, spec: TimerSpec, from: Time)
    requires IsOneShot(spec.schedule) && FireTime(spec.schedule) <= from
    ensures RescheduleFrom(calendar, c, spec, from) == if Halting(c) then c else ClearNext(c, spec.id)
  {
    OneShotNext(calendar, spec.schedule, from, spec.timezone);
  }

  lemma RescheduleExact(calendar: Calendar, c: Core, spec: TimerSpec, from: Time)
    requires IsOneShot(spec.schedule)
    ensures var d := RescheduleFrom(calendar, c, spec, from);
      d.bag == if !Halting(c) && calendar.isZone(spec.timezone) && from < FireTime(spec.schedule)
               then c.bag[c.pushed := ScheduledTimer(spec.id, FireTime(spec.schedule), None, 1)] else c.bag
  {
    OneShotNext(calendar, spec.schedule, from, spec.timezone);
    hide NextRunAfter;
  }

  /**
   The start block of a one-shot timer makes a fresh run due exactly if the entry is due before the fire
   time, the policy is not delay, the zone exists, the engine is running and the log accepts the events.
   */
  lemma FreshRunExact(calendar: Calendar, c: Core, entry: ScheduledTimer, newId: RunId, now: Time, due: bool, start: bool)
    requires Numbered(c) && entry.timer in c.mem.specs && c.mem.specs[entry.timer].id == entry.timer
    requires IsOneShot(c.mem.specs[entry.timer].schedule)
    ensures var spec, d := c.mem.specs[entry.timer], Begin(calendar, c, entry, newId, now, due, start).core;
      && (c.pushed in d.bag <==>
            && entry.at < FireTime(spec.schedule) && !spec.overlap.Delay? && calendar.isZone(spec.timezone) && !Halting(c)
            && due && (start || Overlaps(c.mem, entry.timer)))
      && (c.pushed in d.bag ==> d.bag[c.pushed] == ScheduledTimer(spec.id, FireTime(spec.schedule), None, 1))
  {
    var id, run, spec := entry.timer, OrElse(entry.run, newId), c.mem.specs[entry.timer];
    var cleared := ClearNext(c, id);
    RescheduleExact(calendar, Append(cleared, RunSkippedOverlap(id, run, entry.at, now), due), spec, entry.at);
    var d := Append(cleared, RunDue(id, run, entry.at), due);
    RescheduleExact(calendar, Append(d, RunStarted(id, run, now, entry.attempt), start), spec, entry.at);
    hide RescheduleFrom, Apply, FireTime;
  }

  /** Retries that do not wait backwards come after the failure. */
  lemma RetryIsLater(retry: RetryPolicy, now: Time, attempt: Attempt)
    requires !WaitsBackwards(retry, attempt) && NextRetryAt(retry, now, attempt).RetryAt?
    ensures now <= NextRetryAt(retry, now, attempt).at
  {
  }

  /** The events a block added, and the run it started, if any; a retry on record stays or is removed. */
  ghost predicate Logged(s: Slice, t: Slice, run: Option<RunId>) {
    && t.spec == s.spec && t.waiting == s.waiting && (t.pending == s.pending || t.pending.None?)
    && StartedRuns(t.events) == StartedRuns(s.events) + if run.Some? then {run.value} else {}
  }

  lemma LoggedAppend(c: Core, e: Event, accepted: bool, id: TimerId)
    requires Subject(e) == id && !e.TimerCreated? && !e.TimerUpdated? && !e.RunStarted? && !e.RunRetrying?
    ensures Logged(SliceOf(c, id), SliceOf(Append(c, e, accepted), id), None)
  {
    if accepted {
      AppendOwn(c, e, id);
      StartedAppend(SliceOf(c, id).events, e);
    } else {
      AppendRejected(c, e, id);
    }
    hide SliceOf, Append, StartedRuns;
  }

  lemma LoggedStart(c: Core, id: TimerId, run: RunId, now: Time, attempt: Attempt)
    ensures Logged(SliceOf(c, id), SliceOf(Append(c, RunStarted(id, run, now, attempt), true), id), Some(run))
  {
    AppendOwn(c, RunStarted(id, run, now, attempt), id);
    StartedAppend(SliceOf(c, id).events, RunStarted(id, run, now, attempt));
    hide SliceOf, Append, StartedRuns;
  }

  lemma LoggedSame(s: Slice, t: Slice, u: Slice, run: Option<RunId>)
    requires Logged(s, t, run) && Same(u, t)
    ensures Logged(s, u, run)
  {
    hide StartedRuns;
  }

  lemma LoggedTwice(s: Slice, t: Slice, u: Slice, run: Option<RunId>)
    requires Logged(s, t, None) && Logged(t, u, run)
    ensures Logged(s, u, run)
  {
    hide StartedRuns;
  }

  // ----- The start block -----

  lemma RescheduleNothing(calendar: Calendar, c: Core, spec: TimerSpec, from: Time)
    requires IsOneShot(spec.schedule) && FireTime(spec.schedule) <= from
    ensures Same(SliceOf(RescheduleFrom(calendar, c, spec, from), spec.id), SliceOf(c, spec.id))
  {
    NoReschedule(calendar, c, spec, from);
    NextRunsOnly(c, ClearNext(c, spec.id), spec.id);
    hide RescheduleFrom, SliceOf;
  }

  lemma SkipPlanned(calendar: Calendar, c: Core, spec: TimerSpec, entry: ScheduledTimer, run: RunId, now: Time, accepted: bool)
    requires IsOneShot(spec.schedule) && FireTime(spec.schedule) <= entry.at && spec.id == entry.timer
    ensures Logged(SliceOf(c, spec.id), SliceOf(SkipRun(calendar, c, spec, entry, run, now, accepted), spec.id), None)
  {
    var e := RunSkippedOverlap(entry.timer, run, entry.at, now);
    var d := Append(c, e, accepted);
    LoggedAppend(c, e, accepted, spec.id);
    RescheduleNothing(calendar, d, spec, entry.at);
    hide RescheduleFrom, SliceOf, Append, FireTime, Logged;
    LoggedSame(SliceOf(c, spec.id), SliceOf(d, spec.id), SliceOf(RescheduleFrom(calendar, d, spec, entry.at), spec.id), None);
  }

  lemma StartPlanned(calendar: Calendar, c: Core, spec: TimerSpec, entry: ScheduledTimer, run: RunId, now: Time,
                     due: bool, start: bool)
    requires IsOneShot(spec.schedule) && (spec.overlap.Delay? || FireTime(spec.schedule) <= entry.at) && spec.id == entry.timer
    ensures var b := StartRun(calendar, c, spec, entry, run, now, due, start);
      && (b.flight.Some? ==> b.flight.value.spec == spec && b.flight.value.run == run)
      && Logged(SliceOf(c, spec.id), SliceOf(b.core, spec.id), if b.flight.Some? then Some(run) else None)
  {
    var id := spec.id;
    var e := RunDue(id, run, entry.at);
    var d := Append(c, e, due);
    var g := Append(d, RunStarted(id, run, now, entry.attempt), start);
    var h := RescheduleFrom(calendar, g, spec, entry.at);
    LoggedAppend(c, e, due, id);
    if start {
      LoggedStart(d, id, run, now, entry.attempt);
    } else {
      AppendRejected(d, RunStarted(id, run, now, entry.attempt), id);
    }
    if !spec.overlap.Delay? {
      RescheduleNothing(calendar, g, spec, entry.at);
    }
    CountOnly(d, id);
    CountOnly(g, id);
    hide RescheduleFrom, SliceOf, Append, FireTime, Logged, FinishRun, Same;
    if start {
      LoggedTwice(SliceOf(c, id), SliceOf(d, id), SliceOf(g, id), Some(run));
      if !spec.overlap.Delay? {
        LoggedSame(SliceOf(c, id), SliceOf(g, id), SliceOf(h, id), Some(run));
      }
    }
  }

  lemma BeginPlanned(calendar: Calendar, c: Core, entry: ScheduledTimer, newId: RunId, now: Time, due: bool, start: bool)
    requires entry.timer in c.mem.specs && c.mem.specs[entry.timer].id == entry.timer
    requires var spec := c.mem.specs[entry.timer];
      IsOneShot(spec.schedule) && (spec.overlap.Delay? || FireTime(spec.schedule) <= entry.at)
    ensures var b := Begin(calendar, c, entry, newId, now, due, start);
      var run := OrElse(entry.run, newId);
      && (b.flight.Some? ==> b.flight.value.spec == c.mem.specs[entry.timer] && b.flight.value.run == run)
      && Logged(SliceOf(c, entry.timer), SliceOf(b.core, entry.timer), if b.flight.Some? then Some(run) else None)
  {
    var id, run := entry.timer, OrElse(entry.run, newId);
    var spec, cleared := c.mem.specs[id], ClearNext(c, id);
    var k := SkipRun(calendar, cleared, spec, entry, run, now, due);
    NextRunsOnly(c, cleared, id);
    if !spec.overlap.Delay? {
      SkipPlanned(calendar, cleared, spec, entry, run, now, due);
    }
    CountOnly(k, id);
    StartPlanned(calendar, cleared, spec, entry, run, now, due, start);
    hide SliceOf, SkipRun, StartRun, ClearNext, FinishRun, FireTime, StartedRuns;
  }

  // ----- The finish block -----

  /** The retry that the failure of a run asks for. */
  function RetryOf(m: Memory, f: Flight, outcome: Result<(), string>, now: Time): Option<PendingRetry> {
    var attempt := CurrentAttempt(m, f.spec.id);
    var next := NextRetryAt(f.spec.retry, now, attempt);
    if outcome.Err? && next.RetryAt? then Some(PendingRetry(f.run, next.at, attempt + 1)) else None
  }

  /** No run started; the only entry that may appear is the retry, which is then on record. */
  ghost predicate Ended(s: Slice, t: Slice, retry: Option<PendingRetry>) {
    && t.spec == s.spec && StartedRuns(t.events) == StartedRuns(s.events)
    && (t.pending == s.pending || t.pending.None? || t.pending == retry)
    && forall k :: k in t.waiting ==>
         (k in s.waiting && t.waiting[k] == s.waiting[k])
         || (retry.Some? && t.pending == retry && t.waiting[k].run == Some(retry.value.run) && t.waiting[k].at == retry.value.at
             && forall j :: j in t.waiting && j !in s.waiting ==> j == k)
  }

  lemma LoggedEnded(s: Slice, t: Slice, u: Slice, retry: Option<PendingRetry>)
    requires Logged(s, t, None) && Ended(t, u, retry)
    ensures Ended(s, u, retry)
  {
    hide StartedRuns;
  }

  lemma SameEnded(s: Slice, t: Slice, u: Slice, retry: Option<PendingRetry>)
    requires Ended(s, t, retry) && Same(u, t)
    ensures Ended(s, u, retry)
  {
    hide StartedRuns;
  }

  lemma LoggedIsEnded(s: Slice, t: Slice, retry: Option<PendingRetry>)
    requires Logged(s, t, None)
    ensures Ended(s, t, retry)
  {
    hide StartedRuns;
  }

  lemma OkEnded(calendar: Calendar, c: Core, f: Flight, now: Time, accepted: bool)
    requires IsOneShot(f.spec.schedule) && FireTime(f.spec.schedule) <= now
    ensures Ended(SliceOf(c, f.spec.id), SliceOf(FinishOk(calendar, c, f, now, accepted), f.spec.id), None)
  {
    var id, e := f.spec.id, RunSucceeded(f.spec.id, f.run, now, Elapsed(f.startedAt, now));
    var d := Append(c, e, accepted);
    LoggedAppend(c, e, accepted, id);
    RescheduleNothing(calendar, d, f.spec, now);
    hide SliceOf, Append, RescheduleFrom, FireTime, Logged, Ended, Same;
    LoggedIsEnded(SliceOf(c, id), SliceOf(d, id), None);
    SameEnded(SliceOf(c, id), SliceOf(d, id), SliceOf(RescheduleFrom(calendar, d, f.spec, now), id), None);
  }

  lemma GiveUpEnded(calendar: Calendar, c: Core, f: Flight, now: Time, accepted: bool)
    requires IsOneShot(f.spec.schedule)
    ensures Ended(SliceOf(c, f.spec.id), SliceOf(GiveUp(calendar, c, f, now, accepted), f.spec.id), None)
  {
    var id, e := f.spec.id, RunDead(f.spec.id, f.run, now);
    LoggedAppend(c, e, accepted, id);
    hide SliceOf, Append, Logged, Ended;
    LoggedIsEnded(SliceOf(c, id), SliceOf(Append(c, e, accepted), id), None);
  }

  /** Unscheduling leaves the timer's entries or removes them all. */
  lemma UnscheduleOwn(c: Core, spec: TimerSpec)
    ensures var s, u := SliceOf(c, spec.id), SliceOf(UnscheduleUnlessDelay(c, spec), spec.id);
      Same(u, s) || Same(u, s.(waiting := map[]))
    ensures Numbered(c) ==> Numbered(UnscheduleUnlessDelay(c, spec))
  {
    hide Concerning;
    assert OfTimer(WithoutTimer(c.bag, spec.id), spec.id) == map[];
  }

  lemma RecordEnds(s: Slice, u: Slice, d: Slice, t: Slice, e: Event, retry: PendingRetry, entry: ScheduledTimer, k: nat)
    requires (Same(u, s) || Same(u, s.(waiting := map[]))) && e.RunRetrying?
    requires Same(d, u.(pending := Some(retry), events := u.events + [e]))
    requires Same(t, d) || Same(t, d.(waiting := d.waiting[k := entry]))
    requires entry.run == Some(retry.run) && entry.at == retry.at
    ensures Ended(s, t, Some(retry))
  {
    StartedAppend(u.events, e);
    hide StartedRuns;
  }

  lemma RetryEnded(c: Core, f: Flight, attempt: Attempt, at: Time, accepted: bool)
    requires Numbered(c) && attempt < U32_MAX
    ensures Ended(SliceOf(c, f.spec.id), SliceOf(RetryLater(c, f, attempt, at, accepted), f.spec.id),
                  Some(PendingRetry(f.run, at, attempt + 1)))
  {
    var id, e := f.spec.id, RunRetrying(f.spec.id, f.run, attempt + 1, at);
    var u := UnscheduleUnlessDelay(c, f.spec);
    var d := Append(u, e, accepted);
    var entry := ScheduledTimer(id, at, Some(f.run), attempt + 1);
    UnscheduleOwn(c, f.spec);
    if accepted {
      AppendOwn(u, e, id);
      assert Numbered(d);
      PushOwn(d, entry);
      hide SliceOf, Append, Push, UnscheduleUnlessDelay, Ended;
      RecordEnds(SliceOf(c, id), SliceOf(u, id), SliceOf(d, id), SliceOf(RetryLater(c, f, attempt, at, accepted), id), e,
                 PendingRetry(f.run, at, attempt + 1), entry, d.pushed);
    } else {
      AppendRejected(u, e, id);
      hide SliceOf, Append, UnscheduleUnlessDelay, StartedRuns;
    }
  }

  /** After the failure is logged, a run is retried or given up. */
  lemma AfterFailure(calendar: Calendar, c: Core, d: Core, f: Flight, attempt: Attempt, next: NextAttempt, now: Time,
                     accepted: bool)
    requires IsOneShot(f.spec.schedule) && Numbered(d) && (next.RetryAt? ==> attempt < U32_MAX)
    requires Logged(SliceOf(c, f.spec.id), SliceOf(d, f.spec.id), None)
    ensures next.RetryAt? ==>
      Ended(SliceOf(c, f.spec.id), SliceOf(RetryLater(d, f, attempt, next.at, accepted), f.spec.id),
            Some(PendingRetry(f.run, next.at, attempt + 1)))
    ensures Ended(SliceOf(c, f.spec.id), SliceOf(GiveUp(calendar, d, f, now, accepted), f.spec.id), None)
  {
    var id := f.spec.id;
    hide SliceOf, Logged, Ended, RetryLater, GiveUp;
    if next.RetryAt? {
      RetryEnded(d, f, attempt, next.at, accepted);
      LoggedEnded(SliceOf(c, id), SliceOf(d, id), SliceOf(RetryLater(d, f, attempt, next.at, accepted), id),
                  Some(PendingRetry(f.run, next.at, attempt + 1)));
    }
    GiveUpEnded(calendar, d, f, now, accepted);
    LoggedEnded(SliceOf(c, id), SliceOf(d, id), SliceOf(GiveUp(calendar, d, f, now, accepted), id), None);
  }

  lemma AppendNumbered(c: Core, e: Event, accepted: bool)
    requires Numbered(c)
    ensures Numbered(Append(c, e, accepted))
  {
    hide Apply;
  }

  lemma BelowLimit(retry: RetryPolicy, now: Time, attempt: Attempt)
    ensures NextRetryAt(retry, now, attempt).RetryAt? ==> attempt < U32_MAX
  {
    hide Wait;
  }

  lemma ErrEnded(calendar: Calendar, c: Core, f: Flight, error: string, now: Time, fail: bool, next: bool)
    requires IsOneShot(f.spec.schedule) && Numbered(c) && f.callable && !Panics(c, f, Err(error), now)
    ensures Ended(SliceOf(c, f.spec.id), SliceOf(FinishErr(calendar, c, f, error, now, fail, next), f.spec.id),
                  RetryOf(c.mem, f, Err(error), now))
  {
    var id, attempt := f.spec.id, CurrentAttempt(c.mem, f.spec.id);
    var e := RunFailed(id, f.run, now, error, attempt);
    var d := Append(c, e, fail);
    var r := NextRetryAt(f.spec.retry, now, attempt);
    hide SliceOf, Append, Logged, Ended, RetryLater, GiveUp, NextRetryAt, CurrentAttempt, Numbered;
    LoggedAppend(c, e, fail, id);
    AppendNumbered(c, e, fail);
    BelowLimit(f.spec.retry, now, attempt);
    LoggedIsEnded(SliceOf(c, id), SliceOf(d, id), RetryOf(c.mem, f, Err(error), now));
    AfterFailure(calendar, c, d, f, attempt, r, now, next);
  }

  lemma FinishEnded(calendar: Calendar, c: Core, f: Flight, outcome: Result<(), string>, now: Time, first: bool, second: bool)
    requires IsOneShot(f.spec.schedule) && FireTime(f.spec.schedule) <= now && Numbered(c) && f.callable
    requires !Panics(c, f, outcome, now)
    ensures Ended(SliceOf(c, f.spec.id), SliceOf(Finish(calendar, c, f, outcome, now, first, second), f.spec.id),
                  RetryOf(c.mem, f, outcome, now))
  {
    if outcome.Ok? {
      OkEnded(calendar, c, f, now, first);
      CountOnly(FinishOk(calendar, c, f, now, first), f.spec.id);
    } else {
      ErrEnded(calendar, c, f, outcome.error, now, first, second);
      CountOnly(FinishErr(calendar, c, f, outcome.error, now, first, second), f.spec.id);
    }
    hide SliceOf, FinishOk, FinishErr, FinishRun, Ended, NextRetryAt;
  }

  // ----- Registration -----

  /** Recording keeps the timer's entries and next run, or clears both. */
  lemma RecordPlanned(c: Core, q: Request, now: Time)
    ensures var s, t := SliceOf(c, q.id), SliceOf(Registered(Record(c, q, now), q), q.id);
      && t.spec == Some(SpecOf(c.mem, q, now)) && StartedRuns(t.events) == StartedRuns(s.events) && t.pending == s.pending
      && ((t.waiting == s.waiting && t.next == s.next) || (t.waiting == map[] && t.next.None?))
    ensures Numbered(c) ==> Numbered(Registered(Record(c, q, now), q))
  {
    var spec, s := SpecOf(c.mem, q, now), SliceOf(c, q.id);
    ConcerningAppend(c.log, TimerCreated(spec), q.id);
    ConcerningAppend(c.log, TimerUpdated(spec), q.id);
    StartedAppend(s.events, TimerCreated(spec));
    StartedAppend(s.events, TimerUpdated(spec));
    hide Concerning, StartedRuns;
    assert OfTimer(WithoutTimer(c.bag, q.id), q.id) == map[];
  }

  /** What a registration does to the timer: it may clear its entries, and it may add a fresh one under `k`. */
  ghost predicate Reregistered(s: Slice, t: Slice, spec: TimerSpec, later: Time, kept: Bag, next: Option<Time>, k: nat)
    requires IsOneShot(spec.schedule)
  {
    && t.spec == Some(spec) && StartedRuns(t.events) == StartedRuns(s.events) && t.pending == s.pending
    && ((kept == s.waiting && next == s.next) || (kept == map[] && next.None?))
    && ((t.waiting == kept && t.next == next)
        || (next.None? && later < FireTime(spec.schedule) && t.next.Some? && k !in kept
            && t.waiting == kept[k := ScheduledTimer(spec.id, FireTime(spec.schedule), None, 1)]))
  }

  lemma ScheduleReregisters(calendar: Calendar, c: Core, q: Request, now: Time, later: Time, accepted: bool)
    returns (kept: Bag, next: Option<Time>)
    requires IsOneShot(q.schedule) && Numbered(c)
    ensures var r := ScheduleTimer(calendar, c, q, now, later, accepted);
      r.Accepted? ==> Reregistered(SliceOf(c, q.id), SliceOf(r.core, q.id), SpecOf(c.mem, q, now), later, kept, next,
                                   Registered(Record(c, q, now), q).pushed)
  {
    var r := ScheduleTimer(calendar, c, q, now, later, accepted);
    var spec, g := SpecOf(c.mem, q, now), Registered(Record(c, q, now), q);
    kept, next := SliceOf(g, q.id).waiting, SliceOf(g, q.id).next;
    if r.Accepted? {
      RecordPlanned(c, q, now);
      OneShotNext(calendar, q.schedule, later, spec.timezone);
      var at := NextRunAfter(calendar, q.schedule, later, spec.timezone);
      assert Look(g.mem.nextRuns, q.id) == next;
      assert spec.schedule == q.schedule && spec.id == q.id;
      hide Record, Registered, NextRunAfter, StartedRuns, FireTime, SpecOf;
      if q.id !in g.mem.nextRuns && at.Some? {
        AddFresh(g, q.id, at.value);
      }
      hide SliceOf, PushNext;
    }
  }

  lemma AddFresh(c: Core, id: TimerId, next: Time)
    requires Numbered(c)
    ensures var s, t := SliceOf(c, id), SliceOf(PushNext(c, id, next), id);
      && c.pushed !in s.waiting && t.waiting == s.waiting[c.pushed := ScheduledTimer(id, next, None, 1)]
      && t.next == Some(next) && t.spec == s.spec && t.events == s.events && t.pending == s.pending
  {
    var d := c.(mem := c.mem.(nextRuns := c.mem.nextRuns[id := next]));
    PushOwn(d, ScheduledTimer(id, next, None, 1));
    hide Concerning, OfTimer;
  }
}
