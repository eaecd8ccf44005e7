/** A session of a delay timer that starts with a retry on record from an earlier one. */
module EngineInherited {
  import opened Prelude
  import opened Retry
  import opened Schedules
  import opened Timers
  import opened Events
  import opened Heap
  import opened Engine
  import opened EngineRuns
  import opened EngineFrame
  import opened EngineParts
  import opened EngineDelay
  import opened EngineAttempts
  import EngineFiles
  import opened EnginePlans
  import opened EngineScript

  // ----- The first run that ends -----

  predicate Ends(e: Event) {
    e.RunSucceeded? || e.RunFailed?
  }

  /** The event with which the first run of the session finishes. */
  function FirstEnd(es: seq<Event>): Option<Event> {
    if es == [] then None
    else
      var before, e := FirstEnd(es[..|es| - 1]), es[|es| - 1];
      if before.Some? then before else if Ends(e) then Some(e) else None
  }

  predicate FailsFirst(es: seq<Event>) {
    FirstEnd(es).Some? && FirstEnd(es).value.RunFailed?
  }

  lemma {:induction false} FirstEndMore(es: seq<Event>, more: seq<Event>)
    ensures FirstEnd(es + more) == if FirstEnd(es).Some? then FirstEnd(es) else FirstEnd(more)
    decreases |more|
  {
    if more == [] {
      assert es + more == es;
    } else {
      var before, e := more[..|more| - 1], more[|more| - 1];
      assert es + more == (es + before) + [e] && ((es + before) + [e])[..|es + before|] == es + before;
      FirstEndMore(es, before);
    }
  }

  lemma FirstEndOne(e: Event)
    ensures FirstEnd([e]) == if Ends(e) then Some(e) else None
  {
    assert [e][..0] == [];
  }

  lemma FirstEndGrows(es: seq<Event>, fs: seq<Event>)
    requires es <= fs && FirstEnd(es).Some?
    ensures FirstEnd(fs) == FirstEnd(es)
  {
    FirstEndMore(es, fs[|es|..]);
    assert fs == es + fs[|es|..];
  }

  lemma StartEndsNothing(entry: ScheduledTimer, newId: RunId, now: Time, due: bool, start: bool)
    ensures FirstEnd(StartEvents(entry, newId, now, due, start)) == None
  {
    var es := StartEvents(entry, newId, now, due, start);
    if |es| == 2 {
      FirstEndOne(es[0]);
      assert es[..1] == [es[0]];
    } else if |es| == 1 {
      FirstEndOne(es[0]);
    }
  }

  // ----- The core without the retry on record -----

  function Without(c: Core, id: TimerId): Core {
    c.(mem := c.mem.(pendingRetries := c.mem.pendingRetries - {id}))
  }

  lemma WithoutSlice(c: Core, id: TimerId)
    ensures SliceOf(Without(c, id), id) == SliceOf(c, id).(pending := None)
    ensures Numbered(Without(c, id)) <==> Numbered(c)
  {
    hide Concerning, OfTimer;
  }

  /** Events that leave the retries alone. */
  predicate Unrelated(e: Event) {
    !e.RunSucceeded? && !e.RunRetrying? && !e.RunDead?
  }

  lemma AppendWithout(c: Core, e: Event, accepted: bool, id: TimerId)
    requires Unrelated(e)
    ensures Append(Without(c, id), e, accepted) == Without(Append(c, e, accepted), id)
    ensures Append(c, e, accepted).mem.pendingRetries == c.mem.pendingRetries
  {
  }

  /** The start block of a delay timer does not look at the retry on record. */
  lemma BeginWithout(calendar: Calendar, c: Core, entry: ScheduledTimer, newId: RunId, now: Time, due: bool, start: bool)
    requires entry.timer in c.mem.specs && c.mem.specs[entry.timer].overlap.Delay?
    ensures var id := entry.timer;
      var b := Begin(calendar, c, entry, newId, now, due, start);
      && Begin(calendar, Without(c, id), entry, newId, now, due, start) == b.(core := Without(b.core, id))
      && b.core.mem.pendingRetries == c.mem.pendingRetries
  {
    var id, run := entry.timer, OrElse(entry.run, newId);
    var cleared, e, f := ClearNext(c, id), RunDue(id, run, entry.at), RunStarted(id, run, now, entry.attempt);
    assert ClearNext(Without(c, id), id) == Without(cleared, id);
    AppendWithout(cleared, e, due, id);
    AppendWithout(Append(cleared, e, due), f, start, id);
    hide Append, ClearNext, RescheduleFrom;
  }

  lemma PushNextWithout(c: Core, id: TimerId, next: Time)
    ensures PushNext(Without(c, id), id, next) == Without(PushNext(c, id, next), id)
    ensures PushNext(c, id, next).mem.pendingRetries == c.mem.pendingRetries
  {
  }

  lemma RegisteredWithout(c: Core, q: Request)
    ensures Registered(Without(c, q.id), q) == Without(Registered(c, q), q.id)
    ensures Registered(c, q).mem.pendingRetries == c.mem.pendingRetries
  {
  }

  lemma UnscheduleWithout(c: Core, id: TimerId)
    ensures Unschedule(Without(c, id), id) == Without(Unschedule(c, id), id)
    ensures Unschedule(c, id).mem.pendingRetries == c.mem.pendingRetries
  {
  }

  lemma RecordWithout(c: Core, q: Request, now: Time)
    ensures Record(Without(c, q.id), q, now) == Without(Record(c, q, now), q.id)
    ensures Record(c, q, now).mem.pendingRetries == c.mem.pendingRetries
  {
    var spec := SpecOf(c.mem, q, now);
    assert SpecOf(Without(c, q.id).mem, q, now) == spec;
    AppendWithout(c, TimerCreated(spec), true, q.id);
    AppendWithout(c, TimerUpdated(spec), true, q.id);
    UnscheduleWithout(Append(c, TimerUpdated(spec), true), q.id);
    hide Append, SpecOf, Unschedule;
  }

  /** Neither does a registration. */
  lemma ScheduleWithout(calendar: Calendar, c: Core, q: Request, now: Time, later: Time, accepted: bool)
    ensures var r, s := ScheduleTimer(calendar, c, q, now, later, accepted),
                        ScheduleTimer(calendar, Without(c, q.id), q, now, later, accepted);
      r.Accepted? ==>
        s == Accepted(Without(r.core, q.id)) && r.core.mem.pendingRetries == c.mem.pendingRetries
  {
    var spec, d := SpecOf(c.mem, q, now), Record(c, q, now);
    var g := Registered(d, q);
    assert SpecOf(Without(c, q.id).mem, q, now) == spec;
    assert Without(g, q.id).mem.nextRuns == g.mem.nextRuns;
    RecordWithout(c, q, now);
    RegisteredWithout(d, q);
    var next := NextRunAfter(calendar, spec.schedule, later, spec.timezone);
    if next.Some? {
      PushNextWithout(g, q.id, next.value);
    }
    hide Record, Registered, PushNext, NextRunAfter, SpecOf;
  }

  /** A success removes the retry on record whatever it is. */
  lemma OkWithout(calendar: Calendar, c: Core, f: Flight, now: Time, second: bool)
    requires f.callable
    ensures Finish(calendar, Without(c, f.spec.id), f, Ok(()), now, true, second)
         == Finish(calendar, c, f, Ok(()), now, true, second)
  {
    var e := RunSucceeded(f.spec.id, f.run, now, Elapsed(f.startedAt, now));
    assert Append(Without(c, f.spec.id), e, true) == Append(c, e, true);
    hide Append, RescheduleFrom;
  }

  // ----- What the finish block logs -----

  lemma RejectedFinish(calendar: Calendar, c: Core, f: Flight, outcome: Result<(), string>, now: Time, second: bool)
    requires f.callable
    ensures SliceOf(Finish(calendar, c, f, outcome, now, false, second), f.spec.id) == SliceOf(c, f.spec.id)
  {
    hide SliceOf, Apply, CurrentAttempt, NextRetryAt, NextRunAfter;
    AppendRejected(c, RunSucceeded(f.spec.id, f.run, now, Elapsed(f.startedAt, now)), f.spec.id);
    CountOnly(Append(c, RunSucceeded(f.spec.id, f.run, now, Elapsed(f.startedAt, now)), false), f.spec.id);
    if outcome.Err? {
      var e := RunFailed(f.spec.id, f.run, now, outcome.error, CurrentAttempt(c.mem, f.spec.id));
      AppendRejected(c, e, f.spec.id);
      CountOnly(Append(c, e, false), f.spec.id);
    }
  }

  /** A logged outcome is the first event of the block. */
  lemma AcceptedFinish(calendar: Calendar, c: Core, f: Flight, outcome: Result<(), string>, now: Time, second: bool)
    requires f.callable
    ensures var e := if outcome.Ok? then RunSucceeded(f.spec.id, f.run, now, Elapsed(f.startedAt, now))
                     else RunFailed(f.spec.id, f.run, now, outcome.error, CurrentAttempt(c.mem, f.spec.id));
      c.log + [e] <= Finish(calendar, c, f, outcome, now, true, second).log
  {
    hide Apply, NextRunAfter, NextRetryAt, CurrentAttempt;
  }

  lemma AppendSpecs(c: Core, e: Event, accepted: bool)
    requires !e.TimerCreated? && !e.TimerUpdated?
    ensures Append(c, e, accepted).mem.specs == c.mem.specs
  {
    ApplySpecs(c.mem, e);
    hide Apply;
  }

  lemma RescheduleSpecs(calendar: Calendar, c: Core, spec: TimerSpec, from: Time)
    ensures RescheduleFrom(calendar, c, spec, from).mem.specs == c.mem.specs
  {
    hide NextRunAfter;
  }

  lemma RetrySpecs(c: Core, f: Flight, attempt: Attempt, at: Time, accepted: bool)
    requires attempt < U32_MAX
    ensures RetryLater(c, f, attempt, at, accepted).mem.specs == c.mem.specs
  {
    AppendSpecs(UnscheduleUnlessDelay(c, f.spec), RunRetrying(f.spec.id, f.run, attempt + 1, at), accepted);
    hide Append;
  }

  lemma GiveUpSpecs(calendar: Calendar, c: Core, f: Flight, now: Time, accepted: bool)
    ensures GiveUp(calendar, c, f, now, accepted).mem.specs == c.mem.specs
  {
    var dead := RunDead(f.spec.id, f.run, now);
    AppendSpecs(c, dead, accepted);
    RescheduleSpecs(calendar, Append(c, dead, accepted), f.spec, now);
    hide Append, RescheduleFrom;
  }

  lemma ErrSpecs(calendar: Calendar, c: Core, f: Flight, error: string, now: Time, fail: bool, next: bool)
    ensures FinishErr(calendar, c, f, error, now, fail, next).mem.specs == c.mem.specs
  {
    var attempt := CurrentAttempt(c.mem, f.spec.id);
    var e := RunFailed(f.spec.id, f.run, now, error, attempt);
    var d, r := Append(c, e, fail), NextRetryAt(f.spec.retry, now, attempt);
    BelowLimit(f.spec.retry, now, attempt);
    hide Append, RetryLater, GiveUp, NextRetryAt, CurrentAttempt;
    AppendSpecs(c, e, fail);
    if r.RetryAt? {
      RetrySpecs(d, f, attempt, r.at, next);
    }
    GiveUpSpecs(calendar, d, f, now, next);
  }

  lemma FinishSpecs(calendar: Calendar, c: Core, f: Flight, outcome: Result<(), string>, now: Time, first: bool, second: bool)
    ensures Finish(calendar, c, f, outcome, now, first, second).mem.specs == c.mem.specs
  {
    var ok := RunSucceeded(f.spec.id, f.run, now, Elapsed(f.startedAt, now));
    hide Append, RescheduleFrom, FinishErr;
    AppendSpecs(c, ok, first);
    RescheduleSpecs(calendar, Append(c, ok, first), f.spec, now);
    if outcome.Err? {
      ErrSpecs(calendar, c, f, outcome.error, now, first, second);
    }
  }

  lemma BeginSpecs(calendar: Calendar, c: Core, entry: ScheduledTimer, newId: RunId, now: Time, due: bool, start: bool)
    ensures Begin(calendar, c, entry, newId, now, due, start).core.mem.specs == c.mem.specs
  {
    var id, run := entry.timer, OrElse(entry.run, newId);
    if id in c.mem.specs {
      var spec, cleared := c.mem.specs[id], ClearNext(c, id);
      var skipped, e, f := RunSkippedOverlap(id, run, entry.at, now), RunDue(id, run, entry.at),
                           RunStarted(id, run, now, entry.attempt);
      assert cleared.mem.specs == c.mem.specs;
      hide Append, RescheduleFrom, ClearNext;
      AppendSpecs(cleared, skipped, due);
      RescheduleSpecs(calendar, Append(cleared, skipped, due), spec, entry.at);
      AppendSpecs(cleared, e, due);
      AppendSpecs(Append(cleared, e, due), f, start);
      RescheduleSpecs(calendar, Append(Append(cleared, e, due), f, start), spec, entry.at);
    }
  }

  lemma {:induction false} ConcerningGrows(s: seq<Event>, t: seq<Event>, id: TimerId)
    requires s <= t
    ensures Concerning(s, id) <= Concerning(t, id)
    decreases |t|
  {
    if |s| == |t| {
      assert s == t;
    } else {
      var before := t[..|t| - 1];
      assert s <= before;
      ConcerningGrows(s, before, id);
    }
  }

  // ----- The session, stage by stage -----

  /** The part of the world as it would be without the retry on record. */
  function Hidden(p: Part): Part {
    p.(core := p.core.(pending := None))
  }

  /** Nothing of the timer but the retry on record. */
  predicate Unregistered(p: Part, n: nat, retry: PendingRetry) {
    Keys(p) == {} && p.core.pending == Some(retry) && |p.core.events| == n
  }

  /** Until the first run ends: one token, and a log in the language, but for the retry on record. */
  ghost predicate Before(p: Part, n: nat, retry: PendingRetry) {
    p.core.pending == Some(retry) && Token(Hidden(p), n) && FirstEnd(p.core.events[n..]) == None
  }

  /** After it has succeeded. */
  ghost predicate Healed(p: Part, n: nat) {
    Token(p, n) && FirstEnd(p.core.events[n..]).Some? && !FailsFirst(p.core.events[n..])
  }

  /** After it has failed. */
  ghost predicate Spoilt(p: Part, n: nat) {
    p.core.spec.Some? && n <= |p.core.events| && SlicePhase(p.core, n).Broken? && FailsFirst(p.core.events[n..])
  }

  ghost predicate Stage(p: Part, n: nat, retry: PendingRetry, mayRegister: bool) {
    Unregistered(p, n, retry) || (!mayRegister && (Before(p, n, retry) || Healed(p, n) || Spoilt(p, n)))
  }

  /** What a stage says of the log. */
  lemma StageExact(p: Part, n: nat, retry: PendingRetry, mayRegister: bool)
    requires Stage(p, n, retry, mayRegister)
    ensures n <= |p.core.events|
    ensures p.core.spec.Some? ==> (SlicePhase(p.core, n).Broken? <==> FailsFirst(p.core.events[n..]))
  {
    if Unregistered(p, n, retry) {
      assert p.core.events[n..] == [];
    } else if Before(p, n, retry) {
      assert SlicePhase(Hidden(p).core, n) == SlicePhase(p.core, n);
      hide Phases, FirstEnd, EntryFits, FlightFits, Keys;
    } else {
      hide Phases, FirstEnd, EntryFits, FlightFits, Keys;
    }
  }

  lemma MovedStage(p: Part, q: Part, n: nat, retry: PendingRetry, mayRegister: bool)
    requires Stage(p, n, retry, mayRegister) && Moved(p, q)
    ensures Stage(q, n, retry, mayRegister)
  {
    if Unregistered(p, n, retry) {
      MovedKeys(p, q);
    } else if Before(p, n, retry) {
      assert Moved(Hidden(p), Hidden(q)) by {
        assert forall k, e :: EntryAt(Hidden(q), k, e) ==> EntryAt(q, k, e);
        assert forall k, e :: EntryAt(p, k, e) ==> EntryAt(Hidden(p), k, e);
      }
      hide Token;
      MovedToken(Hidden(p), Hidden(q), n);
    } else if Healed(p, n) {
      hide Token;
      MovedToken(p, q, n);
    }
    hide Keys, FirstEnd, Phases;
  }

  lemma SameStage(p: Part, q: Part, n: nat, retry: PendingRetry, mayRegister: bool)
    requires Stage(p, n, retry, mayRegister)
    requires Same(q.core, p.core) && q.popped == p.popped && q.spawned == p.spawned && q.flying == p.flying
    ensures Stage(q, n, retry, mayRegister)
  {
    assert Moved(p, q);
    hide Stage, Moved;
    MovedStage(p, q, n, retry, mayRegister);
  }

  // ----- The start block -----

  lemma BeginBefore(calendar: Calendar, w: World, k: nat, newId: RunId, now: Time, due: bool, start: bool, id: TimerId, n: nat,
                    retry: PendingRetry)
    requires Sound(w) && k in w.spawned && w.spawned[k].timer == id && Before(PartOf(w, id), n, retry)
    ensures Before(PartOf(AfterBegin(w, k, newId, now, Begin(calendar, w.core, w.spawned[k], newId, now, due, start)), id), n,
                   retry)
  {
    var entry := w.spawned[k];
    var b := Begin(calendar, w.core, entry, newId, now, due, start);
    var p, c := PartOf(w, id), Without(w.core, id);
    PlaceOf(w, k, id);
    SoundSpawned(w, k);
    AloneSpawned(Hidden(p), k, n);
    WithoutSlice(w.core, id);
    assert w.core.mem.specs[id].overlap.Delay? by {
      hide Concerning, OfTimer, FlightsOf, SlicePhase;
    }
    hide Sound, SliceOf, Begin, SlicePhase, EntryFits, FlightFits, Token, OfTimer, FlightsOf, Settled, Delays, AfterBegin;
    BeginWithout(calendar, w.core, entry, newId, now, due, start);
    BeginOwn(calendar, c, entry, newId, now, due, start, n);
    WithoutSlice(b.core, id);
    BeginRuntime(calendar, w.core, entry, newId, now, due, start);
    BegunPart(w, k, newId, now, b, id);
    BegunToken(Hidden(p), SliceOf(Without(b.core, id), id), k, b.flight, n);
    BegunLog(calendar, w.core, entry, newId, now, due, start, n);
    SamePending(w.core, b.core, id);
  }

  lemma SamePending(c: Core, d: Core, id: TimerId)
    requires d.mem.pendingRetries == c.mem.pendingRetries
    ensures SliceOf(d, id).pending == SliceOf(c, id).pending
  {
    hide Concerning, OfTimer;
  }

  lemma BegunLog(calendar: Calendar, c: Core, entry: ScheduledTimer, newId: RunId, now: Time, due: bool, start: bool, n: nat)
    requires entry.timer in c.mem.specs && c.mem.specs[entry.timer].overlap.Delay?
    requires n <= |SliceOf(c, entry.timer).events|
    ensures var s, t := SliceOf(c, entry.timer), SliceOf(Begin(calendar, c, entry, newId, now, due, start).core, entry.timer);
      n <= |t.events| && (FirstEnd(s.events[n..]) == None ==> FirstEnd(t.events[n..]) == None)
  {
    var s, t := SliceOf(c, entry.timer), SliceOf(Begin(calendar, c, entry, newId, now, due, start).core, entry.timer);
    var more := StartEvents(entry, newId, now, due, start);
    BeginEvents(calendar, c, entry, newId, now, due, start);
    StartEndsNothing(entry, newId, now, due, start);
    FirstEndMore(s.events[n..], more);
    assert t.events[n..] == s.events[n..] + more;
    hide *;
  }

  // ----- The finish block -----

  lemma EmptiedBefore(p: Part, q: Part, n: nat, retry: PendingRetry)
    requires Before(p, n, retry) && q.core == p.core && p.core.waiting == map[]
    requires q.popped == map[] && q.spawned == map[] && q.flying == map[]
    ensures Stage(q, n, retry, false)
  {
    hide Phases, FirstEnd, EntryFits, FlightFits;
  }

  lemma LogOf(c: Core, d: Core, e: Event, id: TimerId)
    requires c.log + [e] <= d.log && Subject(e) == id
    ensures SliceOf(c, id).events + [e] <= SliceOf(d, id).events
  {
    ConcerningAppend(c.log, e, id);
    ConcerningGrows(c.log + [e], d.log, id);
    hide Concerning, OfTimer;
  }

  /** The first end of a log that continues one without an end. */
  lemma FirstEndHere(es: seq<Event>, fs: seq<Event>, e: Event, n: nat)
    requires n <= |es| && es + [e] <= fs && Ends(e) && FirstEnd(es[n..]) == None
    ensures FirstEnd(fs[n..]) == Some(e)
  {
    FirstEndMore(es[n..], [e]);
    FirstEndOne(e);
    assert es[n..] + [e] <= fs[n..];
    FirstEndGrows(es[n..] + [e], fs[n..]);
  }

  lemma SucceededHeals(calendar: Calendar, c: Core, f: Flight, now: Time, second: bool, n: nat)
    requires f.callable && InFlight(Without(c, f.spec.id), f, n) && FirstEnd(SliceOf(c, f.spec.id).events[n..]) == None
    requires n <= |SliceOf(c, f.spec.id).events|
    ensures Healed(Part(SliceOf(Finish(calendar, c, f, Ok(()), now, true, second), f.spec.id), map[], map[], map[]), n)
  {
    var id, e := f.spec.id, RunSucceeded(f.spec.id, f.run, now, Elapsed(f.startedAt, now));
    var d := Finish(calendar, c, f, Ok(()), now, true, second);
    OkNeverPanics(Without(c, id), f, now);
    hide SliceOf, Finish, Token, Settled, FirstEnd, InFlight, Panics;
    OkWithout(calendar, c, f, now, second);
    FinishSettles(calendar, Without(c, id), f, Ok(()), now, true, second, n);
    SettledToken(SliceOf(d, id), n);
    AcceptedFinish(calendar, c, f, Ok(()), now, second);
    LogOf(c, d, e, id);
    FirstEndHere(SliceOf(c, id).events, SliceOf(d, id).events, e, n);
  }

  lemma FailedSpoils(calendar: Calendar, c: Core, f: Flight, error: string, now: Time, second: bool, n: nat,
                     retry: PendingRetry)
    requires f.callable && InFlight(Without(c, f.spec.id), f, n) && 2 <= retry.attempt
    requires var s := SliceOf(c, f.spec.id);
      s.pending == Some(retry) && n <= |s.events| && FirstEnd(s.events[n..]) == None
    ensures Spoilt(Part(SliceOf(Finish(calendar, c, f, Err(error), now, true, second), f.spec.id), map[], map[], map[]), n)
  {
    var id := f.spec.id;
    var e := RunFailed(id, f.run, now, error, CurrentAttempt(c.mem, id));
    var d := Finish(calendar, c, f, Err(error), now, true, second);
    var s, t := SliceOf(c, id), SliceOf(d, id);
    InFlightFirst(c, f, n, retry);
    hide SliceOf, Finish, FirstEnd, InFlight, CurrentAttempt, Phases;
    FailedSpec(calendar, c, f, error, now, second);
    AcceptedFinish(calendar, c, f, Err(error), now, second);
    LogOf(c, d, e, id);
    FirstEndHere(s.events, t.events, e, n);
    PhasesAppend(s.events[n..], e, s.spec.value.retry.maxAttempts);
    assert s.events[n..] + [e] <= t.events[n..];
    StaysBroken(s.events[n..] + [e], t.events[n..], s.spec.value.retry.maxAttempts);
  }

  /** What is in flight is a first attempt, and the retry on record another. */
  lemma InFlightFirst(c: Core, f: Flight, n: nat, retry: PendingRetry)
    requires InFlight(Without(c, f.spec.id), f, n) && SliceOf(c, f.spec.id).pending == Some(retry)
    ensures var s := SliceOf(c, f.spec.id);
      Delays(s, n) && SlicePhase(s, n) == Active(f.run, 1) && CurrentAttempt(c.mem, f.spec.id) == retry.attempt
  {
    WithoutSlice(c, f.spec.id);
    hide Concerning, OfTimer, Phases;
  }

  lemma FailedSpec(calendar: Calendar, c: Core, f: Flight, error: string, now: Time, second: bool)
    ensures SliceOf(Finish(calendar, c, f, Err(error), now, true, second), f.spec.id).spec == SliceOf(c, f.spec.id).spec
  {
    FinishSpecs(calendar, c, f, Err(error), now, true, second);
    hide Concerning, OfTimer, Finish;
  }

  lemma {:induction false} StaysBroken(es: seq<Event>, fs: seq<Event>, maxAttempts: nat)
    requires Phases(es, maxAttempts).Broken? && es <= fs
    ensures Phases(fs, maxAttempts).Broken?
    decreases |fs|
  {
    if |es| == |fs| {
      assert es == fs;
    } else {
      var before := fs[..|fs| - 1];
      assert es <= before;
      StaysBroken(es, before, maxAttempts);
    }
  }

  lemma FinishBefore(calendar: Calendar, w: World, k: nat, outcome: Result<(), string>, now: Time, first: bool, second: bool,
                     id: TimerId, n: nat, retry: PendingRetry)
    requires Sound(w) && k in w.executing && w.executing[k].spec.id == id && !Panics(w.core, w.executing[k], outcome, now)
    requires Before(PartOf(w, id), n, retry) && 2 <= retry.attempt
    ensures Stage(PartOf(AfterFinish(w, k, now, Finish(calendar, w.core, w.executing[k], outcome, now, first, second)), id), n,
                  retry, false)
  {
    var f := w.executing[k];
    var c := Finish(calendar, w.core, f, outcome, now, first, second);
    var p, q := PartOf(w, id), PartOf(AfterFinish(w, k, now, c), id);
    PlaceOf(w, k, id);
    SoundExecuting(w, k);
    FinishedPart(w, k, now, c, id);
    AloneFlying(Hidden(p), k, n);
    assert InFlight(Without(w.core, id), f, n) by {
      WithoutSlice(w.core, id);
      hide Concerning, OfTimer, FlightsOf, Phases;
    }
    hide Sound, SliceOf, Finish, Token, OfTimer, FlightsOf, Settled, AfterFinish, Panics, Phases, FirstEnd, Stage, InFlight;
    if !first {
      RejectedFinish(calendar, w.core, f, outcome, now, second);
      hide *;
      EmptiedBefore(p, q, n, retry);
    } else if outcome.Ok? {
      SucceededHeals(calendar, w.core, f, now, second, n);
    } else {
      FailedSpoils(calendar, w.core, f, outcome.error, now, second, n, retry);
    }
  }

  // ----- Steps -----

  /** A step appends to what the timer has logged, and only a registration changes its specification. */
  lemma StepContinues(calendar: Calendar, w: World, s: Step, id: TimerId)
    requires Enabled(w, s) && !s.Restart? && !(s.Register? && s.q.id == id)
    requires Sound(w)
    ensures var p, q := PartOf(w, id), PartOf(Take(calendar, w, s), id);
      q.core.spec == p.core.spec && p.core.events <= q.core.events
  {
    var v := Take(calendar, w, s);
    hide Sound, SliceOf, AfterPop, AfterSpawn, AfterBegin, AfterFinish, Begin, Finish, ScheduleTimer, Panics;
    if !Touches(w, s, id) {
      StepElsewhere(calendar, w, s, id);
    } else {
      match s
      case Pop(now) => PopMoves(w, now, id);
      case Spawn(k) => SpawnMoves(w, k, id);
      case LeaveLoop => LeaveMoves(w, id);
      case BeginRun(k, newId, now, due, start) =>
        BeginSpecs(calendar, w.core, w.spawned[k], newId, now, due, start);
        EngineFiles.BeginAppends(calendar, w.core, w.spawned[k], newId, now, due, start);
        BeginCore(w, k, newId, now, Begin(calendar, w.core, w.spawned[k], newId, now, due, start));
        Continues(w.core, v.core, id);
      case FinishRunning(k, outcome, now, first, second) =>
        FinishSpecs(calendar, w.core, w.executing[k], outcome, now, first, second);
        EngineFiles.FinishAppends(calendar, w.core, w.executing[k], outcome, now, first, second);
        FinishCore(w, k, now, Finish(calendar, w.core, w.executing[k], outcome, now, first, second));
        Continues(w.core, v.core, id);
    }
  }

  lemma FinishCore(w: World, k: nat, now: Time, c: Core)
    ensures AfterFinish(w, k, now, c).core == c
  {
  }

  lemma Continues(c: Core, d: Core, id: TimerId)
    requires c.log <= d.log && d.mem.specs == c.mem.specs
    ensures SliceOf(d, id).spec == SliceOf(c, id).spec && SliceOf(c, id).events <= SliceOf(d, id).events
  {
    ConcerningGrows(c.log, d.log, id);
    hide Concerning, OfTimer;
  }

  lemma SpoiltStep(p: Part, q: Part, n: nat)
    requires Spoilt(p, n) && q.core.spec == p.core.spec && p.core.events <= q.core.events
    ensures Spoilt(q, n)
  {
    assert p.core.events[n..] <= q.core.events[n..];
    hide Phases, FirstEnd;
    StaysBroken(p.core.events[n..], q.core.events[n..], p.core.spec.value.retry.maxAttempts);
    FirstEndGrows(p.core.events[n..], q.core.events[n..]);
  }

  lemma HealedStep(p: Part, q: Part, n: nat)
    requires Healed(p, n) && Token(q, n) && p.core.events <= q.core.events
    ensures Healed(q, n)
  {
    assert p.core.events[n..] <= q.core.events[n..];
    hide Phases, FirstEnd, EntryFits, FlightFits, Keys;
    FirstEndGrows(p.core.events[n..], q.core.events[n..]);
  }

  lemma UnregisteredStep(calendar: Calendar, w: World, s: Step, id: TimerId, n: nat, retry: PendingRetry)
    requires Sound(w) && Enabled(w, s) && !s.Restart? && !(s.Register? && s.q.id == id)
    requires Unregistered(PartOf(w, id), n, retry)
    ensures Unregistered(PartOf(Take(calendar, w, s), id), n, retry)
  {
    var p, q := PartOf(w, id), PartOf(Take(calendar, w, s), id);
    EmptyParts(p);
    NothingThere(w, s, id);
    hide Sound, Keys, PartOf, AfterPop, AfterSpawn, AfterBegin, AfterFinish, Begin, Finish, ScheduleTimer, Panics;
    if !Touches(w, s, id) {
      StepElsewhere(calendar, w, s, id);
    } else {
      if s.Pop? {
        PopMoves(w, s.now, id);
      } else {
        LeaveMoves(w, id);
      }
      MovedKeys(p, q);
    }
  }

  lemma EmptyParts(p: Part)
    requires Keys(p) == {}
    ensures p.core.waiting == map[] && p.popped == map[] && p.spawned == map[] && p.flying == map[]
  {
    assert p.core.waiting.Keys <= Keys(p) && p.popped.Keys <= Keys(p) && p.spawned.Keys <= Keys(p) && p.flying.Keys <= Keys(p);
  }

  lemma BeforeStep(calendar: Calendar, w: World, s: Step, id: TimerId, n: nat, retry: PendingRetry)
    requires Sound(w) && Enabled(w, s) && !s.Restart? && !(s.Register? && s.q.id == id) && 2 <= retry.attempt
    requires Before(PartOf(w, id), n, retry)
    ensures Stage(PartOf(Take(calendar, w, s), id), n, retry, false)
  {
    var p, q := PartOf(w, id), PartOf(Take(calendar, w, s), id);
    hide Sound, PartOf, AfterPop, AfterSpawn, AfterBegin, AfterFinish, Begin, Finish, ScheduleTimer, Panics, Before, Healed,
         Spoilt, Unregistered, Moved;
    if !Touches(w, s, id) {
      StepElsewhere(calendar, w, s, id);
    } else {
      match s
      case Pop(now) =>
        PopMoves(w, now, id);
        MovedStage(p, q, n, retry, false);
      case Spawn(k) =>
        SpawnMoves(w, k, id);
        MovedStage(p, q, n, retry, false);
      case LeaveLoop =>
        LeaveMoves(w, id);
        MovedStage(p, q, n, retry, false);
      case BeginRun(k, newId, now, due, start) => BeginBefore(calendar, w, k, newId, now, due, start, id, n, retry);
      case FinishRunning(k, outcome, now, first, second) =>
        FinishBefore(calendar, w, k, outcome, now, first, second, id, n, retry);
    }
  }

  lemma StageStep(calendar: Calendar, w: World, s: Step, id: TimerId, n: nat, retry: PendingRetry, mayRegister: bool)
    requires Sound(w) && Enabled(w, s) && !s.Restart? && !(s.Register? && s.q.id == id) && 2 <= retry.attempt
    requires Stage(PartOf(w, id), n, retry, mayRegister)
    ensures Stage(PartOf(Take(calendar, w, s), id), n, retry, mayRegister)
  {
    var p, q := PartOf(w, id), PartOf(Take(calendar, w, s), id);
    hide Sound, PartOf, Take, Enabled, Token, Before, Unregistered, Spoilt, FirstEnd, FailsFirst;
    if Unregistered(p, n, retry) {
      UnregisteredStep(calendar, w, s, id, n, retry);
    } else if Before(p, n, retry) {
      BeforeStep(calendar, w, s, id, n, retry);
    } else {
      StepContinues(calendar, w, s, id);
      if Spoilt(p, n) {
        SpoiltStep(p, q, n);
      } else {
        TokenStep(calendar, w, s, id, n);
        HealedStep(p, q, n);
      }
    }
  }

  // ----- Registration -----

  lemma RepeatStage(calendar: Calendar, w: World, s: Step, id: TimerId, n: nat, retry: PendingRetry, mayRegister: bool)
    requires Enabled(w, s) && s.Register? && s.q.id == id && Repeats(calendar, w.core, s)
    requires Stage(PartOf(w, id), n, retry, mayRegister)
    ensures Stage(PartOf(Take(calendar, w, s), id), n, retry, mayRegister)
  {
    var p, q := PartOf(w, id), PartOf(Take(calendar, w, s), id);
    assert Same(q.core, p.core) by {
      assert SpecOf(w.core.mem, s.q, s.now).schedule == s.q.schedule;
      hide Concerning, OfTimer, NextRunAfter, SpecOf, Apply;
    }
    assert q.popped == p.popped && q.spawned == p.spawned && q.flying == p.flying;
    hide PartOf, Take, Stage, Enabled, Repeats;
    SameStage(p, q, n, retry, mayRegister);
  }

  /** What a registration logs. */
  function Recording(c: Core, q: Request, now: Time): seq<Event> {
    var spec := SpecOf(c.mem, q, now);
    if q.id !in c.mem.specs then [TimerCreated(spec)]
    else if c.mem.specs[q.id] != spec then [TimerUpdated(spec)] else []
  }

  lemma ScheduleLogs(calendar: Calendar, c: Core, q: Request, now: Time, later: Time, accepted: bool)
    ensures var r := ScheduleTimer(calendar, c, q, now, later, accepted);
      r.Accepted? ==> r.core.log == c.log + Recording(c, q, now)
  {
    hide Apply, NextRunAfter, SpecOf;
  }

  lemma RecordingEndsNothing(c: Core, q: Request, now: Time)
    ensures FirstEnd(Recording(c, q, now)) == None
  {
    var es := Recording(c, q, now);
    if es != [] {
      assert es == [es[0]];
      FirstEndOne(es[0]);
    }
  }

  lemma RegisteredLog(calendar: Calendar, c: Core, q: Request, now: Time, later: Time, accepted: bool, n: nat)
    requires |SliceOf(c, q.id).events| == n
    ensures var r := ScheduleTimer(calendar, c, q, now, later, accepted);
      r.Accepted? ==> var t := SliceOf(r.core, q.id); n <= |t.events| && FirstEnd(t.events[n..]) == None
  {
    var r, s := ScheduleTimer(calendar, c, q, now, later, accepted), SliceOf(c, q.id);
    var more := Recording(c, q, now);
    if r.Accepted? {
      var t := SliceOf(r.core, q.id);
      ScheduleLogs(calendar, c, q, now, later, accepted);
      assert |more| <= 1 && forall i :: 0 <= i < |more| ==> Subject(more[i]) == q.id;
      ConcerningBoth(c.log, more, q.id);
      assert t.events == s.events + more && t.events[n..] == more by { hide ScheduleTimer, Recording, Concerning, OfTimer; }
      RecordingEndsNothing(c, q, now);
    }
    hide ScheduleTimer, SliceOf, FirstEnd;
  }

  lemma RegisterStage(calendar: Calendar, w: World, s: Step, id: TimerId, n: nat, retry: PendingRetry)
    requires Sound(w) && Enabled(w, s) && s.Register? && s.q.id == id && SpecOf(w.core.mem, s.q, s.now).overlap.Delay?
    requires Unregistered(PartOf(w, id), n, retry)
    ensures Stage(PartOf(Take(calendar, w, s), id), n, retry, false)
  {
    var p, v := PartOf(w, id), Take(calendar, w, s);
    var c := Without(w.core, id);
    SoundNumbered(w);
    EmptyParts(p);
    WithoutSlice(w.core, id);
    assert SpecOf(c.mem, s.q, s.now) == SpecOf(w.core.mem, s.q, s.now);
    hide Sound, SliceOf, ScheduleTimer, Settled, Keys, SpecOf, FirstEnd, Token;
    ScheduleWithout(calendar, w.core, s.q, s.now, s.later, s.accepted);
    RegisterToken(calendar, c, s.q, s.now, s.later, s.accepted, n);
    RegisteredLog(calendar, w.core, s.q, s.now, s.later, s.accepted, n);
    if v.core != w.core {
      assert PartOf(v, id) == Part(SliceOf(v.core, id), map[], map[], map[]);
      WithoutSlice(v.core, id);
      SettledToken(SliceOf(Without(v.core, id), id), n);
      SamePending(w.core, v.core, id);
    }
  }

  // ----- Whole sessions -----

  lemma {:induction false} RunStages(calendar: Calendar, w: World, steps: seq<Step>, id: TimerId, n: nat, retry: PendingRetry,
                                     mayRegister: bool)
    requires Sound(w) && Possible(calendar, w, steps) && 2 <= retry.attempt
    requires Stage(PartOf(w, id), n, retry, mayRegister) && DelaySession(calendar, w, steps, id, mayRegister)
    ensures Stage(PartOf(Reach(calendar, w, steps), id), n, retry, false)
    decreases |steps|
  {
    hide Sound, Take, Enabled, PartOf, Before, Healed, Spoilt, Unregistered, Repeats;
    if steps != [] {
      var s := steps[0];
      var v := Take(calendar, w, s);
      StepSound(calendar, w, s);
      if s.Register? && s.q.id == id {
        if Repeats(calendar, w.core, s) && DelaySession(calendar, v, steps[1..], id, mayRegister) {
          RepeatStage(calendar, w, s, id, n, retry, mayRegister);
          RunStages(calendar, v, steps[1..], id, n, retry, mayRegister);
        } else {
          RegisterStage(calendar, w, s, id, n, retry);
          RunStages(calendar, v, steps[1..], id, n, retry, false);
        }
      } else {
        StageStep(calendar, w, s, id, n, retry, mayRegister);
        RunStages(calendar, v, steps[1..], id, n, retry, mayRegister);
      }
    }
  }

  /**
   A session that registers the timer once, with the delay policy, but starts with a retry on record: what
   it logs about the timer stays in the language of the policy if and only if the first of its runs that
   finishes does not fail.
   */
  lemma InheritedExact(calendar: Calendar, w: World, steps: seq<Step>, id: TimerId, n: nat, retry: PendingRetry)
    requires Sound(w) && Possible(calendar, w, steps) && DelaySession(calendar, w, steps, id, true)
    requires Keys(PartOf(w, id)) == {} && |SliceOf(w.core, id).events| == n
    requires SliceOf(w.core, id).pending == Some(retry) && 2 <= retry.attempt
    ensures var s := SliceOf(Reach(calendar, w, steps).core, id);
      n <= |s.events| && (s.spec.Some? ==> (SlicePhase(s, n).Broken? <==> FailsFirst(s.events[n..])))
  {
    assert Stage(PartOf(w, id), n, retry, true);
    RunStages(calendar, w, steps, id, n, retry, true);
    StageExact(PartOf(Reach(calendar, w, steps), id), n, retry, false);
    hide Reach, Possible, DelaySession, Sound, SliceOf, FailsFirst, Stage;
  }

  // ----- Retries on record -----

  /** Every retry on record is a second attempt or a later one. */
  ghost predicate RetriesLater(c: Core) {
    forall t :: t in c.mem.pendingRetries ==> 2 <= c.mem.pendingRetries[t].attempt
  }

  lemma AppendLater(c: Core, e: Event, accepted: bool)
    requires RetriesLater(c) && (e.RunRetrying? ==> 2 <= e.attempt)
    ensures RetriesLater(Append(c, e, accepted))
  {
  }

  lemma RescheduleLater(calendar: Calendar, c: Core, spec: TimerSpec, from: Time)
    requires RetriesLater(c)
    ensures RetriesLater(RescheduleFrom(calendar, c, spec, from))
  {
    RescheduleEffect(calendar, c, spec, from);
    hide RescheduleFrom;
  }

  lemma BeginLater(calendar: Calendar, c: Core, entry: ScheduledTimer, newId: RunId, now: Time, due: bool, start: bool)
    requires RetriesLater(c)
    ensures RetriesLater(Begin(calendar, c, entry, newId, now, due, start).core)
  {
    var id, run := entry.timer, OrElse(entry.run, newId);
    var cleared, e, f := ClearNext(c, id), RunDue(id, run, entry.at), RunStarted(id, run, now, entry.attempt);
    var skipped := RunSkippedOverlap(id, run, entry.at, now);
    assert RetriesLater(cleared);
    AppendLater(cleared, skipped, due);
    AppendLater(cleared, e, due);
    AppendLater(Append(cleared, e, due), f, start);
    if id in c.mem.specs {
      RescheduleLater(calendar, Append(cleared, skipped, due), c.mem.specs[id], entry.at);
      RescheduleLater(calendar, Append(Append(cleared, e, due), f, start), c.mem.specs[id], entry.at);
    }
    hide Append, RescheduleFrom, ClearNext;
  }

  lemma FinishLater(calendar: Calendar, c: Core, f: Flight, outcome: Result<(), string>, now: Time, first: bool, second: bool)
    requires RetriesLater(c)
    ensures RetriesLater(Finish(calendar, c, f, outcome, now, first, second))
  {
    var id, attempt := f.spec.id, CurrentAttempt(c.mem, f.spec.id);
    var ok := RunSucceeded(id, f.run, now, Elapsed(f.startedAt, now));
    AppendLater(c, ok, first);
    RescheduleLater(calendar, Append(c, ok, first), f.spec, now);
    if outcome.Err? {
      ErrLater(calendar, c, f, outcome.error, now, first, second);
    }
    hide Append, RescheduleFrom, FinishErr;
  }

  lemma RetryKeepsLater(c: Core, f: Flight, attempt: Attempt, at: Time, accepted: bool)
    requires RetriesLater(c) && attempt < U32_MAX
    ensures RetriesLater(RetryLater(c, f, attempt, at, accepted))
  {
    var u := UnscheduleUnlessDelay(c, f.spec);
    assert RetriesLater(u);
    AppendLater(u, RunRetrying(f.spec.id, f.run, attempt + 1, at), accepted);
    hide Append, Unschedule;
  }

  lemma GiveUpLater(calendar: Calendar, c: Core, f: Flight, now: Time, accepted: bool)
    requires RetriesLater(c)
    ensures RetriesLater(GiveUp(calendar, c, f, now, accepted))
  {
    var dead := RunDead(f.spec.id, f.run, now);
    AppendLater(c, dead, accepted);
    RescheduleLater(calendar, Append(c, dead, accepted), f.spec, now);
    hide Append, RescheduleFrom;
  }

  lemma ErrLater(calendar: Calendar, c: Core, f: Flight, error: string, now: Time, fail: bool, next: bool)
    requires RetriesLater(c)
    ensures RetriesLater(FinishErr(calendar, c, f, error, now, fail, next))
  {
    var attempt := CurrentAttempt(c.mem, f.spec.id);
    var e := RunFailed(f.spec.id, f.run, now, error, attempt);
    var d, r := Append(c, e, fail), NextRetryAt(f.spec.retry, now, attempt);
    BelowLimit(f.spec.retry, now, attempt);
    hide Append, RetryLater, GiveUp, NextRetryAt, CurrentAttempt, RetriesLater;
    AppendLater(c, e, fail);
    if r.RetryAt? {
      RetryKeepsLater(d, f, attempt, r.at, next);
    }
    GiveUpLater(calendar, d, f, now, next);
  }

  lemma StepLater(calendar: Calendar, w: World, s: Step)
    requires Sound(w) && Enabled(w, s) && RetriesLater(w.core)
    ensures RetriesLater(Take(calendar, w, s).core)
  {
    match s
    case Register(q, now, later, accepted) =>
      ScheduleWithout(calendar, w.core, q, now, later, accepted);
      hide ScheduleTimer;
    case BeginRun(k, newId, now, due, start) =>
      BeginLater(calendar, w.core, w.spawned[k], newId, now, due, start);
      hide Begin;
    case FinishRunning(k, outcome, now, first, second) =>
      FinishLater(calendar, w.core, w.executing[k], outcome, now, first, second);
      hide Finish, Panics;
    case Restart =>
      assert OnDisk(w.core).pendingRetries == w.core.mem.pendingRetries by {
        assert Agrees(w.core);
        assert DurableOf(w.core.mem) == DurableOf(OnDisk(w.core));
      }
      hide OnDisk;
    case _ =>
  }

  /** In every run a retry on record is a second attempt or a later one. */
  lemma {:induction false} RetriesOnRecord(calendar: Calendar, w: World, steps: seq<Step>)
    requires Sound(w) && Possible(calendar, w, steps) && RetriesLater(w.core)
    ensures RetriesLater(Reach(calendar, w, steps).core)
    decreases |steps|
  {
    hide Sound, Take, Enabled, RetriesLater;
    if steps != [] {
      StepSound(calendar, w, steps[0]);
      StepLater(calendar, w, steps[0]);
      RetriesOnRecord(calendar, Take(calendar, w, steps[0]), steps[1..]);
    }
  }
}
