/**
 The delay policy runs a timer as a single token: one entry or one run at a time, with a log that is
 regular in the timer's events.
 */
module EngineDelay {
  import opened Prelude
  import opened Retry
  import opened Schedules
  import opened Timers
  import opened Events
  import opened Heap
  import opened Engine
  import opened EngineRuns
  import opened EngineFrame
  import opened EngineParts

  // ----- The regular language of a delay timer -----

  datatype Phase =
    | Resting
    | Due(run: RunId, attempt: Attempt)
    | Active(run: RunId, attempt: Attempt)
    | Failing(run: RunId, attempt: Attempt)
    | Awaiting(run: RunId, attempt: Attempt)
    | Broken

  /** The automaton of (Due Started (Failed Retrying Due Started)* (Succeeded | Failed Dead))*. */
  function NextPhase(p: Phase, e: Event, maxAttempts: nat): Phase {
    match e
    case RunDue(_, run, _) =>
      if p.Resting? then Due(run, 1) else if p.Awaiting? && p.run == run then Due(run, p.attempt) else Broken
    case RunStarted(_, run, _, attempt) => if p == Due(run, attempt) then Active(run, attempt) else Broken
    case RunSucceeded(_, run, _, _) => if p.Active? && p.run == run then Resting else Broken
    case RunFailed(_, run, _, _, attempt) => if p == Active(run, attempt) then Failing(run, attempt) else Broken
    case RunRetrying(_, run, attempt, _) =>
      if p.Failing? && p.run == run && attempt == p.attempt + 1 && p.attempt < maxAttempts then Awaiting(run, attempt)
      else Broken
    case RunDead(_, run, _) => if p.Failing? && p.run == run && maxAttempts <= p.attempt then Resting else Broken
    case RunSkippedOverlap(_, _, _, _) => Broken
    case _ => p
  }

  function Phases(es: seq<Event>, maxAttempts: nat): Phase {
    if es == [] then Resting else NextPhase(Phases(es[..|es| - 1], maxAttempts), es[|es| - 1], maxAttempts)
  }

  function AtLeastOne(n: nat): nat {
    if n == 0 then 1 else n
  }

  lemma PhasesAppend(es: seq<Event>, e: Event, maxAttempts: nat)
    ensures Phases(es + [e], maxAttempts) == NextPhase(Phases(es, maxAttempts), e, maxAttempts)
  {
    assert (es + [e])[..|es|] == es;
  }

  /** In the language no attempt is numbered above the limit. */
  lemma {:induction false} AttemptsBounded(es: seq<Event>, maxAttempts: nat)
    requires !Phases(es, maxAttempts).Broken?
    ensures var p := Phases(es, maxAttempts);
      !p.Resting? ==> p.attempt <= AtLeastOne(maxAttempts)
    ensures forall i :: 0 <= i < |es| && es[i].RunStarted? ==> es[i].attempt <= AtLeastOne(maxAttempts)
  {
    if es != [] {
      AttemptsBounded(es[..|es| - 1], maxAttempts);
    }
  }

  // ----- The token -----

  function SlicePhase(s: Slice, n: nat): Phase
    requires s.spec.Some? && n <= |s.events|
  {
    Phases(s.events[n..], s.spec.value.retry.maxAttempts)
  }

  /** A waiting entry is either the next fresh run, or exactly the retry on record. */
  predicate EntryFits(e: ScheduledTimer, phase: Phase, pending: Option<PendingRetry>) {
    if e.run.None? then e.attempt == 1 && phase.Resting? && pending.None?
    else phase == Awaiting(e.run.value, e.attempt) && pending == Some(PendingRetry(e.run.value, e.at, e.attempt))
  }

  /** A run in flight is the one the log says is active, with its attempt on record if it is a retry. */
  predicate FlightFits(f: Flight, phase: Phase, spec: TimerSpec, pending: Option<PendingRetry>) {
    && f.callable && f.spec == spec
    && phase.Active? && phase.run == f.run
    && (if pending.None? then phase.attempt == 1 else pending.value.run == f.run && pending.value.attempt == phase.attempt)
  }

  /** Before its registration in this session: no token and no retry on record, and nothing logged. */
  predicate Idle(p: Part, n: nat) {
    Keys(p) == {} && p.core.pending.None? && |p.core.events| == n
  }

  predicate Delays(s: Slice, n: nat) {
    s.spec.Some? && s.spec.value.overlap.Delay? && n <= |s.events|
  }

  ghost predicate Token(p: Part, n: nat) {
    && Delays(p.core, n)
    && !SlicePhase(p.core, n).Broken?
    && (forall j, k :: j in Keys(p) && k in Keys(p) ==> j == k)
    && (forall k, e :: EntryAt(p, k, e) ==> EntryFits(e, SlicePhase(p.core, n), p.core.pending))
    && (forall k :: k in p.flying ==> FlightFits(p.flying[k], SlicePhase(p.core, n), p.core.spec.value, p.core.pending))
  }

  // ----- The token between blocks -----

  /** No run in flight: nothing is waiting, or one entry that fits. */
  ghost predicate Settled(s: Slice, n: nat) {
    && Delays(s, n)
    && !SlicePhase(s, n).Broken?
    && (s.waiting == map[] || exists k, e :: s.waiting == map[k := e] && EntryFits(e, SlicePhase(s, n), s.pending))
  }

  lemma SettledToken(s: Slice, n: nat)
    requires Settled(s, n)
    ensures Token(Part(s, map[], map[], map[]), n)
  {
    hide Phases, EntryFits;
  }

  lemma SameSettled(s: Slice, t: Slice, n: nat)
    requires Settled(s, n) && Same(t, s)
    ensures Settled(t, n)
  {
    hide Phases, EntryFits;
  }

  lemma LogOne(s: Slice, t: Slice, e: Event, n: nat)
    requires Delays(s, n) && t.spec == s.spec && t.events == s.events + [e]
    ensures Delays(t, n)
    ensures SlicePhase(t, n) == NextPhase(SlicePhase(s, n), e, s.spec.value.retry.maxAttempts)
  {
    assert t.events[n..] == s.events[n..] + [e];
    PhasesAppend(s.events[n..], e, s.spec.value.retry.maxAttempts);
  }

  /** Rescheduling a settled, resting timer with nothing waiting leaves it settled. */
  lemma RescheduleSettles(calendar: Calendar, c: Core, spec: TimerSpec, from: Time, n: nat)
    requires Numbered(c)
    requires var s := SliceOf(c, spec.id);
      Settled(s, n) && s.waiting == map[] && SlicePhase(s, n).Resting? && s.pending.None?
    ensures Settled(SliceOf(RescheduleFrom(calendar, c, spec, from), spec.id), n)
  {
    var s, t := SliceOf(c, spec.id), SliceOf(RescheduleFrom(calendar, c, spec, from), spec.id);
    RescheduleOwn(calendar, c, spec, from);
    hide SliceOf, RescheduleFrom, Phases;
    if Same(t, s) {
      SameSettled(s, t, n);
    } else {
      var next :| Same(t, s.(waiting := s.waiting[c.pushed := ScheduledTimer(spec.id, next, None, 1)]));
      assert t.waiting == map[c.pushed := ScheduledTimer(spec.id, next, None, 1)];
    }
  }

  /** The hypotheses under which a run of the timer is in flight. */
  ghost predicate InFlight(c: Core, f: Flight, n: nat) {
    var s := SliceOf(c, f.spec.id);
    Numbered(c) && Delays(s, n) && s.waiting == map[] && FlightFits(f, SlicePhase(s, n), s.spec.value, s.pending)
  }

  lemma OkSettles(calendar: Calendar, c: Core, f: Flight, now: Time, accepted: bool, n: nat)
    requires InFlight(c, f, n)
    ensures Settled(SliceOf(FinishOk(calendar, c, f, now, accepted), f.spec.id), n)
  {
    var id := f.spec.id;
    var e := RunSucceeded(id, f.run, now, Elapsed(f.startedAt, now));
    var s, d := SliceOf(c, id), Append(c, e, accepted);
    if accepted {
      AppendOwn(c, e, id);
      assert Numbered(d);
      hide SliceOf, RescheduleFrom, Phases;
      LogOne(s, SliceOf(d, id), e, n);
      RescheduleSettles(calendar, d, f.spec, now, n);
    } else {
      AppendRejected(c, e, id);
      hide SliceOf, RescheduleFrom, Phases;
    }
  }

  lemma GiveUpSettles(calendar: Calendar, c: Core, f: Flight, now: Time, accepted: bool, n: nat)
    requires f.spec.overlap.Delay? && Numbered(c)
    requires var s := SliceOf(c, f.spec.id);
      && Delays(s, n) && s.waiting == map[] && s.spec == Some(f.spec)
      && SlicePhase(s, n).Failing? && SlicePhase(s, n).run == f.run
      && f.spec.retry.maxAttempts <= SlicePhase(s, n).attempt
    ensures Settled(SliceOf(GiveUp(calendar, c, f, now, accepted), f.spec.id), n)
  {
    var id := f.spec.id;
    var e := RunDead(id, f.run, now);
    var s, d := SliceOf(c, id), Append(c, e, accepted);
    if accepted {
      AppendOwn(c, e, id);
      assert Numbered(d);
      hide SliceOf, RescheduleFrom, Phases;
      LogOne(s, SliceOf(d, id), e, n);
      RescheduleSettles(calendar, d, f.spec, now, n);
    } else {
      AppendRejected(c, e, id);
      hide SliceOf, RescheduleFrom, Phases;
    }
  }

  lemma PushSettles(c: Core, entry: ScheduledTimer, n: nat)
    requires Numbered(c)
    requires var s := SliceOf(c, entry.timer);
      Settled(s, n) && s.waiting == map[] && EntryFits(entry, SlicePhase(s, n), s.pending)
    ensures Settled(SliceOf(Push(c, entry), entry.timer), n)
  {
    PushOwn(c, entry);
    hide SliceOf, Phases, EntryFits;
    var u := SliceOf(Push(c, entry), entry.timer);
    assert u.waiting == map[c.pushed := entry];
  }

  lemma RetrySettles(c: Core, f: Flight, attempt: Attempt, at: Time, accepted: bool, n: nat)
    requires f.spec.overlap.Delay? && Numbered(c) && attempt < f.spec.retry.maxAttempts
    requires var s := SliceOf(c, f.spec.id);
      && Delays(s, n) && s.waiting == map[] && s.spec == Some(f.spec)
      && SlicePhase(s, n) == Failing(f.run, attempt)
    ensures Settled(SliceOf(RetryLater(c, f, attempt, at, accepted), f.spec.id), n)
  {
    var id := f.spec.id;
    var e := RunRetrying(id, f.run, attempt + 1, at);
    var s, d := SliceOf(c, id), Append(c, e, accepted);
    if accepted {
      AppendOwn(c, e, id);
      assert Numbered(d);
      hide SliceOf, Phases, Push, Append, Numbered;
      LogOne(s, SliceOf(d, id), e, n);
      PushSettles(d, ScheduledTimer(id, at, Some(f.run), attempt + 1), n);
    } else {
      AppendRejected(c, e, id);
      hide SliceOf, Phases;
    }
  }

  lemma ErrSettles(calendar: Calendar, c: Core, f: Flight, error: string, now: Time, fail: bool, next: bool, n: nat)
    requires InFlight(c, f, n) && !Panics(c, f, Err(error), now)
    ensures Settled(SliceOf(FinishErr(calendar, c, f, error, now, fail, next), f.spec.id), n)
  {
    var id := f.spec.id;
    var attempt := CurrentAttempt(c.mem, id);
    var e := RunFailed(id, f.run, now, error, attempt);
    var s, d := SliceOf(c, id), Append(c, e, fail);
    assert attempt == SlicePhase(s, n).attempt by { hide Phases; }
    if fail {
      AppendOwn(c, e, id);
      assert Numbered(d);
      hide SliceOf, Phases, RetryLater, GiveUp, Append;
      LogOne(s, SliceOf(d, id), e, n);
      RetryTimeExact(f.spec.retry, now, attempt);
      var r := NextRetryAt(f.spec.retry, now, attempt);
      hide NextRetryAt;
      if r.RetryAt? {
        RetrySettles(d, f, attempt, r.at, next, n);
      } else {
        GiveUpSettles(calendar, d, f, now, next, n);
      }
    } else {
      AppendRejected(c, e, id);
      hide SliceOf, Phases, Append;
    }
  }

  lemma FinishSettles(calendar: Calendar, c: Core, f: Flight, outcome: Result<(), string>, now: Time, first: bool, second: bool,
                      n: nat)
    requires InFlight(c, f, n) && !Panics(c, f, outcome, now)
    ensures Settled(SliceOf(Finish(calendar, c, f, outcome, now, first, second), f.spec.id), n)
  {
    hide FinishOk, FinishErr, Phases, Settled, Panics;
    if outcome.Ok? {
      OkSettles(calendar, c, f, now, first, n);
    } else {
      ErrSettles(calendar, c, f, outcome.error, now, first, second, n);
    }
    hide Concerning, OfTimer;
  }

  // ----- The start block -----

  lemma StartOwn(calendar: Calendar, c: Core, spec: TimerSpec, entry: ScheduledTimer, run: RunId, now: Time,
                 due: bool, start: bool, n: nat)
    requires spec.overlap.Delay? && spec.id == entry.timer && entry.timer in c.registry
    requires var s := SliceOf(c, entry.timer);
      && Delays(s, n) && s.waiting == map[] && s.spec == Some(spec)
      && EntryFits(entry, SlicePhase(s, n), s.pending) && (entry.run.Some? ==> run == entry.run.value)
    ensures var b := StartRun(calendar, c, spec, entry, run, now, due, start);
      var t := SliceOf(b.core, entry.timer);
      && Settled(t, n) && t.waiting == map[] && t.spec == Some(spec)
      && (b.flight.Some? ==> FlightFits(b.flight.value, SlicePhase(t, n), spec, t.pending))
  {
    var id := entry.timer;
    var e1, e2 := RunDue(id, run, entry.at), RunStarted(id, run, now, entry.attempt);
    var s, d := SliceOf(c, id), Append(c, e1, due);
    var g := Append(d, e2, start);
    hide Phases;
    if due {
      AppendOwn(c, e1, id);
      LogOne(s, SliceOf(d, id), e1, n);
      if start {
        AppendOwn(d, e2, id);
        LogOne(SliceOf(d, id), SliceOf(g, id), e2, n);
      } else {
        AppendRejected(d, e2, id);
      }
    } else {
      AppendRejected(c, e1, id);
    }
    CountOnly(d, id);
    CountOnly(g, id);
    hide SliceOf, Append, FinishRun;
  }

  lemma BeginOwn(calendar: Calendar, c: Core, entry: ScheduledTimer, newId: RunId, now: Time, due: bool, start: bool, n: nat)
    requires Known(c, entry.timer) && c.mem.specs[entry.timer].id == entry.timer
    requires var s := SliceOf(c, entry.timer);
      Delays(s, n) && s.waiting == map[] && EntryFits(entry, SlicePhase(s, n), s.pending)
    ensures var b := Begin(calendar, c, entry, newId, now, due, start);
      var t := SliceOf(b.core, entry.timer);
      && Settled(t, n) && t.waiting == map[] && t.spec == Some(c.mem.specs[entry.timer])
      && (b.flight.Some? ==> FlightFits(b.flight.value, SlicePhase(t, n), t.spec.value, t.pending))
  {
    var spec, cleared := c.mem.specs[entry.timer], ClearNext(c, entry.timer);
    NextRunsOnly(c, cleared, entry.timer);
    assert SliceOf(c, entry.timer).spec == Some(spec);
    hide Phases, StartRun, Settled, EntryFits, FlightFits, ClearNext, SliceOf;
    assert Same(SliceOf(cleared, entry.timer), SliceOf(c, entry.timer));
    StartOwn(calendar, cleared, spec, entry, OrElse(entry.run, newId), now, due, start, n);
  }

  // ----- Steps about the timer -----

  lemma SameDelays(s: Slice, t: Slice, n: nat)
    requires Delays(s, n) && t.spec == s.spec && t.events == s.events
    ensures Delays(t, n) && SlicePhase(t, n) == SlicePhase(s, n)
  {
  }

  lemma MovedToken(p: Part, q: Part, n: nat)
    requires Token(p, n) && Moved(p, q)
    ensures Token(q, n)
  {
    MovedKeys(p, q);
    SameDelays(p.core, q.core, n);
    hide EntryFits, FlightFits, SlicePhase, Delays, Keys, EntryAt;
  }

  lemma MovedIdle(p: Part, q: Part, n: nat)
    requires Idle(p, n) && Moved(p, q)
    ensures Idle(q, n)
  {
    MovedKeys(p, q);
    hide Keys;
  }

  /** A token in the hands of a spawned task is nowhere else. */
  lemma AloneSpawned(p: Part, k: nat, n: nat)
    requires Token(p, n) && k in p.spawned && k !in p.core.waiting && k !in p.popped && k !in p.flying
    ensures p == Part(p.core, map[], map[k := p.spawned[k]], map[]) && p.core.waiting == map[]
    ensures Delays(p.core, n) && EntryFits(p.spawned[k], SlicePhase(p.core, n), p.core.pending)
  {
    hide EntryFits, FlightFits, Phases;
    assert k in Keys(p) && EntryAt(p, k, p.spawned[k]);
    assert forall j :: j in p.core.waiting || j in p.popped || j in p.spawned || j in p.flying ==> j in Keys(p);
    assert p.spawned == map[k := p.spawned[k]];
  }

  lemma AloneFlying(p: Part, k: nat, n: nat)
    requires Token(p, n) && k in p.flying && k !in p.core.waiting && k !in p.popped && k !in p.spawned
    ensures p == Part(p.core, map[], map[], map[k := p.flying[k]]) && p.core.waiting == map[]
    ensures Delays(p.core, n) && FlightFits(p.flying[k], SlicePhase(p.core, n), p.core.spec.value, p.core.pending)
  {
    hide EntryFits, FlightFits, Phases;
    assert k in Keys(p);
    assert forall j :: j in p.core.waiting || j in p.popped || j in p.spawned || j in p.flying ==> j in Keys(p);
    assert p.flying == map[k := p.flying[k]];
  }

  lemma BeginToken(calendar: Calendar, w: World, k: nat, newId: RunId, now: Time, due: bool, start: bool, id: TimerId, n: nat)
    requires Sound(w) && k in w.spawned && w.spawned[k].timer == id && Token(PartOf(w, id), n)
    ensures Token(PartOf(AfterBegin(w, k, newId, now, Begin(calendar, w.core, w.spawned[k], newId, now, due, start)), id), n)
  {
    var b := Begin(calendar, w.core, w.spawned[k], newId, now, due, start);
    PlaceOf(w, k, id);
    SoundSpawned(w, k);
    hide Sound, SliceOf, Begin, SlicePhase, EntryFits, FlightFits, Token, OfTimer, FlightsOf, Settled, Delays, AfterBegin;
    AloneSpawned(PartOf(w, id), k, n);
    BeginOwn(calendar, w.core, w.spawned[k], newId, now, due, start, n);
    BeginRuntime(calendar, w.core, w.spawned[k], newId, now, due, start);
    BegunPart(w, k, newId, now, b, id);
    BegunToken(PartOf(w, id), SliceOf(b.core, id), k, b.flight, n);
  }

  /** The lone task leaves the spawned ones and, if it started, is in flight. */
  lemma BegunToken(p: Part, t: Slice, k: nat, flight: Option<Flight>, n: nat)
    requires k in p.spawned && p == Part(p.core, map[], map[k := p.spawned[k]], map[])
    requires Settled(t, n) && t.waiting == map[]
    requires flight.Some? ==> FlightFits(flight.value, SlicePhase(t, n), t.spec.value, t.pending)
    ensures Token(Part(t, p.popped, p.spawned - {k}, if flight.Some? then p.flying[k := flight.value] else p.flying), n)
  {
    hide Settled, Token, FlightFits, SlicePhase;
    assert p.spawned - {k} == map[];
    if flight.None? {
      SettledToken(t, n);
    } else {
      FlyingToken(t, k, flight.value, n);
    }
  }

  lemma FlyingToken(s: Slice, k: nat, f: Flight, n: nat)
    requires Settled(s, n) && s.waiting == map[] && FlightFits(f, SlicePhase(s, n), s.spec.value, s.pending)
    ensures Token(Part(s, map[], map[], map[k := f]), n)
  {
    hide Phases, FlightFits;
  }

  lemma FinishToken(calendar: Calendar, w: World, k: nat, outcome: Result<(), string>, now: Time, first: bool, second: bool,
                    id: TimerId, n: nat)
    requires Sound(w) && k in w.executing && w.executing[k].spec.id == id && Token(PartOf(w, id), n)
    requires !Panics(w.core, w.executing[k], outcome, now)
    ensures Token(PartOf(AfterFinish(w, k, now, Finish(calendar, w.core, w.executing[k], outcome, now, first, second)), id), n)
  {
    var c := Finish(calendar, w.core, w.executing[k], outcome, now, first, second);
    PlaceOf(w, k, id);
    SoundExecuting(w, k);
    hide Sound, SliceOf, Finish, SlicePhase, FlightFits, Token, OfTimer, FlightsOf, Settled, Delays, AfterFinish, Panics;
    AloneFlying(PartOf(w, id), k, n);
    FinishSettles(calendar, w.core, w.executing[k], outcome, now, first, second, n);
    FinishedPart(w, k, now, c, id);
    SettledToken(SliceOf(c, id), n);
  }

  // ----- Registration -----

  lemma RecordOwn(c: Core, q: Request, now: Time)
    requires Numbered(c)
    requires var s := SliceOf(c, q.id);
      s.waiting == map[] && s.pending.None?
    ensures var r := Registered(Record(c, q, now), q);
      var s, t := SliceOf(c, q.id), SliceOf(r, q.id);
      && Numbered(r) && t.waiting == map[] && t.pending.None? && t.spec == Some(SpecOf(c.mem, q, now))
      && (t.events == s.events || exists e: Event :: (e.TimerCreated? || e.TimerUpdated?) && t.events == s.events + [e])
  {
    var spec := SpecOf(c.mem, q, now);
    ConcerningAppend(c.log, TimerCreated(spec), q.id);
    ConcerningAppend(c.log, TimerUpdated(spec), q.id);
    hide Concerning;
    assert OfTimer(WithoutTimer(c.bag, q.id), q.id) == map[];
  }

  lemma RegisterToken(calendar: Calendar, c: Core, q: Request, now: Time, later: Time, accepted: bool, n: nat)
    requires Numbered(c)
    requires var s := SliceOf(c, q.id);
      s.waiting == map[] && s.pending.None? && |s.events| == n
    requires SpecOf(c.mem, q, now).overlap.Delay?
    ensures var r := ScheduleTimer(calendar, c, q, now, later, accepted);
      r.Accepted? ==> Settled(SliceOf(r.core, q.id), n)
  {
    var r := ScheduleTimer(calendar, c, q, now, later, accepted);
    if r.Accepted? {
      var g := Registered(Record(c, q, now), q);
      var spec := SpecOf(c.mem, q, now);
      RecordOwn(c, q, now);
      var s, t := SliceOf(c, q.id), SliceOf(g, q.id);
      assert SlicePhase(t, n) == Resting by {
        hide SliceOf, Record;
        if t.events == s.events {
          assert t.events[n..] == [];
        } else {
          var e: Event :| (e.TimerCreated? || e.TimerUpdated?) && t.events == s.events + [e];
          assert t.events[n..] == [] + [e];
          PhasesAppend([], e, spec.retry.maxAttempts);
        }
      }
      var next := NextRunAfter(calendar, spec.schedule, later, spec.timezone);
      hide Record, Registered, NextRunAfter, Phases;
      if r.core != g {
        PushNextSettles(g, q.id, next.value, n);
      }
    }
  }

  lemma PushNextSettles(c: Core, id: TimerId, next: Time, n: nat)
    requires Numbered(c)
    requires var s := SliceOf(c, id);
      Settled(s, n) && s.waiting == map[] && SlicePhase(s, n).Resting? && s.pending.None?
    ensures Settled(SliceOf(PushNext(c, id, next), id), n)
  {
    var d := c.(mem := c.mem.(nextRuns := c.mem.nextRuns[id := next]));
    NextRunsOnly(c, d, id);
    hide SliceOf, Phases;
    SameSettled(SliceOf(c, id), SliceOf(d, id), n);
    PushSettles(d, ScheduledTimer(id, next, None, 1), n);
  }

  // ----- Whole sessions -----

  /** Before its one registration the timer is idle, from then on it is one token. */
  ghost predicate OneToken(w: World, id: TimerId, n: nat, mayRegister: bool) {
    Idle(PartOf(w, id), n) || (!mayRegister && Token(PartOf(w, id), n))
  }

  /** The registration is refused, or nothing changed and no run is scheduled. */
  predicate Repeats(calendar: Calendar, c: Core, s: Step)
    requires s.Register?
  {
    ScheduleTimer(calendar, c, s.q, s.now, s.later, s.accepted).Refused?
    || (!NeedsRecord(c.mem, s.q, s.now)
        && (s.q.id in c.mem.nextRuns
            || NextRunAfter(calendar, s.q.schedule, s.later, SpecOf(c.mem, s.q, s.now).timezone).None?))
  }

  lemma RepeatStep(calendar: Calendar, w: World, s: Step, id: TimerId, n: nat)
    requires Enabled(w, s) && s.Register? && s.q.id == id && Repeats(calendar, w.core, s)
    ensures var p, q := PartOf(w, id), PartOf(Take(calendar, w, s), id);
      (Idle(p, n) ==> Idle(q, n)) && (Token(p, n) ==> Token(q, n))
  {
    var v := Take(calendar, w, s);
    var p, q := PartOf(w, id), PartOf(v, id);
    assert Same(q.core, p.core) by {
      assert SpecOf(w.core.mem, s.q, s.now).schedule == s.q.schedule;
      hide Concerning, OfTimer, NextRunAfter, SpecOf, Apply;
    }
    assert q.popped == p.popped && q.spawned == p.spawned && q.flying == p.flying;
    hide PartOf, Take, Token, Idle, Enabled, Repeats;
    SamePart(p, q, n);
  }

  lemma SamePart(p: Part, q: Part, n: nat)
    requires Same(q.core, p.core) && q.popped == p.popped && q.spawned == p.spawned && q.flying == p.flying
    ensures (Idle(p, n) ==> Idle(q, n)) && (Token(p, n) ==> Token(q, n))
  {
    assert Moved(p, q);
    if Idle(p, n) {
      hide Token;
      MovedIdle(p, q, n);
    }
    if Token(p, n) {
      hide Token, Idle;
      MovedToken(p, q, n);
    }
  }

  /**
   A session in which the timer is registered at most `mayRegister` times, with the delay policy, besides
   registrations that are refused or repeat what is on record and schedule nothing.
   */
  predicate DelaySession(calendar: Calendar, w: World, steps: seq<Step>, id: TimerId, mayRegister: bool)
    requires Possible(calendar, w, steps)
    decreases |steps|
  {
    steps == [] || (
      var s, rest := steps[0], steps[1..];
      if s.Register? && s.q.id == id then
        || (Repeats(calendar, w.core, s) && DelaySession(calendar, Take(calendar, w, s), rest, id, mayRegister))
        || (mayRegister && SpecOf(w.core.mem, s.q, s.now).overlap.Delay?
            && DelaySession(calendar, Take(calendar, w, s), rest, id, false))
      else !s.Restart? && DelaySession(calendar, Take(calendar, w, s), rest, id, mayRegister))
  }

  lemma RegisterStep(calendar: Calendar, w: World, s: Step, id: TimerId, n: nat)
    requires Sound(w) && Enabled(w, s) && s.Register? && s.q.id == id && SpecOf(w.core.mem, s.q, s.now).overlap.Delay?
    requires Idle(PartOf(w, id), n)
    ensures OneToken(Take(calendar, w, s), id, n, false)
  {
    var v := Take(calendar, w, s);
    SoundNumbered(w);
    IdleEmpty(PartOf(w, id), n);
    RegisterToken(calendar, w.core, s.q, s.now, s.later, s.accepted, n);
    hide Sound, SliceOf, ScheduleTimer, Settled, Keys, SpecOf;
    if v.core != w.core {
      assert PartOf(v, id) == Part(SliceOf(v.core, id), map[], map[], map[]);
      SettledToken(SliceOf(v.core, id), n);
    }
  }

  lemma IdleEmpty(p: Part, n: nat)
    requires Idle(p, n)
    ensures p.core.waiting == map[] && p.popped == map[] && p.spawned == map[] && p.flying == map[]
  {
    assert p.core.waiting.Keys <= Keys(p) && p.popped.Keys <= Keys(p) && p.spawned.Keys <= Keys(p) && p.flying.Keys <= Keys(p);
  }

  lemma TokenStep(calendar: Calendar, w: World, s: Step, id: TimerId, n: nat)
    requires Sound(w) && Enabled(w, s) && !s.Restart? && !(s.Register? && s.q.id == id)
    requires Token(PartOf(w, id), n)
    ensures Token(PartOf(Take(calendar, w, s), id), n)
  {
    var v := Take(calendar, w, s);
    hide Sound, Token, PartOf, AfterPop, AfterSpawn, AfterBegin, AfterFinish, Begin, Finish, ScheduleTimer, Panics;
    if !Touches(w, s, id) {
      StepElsewhere(calendar, w, s, id);
    } else {
      match s
      case Pop(now) =>
        PopMoves(w, now, id);
        MovedToken(PartOf(w, id), PartOf(v, id), n);
      case Spawn(k) =>
        SpawnMoves(w, k, id);
        MovedToken(PartOf(w, id), PartOf(v, id), n);
      case LeaveLoop =>
        LeaveMoves(w, id);
        MovedToken(PartOf(w, id), PartOf(v, id), n);
      case BeginRun(k, newId, now, due, start) => BeginToken(calendar, w, k, newId, now, due, start, id, n);
      case FinishRunning(k, outcome, now, first, second) =>
        FinishToken(calendar, w, k, outcome, now, first, second, id, n);
    }
  }

  lemma IdleStep(calendar: Calendar, w: World, s: Step, id: TimerId, n: nat)
    requires Sound(w) && Enabled(w, s) && !s.Restart? && !(s.Register? && s.q.id == id)
    requires Idle(PartOf(w, id), n)
    ensures Idle(PartOf(Take(calendar, w, s), id), n)
  {
    var v := Take(calendar, w, s);
    IdleEmpty(PartOf(w, id), n);
    NothingThere(w, s, id);
    hide Sound, Idle, PartOf, AfterPop, AfterSpawn, AfterBegin, AfterFinish, Begin, Finish, ScheduleTimer, Panics;
    if !Touches(w, s, id) {
      StepElsewhere(calendar, w, s, id);
    } else if s.Pop? {
      PopMoves(w, s.now, id);
      MovedIdle(PartOf(w, id), PartOf(v, id), n);
    } else {
      LeaveMoves(w, id);
      MovedIdle(PartOf(w, id), PartOf(v, id), n);
    }
  }

  lemma NothingThere(w: World, s: Step, id: TimerId)
    requires Enabled(w, s) && PartOf(w, id).popped == map[] && PartOf(w, id).spawned == map[] && PartOf(w, id).flying == map[]
    requires !s.Restart? && !(s.Register? && s.q.id == id)
    ensures Touches(w, s, id) ==> s.Pop? || s.LeaveLoop?
  {
    hide SliceOf, Panics;
    var p := PartOf(w, id);
    match s
    case Spawn(k) => assert w.popped[k].timer == id ==> k in p.popped;
    case BeginRun(k, _, _, _, _) => assert w.spawned[k].timer == id ==> k in p.spawned;
    case FinishRunning(k, _, _, _, _) => assert w.executing[k].spec.id == id ==> k in p.flying;
    case _ =>
  }

  /**
   A timer registered once in a session with the delay policy, but for registrations that repeat what is on
   record and schedule nothing, and with no retry left from before: in every interleaving at most one entry
   or run of it exists, a waiting retry is the one on record, and what the session logs about it is a prefix
   of (Due Started (Failed Retrying Due Started)* (Succeeded | Failed Dead))* with attempts 1, 2, ....
   */
  lemma {:induction false} DelayIsOneToken(calendar: Calendar, w: World, steps: seq<Step>, id: TimerId, n: nat,
                                           mayRegister: bool)
    requires Sound(w) && Possible(calendar, w, steps)
    requires OneToken(w, id, n, mayRegister) && DelaySession(calendar, w, steps, id, mayRegister)
    ensures OneToken(Reach(calendar, w, steps), id, n, false)
    decreases |steps|
  {
    hide Sound, Take, Enabled, PartOf, Token, Idle, Repeats;
    if steps != [] {
      var s := steps[0];
      StepSound(calendar, w, s);
      var v := Take(calendar, w, s);
      if s.Register? && s.q.id == id {
        if Repeats(calendar, w.core, s) && DelaySession(calendar, v, steps[1..], id, mayRegister) {
          RepeatStep(calendar, w, s, id, n);
          DelayIsOneToken(calendar, v, steps[1..], id, n, mayRegister);
        } else {
          RegisterStep(calendar, w, s, id, n);
          DelayIsOneToken(calendar, v, steps[1..], id, n, false);
        }
      } else {
        if Idle(PartOf(w, id), n) {
          IdleStep(calendar, w, s, id, n);
        } else {
          TokenStep(calendar, w, s, id, n);
        }
        DelayIsOneToken(calendar, v, steps[1..], id, n, mayRegister);
      }
    }
  }
}
