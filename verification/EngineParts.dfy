/** One timer's part of the world, and how the blocks about it and about other timers change it. */
module EngineParts {
  import opened Prelude
  import opened Retry
  import opened Schedules
  import opened Timers
  import opened Events
  import opened Heap
  import opened Engine
  import opened EngineRuns
  import opened EngineFrame

  datatype Part = Part(core: Slice, popped: Bag, spawned: Bag, flying: map<nat, Flight>)

  function FlightsOf(executing: map<nat, Flight>, id: TimerId): map<nat, Flight> {
    map k | k in executing && executing[k].spec.id == id :: executing[k]
  }

  function PartOf(w: World, id: TimerId): Part {
    Part(SliceOf(w.core, id), OfTimer(w.popped, id), OfTimer(w.spawned, id), FlightsOf(w.executing, id))
  }

  /** All the places the timer's token may be. */
  function Keys(p: Part): set<nat> {
    p.core.waiting.Keys + p.popped.Keys + p.spawned.Keys + p.flying.Keys
  }

  predicate EntryAt(p: Part, k: nat, e: ScheduledTimer) {
    (k in p.core.waiting && p.core.waiting[k] == e) || (k in p.popped && p.popped[k] == e)
    || (k in p.spawned && p.spawned[k] == e)
  }

  // ----- A timer's own pieces -----

  function PendingAfter(pending: Option<PendingRetry>, e: Event): Option<PendingRetry> {
    match e
    case RunRetrying(_, run, attempt, at) => Some(PendingRetry(run, at, attempt))
    case RunSucceeded(_, _, _, _) => None
    case RunDead(_, _, _) => None
    case _ => pending
  }

  lemma ApplyPending(m: Memory, e: Event)
    ensures Look(Apply(m, e).pendingRetries, Subject(e)) == PendingAfter(Look(m.pendingRetries, Subject(e)), e)
  {
  }

  /** The parts of a slice that the token depends on: all but the lifecycle state and the next run. */
  predicate Same(s: Slice, t: Slice) {
    s.spec == t.spec && s.pending == t.pending && s.waiting == t.waiting && s.events == t.events
  }

  lemma AppendOwn(c: Core, e: Event, id: TimerId)
    requires Subject(e) == id && !e.TimerCreated? && !e.TimerUpdated?
    ensures var s := SliceOf(c, id);
      Same(SliceOf(Append(c, e, true), id), s.(pending := PendingAfter(s.pending, e), events := s.events + [e]))
  {
    ApplyPending(c.mem, e);
    ApplySpecs(c.mem, e);
    ConcerningAppend(c.log, e, id);
    hide Apply, Concerning, OfTimer;
  }

  lemma AppendRejected(c: Core, e: Event, id: TimerId)
    ensures SliceOf(Append(c, e, false), id) == SliceOf(c, id)
  {
    hide Apply, Concerning, OfTimer;
  }

  lemma PushOwn(c: Core, entry: ScheduledTimer)
    requires Numbered(c)
    ensures var s := SliceOf(c, entry.timer);
      c.pushed !in s.waiting && SliceOf(Push(c, entry), entry.timer) == s.(waiting := s.waiting[c.pushed := entry])
  {
    assert OfTimer(c.bag[c.pushed := entry], entry.timer) == OfTimer(c.bag, entry.timer)[c.pushed := entry];
    hide Concerning;
  }

  /** Rescheduling adds nothing, or a fresh entry. */
  lemma RescheduleOwn(calendar: Calendar, c: Core, spec: TimerSpec, from: Time)
    requires Numbered(c)
    ensures var s, t := SliceOf(c, spec.id), SliceOf(RescheduleFrom(calendar, c, spec, from), spec.id);
      Same(t, s) || (c.pushed !in s.waiting && exists next ::
        Same(t, s.(waiting := s.waiting[c.pushed := ScheduledTimer(spec.id, next, None, 1)])))
  {
    var next := NextRunAfter(calendar, spec.schedule, from, spec.timezone);
    hide NextRunAfter;
    if !Halting(c) && next.Some? {
      var d := c.(mem := c.mem.(nextRuns := c.mem.nextRuns[spec.id := next.value]));
      NextRunsOnly(c, d, spec.id);
      PushOwn(d, ScheduledTimer(spec.id, next.value, None, 1));
    } else {
      NextRunsOnly(c, ClearNext(c, spec.id), spec.id);
    }
    hide SliceOf;
  }

  lemma NextRunsOnly(c: Core, d: Core, id: TimerId)
    requires d == c.(mem := c.mem.(nextRuns := d.mem.nextRuns))
    ensures Same(SliceOf(d, id), SliceOf(c, id))
  {
    hide Concerning, OfTimer;
  }

  lemma CountOnly(c: Core, id: TimerId)
    ensures SliceOf(FinishRun(c), id) == SliceOf(c, id)
  {
    hide Concerning, OfTimer;
  }

  // ----- Steps about other timers -----

  /** The steps that may touch the timer's part of the world. */
  predicate Touches(w: World, s: Step, id: TimerId)
    requires Enabled(w, s)
  {
    match s
    case Register(q, _, _, _) => q.id == id
    case Pop(_) => true
    case Spawn(k) => w.popped[k].timer == id
    case LeaveLoop => true
    case BeginRun(k, _, _, _, _) => w.spawned[k].timer == id
    case FinishRunning(k, _, _, _, _) => w.executing[k].spec.id == id
    case Restart => true
    case _ => false
  }

  lemma SpawnElsewhere(w: World, k: nat, id: TimerId)
    requires k in w.popped && k !in w.spawned && w.popped[k].timer != id
    ensures PartOf(AfterSpawn(w, k), id) == PartOf(w, id)
  {
    hide Concerning;
    assert OfTimer(w.popped - {k}, id) == OfTimer(w.popped, id);
    assert OfTimer(w.spawned[k := w.popped[k]], id) == OfTimer(w.spawned, id);
  }

  lemma AddedElsewhere(w: World, k: nat, newId: RunId, now: Time, b: Begun, id: TimerId)
    requires k in w.spawned && k !in w.executing && w.spawned[k].timer != id && Elsewhere(w.core, b.core, id)
    requires b.flight.Some? ==> b.flight.value.spec.id != id
    ensures PartOf(AfterBegin(w, k, newId, now, b), id) == PartOf(w, id)
  {
    hide SliceOf;
    assert OfTimer(w.spawned - {k}, id) == OfTimer(w.spawned, id);
    assert FlightsOf(AfterBegin(w, k, newId, now, b).executing, id) == FlightsOf(w.executing, id);
  }

  lemma RemovedElsewhere(w: World, k: nat, now: Time, c: Core, id: TimerId)
    requires k in w.executing && w.executing[k].spec.id != id && Elsewhere(w.core, c, id)
    ensures PartOf(AfterFinish(w, k, now, c), id) == PartOf(w, id)
  {
    hide SliceOf;
    assert FlightsOf(w.executing - {k}, id) == FlightsOf(w.executing, id);
  }

  lemma RuntimeElsewhere(c: Core, d: Core, id: TimerId)
    ensures d.mem == c.mem && d.bag == c.bag && d.log == c.log ==> SliceOf(d, id) == SliceOf(c, id)
  {
  }

  lemma SoundPopped(w: World, k: nat)
    requires Sound(w) && k in w.popped
    ensures k !in w.spawned
  {
    hide Agrees, BagOk, Counted;
  }

  lemma SoundNumbered(w: World)
    requires Sound(w)
    ensures Numbered(w.core)
  {
    hide Agrees, Apart, Counted;
  }

  lemma StepElsewhere(calendar: Calendar, w: World, s: Step, id: TimerId)
    requires Sound(w) && Enabled(w, s) && !Touches(w, s, id)
    ensures PartOf(Take(calendar, w, s), id) == PartOf(w, id)
  {
    SoundNumbered(w);
    var v := Take(calendar, w, s);
    hide Sound, AfterSpawn, AfterBegin, AfterFinish, SliceOf, Begin, Finish, ScheduleTimer, Elsewhere;
    match s
    case Register(q, now, later, accepted) =>
      ScheduleElsewhere(calendar, w.core, q, now, later, accepted, id);
      ElsewhereSlice(w.core, v.core, id);
    case Spawn(k) =>
      SoundPopped(w, k);
      SpawnElsewhere(w, k, id);
    case BeginRun(k, newId, now, due, start) =>
      SoundSpawned(w, k);
      BeginElsewhere(calendar, w.core, w.spawned[k], newId, now, due, start, id);
      BeginRuntime(calendar, w.core, w.spawned[k], newId, now, due, start);
      AddedElsewhere(w, k, newId, now, Begin(calendar, w.core, w.spawned[k], newId, now, due, start), id);
    case FinishRunning(k, outcome, now, first, second) =>
      FinishElsewhere(calendar, w.core, w.executing[k], outcome, now, first, second, id);
      RemovedElsewhere(w, k, now, Finish(calendar, w.core, w.executing[k], outcome, now, first, second), id);
    case _ =>
      RuntimeElsewhere(w.core, v.core, id);
  }

  lemma ElsewhereSlice(b: Core, c: Core, id: TimerId)
    ensures Elsewhere(b, c, id) ==> SliceOf(c, id) == SliceOf(b, id)
  {
  }

  // ----- Steps about the timer -----

  /** Entries may move between places, or be dropped. */
  ghost predicate Moved(p: Part, q: Part) {
    && q.core.spec == p.core.spec && q.core.pending == p.core.pending && q.core.events == p.core.events
    && q.flying == p.flying
    && forall k, e :: EntryAt(q, k, e) ==> EntryAt(p, k, e)
  }

  lemma KeysOf(p: Part, k: nat)
    ensures k in Keys(p) <==> k in p.flying || exists e :: EntryAt(p, k, e)
  {
    if k in p.core.waiting {
      assert EntryAt(p, k, p.core.waiting[k]);
    } else if k in p.popped {
      assert EntryAt(p, k, p.popped[k]);
    } else if k in p.spawned {
      assert EntryAt(p, k, p.spawned[k]);
    }
  }

  lemma MovedKeys(p: Part, q: Part)
    requires Moved(p, q)
    ensures Keys(q) <= Keys(p)
  {
    forall k | k in Keys(q) ensures k in Keys(p) {
      KeysOf(q, k);
      KeysOf(p, k);
    }
  }

  lemma PopMoves(w: World, now: Time, id: TimerId)
    requires w.popped == map[]
    ensures Moved(PartOf(w, id), PartOf(AfterPop(w, now), id))
  {
    hide Concerning;
  }

  lemma SpawnMoves(w: World, k: nat, id: TimerId)
    requires k in w.popped
    ensures Moved(PartOf(w, id), PartOf(AfterSpawn(w, k), id))
  {
    hide Concerning;
  }

  lemma LeaveMoves(w: World, id: TimerId)
    ensures Moved(PartOf(w, id), PartOf(w.(popped := map[]), id))
  {
    hide Concerning;
  }

  lemma PlaceOf(w: World, k: nat, id: TimerId)
    requires Sound(w)
    ensures k in w.spawned && w.spawned[k].timer == id ==>
      var p := PartOf(w, id);
      k in p.spawned && p.spawned[k] == w.spawned[k] && k !in p.core.waiting && k !in p.popped && k !in p.flying
    ensures k in w.executing && w.executing[k].spec.id == id ==>
      var p := PartOf(w, id);
      k in p.flying && p.flying[k] == w.executing[k] && k !in p.core.waiting && k !in p.popped && k !in p.spawned
  {
    assert Apart(w) by { hide Agrees, BagOk, Counted; }
    hide Sound, Concerning;
  }

  lemma BegunPart(w: World, k: nat, newId: RunId, now: Time, b: Begun, id: TimerId)
    requires k in w.spawned && k !in w.executing && w.spawned[k].timer == id
    requires b.flight.Some? ==> b.flight.value.spec.id == id
    ensures var p := PartOf(w, id);
      PartOf(AfterBegin(w, k, newId, now, b), id)
      == Part(SliceOf(b.core, id), p.popped, p.spawned - {k},
              if b.flight.Some? then p.flying[k := b.flight.value] else p.flying)
  {
    hide SliceOf;
    var p, after := PartOf(w, id), AfterBegin(w, k, newId, now, b).executing;
    assert OfTimer(w.spawned - {k}, id) == p.spawned - {k};
    assert FlightsOf(after, id) == if b.flight.Some? then p.flying[k := b.flight.value] else p.flying;
  }

  lemma FinishedPart(w: World, k: nat, now: Time, c: Core, id: TimerId)
    requires k in w.executing
    ensures var p := PartOf(w, id);
      PartOf(AfterFinish(w, k, now, c), id) == Part(SliceOf(c, id), p.popped, p.spawned, p.flying - {k})
  {
    hide SliceOf;
    assert FlightsOf(w.executing - {k}, id) == FlightsOf(w.executing, id) - {k};
  }
}
