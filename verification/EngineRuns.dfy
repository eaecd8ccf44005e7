/**
 Runs of the embedded engine as interleavings of its lock-held blocks: registering timers, the loop
 popping and spawning, start and finish blocks of runs, shutdown, compaction, and restarts.
 */
module EngineRuns {
  import opened Prelude
  import opened Retry
  import opened Schedules
  import opened Timers
  import opened Events
  import opened Heap
  import opened Engine
  import Snapshots

  /**
   The core, the entries popped by the loop's current turn, the spawned tasks that have not entered
   their start block, and the runs between their two blocks, each under its push number; the latest
   clock reading; and the run ids handed out so far.
   */
  datatype World = World(core: Core, popped: Bag, spawned: Bag, executing: map<nat, Flight>, clock: Time,
                         used: set<RunId>)

  datatype Step =
    | Register(q: Request, now: Time, later: Time, accepted: bool)
    | StartLoop
    | Pop(now: Time)
    | Spawn(k: nat)
    | LeaveLoop
    | BeginRun(k: nat, newId: RunId, now: Time, dueAccepted: bool, startAccepted: bool)
    | FinishRunning(k: nat, outcome: Result<(), string>, now: Time, firstAccepted: bool, secondAccepted: bool)
    | BeginShutdown
    | EndShutdown
    | Compact
    | Restart

  const NEW_WORLD: World := World(NEW_CORE, map[], map[], map[], 0, {})

  /** A clock reading never precedes the last one, a new run id is one never used, and tasks exist. */
  predicate Enabled(w: World, s: Step) {
    match s
    case Register(_, now, later, _) => w.clock <= now <= later
    case Pop(now) => w.core.runtime.started && !w.core.runtime.shuttingDown && w.popped == map[] && w.clock <= now
    case Spawn(k) => k in w.popped && !w.core.runtime.shuttingDown
    case LeaveLoop => w.core.runtime.shuttingDown
    case BeginRun(k, newId, now, _, _) => k in w.spawned && newId !in w.used && w.clock <= now
    case FinishRunning(k, outcome, now, _, _) =>
      k in w.executing && w.clock <= now && !Panics(w.core, w.executing[k], outcome, now)
    case EndShutdown => w.core.runtime.shuttingDown && w.core.runtime.activeRuns == 0
    case _ => true
  }

  function AfterPop(w: World, now: Time): World {
    var due := DueKeys(w.core.bag, now);
    w.(core := w.core.(bag := w.core.bag - due), popped := map k | k in due :: w.core.bag[k], clock := now)
  }

  function AfterSpawn(w: World, k: nat): World
    requires k in w.popped
  {
    w.(core := Admitted(w.core), popped := w.popped - {k}, spawned := w.spawned[k := w.popped[k]])
  }

  function AfterBegin(w: World, k: nat, newId: RunId, now: Time, b: Begun): World {
    World(b.core, w.popped, w.spawned - {k},
          if b.flight.Some? then w.executing[k := b.flight.value] else w.executing, now, w.used + {newId})
  }

  function AfterFinish(w: World, k: nat, now: Time, c: Core): World {
    w.(core := c, executing := w.executing - {k}, clock := now)
  }

  function Take(calendar: Calendar, w: World, s: Step): World
    requires Enabled(w, s)
  {
    match s
    case Register(q, now, later, accepted) =>
      var r := ScheduleTimer(calendar, w.core, q, now, later, accepted);
      w.(core := if r.Accepted? then r.core else w.core, clock := later)
    case StartLoop =>
      if w.core.runtime.stopped || w.core.runtime.started then w
      else w.(core := w.core.(runtime := w.core.runtime.(started := true)))
    case Pop(now) => AfterPop(w, now)
    case Spawn(k) => AfterSpawn(w, k)
    case LeaveLoop => w.(popped := map[])
    case BeginRun(k, newId, now, dueAccepted, startAccepted) =>
      AfterBegin(w, k, newId, now, Begin(calendar, w.core, w.spawned[k], newId, now, dueAccepted, startAccepted))
    case FinishRunning(k, outcome, now, firstAccepted, secondAccepted) =>
      AfterFinish(w, k, now, Finish(calendar, w.core, w.executing[k], outcome, now, firstAccepted, secondAccepted))
    case BeginShutdown => w.(core := ShutdownBegun(w.core))
    case EndShutdown => w.(core := w.core.(runtime := w.core.runtime.(stopped := true)))
    case Compact => w.(core := Compacted(w.core))
    case Restart => World(OpenedCore(w.core), map[], map[], map[], w.clock, w.used)
  }

  // ----- What every state of a run satisfies -----

  /** Memory and files agree on everything the log determines. */
  ghost predicate Recorded(c: Core) {
    c.since <= |c.log| && Alike(c.mem, OnDisk(c)) && c.base.fnNames == map[]
  }

  /** Timers are kept under their ids, and those with a lifecycle state are those specified. */
  predicate Keyed(m: Memory) {
    m.states.Keys == m.specs.Keys && forall t :: t in m.specs ==> m.specs[t].id == t
  }

  ghost predicate Agrees(c: Core) {
    Recorded(c) && Keyed(c.mem)
  }

  /** A waiting or running entry belongs to a registered timer. */
  predicate Known(c: Core, id: TimerId) {
    id in c.mem.specs && id in c.registry
  }

  ghost predicate BagOk(c: Core, bag: Bag) {
    forall k :: k in bag ==> k < c.pushed && Known(c, bag[k].timer)
  }

  ghost predicate Apart(w: World) {
    && (forall k :: k in w.core.bag ==> k !in w.popped && k !in w.spawned && k !in w.executing)
    && (forall k :: k in w.popped ==> k !in w.spawned && k !in w.executing)
    && (forall k :: k in w.spawned ==> k !in w.executing)
  }

  /** An engine that stopped is shutting down or was never started. */
  predicate Orderly(r: Runtime) {
    r.stopped ==> r.shuttingDown || !r.started
  }

  ghost predicate Counted(w: World) {
    && Orderly(w.core.runtime)
    && w.core.runtime.activeRuns == |w.spawned| + |w.executing|
    && (!w.core.runtime.started ==> w.popped == map[] && w.spawned == map[] && w.executing == map[])
  }

  ghost predicate TasksOk(w: World) {
    && BagOk(w.core, w.core.bag) && BagOk(w.core, w.popped) && BagOk(w.core, w.spawned)
    && (forall k :: k in w.executing ==>
          k < w.core.pushed && w.executing[k].callable && Known(w.core, w.executing[k].spec.id))
    && Apart(w)
  }

  ghost predicate Sound(w: World) {
    Agrees(w.core) && TasksOk(w) && Counted(w)
  }

  /** What soundness says of a spawned entry and of an executing run. */
  lemma SoundSpawned(w: World, k: nat)
    requires Sound(w) && k in w.spawned
    ensures Numbered(w.core) && k !in w.executing && k < w.core.pushed
    ensures var id := w.spawned[k].timer;
      Known(w.core, id) && w.core.mem.specs[id].id == id
  {
    hide Recorded, Counted;
  }

  lemma SoundExecuting(w: World, k: nat)
    requires Sound(w) && k in w.executing
    ensures Numbered(w.core) && w.executing[k].callable && Known(w.core, w.executing[k].spec.id)
  {
    hide Agrees, Counted, Apart;
  }

  // ----- Runs -----

  predicate Possible(calendar: Calendar, w: World, steps: seq<Step>)
    decreases |steps|
  {
    steps == [] || (Enabled(w, steps[0]) && Possible(calendar, Take(calendar, w, steps[0]), steps[1..]))
  }

  function Reach(calendar: Calendar, w: World, steps: seq<Step>): World
    requires Possible(calendar, w, steps)
    decreases |steps|
  {
    if steps == [] then w else Reach(calendar, Take(calendar, w, steps[0]), steps[1..])
  }

  // ----- Each piece keeps the core sound -----

  /** What a block may do to the pieces of a core that other tasks rely on. */
  ghost predicate Grown(c: Core, d: Core) {
    && c.pushed <= d.pushed && c.mem.specs.Keys <= d.mem.specs.Keys && c.registry <= d.registry
    && forall k :: k in d.bag ==>
         (k in c.bag && d.bag[k] == c.bag[k]) || (c.pushed <= k < d.pushed && Known(d, d.bag[k].timer))
  }

  lemma GrownTwice(c: Core, d: Core, e: Core)
    requires Grown(c, d) && Grown(d, e)
    ensures Grown(c, e)
  {
  }

  /** The events a block may append: a specification, or something about an existing timer. */
  predicate About(m: Memory, e: Event) {
    e.TimerCreated? || Subject(e) in m.specs
  }

  lemma AppendKeeps(c: Core, e: Event, accepted: bool)
    requires Agrees(c) && About(c.mem, e)
    ensures Agrees(Append(c, e, accepted)) && Grown(c, Append(c, e, accepted))
  {
    hide Recorded, Apply, Keyed, About;
    AppendRecorded(c, e, accepted);
    ApplyKeyed(c.mem, e);
    ApplySpecs(c.mem, e);
  }

  lemma ApplyKeyed(m: Memory, e: Event)
    requires Keyed(m) && About(m, e)
    ensures Keyed(Apply(m, e))
  {
    ApplyTimers(m, e);
    ApplySpecs(m, e);
    hide Apply;
    assert Apply(m, e).states.Keys == Apply(m, e).specs.Keys;
  }

  lemma AppendRecorded(c: Core, e: Event, accepted: bool)
    requires Recorded(c)
    ensures Recorded(Append(c, e, accepted))
  {
    hide Apply, Alike;
    if accepted {
      var d := Append(c, e, accepted);
      assert InFile(d) == InFile(c) + [e];
      ReplayAppend(c.base, InFile(c), [e]);
      assert Replay(OnDisk(c), [e]) == Apply(OnDisk(c), e) by {
        assert [e][1..] == [];
      }
      ApplyAlike(c.mem, OnDisk(c), e);
    }
  }

  lemma ApplySpecs(m: Memory, e: Event)
    ensures Apply(m, e).specs == if e.TimerCreated? || e.TimerUpdated? then m.specs[e.spec.id := e.spec] else m.specs
  {
  }

  /** Changes that no log records. */
  lemma VolatileKeeps(c: Core, d: Core)
    requires Agrees(c)
    requires d.log == c.log && d.base == c.base && d.since == c.since
    requires DurableOf(d.mem) == DurableOf(c.mem) && d.mem.states.Keys == c.mem.states.Keys
    ensures Agrees(d)
  {
  }

  /** From `b`, a block has come to `c` and everything is still in order. */
  ghost predicate Keeps(b: Core, c: Core) {
    Agrees(c) && Grown(b, c)
  }

  lemma KeepsVolatile(b: Core, c: Core, d: Core)
    requires Keeps(b, c) && Grown(c, d)
    requires d.log == c.log && d.base == c.base && d.since == c.since
    requires DurableOf(d.mem) == DurableOf(c.mem) && d.mem.states.Keys == c.mem.states.Keys
    ensures Keeps(b, d)
  {
    VolatileKeeps(c, d);
    hide Agrees;
  }

  lemma KeepsFinishRun(b: Core, c: Core)
    requires Keeps(b, c)
    ensures Keeps(b, FinishRun(c))
  {
    hide Keeps;
    KeepsVolatile(b, c, FinishRun(c));
  }

  lemma KeepsUnschedule(b: Core, c: Core, id: TimerId)
    requires Keeps(b, c)
    ensures Keeps(b, ClearNext(c, id)) && Keeps(b, Unschedule(c, id))
  {
    hide Keeps;
    KeepsVolatile(b, c, ClearNext(c, id));
    KeepsVolatile(b, c, Unschedule(c, id));
  }

  lemma KeepsAppend(b: Core, c: Core, e: Event, accepted: bool)
    requires Keeps(b, c) && (e.TimerCreated? || Subject(e) in b.mem.specs)
    ensures Keeps(b, Append(c, e, accepted))
  {
    AppendKeeps(c, e, accepted);
    hide Agrees, Append;
    GrownTwice(b, c, Append(c, e, accepted));
  }

  lemma KeepsPush(b: Core, c: Core, entry: ScheduledTimer)
    requires Keeps(b, c) && Known(b, entry.timer)
    ensures Keeps(b, Push(c, entry)) && Keeps(b, PushNext(c, entry.timer, entry.at))
  {
    KeepsVolatile(b, c, Push(c, entry));
    KeepsVolatile(b, c, PushNext(c, entry.timer, entry.at));
    hide Agrees;
  }

  lemma KeepsReschedule(calendar: Calendar, b: Core, c: Core, spec: TimerSpec, from: Time)
    requires Keeps(b, c) && Known(b, spec.id)
    ensures Keeps(b, RescheduleFrom(calendar, c, spec, from))
  {
    hide Keeps, Known;
    var next := NextRunAfter(calendar, spec.schedule, from, spec.timezone);
    hide NextRunAfter;
    if next.Some? {
      KeepsPush(b, c, ScheduledTimer(spec.id, next.value, None, 1));
    }
    KeepsUnschedule(b, c, spec.id);
  }

  // ----- Each block keeps the core sound -----

  lemma ScheduleKeeps(calendar: Calendar, c: Core, q: Request, now: Time, later: Time, accepted: bool)
    requires Agrees(c)
    ensures var r := ScheduleTimer(calendar, c, q, now, later, accepted);
      r.Accepted? ==> Keeps(c, r.core)
  {
    RecordKeeps(c, q, now);
    var r := Record(c, q, now);
    var g := Registered(r, q);
    KeepsVolatile(c, r, g);
    hide Agrees, Record, Keeps, Registered, NextRunAfter;
    var s := ScheduleTimer(calendar, c, q, now, later, accepted);
    if s.Accepted? && q.id !in g.mem.nextRuns {
      var next := NextRunAfter(calendar, q.schedule, later, SpecOf(c.mem, q, now).timezone);
      if next.Some? {
        AddedKeeps(c, g, PushNext(g, q.id, next.value));
      }
    }
  }

  lemma AddedKeeps(b: Core, c: Core, d: Core)
    requires Keeps(b, c) && (exists id, next :: d == PushNext(c, id, next) && Known(c, id))
    ensures Keeps(b, d)
  {
    KeepsVolatile(b, c, d);
  }

  lemma RecordKeeps(c: Core, q: Request, now: Time)
    requires Agrees(c)
    ensures var r := Record(c, q, now);
      Keeps(c, r) && q.id in r.mem.specs && q.id in r.mem.states
  {
    var spec := SpecOf(c.mem, q, now);
    if q.id !in c.mem.specs {
      KeepsAppend(c, c, TimerCreated(spec), true);
    } else if c.mem.specs[q.id] != spec {
      KeepsAppend(c, c, TimerUpdated(spec), true);
      KeepsUnschedule(c, Append(c, TimerUpdated(spec), true), q.id);
    }
  }

  lemma SkipKeeps(calendar: Calendar, b: Core, c: Core, spec: TimerSpec, entry: ScheduledTimer, run: RunId, now: Time,
                  accepted: bool)
    requires Keeps(b, c) && Known(b, entry.timer) && spec.id == entry.timer
    ensures Keeps(b, SkipRun(calendar, c, spec, entry, run, now, accepted))
  {
    hide Append, RescheduleFrom, Keeps;
    var e := RunSkippedOverlap(entry.timer, run, entry.at, now);
    KeepsAppend(b, c, e, accepted);
    KeepsReschedule(calendar, b, Append(c, e, accepted), spec, entry.at);
  }

  lemma StartKeeps(calendar: Calendar, b: Core, c: Core, spec: TimerSpec, entry: ScheduledTimer, run: RunId, now: Time,
                   due: bool, start: bool)
    requires Keeps(b, c) && Known(b, entry.timer) && spec.id == entry.timer
    ensures Keeps(b, StartRun(calendar, c, spec, entry, run, now, due, start).core)
  {
    hide Append, RescheduleFrom, Keeps, FinishRun;
    var d := Append(c, RunDue(entry.timer, run, entry.at), due);
    var s := Append(d, RunStarted(entry.timer, run, now, entry.attempt), start);
    KeepsAppend(b, c, RunDue(entry.timer, run, entry.at), due);
    KeepsAppend(b, d, RunStarted(entry.timer, run, now, entry.attempt), start);
    KeepsReschedule(calendar, b, s, spec, entry.at);
    KeepsFinishRun(b, d);
    KeepsFinishRun(b, s);
  }

  lemma BeginKeeps(calendar: Calendar, c: Core, entry: ScheduledTimer, newId: RunId, now: Time, due: bool, start: bool)
    requires Agrees(c) && Known(c, entry.timer)
    ensures Keeps(c, Begin(calendar, c, entry, newId, now, due, start).core)
  {
    var id, run := entry.timer, OrElse(entry.run, newId);
    assert c.mem.specs[id].id == id && Keeps(c, c);
    hide Agrees, Keeps, ClearNext, SkipRun, StartRun, FinishRun;
    var cleared := ClearNext(c, id);
    KeepsUnschedule(c, c, id);
    SkipKeeps(calendar, c, cleared, c.mem.specs[id], entry, run, now, due);
    KeepsFinishRun(c, SkipRun(calendar, cleared, c.mem.specs[id], entry, run, now, due));
    StartKeeps(calendar, c, cleared, c.mem.specs[id], entry, run, now, due, start);
  }

  lemma MissingKeeps(b: Core, c: Core, f: Flight)
    requires Keeps(b, c) && Known(b, f.spec.id)
    ensures Keeps(b, FinishMissing(c, f))
  {
    KeepsUnschedule(b, c, f.spec.id);
    var u := UnscheduleUnlessDelay(c, f.spec);
    assert Keeps(b, u) && f.spec.id in u.mem.states;
    KeepsVolatile(b, u, FinishMissing(c, f));
  }

  lemma RetryKeeps(b: Core, c: Core, f: Flight, attempt: Attempt, at: Time, accepted: bool)
    requires Keeps(b, c) && Known(b, f.spec.id) && attempt < U32_MAX
    ensures Keeps(b, RetryLater(c, f, attempt, at, accepted))
  {
    var u := UnscheduleUnlessDelay(c, f.spec);
    var r := Append(u, RunRetrying(f.spec.id, f.run, attempt + 1, at), accepted);
    hide Append, Keeps, Push, Unschedule;
    KeepsUnschedule(b, c, f.spec.id);
    KeepsAppend(b, u, RunRetrying(f.spec.id, f.run, attempt + 1, at), accepted);
    KeepsPush(b, r, ScheduledTimer(f.spec.id, at, Some(f.run), attempt + 1));
  }

  lemma GiveUpKeeps(calendar: Calendar, b: Core, c: Core, f: Flight, now: Time, accepted: bool)
    requires Keeps(b, c) && Known(b, f.spec.id)
    ensures Keeps(b, GiveUp(calendar, c, f, now, accepted))
  {
    hide Append, Keeps, RescheduleFrom;
    KeepsAppend(b, c, RunDead(f.spec.id, f.run, now), accepted);
    KeepsReschedule(calendar, b, Append(c, RunDead(f.spec.id, f.run, now), accepted), f.spec, now);
  }

  lemma ErrKeeps(calendar: Calendar, c: Core, f: Flight, error: string, now: Time, fail: bool, next: bool)
    requires Keeps(c, c) && Known(c, f.spec.id)
    ensures Keeps(c, FinishErr(calendar, c, f, error, now, fail, next))
  {
    var attempt := CurrentAttempt(c.mem, f.spec.id);
    var e := RunFailed(f.spec.id, f.run, now, error, attempt);
    var failed := Append(c, e, fail);
    hide Append, Keeps, RetryLater, GiveUp;
    KeepsAppend(c, c, e, fail);
    var n := NextRetryAt(f.spec.retry, now, attempt);
    if n.RetryAt? {
      RetryKeeps(c, failed, f, attempt, n.at, next);
    }
    GiveUpKeeps(calendar, c, failed, f, now, next);
  }

  lemma OkKeeps(calendar: Calendar, c: Core, f: Flight, now: Time, accepted: bool)
    requires Keeps(c, c) && Known(c, f.spec.id)
    ensures Keeps(c, FinishOk(calendar, c, f, now, accepted))
  {
    hide Append, Keeps, RescheduleFrom;
    var e := RunSucceeded(f.spec.id, f.run, now, Elapsed(f.startedAt, now));
    KeepsAppend(c, c, e, accepted);
    KeepsReschedule(calendar, c, Append(c, e, accepted), f.spec, now);
  }

  lemma FinishKeeps(calendar: Calendar, c: Core, f: Flight, outcome: Result<(), string>, now: Time, first: bool, second: bool)
    requires Agrees(c) && Known(c, f.spec.id)
    ensures Keeps(c, Finish(calendar, c, f, outcome, now, first, second))
  {
    assert Keeps(c, c);
    hide Agrees, Keeps, FinishMissing, FinishOk, FinishErr, FinishRun;
    MissingKeeps(c, c, f);
    KeepsFinishRun(c, FinishMissing(c, f));
    OkKeeps(calendar, c, f, now, first);
    KeepsFinishRun(c, FinishOk(calendar, c, f, now, first));
    if outcome.Err? {
      ErrKeeps(calendar, c, f, outcome.error, now, first, second);
      KeepsFinishRun(c, FinishErr(calendar, c, f, outcome.error, now, first, second));
    }
  }

  // ----- Each step keeps the world sound -----

  lemma BeginRuntime(calendar: Calendar, c: Core, entry: ScheduledTimer, newId: RunId, now: Time, due: bool, start: bool)
    ensures var b := Begin(calendar, c, entry, newId, now, due, start);
      && b.core.runtime.started == c.runtime.started && (Orderly(c.runtime) ==> Orderly(b.core.runtime))
      && b.core.runtime.activeRuns == (if b.flight.None? && c.runtime.activeRuns > 0 then c.runtime.activeRuns - 1
                                       else c.runtime.activeRuns)
      && (b.flight.Some? ==>
            && entry.timer in c.mem.specs
            && b.flight.value == Flight(c.mem.specs[entry.timer], OrElse(entry.run, newId), now, entry.timer in c.registry))
  {
    hide Apply, NextRunAfter;
  }

  lemma FinishRuntime(calendar: Calendar, c: Core, f: Flight, outcome: Result<(), string>, now: Time, first: bool, second: bool)
    ensures var d := Finish(calendar, c, f, outcome, now, first, second);
      && d.runtime.started == c.runtime.started && (Orderly(c.runtime) ==> Orderly(d.runtime))
      && d.runtime.activeRuns == (if c.runtime.activeRuns > 0 then c.runtime.activeRuns - 1 else 0)
  {
    hide Apply, NextRunAfter, NextRetryAt;
  }

  lemma ScheduleRuntime(calendar: Calendar, c: Core, q: Request, now: Time, later: Time, accepted: bool)
    ensures var r := ScheduleTimer(calendar, c, q, now, later, accepted);
      r.Accepted? ==> r.core.runtime == c.runtime
  {
    hide Apply, NextRunAfter;
  }

  lemma TasksGrown(w: World, d: Core)
    requires TasksOk(w) && Keeps(w.core, d)
    ensures TasksOk(w.(core := d))
  {
    hide Agrees;
  }

  /** The clock and the used ids play no part. */
  lemma SameTasks(w: World, v: World)
    requires TasksOk(w) && v.popped == w.popped && v.spawned == w.spawned && v.executing == w.executing
    requires v.core.bag == w.core.bag && v.core.pushed == w.core.pushed && v.core.registry == w.core.registry
    requires v.core.mem.specs == w.core.mem.specs
    ensures TasksOk(v)
  {
  }

  lemma CountRemoved<V>(m: map<nat, V>, k: nat)
    requires k in m
    ensures |m - {k}| == |m| - 1
  {
    assert (m - {k}).Keys == m.Keys - {k};
    assert |m.Keys| == |m| && |(m - {k}).Keys| == |m - {k}|;
  }

  lemma CountAdded<V>(m: map<nat, V>, k: nat, v: V)
    requires k !in m
    ensures |m[k := v]| == |m| + 1
  {
    assert m[k := v].Keys == m.Keys + {k};
    assert |m.Keys| == |m| && |m[k := v].Keys| == |m[k := v]|;
  }

  lemma PopTasks(w: World, now: Time)
    requires TasksOk(w)
    ensures TasksOk(AfterPop(w, now))
  {
    var v := AfterPop(w, now);
    assert forall k :: k in v.core.bag ==> k in w.core.bag && k !in v.popped && v.core.bag[k] == w.core.bag[k];
    assert forall k :: k in v.popped ==> k in w.core.bag && v.popped[k] == w.core.bag[k];
  }

  lemma PopSound(w: World, now: Time)
    requires Sound(w) && w.core.runtime.started
    ensures Sound(AfterPop(w, now))
  {
    hide TasksOk;
    PopTasks(w, now);
    SameAgrees(w.core, AfterPop(w, now).core);
    hide Agrees;
  }

  lemma SameAgrees(c: Core, d: Core)
    requires Agrees(c) && d.mem == c.mem && d.log == c.log && d.base == c.base && d.since == c.since
    ensures Agrees(d)
  {
  }

  lemma SpawnTasks(w: World, k: nat)
    requires TasksOk(w) && k in w.popped
    ensures TasksOk(AfterSpawn(w, k))
  {
  }

  lemma SpawnSound(w: World, k: nat)
    requires Sound(w) && k in w.popped
    ensures Sound(AfterSpawn(w, k))
  {
    SpawnTasks(w, k);
    assert k !in w.spawned;
    CountAdded(w.spawned, k, w.popped[k]);
    hide TasksOk;
    SameAgrees(w.core, AfterSpawn(w, k).core);
    hide Agrees;
  }

  lemma BeginTasks(w: World, k: nat, newId: RunId, now: Time, b: Begun)
    requires TasksOk(w) && k in w.spawned && Grown(w.core, b.core)
    requires b.flight.Some? ==> b.flight.value.callable && b.flight.value.spec.id == w.spawned[k].timer
    ensures TasksOk(AfterBegin(w, k, newId, now, b))
  {
  }

  lemma BeginCounted(w: World, k: nat, newId: RunId, now: Time, b: Begun)
    requires Counted(w) && k in w.spawned && k !in w.executing
    requires b.core.runtime.started == w.core.runtime.started && Orderly(b.core.runtime)
    requires b.core.runtime.activeRuns == w.core.runtime.activeRuns - if b.flight.None? then 1 else 0
    ensures Counted(AfterBegin(w, k, newId, now, b))
  {
    CountRemoved(w.spawned, k);
    if b.flight.Some? {
      CountAdded(w.executing, k, b.flight.value);
    }
  }

  lemma SomethingCounted(w: World, k: nat)
    requires Counted(w) && (k in w.spawned || k in w.executing)
    ensures w.core.runtime.activeRuns > 0
  {
    if k in w.spawned {
      CountRemoved(w.spawned, k);
    } else {
      CountRemoved(w.executing, k);
    }
  }

  lemma BeginSound(calendar: Calendar, w: World, k: nat, newId: RunId, now: Time, due: bool, start: bool)
    requires Sound(w) && k in w.spawned
    ensures Sound(AfterBegin(w, k, newId, now, Begin(calendar, w.core, w.spawned[k], newId, now, due, start)))
  {
    var entry := w.spawned[k];
    assert k !in w.executing && Known(w.core, entry.timer) && w.core.mem.specs[entry.timer].id == entry.timer;
    BeginKeeps(calendar, w.core, entry, newId, now, due, start);
    BeginRuntime(calendar, w.core, entry, newId, now, due, start);
    var b := Begin(calendar, w.core, entry, newId, now, due, start);
    hide Begin, Agrees, TasksOk, Counted, Grown, AfterBegin;
    SomethingCounted(w, k);
    BeginTasks(w, k, newId, now, b);
    BeginCounted(w, k, newId, now, b);
    assert AfterBegin(w, k, newId, now, b).core == b.core by { BeginCore(w, k, newId, now, b); }
  }

  lemma BeginCore(w: World, k: nat, newId: RunId, now: Time, b: Begun)
    ensures AfterBegin(w, k, newId, now, b).core == b.core
  {
  }

  lemma FinishTasks(w: World, k: nat, now: Time, d: Core)
    requires TasksOk(w) && k in w.executing && Grown(w.core, d)
    ensures TasksOk(AfterFinish(w, k, now, d))
  {
  }

  lemma FinishSound(calendar: Calendar, w: World, k: nat, outcome: Result<(), string>, now: Time, first: bool, second: bool)
    requires Sound(w) && k in w.executing
    ensures Sound(AfterFinish(w, k, now, Finish(calendar, w.core, w.executing[k], outcome, now, first, second)))
  {
    var f := w.executing[k];
    assert Known(w.core, f.spec.id);
    FinishKeeps(calendar, w.core, f, outcome, now, first, second);
    FinishRuntime(calendar, w.core, f, outcome, now, first, second);
    var d := Finish(calendar, w.core, f, outcome, now, first, second);
    hide Finish, Agrees, Grown, TasksOk;
    FinishTasks(w, k, now, d);
    CountRemoved(w.executing, k);
  }

  lemma RegisterSound(calendar: Calendar, w: World, q: Request, now: Time, later: Time, accepted: bool)
    requires Sound(w)
    ensures var r := ScheduleTimer(calendar, w.core, q, now, later, accepted);
      Sound(w.(core := if r.Accepted? then r.core else w.core, clock := later))
  {
    hide ScheduleTimer, Agrees, TasksOk, Grown;
    var r := ScheduleTimer(calendar, w.core, q, now, later, accepted);
    ScheduleKeeps(calendar, w.core, q, now, later, accepted);
    ScheduleRuntime(calendar, w.core, q, now, later, accepted);
    if r.Accepted? {
      TasksGrown(w, r.core);
      SameTasks(w.(core := r.core), w.(core := r.core, clock := later));
    } else {
      SameTasks(w, w.(clock := later));
    }
  }

  lemma OpenedAgrees(c: Core)
    requires Agrees(c)
    ensures Agrees(OpenedCore(c))
  {
    hide Replay;
  }

  lemma CompactedAgrees(c: Core)
    requires Agrees(c)
    ensures Agrees(Compacted(c))
  {
    assert InFile(Compacted(c)) == [];
  }

  lemma RestartSound(w: World)
    requires Sound(w)
    ensures Sound(World(OpenedCore(w.core), map[], map[], map[], w.clock, w.used))
  {
    hide Agrees, Sound, Opened, OnDisk;
    assert Agrees(w.core) by { SoundAgrees(w); }
    OpenedAgrees(w.core);
    IdleSound(OpenedCore(w.core), w.clock, w.used);
  }

  lemma SoundAgrees(w: World)
    requires Sound(w)
    ensures Agrees(w.core)
  {
  }

  lemma IdleSound(c: Core, clock: Time, used: set<RunId>)
    requires Agrees(c) && c.bag == map[] && c.runtime == Runtime(false, false, false, 0)
    ensures Sound(World(c, map[], map[], map[], clock, used))
  {
    hide Agrees;
  }

  lemma CompactSound(w: World)
    requires Sound(w)
    ensures Sound(w.(core := Compacted(w.core)))
  {
    CompactedAgrees(w.core);
    SameTasks(w, w.(core := Compacted(w.core)));
    hide Agrees, TasksOk;
  }

  lemma RuntimeSound(w: World, r: Runtime)
    requires Sound(w) && r.activeRuns == w.core.runtime.activeRuns && (w.core.runtime.started ==> r.started) && Orderly(r)
    ensures Sound(w.(core := w.core.(runtime := r)))
  {
    VolatileKeeps(w.core, w.core.(runtime := r));
    SameTasks(w, w.(core := w.core.(runtime := r)));
    hide Agrees, TasksOk;
  }

  lemma LeaveSound(w: World)
    requires Sound(w)
    ensures Sound(w.(popped := map[]))
  {
    hide Agrees;
  }

  lemma StepSound(calendar: Calendar, w: World, s: Step)
    requires Sound(w) && Enabled(w, s)
    ensures Sound(Take(calendar, w, s))
  {
    hide Sound, AfterPop, AfterSpawn, AfterBegin, AfterFinish, Begin, Finish, ScheduleTimer, OpenedCore, Compacted;
    var r := w.core.runtime;
    match s
    case Register(q, now, later, accepted) => RegisterSound(calendar, w, q, now, later, accepted);
    case StartLoop =>
      if !r.stopped {
        RuntimeSound(w, r.(started := true));
      }
    case Pop(now) => PopSound(w, now);
    case Spawn(k) => SpawnSound(w, k);
    case LeaveLoop => LeaveSound(w);
    case BeginRun(k, newId, now, due, start) => BeginSound(calendar, w, k, newId, now, due, start);
    case FinishRunning(k, outcome, now, first, second) => FinishSound(calendar, w, k, outcome, now, first, second);
    case BeginShutdown =>
      if !r.started {
        RuntimeSound(w, r.(stopped := true));
      }
      RuntimeSound(w, r.(shuttingDown := true));
    case EndShutdown => RuntimeSound(w, r.(stopped := true));
    case Compact => CompactSound(w);
    case Restart => RestartSound(w);
  }

  /** In every run, memory agrees with the files, and no running or waiting entry lacks its function. */
  lemma {:induction false} RunSound(calendar: Calendar, w: World, steps: seq<Step>)
    requires Sound(w) && Possible(calendar, w, steps)
    ensures Sound(Reach(calendar, w, steps))
    decreases |steps|
  {
    hide Sound, Take, Enabled;
    if steps != [] {
      StepSound(calendar, w, steps[0]);
      RunSound(calendar, Take(calendar, w, steps[0]), steps[1..]);
    }
  }
}
