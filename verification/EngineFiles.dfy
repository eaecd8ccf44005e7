/** The bytes of the data directory along a run of the engine: they always load what the run says is on file. */
module EngineFiles {
  import opened Prelude
  import opened Retry
  import opened Schedules
  import opened Timers
  import opened Events
  import opened Heap
  import opened Engine
  import opened EngineRuns
  import opened EngineDurable
  import T = TextLog
  import S = Snapshots

  // ----- The files along a run -----

  /** The log entries of events appended at an instant. */
  function Stamped(es: seq<Event>, now: Time): (entries: seq<S.LogEntry>)
    ensures S.EventsOf(entries) == es
  {
    if es == [] then [] else [S.LogEntry(1, now, es[0])] + Stamped(es[1..], now)
  }

  function NewEvents(w: World, v: World): seq<Event> {
    if |w.core.log| <= |v.core.log| then v.core.log[|w.core.log|..] else []
  }

  /**
   What a step from `w` to `v` does to the files. A compaction ends after `cut` of its file steps, and a
   process may die in a compaction that has not replaced the snapshot, after `cut` steps of it.
   */
  function FilesAfter(codec: S.Codec, d: S.Disk, w: World, v: World, s: Step, cut: nat): S.Disk {
    match s
    case Compact => S.CompactUntil(codec, d, w.core.mem, cut)
    case Restart =>
      var left := S.CompactUntil(codec, d, w.core.mem, cut);
      left.(aof := Some(S.Contents(left.aof)))
    case _ => S.AppendTo(codec, d, Stamped(NewEvents(w, v), v.clock))
  }

  /** Compactions are cut off before they rotate the log, or complete. */
  predicate Cut(s: Step, cut: nat) {
    (s.Compact? ==> 3 <= cut <= 4 || cut == S.COMPACTION_STEPS) && (s.Restart? ==> cut <= 2)
  }

  predicate AllCut(steps: seq<Step>, cuts: seq<nat>) {
    |cuts| == |steps| && forall i :: 0 <= i < |steps| ==> Cut(steps[i], cuts[i])
  }

  function FilesReached(codec: S.Codec, calendar: Calendar, d: S.Disk, w: World, steps: seq<Step>, cuts: seq<nat>): S.Disk
    requires Possible(calendar, w, steps) && |cuts| == |steps|
    decreases |steps|
  {
    if steps == [] then d
    else
      var v := Take(calendar, w, steps[0]);
      FilesReached(codec, calendar, FilesAfter(codec, d, w, v, steps[0], cuts[0]), v, steps[1..], cuts[1..])
  }

  const NO_FILES: S.Disk := S.Disk(None, None, None, None)

  // ----- What they hold -----

  ghost predicate HoldsBase(codec: S.Codec, snapshot: Option<string>, base: Memory, offset: nat) {
    if snapshot.None? then base == BLANK && offset == 0
    else exists m :: snapshot == Some(S.SnapshotText(codec, m, offset)) && S.Forget(m) == base
  }

  ghost predicate HoldsLog(codec: S.Codec, text: string, es: seq<Event>) {
    exists entries :: text == T.WriteAll(codec.entries, entries) && S.EventsOf(entries) == es
  }

  /** The snapshot, and the log behind the offset it states, are what the core speaks of. */
  ghost predicate HoldsFrom(codec: S.Codec, d: S.Disk, c: Core, offset: nat) {
    && HoldsBase(codec, d.snapshot, c.base, offset) && offset <= |S.Contents(d.aof)|
    && HoldsLog(codec, S.Contents(d.aof)[offset..], InFile(c))
  }

  ghost predicate Holds(codec: S.Codec, d: S.Disk, c: Core) {
    exists offset: nat :: HoldsFrom(codec, d, c, offset)
  }

  /** Files that hold a core load the state it has on file. */
  lemma HeldLoads(codec: S.Codec, d: S.Disk, c: Core)
    requires S.Sound(codec) && Holds(codec, d, c)
    ensures S.Load(codec, d) == Ok(OnDisk(c))
  {
    var offset: nat :| HoldsFrom(codec, d, c, offset);
    var text := S.Contents(d.aof)[offset..];
    var entries :| text == T.WriteAll(codec.entries, entries) && S.EventsOf(entries) == InFile(c);
    S.ReadWritten(codec, S.Aof, entries);
    assert T.After(S.Contents(d.aof), offset) == text;
    if d.snapshot.Some? {
      var m :| d.snapshot == Some(S.SnapshotText(codec, m, offset)) && S.Forget(m) == c.base;
      S.LoadSnapshot(codec, d, m, offset);
    } else {
      assert text == S.Contents(d.aof);
    }
    hide S.Sound, InFile, S.ReadLog, T.WriteAll, S.SnapshotText, S.EventsOf;
  }

  lemma {:induction false} EventsOfBoth(es: seq<S.LogEntry>, fs: seq<S.LogEntry>)
    ensures S.EventsOf(es + fs) == S.EventsOf(es) + S.EventsOf(fs)
  {
    if es == [] {
      assert es + fs == fs;
    } else {
      assert (es + fs)[1..] == es[1..] + fs;
      EventsOfBoth(es[1..], fs);
    }
  }

  lemma LogAppended(codec: S.Codec, text: string, before: seq<Event>, es: seq<Event>, now: Time)
    requires HoldsLog(codec, text, before)
    ensures HoldsLog(codec, text + T.WriteAll(codec.entries, Stamped(es, now)), before + es)
  {
    var entries :| text == T.WriteAll(codec.entries, entries) && S.EventsOf(entries) == before;
    var all := entries + Stamped(es, now);
    T.WriteAllAppend(codec.entries, entries, Stamped(es, now));
    EventsOfBoth(entries, Stamped(es, now));
    hide T.WriteAll, S.EventsOf, Stamped;
    assert text + T.WriteAll(codec.entries, Stamped(es, now)) == T.WriteAll(codec.entries, all);
    assert S.EventsOf(all) == before + es;
  }

  lemma AppendedHolds(codec: S.Codec, d: S.Disk, c: Core, e: Core, es: seq<Event>, now: Time)
    requires Holds(codec, d, c) && c.since <= |c.log|
    requires e.log == c.log + es && e.base == c.base && e.since == c.since
    ensures Holds(codec, S.AppendTo(codec, d, Stamped(es, now)), e)
  {
    var offset: nat :| HoldsFrom(codec, d, c, offset);
    var f := S.AppendTo(codec, d, Stamped(es, now));
    var text, more := S.Contents(d.aof), T.WriteAll(codec.entries, Stamped(es, now));
    assert InFile(e) == InFile(c) + es;
    assert S.Contents(f.aof) == text + more && (text + more)[offset..] == text[offset..] + more;
    hide InFile, T.WriteAll, HoldsLog, HoldsBase, Stamped;
    LogAppended(codec, text[offset..], InFile(c), es, now);
    assert HoldsFrom(codec, f, e, offset);
  }

  lemma NothingLogged(codec: S.Codec)
    ensures HoldsLog(codec, "", [])
  {
    assert "" == T.WriteAll(codec.entries, []) && S.EventsOf([]) == [];
  }

  lemma CompactedHolds(codec: S.Codec, d: S.Disk, c: Core, cut: nat)
    requires 3 <= cut <= 4 || cut == S.COMPACTION_STEPS
    ensures Holds(codec, S.CompactUntil(codec, d, c.mem, cut), Compacted(c))
  {
    var f, text := S.CompactUntil(codec, d, c.mem, cut), S.Contents(d.aof);
    var offset := if cut < S.COMPACTION_STEPS then |text| else 0;
    S.FilesAfterSnapshot(codec, d, c.mem, cut);
    assert InFile(Compacted(c)) == [];
    NothingLogged(codec);
    hide S.CompactUntil, S.SnapshotText, HoldsLog;
    assert S.Contents(f.aof)[offset..] == "";
    assert HoldsFrom(codec, f, Compacted(c), offset);
  }

  /** A compaction that has not replaced the snapshot has touched the temporary file only. */
  lemma BarelyCompacted(codec: S.Codec, d: S.Disk, m: Memory, cut: nat)
    requires cut <= 2
    ensures var f := S.CompactUntil(codec, d, m, cut); f.snapshot == d.snapshot && f.aof == d.aof
  {
    hide S.SnapshotText;
  }

  // ----- The log only grows -----

  /** A block appends to the log and leaves what is behind the snapshot alone. */
  predicate Appends(c: Core, d: Core) {
    c.log <= d.log && d.base == c.base && d.since == c.since
  }

  lemma BeginAppends(calendar: Calendar, c: Core, entry: ScheduledTimer, newId: RunId, now: Time, due: bool, start: bool)
    ensures Appends(c, Begin(calendar, c, entry, newId, now, due, start).core)
  {
    hide Apply, NextRunAfter;
  }

  lemma FinishAppends(calendar: Calendar, c: Core, f: Flight, outcome: Result<(), string>, now: Time, first: bool, second: bool)
    ensures Appends(c, Finish(calendar, c, f, outcome, now, first, second))
  {
    hide Apply, NextRunAfter, NextRetryAt;
  }

  lemma ScheduleAppends(calendar: Calendar, c: Core, q: Request, now: Time, later: Time, accepted: bool)
    ensures var r := ScheduleTimer(calendar, c, q, now, later, accepted);
      r.Accepted? ==> Appends(c, r.core)
  {
    hide Apply, NextRunAfter;
  }

  lemma StepAppends(calendar: Calendar, w: World, s: Step)
    requires Enabled(w, s) && !s.Compact?
    ensures Appends(w.core, Take(calendar, w, s).core)
  {
    hide Begin, Finish, ScheduleTimer, Panics, OnDisk;
    match s
    case Register(q, now, later, accepted) => ScheduleAppends(calendar, w.core, q, now, later, accepted);
    case BeginRun(k, newId, now, due, start) => BeginAppends(calendar, w.core, w.spawned[k], newId, now, due, start);
    case FinishRunning(k, outcome, now, first, second) =>
      FinishAppends(calendar, w.core, w.executing[k], outcome, now, first, second);
    case _ =>
  }

  lemma RestartKeepsLog(calendar: Calendar, w: World)
    ensures var c := Take(calendar, w, Restart).core;
      c.log == w.core.log && c.base == w.core.base && c.since == w.core.since
  {
  }

  lemma OpenedHolds(codec: S.Codec, d: S.Disk, f: S.Disk, c: Core, e: Core)
    requires Holds(codec, d, c) && e.log == c.log && e.base == c.base && e.since == c.since
    requires f.snapshot == d.snapshot && f.aof == d.aof
    ensures Holds(codec, f.(aof := Some(S.Contents(f.aof))), e)
  {
    assert InFile(e) == InFile(c);
    var offset: nat :| HoldsFrom(codec, d, c, offset);
    hide InFile, HoldsBase, HoldsLog;
    assert HoldsFrom(codec, f.(aof := Some(S.Contents(f.aof))), e, offset);
  }

  lemma StepHolds(codec: S.Codec, calendar: Calendar, d: S.Disk, w: World, s: Step, cut: nat)
    requires Sound(w) && Enabled(w, s) && Holds(codec, d, w.core) && Cut(s, cut)
    ensures var v := Take(calendar, w, s);
      Holds(codec, FilesAfter(codec, d, w, v, s, cut), v.core)
  {
    var v := Take(calendar, w, s);
    hide Sound, Take, Enabled, Holds, S.CompactUntil, S.AppendTo, InFile, Compacted, Stamped, NewEvents, Appends;
    SoundRecorded(w);
    match s
    case Compact =>
      TakesCompact(calendar, w);
      CompactedHolds(codec, d, w.core, cut);
    case Restart =>
      RestartKeepsLog(calendar, w);
      BarelyCompacted(codec, d, w.core.mem, cut);
      OpenedHolds(codec, d, S.CompactUntil(codec, d, w.core.mem, cut), w.core, v.core);
    case _ =>
      StepAppends(calendar, w, s);
      NewHolds(codec, d, w, v);
  }

  lemma NewHolds(codec: S.Codec, d: S.Disk, w: World, v: World)
    requires Holds(codec, d, w.core) && w.core.since <= |w.core.log| && Appends(w.core, v.core)
    ensures Holds(codec, S.AppendTo(codec, d, Stamped(NewEvents(w, v), v.clock)), v.core)
  {
    hide Holds, S.AppendTo, Stamped;
    assert v.core.log == w.core.log + NewEvents(w, v);
    AppendedHolds(codec, d, w.core, v.core, NewEvents(w, v), v.clock);
  }

  lemma TakesCompact(calendar: Calendar, w: World)
    ensures Take(calendar, w, Compact).core == Compacted(w.core)
  {
  }

  lemma SoundRecorded(w: World)
    requires Sound(w)
    ensures w.core.since <= |w.core.log|
  {
    hide TasksOk, Counted, Alike, Keyed;
  }

  lemma {:induction false} RunHolds(codec: S.Codec, calendar: Calendar, d: S.Disk, w: World, steps: seq<Step>, cuts: seq<nat>)
    requires Sound(w) && Possible(calendar, w, steps) && Holds(codec, d, w.core) && AllCut(steps, cuts)
    ensures Holds(codec, FilesReached(codec, calendar, d, w, steps, cuts), Reach(calendar, w, steps).core)
    decreases |steps|
  {
    hide Sound, Take, Enabled, Holds, FilesAfter, Cut;
    if steps != [] {
      var v := Take(calendar, w, steps[0]);
      StepSound(calendar, w, steps[0]);
      StepHolds(codec, calendar, d, w, steps[0], cuts[0]);
      RunHolds(codec, calendar, FilesAfter(codec, d, w, v, steps[0], cuts[0]), v, steps[1..], cuts[1..]);
    }
  }

  lemma NothingHeld(codec: S.Codec)
    ensures Holds(codec, NO_FILES, NEW_CORE)
  {
    NothingLogged(codec);
    assert S.Contents(NO_FILES.aof)[0..] == "" && InFile(NEW_CORE) == [];
    hide HoldsLog, InFile;
    assert HoldsFrom(codec, NO_FILES, NEW_CORE, 0);
  }

  /**
   From an empty directory, after any run of the engine in which compactions complete or are cut off before
   they rotate the log: the bytes of its files load the state that the run has on file, and still open to it
   after a compaction that crashes at any of its steps.
   */
  lemma FilesSurviveCrash(codec: S.Codec, calendar: Calendar, steps: seq<Step>, cuts: seq<nat>, n: nat)
    requires S.Sound(codec) && Possible(calendar, NEW_WORLD, steps) && AllCut(steps, cuts) && n <= S.COMPACTION_STEPS
    ensures var w := Reach(calendar, NEW_WORLD, steps);
      var d := FilesReached(codec, calendar, NO_FILES, NEW_WORLD, steps, cuts);
      var loaded := S.Load(codec, S.CompactUntil(codec, d, w.core.mem, n));
      && S.Load(codec, d) == Ok(OnDisk(w.core))
      && loaded.Ok? && Opened(loaded.value) == OpenedCore(w.core).mem
  {
    assert |cuts| == |steps|;
    hide *;
    NewWorldSound();
    NothingHeld(codec);
    NewCore();
    RunSound(calendar, NEW_WORLD, steps);
    RunHolds(codec, calendar, NO_FILES, NEW_WORLD, steps, cuts);
    var w := Reach(calendar, NEW_WORLD, steps);
    var d := FilesReached(codec, calendar, NO_FILES, NEW_WORLD, steps, cuts);
    HeldLoads(codec, d, w.core);
    OpenAfterCrash(codec, d, w, n);
  }

  lemma NewCore()
    ensures NEW_WORLD.core == NEW_CORE
  {
  }
}
