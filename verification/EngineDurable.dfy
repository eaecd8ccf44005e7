/** What the engine's memory owes to its files, and that compaction cannot be seen after a restart. */
module EngineDurable {
  import opened Prelude
  import opened Schedules
  import opened Timers
  import opened Events
  import opened Engine
  import opened EngineRuns
  import Snapshots

  lemma NewWorldSound()
    ensures Sound(NEW_WORLD)
  {
    assert InFile(NEW_CORE) == [];
  }

  /**
   In every run, whatever was interleaved, crashed, compacted or rejected by the log: the part of memory
   that the log determines is the fold of the events on file over the snapshot.
   */
  lemma WriteAhead(calendar: Calendar, steps: seq<Step>)
    requires Possible(calendar, NEW_WORLD, steps)
    ensures var c := Reach(calendar, NEW_WORLD, steps).core;
      DurableOf(c.mem) == DurableOf(OnDisk(c))
  {
    NewWorldSound();
    RunSound(calendar, NEW_WORLD, steps);
    hide OnDisk;
  }

  /** Opening forgets all that the log does not determine. */
  lemma OpenedAlike(m: Memory, n: Memory)
    requires Alike(m, n) && m.states.Keys == m.specs.Keys && m.fnNames == n.fnNames
    ensures Opened(m) == Opened(n)
  {
    assert m.states.Keys + m.specs.Keys == n.states.Keys + n.specs.Keys;
    assert forall id :: id in Opened(m).states ==> Opened(m).states[id] == Opened(n).states[id];
  }

  lemma OnDiskAlike(c: Core)
    requires Agrees(c)
    ensures Opened(OnDisk(c)) == Opened(Snapshots.Forget(c.mem))
  {
    Snapshots.ReplayKeepsFunctions(c.base, InFile(c));
    var m, n := Snapshots.Forget(c.mem), OnDisk(c);
    assert n.fnNames == map[];
    assert Alike(m, n);
    hide OnDisk, Alike, Opened;
    OpenedAlike(m, n);
  }

  /** Reopening gives the same engine state whether or not the engine was compacted just before. */
  lemma OpenAfterCompaction(w: World)
    requires Sound(w)
    ensures OpenedCore(Compacted(w.core)).mem == OpenedCore(w.core).mem
  {
    OnDiskAlike(w.core);
    assert InFile(Compacted(w.core)) == [];
  }

  /**
   The same for a compaction that crashes after any of its file steps: the files of the data directory
   still open to the engine state they stood for.
   */
  lemma OpenAfterCrash(codec: Snapshots.Codec, d: Snapshots.Disk, w: World, n: nat)
    requires Sound(w) && Snapshots.Sound(codec) && n <= Snapshots.COMPACTION_STEPS
    requires Snapshots.Load(codec, d) == Ok(OnDisk(w.core))
    ensures var loaded := Snapshots.Load(codec, Snapshots.CompactUntil(codec, d, w.core.mem, n));
      loaded.Ok? && Opened(loaded.value) == OpenedCore(w.core).mem
  {
    OnDiskAlike(w.core);
    hide *;
    OpenedMem(w.core);
    if n <= 2 {
      Snapshots.LoadBeforeSnapshot(codec, d, w.core.mem, n);
    } else {
      Snapshots.LoadAfterSnapshot(codec, d, w.core.mem, n);
    }
  }

  lemma OpenedMem(c: Core)
    ensures OpenedCore(c).mem == Opened(OnDisk(c))
  {
  }
}
