/**
 Snapshots and compaction of the embedded engine (`snapshot.rs`): the files of a data directory,
 loading them, and compaction as a sequence of file steps that a crash may cut short anywhere.
 */
module Snapshots {
  import opened Prelude
  import opened Timers
  import opened Events
  import opened TextLog

  const SNAPSHOT_VERSION: nat := 1
  const STORAGE_FORMAT_VERSION: nat := 1

  datatype Snapshot = Snapshot(v: nat, formatVersion: nat, lastAofOffset: nat, specs: map<TimerId, TimerSpec>,
                               states: map<TimerId, TimerState>, lastRuns: map<TimerId, LastRun>,
                               nextRuns: map<TimerId, Time>, retries7d: map<TimerId, nat>,
                               pendingRetries: map<TimerId, PendingRetry>)

  datatype LogEntry = LogEntry(v: nat, ts: Time, event: Event)

  datatype SnapshotJson = SnapshotJson(encode: Snapshot -> string, decode: string -> Option<Snapshot>)

  datatype Codec = Codec(entries: TextLog.Json<LogEntry>, snapshots: SnapshotJson)

  ghost predicate Sound(codec: Codec) {
    && Faithful(codec.entries)
    && forall s: Snapshot :: codec.snapshots.decode(codec.snapshots.encode(s) + "\n") == Some(s)
  }

  datatype LogFile = Aof | OldAof

  datatype LoadError =
    | UnreadableSnapshot
    | UnsupportedVersion(v: nat)
    | UnsupportedFormat(v: nat)
    | OldAofMissing(offset: nat)
    | CorruptLog(file: LogFile, line: nat)

  /** The files of a data directory; None is a file that does not exist. */
  datatype Disk = Disk(aof: Option<string>, oldAof: Option<string>, snapshot: Option<string>, tmp: Option<string>)

  function Contents(file: Option<string>): string {
    if file.Some? then file.value else ""
  }

  // ----- Snapshots and states -----

  function FromState(m: Memory, offset: nat): Snapshot {
    Snapshot(SNAPSHOT_VERSION, STORAGE_FORMAT_VERSION, offset, m.specs, m.states, m.lastRuns, m.nextRuns,
             m.retries7d, m.pendingRetries)
  }

  function IntoState(s: Snapshot): Result<Memory, LoadError> {
    if s.v != SNAPSHOT_VERSION then Err(UnsupportedVersion(s.v))
    else if s.formatVersion != STORAGE_FORMAT_VERSION then Err(UnsupportedFormat(s.formatVersion))
    else Ok(Memory(s.specs, s.states, map[], s.lastRuns, s.nextRuns, s.retries7d, s.pendingRetries))
  }

  /** All of a state but the functions bound to it. */
  function Forget(m: Memory): Memory {
    m.(fnNames := map[])
  }

  /** A snapshot carries everything but the functions. */
  lemma SnapshotRoundTrip(m: Memory, offset: nat)
    ensures IntoState(FromState(m, offset)) == Ok(Forget(m))
  {
  }

  // ----- Loading -----

  function EventsOf(entries: seq<LogEntry>): (es: seq<Event>)
    ensures |es| == |entries|
  {
    if entries == [] then [] else [entries[0].event] + EventsOf(entries[1..])
  }

  function ReadLog(codec: Codec, file: LogFile, content: string): Result<seq<LogEntry>, LoadError> {
    match TextLog.Replay(codec.entries, content)
    case Ok(entries) => Ok(entries)
    case Err(line) => Err(CorruptLog(file, line))
  }

  /** The entries behind a snapshot that reaches up to `offset`. */
  function EntriesSince(codec: Codec, d: Disk, offset: nat): Result<seq<LogEntry>, LoadError> {
    if offset > |Contents(d.aof)| then
      if d.oldAof.None? then Err(OldAofMissing(offset))
      else
        var before := ReadLog(codec, OldAof, After(d.oldAof.value, offset));
        if before.Err? then before
        else
          var since := ReadLog(codec, Aof, Contents(d.aof));
          if since.Err? then since else Ok(before.value + since.value)
    else ReadLog(codec, Aof, After(Contents(d.aof), offset))
  }

  function Resume(m: Memory, entries: Result<seq<LogEntry>, LoadError>): Result<Memory, LoadError> {
    match entries
    case Ok(es) => Ok(Events.Replay(m, EventsOf(es)))
    case Err(error) => Err(error)
  }

  /** The state that the files stand for. */
  function Load(codec: Codec, d: Disk): Result<Memory, LoadError> {
    if d.snapshot.None? then Resume(BLANK, ReadLog(codec, Aof, Contents(d.aof)))
    else
      var snapshot := codec.snapshots.decode(d.snapshot.value);
      if snapshot.None? then Err(UnreadableSnapshot)
      else
        var m := IntoState(snapshot.value);
        if m.Err? then m
        else Resume(m.value, EntriesSince(codec, d, snapshot.value.lastAofOffset))
  }

  // ----- Compaction, step by step -----

  /** The first `n` of: create the temporary file, write it, rename it over the snapshot. */
  function WriteUntil(d: Disk, text: string, n: nat): Disk {
    if n == 0 then d
    else if n == 1 then d.(tmp := Some(""))
    else if n == 2 then d.(tmp := Some(text))
    else d.(tmp := None, snapshot := Some(text))
  }

  /** The first `n` of: remove the old log, rename the log to the old log, create an empty log. */
  function RotateUntil(d: Disk, n: nat): Disk {
    var removed := if d.aof.Some? then d.(oldAof := None) else d;
    var renamed := if d.aof.Some? then d.(aof := None, oldAof := d.aof) else d;
    if n == 0 then d else if n == 1 then removed else if n == 2 then renamed else renamed.(aof := Some(""))
  }

  const COMPACTION_STEPS: nat := 9

  function SnapshotText(codec: Codec, m: Memory, offset: nat): string {
    codec.snapshots.encode(FromState(m, offset)) + "\n"
  }

  /** The files after the first `n` steps of compacting the state `m`. */
  function CompactUntil(codec: Codec, d: Disk, m: Memory, n: nat): Disk {
    var written := WriteUntil(d, SnapshotText(codec, m, |Contents(d.aof)|), Least(n, 3));
    var rotated := RotateUntil(written, Least(Minus(n, 3), 3));
    WriteUntil(rotated, SnapshotText(codec, m, 0), Minus(n, 6))
  }

  function Least(a: nat, b: nat): nat {
    if a <= b then a else b
  }

  function Minus(a: nat, b: nat): nat {
    if a <= b then 0 else a - b
  }

  /** The data directory as the source works on it; `until` is the step at which a crash stops it. */
  class DataDir {
    const codec: Codec
    var aof: Option<string>
    var oldAof: Option<string>
    var snapshot: Option<string>
    var tmp: Option<string>

    constructor (codec: Codec, d: Disk)
      ensures this.codec == codec && Files() == d
    {
      this.codec := codec;
      aof, oldAof, snapshot, tmp := d.aof, d.oldAof, d.snapshot, d.tmp;
    }

    function Files(): Disk
      reads this
    {
      Disk(aof, oldAof, snapshot, tmp)
    }

    method ReplayFile(file: LogFile, offset: nat) returns (r: Result<seq<LogEntry>, LoadError>)
      requires file.OldAof? ==> oldAof.Some?
      modifies this`aof
      ensures r == ReadLog(codec, file, After(if file.OldAof? then old(oldAof.value) else Contents(old(aof)), offset))
      ensures aof == if file.Aof? && old(aof).None? then Some("") else old(aof)
    {
      var content := Contents(oldAof);
      if file.Aof? {
        if aof.None? {
          aof := Some("");
        }
        content := aof.value;
      }
      var log := new AppendOnlyLog(codec.entries, content);
      var replayed := log.ReplayFrom(offset);
      match replayed {
        case Ok(entries) => r := Ok(entries);
        case Err(line) => r := Err(CorruptLog(file, line));
      }
    }

    /** Loads the state; the only change to the files is that a missing log may be created empty. */
    method LoadState() returns (r: Result<Memory, LoadError>)
      modifies this`aof
      ensures r == Load(codec, old(Files()))
      ensures aof == old(aof) || (old(aof).None? && aof == Some(""))
      ensures r.Ok? ==> aof.Some?
    {
      if snapshot.Some? {
        var parsed := codec.snapshots.decode(snapshot.value);
        if parsed.None? {
          return Err(UnreadableSnapshot);
        }
        var offset := parsed.value.lastAofOffset;
        var state := IntoState(parsed.value);
        if state.Err? {
          return state;
        }
        var entries: seq<LogEntry>;
        if offset > |Contents(aof)| {
          if oldAof.None? {
            return Err(OldAofMissing(offset));
          }
          var before := ReplayFile(OldAof, offset);
          if before.Err? {
            return Err(before.error);
          }
          var since := ReplayFile(Aof, 0);
          if since.Err? {
            return Err(since.error);
          }
          entries := before.value + since.value;
        } else {
          var since := ReplayFile(Aof, offset);
          if since.Err? {
            return Err(since.error);
          }
          entries := since.value;
        }
        return Ok(Events.Replay(state.value, EventsOf(entries)));
      }
      var since := ReplayFile(Aof, 0);
      if since.Err? {
        return Err(since.error);
      }
      return Ok(Events.Replay(BLANK, EventsOf(since.value)));
    }

    method WriteSnapshotAtomic(m: Memory, offset: nat, until: nat)
      modifies this
      ensures Files() == WriteUntil(old(Files()), SnapshotText(codec, m, offset), until)
    {
      if until == 0 { return; }
      tmp := Some("");
      if until == 1 { return; }
      tmp := Some(codec.snapshots.encode(FromState(m, offset)) + "\n");
      if until == 2 { return; }
      snapshot, tmp := tmp, None;
    }

    method Compact(m: Memory, until: nat)
      modifies this
      ensures Files() == CompactUntil(codec, old(Files()), m, until)
    {
      var offset := |Contents(aof)|;
      WriteSnapshotAtomic(m, offset, Least(until, 3));
      if until <= 3 { return; }
      if aof.Some? {
        oldAof := None;
        if until == 4 { return; }
        aof, oldAof := None, aof;
      }
      if until <= 5 { return; }
      aof := Some("");
      WriteSnapshotAtomic(m, 0, until - 6);
    }

    method CompactReadOnly() returns (r: Result<Memory, LoadError>)
      modifies this
      ensures r == Load(codec, old(Files()))
      ensures r.Err? ==> Files().(aof := None) == old(Files().(aof := None))
      ensures r.Ok? ==> Sound(codec) ==> Load(codec, Files()) == r
    {
      r := LoadState();
      if r.Ok? {
        ghost var d := Files();
        Compact(r.value, COMPACTION_STEPS);
        if Sound(codec) {
          LoadForgets(codec, old(Files()));
          AfterSnapshot(codec, d, r.value, COMPACTION_STEPS, []);
        }
      }
    }
  }

  // ----- Crash safety -----

  function AppendTo(codec: Codec, d: Disk, entries: seq<LogEntry>): Disk {
    d.(aof := Some(Contents(d.aof) + WriteAll(codec.entries, entries)))
  }

  lemma {:induction false} ReplayKeepsFunctions(m: Memory, es: seq<Event>)
    ensures Events.Replay(m, es).fnNames == m.fnNames
    decreases |es|
  {
    hide Events.Apply;
    if es != [] {
      ApplyKeepsFunctions(m, es[0]);
      ReplayKeepsFunctions(Events.Apply(m, es[0]), es[1..]);
    }
  }

  lemma ApplyKeepsFunctions(m: Memory, e: Event)
    ensures Events.Apply(m, e).fnNames == m.fnNames
  {
  }

  /** A loaded state has no functions bound. */
  lemma LoadForgets(codec: Codec, d: Disk)
    requires Load(codec, d).Ok?
    ensures Forget(Load(codec, d).value) == Load(codec, d).value
  {
    if d.snapshot.None? {
      ReplayKeepsFunctions(BLANK, EventsOf(ReadLog(codec, Aof, Contents(d.aof)).value));
    } else {
      var snapshot := codec.snapshots.decode(d.snapshot.value).value;
      ReplayKeepsFunctions(IntoState(snapshot).value, EventsOf(EntriesSince(codec, d, snapshot.lastAofOffset).value));
    }
  }

  lemma LoadSnapshot(codec: Codec, d: Disk, m: Memory, offset: nat)
    requires Sound(codec) && d.snapshot == Some(SnapshotText(codec, m, offset))
    ensures Load(codec, d) == Resume(Forget(m), EntriesSince(codec, d, offset))
  {
    hide EntriesSince;
    assert codec.snapshots.decode(codec.snapshots.encode(FromState(m, offset)) + "\n") == Some(FromState(m, offset));
  }

  lemma ReadWritten(codec: Codec, file: LogFile, entries: seq<LogEntry>)
    requires Sound(codec)
    ensures ReadLog(codec, file, WriteAll(codec.entries, entries)) == Ok(entries)
    ensures ReadLog(codec, file, "") == Ok([])
  {
    hide TextLog.Replay, Faithful;
    ReplayBack(codec.entries, entries);
    ReplayBack(codec.entries, []);
  }

  lemma EventsOfAppend(es: seq<LogEntry>)
    ensures [] + es == es && EventsOf([]) == []
  {
  }

  /** The files once the new snapshot is in place: before the rotation, during it, and at the end. */
  lemma FilesAfterSnapshot(codec: Codec, d: Disk, m: Memory, n: nat)
    requires 3 <= n <= COMPACTION_STEPS
    ensures var c := CompactUntil(codec, d, m, n);
      var offset := |Contents(d.aof)|;
      && (n == COMPACTION_STEPS ==> c.snapshot == Some(SnapshotText(codec, m, 0)) && c.aof == Some(""))
      && (n < COMPACTION_STEPS ==> c.snapshot == Some(SnapshotText(codec, m, offset)))
      && (n < 5 ==> Contents(c.aof) == Contents(d.aof))
      && (5 <= n ==> Contents(c.aof) == "" && (offset > 0 ==> c.oldAof == d.aof))
  {
  }

  /**
   The state loaded after a crash past the first rename, with entries appended since: the state at
   the time of compaction and every entry, unless the log was rotated, its snapshot still points
   into the old log, and the new log has grown past that offset.
   */
  lemma AfterSnapshot(codec: Codec, d: Disk, m: Memory, n: nat, entries: seq<LogEntry>)
    requires Sound(codec) && 3 <= n <= COMPACTION_STEPS
    ensures var crashed := CompactUntil(codec, d, m, n);
      var written := WriteAll(codec.entries, entries);
      var offset := |Contents(d.aof)|;
      Load(codec, AppendTo(codec, crashed, entries)) ==
        if 5 <= n < COMPACTION_STEPS && offset <= |written|
        then Resume(Forget(m), ReadLog(codec, Aof, After(written, offset)))
        else Ok(Events.Replay(Forget(m), EventsOf(entries)))
  {
    hide WriteAll, ReadLog, Sound, CompactUntil, Load;
    var crashed := CompactUntil(codec, d, m, n);
    var written := WriteAll(codec.entries, entries);
    var offset := |Contents(d.aof)|;
    var grown := AppendTo(codec, crashed, entries);
    FilesAfterSnapshot(codec, d, m, n);
    ReadWritten(codec, Aof, entries);
    ReadWritten(codec, OldAof, []);
    EventsOfAppend(entries);
    LoadSnapshot(codec, grown, m, if n == COMPACTION_STEPS then 0 else offset);
    assert "" + written == written;
    assert (Contents(d.aof) + written)[offset..] == written && After(Contents(d.aof), offset) == "";
    if offset == 0 {
      assert After(written, 0) == written;
    }
  }

  /**
   Stopping a compaction after any of its steps leaves files that load the state they stood for
   before. A state with functions bound is loaded without them.
   */
  lemma CompactionIsCrashSafe(codec: Codec, d: Disk, m: Memory, n: nat)
    requires Sound(codec) && n <= COMPACTION_STEPS
    requires Load(codec, d) == Ok(Forget(m))
    ensures Load(codec, CompactUntil(codec, d, m, n)) == Ok(Forget(m))
    ensures m.fnNames == map[] ==> Load(codec, CompactUntil(codec, d, m, n)) == Ok(m)
  {
    ForgetNothing(m);
    hide *;
    if n >= 3 {
      LoadAfterSnapshot(codec, d, m, n);
    } else {
      LoadBeforeSnapshot(codec, d, m, n);
    }
  }

  lemma ForgetNothing(m: Memory)
    ensures m.fnNames == map[] ==> Forget(m) == m
  {
  }

  /** Before the first rename only the temporary file differs, and loading ignores it. */
  lemma LoadBeforeSnapshot(codec: Codec, d: Disk, m: Memory, n: nat)
    requires n <= 2
    ensures Load(codec, CompactUntil(codec, d, m, n)) == Load(codec, d)
  {
    hide SnapshotText, ReadLog;
    assert RotateUntil(WriteUntil(d, SnapshotText(codec, m, |Contents(d.aof)|), n), 0)
        == WriteUntil(d, SnapshotText(codec, m, |Contents(d.aof)|), n);
    var c := CompactUntil(codec, d, m, n);
    assert c.aof == d.aof && c.oldAof == d.oldAof && c.snapshot == d.snapshot;
  }

  /** Whatever the files said before, past the first rename they stand for the state handed to compaction. */
  lemma LoadAfterSnapshot(codec: Codec, d: Disk, m: Memory, n: nat)
    requires Sound(codec) && 3 <= n <= COMPACTION_STEPS
    ensures Load(codec, CompactUntil(codec, d, m, n)) == Ok(Forget(m))
  {
    hide Sound, CompactUntil;
    var crashed := CompactUntil(codec, d, m, n);
    AfterSnapshot(codec, d, m, n, []);
    LoadMissingLog(codec, crashed);
    ReadWritten(codec, Aof, []);
    assert Contents(crashed.aof) + "" == Contents(crashed.aof);
  }

  /** A missing log loads as an empty one. */
  lemma LoadMissingLog(codec: Codec, d: Disk)
    ensures Load(codec, d.(aof := Some(Contents(d.aof)))) == Load(codec, d)
  {
  }

  /**
   Entries appended after a crash in mid-rotation are all recovered if and only if the new log is
   shorter than the offset in the snapshot, or that offset is zero.
   */
  lemma AppendsAfterRotation(codec: Codec, d: Disk, m: Memory, n: nat, entries: seq<LogEntry>)
    requires Sound(codec) && NoSuffixParses(codec.entries) && 5 <= n < COMPACTION_STEPS
    ensures var offset := |Contents(d.aof)|;
      var grown := AppendTo(codec, CompactUntil(codec, d, m, n), entries);
      (EntriesSince(codec, grown, offset) == Ok(entries)
       <==> offset == 0 || |WriteAll(codec.entries, entries)| < offset)
  {
    hide Sound, CompactUntil, NoSuffixParses, ReadLog, WriteAll;
    var written := WriteAll(codec.entries, entries);
    var offset := |Contents(d.aof)|;
    FilesAfterSnapshot(codec, d, m, n);
    ReadWritten(codec, Aof, entries);
    ReadWritten(codec, OldAof, []);
    EventsOfAppend(entries);
    assert "" + written == written && After(Contents(d.aof), offset) == "";
    if offset == 0 {
      assert After(written, 0) == written;
    } else if offset <= |written| {
      LosesEntries(codec, entries, offset);
    }
  }

  lemma LosesEntries(codec: Codec, entries: seq<LogEntry>, offset: nat)
    requires Sound(codec) && NoSuffixParses(codec.entries)
    requires 0 < offset <= |WriteAll(codec.entries, entries)|
    ensures ReadLog(codec, Aof, After(WriteAll(codec.entries, entries), offset)) != Ok(entries)
  {
    hide WriteAll, Lines, ReplayLines, NoSuffixParses, Faithful;
    SkippingLoses(codec.entries, entries, offset, 1);
  }

  lemma {:induction false} RetriesCounted(m: Memory, es: seq<Event>, id: TimerId, i: nat)
    requires i < |es| && es[i].RunRetrying? && es[i].timer == id
    ensures RetryCount(m.retries7d, id) < RetryCount(Events.Replay(m, es).retries7d, id)
    decreases |es|
  {
    CountKept(m, es[0], id);
    if i == 0 {
      CountsKept(Events.Apply(m, es[0]), es[1..], id);
    } else {
      RetriesCounted(Events.Apply(m, es[0]), es[1..], id, i - 1);
    }
  }

  lemma CountKept(m: Memory, e: Event, id: TimerId)
    ensures RetryCount(Events.Apply(m, e).retries7d, id)
         == RetryCount(m.retries7d, id) + if e.RunRetrying? && e.timer == id then 1 else 0
  {
  }

  lemma {:induction false} CountsKept(m: Memory, es: seq<Event>, id: TimerId)
    ensures RetryCount(m.retries7d, id) <= RetryCount(Events.Replay(m, es).retries7d, id)
    decreases |es|
  {
    if es != [] {
      CountKept(m, es[0], id);
      CountsKept(Events.Apply(m, es[0]), es[1..], id);
    }
  }

  lemma {:induction false} EventAt(entries: seq<LogEntry>, i: nat)
    requires i < |entries|
    ensures EventsOf(entries)[i] == entries[i].event
  {
    if i > 0 {
      EventAt(entries[1..], i - 1);
    }
  }

  /**
   How a logged retry is lost: a log that starts with the creation of a timer is compacted, the process
   dies right after the log was renamed, and what the next one logs, a retry among it, is exactly as long.
   Loading skips all of it.
   */
  lemma {:induction false} RotationLosesRetry(codec: Codec, before: seq<LogEntry>, more: seq<LogEntry>, i: nat)
    requires Sound(codec) && before != [] && before[0].event.TimerCreated?
    requires i < |more| && more[i].event.RunRetrying?
    requires |WriteAll(codec.entries, more)| == |WriteAll(codec.entries, before)|
    ensures var d := Disk(Some(WriteAll(codec.entries, before)), None, None, None);
      var m := Events.Replay(BLANK, EventsOf(before));
      var grown := AppendTo(codec, CompactUntil(codec, d, m, 5), more);
      && Load(codec, d) == Ok(m)
      && Load(codec, grown) == Ok(m)
      && RetryCount(m.retries7d, more[i].event.timer)
         < RetryCount(Events.Replay(m, EventsOf(more)).retries7d, more[i].event.timer)
  {
    hide Sound, CompactUntil, ReadLog, WriteAll;
    var text := WriteAll(codec.entries, before);
    var d := Disk(Some(text), None, None, None);
    var m := Events.Replay(BLANK, EventsOf(before));
    ReplayKeepsFunctions(BLANK, EventsOf(before));
    ForgetNothing(m);
    ReadWritten(codec, Aof, before);
    ReadWritten(codec, Aof, []);
    AfterSnapshot(codec, d, m, 5, more);
    assert After(WriteAll(codec.entries, more), |text|) == "" && EventsOf([]) == [];
    assert Events.Replay(m, []) == m;
    EventAt(more, i);
    hide Events.Replay;
    RetriesCounted(m, EventsOf(more), more[i].event.timer, i);
  }
}
