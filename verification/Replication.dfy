/**
 Replicas of the server's state machine (`file_store.rs`): batches of committed entries, snapshots
 built and installed, and restarts from `state.json`.
 */
module Replication {
  import opened Prelude
  import opened Bytes
  import opened Schedules
  import Machine
  import Ownership
  import Segments

  type LogId = Segments.LogId

  datatype Membership = Membership(voters: seq<set<U64>>)

  datatype StoredMembership = StoredMembership(logId: Option<LogId>, membership: Membership)

  datatype Payload = Blank | Normal(command: Machine.Command) | Members(membership: Membership)

  type Entry = Segments.Entry<Payload>

  datatype ReplicaState = ReplicaState(lastApplied: Option<LogId>, members: StoredMembership, app: Machine.State)

  const INITIAL: ReplicaState := ReplicaState(None, StoredMembership(None, Membership([])), Machine.EMPTY)

  datatype SnapshotMeta = SnapshotMeta(lastLogId: Option<LogId>, members: StoredMembership)

  datatype Snapshot = Snapshot(meta: SnapshotMeta, bytes: seq<Byte>)

  /** The JSON form of a state, as files and snapshots carry it. */
  datatype Json = Json(encode: ReplicaState -> seq<Byte>, decode: seq<Byte> -> Option<ReplicaState>)

  ghost predicate Faithful(json: Json) {
    forall s: ReplicaState :: json.decode(json.encode(s)) == Some(s)
  }

  function ApplyEntry(calendar: Calendar, s: ReplicaState, e: Entry): ReplicaState {
    match e.payload
    case Blank => s.(lastApplied := Some(e.logId))
    case Normal(command) => s.(lastApplied := Some(e.logId), app := Machine.Apply(calendar, s.app, command))
    case Members(membership) => s.(lastApplied := Some(e.logId), members := StoredMembership(Some(e.logId), membership))
  }

  function ApplyBatch(calendar: Calendar, s: ReplicaState, entries: seq<Entry>): ReplicaState
    decreases |entries|
  {
    if entries == [] then s else ApplyBatch(calendar, ApplyEntry(calendar, s, entries[0]), entries[1..])
  }

  function SnapshotOf(json: Json, s: ReplicaState): Snapshot {
    Snapshot(SnapshotMeta(s.lastApplied, s.members), json.encode(s))
  }

  /** What installing a snapshot makes of a replica; None if its bytes cannot be decoded. */
  function Installed(json: Json, snapshot: Snapshot): Option<ReplicaState> {
    match json.decode(snapshot.bytes)
    case None => None
    case Some(s) => Some(s.(lastApplied := snapshot.meta.lastLogId, members := snapshot.meta.members))
  }

  /** What a new process makes of `state.json`. */
  function Reloaded(json: Json, disk: Option<seq<Byte>>): Option<ReplicaState> {
    if disk.None? then Some(INITIAL) else json.decode(disk.value)
  }

  class Replica {
    const calendar: Calendar
    const json: Json
    var state: ReplicaState
    /** The contents of `state.json`, if it exists. */
    var disk: Option<seq<Byte>>

    constructor (calendar: Calendar, json: Json)
      ensures state == INITIAL && disk == None && this.calendar == calendar && this.json == json
    {
      this.calendar, this.json := calendar, json;
      state, disk := INITIAL, None;
    }

    method Persist()
      modifies this`disk
      ensures disk == Some(json.encode(state))
    {
      disk := Some(json.encode(state));
    }

    method Apply(entries: seq<Entry>) returns (responses: nat)
      modifies this
      ensures state == ApplyBatch(calendar, old(state), entries) && disk == Some(json.encode(state))
      ensures responses == |entries|
    {
      responses := 0;
      for i := 0 to |entries|
        invariant ApplyBatch(calendar, old(state), entries) == ApplyBatch(calendar, state, entries[i..])
        invariant responses == i
      {
        var entry := entries[i];
        assert entries[i..][1..] == entries[i + 1..];
        ghost var before := state;
        state := state.(lastApplied := Some(entry.logId));
        match entry.payload {
          case Blank =>
          case Normal(command) => state := state.(app := Machine.Apply(calendar, state.app, command));
          case Members(membership) => state := state.(members := StoredMembership(Some(entry.logId), membership));
        }
        assert state == ApplyEntry(calendar, before, entry);
        responses := responses + 1;
      }
      Persist();
    }

    method GetCurrentSnapshot() returns (snapshot: Snapshot)
      ensures snapshot == SnapshotOf(json, state)
    {
      var meta := SnapshotMeta(state.lastApplied, state.members);
      snapshot := Snapshot(meta, json.encode(state));
    }

    method InstallSnapshot(snapshot: Snapshot) returns (ok: bool)
      modifies this
      ensures ok == Installed(json, snapshot).Some?
      ensures ok ==> Installed(json, snapshot) == Some(state) && disk == Some(json.encode(state))
      ensures !ok ==> state == old(state) && disk == old(disk)
    {
      var decoded := json.decode(snapshot.bytes);
      if decoded == None {
        return false;
      }
      state := decoded.value;
      state := state.(lastApplied := snapshot.meta.lastLogId);
      state := state.(members := snapshot.meta.members);
      Persist();
      return true;
    }

    /** A new process reads `state.json`; it fails on a file it cannot decode. */
    method Restart() returns (ok: bool)
      modifies this`state
      ensures ok == Reloaded(json, disk).Some?
      ensures state == if ok then Reloaded(json, disk).value else old(state)
    {
      if disk.None? {
        state := INITIAL;
        return true;
      }
      var decoded := json.decode(disk.value);
      if decoded.Some? {
        state := decoded.value;
      }
      return decoded.Some?;
    }
  }

  // ----- A cluster of replicas -----

  /** A replica seen from outside: its memory and its `state.json`. */
  datatype Node = Node(state: ReplicaState, disk: Option<seq<Byte>>)

  datatype Cluster = Cluster(nodes: seq<Node>, snapshots: seq<Snapshot>)

  datatype Step =
    | Deliver(node: nat, count: nat)
    | Build(node: nat)
    | Install(node: nat, snapshot: nat)
    | Crash(node: nat)

  /** The number of committed entries a state has applied. */
  function Applied(s: ReplicaState): nat {
    if s.lastApplied.None? then 0 else s.lastApplied.value.index + 1
  }

  /** OpenRaft delivers a replica the committed entries that follow its last applied one. */
  predicate Enabled(log: seq<Entry>, c: Cluster, step: Step) {
    && step.node < |c.nodes|
    && (step.Deliver? ==> Applied(c.nodes[step.node].state) + step.count <= |log|)
    && (step.Install? ==> step.snapshot < |c.snapshots|)
  }

  function Take(calendar: Calendar, json: Json, log: seq<Entry>, c: Cluster, step: Step): Cluster
    requires Enabled(log, c, step)
  {
    var node := c.nodes[step.node];
    match step
    case Deliver(i, n) =>
      var from := Applied(node.state);
      var state := ApplyBatch(calendar, node.state, log[from..from + n]);
      c.(nodes := c.nodes[i := Node(state, Some(json.encode(state)))])
    case Build(_) => c.(snapshots := c.snapshots + [SnapshotOf(json, node.state)])
    case Install(i, k) =>
      (match Installed(json, c.snapshots[k])
       case None => c
       case Some(state) => c.(nodes := c.nodes[i := Node(state, Some(json.encode(state)))]))
    case Crash(i) =>
      match Reloaded(json, node.disk)
      case None => c
      case Some(state) => c.(nodes := c.nodes[i := Node(state, node.disk)])
  }

  /** The cluster after the first `k` steps, if each was enabled. */
  function After(calendar: Calendar, json: Json, log: seq<Entry>, size: nat, steps: seq<Step>, k: nat): Option<Cluster>
    requires k <= |steps|
  {
    if k == 0 then Some(Cluster(seq(size, _ => Node(INITIAL, None)), []))
    else
      match After(calendar, json, log, size, steps, k - 1)
      case None => None
      case Some(c) => if Enabled(log, c, steps[k - 1]) then Some(Take(calendar, json, log, c, steps[k - 1])) else None
  }

  // ----- Agreement -----

  /** The state after the first `k` committed entries. */
  function Fold(calendar: Calendar, log: seq<Entry>, k: nat): ReplicaState
    requires k <= |log|
  {
    if k == 0 then INITIAL else ApplyEntry(calendar, Fold(calendar, log, k - 1), log[k - 1])
  }

  /** Committed entry `i` carries index `i`. */
  ghost predicate Indexed(log: seq<Entry>) {
    forall i :: 0 <= i < |log| ==> log[i].logId.index == i
  }

  ghost predicate Faultless(calendar: Calendar, log: seq<Entry>, s: ReplicaState) {
    Applied(s) <= |log| && s == Fold(calendar, log, Applied(s))
  }

  ghost predicate AllFaultless(calendar: Calendar, json: Json, log: seq<Entry>, c: Cluster) {
    && (forall i :: 0 <= i < |c.nodes| ==>
          && Faultless(calendar, log, c.nodes[i].state)
          && (c.nodes[i].disk.Some? ==> Stored(calendar, json, log, c.nodes[i].disk.value)))
    && (forall k :: 0 <= k < |c.snapshots| ==>
          exists s :: Faultless(calendar, log, s) && c.snapshots[k] == SnapshotOf(json, s))
  }

  ghost predicate Stored(calendar: Calendar, json: Json, log: seq<Entry>, bytes: seq<Byte>) {
    exists s :: Faultless(calendar, log, s) && bytes == json.encode(s)
  }

  lemma AppliedFold(calendar: Calendar, log: seq<Entry>, k: nat)
    requires Indexed(log) && k <= |log|
    ensures Applied(Fold(calendar, log, k)) == k
  {
  }

  lemma {:induction false} BatchFolds(calendar: Calendar, log: seq<Entry>, from: nat, n: nat)
    requires from + n <= |log|
    ensures ApplyBatch(calendar, Fold(calendar, log, from), log[from..from + n]) == Fold(calendar, log, from + n)
    decreases n
  {
    if n > 0 {
      var batch := log[from..from + n];
      assert batch[1..] == log[from + 1..from + 1 + (n - 1)];
      BatchFolds(calendar, log, from + 1, n - 1);
    }
  }

  lemma StepAgrees(calendar: Calendar, json: Json, log: seq<Entry>, c: Cluster, step: Step)
    requires Faithful(json) && Indexed(log)
    requires AllFaultless(calendar, json, log, c) && Enabled(log, c, step)
    ensures AllFaultless(calendar, json, log, Take(calendar, json, log, c, step))
  {
    hide Machine.Apply;
    var node := c.nodes[step.node];
    match step
    case Deliver(i, n) =>
      var from := Applied(node.state);
      BatchFolds(calendar, log, from, n);
      AppliedFold(calendar, log, from + n);
      var state := Fold(calendar, log, from + n);
      assert Stored(calendar, json, log, json.encode(state));
    case Build(_) =>
    case Install(i, k) =>
      var s :| Faultless(calendar, log, s) && c.snapshots[k] == SnapshotOf(json, s);
      assert json.decode(json.encode(s)) == Some(s);
      assert Stored(calendar, json, log, json.encode(s));
    case Crash(i) =>
      if node.disk.Some? {
        var s :| Faultless(calendar, log, s) && node.disk.value == json.encode(s);
        assert json.decode(json.encode(s)) == Some(s);
      }
  }

  /**
   Through any deliveries in batches of any size, snapshots, installs and crashes, each replica
   holds exactly the committed entries up to its last applied one: none skipped, none applied twice.
   */
  lemma {:induction false} ReplicasAgree(calendar: Calendar, json: Json, log: seq<Entry>, size: nat, steps: seq<Step>, k: nat)
    requires Faithful(json) && Indexed(log) && k <= |steps| && After(calendar, json, log, size, steps, k).Some?
    ensures var c := After(calendar, json, log, size, steps, k).value;
      && AllFaultless(calendar, json, log, c)
      && (forall i, j | 0 <= i < |c.nodes| && 0 <= j < |c.nodes|
                        && c.nodes[i].state.lastApplied == c.nodes[j].state.lastApplied ::
            c.nodes[i].state == c.nodes[j].state)
  {
    if k > 0 {
      ReplicasAgree(calendar, json, log, size, steps, k - 1);
      StepAgrees(calendar, json, log, After(calendar, json, log, size, steps, k - 1).value, steps[k - 1]);
    }
  }

  // ----- What a replica holds -----

  /** The commands among the first `k` committed entries, in order. */
  function CommandsOf(log: seq<Entry>, k: nat): seq<Machine.Command>
    requires k <= |log|
  {
    if k == 0 then []
    else CommandsOf(log, k - 1) + if log[k - 1].payload.Normal? then [log[k - 1].payload.command] else []
  }

  lemma {:induction false} StateOfPrefix(calendar: Calendar, cs: seq<Machine.Command>, c: Machine.Command, k: nat)
    requires k <= |cs|
    ensures Ownership.StateAt(calendar, cs + [c], k) == Ownership.StateAt(calendar, cs, k)
  {
    if k > 0 {
      StateOfPrefix(calendar, cs, c, k - 1);
    }
    hide Machine.Apply;
  }

  /** The application state after `k` entries is the one the commands among them lead to. */
  lemma {:induction false} FoldCommits(calendar: Calendar, log: seq<Entry>, k: nat)
    requires k <= |log|
    ensures var cs := CommandsOf(log, k);
      Fold(calendar, log, k).app == Ownership.StateAt(calendar, cs, |cs|)
  {
    hide Machine.Apply;
    if k > 0 {
      FoldCommits(calendar, log, k - 1);
      var before := CommandsOf(log, k - 1);
      if log[k - 1].payload.Normal? {
        assert (before + [log[k - 1].payload.command])[|before|] == log[k - 1].payload.command;
        StateOfPrefix(calendar, before, log[k - 1].payload.command, |before|);
      } else {
        assert CommandsOf(log, k) == before;
      }
    }
  }

  /** The membership is the last one committed, under its own log id, or the initial one. */
  ghost predicate LastMembership(log: seq<Entry>, k: nat, members: StoredMembership)
    requires k <= |log|
  {
    && ((forall i :: 0 <= i < k ==> !log[i].payload.Members?) ==> members == StoredMembership(None, Membership([])))
    && (forall i :: 0 <= i < k && log[i].payload.Members? && (forall j :: i < j < k ==> !log[j].payload.Members?) ==>
          members == StoredMembership(Some(log[i].logId), log[i].payload.membership))
  }

  lemma {:induction false} FoldMembers(calendar: Calendar, log: seq<Entry>, k: nat)
    requires k <= |log|
    ensures LastMembership(log, k, Fold(calendar, log, k).members)
    ensures Fold(calendar, log, k).lastApplied == if k == 0 then None else Some(log[k - 1].logId)
  {
    hide Machine.Apply;
    if k > 0 {
      FoldMembers(calendar, log, k - 1);
    }
  }

  /** The state that the first committed entries, up to the last applied one, ask for. */
  ghost predicate Holds(calendar: Calendar, log: seq<Entry>, s: ReplicaState) {
    var n := Applied(s);
    && n <= |log|
    && s.app == Ownership.StateAt(calendar, CommandsOf(log, n), |CommandsOf(log, n)|)
    && LastMembership(log, n, s.members)
    && s.lastApplied == if n == 0 then None else Some(log[n - 1].logId)
  }

  lemma FaultlessHolds(calendar: Calendar, log: seq<Entry>, s: ReplicaState)
    requires Faultless(calendar, log, s)
    ensures Holds(calendar, log, s)
  {
    hide Fold, CommandsOf, Ownership.StateAt, LastMembership;
    FoldCommits(calendar, log, Applied(s));
    FoldMembers(calendar, log, Applied(s));
  }

  lemma AllHold(calendar: Calendar, json: Json, log: seq<Entry>, c: Cluster)
    requires AllFaultless(calendar, json, log, c)
    ensures forall i :: 0 <= i < |c.nodes| ==> Holds(calendar, log, c.nodes[i].state)
  {
    hide Faultless, Holds, Stored;
    forall i | 0 <= i < |c.nodes| ensures Holds(calendar, log, c.nodes[i].state) {
      FaultlessHolds(calendar, log, c.nodes[i].state);
    }
  }

  /**
   Through any deliveries, snapshots, installs and crashes: every replica holds the state that the commands
   among its applied entries lead to, in their order and each once, and the last membership among them.
   */
  lemma ReplicasHold(calendar: Calendar, json: Json, log: seq<Entry>, size: nat, steps: seq<Step>, k: nat)
    requires Faithful(json) && Indexed(log) && k <= |steps| && After(calendar, json, log, size, steps, k).Some?
    ensures var c := After(calendar, json, log, size, steps, k).value;
      forall i :: 0 <= i < |c.nodes| ==> Holds(calendar, log, c.nodes[i].state)
  {
    ReplicasAgree(calendar, json, log, size, steps, k);
    hide *;
    AllHold(calendar, json, log, After(calendar, json, log, size, steps, k).value);
  }

  /** A replica's history keeps single ownership, if the committed claims have run ids of their own. */
  lemma HeldIsOwned(calendar: Calendar, log: seq<Entry>, s: ReplicaState)
    requires Holds(calendar, log, s) && Ownership.FreshRunIds(CommandsOf(log, |log|))
    ensures Ownership.Check(s.app.history).Some?
    ensures forall q, r :: q in s.app.activeRuns && r in s.app.activeRuns && q != r ==>
              s.app.activeRuns[q].timerId != s.app.activeRuns[r].timerId
  {
    var cs := CommandsOf(log, Applied(s));
    CommandsGrow(log, Applied(s), |log|);
    hide CommandsOf, Ownership.StateAt, Ownership.Check, LastMembership;
    Ownership.LogKeeps(calendar, cs, |cs|);
    Ownership.SingleOwner(calendar, cs, |cs|);
  }

  lemma {:induction false} CommandsGrow(log: seq<Entry>, k: nat, n: nat)
    requires k <= n <= |log|
    ensures CommandsOf(log, k) <= CommandsOf(log, n)
    decreases n
  {
    if k < n {
      CommandsGrow(log, k, n - 1);
    }
  }
}
