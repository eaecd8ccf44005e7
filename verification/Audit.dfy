/**
 The hash-chained audit log (`audit.rs`, and its writer in `runtime.rs`). The hash is a parameter; the
 chain is what is modelled.
 */
module Audit {
  import opened Prelude
  import opened TextLog

  datatype AuditRecord = AuditRecord(seqNo: nat, ts: Time, nodeId: string, action: string, outcome: string, status: nat,
                                     actor: string, role: string, tenantId: Option<string>, reason: Option<string>,
                                     prevHash: string, hash: string)

  /** What the writer and a reader remember: the last sequence number and hash. */
  datatype AuditState = AuditState(seqNo: nat, hash: string)

  const START: AuditState := AuditState(0, "")

  datatype Tamper =
    | InvalidJson(line: nat)
    | SequenceMismatch(seqNo: nat, expected: nat)
    | PrevHashMismatch(seqNo: nat)
    | HashMismatch(seqNo: nat)

  /** The record format and the digest of a record's canonical form. */
  datatype Codec = Codec(json: Json<AuditRecord>, digest: AuditRecord -> string)

  /** The canonical form is the record without its own hash. */
  function ComputeHash(codec: Codec, r: AuditRecord): string {
    codec.digest(r.(hash := ""))
  }

  /** No two canonical forms collide, and no digest is empty. */
  ghost predicate Injective(codec: Codec) {
    && (forall r: AuditRecord, q: AuditRecord | r.hash == "" && q.hash == "" ::
          codec.digest(r) == codec.digest(q) ==> r == q)
    && forall r: AuditRecord :: codec.digest(r) != ""
  }

  // ----- Reading -----

  function OneMore(rest: Result<nat, Tamper>): Result<nat, Tamper> {
    match rest
    case Ok(n) => Ok(n + 1)
    case Err(tamper) => Err(tamper)
  }

  /** The complaint about a record that does not continue the chain, in the order of the checks. */
  function Complaint(codec: Codec, r: AuditRecord, prev: AuditState): Option<Tamper> {
    if r.seqNo != prev.seqNo + 1 then Some(SequenceMismatch(r.seqNo, prev.seqNo + 1))
    else if r.prevHash != prev.hash then Some(PrevHashMismatch(r.seqNo))
    else if r.hash != ComputeHash(codec, r) then Some(HashMismatch(r.seqNo))
    else None
  }

  /** The number of records in the lines that continue the chain from `prev`, or the first complaint. */
  function VerifyLines(codec: Codec, lines: seq<string>, lineNo: nat, prev: AuditState): Result<nat, Tamper>
    decreases |lines|
  {
    if lines == [] then Ok(0)
    else if Trim(lines[0]) == "" then VerifyLines(codec, lines[1..], lineNo + 1, prev)
    else
      match codec.json.decode(lines[0])
      case Entry(r) =>
        var complaint := Complaint(codec, r, prev);
        if complaint.Some? then Err(complaint.value)
        else OneMore(VerifyLines(codec, lines[1..], lineNo + 1, AuditState(r.seqNo, r.hash)))
      case Eof => if AllBlank(lines[1..]) then Ok(0) else Err(InvalidJson(lineNo))
      case Malformed => Err(InvalidJson(lineNo))
  }

  function VerifyContent(codec: Codec, content: string): Result<nat, Tamper> {
    VerifyLines(codec, Lines(content), 1, START)
  }

  /** The state after the last record of the lines, unverified; an error gives its line. */
  function LastOfLines(codec: Codec, lines: seq<string>, lineNo: nat, state: AuditState): Result<AuditState, nat>
    decreases |lines|
  {
    if lines == [] then Ok(state)
    else if Trim(lines[0]) == "" then LastOfLines(codec, lines[1..], lineNo + 1, state)
    else
      match codec.json.decode(lines[0])
      case Entry(r) => LastOfLines(codec, lines[1..], lineNo + 1, AuditState(r.seqNo, r.hash))
      case Eof => if AllBlank(lines[1..]) then Ok(state) else Err(lineNo)
      case Malformed => Err(lineNo)
  }

  function Plus(n: nat, rest: Result<nat, Tamper>): Result<nat, Tamper> {
    match rest
    case Ok(m) => Ok(n + m)
    case Err(tamper) => Err(tamper)
  }

  lemma VerifyOn(codec: Codec, records: nat, lines: seq<string>, lineNo: nat, prev: AuditState)
    requires lines != []
    ensures var whole := Plus(records, VerifyLines(codec, lines, lineNo, prev));
      if Trim(lines[0]) == "" then whole == Plus(records, VerifyLines(codec, lines[1..], lineNo + 1, prev))
      else
        var parsed := codec.json.decode(lines[0]);
        && (parsed.Entry? ==>
              var complaint := Complaint(codec, parsed.entry, prev);
              whole == if complaint.Some? then Err(complaint.value)
                       else Plus(records + 1, VerifyLines(codec, lines[1..], lineNo + 1,
                                                          AuditState(parsed.entry.seqNo, parsed.entry.hash))))
        && (parsed.Eof? ==> whole == if AllBlank(lines[1..]) then Ok(records) else Err(InvalidJson(lineNo)))
        && (parsed.Malformed? ==> whole == Err(InvalidJson(lineNo)))
  {
    hide Trim, Complaint;
  }

  method Verify(codec: Codec, file: Option<string>) returns (result: Result<nat, Tamper>)
    ensures result == if file.None? then Ok(0) else VerifyContent(codec, file.value)
  {
    hide Trim, Lines, Complaint, VerifyLines;
    if file.None? {
      return Ok(0);
    }
    var lines := Lines(file.value);
    var afterLast := AfterLastNonEmpty(lines);
    var prev, records, k := START, 0, 0;
    assert lines[0..] == lines;
    while k < |lines|
      invariant k <= |lines|
      invariant VerifyContent(codec, file.value) == Plus(records, VerifyLines(codec, lines[k..], k + 1, prev))
    {
      VerifyOn(codec, records, lines[k..], k + 1, prev);
      assert lines[k..][0] == lines[k] && lines[k..][1..] == lines[k + 1..];
      if Trim(lines[k]) != "" {
        match codec.json.decode(lines[k]) {
          case Entry(r) =>
            var complaint := Complaint(codec, r, prev);
            if complaint.Some? {
              return Err(complaint.value);
            }
            prev, records := AuditState(r.seqNo, r.hash), records + 1;
          case Eof =>
            if k + 1 == afterLast {
              return Ok(records);
            }
            return Err(InvalidJson(k + 1));
          case Malformed =>
            return Err(InvalidJson(k + 1));
        }
      }
      k := k + 1;
    }
    VerifyNothing(codec, lines[k..], k + 1, prev);
    return Ok(records);
  }

  lemma VerifyNothing(codec: Codec, lines: seq<string>, lineNo: nat, prev: AuditState)
    ensures lines == [] ==> VerifyLines(codec, lines, lineNo, prev) == Ok(0)
  {
  }

  method ReadLastStateUnverified(codec: Codec, file: Option<string>) returns (result: Result<AuditState, nat>)
    ensures result == if file.None? then Ok(START) else LastOfLines(codec, Lines(file.value), 1, START)
  {
    hide Trim, Lines;
    if file.None? {
      return Ok(START);
    }
    var lines := Lines(file.value);
    var afterLast := AfterLastNonEmpty(lines);
    var state, k := START, 0;
    assert lines[0..] == lines;
    while k < |lines|
      invariant k <= |lines|
      invariant LastOfLines(codec, lines, 1, START) == LastOfLines(codec, lines[k..], k + 1, state)
    {
      assert lines[k..][0] == lines[k] && lines[k..][1..] == lines[k + 1..];
      if Trim(lines[k]) != "" {
        match codec.json.decode(lines[k]) {
          case Entry(r) =>
            state := AuditState(r.seqNo, r.hash);
          case Eof =>
            if k + 1 == afterLast {
              return Ok(state);
            }
            return Err(k + 1);
          case Malformed =>
            return Err(k + 1);
        }
      }
      k := k + 1;
    }
    return Ok(state);
  }

  /** None if the log does not verify. */
  method ReadLastState(codec: Codec, file: Option<string>) returns (state: Option<AuditState>)
    ensures file.None? ==> state == Some(START)
    ensures file.Some? ==> (state.Some? <==> VerifyContent(codec, file.value).Ok?)
    ensures file.Some? && state.Some? ==> state.value == LastState(Records(codec, Lines(file.value)), START)
  {
    hide Lines, Trim;
    if file.None? {
      return Some(START);
    }
    var verified := Verify(codec, file);
    if verified.Err? {
      return None;
    }
    VerifyAccepts(codec, Lines(file.value), 1, START);
    LastOfVerified(codec, Lines(file.value), 1, START);
    var last := ReadLastStateUnverified(codec, file);
    return Some(last.value);
  }

  // ----- What verification accepts -----

  /** The records of the lines, up to a truncated or malformed one. */
  function Records(codec: Codec, lines: seq<string>): seq<AuditRecord>
    decreases |lines|
  {
    if lines == [] then []
    else if Trim(lines[0]) == "" then Records(codec, lines[1..])
    else
      match codec.json.decode(lines[0])
      case Entry(r) => [r] + Records(codec, lines[1..])
      case _ => []
  }

  /** Every line is blank or a record, but for a truncated last one. */
  predicate WellFormed(codec: Codec, lines: seq<string>)
    decreases |lines|
  {
    if lines == [] then true
    else if Trim(lines[0]) == "" then WellFormed(codec, lines[1..])
    else
      match codec.json.decode(lines[0])
      case Entry(_) => WellFormed(codec, lines[1..])
      case Eof => AllBlank(lines[1..])
      case Malformed => false
  }

  /** Consecutive numbers, each record naming the hash of the one before and carrying its own. */
  predicate Chain(codec: Codec, rs: seq<AuditRecord>, prev: AuditState)
    decreases |rs|
  {
    rs == [] || (
      && rs[0].seqNo == prev.seqNo + 1
      && rs[0].prevHash == prev.hash
      && rs[0].hash == ComputeHash(codec, rs[0])
      && Chain(codec, rs[1..], AuditState(rs[0].seqNo, rs[0].hash)))
  }

  function LastState(rs: seq<AuditRecord>, prev: AuditState): AuditState {
    if rs == [] then prev else AuditState(rs[|rs| - 1].seqNo, rs[|rs| - 1].hash)
  }

  /** Verification accepts exactly the well-formed chains, and counts their records. */
  lemma {:induction false} VerifyAccepts(codec: Codec, lines: seq<string>, lineNo: nat, prev: AuditState)
    ensures VerifyLines(codec, lines, lineNo, prev).Ok? <==>
            WellFormed(codec, lines) && Chain(codec, Records(codec, lines), prev)
    ensures VerifyLines(codec, lines, lineNo, prev).Ok? ==>
            VerifyLines(codec, lines, lineNo, prev).value == |Records(codec, lines)|
    decreases |lines|
  {
    hide Trim, ComputeHash;
    if lines != [] {
      var parsed := codec.json.decode(lines[0]);
      if Trim(lines[0]) == "" {
        VerifyAccepts(codec, lines[1..], lineNo + 1, prev);
      } else if parsed.Entry? {
        var r := parsed.entry;
        VerifyAccepts(codec, lines[1..], lineNo + 1, AuditState(r.seqNo, r.hash));
        assert Records(codec, lines)[1..] == Records(codec, lines[1..]);
      }
    }
  }

  lemma {:induction false} LastOfVerified(codec: Codec, lines: seq<string>, lineNo: nat, prev: AuditState)
    requires WellFormed(codec, lines)
    ensures LastOfLines(codec, lines, lineNo, prev) == Ok(LastState(Records(codec, lines), prev))
    decreases |lines|
  {
    hide Trim;
    if lines != [] {
      var parsed := codec.json.decode(lines[0]);
      if Trim(lines[0]) == "" {
        LastOfVerified(codec, lines[1..], lineNo + 1, prev);
      } else if parsed.Entry? {
        LastOfVerified(codec, lines[1..], lineNo + 1, AuditState(parsed.entry.seqNo, parsed.entry.hash));
      }
    }
  }

  // ----- Same last hash, same log -----

  lemma {:induction false} ChainInit(codec: Codec, rs: seq<AuditRecord>, prev: AuditState)
    requires rs != [] && Chain(codec, rs, prev)
    ensures var before, last := rs[..|rs| - 1], rs[|rs| - 1];
      && Chain(codec, before, prev)
      && last.seqNo == LastState(before, prev).seqNo + 1
      && last.prevHash == LastState(before, prev).hash
      && last.hash == ComputeHash(codec, last)
    decreases |rs|
  {
    hide ComputeHash;
    if |rs| > 1 {
      ChainInit(codec, rs[1..], AuditState(rs[0].seqNo, rs[0].hash));
      assert rs[1..][..|rs| - 2] == rs[..|rs| - 1][1..];
    }
  }

  lemma SameHash(codec: Codec, r: AuditRecord, q: AuditRecord)
    requires Injective(codec) && r.hash == q.hash == ComputeHash(codec, r) && q.hash == ComputeHash(codec, q)
    ensures r == q && r.hash != ""
  {
    assert r.(hash := "") == q.(hash := "");
    assert r == r.(hash := "").(hash := r.hash) && q == q.(hash := "").(hash := q.hash);
  }

  lemma {:induction false} ChainsAgree(codec: Codec, rs: seq<AuditRecord>, qs: seq<AuditRecord>)
    requires Injective(codec) && Chain(codec, rs, START) && Chain(codec, qs, START)
    requires LastState(rs, START).hash == LastState(qs, START).hash
    ensures rs == qs
    decreases |rs|
  {
    hide Chain, ComputeHash, Injective;
    if rs != [] {
      ChainInit(codec, rs, START);
      SameHash(codec, rs[|rs| - 1], rs[|rs| - 1]);
    }
    if qs != [] {
      ChainInit(codec, qs, START);
      SameHash(codec, qs[|qs| - 1], qs[|qs| - 1]);
    }
    if rs != [] && qs != [] {
      SameHash(codec, rs[|rs| - 1], qs[|qs| - 1]);
      ChainsAgree(codec, rs[..|rs| - 1], qs[..|qs| - 1]);
      assert rs == rs[..|rs| - 1] + [rs[|rs| - 1]] && qs == qs[..|qs| - 1] + [qs[|qs| - 1]];
    }
  }

  /** With a hash free of collisions, two logs that verify and end in the same hash are the same, record for record. */
  lemma LastHashFixesLog(codec: Codec, a: string, b: string)
    requires Injective(codec) && VerifyContent(codec, a).Ok? && VerifyContent(codec, b).Ok?
    requires LastState(Records(codec, Lines(a)), START).hash == LastState(Records(codec, Lines(b)), START).hash
    ensures Records(codec, Lines(a)) == Records(codec, Lines(b))
  {
    hide *;
    VerifiedChain(codec, a);
    VerifiedChain(codec, b);
    ChainsAgree(codec, Records(codec, Lines(a)), Records(codec, Lines(b)));
  }

  lemma VerifiedChain(codec: Codec, content: string)
    requires VerifyContent(codec, content).Ok?
    ensures Chain(codec, Records(codec, Lines(content)), START)
  {
    hide Lines, Records, Chain, VerifyLines;
    VerifyAccepts(codec, Lines(content), 1, START);
  }

  // ----- Writing -----

  lemma {:induction false} ChainAppend(codec: Codec, rs: seq<AuditRecord>, prev: AuditState, r: AuditRecord)
    requires Chain(codec, rs, prev) && Chain(codec, [r], LastState(rs, prev))
    ensures Chain(codec, rs + [r], prev)
    decreases |rs|
  {
    hide ComputeHash;
    if rs == [] {
      assert [] + [r] == [r];
    } else {
      ChainAppend(codec, rs[1..], AuditState(rs[0].seqNo, rs[0].hash), r);
      assert (rs + [r])[1..] == rs[1..] + [r];
    }
  }

  /** Records written one a line are read back as they are. */
  lemma {:induction false} WrittenRecords(codec: Codec, rs: seq<AuditRecord>, rest: string)
    requires Faithful(codec.json)
    ensures Records(codec, Lines(WriteAll(codec.json, rs) + rest)) == rs + Records(codec, Lines(rest))
    ensures WellFormed(codec, Lines(WriteAll(codec.json, rs) + rest)) <==> WellFormed(codec, Lines(rest))
    decreases |rs|
  {
    hide Faithful, Lines, Records, WellFormed;
    if rs == [] {
      assert WriteAll(codec.json, rs) + rest == rest;
    } else {
      var more := WriteAll(codec.json, rs[1..]) + rest;
      assert WriteAll(codec.json, rs) + rest == codec.json.encode(rs[0]) + "\n" + more;
      EntryLine(codec.json, rs[0]);
      FirstLine(codec.json.encode(rs[0]), more);
      RecordLine(codec, rs[0], codec.json.encode(rs[0]), Lines(more));
      WrittenRecords(codec, rs[1..], rest);
      assert rs == [rs[0]] + rs[1..];
    }
  }

  lemma RecordLine(codec: Codec, r: AuditRecord, text: string, lines: seq<string>)
    requires text != "" && Trim(text) == text && codec.json.decode(text) == Entry(r)
    ensures Records(codec, [text] + lines) == [r] + Records(codec, lines)
    ensures WellFormed(codec, [text] + lines) <==> WellFormed(codec, lines)
  {
    hide Trim;
    assert ([text] + lines)[1..] == lines;
  }

  /** A log written by the chain writer verifies, with the right count, and gives back the writer's state. */
  lemma WrittenVerifies(codec: Codec, rs: seq<AuditRecord>)
    requires Faithful(codec.json) && Chain(codec, rs, START)
    ensures VerifyContent(codec, WriteAll(codec.json, rs)) == Ok(|rs|)
    ensures Records(codec, Lines(WriteAll(codec.json, rs))) == rs
  {
    WrittenRecords(codec, rs, "");
    assert WriteAll(codec.json, rs) + "" == WriteAll(codec.json, rs) && rs + [] == rs;
    hide Faithful, WriteAll, Chain;
    VerifyAccepts(codec, Lines(WriteAll(codec.json, rs)), 1, START);
  }

  /** A log cut inside a record verifies with the records before it; the cut may even take the last newline. */
  lemma TornLogVerifies(codec: Codec, rs: seq<AuditRecord>, r: AuditRecord, n: nat)
    requires Faithful(codec.json) && Chain(codec, rs, START) && n < |codec.json.encode(r)|
    ensures VerifyContent(codec, WriteAll(codec.json, rs) + codec.json.encode(r)[..n]) == Ok(|rs|)
  {
    var fragment := codec.json.encode(r)[..n];
    TornLine(codec, r, n);
    WrittenRecords(codec, rs, fragment);
    assert rs + [] == rs;
    hide Faithful, WriteAll, Chain, Lines;
    VerifyAccepts(codec, Lines(WriteAll(codec.json, rs) + fragment), 1, START);
  }

  lemma TornLine(codec: Codec, r: AuditRecord, n: nat)
    requires Faithful(codec.json) && n < |codec.json.encode(r)|
    ensures var lines := Lines(codec.json.encode(r)[..n]);
      Records(codec, lines) == [] && WellFormed(codec, lines)
  {
    hide Faithful, Trim;
    var fragment := codec.json.encode(r)[..n];
    EntryLine(codec.json, r);
    assert FindNewline(fragment) == n;
    if n > 0 {
      assert Lines(fragment) == [fragment] && [fragment][1..] == [];
      TornDecodes(codec, r, n);
    }
  }

  lemma TornDecodes(codec: Codec, r: AuditRecord, n: nat)
    requires Faithful(codec.json) && 0 < n < |codec.json.encode(r)|
    ensures codec.json.decode(codec.json.encode(r)[..n]) == Eof
  {
    assert EncodesWell(codec.json, r);
    hide Faithful;
  }

  /** The writer: the file, and the state behind the lock. */
  class AuditWriter {
    const codec: Codec
    const nodeId: string
    var content: string
    var state: AuditState

    /** Everything in the file is one chain, and the state is its end. */
    ghost predicate Valid()
      reads this
    {
      var rs := Records(codec, Lines(content));
      content == WriteAll(codec.json, rs) && Chain(codec, rs, START) && state == LastState(rs, START)
    }

    /** A new log, or the reopening of a valid one: the state is read from the file. */
    constructor (codec: Codec, nodeId: string, writer: AuditWriter?)
      requires Faithful(codec.json)
      requires writer != null ==> writer.Valid() && writer.codec == codec
      ensures Valid() && this.codec == codec && this.nodeId == nodeId
      ensures writer == null ==> content == "" && state == START
      ensures writer != null ==> content == writer.content && state == writer.state
    {
      hide Faithful, Records, Lines, WriteAll, Chain, LastState, VerifyContent;
      var file := None;
      if writer != null {
        WrittenVerifies(codec, Records(codec, Lines(writer.content)));
        file := Some(writer.content);
      }
      var last := ReadLastState(codec, file);
      this.codec, this.nodeId := codec, nodeId;
      content := if file.Some? then file.value else "";
      state := last.value;
      new;
      if writer == null {
        EmptyLog(codec);
      }
    }

    method Audit(actor: string, role: string, tenantId: Option<string>, action: string, outcome: string, status: nat,
                 reason: Option<string>, now: Time, accepted: bool) returns (ok: bool)
      requires Valid() && Faithful(codec.json)
      modifies this
      ensures Valid() && ok == accepted
      ensures !ok ==> content == old(content) && state == old(state)
      ensures ok ==> state.seqNo == old(state.seqNo) + 1
      ensures ok ==> var rs := Records(codec, Lines(content));
        && rs == old(Records(codec, Lines(content))) + [rs[|rs| - 1]]
        && rs[|rs| - 1].(hash := "") == AuditRecord(state.seqNo, now, nodeId, action, outcome, status, actor, role, tenantId,
                                                    reason, old(state.hash), "")
    {
      hide Faithful, Lines, Records;
      ghost var before := Records(codec, Lines(content));
      var record := AuditRecord(state.seqNo + 1, now, nodeId, action, outcome, status, actor, role, tenantId, reason,
                                state.hash, "");
      record := record.(hash := ComputeHash(codec, record));
      if !accepted {
        return false;
      }
      content := content + (codec.json.encode(record) + "\n");
      state := AuditState(record.seqNo, record.hash);
      Appended(codec, before, record);
      return true;
    }
  }

  lemma EmptyLog(codec: Codec)
    ensures Records(codec, Lines("")) == [] && WriteAll(codec.json, []) == "" && Chain(codec, [], START)
    ensures LastState([], START) == START
  {
  }

  lemma Appended(codec: Codec, rs: seq<AuditRecord>, r: AuditRecord)
    requires Faithful(codec.json) && Chain(codec, rs, START) && Chain(codec, [r], LastState(rs, START))
    ensures Chain(codec, rs + [r], START)
    ensures WriteAll(codec.json, rs + [r]) == WriteAll(codec.json, rs) + (codec.json.encode(r) + "\n")
    ensures Records(codec, Lines(WriteAll(codec.json, rs) + (codec.json.encode(r) + "\n"))) == rs + [r]
    ensures LastState(rs + [r], START) == AuditState(r.seqNo, r.hash)
  {
    ChainAppend(codec, rs, START, r);
    WriteAllAppend(codec.json, rs, [r]);
    assert WriteAll(codec.json, [r]) == LineOf(codec.json, r) + "";
    hide Faithful, Chain, Records, Lines, WriteAll;
    WrittenVerifies(codec, rs + [r]);
  }
}
