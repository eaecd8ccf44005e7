/** The one field whose damage the segment reader may miss: exactly when an altered length is detected. */
module LengthDamage {
  import opened Prelude
  import opened Bytes
  import opened Segments
  import opened SegmentFormat

  /** An encoding cut short, or followed by the first byte of another record and more, is no entry. */
  ghost predicate Delimited<P(!new)>(json: Json<P>) {
    && (forall e: Entry<P>, n: nat | n < |json.encode(e)| :: json.decode(json.encode(e)[..n]) == None)
    && forall e: Entry<P>, more: seq<Byte> | more != [] && more[0] == MAGIC[0] ::
         json.decode(json.encode(e) + more) == None
  }

  function FrameOf<P>(json: Json<P>, e: Entry<P>): (frame: seq<Byte>)
    ensures |frame| >= HEADER_BYTES
  {
    Frame(e.logId.term, e.logId.index, json.encode(e))
  }

  /** What the reader takes for the payload of a record whose length field reads `length`. */
  lemma OtherPayload<P(!new)>(json: Json<P>, e: Entry<P>, rest: seq<Byte>, length: nat)
    requires Delimited(json) && length != |json.encode(e)| && length <= |json.encode(e) + rest|
    requires rest == [] || rest[0] == MAGIC[0]
    ensures json.decode((json.encode(e) + rest)[..length]) == None
  {
    var payload := json.encode(e);
    if length < |payload| {
      assert (payload + rest)[..length] == payload[..length];
    } else {
      var more := rest[..length - |payload|];
      assert (payload + rest)[..length] == payload + more && more[0] == MAGIC[0];
    }
  }

  /** The fields around the length are untouched. */
  lemma LengthAltered(term: U64, index: U64, payload: seq<Byte>, rest: seq<Byte>, d: nat, b: Byte)
    requires |payload| <= U64_MAX && 32 <= d < 40 && b != (Frame(term, index, payload) + rest)[d]
    ensures var altered := (Frame(term, index, payload) + rest)[d := b];
      && altered[..8] == MAGIC && ReadLE(altered, 8, 4) == FORMAT_VERSION
      && ReadLE(altered, 32, 8) != |payload| && altered[HEADER_BYTES..] == payload + rest
  {
    var bytes := Frame(term, index, payload) + rest;
    FrameFields(term, index, payload, rest);
    FieldValues(term, index, payload, rest);
    DamagedField(bytes, d, b, 32, 8);
    assert bytes[d := b][..8] == bytes[..8] && bytes[d := b][8..12] == bytes[8..12];
    assert bytes[d := b][HEADER_BYTES..] == payload + rest;
  }

  /** An altered length that fits the file is recognised at its record. */
  lemma FittingLength<P(!new)>(json: Json<P>, e: Entry<P>, rest: seq<Byte>, d: nat, b: Byte)
    requires Delimited(json) && |json.encode(e)| <= U64_MAX && (rest == [] || rest[0] == MAGIC[0])
    requires 32 <= d < 40 && b != (FrameOf(json, e) + rest)[d]
    requires var altered := Damaged(FrameOf(json, e) + rest, d, b);
      ReadLE(altered, 32, 8) <= |altered| - HEADER_BYTES
    ensures ReadRecord(json, Damaged(FrameOf(json, e) + rest, d, b)).Corrupt?
  {
    hide Delimited, FromLE, ToLE, Checksum;
    var altered := Damaged(FrameOf(json, e) + rest, d, b);
    var length := ReadLE(altered, 32, 8);
    LengthAltered(e.logId.term, e.logId.index, json.encode(e), rest, d, b);
    OtherPayload(json, e, rest, length);
    assert altered[HEADER_BYTES..HEADER_BYTES + length] == altered[HEADER_BYTES..][..length];
    hide ReadLE, FrameOf;
  }

  // ----- Inside a segment -----

  /** Where record `i` starts in the written segment. */
  ghost function Start<P>(json: Json<P>, es: seq<Entry<P>>, i: nat): nat
    requires i <= |es|
  {
    |EncodeAll(json, es[..i])|
  }

  /** The length that record `i` promises once the byte at `d` of it is `b`, and the bytes there are. */
  ghost predicate Fits(bytes: seq<Byte>, start: nat, d: nat, b: Byte)
    requires start + HEADER_BYTES <= |bytes| && d < HEADER_BYTES
  {
    ReadLE(Damaged(bytes, start + d, b), start + 32, 8) <= |bytes| - start - HEADER_BYTES
  }

  lemma FramesStart<P>(json: Json<P>, es: seq<Entry<P>>)
    ensures var rest := EncodeAll(json, es);
      rest == [] || rest[0] == MAGIC[0]
  {
  }

  /** A segment is the records before `i`, record `i`, and the records after it. */
  lemma AroundRecord<P>(json: Json<P>, es: seq<Entry<P>>, i: nat)
    requires i < |es|
    ensures var rest := EncodeAll(json, es[i + 1..]);
      && (rest == [] || rest[0] == MAGIC[0])
      && EncodeAll(json, es) == EncodeAll(json, es[..i]) + (FrameOf(json, es[i]) + rest)
      && Start(json, es, i) + HEADER_BYTES <= |EncodeAll(json, es)|
  {
    var payloads := Encoded(json, es);
    FramesStart(json, es[i + 1..]);
    var rest := LocateRecord(es, payloads, [], i);
    assert Encoded(json, es[..i]) == payloads[..i] && Encoded(json, es[i + 1..]) == payloads[i + 1..];
    assert Frames(es, payloads) + [] == Frames(es, payloads);
    assert EncodeAll(json, es[i + 1..]) + [] == EncodeAll(json, es[i + 1..]);
  }

  lemma DamagedBehind(before: seq<Byte>, after: seq<Byte>, d: nat, b: Byte)
    requires HEADER_BYTES <= |after| && 32 <= d < 40
    ensures (before + after)[|before| + d] == after[d]
    ensures Damaged(before + after, |before| + d, b) == before + Damaged(after, d, b)
    ensures Fits(before + after, |before|, d, b) <==> Fits(after, 0, d, b)
  {
    UpdateAfter(before, after, d, b);
    var altered := Damaged(after, d, b);
    ReadShifted(before + altered, |before|, 32, 8);
    assert (before + altered)[|before|..] == altered;
    hide ReadLE;
  }

  lemma CorruptBehind<P(!new)>(json: Json<P>, es: seq<Entry<P>>, altered: seq<Byte>)
    requires Faithful(json) && Sized(json, es) && altered != [] && ReadRecord(json, altered).Corrupt?
    ensures ReadFrom(json, EncodeAll(json, es) + altered, true).Err?
  {
    EncodedCarries(json, es);
    CorruptAfter(json, es, Encoded(json, es), altered, true);
  }

  lemma DetectedBehind<P(!new)>(json: Json<P>, es: seq<Entry<P>>, e: Entry<P>, rest: seq<Byte>, d: nat, b: Byte)
    requires Faithful(json) && Sized(json, es) && Delimited(json) && |json.encode(e)| <= U64_MAX
    requires rest == [] || rest[0] == MAGIC[0]
    requires 32 <= d < 40 && b != (FrameOf(json, e) + rest)[d] && Fits(FrameOf(json, e) + rest, 0, d, b)
    ensures ReadFrom(json, EncodeAll(json, es) + Damaged(FrameOf(json, e) + rest, d, b), true).Err?
  {
    FittingLength(json, e, rest, d, b);
    hide *;
    CorruptBehind(json, es, Damaged(FrameOf(json, e) + rest, d, b));
  }

  lemma DetectedLength<P(!new)>(json: Json<P>, es: seq<Entry<P>>, i: nat, d: nat, b: Byte)
    requires Faithful(json) && Sized(json, es) && Delimited(json) && i < |es| && 32 <= d < 40
    ensures var bytes, start := EncodeAll(json, es), Start(json, es, i);
      && start + HEADER_BYTES <= |bytes|
      && (b != bytes[start + d] && Fits(bytes, start, d, b) ==> ReadFrom(json, Damaged(bytes, start + d, b), true).Err?)
  {
    hide EncodeAll, FrameOf, ReadFrom, ReadRecord, ReadLE, Faithful, Delimited, Damaged, Fits;
    AroundRecord(json, es, i);
    var rest := EncodeAll(json, es[i + 1..]);
    DamagedBehind(EncodeAll(json, es[..i]), FrameOf(json, es[i]) + rest, d, b);
    if b != (FrameOf(json, es[i]) + rest)[d] && Fits(FrameOf(json, es[i]) + rest, 0, d, b) {
      DetectedBehind(json, es[..i], es[i], rest, d, b);
    }
  }

  lemma EncodedParts<P(!new)>(json: Json<P>, es: seq<Entry<P>>, i: nat)
    requires Faithful(json) && Sized(json, es) && i < |es|
    ensures var payloads := Encoded(json, es);
      && Carries(json, es, payloads)
      && Frames(es, payloads) + [] == EncodeAll(json, es) && Frames(es[..i], payloads[..i]) == EncodeAll(json, es[..i])
  {
    EncodedCarries(json, es);
    assert Encoded(json, es[..i]) == Encoded(json, es)[..i];
  }

  lemma MissedLength<P(!new)>(json: Json<P>, es: seq<Entry<P>>, i: nat, d: nat, b: Byte)
    requires Faithful(json) && Sized(json, es) && i < |es| && 32 <= d < 40
    ensures var bytes, start := EncodeAll(json, es), Start(json, es, i);
      && start + HEADER_BYTES <= |bytes|
      && (!Fits(bytes, start, d, b) ==>
            ReadFrom(json, Damaged(bytes, start + d, b), true) == if i == 0 then Err(TruncatedPayload) else Ok(es[..i]))
  {
    hide ReadFrom, ReadLE, Faithful, Carries, Frames, Encoded, EncodeAll;
    EncodedParts(json, es, i);
    DamagedLength(json, es, Encoded(json, es), [], i, d, b);
  }

  /**
   Altering a byte of a record's length field is detected if and only if the record is the first or
   the altered length still fits the file; otherwise the records before it are read as the whole file.
   */
  lemma LengthDamageExact<P(!new)>(json: Json<P>, es: seq<Entry<P>>, i: nat, d: nat, b: Byte)
    requires Faithful(json) && Sized(json, es) && Delimited(json) && i < |es| && 32 <= d < 40
    requires Start(json, es, i) + d < |EncodeAll(json, es)| && b != EncodeAll(json, es)[Start(json, es, i) + d]
    ensures var bytes, start := EncodeAll(json, es), Start(json, es, i);
      var read := ReadFrom(json, Damaged(bytes, start + d, b), true);
      && start + HEADER_BYTES <= |bytes|
      && (read.Err? <==> i == 0 || Fits(bytes, start, d, b))
      && (read.Ok? ==> read == Ok(es[..i]))
  {
    DetectedLength(json, es, i, d, b);
    MissedLength(json, es, i, d, b);
    hide *;
  }

  // ----- The failing inputs -----

  /** A number whose top byte is `b` is at least `b` times 2^56. */
  lemma {:induction false} TopByte(s: seq<Byte>)
    requires s != []
    ensures FromLE(s) >= s[|s| - 1] * Power(256, |s| - 1)
  {
    if |s| > 1 {
      TopByte(s[1..]);
    }
  }

  const TWO_56: nat := 0x100_0000_0000_0000

  lemma TopByteOfLength(bytes: seq<Byte>, start: nat)
    requires start + HEADER_BYTES <= |bytes| && bytes[start + 39] > 0
    ensures ReadLE(bytes, start + 32, 8) >= TWO_56
  {
    var field := bytes[start + 32..start + 40];
    TopByte(field);
    assert field[7] == bytes[start + 39];
    assert Power(256, 7) == TWO_56;
  }

  /**
   Any file below 2^56 bytes, any record but the first, its top length byte set to anything but zero: all is
   lost from there on.
   */
  lemma RaisedLengthDropsRecords<P(!new)>(json: Json<P>, es: seq<Entry<P>>, i: nat, b: Byte)
    requires Faithful(json) && Sized(json, es) && 0 < i < |es| && b > 0 && |EncodeAll(json, es)| < TWO_56
    ensures var bytes, start := EncodeAll(json, es), Start(json, es, i);
      && start + 39 < |bytes| && bytes[start + 39] == 0
      && ReadFrom(json, Damaged(bytes, start + 39, b), true) == Ok(es[..i])
  {
    hide EncodeAll, ReadFrom, ReadLE, Faithful;
    SmallLength(json, es, i);
    MissedLength(json, es, i, 39, b);
    RaisedDoesNotFit(EncodeAll(json, es), Start(json, es, i), b);
  }

  lemma RaisedDoesNotFit(bytes: seq<Byte>, start: nat, b: Byte)
    requires start + HEADER_BYTES <= |bytes| < TWO_56 && b > 0
    ensures !Fits(bytes, start, 39, b)
  {
    TopByteOfLength(Damaged(bytes, start + 39, b), start);
    hide ReadLE;
  }

  lemma SmallLength<P>(json: Json<P>, es: seq<Entry<P>>, i: nat)
    requires Sized(json, es) && i < |es| && |EncodeAll(json, es)| < TWO_56
    ensures var bytes, start := EncodeAll(json, es), Start(json, es, i);
      start + HEADER_BYTES <= |bytes| && bytes[start + 39] == 0
  {
    var bytes, start, before := EncodeAll(json, es), Start(json, es, i), EncodeAll(json, es[..i]);
    var rest := EncodeAll(json, es[i + 1..]);
    var after := FrameOf(json, es[i]) + rest;
    AroundRecord(json, es, i);
    FieldValues(es[i].logId.term, es[i].logId.index, json.encode(es[i]), rest);
    assert bytes[start + 39] == after[39];
    if after[39] > 0 {
      TopByteOfLength(after, 0);
    }
  }
}
