/**
 The Raft log record format and the segment reader (`file_store.rs`): a 40-byte header
 (magic, version, term, index, checksum, payload length) followed by the JSON payload.
 */
module Segments {
  import opened Prelude
  import opened Bytes

  const MAGIC: seq<Byte> := [0x4B, 0x52, 0x4C, 0x4F, 0x47, 0x30, 0x30, 0x31] // "KRLOG001"
  const FORMAT_VERSION: U32 := 1
  const HEADER_BYTES: nat := 8 + 4 + 8 + 8 + 4 + 8

  datatype LogId = LogId(term: U64, nodeId: U64, index: U64)

  datatype Entry<+P> = Entry(logId: LogId, payload: P)

  /** The JSON library, as seen by the store: an encoder and a partial decoder of entries. */
  datatype Json<!P> = Json(encode: Entry<P> -> seq<Byte>, decode: seq<Byte> -> Option<Entry<P>>)

  /** What the store needs of the JSON library. */
  ghost predicate Faithful<P(!new)>(json: Json<P>) {
    forall e: Entry<P> :: json.decode(json.encode(e)) == Some(e)
  }

  /** The payload lengths of these entries fit the length field. */
  ghost predicate Sized<P>(json: Json<P>, es: seq<Entry<P>>) {
    forall i :: 0 <= i < |es| ==> |json.encode(es[i])| <= U64_MAX
  }

  datatype SegmentError =
    | TruncatedHeader
    | InvalidMagic
    | UnsupportedVersion
    | TruncatedPayload
    | ChecksumMismatch
    | InvalidJson
    | HeaderMismatch

  type Segment<P> = Result<seq<Entry<P>>, SegmentError>

  // ----- Writing -----

  /** The length field holds the low 64 bits of the payload's length. */
  function Frame(term: U64, index: U64, payload: seq<Byte>): (frame: seq<Byte>)
    ensures |frame| == HEADER_BYTES + |payload|
  {
    MAGIC + ToLE(FORMAT_VERSION, 4) + ToLE(term, 8) + ToLE(index, 8)
    + ToLE(Checksum(payload), 4) + ToLE(|payload|, 8) + payload
  }

  method EncodeLogRecord<P>(json: Json<P>, entry: Entry<P>) returns (out: seq<Byte>)
    ensures out == Frame(entry.logId.term, entry.logId.index, json.encode(entry))
  {
    var payload := json.encode(entry);
    var checksum := Checksum32(payload);
    out := MAGIC;
    out := out + ToLE(FORMAT_VERSION, 4);
    out := out + ToLE(entry.logId.term, 8);
    out := out + ToLE(entry.logId.index, 8);
    out := out + ToLE(checksum, 4);
    out := out + ToLE(|payload|, 8);
    out := out + payload;
  }

  /** The concatenated records of `es`, record i carrying the payload bytes `payloads[i]`. */
  function Frames<P>(es: seq<Entry<P>>, payloads: seq<seq<Byte>>): (bytes: seq<Byte>)
    requires |es| == |payloads|
  {
    if es == [] then []
    else Frame(es[0].logId.term, es[0].logId.index, payloads[0]) + Frames(es[1..], payloads[1..])
  }

  // ----- Reading -----

  function ReadLE(bytes: seq<Byte>, offset: nat, width: nat): nat
    requires offset + width <= |bytes|
  {
    FromLE(bytes[offset..offset + width])
  }

  datatype Step<+P> =
    | Whole(entry: Entry<P>, size: nat)
    | Torn(reason: SegmentError)
    | Corrupt(error: SegmentError)

  /** What the reader finds at the front of a non-empty remainder of a segment. */
  function ReadRecord<P>(json: Json<P>, bytes: seq<Byte>): (step: Step<P>)
    ensures step.Whole? ==> HEADER_BYTES <= step.size <= |bytes|
  {
    if |bytes| < HEADER_BYTES then Torn(TruncatedHeader)
    else if bytes[..8] != MAGIC then Corrupt(InvalidMagic)
    else if ReadLE(bytes, 8, 4) != FORMAT_VERSION then Corrupt(UnsupportedVersion)
    else
      var length := ReadLE(bytes, 32, 8);
      if |bytes| - HEADER_BYTES < length then Torn(TruncatedPayload)
      else
        var payload := bytes[HEADER_BYTES..HEADER_BYTES + length];
        if Checksum(payload) != ReadLE(bytes, 28, 4) then Corrupt(ChecksumMismatch)
        else
          match json.decode(payload)
          case None => Corrupt(InvalidJson)
          case Some(entry) =>
            if entry.logId.index != ReadLE(bytes, 20, 8) || entry.logId.term != ReadLE(bytes, 12, 8)
            then Corrupt(HeaderMismatch)
            else Whole(entry, HEADER_BYTES + length)
  }

  /** Torn bytes are an error only before the first whole record. */
  function ReadFrom<P>(json: Json<P>, bytes: seq<Byte>, first: bool): Segment<P>
    decreases |bytes|
  {
    if bytes == [] then Ok([])
    else
      match ReadRecord(json, bytes)
      case Torn(reason) => if first then Err(reason) else Ok([])
      case Corrupt(error) => Err(error)
      case Whole(entry, size) =>
        match ReadFrom(json, bytes[size..], false)
        case Ok(rest) => Ok([entry] + rest)
        case Err(error) => Err(error)
  }

  function Prepend<P>(entries: seq<Entry<P>>, rest: Segment<P>): Segment<P> {
    match rest
    case Ok(more) => Ok(entries + more)
    case Err(error) => Err(error)
  }

  lemma PrependNothing<P>(rest: Segment<P>)
    ensures Prepend([], rest) == rest
  {
    if rest.Ok? {
      assert [] + rest.value == rest.value;
    }
  }

  lemma ReadShifted(bytes: seq<Byte>, start: nat, offset: nat, width: nat)
    requires start + offset + width <= |bytes|
    ensures ReadLE(bytes, start + offset, width) == ReadLE(bytes[start..], offset, width)
  {
    assert bytes[start..][offset..offset + width] == bytes[start + offset..start + offset + width];
  }

  /** How the reader's answer so far, `entries`, relates to what the rest of the file decides. */
  lemma ReadOn<P>(json: Json<P>, entries: seq<Entry<P>>, rest: seq<Byte>)
    requires rest != []
    ensures var whole := Prepend(entries, ReadFrom(json, rest, entries == [])); var step := ReadRecord(json, rest);
      && (step.Torn? ==> whole == if entries == [] then Err(step.reason) else Ok(entries))
      && (step.Corrupt? ==> whole == Err(step.error))
      && (step.Whole? ==>
            whole == Prepend(entries + [step.entry], ReadFrom(json, rest[step.size..], false)))
  {
    assert entries + [] == entries;
    var step := ReadRecord(json, rest);
    if step.Whole? {
      var after := ReadFrom(json, rest[step.size..], false);
      if after.Ok? {
        assert entries + ([step.entry] + after.value) == (entries + [step.entry]) + after.value;
      }
    }
  }

  lemma ReadNothing<P>(json: Json<P>, first: bool)
    ensures ReadFrom(json, [], first) == Ok([])
  {
  }

  /** The reader's check for an empty record is omitted: a record has at least its header. */
  method ReadSegmentFile<P>(json: Json<P>, bytes: seq<Byte>) returns (result: Segment<P>)
    ensures result == ReadFrom(json, bytes, true)
  {
    hide ReadFrom, FromLE, Checksum;
    var offset := 0;
    var entries: seq<Entry<P>> := [];
    assert bytes[0..] == bytes;
    PrependNothing(ReadFrom(json, bytes, true));
    while offset < |bytes|
      invariant offset <= |bytes|
      invariant ReadFrom(json, bytes, true) == Prepend(entries, ReadFrom(json, bytes[offset..], entries == []))
    {
      ghost var rest := bytes[offset..];
      ReadOn(json, entries, rest);
      var remaining := |bytes| - offset;
      if remaining < HEADER_BYTES {
        if entries == [] {
          return Err(TruncatedHeader);
        }
        return Ok(entries);
      }
      ghost var start := offset;
      var magic := bytes[offset..offset + 8];
      offset := offset + 8;
      assert magic == rest[..8];
      if magic != MAGIC {
        return Err(InvalidMagic);
      }
      var version := ReadLE(bytes, offset, 4);
      ReadShifted(bytes, start, 8, 4);
      offset := offset + 4;
      if version != FORMAT_VERSION {
        return Err(UnsupportedVersion);
      }
      var term := ReadLE(bytes, offset, 8);
      ReadShifted(bytes, start, 12, 8);
      offset := offset + 8;
      var index := ReadLE(bytes, offset, 8);
      ReadShifted(bytes, start, 20, 8);
      offset := offset + 8;
      var checksum := ReadLE(bytes, offset, 4);
      ReadShifted(bytes, start, 28, 4);
      offset := offset + 4;
      var length := ReadLE(bytes, offset, 8);
      ReadShifted(bytes, start, 32, 8);
      offset := offset + 8;
      if |bytes| - offset < length {
        if entries == [] {
          return Err(TruncatedPayload);
        }
        return Ok(entries);
      }
      var payload := bytes[offset..offset + length];
      offset := offset + length;
      assert payload == rest[HEADER_BYTES..HEADER_BYTES + length];
      var actual := Checksum32(payload);
      if actual != checksum {
        return Err(ChecksumMismatch);
      }
      var decoded := json.decode(payload);
      if decoded == None {
        return Err(InvalidJson);
      }
      var entry := decoded.value;
      if entry.logId.index != index || entry.logId.term != term {
        return Err(HeaderMismatch);
      }
      assert rest[HEADER_BYTES + length..] == bytes[offset..];
      entries := entries + [entry];
    }
    ReadNothing(json, entries == []);
    assert bytes[|bytes|..] == [] && entries + [] == entries;
    return Ok(entries);
  }
}
