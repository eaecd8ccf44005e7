/** What the segment reader accepts, what it makes of a truncated file, and which damage it detects. */
module SegmentFormat {
  import opened Prelude
  import opened Bytes
  import opened Segments

  /** The payloads of whole records, as the JSON decoder sees them. */
  ghost predicate Carries<P>(json: Json<P>, es: seq<Entry<P>>, payloads: seq<seq<Byte>>) {
    && |es| == |payloads|
    && (forall p :: p in payloads ==> |p| <= U64_MAX)
    && (forall i :: 0 <= i < |es| ==> json.decode(payloads[i]) == Some(es[i]))
  }

  /** The bytes of one record that was not completely written: a short or promising too much payload. */
  ghost predicate IsTail(bytes: seq<Byte>) {
    || |bytes| < HEADER_BYTES
    || (bytes[..12] == MAGIC + ToLE(FORMAT_VERSION, 4) && |bytes| - HEADER_BYTES < ReadLE(bytes, 32, 8))
  }

  /** A file is whole records followed by one torn record; a file may be torn only after a whole record. */
  ghost predicate Layout<P>(json: Json<P>, bytes: seq<Byte>, first: bool,
                            es: seq<Entry<P>>, payloads: seq<seq<Byte>>, tail: seq<Byte>)
  {
    && Carries(json, es, payloads)
    && bytes == Frames(es, payloads) + tail
    && IsTail(tail)
    && (first && es == [] ==> tail == [])
  }

  lemma FrameFields(term: U64, index: U64, payload: seq<Byte>, rest: seq<Byte>)
    requires |payload| <= U64_MAX
    ensures var bytes := Frame(term, index, payload) + rest;
      && bytes[..8] == MAGIC
      && bytes[8..12] == ToLE(FORMAT_VERSION, 4)
      && bytes[12..20] == ToLE(term, 8)
      && bytes[20..28] == ToLE(index, 8)
      && bytes[28..32] == ToLE(Checksum(payload), 4)
      && bytes[32..40] == ToLE(|payload|, 8)
      && bytes[HEADER_BYTES..HEADER_BYTES + |payload|] == payload
  {
    hide ToLE, Checksum;
  }

  lemma FieldValues(term: U64, index: U64, payload: seq<Byte>, rest: seq<Byte>)
    requires |payload| <= U64_MAX
    ensures var bytes := Frame(term, index, payload) + rest;
      && ReadLE(bytes, 8, 4) == FORMAT_VERSION
      && ReadLE(bytes, 12, 8) == term
      && ReadLE(bytes, 20, 8) == index
      && ReadLE(bytes, 28, 4) == Checksum(payload)
      && ReadLE(bytes, 32, 8) == |payload|
  {
    FrameFields(term, index, payload, rest);
    Widths();
    FromToLE(FORMAT_VERSION, 4);
    FromToLE(term, 8);
    FromToLE(index, 8);
    FromToLE(Checksum(payload), 4);
    FromToLE(|payload|, 8);
  }

  lemma ReadFrame<P>(json: Json<P>, e: Entry<P>, payload: seq<Byte>, rest: seq<Byte>)
    requires |payload| <= U64_MAX && json.decode(payload) == Some(e)
    ensures ReadRecord(json, Frame(e.logId.term, e.logId.index, payload) + rest)
         == Whole(e, HEADER_BYTES + |payload|)
  {
    FrameFields(e.logId.term, e.logId.index, payload, rest);
    FieldValues(e.logId.term, e.logId.index, payload, rest);
  }

  lemma WholeIsFrame<P>(json: Json<P>, bytes: seq<Byte>)
    requires ReadRecord(json, bytes).Whole?
    ensures var Whole(e, size) := ReadRecord(json, bytes); var payload := bytes[HEADER_BYTES..size];
      && |payload| <= U64_MAX
      && json.decode(payload) == Some(e)
      && bytes[..size] == Frame(e.logId.term, e.logId.index, payload)
  {
    var Whole(e, size) := ReadRecord(json, bytes);
    Widths();
    LEBound(bytes[32..40]);
    ToFromLE(bytes[8..12]);
    ToFromLE(bytes[12..20]);
    ToFromLE(bytes[20..28]);
    ToFromLE(bytes[28..32]);
    ToFromLE(bytes[32..40]);
    Slices(bytes, size);
  }

  lemma Slices(bytes: seq<Byte>, size: nat)
    requires HEADER_BYTES <= size <= |bytes|
    ensures bytes[..size] == bytes[..8] + bytes[8..12] + bytes[12..20] + bytes[20..28] + bytes[28..32]
                           + bytes[32..40] + bytes[HEADER_BYTES..size]
  {
  }

  lemma {:induction false} LEBound(s: seq<Byte>)
    ensures FromLE(s) < Power(256, |s|)
  {
    if s != [] {
      LEBound(s[1..]);
    }
  }

  lemma TornIsTail<P>(json: Json<P>, bytes: seq<Byte>)
    ensures bytes == [] || ReadRecord(json, bytes).Torn? <==> IsTail(bytes)
  {
    if |bytes| >= HEADER_BYTES {
      assert bytes[..12] == bytes[..8] + bytes[8..12];
      Widths();
      FromToLE(FORMAT_VERSION, 4);
      if ReadLE(bytes, 8, 4) == FORMAT_VERSION {
        FromLEInjective(bytes[8..12], ToLE(FORMAT_VERSION, 4));
      }
    }
  }

  /** A whole record at the front is read, and then the rest. */
  lemma ReadFirst<P>(json: Json<P>, e: Entry<P>, payload: seq<Byte>, rest: seq<Byte>, first: bool)
    requires |payload| <= U64_MAX && json.decode(payload) == Some(e)
    ensures var read := ReadFrom(json, Frame(e.logId.term, e.logId.index, payload) + rest, first);
      read == Prepend([e], ReadFrom(json, rest, false))
  {
    var head := Frame(e.logId.term, e.logId.index, payload);
    ReadFrame(json, e, payload, rest);
    assert head + rest != [] && (head + rest)[|head|..] == rest;
    hide Frame, ReadRecord;
  }

  lemma {:induction false} ReadLayout<P>(json: Json<P>, bytes: seq<Byte>, first: bool,
                                         es: seq<Entry<P>>, payloads: seq<seq<Byte>>, tail: seq<Byte>)
    requires Layout(json, bytes, first, es, payloads, tail)
    ensures ReadFrom(json, bytes, first) == Ok(es)
    decreases |es|
  {
    TornIsTail(json, tail);
    hide Frame, IsTail, ReadRecord;
    if es == [] {
      assert bytes == tail;
    } else {
      var rest := Frames(es[1..], payloads[1..]) + tail;
      assert bytes == Frame(es[0].logId.term, es[0].logId.index, payloads[0]) + rest;
      ReadFirst(json, es[0], payloads[0], rest, first);
      ReadLayout(json, rest, false, es[1..], payloads[1..], tail);
      assert [es[0]] + es[1..] == es;
    }
  }

  lemma LayoutCons<P>(json: Json<P>, e: Entry<P>, payload: seq<Byte>, rest: seq<Byte>, first: bool,
                      es: seq<Entry<P>>, payloads: seq<seq<Byte>>, tail: seq<Byte>)
    requires Layout(json, rest, false, es, payloads, tail)
    requires |payload| <= U64_MAX && json.decode(payload) == Some(e)
    ensures Layout(json, Frame(e.logId.term, e.logId.index, payload) + rest, first, [e] + es, [payload] + payloads, tail)
  {
    assert ([e] + es)[1..] == es && ([payload] + payloads)[1..] == payloads;
    var frame := Frame(e.logId.term, e.logId.index, payload);
    assert frame + (Frames(es, payloads) + tail) == (frame + Frames(es, payloads)) + tail;
  }

  /** An accepted file is either a torn tail or a whole record followed by an accepted file. */
  lemma HeadOfRead<P>(json: Json<P>, bytes: seq<Byte>, first: bool, es: seq<Entry<P>>)
    returns (payload: seq<Byte>, rest: seq<Byte>)
    requires ReadFrom(json, bytes, first) == Ok(es)
    ensures es == [] ==> IsTail(bytes) && (first ==> bytes == [])
    ensures es != [] ==>
      && |payload| <= U64_MAX && json.decode(payload) == Some(es[0])
      && bytes == Frame(es[0].logId.term, es[0].logId.index, payload) + rest
      && |rest| < |bytes|
      && ReadFrom(json, rest, false) == Ok(es[1..])
  {
    TornIsTail(json, bytes);
    hide IsTail, Frame, ReadRecord;
    payload, rest := [], [];
    if es != [] {
      WholeIsFrame(json, bytes);
      var size := ReadRecord(json, bytes).size;
      payload, rest := bytes[HEADER_BYTES..size], bytes[size..];
      assert bytes == bytes[..size] + rest;
    }
  }

  lemma {:induction false} LayoutOfRead<P>(json: Json<P>, bytes: seq<Byte>, first: bool, es: seq<Entry<P>>)
    returns (payloads: seq<seq<Byte>>, tail: seq<Byte>)
    requires ReadFrom(json, bytes, first) == Ok(es)
    ensures Layout(json, bytes, first, es, payloads, tail)
    decreases |bytes|
  {
    var payload, rest := HeadOfRead(json, bytes, first, es);
    if es == [] {
      payloads, tail := [], bytes;
      assert [] + bytes == bytes;
    } else {
      var more, last := LayoutOfRead(json, rest, false, es[1..]);
      LayoutCons(json, es[0], payload, rest, first, es[1..], more, last);
      assert [es[0]] + es[1..] == es;
      payloads, tail := [payload] + more, last;
    }
  }

  /**
   The reader accepts exactly the files made of whole records and one torn tail, and returns
   exactly those records.
   */
  lemma AcceptedFiles<P>(json: Json<P>, bytes: seq<Byte>, es: seq<Entry<P>>)
    ensures ReadFrom(json, bytes, true) == Ok(es)
       <==> exists payloads, tail :: Layout(json, bytes, true, es, payloads, tail)
  {
    if ReadFrom(json, bytes, true) == Ok(es) {
      var payloads, tail := LayoutOfRead(json, bytes, true, es);
    }
    if exists payloads, tail :: Layout(json, bytes, true, es, payloads, tail) {
      var payloads, tail :| Layout(json, bytes, true, es, payloads, tail);
      ReadLayout(json, bytes, true, es, payloads, tail);
    }
  }

  // ----- Truncation -----

  ghost function Encoded<P>(json: Json<P>, es: seq<Entry<P>>): (payloads: seq<seq<Byte>>)
    ensures |payloads| == |es|
  {
    seq(|es|, i requires 0 <= i < |es| => json.encode(es[i]))
  }

  /** The bytes `rewrite_log_segments` writes for `es`. */
  ghost function EncodeAll<P>(json: Json<P>, es: seq<Entry<P>>): seq<Byte> {
    Frames(es, Encoded(json, es))
  }

  lemma EncodedCarries<P(!new)>(json: Json<P>, es: seq<Entry<P>>)
    requires Faithful(json) && Sized(json, es)
    ensures Carries(json, es, Encoded(json, es))
  {
  }

  lemma {:induction false} FramesAppend<P>(es: seq<Entry<P>>, ps: seq<seq<Byte>>, fs: seq<Entry<P>>, qs: seq<seq<Byte>>)
    requires |es| == |ps| && |fs| == |qs|
    ensures Frames(es + fs, ps + qs) == Frames(es, ps) + Frames(fs, qs)
  {
    if es == [] {
      assert es + fs == fs && ps + qs == qs;
    } else {
      assert (es + fs)[1..] == es[1..] + fs && (ps + qs)[1..] == ps[1..] + qs;
      FramesAppend(es[1..], ps[1..], fs, qs);
    }
  }

  /** A proper prefix of a record is a torn tail. */
  lemma PrefixOfFrameIsTail(term: U64, index: U64, payload: seq<Byte>, n: nat)
    requires |payload| <= U64_MAX && n < HEADER_BYTES + |payload|
    ensures IsTail(Frame(term, index, payload)[..n])
  {
    var frame := Frame(term, index, payload);
    FrameFields(term, index, payload, []);
    FieldValues(term, index, payload, []);
    assert frame + [] == frame;
    if n >= HEADER_BYTES {
      assert frame[..n][32..40] == frame[32..40];
      assert frame[..n][..12] == frame[..8] + frame[8..12];
    }
  }

  /** The bytes after the last whole record of a truncated segment. */
  lemma TailOfTruncation<P>(json: Json<P>, es: seq<Entry<P>>, n: nat, k: nat) returns (tail: seq<Byte>)
    requires Sized(json, es)
    requires k <= |es| && |EncodeAll(json, es[..k])| <= n <= |EncodeAll(json, es)|
    requires k < |es| ==> n < |EncodeAll(json, es[..k + 1])|
    ensures EncodeAll(json, es)[..n] == EncodeAll(json, es[..k]) + tail
    ensures IsTail(tail)
    ensures |tail| >= HEADER_BYTES ==> tail[..8] == MAGIC
  {
    var whole := EncodeAll(json, es[..k]);
    SplitEncoding(json, es, k);
    tail := EncodeAll(json, es)[..n][|whole|..];
    if k < |es| {
      var e := es[k];
      var frame := Frame(e.logId.term, e.logId.index, json.encode(e));
      SplitEncoding(json, es[..k + 1], k);
      assert es[..k + 1][..k] == es[..k] && es[..k + 1][k..] == [e] && es[k..][..1] == [e];
      SplitEncoding(json, es[k..], 1);
      OneFrame(json, e);
      assert tail == frame[..n - |whole|];
      PrefixOfFrameIsTail(e.logId.term, e.logId.index, json.encode(e), n - |whole|);
    } else {
      assert es[..k] == es && tail == [];
    }
  }

  /**
   Truncating a written segment after any number of bytes keeps exactly the whole records, unless
   no record is whole: then an empty file is empty and any other file is an error.
   */
  lemma TruncatedSegment<P(!new)>(json: Json<P>, es: seq<Entry<P>>, n: nat, k: nat)
    requires Faithful(json) && Sized(json, es)
    requires k <= |es| && |EncodeAll(json, es[..k])| <= n <= |EncodeAll(json, es)|
    requires k < |es| ==> n < |EncodeAll(json, es[..k + 1])|
    ensures var read := ReadFrom(json, EncodeAll(json, es)[..n], true);
      if k == 0 && n > 0 then read == Err(if n < HEADER_BYTES then TruncatedHeader else TruncatedPayload)
      else read == Ok(es[..k])
  {
    var tail := TailOfTruncation(json, es, n, k);
    if k > 0 || n == 0 {
      EncodedCarries(json, es[..k]);
      ReadLayout(json, EncodeAll(json, es)[..n], true, es[..k], Encoded(json, es[..k]), tail);
    } else {
      assert EncodeAll(json, es)[..n] == tail;
      TornIsTail(json, tail);
    }
  }

  /** `TruncatedSegment` for every number of bytes. */
  lemma EveryTruncation<P(!new)>(json: Json<P>, es: seq<Entry<P>>, n: nat) returns (k: nat)
    requires Faithful(json) && Sized(json, es) && n <= |EncodeAll(json, es)|
    ensures k <= |es| && |EncodeAll(json, es[..k])| <= n
    ensures k < |es| ==> n < |EncodeAll(json, es[..k + 1])|
    ensures ReadFrom(json, EncodeAll(json, es)[..n], true)
         == if k == 0 && n > 0 then Err(if n < HEADER_BYTES then TruncatedHeader else TruncatedPayload)
            else Ok(es[..k])
  {
    k := 0;
    while k < |es| && |EncodeAll(json, es[..k + 1])| <= n
      invariant k <= |es| && |EncodeAll(json, es[..k])| <= n
    {
      k := k + 1;
    }
    TruncatedSegment(json, es, n, k);
  }

  lemma OneFrame<P>(json: Json<P>, e: Entry<P>)
    ensures EncodeAll(json, [e]) == Frame(e.logId.term, e.logId.index, json.encode(e))
  {
    assert Encoded(json, [e]) == [json.encode(e)];
    assert Frames([e][1..], Encoded(json, [e])[1..]) == [];
  }

  lemma SplitEncoding<P>(json: Json<P>, es: seq<Entry<P>>, k: nat)
    requires k <= |es|
    ensures EncodeAll(json, es) == EncodeAll(json, es[..k]) + EncodeAll(json, es[k..])
  {
    assert es == es[..k] + es[k..];
    assert Encoded(json, es) == Encoded(json, es[..k]) + Encoded(json, es[k..]);
    FramesAppend(es[..k], Encoded(json, es[..k]), es[k..], Encoded(json, es[k..]));
  }

  /** Writing records and reading them back is the identity. */
  lemma ReadBack<P(!new)>(json: Json<P>, es: seq<Entry<P>>)
    requires Faithful(json) && Sized(json, es)
    ensures ReadFrom(json, EncodeAll(json, es), true) == Ok(es)
  {
    EncodedCarries(json, es);
    ReadLayout(json, EncodeAll(json, es), true, es, Encoded(json, es), []);
  }

  // ----- Damage -----

  /** One altered byte of a record, outside its length field, is recognised at that record. */
  lemma DamagedFrame<P>(json: Json<P>, e: Entry<P>, payload: seq<Byte>, rest: seq<Byte>, d: nat, b: Byte)
    requires |payload| <= U64_MAX && json.decode(payload) == Some(e)
    requires d < HEADER_BYTES + |payload| && !(32 <= d < 40)
    requires b != (Frame(e.logId.term, e.logId.index, payload) + rest)[d]
    ensures ReadRecord(json, (Frame(e.logId.term, e.logId.index, payload) + rest)[d := b]).Corrupt?
  {
    var bytes := Frame(e.logId.term, e.logId.index, payload) + rest;
    var damaged := bytes[d := b];
    var size := HEADER_BYTES + |payload|;
    FrameFields(e.logId.term, e.logId.index, payload, rest);
    FieldValues(e.logId.term, e.logId.index, payload, rest);
    assert damaged[32..40] == bytes[32..40];
    if d < 8 {
      assert damaged[..8][d] != MAGIC[d];
    } else if d < 12 {
      DamagedField(bytes, d, b, 8, 4);
    } else if d < 20 {
      DamagedField(bytes, d, b, 12, 8);
      assert damaged[HEADER_BYTES..size] == payload;
    } else if d < 28 {
      DamagedField(bytes, d, b, 20, 8);
      assert damaged[HEADER_BYTES..size] == payload;
    } else if d < 32 {
      DamagedField(bytes, d, b, 28, 4);
      assert damaged[HEADER_BYTES..size] == payload;
    } else {
      assert damaged[HEADER_BYTES..size] == payload[d - HEADER_BYTES := b];
      assert damaged[28..32] == bytes[28..32];
      ChecksumDetectsByte(payload, d - HEADER_BYTES, b);
    }
  }

  lemma DamagedField(bytes: seq<Byte>, d: nat, b: Byte, start: nat, width: nat)
    requires start <= d < start + width <= |bytes| && b != bytes[d]
    ensures ReadLE(bytes[d := b], start, width) != ReadLE(bytes, start, width)
  {
    var field := bytes[start..start + width];
    var damaged := bytes[d := b][start..start + width];
    assert damaged[d - start] == b != field[d - start];
    if FromLE(field) == FromLE(damaged) {
      FromLEInjective(field, damaged);
    }
  }

  lemma CorruptFirst<P>(json: Json<P>, bytes: seq<Byte>, first: bool)
    requires bytes != [] && ReadRecord(json, bytes).Corrupt?
    ensures ReadFrom(json, bytes, first).Err?
  {
    hide ReadRecord;
  }

  lemma {:induction false} CorruptAfter<P>(json: Json<P>, es: seq<Entry<P>>, payloads: seq<seq<Byte>>,
                                           rest: seq<Byte>, first: bool)
    requires Carries(json, es, payloads)
    requires rest != [] && ReadRecord(json, rest).Corrupt?
    ensures ReadFrom(json, Frames(es, payloads) + rest, first).Err?
    decreases |es|
  {
    var bytes := Frames(es, payloads) + rest;
    CorruptFirst(json, rest, first);
    hide Frame, ReadFrom, ReadRecord;
    if es == [] {
      assert bytes == rest;
    } else {
      var more := Frames(es[1..], payloads[1..]) + rest;
      assert bytes == Frame(es[0].logId.term, es[0].logId.index, payloads[0]) + more;
      ReadFirst(json, es[0], payloads[0], more, first);
      CorruptAfter(json, es[1..], payloads[1..], rest, false);
    }
  }

  lemma LocateRecord<P>(es: seq<Entry<P>>, payloads: seq<seq<Byte>>, tail: seq<Byte>, i: nat)
    returns (rest: seq<Byte>)
    requires |es| == |payloads| && i < |es|
    ensures Frames(es, payloads) + tail
         == Frames(es[..i], payloads[..i])
            + (Frame(es[i].logId.term, es[i].logId.index, payloads[i]) + rest)
    ensures rest == Frames(es[i + 1..], payloads[i + 1..]) + tail
  {
    assert es[i..][1..] == es[i + 1..] && payloads[i..][1..] == payloads[i + 1..];
    assert es == es[..i] + es[i..] && payloads == payloads[..i] + payloads[i..];
    FramesAppend(es[..i], payloads[..i], es[i..], payloads[i..]);
    rest := Frames(es[i..][1..], payloads[i..][1..]) + tail;
    Associate(Frames(es[..i], payloads[..i]), Frame(es[i].logId.term, es[i].logId.index, payloads[i]),
              Frames(es[i..][1..], payloads[i..][1..]), tail);
  }

  lemma Associate(a: seq<Byte>, b: seq<Byte>, c: seq<Byte>, d: seq<Byte>)
    ensures (a + (b + c)) + d == a + (b + (c + d))
  {
  }

  function Damaged(bytes: seq<Byte>, at: nat, b: Byte): (damaged: seq<Byte>)
    requires at < |bytes|
    ensures |damaged| == |bytes|
  {
    bytes[at := b]
  }

  lemma UpdateAfter(before: seq<Byte>, after: seq<Byte>, d: nat, b: Byte)
    requires d < |after|
    ensures (before + after)[|before| + d] == after[d]
    ensures Damaged(before + after, |before| + d, b) == before + Damaged(after, d, b)
  {
  }

  /** The file from record `i` on. */
  lemma FromRecord<P>(json: Json<P>, es: seq<Entry<P>>, payloads: seq<seq<Byte>>, tail: seq<Byte>, i: nat)
    returns (rest: seq<Byte>, after: seq<Byte>)
    requires Carries(json, es, payloads) && i < |es|
    ensures after == Frame(es[i].logId.term, es[i].logId.index, payloads[i]) + rest
    ensures Frames(es, payloads) + tail == Frames(es[..i], payloads[..i]) + after
    ensures |es| == |payloads| && |after| >= HEADER_BYTES + |payloads[i]|
    ensures Carries(json, es[..i], payloads[..i]) && |payloads[i]| <= U64_MAX && json.decode(payloads[i]) == Some(es[i])
  {
    rest := LocateRecord(es, payloads, tail, i);
    after := Frame(es[i].logId.term, es[i].logId.index, payloads[i]) + rest;
  }

  /**
   In whole records followed by anything -- so in every file the reader accepts -- altering any one
   byte of any record `i`, outside that record's 8-byte length field, makes the reader fail.
   */
  lemma DamagedSegment<P>(json: Json<P>, es: seq<Entry<P>>, payloads: seq<seq<Byte>>, tail: seq<Byte>,
                          i: nat, d: nat, b: Byte)
    requires Carries(json, es, payloads)
    requires i < |es| && d < HEADER_BYTES + |payloads[i]| && !(32 <= d < 40)
    ensures var bytes := Frames(es, payloads) + tail; var start := |Frames(es[..i], payloads[..i])|;
      && start + HEADER_BYTES + |payloads[i]| <= |bytes|
      && (b != bytes[start + d] ==> ReadFrom(json, bytes[start + d := b], true).Err?)
  {
    var rest, after := FromRecord(json, es, payloads, tail, i);
    var before, torn := Frames(es[..i], payloads[..i]), Damaged(after, d, b);
    if b != after[d] {
      DamagedFrame(json, es[i], payloads[i], rest, d, b);
      hide *;
      CorruptAfter(json, es[..i], payloads[..i], torn, true);
    }
    hide *;
    UpdateAfter(before, after, d, b);
  }

  lemma LongRecord<P>(json: Json<P>, term: U64, index: U64, payload: seq<Byte>, rest: seq<Byte>, d: nat, b: Byte)
    requires |payload| <= U64_MAX && 32 <= d < 40
    ensures |Frame(term, index, payload) + rest| >= HEADER_BYTES
    ensures var torn := Damaged(Frame(term, index, payload) + rest, d, b);
      ReadLE(torn, 32, 8) > |torn| - HEADER_BYTES ==>
        IsTail(torn) && ReadFrom(json, torn, true) == Err(TruncatedPayload)
  {
    var bytes := Frame(term, index, payload) + rest;
    FrameFields(term, index, payload, rest);
    assert bytes[d := b][..12] == bytes[..8] + bytes[8..12];
    assert bytes[d := b][..8] == bytes[..8];
    TornIsTail(json, bytes[d := b]);
    hide Frame;
  }

  lemma LengthBehind(before: seq<Byte>, torn: seq<Byte>)
    requires HEADER_BYTES <= |torn|
    ensures ReadLE(before + torn, |before| + 32, 8) == ReadLE(torn, 32, 8)
  {
    ReadShifted(before + torn, |before|, 32, 8);
    assert (before + torn)[|before|..] == torn;
    hide ReadLE;
  }

  lemma TornAfter<P>(json: Json<P>, es: seq<Entry<P>>, payloads: seq<seq<Byte>>, torn: seq<Byte>)
    requires Carries(json, es, payloads) && IsTail(torn) && ReadFrom(json, torn, true) == Err(TruncatedPayload)
    ensures ReadFrom(json, Frames(es, payloads) + torn, true) == if es == [] then Err(TruncatedPayload) else Ok(es)
  {
    if es == [] {
      assert Frames(es, payloads) + torn == torn;
    } else {
      hide IsTail, ReadFrom, Carries;
      ReadLayout(json, Frames(es, payloads) + torn, true, es, payloads, torn);
    }
  }

  /** A record whose length field is altered, after whole records `es`. */
  lemma LengthAfter<P>(json: Json<P>, es: seq<Entry<P>>, payloads: seq<seq<Byte>>, e: Entry<P>, payload: seq<Byte>,
                       rest: seq<Byte>, d: nat, b: Byte)
    requires Carries(json, es, payloads) && |payload| <= U64_MAX && 32 <= d < 40
    ensures var before, after := Frames(es, payloads), Frame(e.logId.term, e.logId.index, payload) + rest;
      var torn := Damaged(after, d, b);
      && |after| >= HEADER_BYTES && ReadLE(before + torn, |before| + 32, 8) == ReadLE(torn, 32, 8)
      && (ReadLE(torn, 32, 8) > |torn| - HEADER_BYTES ==>
            ReadFrom(json, before + torn, true) == if es == [] then Err(TruncatedPayload) else Ok(es))
  {
    var torn := Damaged(Frame(e.logId.term, e.logId.index, payload) + rest, d, b);
    LongRecord(json, e.logId.term, e.logId.index, payload, rest, d, b);
    hide *;
    LengthBehind(Frames(es, payloads), torn);
    if ReadLE(torn, 32, 8) > |torn| - HEADER_BYTES {
      TornAfter(json, es, payloads, torn);
    }
  }

  lemma LengthInside<P>(json: Json<P>, bytes: seq<Byte>, before: seq<Byte>, after: seq<Byte>, d: nat, b: Byte,
                        es: seq<Entry<P>>)
    requires bytes == before + after && |after| >= HEADER_BYTES > d
    requires var torn := Damaged(after, d, b);
      && ReadLE(before + torn, |before| + 32, 8) == ReadLE(torn, 32, 8)
      && (ReadLE(torn, 32, 8) > |torn| - HEADER_BYTES ==>
            ReadFrom(json, before + torn, true) == if es == [] then Err(TruncatedPayload) else Ok(es))
    ensures ReadLE(Damaged(bytes, |before| + d, b), |before| + 32, 8) > |bytes| - |before| - HEADER_BYTES ==>
      ReadFrom(json, Damaged(bytes, |before| + d, b), true) == if es == [] then Err(TruncatedPayload) else Ok(es)
  {
    UpdateAfter(before, after, d, b);
    hide *;
  }

  /**
   The length field is the exception. If its altered value promises more bytes than the file
   holds, the record is taken for a torn tail: it and all later records are dropped in silence,
   unless it is the first record.
   */
  lemma DamagedLength<P>(json: Json<P>, es: seq<Entry<P>>, payloads: seq<seq<Byte>>, tail: seq<Byte>,
                         i: nat, d: nat, b: Byte)
    requires Carries(json, es, payloads)
    requires i < |es| && 32 <= d < 40
    ensures var bytes := Frames(es, payloads) + tail; var start := |Frames(es[..i], payloads[..i])|;
      && start + HEADER_BYTES <= |bytes|
      && (ReadLE(Damaged(bytes, start + d, b), start + 32, 8) > |bytes| - start - HEADER_BYTES ==>
            ReadFrom(json, Damaged(bytes, start + d, b), true) == if i == 0 then Err(TruncatedPayload) else Ok(es[..i]))
  {
    assert HEADER_BYTES == 40;
    hide *;
    var rest, after := FromRecord(json, es, payloads, tail, i);
    LengthAfter(json, es[..i], payloads[..i], es[i], payloads[i], rest, d, b);
    LengthInside(json, Frames(es, payloads) + tail, Frames(es[..i], payloads[..i]), after, d, b, es[..i]);
  }
}
