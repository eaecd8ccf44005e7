/**
 The segmented Raft log store (`file_store.rs`): the in-memory log is rewritten into size-limited
 segment files, described by a manifest, after every change, and read back when the store opens.
 */
module LogStore {
  import opened Prelude
  import opened Bytes
  import opened Segments
  import opened SegmentFormat

  const LOG_SEGMENT_MAX_BYTES: nat := 64 * 1024 * 1024

  type Log<P> = map<U64, Entry<P>>

  datatype SegmentMeta = SegmentMeta(firstIndex: U64, lastIndex: U64, file: string)

  datatype Manifest = Manifest(formatVersion: U32, lastPurged: Option<LogId>, segments: seq<SegmentMeta>)

  datatype StoreError = MissingSegment(file: string) | BadSegment(error: SegmentError)

  // ----- File names -----

  const HEX: string := "0123456789abcdef"

  function HexDigits(n: nat, width: nat): (s: string)
    ensures |s| == width
  {
    if width == 0 then "" else HexDigits(n / 16, width - 1) + [HEX[n % 16]]
  }

  function SegmentFileName(first: U64, last: U64): string {
    HexDigits(first, 16) + "-" + HexDigits(last, 16) + ".seg"
  }

  lemma {:induction false} HexInjective(m: nat, n: nat, width: nat)
    requires m < Power(16, width) && n < Power(16, width)
    requires HexDigits(m, width) == HexDigits(n, width)
    ensures m == n
  {
    if width > 0 {
      var s := HexDigits(m, width);
      assert s[..width - 1] == HexDigits(m / 16, width - 1) == HexDigits(n / 16, width - 1);
      assert s[width - 1] == HEX[m % 16] == HEX[n % 16];
      QuotientBelow(m, width);
      QuotientBelow(n, width);
      hide HexDigits, Power;
      SameDigit(m % 16, n % 16);
      HexInjective(m / 16, n / 16, width - 1);
    }
  }

  lemma QuotientBelow(n: nat, width: nat)
    requires width > 0 && n < Power(16, width)
    ensures n / 16 < Power(16, width - 1)
  {
  }

  lemma SameDigit(a: nat, b: nat)
    requires a < 16 && b < 16 && HEX[a] == HEX[b]
    ensures a == b
  {
  }

  lemma HexWidth()
    ensures Power(16, 16) == U64_MAX + 1
  {
    assert Power(16, 4) == 0x1_0000 by { assert Power(16, 2) == 256; }
    assert Power(16, 8) == 0x1_0000 * Power(16, 4) by { assert Power(16, 6) == 256 * Power(16, 4); }
    assert Power(16, 12) == 0x1_0000 * Power(16, 8) by { assert Power(16, 10) == 256 * Power(16, 8); }
    assert Power(16, 16) == 0x1_0000 * Power(16, 12) by { assert Power(16, 14) == 256 * Power(16, 12); }
  }

  /** Segment files are named apart. */
  lemma FileNameInjective(first: U64, last: U64, first': U64, last': U64)
    requires SegmentFileName(first, last) == SegmentFileName(first', last')
    ensures first == first' && last == last'
  {
    var s := SegmentFileName(first, last);
    HexWidth();
    assert HexDigits(first, 16) == s[..16] == HexDigits(first', 16);
    assert HexDigits(last, 16) == s[17..33] == HexDigits(last', 16);
    HexInjective(first, first', 16);
    HexInjective(last, last', 16);
  }

  // ----- What a rewrite leaves on disk -----

  ghost predicate Ascending<P>(es: seq<Entry<P>>) {
    forall i, j :: 0 <= i < j < |es| ==> es[i].logId.index < es[j].logId.index
  }

  /** `BTreeMap::insert`, entry by entry. */
  function InsertAll<P>(log: Log<P>, es: seq<Entry<P>>): Log<P>
    decreases |es|
  {
    if es == [] then log else InsertAll(log[es[0].logId.index := es[0]], es[1..])
  }

  ghost function Flatten<P>(chunks: seq<seq<Entry<P>>>): seq<Entry<P>> {
    if chunks == [] then [] else Flatten(chunks[..|chunks| - 1]) + chunks[|chunks| - 1]
  }

  /** A segment is below the size limit before its last record. */
  ghost predicate FitsLimit<P>(json: Json<P>, chunk: seq<Entry<P>>) {
    chunk != [] && |EncodeAll(json, chunk[..|chunk| - 1])| < LOG_SEGMENT_MAX_BYTES
  }

  ghost function MetaOf<P>(chunk: seq<Entry<P>>): SegmentMeta
    requires chunk != []
  {
    var first := chunk[0].logId.index;
    var last := chunk[|chunk| - 1].logId.index;
    SegmentMeta(first, last, SegmentFileName(first, last))
  }

  /** The files and manifest describe `chunks`, one segment each, and nothing else. */
  ghost predicate Describes<P>(json: Json<P>, chunks: seq<seq<Entry<P>>>,
                               segments: seq<SegmentMeta>, files: map<string, seq<Byte>>)
  {
    && |segments| == |chunks|
    && (forall i :: 0 <= i < |chunks| ==> chunks[i] != [] && segments[i] == MetaOf(chunks[i]))
    && (forall i :: 0 <= i < |segments| ==>
          segments[i].file in files && files[segments[i].file] == EncodeAll(json, chunks[i]))
    && (forall name :: name in files ==> exists i :: 0 <= i < |segments| && segments[i].file == name)
  }

  /** Every segment is full except possibly the last, and none was full before its last record. */
  ghost predicate Rotated<P>(json: Json<P>, chunks: seq<seq<Entry<P>>>) {
    && (forall i :: 0 <= i < |chunks| ==> FitsLimit(json, chunks[i]))
    && (forall i :: 0 <= i < |chunks| - 1 ==> |EncodeAll(json, chunks[i])| >= LOG_SEGMENT_MAX_BYTES)
  }

  // ----- Reading the segments back -----

  function ReadSegments<P>(json: Json<P>, segments: seq<SegmentMeta>, files: map<string, seq<Byte>>,
                           log: Log<P>): Result<Log<P>, StoreError>
  {
    if segments == [] then Ok(log)
    else if segments[0].file !in files then Err(MissingSegment(segments[0].file))
    else
      match ReadFrom(json, files[segments[0].file], true)
      case Err(error) => Err(BadSegment(error))
      case Ok(es) => ReadSegments(json, segments[1..], files, InsertAll(log, es))
  }

  method ReadLogSegments<P>(json: Json<P>, manifest: Manifest, files: map<string, seq<Byte>>)
    returns (result: Result<Log<P>, StoreError>)
    ensures result == ReadSegments(json, manifest.segments, files, map[])
  {
    var log: Log<P> := map[];
    for i := 0 to |manifest.segments|
      invariant ReadSegments(json, manifest.segments, files, map[])
             == ReadSegments(json, manifest.segments[i..], files, log)
    {
      var segment := manifest.segments[i];
      assert manifest.segments[i..][1..] == manifest.segments[i + 1..];
      if segment.file !in files {
        return Err(MissingSegment(segment.file));
      }
      var read := ReadSegmentFile(json, files[segment.file]);
      if read.Err? {
        return Err(BadSegment(read.error));
      }
      ghost var before := log;
      var es := read.value;
      for k := 0 to |es|
        invariant InsertAll(before, es) == InsertAll(log, es[k..])
      {
        log := log[es[k].logId.index := es[k]];
        assert es[k..][1..] == es[k + 1..];
      }
      assert es[|es|..] == [];
    }
    return Ok(log);
  }

  lemma {:induction false} InsertAllAppend<P>(log: Log<P>, es: seq<Entry<P>>, fs: seq<Entry<P>>)
    ensures InsertAll(log, es + fs) == InsertAll(InsertAll(log, es), fs)
    decreases |es|
  {
    if es == [] {
      assert es + fs == fs;
    } else {
      assert (es + fs)[1..] == es[1..] + fs;
      InsertAllAppend(log[es[0].logId.index := es[0]], es[1..], fs);
    }
  }

  lemma {:induction false} FlattenTail<P>(chunks: seq<seq<Entry<P>>>)
    requires chunks != []
    ensures Flatten(chunks) == chunks[0] + Flatten(chunks[1..])
  {
    var n := |chunks| - 1;
    if n == 0 {
      assert chunks[..0] == [] && chunks[1..] == [];
    } else {
      FlattenTail(chunks[..n]);
      assert chunks[..n][1..] == chunks[1..][..n - 1] && chunks[1..][n - 1] == chunks[n];
      ConcatAssociative(chunks[0], Flatten(chunks[1..][..n - 1]), chunks[n]);
    }
  }

  lemma ConcatAssociative<T>(a: seq<T>, b: seq<T>, c: seq<T>)
    ensures (a + b) + c == a + (b + c)
  {
  }

  lemma {:induction false} ReadDescribed<P(!new)>(json: Json<P>, chunks: seq<seq<Entry<P>>>,
                                                  segments: seq<SegmentMeta>,
                                                  files: map<string, seq<Byte>>, log: Log<P>)
    requires Faithful(json) && |segments| == |chunks|
    requires forall i :: 0 <= i < |chunks| ==> Sized(json, chunks[i])
    requires forall i :: 0 <= i < |segments| ==>
               segments[i].file in files && files[segments[i].file] == EncodeAll(json, chunks[i])
    ensures ReadSegments(json, segments, files, log) == Ok(InsertAll(log, Flatten(chunks)))
    decreases |chunks|
  {
    if chunks != [] {
      ReadBack(json, chunks[0]);
      FlattenTail(chunks);
      InsertAllAppend(log, chunks[0], Flatten(chunks[1..]));
      ReadDescribed(json, chunks[1..], segments[1..], files, InsertAll(log, chunks[0]));
    }
  }

  // ----- The store -----

  ghost predicate KeyedByIndex<P>(log: Log<P>) {
    forall k :: k in log ==> log[k].logId.index == k
  }

  /** The disk holds `log`, rotated by size into segments of ascending, disjoint index ranges. */
  ghost predicate Stored<P>(json: Json<P>, log: Log<P>, chunks: seq<seq<Entry<P>>>,
                            segments: seq<SegmentMeta>, files: map<string, seq<Byte>>)
  {
    && Describes(json, chunks, segments, files)
    && Rotated(json, chunks)
    && Ascending(Flatten(chunks))
    && InsertAll(map[], Flatten(chunks)) == log
  }

  /** The payload lengths of the log's entries fit the length field. */
  ghost predicate SizedLog<P>(json: Json<P>, log: Log<P>) {
    forall k :: k in log ==> |json.encode(log[k])| <= U64_MAX
  }

  lemma {:induction false} AllKept<P>(log: Log<P>, es: seq<Entry<P>>, i: nat)
    requires Ascending(es) && i < |es|
    ensures es[i].logId.index in InsertAll(log, es) && InsertAll(log, es)[es[i].logId.index] == es[i]
    decreases |es|
  {
    var e := es[0];
    if i > 0 {
      AllKept(log[e.logId.index := e], es[1..], i - 1);
    } else {
      NotAmong(log[e.logId.index := e], es[1..], e.logId.index);
    }
  }

  lemma {:induction false} NotAmong<P>(log: Log<P>, es: seq<Entry<P>>, k: U64)
    requires k in log && forall i :: 0 <= i < |es| ==> es[i].logId.index != k
    ensures k in InsertAll(log, es) && InsertAll(log, es)[k] == log[k]
    decreases |es|
  {
    if es != [] {
      NotAmong(log[es[0].logId.index := es[0]], es[1..], k);
    }
  }

  lemma StoredSized<P>(json: Json<P>, log: Log<P>, chunks: seq<seq<Entry<P>>>, segments: seq<SegmentMeta>,
                       files: map<string, seq<Byte>>, i: nat)
    requires SizedLog(json, log) && Stored(json, log, chunks, segments, files) && i < |chunks|
    ensures Sized(json, chunks[i])
  {
    hide Describes, Rotated;
    var all := Flatten(chunks);
    forall x | 0 <= x < |chunks[i]| ensures |json.encode(chunks[i][x])| <= U64_MAX {
      FlattenHas(chunks, i, chunks[i][x]);
      var y :| 0 <= y < |all| && all[y] == chunks[i][x];
      AllKept(map[], all, y);
    }
  }

  /** Reopening a stored log reads the same log. */
  lemma Reopen<P(!new)>(json: Json<P>, log: Log<P>, chunks: seq<seq<Entry<P>>>,
                        segments: seq<SegmentMeta>, files: map<string, seq<Byte>>)
    requires Faithful(json) && SizedLog(json, log) && Stored(json, log, chunks, segments, files)
    ensures ReadSegments(json, segments, files, map[]) == Ok(log)
  {
    forall i | 0 <= i < |chunks| ensures Sized(json, chunks[i]) {
      StoredSized(json, log, chunks, segments, files, i);
    }
    ReadDescribed(json, chunks, segments, files, map[]);
  }

  /** The first key of a `BTreeMap`. */
  method FirstKey(keys: set<U64>) returns (least: U64)
    requires keys != {}
    ensures least in keys && forall k :: k in keys ==> least <= k
  {
    least :| least in keys;
    var rest := keys - {least};
    while rest != {}
      invariant rest <= keys && least in keys
      invariant forall k :: k in keys && k !in rest ==> least <= k
      decreases rest
    {
      var k :| k in rest;
      if k < least {
        least := k;
      }
      rest := rest - {k};
    }
  }

  lemma EncodeSnoc<P>(json: Json<P>, es: seq<Entry<P>>, e: Entry<P>)
    ensures EncodeAll(json, es + [e])
         == EncodeAll(json, es) + Frame(e.logId.term, e.logId.index, json.encode(e))
  {
    SplitEncoding(json, es + [e], |es|);
    assert (es + [e])[..|es|] == es && (es + [e])[|es|..] == [e];
    OneFrame(json, e);
  }

  /** `written` is all of `log` but `todo`, in index order, and `todo` comes after it. */
  ghost predicate Written<P>(log: Log<P>, todo: set<U64>, written: seq<Entry<P>>) {
    && (forall e, k :: e in written && k in todo ==> e.logId.index < k)
    && Ascending(written)
    && InsertAll(map[], written) == map k | k in log && k !in todo :: log[k]
  }

  lemma WrittenNext<P>(log: Log<P>, todo: set<U64>, written: seq<Entry<P>>, k: U64)
    requires KeyedByIndex(log) && todo <= log.Keys && Written(log, todo, written)
    requires k in todo && forall j :: j in todo ==> k <= j
    ensures Written(log, todo - {k}, written + [log[k]])
  {
    InsertAllAppend(map[], written, [log[k]]);
    assert InsertAll(map[], written + [log[k]]) == InsertAll(map[], written)[k := log[k]];
  }

  /** While rewriting: `chunks` are full, `current` is open, and `todo` is still to be written. */
  ghost predicate Writing<P>(json: Json<P>, log: Log<P>, todo: set<U64>,
                             chunks: seq<seq<Entry<P>>>, current: seq<Entry<P>>)
  {
    && todo <= log.Keys
    && (current == [] ==> chunks == [])
    && (current != [] ==> FitsLimit(json, current))
    && (forall i :: 0 <= i < |chunks| ==>
          && FitsLimit(json, chunks[i])
          && |EncodeAll(json, chunks[i])| >= LOG_SEGMENT_MAX_BYTES
          && current != [] && chunks[i][0].logId.index < current[0].logId.index)
    && Written(log, todo, Flatten(chunks) + current)
  }

  lemma FlattenSnoc<P>(chunks: seq<seq<Entry<P>>>, chunk: seq<Entry<P>>)
    ensures Flatten(chunks + [chunk]) == Flatten(chunks) + chunk
  {
    assert (chunks + [chunk])[..|chunks|] == chunks;
  }

  lemma WroteNext<P>(json: Json<P>, log: Log<P>, todo: set<U64>,
                     chunks: seq<seq<Entry<P>>>, current: seq<Entry<P>>, k: U64)
    requires KeyedByIndex(log) && Writing(json, log, todo, chunks, current)
    requires k in todo && forall j :: j in todo ==> k <= j
    requires |EncodeAll(json, current)| < LOG_SEGMENT_MAX_BYTES
    ensures Writing(json, log, todo - {k}, chunks, current + [log[k]])
  {
    WrittenNext(log, todo, Flatten(chunks) + current, k);
    assert Flatten(chunks) + (current + [log[k]]) == (Flatten(chunks) + current) + [log[k]];
    assert (current + [log[k]])[..|current|] == current;
  }

  lemma WroteFirst<P>(json: Json<P>, log: Log<P>, todo: set<U64>,
                      chunks: seq<seq<Entry<P>>>, current: seq<Entry<P>>, k: U64)
    requires KeyedByIndex(log) && Writing(json, log, todo, chunks, current)
    requires k in todo && forall j :: j in todo ==> k <= j
    requires current != [] && |EncodeAll(json, current)| >= LOG_SEGMENT_MAX_BYTES
    ensures Writing(json, log, todo - {k}, chunks + [current], [log[k]])
  {
    var written := Flatten(chunks) + current;
    WrittenNext(log, todo, written, k);
    FlattenSnoc(chunks, current);
    assert [log[k]][..0] == [];
    assert current[0] in written;
    forall i | 0 <= i < |chunks + [current]|
      ensures var chunk := (chunks + [current])[i];
        && FitsLimit(json, chunk) && |EncodeAll(json, chunk)| >= LOG_SEGMENT_MAX_BYTES
        && chunk[0].logId.index < k
    {
      if i < |chunks| {
        assert chunks[i][0].logId.index < current[0].logId.index;
      }
    }
  }

  /** The temporary and final names of the segment starting at `first` are both free. */
  lemma FreshNames<P>(json: Json<P>, chunks: seq<seq<Entry<P>>>, segments: seq<SegmentMeta>,
                      files: map<string, seq<Byte>>, first: U64, last: U64)
    requires Describes(json, chunks, segments, files)
    requires forall i :: 0 <= i < |chunks| ==> chunks[i][0].logId.index < first
    ensures SegmentFileName(first, last) !in files
  {
    if SegmentFileName(first, last) in files {
      var i :| 0 <= i < |segments| && segments[i].file == SegmentFileName(first, last);
      FileNameInjective(segments[i].firstIndex, segments[i].lastIndex, first, last);
    }
  }

  lemma DescribesMore<P>(json: Json<P>, chunks: seq<seq<Entry<P>>>, segments: seq<SegmentMeta>,
                         files: map<string, seq<Byte>>, chunk: seq<Entry<P>>)
    requires Describes(json, chunks, segments, files)
    requires chunk != [] && MetaOf(chunk).file !in files
    ensures Describes(json, chunks + [chunk], segments + [MetaOf(chunk)],
                      files[MetaOf(chunk).file := EncodeAll(json, chunk)])
  {
    var more := segments + [MetaOf(chunk)];
    hide MetaOf, EncodeAll;
    assert more[|segments|].file == MetaOf(chunk).file;
    forall name | name in files
      ensures exists i :: 0 <= i < |more| && more[i].file == name
    {
      var i :| 0 <= i < |segments| && segments[i].file == name;
      assert more[i].file == name;
    }
  }

  /** The local variables of the rewrite, together with the segment files. */
  datatype Writer = Writer(open: bool, first: U64, last: U64, size: nat, segments: seq<SegmentMeta>,
                           files: map<string, seq<Byte>>)
  {
    function Closed(): Writer
      requires SegmentFileName(first, first) in files
    {
      var content := files[SegmentFileName(first, first)];
      var final := SegmentFileName(first, last);
      this.(open := false,
            segments := segments + [SegmentMeta(first, last, final)],
            files := (files - {SegmentFileName(first, first)})[final := content])
    }

    function Opened(index: U64): Writer {
      this.(open := true, first := index, size := 0, files := files[SegmentFileName(index, index) := []])
    }

    function Wrote(index: U64, record: seq<Byte>): Writer
      requires SegmentFileName(first, first) in files
    {
      var name := SegmentFileName(first, first);
      this.(last := index, size := size + |record|, files := files[name := files[name] + record])
    }

    /** `chunks` are in closed segments and `current` is in the open one. */
    ghost predicate Holds<P>(json: Json<P>, chunks: seq<seq<Entry<P>>>, current: seq<Entry<P>>) {
      && open
      && size == |EncodeAll(json, current)|
      && (current != [] ==> first == current[0].logId.index && last == current[|current| - 1].logId.index)
      && (forall i :: 0 <= i < |chunks| ==> chunks[i] != [] && chunks[i][0].logId.index < first)
      && SegmentFileName(first, first) in files
      && files[SegmentFileName(first, first)] == EncodeAll(json, current)
      && Describes(json, chunks, segments, files - {SegmentFileName(first, first)})
    }
  }

  lemma HoldsClosed<P>(json: Json<P>, w: Writer, chunks: seq<seq<Entry<P>>>, current: seq<Entry<P>>)
    requires w.Holds(json, chunks, current) && current != []
    ensures Describes(json, chunks + [current], w.Closed().segments, w.Closed().files)
  {
    var closed := w.files - {SegmentFileName(w.first, w.first)};
    FreshNames(json, chunks, w.segments, closed, w.first, w.last);
    DescribesMore(json, chunks, w.segments, closed, current);
  }

  lemma HoldsOpened<P>(json: Json<P>, w: Writer, chunks: seq<seq<Entry<P>>>, index: U64)
    requires Describes(json, chunks, w.segments, w.files)
    requires forall i :: 0 <= i < |chunks| ==> chunks[i][0].logId.index < index
    ensures w.Opened(index).Holds(json, chunks, [])
  {
    FreshNames(json, chunks, w.segments, w.files, index, index);
    assert w.files[SegmentFileName(index, index) := []] - {SegmentFileName(index, index)} == w.files;
    assert EncodeAll(json, []) == [];
  }

  lemma HoldsWrote<P>(json: Json<P>, w: Writer, chunks: seq<seq<Entry<P>>>, current: seq<Entry<P>>, e: Entry<P>)
    requires w.Holds(json, chunks, current)
    requires current == [] ==> w.first == e.logId.index
    ensures w.Wrote(e.logId.index, Frame(e.logId.term, e.logId.index, json.encode(e))).Holds(json, chunks, current + [e])
  {
    EncodeSnoc(json, current, e);
    var name := SegmentFileName(w.first, w.first);
    var record := Frame(e.logId.term, e.logId.index, json.encode(e));
    assert w.files[name := w.files[name] + record] - {name} == w.files - {name};
  }

  /** One turn of the rewrite loop: rotate if the open segment is full, then write `entry`. */
  method WriteEntry<P>(json: Json<P>, ghost log: Log<P>, ghost todo: set<U64>, entry: Entry<P>, w: Writer,
                             ghost chunks: seq<seq<Entry<P>>>, ghost current: seq<Entry<P>>)
    returns (w': Writer, ghost chunks': seq<seq<Entry<P>>>, ghost current': seq<Entry<P>>)
    requires KeyedByIndex(log) && Writing(json, log, todo, chunks, current)
    requires if current == [] then w == Writer(false, 0, 0, 0, [], map[]) else w.Holds(json, chunks, current)
    requires entry.logId.index in todo && log[entry.logId.index] == entry
    requires forall j :: j in todo ==> entry.logId.index <= j
    ensures Writing(json, log, todo - {entry.logId.index}, chunks', current')
    ensures current' != [] && w'.Holds(json, chunks', current')
  {
    w', chunks', current' := w, chunks, current;
    if w'.open && w'.size >= LOG_SEGMENT_MAX_BYTES {
      WroteFirst(json, log, todo, chunks, current, entry.logId.index);
      HoldsClosed(json, w', chunks, current);
      w' := w'.Closed();
      chunks', current' := chunks + [current], [];
    } else {
      WroteNext(json, log, todo, chunks, current, entry.logId.index);
    }
    if !w'.open {
      HoldsOpened(json, w', chunks', entry.logId.index);
      w' := w'.Opened(entry.logId.index);
    }
    var encoded := EncodeLogRecord(json, entry);
    HoldsWrote(json, w', chunks', current', entry);
    w' := w'.Wrote(entry.logId.index, encoded);
    current' := current' + [entry];
  }

  lemma WritingNothing<P>(json: Json<P>, log: Log<P>)
    ensures Writing(json, log, log.Keys, [], [])
  {
  }

  lemma RotatedSnoc<P>(json: Json<P>, chunks: seq<seq<Entry<P>>>, last: seq<Entry<P>>)
    requires FitsLimit(json, last)
    requires forall i :: 0 <= i < |chunks| ==>
               FitsLimit(json, chunks[i]) && |EncodeAll(json, chunks[i])| >= LOG_SEGMENT_MAX_BYTES
    ensures Rotated(json, chunks + [last])
  {
  }

  lemma WritingDone<P>(json: Json<P>, log: Log<P>, chunks: seq<seq<Entry<P>>>, current: seq<Entry<P>>)
    returns (all: seq<seq<Entry<P>>>)
    requires Writing(json, log, {}, chunks, current)
    ensures all == if current == [] then [] else chunks + [current]
    ensures Rotated(json, all) && Ascending(Flatten(all)) && InsertAll(map[], Flatten(all)) == log
  {
    assert (map k | k in log && k !in {} :: log[k]) == log;
    if current == [] {
      all := [];
      assert Flatten(chunks) + current == Flatten(all);
    } else {
      all := chunks + [current];
      FlattenSnoc(chunks, current);
      RotatedSnoc(json, chunks, current);
    }
  }

  method WriteSegments<P(!new)>(json: Json<P>, log: Log<P>)
    returns (segments: seq<SegmentMeta>, files: map<string, seq<Byte>>, ghost chunks: seq<seq<Entry<P>>>)
    requires KeyedByIndex(log)
    ensures Stored(json, log, chunks, segments, files)
    ensures Faithful(json) && SizedLog(json, log) ==> ReadSegments(json, segments, files, map[]) == Ok(log)
  {
    var w := Writer(false, 0, 0, 0, [], map[]);
    var todo := log.Keys;
    ghost var current: seq<Entry<P>> := [];
    chunks := [];
    WritingNothing(json, log);
    while todo != {}
      invariant Writing(json, log, todo, chunks, current)
      invariant if current == [] then w == Writer(false, 0, 0, 0, [], map[]) else w.Holds(json, chunks, current)
      decreases todo
    {
      var k := FirstKey(todo);
      w, chunks, current := WriteEntry(json, log, todo, log[k], w, chunks, current);
      todo := todo - {k};
    }
    if w.open {
      HoldsClosed(json, w, chunks, current);
      w := w.Closed();
    }
    chunks := WritingDone(json, log, chunks, current);
    if Faithful(json) && SizedLog(json, log) {
      Reopen(json, log, chunks, w.segments, w.files);
    }
    return w.segments, w.files, chunks;
  }

  function Below<P>(log: Log<P>, index: U64): Log<P> {
    map k | k in log && k < index :: log[k]
  }

  function Above<P>(log: Log<P>, index: U64): Log<P> {
    map k | k in log && k > index :: log[k]
  }

  /** What the store's operations make of its log and last purged id. */
  datatype Kept<P> = Kept(log: Log<P>, lastPurged: Option<LogId>)

  datatype Operation<P> = AppendEntries(entries: seq<Entry<P>>) | TruncateFrom(id: LogId) | PurgeUpTo(id: LogId)

  function Do<P>(s: Kept<P>, op: Operation<P>): Kept<P> {
    match op
    case AppendEntries(entries) => s.(log := InsertAll(s.log, entries))
    case TruncateFrom(id) => s.(log := Below(s.log, id.index))
    case PurgeUpTo(id) => Kept(Above(s.log, id.index), Some(id))
  }

  class RaftLogStore<P(!new)> {
    const json: Json<P>
    var log: Log<P>
    var lastPurged: Option<LogId>
    var files: map<string, seq<Byte>>
    var manifest: Manifest
    /** The entries of each segment file. */
    ghost var chunks: seq<seq<Entry<P>>>

    ghost predicate Valid()
      reads this
    {
      && Faithful(json) && SizedLog(json, log)
      && KeyedByIndex(log)
      && manifest.formatVersion == FORMAT_VERSION
      && manifest.lastPurged == lastPurged
      && Stored(json, log, chunks, manifest.segments, files)
    }

    function View(): Kept<P>
      reads this
    {
      Kept(log, lastPurged)
    }

    /** A fresh directory. */
    constructor (json: Json<P>)
      requires Faithful(json)
      ensures Valid() && this.json == json && log == map[] && lastPurged == None
    {
      this.json := json;
      log := map[];
      lastPurged := None;
      files := map[];
      manifest := Manifest(FORMAT_VERSION, None, []);
      chunks := [];
    }

    /** Deletes the old segments and writes the in-memory log, in index order, into new ones. */
    method RewriteLogSegments()
      requires Faithful(json) && SizedLog(json, log) && KeyedByIndex(log)
      modifies this`files, this`manifest, this`chunks
      ensures Valid()
    {
      files := map[];
      var segments;
      segments, files, chunks := WriteSegments(json, log);
      manifest := Manifest(FORMAT_VERSION, lastPurged, segments);
    }

    method Append(entries: seq<Entry<P>>)
      requires Valid() && Sized(json, entries)
      modifies this
      ensures Valid() && log == InsertAll(old(log), entries) && lastPurged == old(lastPurged)
      ensures View() == Do(old(View()), AppendEntries(entries))
    {
      for i := 0 to |entries|
        invariant InsertAll(old(log), entries) == InsertAll(log, entries[i..])
        invariant KeyedByIndex(log) && SizedLog(json, log) && lastPurged == old(lastPurged)
      {
        assert entries[i..][1..] == entries[i + 1..];
        log := log[entries[i].logId.index := entries[i]];
      }
      assert entries[|entries|..] == [];
      RewriteLogSegments();
    }

    method Truncate(id: LogId)
      requires Valid()
      modifies this
      ensures Valid() && log == Below(old(log), id.index) && lastPurged == old(lastPurged)
      ensures View() == Do(old(View()), TruncateFrom(id))
    {
      log := Below(log, id.index);
      RewriteLogSegments();
    }

    method Purge(id: LogId)
      requires Valid()
      modifies this
      ensures Valid() && log == Above(old(log), id.index) && lastPurged == Some(id)
      ensures View() == Do(old(View()), PurgeUpTo(id))
    {
      log := Above(log, id.index);
      lastPurged := Some(id);
      RewriteLogSegments();
    }

    /** What a new process reads from the directory. */
    method Open() returns (result: Result<Log<P>, StoreError>)
      requires Valid()
      ensures result == Ok(log) && manifest.lastPurged == lastPurged
    {
      result := ReadLogSegments(json, manifest, files);
      Reopen(json, log, chunks, manifest.segments, files);
    }
  }

  // ----- The index window -----

  /** The id of the last entry, or of the last purged one. */
  method LastLogId<P>(log: Log<P>, lastPurged: Option<LogId>) returns (last: Option<LogId>)
    requires KeyedByIndex(log)
    ensures log == map[] ==> last == lastPurged
    ensures log != map[] ==>
      && last.Some? && last.value.index in log && last.value == log[last.value.index].logId
      && forall k :: k in log ==> k <= last.value.index
  {
    last := lastPurged;
    var todo := log.Keys;
    while todo != {}
      invariant todo <= log.Keys
      invariant todo == log.Keys ==> last == lastPurged
      invariant todo != log.Keys ==>
        && last.Some? && last.value.index in log && last.value == log[last.value.index].logId
        && (forall k :: k in log && k !in todo ==> k <= last.value.index)
        && (forall k :: k in todo ==> last.value.index < k)
      decreases todo
    {
      var k := FirstKey(todo);
      last := Some(log[k].logId);
      todo := todo - {k};
    }
  }

  /** The log holds exactly the indices from `low` up to, and without, `next`. */
  ghost predicate Window<P>(log: Log<P>, low: nat, next: nat) {
    low <= next && forall k: U64 :: k in log <==> low <= k < next
  }

  ghost function LowOf(lastPurged: Option<LogId>): nat {
    if lastPurged.None? then 0 else lastPurged.value.index + 1
  }

  lemma {:induction false} AppendWindow<P>(log: Log<P>, entries: seq<Entry<P>>, low: nat, next: nat)
    requires Window(log, low, next)
    requires forall i :: 0 <= i < |entries| ==> entries[i].logId.index == next + i
    ensures Window(InsertAll(log, entries), low, next + |entries|)
    decreases |entries|
  {
    if entries != [] {
      var more := log[entries[0].logId.index := entries[0]];
      assert Window(more, low, next + 1);
      AppendWindow(more, entries[1..], low, next + 1);
    }
  }

  /** Truncating keeps the window's lower end; purging forwards moves it just past the purged entry. */
  lemma TruncatePurgeWindow<P>(log: Log<P>, low: nat, next: nat, id: LogId)
    requires Window(log, low, next)
    ensures var upto := if id.index < next then id.index else next;
      Window(Below(log, id.index), low, if upto < low then low else upto)
    ensures LowOf(Some(id)) >= low ==>
      Window(Above(log, id.index), LowOf(Some(id)),
             if next < LowOf(Some(id)) then LowOf(Some(id)) else next)
  {
  }

  // ----- The window over any run of the store -----

  function Larger(a: nat, b: nat): nat {
    if a <= b then b else a
  }

  /** The index that follows the log, `next` being the one before the operation. */
  ghost function NextIndex<P>(s: Kept<P>, next: nat, op: Operation<P>): nat {
    match op
    case AppendEntries(entries) => next + |entries|
    case TruncateFrom(id) => Larger(LowOf(s.lastPurged), if id.index < next then id.index else next)
    case PurgeUpTo(id) => Larger(next, LowOf(Some(id)))
  }

  /** Raft appends where the log ends and purges forwards. */
  ghost predicate Regular<P>(s: Kept<P>, next: nat, op: Operation<P>) {
    match op
    case AppendEntries(entries) => forall i :: 0 <= i < |entries| ==> entries[i].logId.index == next + i
    case TruncateFrom(_) => true
    case PurgeUpTo(id) => LowOf(s.lastPurged) <= LowOf(Some(id))
  }

  ghost predicate AllRegular<P>(s: Kept<P>, next: nat, ops: seq<Operation<P>>)
    decreases |ops|
  {
    ops == [] || (Regular(s, next, ops[0]) && AllRegular(Do(s, ops[0]), NextIndex(s, next, ops[0]), ops[1..]))
  }

  function DoAll<P>(s: Kept<P>, ops: seq<Operation<P>>): Kept<P>
    decreases |ops|
  {
    if ops == [] then s else DoAll(Do(s, ops[0]), ops[1..])
  }

  lemma DoKeepsWindow<P>(s: Kept<P>, next: nat, op: Operation<P>)
    requires Window(s.log, LowOf(s.lastPurged), next) && Regular(s, next, op)
    ensures Window(Do(s, op).log, LowOf(Do(s, op).lastPurged), NextIndex(s, next, op))
  {
    match op
    case AppendEntries(entries) => AppendWindow(s.log, entries, LowOf(s.lastPurged), next);
    case TruncateFrom(id) => TruncatePurgeWindow(s.log, LowOf(s.lastPurged), next, id);
    case PurgeUpTo(id) => TruncatePurgeWindow(s.log, LowOf(s.lastPurged), next, id);
  }

  ghost function NextAll<P>(s: Kept<P>, next: nat, ops: seq<Operation<P>>): nat
    decreases |ops|
  {
    if ops == [] then next else NextAll(Do(s, ops[0]), NextIndex(s, next, ops[0]), ops[1..])
  }

  /**
   Through any run of appends where the log ends, truncations and forward purges, the log is one
   window that starts right after the last purged entry.
   */
  lemma {:induction false} RunKeepsWindow<P>(s: Kept<P>, next: nat, ops: seq<Operation<P>>)
    requires Window(s.log, LowOf(s.lastPurged), next) && AllRegular(s, next, ops)
    ensures Window(DoAll(s, ops).log, LowOf(DoAll(s, ops).lastPurged), NextAll(s, next, ops))
    decreases |ops|
  {
    hide Do, Window, Regular, NextIndex;
    if ops != [] {
      DoKeepsWindow(s, next, ops[0]);
      RunKeepsWindow(Do(s, ops[0]), NextIndex(s, next, ops[0]), ops[1..]);
    }
  }

  // ----- Segment ranges -----

  lemma {:induction false} FlattenOrder<P>(chunks: seq<seq<Entry<P>>>, i: nat, j: nat, a: Entry<P>, b: Entry<P>)
    requires Ascending(Flatten(chunks)) && i < j < |chunks| && a in chunks[i] && b in chunks[j]
    ensures a.logId.index < b.logId.index
    decreases |chunks|
  {
    var n := |chunks| - 1;
    var front := Flatten(chunks[..n]);
    var all := Flatten(chunks);
    assert all == front + chunks[n];
    if j == n {
      FlattenHas(chunks[..n], i, a);
      var x :| 0 <= x < |front| && front[x] == a;
      var y :| 0 <= y < |chunks[n]| && chunks[n][y] == b;
      assert all[x] == a && all[|front| + y] == b;
    } else {
      assert forall x, y :: 0 <= x < y < |front| ==> all[x] == front[x] && all[y] == front[y];
      FlattenOrder(chunks[..n], i, j, a, b);
    }
  }

  lemma {:induction false} FlattenHas<P>(chunks: seq<seq<Entry<P>>>, i: nat, a: Entry<P>)
    requires i < |chunks| && a in chunks[i]
    ensures a in Flatten(chunks)
    decreases |chunks|
  {
    var n := |chunks| - 1;
    if i < n {
      FlattenHas(chunks[..n], i, a);
    }
  }

  /** Segments cover ascending, disjoint index ranges and have distinct file names. */
  lemma SegmentRanges<P>(json: Json<P>, log: Log<P>, chunks: seq<seq<Entry<P>>>,
                         segments: seq<SegmentMeta>, files: map<string, seq<Byte>>, i: nat, j: nat)
    requires Stored(json, log, chunks, segments, files)
    requires i < j < |segments|
    ensures segments[i].lastIndex < segments[j].firstIndex
    ensures segments[i].file != segments[j].file
  {
    FlattenOrder(chunks, i, j, chunks[i][|chunks[i]| - 1], chunks[j][0]);
    FlattenOrder(chunks, i, j, chunks[i][0], chunks[j][0]);
    if segments[i].file == segments[j].file {
      FileNameInjective(segments[i].firstIndex, segments[i].lastIndex, segments[j].firstIndex, segments[j].lastIndex);
    }
  }
}
