/**
 The newline-delimited JSON log (`log.rs`): one entry a line, replayed with tolerance for a
 truncated last line. File contents are strings with one character a byte.
 */
module TextLog {
  import opened Prelude

  datatype Parsed<+E> = Entry(entry: E) | Eof | Malformed

  /** The JSON library: an encoder of entries, and a decoder that tells truncated from malformed text. */
  datatype Json<!E> = Json(encode: E -> string, decode: string -> Parsed<E>)

  predicate IsSpace(c: char) {
    c == ' ' || '\t' <= c <= '\r'
  }

  /** Entries are one line of text that starts and ends in a brace, and cut short they read as truncated. */
  ghost predicate Faithful<E(!new)>(json: Json<E>) {
    forall e: E :: EncodesWell(json, e)
  }

  ghost predicate EncodesWell<E>(json: Json<E>, e: E) {
    var text := json.encode(e);
    && json.decode(text) == Entry(e)
    && text != "" && '\n' !in text && !IsSpace(text[0]) && !IsSpace(text[|text| - 1])
    && forall n :: 0 < n < |text| ==> json.decode(text[..n]) == Eof
  }

  // ----- Lines -----

  function FindNewline(s: string): (i: nat)
    ensures i <= |s| && (forall j :: 0 <= j < i ==> s[j] != '\n') && (i < |s| ==> s[i] == '\n')
  {
    if s == "" || s[0] == '\n' then 0 else 1 + FindNewline(s[1..])
  }

  function StripReturn(line: string): string {
    if line != "" && line[|line| - 1] == '\r' then line[..|line| - 1] else line
  }

  /** `BufRead::lines`: a last line without a newline counts if it is not empty. */
  function Lines(s: string): seq<string>
    decreases |s|
  {
    var i := FindNewline(s);
    if i < |s| then [StripReturn(s[..i])] + Lines(s[i + 1..])
    else if s == "" then [] else [s]
  }

  function TrimStart(s: string): (t: string)
    ensures t == "" || !IsSpace(t[0])
    ensures |t| <= |s| && t == s[|s| - |t|..]
  {
    if s != "" && IsSpace(s[0]) then TrimStart(s[1..]) else s
  }

  function TrimEnd(s: string): (t: string)
    ensures t == "" || !IsSpace(t[|t| - 1])
    ensures |t| <= |s| && t == s[..|t|]
  {
    if s != "" && IsSpace(s[|s| - 1]) then TrimEnd(s[..|s| - 1]) else s
  }

  function Trim(s: string): string {
    TrimEnd(TrimStart(s))
  }

  // ----- Replay -----

  predicate AllBlank(lines: seq<string>) {
    forall i :: 0 <= i < |lines| ==> Trim(lines[i]) == ""
  }

  /** The entries of the lines, or the number of the first line that is corrupt. */
  function ReplayLines<E>(json: Json<E>, lines: seq<string>, lineNo: nat): Result<seq<E>, nat>
    decreases |lines|
  {
    if lines == [] then Ok([])
    else if Trim(lines[0]) == "" then ReplayLines(json, lines[1..], lineNo + 1)
    else
      match json.decode(Trim(lines[0]))
      case Entry(e) =>
        (match ReplayLines(json, lines[1..], lineNo + 1)
         case Ok(es) => Ok([e] + es)
         case Err(line) => Err(line))
      case Eof => if AllBlank(lines[1..]) then Ok([]) else Err(lineNo)
      case Malformed => Err(lineNo)
  }

  function Replay<E>(json: Json<E>, content: string): Result<seq<E>, nat> {
    ReplayLines(json, Lines(content), 1)
  }

  function Prepend<E>(entries: seq<E>, rest: Result<seq<E>, nat>): Result<seq<E>, nat> {
    match rest
    case Ok(es) => Ok(entries + es)
    case Err(line) => Err(line)
  }

  lemma ReplayOn<E>(json: Json<E>, entries: seq<E>, lines: seq<string>, lineNo: nat)
    requires lines != []
    ensures var whole := Prepend(entries, ReplayLines(json, lines, lineNo));
      if Trim(lines[0]) == "" then whole == Prepend(entries, ReplayLines(json, lines[1..], lineNo + 1))
      else
        var parsed := json.decode(Trim(lines[0]));
        && (parsed.Entry? ==> whole == Prepend(entries + [parsed.entry], ReplayLines(json, lines[1..], lineNo + 1)))
        && (parsed.Eof? ==> whole == if AllBlank(lines[1..]) then Ok(entries) else Err(lineNo))
        && (parsed.Malformed? ==> whole == Err(lineNo))
  {
    assert entries + [] == entries;
    var parsed := json.decode(Trim(lines[0]));
    if parsed.Entry? {
      var rest := ReplayLines(json, lines[1..], lineNo + 1);
      if rest.Ok? {
        assert entries + ([parsed.entry] + rest.value) == (entries + [parsed.entry]) + rest.value;
      }
    }
  }

  /** One past the last line that is not blank. */
  method AfterLastNonEmpty(lines: seq<string>) returns (after: nat)
    ensures after <= |lines|
    ensures forall k :: 0 <= k < |lines| && Trim(lines[k]) != "" ==>
              (k + 1 == after <==> AllBlank(lines[k + 1..]))
  {
    after := |lines|;
    while after > 0 && Trim(lines[after - 1]) == ""
      invariant after <= |lines| && forall i :: after <= i < |lines| ==> Trim(lines[i]) == ""
    {
      after := after - 1;
    }
    forall k | 0 <= k < |lines| && Trim(lines[k]) != ""
      ensures k + 1 == after <==> AllBlank(lines[k + 1..])
    {
      if k + 1 < after {
        assert lines[k + 1..][after - 1 - (k + 1)] == lines[after - 1];
      }
    }
  }

  method ReplayReader<E>(json: Json<E>, content: string) returns (result: Result<seq<E>, nat>)
    ensures result == Replay(json, content)
  {
    hide ReplayLines, Lines, Trim;
    var lines := Lines(content);
    var afterLast := AfterLastNonEmpty(lines);
    var entries: seq<E> := [];
    var k := 0;
    assert lines[0..] == lines;
    PrependTwice([], [], Replay(json, content));
    while k < |lines|
      invariant k <= |lines|
      invariant Replay(json, content) == Prepend(entries, ReplayLines(json, lines[k..], k + 1))
    {
      ReplayOn(json, entries, lines[k..], k + 1);
      assert lines[k..][1..] == lines[k + 1..];
      var trimmed := Trim(lines[k]);
      if trimmed != "" {
        match json.decode(trimmed) {
          case Entry(e) =>
            entries := entries + [e];
          case Eof =>
            if k + 1 == afterLast {
              return Ok(entries);
            }
            return Err(k + 1);
          case Malformed =>
            return Err(k + 1);
        }
      }
      k := k + 1;
    }
    NothingLeft(json, entries, lines[k..], k + 1);
    return Ok(entries);
  }

  lemma NothingLeft<E>(json: Json<E>, entries: seq<E>, lines: seq<string>, lineNo: nat)
    requires lines == []
    ensures Prepend(entries, ReplayLines(json, lines, lineNo)) == Ok(entries)
  {
    assert entries + [] == entries;
  }

  /** Reading from an offset; past the end there is nothing. */
  function After(content: string, offset: nat): string {
    if offset <= |content| then content[offset..] else ""
  }

  // ----- What was written -----

  function LineOf<E>(json: Json<E>, e: E): string {
    json.encode(e) + "\n"
  }

  function WriteAll<E>(json: Json<E>, es: seq<E>): string {
    if es == [] then "" else LineOf(json, es[0]) + WriteAll(json, es[1..])
  }

  class AppendOnlyLog<E(!new)> {
    const json: Json<E>
    var content: string

    constructor (json: Json<E>, content: string)
      ensures this.json == json && this.content == content
    {
      this.json, this.content := json, content;
    }

    method Append(e: E)
      modifies this
      ensures content == old(content) + LineOf(json, e)
    {
      var line := json.encode(e);
      line := line + "\n";
      content := content + line;
    }

    method ReplayFrom(offset: nat) returns (result: Result<seq<E>, nat>)
      ensures result == Replay(json, After(content, offset))
    {
      result := ReplayReader(json, After(content, offset));
    }
  }

  lemma {:induction false} WriteAllAppend<E>(json: Json<E>, es: seq<E>, fs: seq<E>)
    ensures WriteAll(json, es + fs) == WriteAll(json, es) + WriteAll(json, fs)
  {
    if es == [] {
      assert es + fs == fs;
    } else {
      assert (es + fs)[1..] == es[1..] + fs;
      WriteAllAppend(json, es[1..], fs);
    }
  }

  lemma FirstLine(line: string, rest: string)
    requires '\n' !in line
    ensures Lines(line + "\n" + rest) == [StripReturn(line)] + Lines(rest)
  {
    var s := line + "\n" + rest;
    assert forall j :: 0 <= j < |line| ==> s[j] == line[j];
    assert s[|line|] == '\n' && FindNewline(s) == |line|;
    assert s[..|line|] == line && s[|line| + 1..] == rest;
  }

  lemma TrimNothing(s: string)
    requires s == "" || (!IsSpace(s[0]) && !IsSpace(s[|s| - 1]))
    ensures Trim(s) == s
  {
  }

  lemma EntryLine<E(!new)>(json: Json<E>, e: E)
    requires Faithful(json)
    ensures var text := json.encode(e);
      text != "" && '\n' !in text && StripReturn(text) == text && Trim(text) == text && json.decode(text) == Entry(e)
  {
    var text := json.encode(e);
    assert EncodesWell(json, e);
    hide Faithful;
    TrimNothing(text);
  }

  lemma ReplayLine<E(!new)>(json: Json<E>, e: E, more: string, lineNo: nat)
    requires Faithful(json)
    ensures ReplayLines(json, Lines(LineOf(json, e) + more), lineNo)
         == Prepend([e], ReplayLines(json, Lines(more), lineNo + 1))
  {
    hide Faithful, Lines, Trim, StripReturn;
    var text := json.encode(e);
    EntryLine(json, e);
    FirstLine(text, more);
    OneMoreEntry(json, e, text, Lines(more), lineNo);
  }

  lemma OneMoreEntry<E>(json: Json<E>, e: E, text: string, lines: seq<string>, lineNo: nat)
    requires text != "" && Trim(text) == text && json.decode(text) == Entry(e)
    ensures ReplayLines(json, [text] + lines, lineNo) == Prepend([e], ReplayLines(json, lines, lineNo + 1))
  {
    hide Trim;
    assert ([text] + lines)[1..] == lines;
  }

  lemma PrependTwice<E>(es: seq<E>, fs: seq<E>, rest: Result<seq<E>, nat>)
    ensures Prepend(es, Prepend(fs, rest)) == Prepend(es + fs, rest)
    ensures Prepend([], rest) == rest
  {
    if rest.Ok? {
      assert es + (fs + rest.value) == (es + fs) + rest.value;
      assert [] + rest.value == rest.value;
    }
  }

  /** The entries written before some text are replayed before it. */
  lemma {:induction false} ReplayWritten<E(!new)>(json: Json<E>, es: seq<E>, rest: string, lineNo: nat)
    requires Faithful(json)
    ensures ReplayLines(json, Lines(WriteAll(json, es) + rest), lineNo)
         == Prepend(es, ReplayLines(json, Lines(rest), lineNo + |es|))
    decreases |es|
  {
    hide ReplayLines, Lines;
    if es == [] {
      assert WriteAll(json, es) + rest == rest;
      PrependTwice([], es, ReplayLines(json, Lines(rest), lineNo));
    } else {
      var more := WriteAll(json, es[1..]) + rest;
      assert WriteAll(json, es) + rest == LineOf(json, es[0]) + more;
      ReplayLine(json, es[0], more, lineNo);
      ReplayWritten(json, es[1..], rest, lineNo + 1);
      PrependTwice([es[0]], es[1..], ReplayLines(json, Lines(rest), lineNo + |es|));
      assert [es[0]] + es[1..] == es;
    }
  }

  lemma ReplaysAll<E(!new)>(json: Json<E>, es: seq<E>, lineNo: nat)
    requires Faithful(json)
    ensures ReplayLines(json, Lines(WriteAll(json, es)), lineNo) == Ok(es)
  {
    ReplayWritten(json, es, "", lineNo);
    assert WriteAll(json, es) + "" == WriteAll(json, es);
    assert es + [] == es;
  }

  /** Replaying what was appended is the identity. */
  lemma ReplayBack<E(!new)>(json: Json<E>, es: seq<E>)
    requires Faithful(json)
    ensures Replay(json, WriteAll(json, es)) == Ok(es)
  {
    ReplaysAll(json, es, 1);
  }

  /** A fragment of an entry, without its newline: nothing, a truncated tail, or the whole entry. */
  lemma FragmentReplays<E(!new)>(json: Json<E>, e: E, n: nat, lineNo: nat)
    requires Faithful(json) && n <= |json.encode(e)|
    ensures ReplayLines(json, Lines(json.encode(e)[..n]), lineNo) == Ok(if n == |json.encode(e)| then [e] else [])
  {
    hide Faithful, Trim;
    var text := json.encode(e);
    var fragment := text[..n];
    EntryLine(json, e);
    assert FindNewline(fragment) == |fragment|;
    if n > 0 {
      assert Lines(fragment) == [fragment] && [fragment][1..] == [];
      if n == |text| {
        assert fragment == text;
        assert [e] + [] == [e];
      } else {
        FragmentIsEof(json, e, n);
      }
    }
  }

  lemma FragmentIsEof<E(!new)>(json: Json<E>, e: E, n: nat)
    requires Faithful(json) && 0 < n < |json.encode(e)|
    ensures Trim(json.encode(e)[..n]) != "" && json.decode(Trim(json.encode(e)[..n])) == Eof
  {
    var text := json.encode(e);
    assert EncodesWell(json, e);
    TrimPrefix(text[..n]);
    hide Faithful, Trim;
    var m := |Trim(text[..n])|;
    assert text[..n][..m] == text[..m];
  }

  /** Trimming text that starts with no space keeps a non-empty prefix. */
  lemma TrimPrefix(s: string)
    requires s != "" && !IsSpace(s[0])
    ensures 0 < |Trim(s)| <= |s| && Trim(s) == s[..|Trim(s)|]
  {
    KeepsFirst(s);
  }

  lemma {:induction false} KeepsFirst(s: string)
    requires s != "" && !IsSpace(s[0])
    ensures TrimEnd(s) != ""
    decreases |s|
  {
    if IsSpace(s[|s| - 1]) {
      KeepsFirst(s[..|s| - 1]);
    }
  }

  /**
   A log cut short anywhere replays exactly the entries whose text survived whole; the cut may
   even take the last newline.
   */
  lemma TruncatedLog<E(!new)>(json: Json<E>, es: seq<E>, n: nat, k: nat, m: nat)
    requires Faithful(json) && k < |es|
    requires n == |WriteAll(json, es[..k])| + m && m <= |json.encode(es[k])|
    ensures n <= |WriteAll(json, es)|
    ensures Replay(json, WriteAll(json, es)[..n]) == Ok(if m == |json.encode(es[k])| then es[..k + 1] else es[..k])
  {
    hide ReplayLines, Lines, Faithful;
    var text := json.encode(es[k]);
    SplitWritten(json, es, k);
    assert WriteAll(json, es)[..n] == WriteAll(json, es[..k]) + text[..m];
    ReplayWritten(json, es[..k], text[..m], 1);
    FragmentReplays(json, es[k], m, 1 + k);
    assert es[..k] + [es[k]] == es[..k + 1];
    assert es[..k] + [] == es[..k];
  }

  lemma SplitWritten<E>(json: Json<E>, es: seq<E>, k: nat)
    requires k < |es|
    ensures WriteAll(json, es) == WriteAll(json, es[..k]) + (json.encode(es[k]) + ("\n" + WriteAll(json, es[k + 1..])))
  {
    assert es == es[..k] + es[k..] && es[k..][1..] == es[k + 1..];
    WriteAllAppend(json, es[..k], es[k..]);
  }

  /** Corruption before the last line is fatal, and reported at its line. */
  lemma CorruptLine<E(!new)>(json: Json<E>, es: seq<E>, line: string, fs: seq<E>)
    requires Faithful(json) && '\n' !in line && fs != []
    requires Trim(StripReturn(line)) != "" && !json.decode(Trim(StripReturn(line))).Entry?
    ensures Replay(json, WriteAll(json, es) + (line + "\n" + WriteAll(json, fs))) == Err(|es| + 1)
  {
    hide Faithful, Lines, Trim, StripReturn, WriteAll, ReplayLines, Replay;
    CorruptFirst(json, line, fs, |es| + 1);
    CorruptRest(json, es, line + "\n" + WriteAll(json, fs), |es| + 1);
  }

  lemma CorruptFirst<E(!new)>(json: Json<E>, line: string, fs: seq<E>, lineNo: nat)
    requires Faithful(json) && '\n' !in line && fs != []
    requires Trim(StripReturn(line)) != "" && !json.decode(Trim(StripReturn(line))).Entry?
    ensures ReplayLines(json, Lines(line + "\n" + WriteAll(json, fs)), lineNo) == Err(lineNo)
  {
    hide Faithful, Lines, Trim, StripReturn, WriteAll;
    FirstLine(line, WriteAll(json, fs));
    WrittenNotBlank(json, fs);
    var lines := Lines(WriteAll(json, fs));
    assert ([StripReturn(line)] + lines)[1..] == lines;
  }

  lemma CorruptRest<E(!new)>(json: Json<E>, es: seq<E>, rest: string, lineNo: nat)
    requires Faithful(json) && ReplayLines(json, Lines(rest), |es| + 1) == Err(lineNo)
    ensures Replay(json, WriteAll(json, es) + rest) == Err(lineNo)
  {
    hide Faithful, Lines, ReplayLines, WriteAll;
    ReplayWritten(json, es, rest, 1);
  }

  lemma WrittenNotBlank<E(!new)>(json: Json<E>, fs: seq<E>)
    requires Faithful(json) && fs != []
    ensures !AllBlank(Lines(WriteAll(json, fs)))
  {
    hide Faithful, Lines, Trim, StripReturn;
    var text := json.encode(fs[0]);
    EntryLine(json, fs[0]);
    assert WriteAll(json, fs) == text + "\n" + WriteAll(json, fs[1..]);
    FirstLine(text, WriteAll(json, fs[1..]));
    assert Lines(WriteAll(json, fs))[0] == text;
  }

  // ----- Replaying from inside an entry -----

  /** What is left of an entry once its beginning is cut off is not an entry. */
  ghost predicate NoSuffixParses<E(!new)>(json: Json<E>) {
    forall e: E, n: nat | 0 < n < |json.encode(e)| :: !json.decode(json.encode(e)[n..]).Entry?
  }

  lemma SuffixLine<E(!new)>(json: Json<E>, e: E, n: nat)
    requires Faithful(json) && NoSuffixParses(json) && 0 < n < |json.encode(e)|
    ensures var line := json.encode(e)[n..];
      '\n' !in line && StripReturn(line) == line && Trim(line) != "" && !json.decode(Trim(line)).Entry?
  {
    var text := json.encode(e);
    var line := text[n..];
    assert EncodesWell(json, e);
    hide Faithful;
    assert line[|line| - 1] == text[|text| - 1];
    LastNotSpace(line);
    var m := |text| - |TrimStart(line)|;
    assert TrimStart(line) == text[m..];
  }

  lemma {:induction false} LastNotSpace(s: string)
    requires s != "" && !IsSpace(s[|s| - 1])
    ensures TrimStart(s) != "" && Trim(s) == TrimStart(s)
    decreases |s|
  {
    if IsSpace(s[0]) {
      LastNotSpace(s[1..]);
    }
  }

  /** Fewer entries than there were, or an error. */
  predicate Fewer<E>(result: Result<seq<E>, nat>, count: nat) {
    result.Ok? ==> |result.value| < count
  }

  lemma InsideFirst<E(!new)>(json: Json<E>, es: seq<E>, n: nat, lineNo: nat)
    requires Faithful(json) && NoSuffixParses(json) && es != []
    requires 0 < n <= |LineOf(json, es[0])|
    ensures Fewer(ReplayLines(json, Lines(WriteAll(json, es)[n..]), lineNo), |es|)
  {
    hide Faithful, NoSuffixParses, Lines, ReplayLines, Trim, StripReturn;
    var text, more := json.encode(es[0]), WriteAll(json, es[1..]);
    if n == |text| + 1 {
      assert WriteAll(json, es)[n..] == more;
      ReplaysAll(json, es[1..], lineNo);
    } else {
      var line := text[n..];
      assert WriteAll(json, es)[n..] == line + "\n" + more;
      assert '\n' !in line by { EntryLine(json, es[0]); }
      FirstLine(line, more);
      if n == |text| {
        SkipsBlank(json, Lines(more), lineNo);
        ReplaysAll(json, es[1..], lineNo + 1);
      } else {
        SuffixLine(json, es[0], n);
        NotAnEntry(json, line, Lines(more), lineNo);
      }
    }
  }

  lemma SkipsBlank<E>(json: Json<E>, lines: seq<string>, lineNo: nat)
    ensures ReplayLines(json, [StripReturn("")] + lines, lineNo) == ReplayLines(json, lines, lineNo + 1)
  {
    assert ([""] + lines)[1..] == lines;
  }

  lemma NotAnEntry<E>(json: Json<E>, line: string, lines: seq<string>, lineNo: nat)
    requires Trim(line) != "" && !json.decode(Trim(line)).Entry?
    ensures ReplayLines(json, [line] + lines, lineNo) in {Ok([]), Err(lineNo)}
  {
    hide Trim;
  }

  /** Skipping any part of what was written loses entries, or fails. */
  lemma {:induction false} SkippingLoses<E(!new)>(json: Json<E>, es: seq<E>, n: nat, lineNo: nat)
    requires Faithful(json) && NoSuffixParses(json)
    requires 0 < n <= |WriteAll(json, es)|
    ensures Fewer(ReplayLines(json, Lines(WriteAll(json, es)[n..]), lineNo), |es|)
    decreases |es|
  {
    hide Faithful, NoSuffixParses, Lines, ReplayLines;
    if n <= |LineOf(json, es[0])| {
      InsideFirst(json, es, n, lineNo);
    } else {
      var m := n - |LineOf(json, es[0])|;
      assert WriteAll(json, es)[n..] == WriteAll(json, es[1..])[m..];
      SkippingLoses(json, es[1..], m, lineNo);
    }
  }
}
