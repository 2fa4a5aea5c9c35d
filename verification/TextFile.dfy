/**
 * Reading text files in chunks: the forward line reader, the backward scan for the last lines, and the scan
 * that counts lines and line endings. A file is a byte sequence; how `fh.read` cuts it up is left to an
 * adversary, who gives the successive results of reading as a list of nonempty chunks.
 */
module TextFile {
  import opened Wrappers
  import opened Lines
  import opened Utf8

  const READ_CHUNK_SIZE := 64 * 1024
  const CR: Byte := 0x0d

  /** Nonempty reads, each fitting the buffer. */
  ghost predicate Reads(chunks: seq<seq<Byte>>) {
    forall c :: c in chunks ==> 0 < |c| <= READ_CHUNK_SIZE
  }

  /** `fh.read` into the one buffer: the front of it is overwritten, the rest keeps its old bytes. */
  method ReadInto(buf: array<Byte>, chunk: seq<Byte>) returns (bytesRead: nat)
    requires |chunk| <= buf.Length
    modifies buf
    ensures bytesRead == |chunk| && buf[..bytesRead] == chunk
  {
    forall i | 0 <= i < |chunk| {
      buf[i] := chunk[i];
    }
    bytesRead := |chunk|;
  }

  // ---------- Reading lines forward ----------

  /** A line as handed to the decoder: its bytes, and its offset, which decides whether a BOM is kept. */
  datatype Line = Line(bytes: seq<Byte>, offset: nat)

  function Number(lines: seq<seq<Byte>>): (r: seq<Line>)
    ensures |r| == |lines|
  {
    seq(|lines|, i requires 0 <= i < |lines| => Line(lines[i], |Flatten(lines[..i])|))
  }

  /** The lines from `startLine` on (counting from 1), at most `maxLines` of them but never fewer than one. */
  function Window<T>(lines: seq<T>, startLine: int, maxLines: Option<int>): seq<T> {
    var from := if startLine <= 1 then 0 else if startLine - 1 <= |lines| then startLine - 1 else |lines|;
    if maxLines.None? || |lines| - from <= Limit(maxLines.value) then lines[from..]
    else lines[from..from + Limit(maxLines.value)]
  }

  function Limit(maxLines: int): nat {
    if maxLines < 1 then 1 else maxLines
  }

  /** The bytes held in a list of buffers. */
  ghost function Held(buffers: seq<array<Byte>>): seq<Byte>
    reads buffers
  {
    if buffers == [] then [] else Held(buffers[..|buffers| - 1]) + buffers[|buffers| - 1][..]
  }

  method Concat(buffers: seq<array<Byte>>) returns (bytes: seq<Byte>)
    ensures bytes == Held(buffers)
  {
    bytes := [];
    var i := 0;
    assert buffers[..0] == [];
    while i < |buffers|
      invariant 0 <= i <= |buffers|
      invariant bytes == Held(buffers[..i])
    {
      assert buffers[..i + 1][..i] == buffers[..i];
      bytes := bytes + buffers[i][..];
      i := i + 1;
    }
    assert buffers[..i] == buffers;
  }

  /** Where the reader stands after the bytes `seen`: what it has yielded, and the line number it is in. */
  ghost predicate ReaderAt(seen: seq<Byte>, out: seq<Line>, lineNo: int, startLine: int, maxLines: Option<int>) {
    var done := Split(seen, LF).0;
    && lineNo == |done| + 1
    && out == Window(Number(done), startLine, None)
    && (maxLines.Some? ==> |out| < Limit(maxLines.value))
  }

  lemma NumberAppend(lines: seq<seq<Byte>>, line: seq<Byte>)
    ensures Number(lines + [line]) == Number(lines) + [Line(line, |Flatten(lines)|)]
  {
    forall i | 0 <= i <= |lines| ensures (lines + [line])[..i] == lines[..i] {}
    assert lines[..|lines|] == lines;
  }

  lemma WindowAppend<T>(lines: seq<T>, x: T, startLine: int)
    ensures Window(lines + [x], startLine, None)
            == Window(lines, startLine, None) + if |lines| + 1 >= startLine then [x] else []
  {
  }

  lemma WindowFull<T>(lines: seq<T>, more: seq<T>, startLine: int, max: int)
    requires |Window(lines, startLine, None)| == Limit(max)
    ensures Window(lines + more, startLine, Some(max)) == Window(lines, startLine, None)
  {
  }

  lemma WindowNotFull<T>(lines: seq<T>, startLine: int, max: int)
    requires |Window(lines, startLine, None)| <= Limit(max)
    ensures Window(lines, startLine, Some(max)) == Window(lines, startLine, None)
  {
  }

  /** The finished lines of a prefix are finished lines of the whole. */
  lemma {:induction false} SplitGrows(a: seq<Byte>, b: seq<Byte>)
    ensures Split(a, LF).0 <= Split(a + b, LF).0
    decreases |b|
  {
    if b == [] {
      assert a + b == a;
    } else {
      SplitGrows(a, b[..|b| - 1]);
      assert (a + b)[..|a + b| - 1] == a + b[..|b| - 1];
    }
  }

  lemma NumberGrows(lines: seq<seq<Byte>>, more: seq<seq<Byte>>)
    ensures Number(lines + more) == Number(lines) + Number(lines + more)[|lines|..]
  {
    forall i | 0 <= i < |lines| ensures (lines + more)[..i] == lines[..i] {}
  }

  /** A reader that has yielded all it may is done, whatever follows. */
  lemma EnoughLines(seen: seq<Byte>, rest: seq<Byte>, out: seq<Line>, startLine: int, max: int)
    requires out == Window(Number(Split(seen, LF).0), startLine, None) && |out| == Limit(max)
    ensures out == Window(Number(LinesOf(seen + rest, LF)), startLine, Some(max))
  {
    var done, all := Split(seen, LF).0, LinesOf(seen + rest, LF);
    SplitGrows(seen, rest);
    assert all == done + all[|done|..];
    NumberGrows(done, all[|done|..]);
    WindowFull(Number(done), Number(all)[|done|..], startLine, max);
  }

  /** At the end of the file: the unterminated line, if any, is the last one. */
  lemma EndOfFile(file: seq<Byte>, out: seq<Line>, lineNo: int, startLine: int, maxLines: Option<int>)
    requires ReaderAt(file, out, lineNo, startLine, maxLines)
    ensures var (done, rest) := Split(file, LF);
            Window(Number(LinesOf(file, LF)), startLine, maxLines)
            == out + if rest != [] && lineNo >= startLine then [Line(rest, |Flatten(done)|)] else []
  {
    var (done, rest) := Split(file, LF);
    NumberAppend(done, rest);
    WindowAppend(Number(done), Line(rest, |Flatten(done)|), startLine);
    if maxLines.Some? {
      WindowNotFull(Number(LinesOf(file, LF)), startLine, maxLines.value);
    }
  }

  /** The reader has yielded all the lines it may. */
  ghost predicate Full(seen: seq<Byte>, out: seq<Line>, startLine: int, maxLines: Option<int>) {
    maxLines.Some? && out == Window(Number(Split(seen, LF).0), startLine, None) && |out| == Limit(maxLines.value)
  }

  /** What yielding the line that ends at the next byte makes of the reader. */
  lemma LineEndStep(seen: seq<Byte>, out: seq<Line>, lineNo: int, startLine: int, maxLines: Option<int>)
    requires ReaderAt(seen, out, lineNo, startLine, maxLines)
    ensures var line := Line(Split(seen, LF).1 + [LF], |Flatten(Split(seen, LF).0)|);
            var out' := out + if lineNo >= startLine then [line] else [];
            if maxLines.Some? && |out'| >= Limit(maxLines.value) then Full(seen + [LF], out', startLine, maxLines)
            else ReaderAt(seen + [LF], out', lineNo + 1, startLine, maxLines)
    ensures Split(seen + [LF], LF).1 == [] && |Flatten(Split(seen + [LF], LF).0)| == |seen| + 1
  {
    var (done, rest) := Split(seen, LF);
    SplitSnoc(seen, LF, LF);
    NumberAppend(done, rest + [LF]);
    WindowAppend(Number(done), Line(rest + [LF], |Flatten(done)|), startLine);
    SplitShape(seen + [LF], LF);
  }

  lemma NothingRead(startLine: int, maxLines: Option<int>)
    ensures ReaderAt([], [], 1, startLine, maxLines) && Split([], LF).1 == [] && |Flatten(Split([], LF).0)| == 0
  {
  }

  /** The variables of `_readUtf8Lines` between two reads. */
  class LineReader {
    const startLine: int
    const maxLines: Option<int>
    const buf: array<Byte>
    var pending: seq<array<Byte>>
    var pendingOffset: nat
    var fileOffset: nat
    var lineNo: int
    var out: seq<Line>
    ghost var seen: seq<Byte>

    /** The unfinished line is in `pending`, then in the chunk `part`, which starts at `at`. */
    ghost predicate Inside(part: seq<Byte>, at: nat)
      reads this, pending
    {
      && buf.Length == READ_CHUNK_SIZE
      && (forall p :: p in pending ==> p != buf && p.Length > 0)
      && ReaderAt(seen, out, lineNo, startLine, maxLines)
      && Split(seen, LF).1 == Held(pending) + part
      && |Flatten(Split(seen, LF).0)| == (if pending == [] then at else pendingOffset)
    }

    ghost predicate Valid()
      reads this, pending
    {
      Inside([], fileOffset) && fileOffset == |seen|
    }

    constructor (startLine: int, maxLines: Option<int>)
      ensures Valid() && fresh(buf)
      ensures this.startLine == startLine && this.maxLines == maxLines && seen == []
    {
      this.startLine, this.maxLines := startLine, maxLines;
      buf := new Byte[READ_CHUNK_SIZE];
      pending, pendingOffset, fileOffset, lineNo, out, seen := [], 0, 0, 1, [], [];
      new;
      NothingRead(startLine, maxLines);
      assert Held(pending) == [];
    }

    /** A line feed at `i` of the chunk: yield the line, if it is wanted; true when that was the last one. */
    method EndLine(lineStart: nat, i: nat) returns (full: bool)
      requires lineStart <= i < buf.Length && buf[i] == LF
      requires Inside(buf[lineStart..i], fileOffset + lineStart)
      requires |seen| == fileOffset + i
      modifies this`out, this`pending, this`lineNo, this`seen
      ensures seen == old(seen) + [LF]
      ensures full ==> Full(seen, out, startLine, maxLines)
      ensures !full ==> pending == [] && Inside([], fileOffset + i + 1)
    {
      LineEndStep(seen, out, lineNo, startLine, maxLines);
      var piece := buf[lineStart..i + 1];
      assert piece == buf[lineStart..i] + [LF];
      var lineOffset := if pending == [] then fileOffset + lineStart else pendingOffset;
      var head := Concat(pending);
      assert head + piece == Split(seen, LF).1 + [LF];
      seen := seen + [LF];
      if lineNo >= startLine {
        out := out + [Line(head + piece, lineOffset)];
        if maxLines.Some? && |out| >= maxLines.value {
          return true;
        }
      }
      pending := [];
      lineNo := lineNo + 1;
      return false;
    }

    /** Any other byte only makes the unfinished line longer. */
    ghost method GoOn(lineStart: nat, i: nat)
      requires lineStart <= i < buf.Length && buf[i] != LF
      requires Inside(buf[lineStart..i], fileOffset + lineStart)
      modifies this`seen
      ensures seen == old(seen) + [buf[i]] && Inside(buf[lineStart..i + 1], fileOffset + lineStart)
    {
      SplitSnoc(seen, buf[i], LF);
      assert buf[lineStart..i + 1] == buf[lineStart..i] + [buf[i]];
      seen := seen + [buf[i]];
    }

    /** One round of the loop over the chunk. */
    method TakeByte(lineStart: nat, i: nat) returns (full: bool, nextStart: nat)
      requires lineStart <= i < buf.Length
      requires Inside(buf[lineStart..i], fileOffset + lineStart)
      requires |seen| == fileOffset + i
      modifies this`out, this`pending, this`lineNo, this`seen
      ensures seen == old(seen) + [buf[i]] && nextStart <= i + 1
      ensures full ==> Full(seen, out, startLine, maxLines)
      ensures !full ==> Inside(buf[nextStart..i + 1], fileOffset + nextStart)
    {
      full, nextStart := false, lineStart;
      if buf[i] == LF {
        full := EndLine(lineStart, i);
        nextStart := i + 1;
        assert buf[nextStart..i + 1] == [];
      } else {
        GoOn(lineStart, i);
      }
    }

    /** `Buffer.from`: a copy of the rest of the chunk, because the buffer is about to be overwritten. */
    method KeepTail(lineStart: nat, bytesRead: nat)
      requires lineStart < bytesRead <= buf.Length
      requires Inside(buf[lineStart..bytesRead], fileOffset + lineStart)
      modifies this`pending, this`pendingOffset
      ensures Inside([], fileOffset + bytesRead)
    {
      ghost var held := Held(pending);
      var tail := new Byte[bytesRead - lineStart];
      forall j | 0 <= j < tail.Length {
        tail[j] := buf[lineStart + j];
      }
      assert tail[..] == buf[lineStart..bytesRead];
      if pending == [] {
        pendingOffset := fileOffset + lineStart;
      }
      assert (pending + [tail])[..|pending|] == pending;
      pending := pending + [tail];
      assert Held(pending) == held + tail[..];
    }

    /** The end of a chunk: its unfinished line is kept, and the offset moves on. */
    method EndChunk(lineStart: nat, bytesRead: nat)
      requires lineStart <= bytesRead <= buf.Length && fileOffset + bytesRead == |seen|
      requires Inside(buf[lineStart..bytesRead], fileOffset + lineStart)
      modifies this`pending, this`pendingOffset, this`fileOffset
      ensures Valid()
    {
      if lineStart < bytesRead {
        KeepTail(lineStart, bytesRead);
      } else {
        assert buf[lineStart..bytesRead] == [];
      }
      fileOffset := fileOffset + bytesRead;
    }

    /** One read: the first `bytesRead` bytes of the buffer; true when the reader stops early. */
    method TakeChunk(bytesRead: nat) returns (full: bool)
      requires Valid() && 0 < bytesRead <= buf.Length
      modifies this
      ensures !full ==> Valid() && seen == old(seen) + buf[..bytesRead]
      ensures full ==> seen <= old(seen) + buf[..bytesRead] && Full(seen, out, startLine, maxLines)
    {
      var lineStart, i := 0, 0;
      while i < bytesRead
        invariant 0 <= lineStart <= i <= bytesRead
        invariant Inside(buf[lineStart..i], fileOffset + lineStart)
        invariant fileOffset == old(fileOffset) == |old(seen)|
        invariant seen == old(seen) + buf[..i]
      {
        assert old(seen) + buf[..i + 1] == (old(seen) + buf[..i]) + [buf[i]];
        full, lineStart := TakeByte(lineStart, i);
        if full {
          return;
        }
        i := i + 1;
      }
      EndChunk(lineStart, bytesRead);
      return false;
    }

    /** One read, which overwrites the buffer. */
    method ReadChunk(chunk: seq<Byte>) returns (full: bool)
      requires Valid() && 0 < |chunk| <= READ_CHUNK_SIZE
      modifies this, buf
      ensures !full ==> Valid() && seen == old(seen) + chunk
      ensures full ==> seen <= old(seen) + chunk && Full(seen, out, startLine, maxLines)
    {
      var bytesRead := ReadInto(buf, chunk);
      full := TakeChunk(bytesRead);
    }

    /** After the last read: an unterminated line is a line too. */
    method Finish() returns (all: seq<Line>)
      requires Valid()
      ensures all == Window(Number(LinesOf(seen, LF)), startLine, maxLines)
    {
      EndOfFile(seen, out, lineNo, startLine, maxLines);
      assert Split(seen, LF).1 == Held(pending);
      all := out;
      if pending != [] {
        var line := Concat(pending);
        if lineNo >= startLine {
          all := all + [Line(line, pendingOffset)];
        }
      }
    }
  }

  lemma StoppedEarly(seen: seq<Byte>, out: seq<Line>, startLine: int, maxLines: Option<int>,
                     read: seq<Byte>, rest: seq<Byte>, file: seq<Byte>)
    requires seen <= read && file == read + rest && Full(seen, out, startLine, maxLines)
    ensures out == Window(Number(LinesOf(file, LF)), startLine, maxLines)
  {
    assert file == seen + file[|seen|..];
    EnoughLines(seen, file[|seen|..], out, startLine, maxLines.value);
  }

  /** The next chunk moves from what is still to come to what has been seen. */
  lemma NextChunk(seen: seq<Byte>, todo: seq<seq<Byte>>)
    requires todo != [] && Reads(todo)
    ensures seen + Flatten(todo) == (seen + todo[0]) + Flatten(todo[1..])
    ensures 0 < |todo[0]| <= READ_CHUNK_SIZE && Reads(todo[1..])
  {
    assert todo[0] in todo;
  }

  /**
   * `_readUtf8Lines`, whatever chunks the file arrives in: the lines of the whole file in the wanted window,
   * each with its offset in the file.
   */
  method ReadUtf8Lines(chunks: seq<seq<Byte>>, startLine: int, maxLines: Option<int>) returns (out: seq<Line>)
    requires Reads(chunks)
    ensures out == Window(Number(LinesOf(Flatten(chunks), 0x0a)), startLine, maxLines)
  {
    var r := new LineReader(startLine, maxLines);
    var todo := chunks;
    ghost var file := Flatten(chunks);
    while todo != []
      invariant r.Valid() && Reads(todo) && file == r.seen + Flatten(todo)
      decreases |todo|
    {
      ghost var seen := r.seen;
      NextChunk(seen, todo);
      var full := r.ReadChunk(todo[0]);
      if full {
        StoppedEarly(r.seen, r.out, startLine, maxLines, seen + todo[0], Flatten(todo[1..]), file);
        return r.out;
      }
      todo := todo[1..];
    }
    assert file == r.seen;
    out := r.Finish();
  }

  /** A text decoder: the text of some bytes, given whether a leading BOM is kept, or the error it throws. */
  type Decoder<!T> = (seq<Byte>, bool) -> Option<T>

  /** The texts of the lines, up to the first that the decoder rejects. */
  function Texts<T>(decode: Decoder<T>, lines: seq<Line>): (seq<T>, bool) {
    if lines == [] then ([], true)
    else match decode(lines[0].bytes, lines[0].offset != 0)
      case None => ([], false)
      case Some(text) =>
        var (texts, ok) := Texts(decode, lines[1..]);
        ([text] + texts, ok)
  }

  function After<T>(texts: seq<T>, rest: (seq<T>, bool)): (seq<T>, bool) {
    (texts + rest.0, rest.1)
  }

  lemma NextText<T>(decode: Decoder<T>, lines: seq<Line>, texts: seq<T>)
    requires lines != []
    ensures After(texts, Texts(decode, lines))
         == match decode(lines[0].bytes, lines[0].offset != 0)
            case None => (texts, false)
            case Some(text) => After(texts + [text], Texts(decode, lines[1..]))
  {
    match decode(lines[0].bytes, lines[0].offset != 0)
    case None => assert texts + [] == texts;
    case Some(text) =>
      var rest := Texts(decode, lines[1..]).0;
      assert texts + ([text] + rest) == (texts + [text]) + rest;
  }

  /** What the reader yields with a decoder, and whether it reached the end without an error. */
  method ReadUtf8Text<T>(decode: Decoder<T>, chunks: seq<seq<Byte>>, startLine: int, maxLines: Option<int>)
    returns (texts: seq<T>, ok: bool)
    requires Reads(chunks)
    ensures (texts, ok) == Texts(decode, Window(Number(LinesOf(Flatten(chunks), 0x0a)), startLine, maxLines))
  {
    var lines := ReadUtf8Lines(chunks, startLine, maxLines);
    texts, ok := DecodeLines(decode, lines);
  }

  method DecodeLines<T>(decode: Decoder<T>, lines: seq<Line>) returns (texts: seq<T>, ok: bool)
    ensures (texts, ok) == Texts(decode, lines)
  {
    texts := [];
    var todo := lines;
    assert [] + Texts(decode, lines).0 == Texts(decode, lines).0;
    while todo != []
      invariant Texts(decode, lines) == After(texts, Texts(decode, todo))
      decreases |todo|
    {
      NextText(decode, todo, texts);
      match decode(todo[0].bytes, todo[0].offset != 0) {
        case None => return texts, false;
        case Some(text) => texts := texts + [text];
      }
      todo := todo[1..];
    }
    assert texts + [] == texts;
    return texts, true;
  }

  // ---------- Counting lines and line endings ----------

  /** A carriage return directly before a line feed. */
  ghost predicate HasCrLf(s: seq<Byte>) {
    exists i :: 0 <= i < |s| - 1 && s[i] == 0x0d && s[i + 1] == 0x0a
  }

  /** A line feed not preceded by a carriage return. */
  ghost predicate HasBareLf(s: seq<Byte>) {
    exists i :: 0 <= i < |s| && s[i] == 0x0a && (i == 0 || s[i - 1] != 0x0d)
  }

  /** A carriage return not followed by a line feed, at the end of the text too. */
  ghost predicate HasLoneCr(s: seq<Byte>) {
    exists i :: 0 <= i < |s| && s[i] == 0x0d && (i == |s| - 1 || s[i + 1] != 0x0a)
  }

  ghost predicate HasCrThenOther(s: seq<Byte>) {
    exists i :: 0 <= i < |s| - 1 && s[i] == 0x0d && s[i + 1] != 0x0a
  }

  predicate EndsWith(s: seq<Byte>, x: Byte) {
    s != [] && s[|s| - 1] == x
  }

  lemma CrLfSnoc(s: seq<Byte>, x: Byte)
    ensures HasCrLf(s + [x]) <==> HasCrLf(s) || (EndsWith(s, CR) && x == LF)
  {
    var t := s + [x];
    if HasCrLf(s) {
      var i :| 0 <= i < |s| - 1 && s[i] == CR && s[i + 1] == LF;
      assert t[i] == CR && t[i + 1] == LF;
    }
    if EndsWith(s, CR) && x == LF {
      assert t[|s| - 1] == CR && t[|s| - 1 + 1] == LF;
    }
  }

  lemma CrThenOtherSnoc(s: seq<Byte>, x: Byte)
    ensures HasCrThenOther(s + [x]) <==> HasCrThenOther(s) || (EndsWith(s, CR) && x != LF)
  {
    var t := s + [x];
    if HasCrThenOther(s) {
      var i :| 0 <= i < |s| - 1 && s[i] == CR && s[i + 1] != LF;
      assert t[i] == CR && t[i + 1] != LF;
    }
    if EndsWith(s, CR) && x != LF {
      assert t[|s| - 1] == CR && t[|s| - 1 + 1] != LF;
    }
  }

  lemma BareLfSnoc(s: seq<Byte>, x: Byte)
    ensures HasBareLf(s + [x]) <==> HasBareLf(s) || (!EndsWith(s, CR) && x == LF)
  {
    var t := s + [x];
    if HasBareLf(s) {
      var i :| 0 <= i < |s| && s[i] == LF && (i == 0 || s[i - 1] != CR);
      assert t[i] == LF && (i == 0 || t[i - 1] != CR);
    }
    if !EndsWith(s, CR) && x == LF {
      assert t[|s|] == LF && (|s| == 0 || t[|s| - 1] != CR);
    }
  }

  /** A carriage return is lone if something else follows it or nothing does. */
  lemma LoneCrIs(s: seq<Byte>)
    ensures HasLoneCr(s) <==> HasCrThenOther(s) || EndsWith(s, CR)
  {
    if HasCrThenOther(s) {
      var i :| 0 <= i < |s| - 1 && s[i] == CR && s[i + 1] != LF;
      assert s[i] == CR && s[i + 1] != LF;
    }
    if HasLoneCr(s) && !EndsWith(s, CR) {
      var i :| 0 <= i < |s| && s[i] == CR && (i == |s| - 1 || s[i + 1] != LF);
      assert 0 <= i < |s| - 1;
    }
  }

  class LineEndingFlags {
    var hasCrLf: bool
    var hasLf: bool
    var hasLoneCr: bool

    constructor ()
      ensures !hasCrLf && !hasLf && !hasLoneCr
    {
      hasCrLf, hasLf, hasLoneCr := false, false, false;
    }

    /** The flags of everything seen so far; a carriage return at its end is still open. */
    ghost predicate For(seen: seq<Byte>, prevWasCr: bool)
      reads this
    {
      && hasCrLf == HasCrLf(seen) && hasLf == HasBareLf(seen) && hasLoneCr == HasCrThenOther(seen)
      && prevWasCr == EndsWith(seen, CR)
    }

    method UpdateFromByte(byte: Byte, prevWasCr: bool, ghost seen: seq<Byte>) returns (nowWasCr: bool)
      requires For(seen, prevWasCr)
      modifies this
      ensures For(seen + [byte], nowWasCr)
    {
      CrLfSnoc(seen, byte);
      CrThenOtherSnoc(seen, byte);
      BareLfSnoc(seen, byte);
      if byte == CR {
        if prevWasCr { hasLoneCr := true; }
        nowWasCr := true;
      } else if byte == LF {
        if prevWasCr { hasCrLf := true; } else { hasLf := true; }
        nowWasCr := false;
      } else {
        if prevWasCr { hasLoneCr := true; }
        nowWasCr := false;
      }
    }

    /** `updateLineEndingFlagsFromBytes`. */
    method Update(chunk: seq<Byte>, prevWasCr: bool, ghost seen: seq<Byte>) returns (nowWasCr: bool)
      requires For(seen, prevWasCr)
      modifies this
      ensures For(seen + chunk, nowWasCr)
    {
      nowWasCr := prevWasCr;
      var i := 0;
      assert seen + chunk[..0] == seen;
      while i < |chunk|
        invariant 0 <= i <= |chunk| && For(seen + chunk[..i], nowWasCr)
      {
        assert seen + chunk[..i + 1] == seen + chunk[..i] + [chunk[i]];
        nowWasCr := UpdateFromByte(chunk[i], nowWasCr, seen + chunk[..i]);
        i := i + 1;
      }
      assert chunk[..i] == chunk;
    }
  }

  datatype TextFileScan = TextFileScan(totalLines: nat, endsWithNewline: bool, hasNul: bool,
                                       hasCrLf: bool, hasLf: bool, hasLoneCr: bool)

  /** The counters of the scan. */
  datatype Totals = Totals(lines: nat, bytes: nat, endsWithNewline: bool, hasNul: bool) {
    ghost predicate For(seen: seq<Byte>) {
      && lines == Count(seen, LF) && bytes == |seen|
      && endsWithNewline == EndsWith(seen, LF) && hasNul == (0 in seen)
    }
  }

  method AddChunk(before: Totals, chunk: seq<Byte>, ghost seen: seq<Byte>) returns (after: Totals)
    requires before.For(seen) && chunk != []
    ensures after.For(seen + chunk)
  {
    var lines, hasNul := before.lines, before.hasNul;
    var i := 0;
    while i < |chunk|
      invariant 0 <= i <= |chunk|
      invariant lines == before.lines + Count(chunk[..i], LF) && hasNul == (before.hasNul || 0 in chunk[..i])
    {
      assert chunk[..i + 1] == chunk[..i] + [chunk[i]];
      CountAppend(chunk[..i], [chunk[i]], LF);
      if chunk[i] == 0 { hasNul := true; }
      if chunk[i] == LF { lines := lines + 1; }
      i := i + 1;
    }
    assert chunk[..i] == chunk;
    CountAppend(seen, chunk, LF);
    after := Totals(lines, before.bytes + |chunk|, chunk[|chunk| - 1] == LF, hasNul);
  }

  /** What a scan of `file` is to report: its lines as the line reader counts them, and the endings that occur. */
  ghost predicate Describes(scan: TextFileScan, file: seq<Byte>) {
    && scan.totalLines == |LinesOf(file, 0x0a)|
    && scan.endsWithNewline == EndsWith(file, 0x0a)
    && scan.hasNul == (0 in file)
    && scan.hasCrLf == HasCrLf(file) && scan.hasLf == HasBareLf(file) && scan.hasLoneCr == HasLoneCr(file)
  }

  /** The variables of `scanTextFile` between two reads. */
  class Scanner {
    const buf: array<Byte>
    const flags: LineEndingFlags
    const validator: Utf8Validator
    var totals: Totals
    var prevWasCr: bool
    ghost var seen: seq<Byte>

    ghost predicate Valid()
      reads this, flags, validator
    {
      && buf.Length == READ_CHUNK_SIZE
      && validator.Valid() && validator.seen == seen
      && flags.For(seen, prevWasCr) && totals.For(seen)
    }

    constructor ()
      ensures Valid() && seen == [] && fresh(buf) && fresh(flags) && fresh(validator)
    {
      buf := new Byte[READ_CHUNK_SIZE];
      flags := new LineEndingFlags();
      validator := new Utf8Validator();
      totals, prevWasCr, seen := Totals(0, 0, false, false), false, [];
    }

    /** One read; false is the validator's error. */
    method ReadChunk(chunk: seq<Byte>) returns (ok: bool)
      requires Valid() && 0 < |chunk| <= READ_CHUNK_SIZE
      modifies this, buf, flags, validator
      ensures ok ==> Valid() && seen == old(seen) + chunk
      ensures !ok ==> DfaRun(START, old(seen) + chunk) == None
    {
      var bytesRead := ReadInto(buf, chunk);
      var part := buf[..bytesRead];
      ok := validator.Write(part);
      if ok {
        totals := AddChunk(totals, part, seen);
        prevWasCr := flags.Update(part, prevWasCr, seen);
        seen := seen + part;
      }
    }

    /** The next chunk of a file. */
    method Next(todo: seq<seq<Byte>>, ghost file: seq<Byte>) returns (ok: bool)
      requires Valid() && todo != [] && Reads(todo) && file == seen + Flatten(todo)
      modifies this, buf, flags, validator
      ensures ok ==> Valid() && Reads(todo[1..]) && file == seen + Flatten(todo[1..])
      ensures !ok ==> !IsOctets(file)
    {
      NextChunk(seen, todo);
      ghost var before := seen;
      ok := ReadChunk(todo[0]);
      if !ok { RejectedFile(before, todo[0], Flatten(todo[1..]), file); }
    }

    /** After the last read of `file`. */
    method Finish(ghost file: seq<Byte>) returns (r: Result<TextFileScan, string>)
      requires Valid() && seen == file
      modifies flags
      ensures r.Ok? <==> IsOctets(file)
      ensures r.Ok? ==> Describes(r.value, file)
    {
      LoneCrIs(seen);
      LineCount(seen, LF);
      if prevWasCr { flags.hasLoneCr := true; }
      var ok := validator.End();
      if !ok {
        return Err("Invalid UTF-8 data");
      }
      var totalLines := totals.lines;
      if totals.bytes > 0 && !totals.endsWithNewline { totalLines := totalLines + 1; }
      return Ok(TextFileScan(totalLines, totals.endsWithNewline, totals.hasNul,
                             flags.hasCrLf, flags.hasLf, flags.hasLoneCr));
    }
  }

  lemma RejectedFile(seen: seq<Byte>, chunk: seq<Byte>, rest: seq<Byte>, file: seq<Byte>)
    requires file == (seen + chunk) + rest && DfaRun(START, seen + chunk) == None
    ensures !IsOctets(file)
  {
    RejectedIsNotOctets(seen + chunk, rest);
  }

  /**
   * `scanTextFile`: fails exactly on a file that is not UTF-8, and otherwise describes the file, whatever
   * chunks it arrives in.
   */
  method ScanTextFile(chunks: seq<seq<Byte>>) returns (r: Result<TextFileScan, string>)
    requires Reads(chunks)
    ensures r.Ok? <==> IsOctets(Flatten(chunks))
    ensures r.Ok? ==> Describes(r.value, Flatten(chunks))
  {
    var scanner := new Scanner();
    var todo := chunks;
    ghost var file := Flatten(chunks);
    while todo != []
      invariant scanner.Valid() && Reads(todo) && file == scanner.seen + Flatten(todo)
      decreases |todo|
    {
      var ok := scanner.Next(todo, file);
      if !ok { return Err("Invalid UTF-8 data"); }
      todo := todo[1..];
    }
    assert file == scanner.seen;
    r := scanner.Finish(file);
  }

  // ---------- The last lines ----------

  /** The last `n` lines, or all of them when there are fewer. */
  function LastLines<T>(lines: seq<T>, n: nat): seq<T> {
    if n >= |lines| then lines else lines[|lines| - n..]
  }

  /** Where the backward scan stops: just after a line feed that leaves `n` lines, or at the start of the file. */
  ghost predicate TailStart(file: seq<Byte>, n: nat, start: nat) {
    && start <= |file|
    && (start == 0 || file[start - 1] == LF)
    && |LinesOf(file[start..], LF)| <= n
    && (|LinesOf(file[start..], LF)| < n ==> start == 0)
  }

  /** Such an offset begins exactly the last `n` lines. */
  lemma TailStartBeginsLastLines(file: seq<Byte>, n: nat, start: nat)
    requires TailStart(file, n, start)
    ensures LinesOf(file[start..], LF) == LastLines(LinesOf(file, LF), n)
  {
    assert file == file[..start] + file[start..];
    LinesAfterTerminator(file[..start], file[start..], LF);
    if start == 0 {
      assert file[start..] == file;
    }
  }

  /** What the scan knows after reading back to `pos`: it has counted the line feeds and not yet enough of them. */
  ghost predicate Scanned(file: seq<Byte>, pos: nat, foundLf: nat) {
    pos <= |file| && foundLf == Count(file[pos..], LF)
  }

  lemma ScanBack(file: seq<Byte>, pos: nat)
    requires 0 < pos <= |file|
    ensures Count(file[pos - 1..], LF) == Count(file[pos..], LF) + if file[pos - 1] == LF then 1 else 0
  {
    assert file[pos - 1..][1..] == file[pos..];
  }

  /** Line feeds wanted for `n` lines: one more if the file ends in one, which closes the last line. */
  function Wanted(file: seq<Byte>, n: nat): nat {
    if EndsWith(file, LF) then n + 1 else n
  }

  lemma FoundStart(file: seq<Byte>, n: nat, start: nat)
    requires 0 < n && 0 < start <= |file| && file[start - 1] == LF
    requires Count(file[start - 1..], LF) == Wanted(file, n)
    ensures TailStart(file, n, start)
  {
    ScanBack(file, start);
    LineCount(file[start..], LF);
    if start < |file| {
      assert file[start..][|file| - start - 1] == file[|file| - 1];
    }
  }

  lemma WholeFile(file: seq<Byte>, n: nat)
    requires Count(file, LF) < Wanted(file, n)
    ensures TailStart(file, n, 0)
  {
    assert file[0..] == file;
    LineCount(file, LF);
  }

  /** One block, searched from its end; stops at the last line feed that is wanted. */
  method ScanBlock(file: seq<Byte>, pos: nat, buf: seq<Byte>, found: nat, needLf: nat, ghost n: nat)
    returns (foundLf: nat, startOffset: nat)
    requires n > 0 && needLf == Wanted(file, n) && found < needLf
    requires pos + |buf| <= |file| && buf == file[pos..pos + |buf|] && Scanned(file, pos + |buf|, found)
    ensures foundLf <= needLf
    ensures foundLf < needLf ==> Scanned(file, pos, foundLf)
    ensures foundLf == needLf ==> TailStart(file, n, startOffset)
  {
    foundLf, startOffset := found, 0;
    var i := |buf|;
    while i > 0
      invariant 0 <= i <= |buf|
      invariant foundLf < needLf && Scanned(file, pos + i, foundLf)
    {
      i := i - 1;
      ScanBack(file, pos + i + 1);
      if buf[i] == LF {
        foundLf := foundLf + 1;
        if foundLf == needLf {
          startOffset := pos + i + 1;
          FoundStart(file, n, startOffset);
          return;
        }
      }
    }
  }

  /** The backward block scan of `readTailLines`. */
  method TailOffset(file: seq<Byte>, tailCount: nat, blockSize: nat) returns (startOffset: nat)
    requires file != [] && tailCount > 0 && blockSize > 0
    ensures TailStart(file, tailCount, startOffset)
  {
    var pos, foundLf, needLf, sawTailBlock := |file|, 0, tailCount, false;
    startOffset := 0;
    while pos > 0 && foundLf < needLf
      invariant 0 <= pos <= |file|
      invariant sawTailBlock == (pos < |file|)
      invariant needLf == if sawTailBlock then Wanted(file, tailCount) else tailCount
      invariant 0 <= foundLf <= needLf
      invariant foundLf < needLf ==> Scanned(file, pos, foundLf)
      invariant foundLf == needLf ==> TailStart(file, tailCount, startOffset)
      decreases pos
    {
      var readSize := if blockSize <= pos then blockSize else pos;
      pos := pos - readSize;
      var buf := file[pos..pos + readSize];
      if !sawTailBlock {
        sawTailBlock := true;
        var endsWithNewline := buf[readSize - 1] == LF;
        needLf := if endsWithNewline then tailCount + 1 else tailCount;
      }
      foundLf, startOffset := ScanBlock(file, pos, buf, foundLf, needLf, tailCount);
    }
    if foundLf < needLf {
      startOffset := 0;
      assert file[0..] == file;
      WholeFile(file, tailCount);
    }
  }

  // ---------- The same lines as text ----------

  const TEXT_LF: Scalar := 0x0a

  /** `splitLinesKeepingTerminator`, on code points. */
  method SplitLinesKeepingTerminator(text: seq<Scalar>) returns (lines: seq<seq<Scalar>>)
    ensures lines == LinesOf(text, 0x0a)
  {
    lines := [];
    var start, i := 0, 0;
    while i < |text|
      invariant 0 <= start <= i <= |text|
      invariant Split(text[..i], TEXT_LF) == (lines, text[start..i])
    {
      SplitSnoc(text[..i], text[i], TEXT_LF);
      assert text[..i + 1] == text[..i] + [text[i]];
      assert text[start..i + 1] == text[start..i] + [text[i]] && text[i + 1..i + 1] == [];
      if text[i] == TEXT_LF {
        lines := lines + [text[start..i + 1]];
        start := i + 1;
      }
      i := i + 1;
    }
    assert text[..i] == text;
    if start < |text| {
      lines := lines + [text[start..]];
    }
  }

  function NonEmpty<T(==)>(parts: seq<seq<T>>): seq<seq<T>> {
    if parts == [] then [] else (if parts[0] == [] then [] else [parts[0]]) + NonEmpty(parts[1..])
  }

  /** No character swallows a line feed. */
  lemma FrontBeforeLineFeed(a: seq<Byte>)
    requires a != []
    ensures Front(a + [LF]) == Front(a)
    ensures (a + [LF])[Front(a).0..] == a[Front(a).0..] + [LF]
  {
    assert CharLen(a + [LF]) == CharLen(a);
    assert (a + [LF])[..Front(a).0] == a[..Front(a).0];
  }

  lemma FrontHasNoLineFeed(a: seq<Byte>)
    requires a != [] && LF !in a
    ensures TEXT_LF !in Front(a).1
  {
    CharLenIsGrammar(a, Front(a).0);
    assert a[0] in a;
    if Front(a).1 != [] {
      DecodeChar(a[..Front(a).0]);
    }
  }

  lemma {:induction false} DecodeTerminatedLine(a: seq<Byte>)
    requires LF !in a
    ensures DecodeIgnore(a + [LF]) == DecodeIgnore(a) + [TEXT_LF]
    ensures TEXT_LF !in DecodeIgnore(a)
    decreases |a|
  {
    if a == [] {
      assert a + [LF] == [LF] && [LF][1..] == [];
      assert [LF][..1] == [LF];
    } else {
      FrontBeforeLineFeed(a);
      FrontHasNoLineFeed(a);
      DecodeTerminatedLine(a[Front(a).0..]);
      JoinDecoded(a + [LF], a[Front(a).0..] + [LF], DecodeIgnore(a[Front(a).0..]), [TEXT_LF]);
    }
  }

  lemma DecodedLine(line: seq<Byte>)
    requires IsLine(line, LF, true)
    ensures IsLine(DecodeIgnore(line), TEXT_LF, true)
  {
    var body := line[..|line| - 1];
    assert line == body + [LF];
    DecodeTerminatedLine(body);
  }

  lemma DecodedLastLine(line: seq<Byte>)
    requires IsLine(line, LF, true) || IsLine(line, LF, false)
    ensures LinesOf(DecodeIgnore(line), TEXT_LF) == NonEmpty([DecodeIgnore(line)])
  {
    var text: seq<Scalar> := DecodeIgnore(line);
    var one: seq<seq<Scalar>> := [text];
    assert one[1..] == [];
    if IsLine(line, LF, true) {
      DecodedLine(line);
      OneLine(text, TEXT_LF);
    } else {
      assert LF !in line by { assert line == line[..|line| - 1] + [line[|line| - 1]]; }
      DecodeTerminatedLine(line);
      if text != [] {
        assert TEXT_LF !in text[..|text| - 1];
        OneLine(text, TEXT_LF);
      }
    }
  }

  /**
   * Splitting the decoded text gives the decoded lines, except that an unterminated last line of which
   * nothing can be decoded disappears.
   */
  lemma {:induction false} TextLinesAreDecodedLines(s: seq<Byte>, lines: seq<seq<Byte>>)
    requires IsLineSplit(s, LF, lines)
    ensures LinesOf(DecodeIgnore(s), TEXT_LF) == NonEmpty(DecodeEach(lines))
    decreases |lines|
  {
    if |lines| == 1 {
      FlattenOne(lines[0]);
      DecodedLastLine(s);
      assert DecodeEach(lines) == [DecodeIgnore(s)];
    } else if lines != [] {
      var rest := Flatten(lines[1..]);
      assert IsLine(lines[0], LF, true);
      assert lines[1..][|lines| - 2] == lines[|lines| - 1];
      TextLinesAreDecodedLines(rest, lines[1..]);
      DecodeSplitsAtLineFeed(lines[0], rest);
      DecodedLine(lines[0]);
      OneLine(DecodeIgnore(lines[0]), TEXT_LF);
      LinesAfterTerminator(DecodeIgnore(lines[0]), DecodeIgnore(rest), TEXT_LF);
    }
  }

  /** The bytes of the last `n` lines. */
  function Tail(file: seq<Byte>, n: nat): seq<Byte> {
    Flatten(LastLines(LinesOf(file, 0x0a), n))
  }

  /**
   * `readTailLines`: the bytes of exactly the last lines are decoded in one piece, a BOM being kept unless they are
   * the whole file, and the text is split again; an error of the decoder is passed on.
   */
  method ReadTailLines(decode: Decoder<seq<Scalar>>, file: seq<Byte>, tailCount: int, blockSize: nat)
    returns (lines: Option<seq<seq<Scalar>>>)
    requires blockSize > 0
    ensures tailCount <= 0 || file == [] ==> lines == Some([])
    ensures tailCount > 0 && file != [] ==>
              var tail := Tail(file, tailCount);
              0 < |tail| <= |file| && tail == file[|file| - |tail|..]
              && lines == match decode(tail, |tail| < |file|)
                          case None => None
                          case Some(text) => Some(LinesOf(text, 0x0a))
  {
    if tailCount <= 0 || |file| == 0 {
      return Some([]);
    }
    var startOffset := TailOffset(file, tailCount, blockSize);
    var data := file[startOffset..];
    TailStartBeginsLastLines(file, tailCount, startOffset);
    LinesAreASplit(data, LF);
    match decode(data, startOffset != 0) {
      case None => return None;
      case Some(text) =>
        var split := SplitLinesKeepingTerminator(text);
        return Some(split);
    }
  }

  /** With errors ignored those are the decoded last lines of the file, empty ones left out. */
  lemma IgnoringTailIsDecodedLines(file: seq<Byte>, n: nat)
    requires n > 0
    ensures LinesOf(DecodeIgnore(Tail(file, n)), TEXT_LF) == NonEmpty(DecodeEach(LastLines(LinesOf(file, LF), n)))
  {
    var lines := LinesOf(file, LF);
    LinesAreASplit(file, LF);
    assert IsLineSplit(Tail(file, n), LF, LastLines(lines, n));
    TextLinesAreDecodedLines(Tail(file, n), LastLines(lines, n));
  }

  /**
   * The difference between the two readers: on a file whose only line is one stray continuation byte the
   * forward reader yields a line, which decodes to nothing, and the tail reader yields no line.
   */
  lemma UndecodableLastLine(n: nat)
    requires n > 0
    ensures var file: seq<Byte> := [0x80];
            && DecodeEach(LinesOf(file, LF)) == [[]]
            && NonEmpty(DecodeEach(LastLines(LinesOf(file, LF), n))) == []
  {
    var file: seq<Byte> := [0x80];
    OneLine(file, LF);
    assert DecodeIgnore(file) == [] by { assert file[1..] == []; }
    var one: seq<seq<Byte>> := [file];
    assert one[1..] == [];
    assert DecodeEach(one) == [DecodeIgnore(file)];
  }
}
