/**
 * The two UTF-8 recognisers of the file layer, against the grammar in section 4 of RFC 3629: the lookahead
 * decoder that drops what it cannot decode, and the validator that sees the file chunk by chunk.
 *
 * Bytes and code points are integers; the source's masks and shifts of one byte are remainders and products.
 */
module Utf8 {
  import opened Wrappers
  import opened Lines

  type Byte = b: int | 0 <= b < 256

  const LF: Byte := 0x0a

  // ---------- The standard ----------

  /** A Unicode scalar value: a code point that is not a surrogate. */
  predicate IsScalar(c: int) {
    0 <= c <= 0xd7ff || 0xe000 <= c <= 0x10ffff
  }

  type Scalar = c: int | 0 <= c <= 0xd7ff || 0xe000 <= c <= 0x10ffff

  predicate IsTail(b: Byte) {
    0x80 <= b <= 0xbf
  }

  /** UTF8-char of RFC 3629: UTF8-1, UTF8-2, UTF8-3 or UTF8-4. */
  predicate IsChar(s: seq<Byte>) {
    || (|s| == 1 && s[0] <= 0x7f)
    || (|s| == 2 && 0xc2 <= s[0] <= 0xdf && IsTail(s[1]))
    || (|s| == 3 && IsTail(s[2])
        && (|| (s[0] == 0xe0 && 0xa0 <= s[1] <= 0xbf)
            || (0xe1 <= s[0] <= 0xec && IsTail(s[1]))
            || (s[0] == 0xed && 0x80 <= s[1] <= 0x9f)
            || (0xee <= s[0] <= 0xef && IsTail(s[1]))))
    || (|s| == 4 && IsTail(s[2]) && IsTail(s[3])
        && (|| (s[0] == 0xf0 && 0x90 <= s[1] <= 0xbf)
            || (0xf1 <= s[0] <= 0xf3 && IsTail(s[1]))
            || (s[0] == 0xf4 && 0x80 <= s[1] <= 0x8f)))
  }

  /** UTF8-octets of RFC 3629: any number of UTF8-chars. */
  ghost predicate IsOctets(s: seq<Byte>)
    decreases |s|
  {
    s == [] || exists n :: 1 <= n <= 4 && n <= |s| && IsChar(s[..n]) && IsOctets(s[n..])
  }

  /** The encoding of one scalar value, section 3 of RFC 3629. */
  function Encode(c: Scalar): seq<Byte> {
    if c <= 0x7f then
      var b0: Byte := c;
      [b0]
    else if c <= 0x7ff then
      var b0: Byte := 0xc0 + c / 64;
      [b0, TailByte(c)]
    else if c <= 0xffff then
      var b0: Byte := 0xe0 + c / 64 / 64;
      [b0, TailByte(c / 64), TailByte(c)]
    else
      var b0: Byte := 0xf0 + c / 64 / 64 / 64;
      [b0, TailByte(c / 64 / 64), TailByte(c / 64), TailByte(c)]
  }

  /** A continuation byte carrying the low six bits of `c`. */
  function TailByte(c: int): Byte {
    0x80 + c % 64
  }

  function EncodeAll(text: seq<Scalar>): seq<Byte> {
    if text == [] then [] else Encode(text[0]) + EncodeAll(text[1..])
  }

  // ---------- The decoder that ignores errors ----------

  /** The length that a leading byte announces; 0 when no character starts with it. */
  function Need(b0: Byte): nat {
    if b0 <= 0x7f then 1
    else if 0xc2 <= b0 <= 0xdf then 2
    else if 0xe0 <= b0 <= 0xef then 3
    else if 0xf0 <= b0 <= 0xf4 then 4
    else 0
  }

  /** The range of the second byte after the leading byte `b0`. */
  function Lower(b0: Byte): Byte {
    if b0 == 0xe0 then 0xa0 else if b0 == 0xf0 then 0x90 else 0x80
  }

  function Upper(b0: Byte): Byte {
    if b0 == 0xed then 0x9f else if b0 == 0xf4 then 0x8f else 0xbf
  }

  /** The length of the character the decoder recognises at the front of `s`; 0 when it drops a byte instead. */
  function CharLen(s: seq<Byte>): nat {
    if && s != [] && Need(s[0]) <= |s|
       && (Need(s[0]) >= 2 ==> Lower(s[0]) <= s[1] <= Upper(s[0]))
       && (Need(s[0]) >= 3 ==> IsTail(s[2]))
       && (Need(s[0]) >= 4 ==> IsTail(s[3]))
    then Need(s[0]) else 0
  }

  /** `(high << 6) | (tail & 0x3f)`: on a continuation byte the mask takes 0x80 away. */
  function Append6(high: int, tail: Byte): int {
    high * 64 + (tail - 0x80) as int
  }

  /** The scalar value of a character; the mask of the leading byte takes its length marker away. */
  function CodePoint(s: seq<Byte>): int
    requires IsChar(s)
  {
    var b0: int := s[0];
    if |s| == 1 then b0
    else if |s| == 2 then Append6(b0 - 0xc0, s[1])
    else if |s| == 3 then Append6(Append6(b0 - 0xe0, s[1]), s[2])
    else Append6(Append6(Append6(b0 - 0xf0, s[1]), s[2]), s[3])
  }

  lemma Append6Splits(high: int, tail: Byte)
    requires IsTail(tail)
    ensures Append6(high, tail) / 64 == high && TailByte(Append6(high, tail)) == tail
  {
  }

  /** The decoder recognises exactly the characters of the grammar, and never two at one place. */
  lemma CharLenIsGrammar(s: seq<Byte>, n: nat)
    requires n <= |s|
    ensures 0 < n && CharLen(s) == n <==> IsChar(s[..n])
    ensures CharLen(s) <= |s| && CharLen(s) <= 4
  {
    if n >= 1 { assert s[..n][0] == s[0]; }
    if n >= 2 { assert s[..n][1] == s[1]; }
    if n >= 3 { assert s[..n][2] == s[2]; }
    if n >= 4 { assert s[..n][3] == s[3]; }
  }

  lemma DecodeTwo(s: seq<Byte>)
    requires IsChar(s) && |s| == 2
    ensures 0x80 <= CodePoint(s) <= 0x7ff && Encode(CodePoint(s)) == s
  {
    Append6Splits(s[0] as int - 0xc0, s[1]);
  }

  lemma DecodeThree(s: seq<Byte>)
    requires IsChar(s) && |s| == 3
    ensures 0x800 <= CodePoint(s) <= 0xffff && IsScalar(CodePoint(s)) && Encode(CodePoint(s)) == s
  {
    var lead := s[0] as int - 0xe0;
    Append6Splits(lead, s[1]);
    Append6Splits(Append6(lead, s[1]), s[2]);
  }

  lemma FourRange(s: seq<Byte>)
    requires IsChar(s) && |s| == 4
    ensures 0x10000 <= CodePoint(s) <= 0x10ffff
  {
  }

  lemma DecodeFour(s: seq<Byte>)
    requires IsChar(s) && |s| == 4
    ensures 0x10000 <= CodePoint(s) <= 0x10ffff && Encode(CodePoint(s)) == s
  {
    var lead := s[0] as int - 0xf0;
    var high := Append6(lead, s[1]);
    var mid := Append6(high, s[2]);
    FourRange(s);
    Append6Splits(lead, s[1]);
    Append6Splits(high, s[2]);
    Append6Splits(mid, s[3]);
    var c := CodePoint(s);
    assert c == Append6(mid, s[3]) && c / 64 == mid && c / 64 / 64 == high && c / 64 / 64 / 64 == lead;
  }

  /** A character decodes to the one scalar value that encodes to it. */
  lemma DecodeChar(s: seq<Byte>)
    requires IsChar(s)
    ensures IsScalar(CodePoint(s)) && Encode(CodePoint(s)) == s
  {
    if |s| == 2 {
      DecodeTwo(s);
    } else if |s| == 3 {
      DecodeThree(s);
    } else if |s| == 4 {
      DecodeFour(s);
    }
  }

  lemma TailByteAppends(c: int)
    requires 0 <= c
    ensures IsTail(TailByte(c)) && Append6(c / 64, TailByte(c)) == c
  {
  }

  lemma EncodeTwo(c: Scalar)
    requires 0x7f < c <= 0x7ff
    ensures IsChar(Encode(c)) && CodePoint(Encode(c)) == c
  {
    TailByteAppends(c);
  }

  lemma EncodeThree(c: Scalar)
    requires 0x7ff < c <= 0xffff
    ensures IsChar(Encode(c)) && CodePoint(Encode(c)) == c
  {
    var q := c / 64;
    TailByteAppends(c);
    TailByteAppends(q);
    assert 0x20 <= q <= 0x3ff && !(0x360 <= q <= 0x37f);
  }

  lemma EncodeFour(c: Scalar)
    requires 0xffff < c
    ensures IsChar(Encode(c)) && CodePoint(Encode(c)) == c
  {
    var q := c / 64;
    var qq := q / 64;
    TailByteAppends(c);
    TailByteAppends(q);
    TailByteAppends(qq);
    assert 0x400 <= q && 0x10 <= qq <= 0x10f;
  }

  lemma EncodeIsChar(c: Scalar)
    ensures IsChar(Encode(c)) && CodePoint(Encode(c)) == c
  {
    if c > 0xffff {
      EncodeFour(c);
    } else if c > 0x7ff {
      EncodeThree(c);
    } else if c > 0x7f {
      EncodeTwo(c);
    }
  }

  /** What the decoder does at the front of `s`: the bytes it passes, and the scalar value it emits, if any. */
  function Front(s: seq<Byte>): (r: (nat, seq<Scalar>))
    requires s != []
    ensures 1 <= r.0 <= |s|
    ensures r.1 == [] <==> CharLen(s) == 0
    ensures r.0 == if r.1 == [] then 1 else CharLen(s)
  {
    var n := CharLen(s);
    if n == 0 then (1, [])
    else
      CharLenIsGrammar(s, n);
      DecodeChar(s[..n]);
      (n, [CodePoint(s[..n])])
  }

  function DecodeIgnore(s: seq<Byte>): seq<Scalar>
    decreases |s|
  {
    if s == [] then [] else Front(s).1 + DecodeIgnore(s[Front(s).0..])
  }

  lemma TakeChar(data: seq<Byte>, i: nat, n: nat)
    requires i <= |data| && 0 < n == CharLen(data[i..])
    ensures i + n <= |data| && IsChar(data[i..i + n]) && IsScalar(CodePoint(data[i..i + n]))
    ensures DecodeIgnore(data[i..]) == [CodePoint(data[i..i + n])] + DecodeIgnore(data[i + n..])
  {
    var s := data[i..];
    CharLenIsGrammar(s, n);
    assert s[..n] == data[i..i + n] && s[n..] == data[i + n..];
    DecodeChar(s[..n]);
  }

  lemma DropByte(data: seq<Byte>, i: nat)
    requires i < |data| && CharLen(data[i..]) == 0
    ensures DecodeIgnore(data[i..]) == [] + DecodeIgnore(data[i + 1..])
  {
    assert data[i..][1..] == data[i + 1..];
  }

  /** The byte at `i`, which may lie beyond the end: `data[i]` of a buffer. */
  function ByteAt(data: seq<Byte>, i: nat): Option<Byte> {
    if i < |data| then Some(data[i]) else None
  }

  predicate InRange(b: Option<Byte>, lo: int, hi: int) {
    b.Some? && lo <= b.value <= hi
  }

  /** The branches of the loop of `decodeUtf8Ignore`: how long a character starts at `i`, if any. */
  method RecogniseAt(data: seq<Byte>, i: nat) returns (n: nat)
    requires i < |data|
    ensures n == CharLen(data[i..])
  {
    var b0: int := data[i];
    var b1, b2, b3 := ByteAt(data, i + 1), ByteAt(data, i + 2), ByteAt(data, i + 3);
    n := 0;
    if b0 <= 0x7f {
      n := 1;
    } else if 0xc2 <= b0 <= 0xdf {
      if InRange(b1, 0x80, 0xbf) { n := 2; }
    } else if 0xe0 <= b0 <= 0xef {
      var validSecond := || (b0 == 0xe0 && InRange(b1, 0xa0, 0xbf))
                         || (0xe1 <= b0 <= 0xec && InRange(b1, 0x80, 0xbf))
                         || (b0 == 0xed && InRange(b1, 0x80, 0x9f))
                         || (0xee <= b0 <= 0xef && InRange(b1, 0x80, 0xbf));
      if validSecond && InRange(b2, 0x80, 0xbf) { n := 3; }
    } else if 0xf0 <= b0 <= 0xf4 {
      var validSecond := || (b0 == 0xf0 && InRange(b1, 0x90, 0xbf))
                         || (0xf1 <= b0 <= 0xf3 && InRange(b1, 0x80, 0xbf))
                         || (b0 == 0xf4 && InRange(b1, 0x80, 0x8f));
      if validSecond && InRange(b2, 0x80, 0xbf) && InRange(b3, 0x80, 0xbf) { n := 4; }
    }
  }

  ghost predicate Progress(data: seq<Byte>, i: nat, output: seq<Scalar>) {
    i <= |data| && output + DecodeIgnore(data[i..]) == DecodeIgnore(data)
  }

  lemma Extend(data: seq<Byte>, i: nat, output: seq<Scalar>, k: nat, out: seq<Scalar>)
    requires Progress(data, i, output) && i + k <= |data|
    requires DecodeIgnore(data[i..]) == out + DecodeIgnore(data[i + k..])
    ensures Progress(data, i + k, output + out)
  {
    assert output + (out + DecodeIgnore(data[i + k..])) == (output + out) + DecodeIgnore(data[i + k..]);
  }

  lemma DropProgress(data: seq<Byte>, i: nat, output: seq<Scalar>)
    requires i < |data| && Progress(data, i, output) && CharLen(data[i..]) == 0
    ensures Progress(data, i + 1, output)
  {
    DropByte(data, i);
    Extend(data, i, output, 1, []);
    assert output + [] == output;
  }

  lemma TakeProgress(data: seq<Byte>, i: nat, output: seq<Scalar>, n: nat)
    requires i < |data| && Progress(data, i, output) && 0 < n == CharLen(data[i..])
    ensures i + n <= |data| && IsChar(data[i..i + n]) && IsScalar(CodePoint(data[i..i + n]))
    ensures Progress(data, i + n, output + [CodePoint(data[i..i + n])])
  {
    TakeChar(data, i, n);
    Extend(data, i, output, n, [CodePoint(data[i..i + n])]);
  }

  lemma AllDecoded(data: seq<Byte>, i: nat, output: seq<Scalar>)
    requires Progress(data, i, output) && i == |data|
    ensures output == DecodeIgnore(data)
  {
    assert data[i..] == [];
  }

  /** One round of that loop: append a character and move past it, or drop one byte. */
  method DecodeRound(data: seq<Byte>, i: nat, output: seq<Scalar>) returns (i': nat, output': seq<Scalar>)
    requires i < |data| && Progress(data, i, output)
    ensures i < i' && Progress(data, i', output')
  {
    var n := RecogniseAt(data, i);
    if n > 0 {
      TakeProgress(data, i, output, n);
      return i + n, output + [CodePoint(data[i..i + n])];
    }
    DropProgress(data, i, output);
    return i + 1, output;
  }

  method DecodeUtf8Ignore(data: seq<Byte>) returns (output: seq<Scalar>)
    ensures output == DecodeIgnore(data)
  {
    output := [];
    var i := 0;
    assert data[0..] == data;
    while i < |data|
      invariant Progress(data, i, output)
    {
      i, output := DecodeRound(data, i, output);
    }
    AllDecoded(data, i, output);
  }

  // ---------- What the decoder keeps ----------

  lemma CharAtFront(c: Scalar, rest: seq<Byte>)
    ensures CharLen(Encode(c) + rest) == |Encode(c)|
    ensures (Encode(c) + rest)[..|Encode(c)|] == Encode(c) && (Encode(c) + rest)[|Encode(c)|..] == rest
  {
    EncodeIsChar(c);
    CharLenIsGrammar(Encode(c) + rest, |Encode(c)|);
  }

  lemma FrontOfEncoded(c: Scalar, rest: seq<Byte>)
    ensures Encode(c) + rest != [] && Front(Encode(c) + rest) == (|Encode(c)|, [c])
    ensures (Encode(c) + rest)[|Encode(c)|..] == rest
  {
    EncodeIsChar(c);
    CharAtFront(c, rest);
  }

  /** Decoding undoes encoding, for every text. */
  lemma {:induction false} DecodeUndoesEncode(text: seq<Scalar>)
    ensures DecodeIgnore(EncodeAll(text)) == text
  {
    if text != [] {
      DecodeUndoesEncode(text[1..]);
      FrontOfEncoded(text[0], EncodeAll(text[1..]));
    }
  }

  /** Every encoded text is in the grammar, and the validator accepts it. */
  lemma {:induction false} EncodedIsOctets(text: seq<Scalar>)
    ensures IsOctets(EncodeAll(text)) && Accepted(DfaRun(START, EncodeAll(text)))
  {
    ValidatorIsGrammar(EncodeAll(text));
    if text != [] {
      EncodeIsChar(text[0]);
      CharAtFront(text[0], EncodeAll(text[1..]));
      EncodedIsOctets(text[1..]);
      var n := |Encode(text[0])|;
      assert IsChar(EncodeAll(text)[..n]) && IsOctets(EncodeAll(text)[n..]);
    }
  }

  /** The grammar has no choice: the character at the front is the one the decoder recognises. */
  lemma OctetsAtFront(s: seq<Byte>)
    requires s != []
    ensures IsOctets(s) <==> Front(s).1 != [] && IsOctets(s[Front(s).0..])
  {
    forall k | 1 <= k <= 4 && k <= |s| && IsChar(s[..k]) ensures k == CharLen(s) {
      CharLenIsGrammar(s, k);
    }
    CharLenIsGrammar(s, CharLen(s));
  }

  lemma EncodeFront(s: seq<Byte>, rest: seq<Scalar>)
    requires s != []
    ensures EncodeAll(Front(s).1 + rest) == (if Front(s).1 == [] then [] else s[..Front(s).0]) + EncodeAll(rest)
  {
    if Front(s).1 == [] {
      assert Front(s).1 + rest == rest;
    } else {
      DecodeChar(s[..Front(s).0]);
      assert (Front(s).1 + rest)[1..] == rest;
    }
  }

  /** Taking a front of `s` and a rest no longer than the rest of `s` gives `s` back only as expected. */
  lemma Rejoin(s: seq<Byte>, k: nat, taken: bool, rest: seq<Byte>)
    requires 0 < k <= |s| && |rest| <= |s| - k
    ensures var whole := (if taken then s[..k] else []) + rest;
            |whole| <= |s| && (whole == s <==> taken && rest == s[k..])
  {
    assert s[..k] + s[k..] == s;
    assert (s[..k] + rest)[k..] == rest;
  }

  /** What is decoded never re-encodes to more than was read, and drops nothing exactly on UTF8-octets. */
  lemma {:induction false} DropsNothingIffOctets(s: seq<Byte>)
    ensures |EncodeAll(DecodeIgnore(s))| <= |s|
    ensures EncodeAll(DecodeIgnore(s)) == s <==> IsOctets(s)
    decreases |s|
  {
    if s != [] {
      var k := Front(s).0;
      DropsNothingIffOctets(s[k..]);
      EncodeFront(s, DecodeIgnore(s[k..]));
      OctetsAtFront(s);
      Rejoin(s, k, Front(s).1 != [], EncodeAll(DecodeIgnore(s[k..])));
    }
  }

  // ---------- Line by line ----------

  /** No character crosses a line feed. */
  lemma CharStaysInLine(a: seq<Byte>, b: seq<Byte>)
    requires a != [] && a[|a| - 1] == LF
    ensures CharLen(a + b) == CharLen(a)
  {
  }

  lemma FrontStaysInLine(a: seq<Byte>, b: seq<Byte>)
    requires a != [] && a[|a| - 1] == LF
    ensures Front(a + b) == Front(a)
    ensures (a + b)[Front(a).0..] == a[Front(a).0..] + b
  {
    CharStaysInLine(a, b);
    assert (a + b)[..Front(a).0] == a[..Front(a).0];
  }

  lemma JoinDecoded(s: seq<Byte>, rest: seq<Byte>, x: seq<Scalar>, y: seq<Scalar>)
    requires s != [] && rest == s[Front(s).0..] && DecodeIgnore(rest) == x + y
    ensures DecodeIgnore(s) == (Front(s).1 + x) + y
  {
    assert Front(s).1 + (x + y) == (Front(s).1 + x) + y;
  }

  /** Decoding distributes over a split just after a line feed, on malformed input too. */
  lemma {:induction false} DecodeSplitsAtLineFeed(a: seq<Byte>, b: seq<Byte>)
    requires a == [] || a[|a| - 1] == 0x0a
    ensures DecodeIgnore(a + b) == DecodeIgnore(a) + DecodeIgnore(b)
    decreases |a|
  {
    if a == [] {
      assert a + b == b;
    } else {
      FrontStaysInLine(a, b);
      var rest := a[Front(a).0..];
      DecodeSplitsAtLineFeed(rest, b);
      JoinDecoded(a + b, rest + b, DecodeIgnore(rest), DecodeIgnore(b));
    }
  }

  function DecodeEach(lines: seq<seq<Byte>>): seq<seq<Scalar>> {
    if lines == [] then [] else [DecodeIgnore(lines[0])] + DecodeEach(lines[1..])
  }

  /** Decoding line by line concatenates to decoding the whole file. */
  lemma {:induction false} DecodeLineByLine(s: seq<Byte>, lines: seq<seq<Byte>>)
    requires IsLineSplit(s, 0x0a, lines)
    ensures Flatten(DecodeEach(lines)) == DecodeIgnore(s)
    decreases |lines|
  {
    if |lines| == 1 {
      FlattenOne(lines[0]);
      FlattenOne(DecodeIgnore(lines[0]));
      assert DecodeEach(lines[1..]) == [];
    } else if lines != [] {
      assert IsLine(lines[0], LF, true);
      assert lines[1..][|lines| - 2] == lines[|lines| - 1];
      DecodeLineByLine(Flatten(lines[1..]), lines[1..]);
      DecodeSplitsAtLineFeed(lines[0], Flatten(lines[1..]));
    }
  }

  // ---------- The streaming validator ----------

  /** The validator's three variables between two bytes. */
  datatype Dfa = Dfa(needed: nat, lower: Byte, upper: Byte)

  const START := Dfa(0, 0x80, 0xbf)

  /** One byte of `write`; `None` is the thrown error. */
  function DfaStep(d: Dfa, byte: Byte): Option<Dfa> {
    if d.needed == 0 then
      if byte <= 0x7f then Some(d)
      else if 0xc2 <= byte <= 0xdf then Some(d.(needed := 1))
      else if byte == 0xe0 then Some(d.(needed := 2, lower := 0xa0))
      else if 0xe1 <= byte <= 0xec then Some(d.(needed := 2))
      else if byte == 0xed then Some(d.(needed := 2, upper := 0x9f))
      else if 0xee <= byte <= 0xef then Some(d.(needed := 2))
      else if byte == 0xf0 then Some(d.(needed := 3, lower := 0x90))
      else if 0xf1 <= byte <= 0xf3 then Some(d.(needed := 3))
      else if byte == 0xf4 then Some(d.(needed := 3, upper := 0x8f))
      else None
    else if byte < d.lower || byte > d.upper then None
    else Some(Dfa(d.needed - 1, 0x80, 0xbf))
  }

  function DfaRun(d: Dfa, s: seq<Byte>): Option<Dfa>
    decreases |s|
  {
    if s == [] then Some(d)
    else match DfaStep(d, s[0])
      case None => None
      case Some(d') => DfaRun(d', s[1..])
  }

  /** Whatever is read in two pieces is read as one. */
  lemma {:induction false} DfaRunAppend(d: Dfa, a: seq<Byte>, b: seq<Byte>)
    ensures DfaRun(d, a + b) == if DfaRun(d, a).None? then None else DfaRun(DfaRun(d, a).value, b)
    decreases |a|
  {
    if a == [] {
      assert a + b == b;
    } else {
      assert (a + b)[1..] == a[1..] + b;
      if DfaStep(d, a[0]).Some? {
        DfaRunAppend(DfaStep(d, a[0]).value, a[1..], b);
      }
    }
  }

  predicate Accepted(r: Option<Dfa>) {
    r.Some? && r.value.needed == 0
  }

  /** Inside a character: `needed` more bytes in range, or no acceptance. */
  lemma {:induction false} DfaInside(d: Dfa, s: seq<Byte>)
    requires 0 < d.needed <= 3
    ensures Accepted(DfaRun(d, s)) <==>
              && d.needed <= |s|
              && d.lower <= s[0] <= d.upper
              && (d.needed >= 2 ==> IsTail(s[1]))
              && (d.needed >= 3 ==> IsTail(s[2]))
              && Accepted(DfaRun(START, s[d.needed..]))
    decreases d.needed
  {
    if s != [] && d.lower <= s[0] <= d.upper && d.needed > 1 {
      DfaInside(DfaStep(d, s[0]).value, s[1..]);
      if d.needed <= |s| {
        assert s[1..][d.needed - 1..] == s[d.needed..];
      }
    }
  }

  lemma DfaTakesOneChar(s: seq<Byte>)
    requires s != []
    ensures Accepted(DfaRun(START, s)) <==> CharLen(s) > 0 && Accepted(DfaRun(START, s[CharLen(s)..]))
  {
    var first := DfaStep(START, s[0]);
    if first.Some? && first.value.needed > 0 {
      DfaInside(first.value, s[1..]);
      if Need(s[0]) <= |s| {
        assert s[1..][first.value.needed..] == s[Need(s[0])..];
      }
    }
  }

  /** The validator accepts exactly the UTF8-octets of RFC 3629. */
  lemma {:induction false} ValidatorIsGrammar(s: seq<Byte>)
    ensures Accepted(DfaRun(START, s)) <==> IsOctets(s)
    decreases |s|
  {
    if s != [] {
      DfaTakesOneChar(s);
      OctetsAtFront(s);
      CharLenIsGrammar(s, CharLen(s));
      if CharLen(s) > 0 {
        ValidatorIsGrammar(s[CharLen(s)..]);
      }
    }
  }

  /** `createUtf8Validator`. */
  class Utf8Validator {
    var needed: nat
    var lower: Byte
    var upper: Byte
    ghost var seen: seq<Byte>

    ghost predicate Valid()
      reads this
    {
      DfaRun(START, seen) == Some(Dfa(needed, lower, upper))
    }

    constructor ()
      ensures Valid() && seen == []
    {
      needed, lower, upper := 0, 0x80, 0xbf;
      seen := [];
    }

    /** False is the thrown error; the validator is not used again after it. */
    method Write(chunk: seq<Byte>) returns (ok: bool)
      requires Valid()
      modifies this
      ensures ok ==> Valid() && seen == old(seen) + chunk
      ensures !ok ==> DfaRun(START, old(seen) + chunk) == None
    {
      var i := 0;
      ghost var before := Dfa(needed, lower, upper);
      DfaRunAppend(START, seen, chunk);
      while i < |chunk|
        invariant 0 <= i <= |chunk| && seen == old(seen)
        invariant DfaRun(before, chunk) == DfaRun(Dfa(needed, lower, upper), chunk[i..])
      {
        var byte := chunk[i];
        assert chunk[i..][1..] == chunk[i + 1..];
        if needed == 0 {
          if byte <= 0x7f {
          } else if 0xc2 <= byte <= 0xdf {
            needed := 1;
          } else if byte == 0xe0 {
            needed, lower := 2, 0xa0;
          } else if 0xe1 <= byte <= 0xec {
            needed := 2;
          } else if byte == 0xed {
            needed, upper := 2, 0x9f;
          } else if 0xee <= byte <= 0xef {
            needed := 2;
          } else if byte == 0xf0 {
            needed, lower := 3, 0x90;
          } else if 0xf1 <= byte <= 0xf3 {
            needed := 3;
          } else if byte == 0xf4 {
            needed, upper := 3, 0x8f;
          } else {
            return false;
          }
        } else {
          if byte < lower || byte > upper {
            return false;
          }
          lower, upper, needed := 0x80, 0xbf, needed - 1;
        }
        i := i + 1;
      }
      seen := seen + chunk;
      return true;
    }

    /** At the end of the file: true unless a character is incomplete. */
    method End() returns (ok: bool)
      requires Valid()
      ensures ok <==> IsOctets(seen)
    {
      ValidatorIsGrammar(seen);
      return needed == 0;
    }
  }

  /** A chunk the validator rejects cannot begin any UTF8-octets. */
  lemma RejectedIsNotOctets(s: seq<Byte>, rest: seq<Byte>)
    requires DfaRun(START, s) == None
    ensures !IsOctets(s + rest)
  {
    DfaRunAppend(START, s, rest);
    ValidatorIsGrammar(s + rest);
  }
}
