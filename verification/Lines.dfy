/** Lines that keep their terminator: what both the byte readers and the text splitter produce. */
module Lines {
  function Flatten<T>(parts: seq<seq<T>>): seq<T> {
    if parts == [] then [] else parts[0] + Flatten(parts[1..])
  }

  /** The terminated lines of `s`, and what is left after the last terminator. */
  function Split<T(==)>(s: seq<T>, lf: T): (seq<seq<T>>, seq<T>) {
    if s == [] then ([], [])
    else
      var (done, rest) := Split(s[..|s| - 1], lf);
      var x := s[|s| - 1];
      if x == lf then (done + [rest + [x]], []) else (done, rest + [x])
  }

  function LinesOf<T(==)>(s: seq<T>, lf: T): seq<seq<T>> {
    var (done, rest) := Split(s, lf);
    if rest == [] then done else done + [rest]
  }

  function Count<T(==)>(s: seq<T>, x: T): nat {
    if s == [] then 0 else (if s[0] == x then 1 else 0) + Count(s[1..], x)
  }

  // ---------- What a split into lines is ----------

  predicate IsLine<T(==)>(line: seq<T>, lf: T, terminated: bool) {
    line != [] && lf !in line[..|line| - 1] && (line[|line| - 1] == lf) == terminated
  }

  /** A division of `s` into nonempty lines, with terminators at line ends only, each line but the last terminated. */
  ghost predicate IsLineSplit<T>(s: seq<T>, lf: T, lines: seq<seq<T>>) {
    && Flatten(lines) == s
    && (forall i :: 0 <= i < |lines| - 1 ==> IsLine(lines[i], lf, true))
    && (lines != [] ==> IsLine(lines[|lines| - 1], lf, true) || IsLine(lines[|lines| - 1], lf, false))
  }

  lemma {:induction false} FlattenAppend<T>(a: seq<seq<T>>, b: seq<seq<T>>)
    ensures Flatten(a + b) == Flatten(a) + Flatten(b)
  {
    if a == [] {
      assert a + b == b;
    } else {
      assert (a + b)[1..] == a[1..] + b;
      FlattenAppend(a[1..], b);
    }
  }

  lemma FlattenOne<T>(x: seq<T>)
    ensures Flatten([x]) == x
  {
    assert [x][1..] == [];
  }

  /** One more element ends the unfinished line or joins it. */
  lemma SplitSnoc<T>(s: seq<T>, x: T, lf: T)
    ensures Split(s + [x], lf)
            == var (done, rest) := Split(s, lf);
               if x == lf then (done + [rest + [x]], []) else (done, rest + [x])
  {
    assert (s + [x])[..|s|] == s;
  }

  lemma {:induction false} SplitShape<T>(s: seq<T>, lf: T)
    ensures var (done, rest) := Split(s, lf);
            Flatten(done) + rest == s && lf !in rest && forall i :: 0 <= i < |done| ==> IsLine(done[i], lf, true)
  {
    if s != [] {
      var (done, rest) := Split(s[..|s| - 1], lf);
      SplitShape(s[..|s| - 1], lf);
      FlattenAppend(done, [rest + [s[|s| - 1]]]);
      FlattenOne(rest + [s[|s| - 1]]);
      assert s == s[..|s| - 1] + [s[|s| - 1]];
      assert (rest + [lf])[..|rest|] == rest;
    }
  }

  /** The lines are a line split of the input. */
  lemma LinesAreASplit<T>(s: seq<T>, lf: T)
    ensures IsLineSplit(s, lf, LinesOf(s, lf))
  {
    var (done, rest) := Split(s, lf);
    SplitShape(s, lf);
    if rest != [] {
      FlattenAppend(done, [rest]);
      FlattenOne(rest);
    }
  }

  lemma {:induction false} SplitPartial<T>(s: seq<T>, lf: T)
    requires lf !in s
    ensures Split(s, lf) == ([], s)
  {
    if s != [] {
      SplitPartial(s[..|s| - 1], lf);
      assert s[..|s| - 1] + [s[|s| - 1]] == s;
    }
  }

  /** Splitting resumes after a terminator as if the text began there. */
  lemma {:induction false} SplitAfterTerminator<T>(a: seq<T>, b: seq<T>, lf: T)
    requires a == [] || a[|a| - 1] == lf
    ensures Split(a + b, lf) == (Split(a, lf).0 + Split(b, lf).0, Split(b, lf).1)
  {
    if b == [] {
      assert a + b == a;
      assert Split(a, lf).0 + [] == Split(a, lf).0;
    } else {
      assert (a + b)[..|a + b| - 1] == a + b[..|b| - 1];
      SplitAfterTerminator(a, b[..|b| - 1], lf);
      var (done, rest) := Split(b[..|b| - 1], lf);
      assert Split(a, lf).0 + done + [rest + [lf]] == Split(a, lf).0 + (done + [rest + [lf]]);
    }
  }

  lemma LinesAfterTerminator<T>(a: seq<T>, b: seq<T>, lf: T)
    requires a == [] || a[|a| - 1] == lf
    ensures LinesOf(a + b, lf) == LinesOf(a, lf) + LinesOf(b, lf)
  {
    SplitAfterTerminator(a, b, lf);
    var (done, rest) := Split(b, lf);
    assert Split(a, lf).1 == [];
    assert (Split(a, lf).0 + done) + [rest] == Split(a, lf).0 + (done + [rest]);
  }

  lemma OneLine<T>(line: seq<T>, lf: T)
    requires IsLine(line, lf, true) || IsLine(line, lf, false)
    ensures LinesOf(line, lf) == [line]
  {
    SplitPartial(line[..|line| - 1], lf);
    assert line[..|line| - 1] + [line[|line| - 1]] == line;
  }

  /** There is only one way to split a text into lines. */
  lemma {:induction false} LineSplitIsUnique<T>(s: seq<T>, lf: T, lines: seq<seq<T>>)
    requires IsLineSplit(s, lf, lines)
    ensures lines == LinesOf(s, lf)
    decreases |lines|
  {
    if lines != [] {
      var rest := Flatten(lines[1..]);
      if |lines| == 1 {
        FlattenOne(lines[0]);
        OneLine(s, lf);
        assert lines == [s];
      } else {
        assert IsLine(lines[0], lf, true);
        assert lines[1..][|lines| - 2] == lines[|lines| - 1];
        LineSplitIsUnique(rest, lf, lines[1..]);
        OneLine(lines[0], lf);
        LinesAfterTerminator(lines[0], rest, lf);
        assert lines == [lines[0]] + lines[1..];
      }
    }
  }

  // ---------- Counting ----------

  lemma {:induction false} CountAppend<T>(a: seq<T>, b: seq<T>, x: T)
    ensures Count(a + b, x) == Count(a, x) + Count(b, x)
  {
    if a == [] {
      assert a + b == b;
    } else {
      assert (a + b)[1..] == a[1..] + b;
      CountAppend(a[1..], b, x);
    }
  }

  lemma {:induction false} TerminatedLineCount<T>(s: seq<T>, lf: T)
    ensures |Split(s, lf).0| == Count(s, lf)
    ensures (Split(s, lf).1 == []) == (s == [] || s[|s| - 1] == lf)
  {
    if s != [] {
      TerminatedLineCount(s[..|s| - 1], lf);
      assert s == s[..|s| - 1] + [s[|s| - 1]];
      CountAppend(s[..|s| - 1], [s[|s| - 1]], lf);
    }
  }

  /** As many lines as terminators, and one more if the text does not end in one. */
  lemma LineCount<T>(s: seq<T>, lf: T)
    ensures |LinesOf(s, lf)| == Count(s, lf) + if s == [] || s[|s| - 1] == lf then 0 else 1
  {
    TerminatedLineCount(s, lf);
  }
}
