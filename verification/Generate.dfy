/**
 * Assembling one streamed assistant message: `generate`'s loop with its one pending part and its index map,
 * against a machine that simply keeps one argument buffer per tool call.
 */
module Generate {
  import opened Sequences
  import opened Wrappers

  // ---------- Messages ----------

  datatype Index = NumberIndex(n: int) | StringIndex(s: string)

  /** Content parts; images, audio and video are opaque here. */
  datatype Content =
    | Text(text: string)
    | Think(think: string, encrypted: Option<string>)
    | Media(kind: string, url: string, id: Option<string>)

  /** A tool call as a stream announces it. Its arguments may be null. */
  datatype Header = Header(id: string, name: string, arguments: Option<string>, extras: map<string, string>,
                           streamIndex: Option<Index>)

  datatype Part =
    | ContentPart(content: Content)
    | ToolCall(header: Header)
    | ToolCallPart(argumentsPart: Option<string>, index: Option<Index>)

  /** A tool call as stored: without its streaming index. */
  datatype StoredCall = StoredCall(id: string, name: string, arguments: Option<string>, extras: map<string, string>)

  datatype Message = Message(content: seq<Content>, toolCalls: seq<StoredCall>)

  function Stored(h: Header): StoredCall {
    StoredCall(h.id, h.name, h.arguments, h.extras)
  }

  /** Appending an argument delta; null changes nothing, and null arguments become the delta. */
  function Append(arguments: Option<string>, delta: Option<string>): Option<string> {
    match delta
    case None => arguments
    case Some(d) => if arguments.None? then Some(d) else Some(arguments.value + d)
  }

  // ---------- The assembler ----------

  /** `mergeInPlace`: the merged part, or nothing when the two cannot be merged. */
  function Merge(target: Part, source: Part): Option<Part> {
    match (target, source)
    case (ContentPart(Text(a)), ContentPart(Text(b))) => Some(ContentPart(Text(a + b)))
    case (ContentPart(Think(a, signed)), ContentPart(Think(b, signature))) =>
      if signed.Some? then None
      else Some(ContentPart(Think(a + b, signature)))
    case (ToolCall(h), ToolCallPart(delta, _)) => Some(ToolCall(h.(arguments := Append(h.arguments, delta))))
    case _ => None
  }

  /** The variables of the loop. */
  datatype State = State(content: seq<Content>, toolCalls: seq<StoredCall>, pending: Option<Part>,
                         indexMap: map<Index, nat>)

  const EMPTY := State([], [], None, map[])

  function Flush(s: State, part: Part): State {
    match part
    case ContentPart(c) => s.(content := s.content + [c])
    case ToolCall(h) =>
      s.(toolCalls := s.toolCalls + [Stored(h)],
         indexMap := if h.streamIndex.Some? then s.indexMap[h.streamIndex.value := |s.toolCalls|] else s.indexMap)
    case ToolCallPart(_, _) => s
  }

  predicate IsPendingAt(pending: Option<Part>, index: Index) {
    pending.Some? && pending.value.ToolCall? && pending.value.header.streamIndex == Some(index)
  }

  /** The delta belongs to a call that is stored already. */
  predicate Routed(s: State, part: Part) {
    part.ToolCallPart? && part.index.Some? && !IsPendingAt(s.pending, part.index.value)
    && part.index.value in s.indexMap
  }

  function Route(s: State, part: Part): State
    requires Routed(s, part)
  {
    var i := s.indexMap[part.index.value];
    if i < |s.toolCalls| then
      var call := s.toolCalls[i];
      s.(toolCalls := s.toolCalls[i := call.(arguments := Append(call.arguments, part.argumentsPart))])
    else s
  }

  /** One round of the loop. */
  function Feed(s: State, part: Part): State {
    if Routed(s, part) then Route(s, part)
    else if s.pending.None? then s.(pending := Some(part))
    else match Merge(s.pending.value, part)
      case Some(merged) => s.(pending := Some(merged))
      case None => Flush(s, s.pending.value).(pending := Some(part))
  }

  function FeedAll(s: State, stream: seq<Part>): State
    decreases |stream|
  {
    if stream == [] then s else FeedAll(Feed(s, stream[0]), stream[1..])
  }

  function Finish(s: State): Message {
    var t := if s.pending.Some? then Flush(s, s.pending.value) else s;
    Message(t.content, t.toolCalls)
  }

  function Assemble(stream: seq<Part>): Message {
    Finish(FeedAll(EMPTY, stream))
  }

  // ---------- One simple buffer per call ----------

  /**
   * The reference: every header opens a buffer; a delta goes to the latest header of its index, and failing
   * that to the call that nothing but its own deltas has followed, if there is one.
   */
  datatype Buffers = Buffers(calls: seq<StoredCall>, latest: map<Index, nat>, current: Option<nat>)

  const NO_CALLS := Buffers([], map[], None)

  ghost predicate WellFormed(b: Buffers) {
    && (forall x :: x in b.latest ==> b.latest[x] < |b.calls|)
    && (forall x, y :: x in b.latest && y in b.latest && x != y ==> b.latest[x] != b.latest[y])
    && (b.current.Some? ==> b.current.value < |b.calls|)
  }

  predicate Announced(b: Buffers, part: Part) {
    part.ToolCallPart? && part.index.Some? && part.index.value in b.latest
  }

  function AppendTo(b: Buffers, i: nat, delta: Option<string>): Buffers {
    if i < |b.calls| then
      b.(calls := b.calls[i := b.calls[i].(arguments := Append(b.calls[i].arguments, delta))])
    else b
  }

  function Buffer(b: Buffers, part: Part): Buffers {
    match part
    case ContentPart(_) => b.(current := None)
    case ToolCall(h) =>
      Buffers(b.calls + [Stored(h)],
              if h.streamIndex.Some? then b.latest[h.streamIndex.value := |b.calls|] else b.latest,
              Some(|b.calls|))
    case ToolCallPart(delta, index) =>
      if Announced(b, part) then AppendTo(b, b.latest[index.value], delta)
      else if b.current.Some? then AppendTo(b, b.current.value, delta)
      else b
  }

  function BufferAll(b: Buffers, stream: seq<Part>): Buffers
    decreases |stream|
  {
    if stream == [] then b else BufferAll(Buffer(b, stream[0]), stream[1..])
  }

  // ---------- The assembler refines the buffers ----------

  /** The stored calls and the pending one are the buffers; the index map is behind by the pending one. */
  ghost predicate Refines(s: State, b: Buffers) {
    && WellFormed(b)
    && b.calls == Finish(s).toolCalls
    && (if s.pending.Some? && s.pending.value.ToolCall?
        then b.current == Some(|s.toolCalls|)
             && b.latest == (var x := s.pending.value.header.streamIndex;
                             if x.Some? then s.indexMap[x.value := |s.toolCalls|] else s.indexMap)
        else b.current == None && b.latest == s.indexMap)
    && (forall x :: x in s.indexMap ==> s.indexMap[x] < |s.toolCalls|)
  }

  lemma RouteRefines(s: State, b: Buffers, part: Part)
    requires Refines(s, b) && Routed(s, part)
    ensures Refines(Route(s, part), Buffer(b, part))
  {
    var i := s.indexMap[part.index.value];
    assert b.latest[part.index.value] == i && b.calls[i] == s.toolCalls[i];
  }

  /** A delta that is not routed goes to the pending call, or nowhere. */
  lemma DeltaRefines(s: State, b: Buffers, part: Part)
    requires Refines(s, b) && part.ToolCallPart? && !Routed(s, part)
    ensures Refines(Feed(s, part), Buffer(b, part))
  {
    if s.pending.Some? && s.pending.value.ToolCall? {
      var i := |s.toolCalls|;
      assert Announced(b, part) ==> b.latest[part.index.value] == i;
      assert Buffer(b, part) == AppendTo(b, i, part.argumentsPart);
    }
  }

  /** A header stores the pending part and opens a buffer. */
  lemma HeaderRefines(s: State, b: Buffers, h: Header)
    requires Refines(s, b)
    ensures Refines(Feed(s, ToolCall(h)), Buffer(b, ToolCall(h)))
  {
    var s', b' := Feed(s, ToolCall(h)), Buffer(b, ToolCall(h));
    assert s'.toolCalls == b.calls && s'.indexMap == b.latest;
    assert Finish(s').toolCalls == s'.toolCalls + [Stored(h)];
  }

  lemma ContentRefines(s: State, b: Buffers, c: Content)
    requires Refines(s, b)
    ensures Refines(Feed(s, ContentPart(c)), Buffer(b, ContentPart(c)))
  {
    var s' := Feed(s, ContentPart(c));
    assert s'.toolCalls == b.calls && s'.indexMap == b.latest;
  }

  /** Every part keeps the refinement. */
  lemma FeedRefines(s: State, b: Buffers, part: Part)
    requires Refines(s, b)
    ensures Refines(Feed(s, part), Buffer(b, part))
  {
    if Routed(s, part) {
      RouteRefines(s, b, part);
    } else if part.ToolCallPart? {
      DeltaRefines(s, b, part);
    } else if part.ToolCall? {
      HeaderRefines(s, b, part.header);
    } else {
      ContentRefines(s, b, part.content);
    }
  }

  lemma {:induction false} FeedAllRefines(s: State, b: Buffers, stream: seq<Part>)
    requires Refines(s, b)
    ensures Refines(FeedAll(s, stream), BufferAll(b, stream))
    decreases |stream|
  {
    if stream != [] {
      FeedRefines(s, b, stream[0]);
      FeedAllRefines(Feed(s, stream[0]), Buffer(b, stream[0]), stream[1..]);
    }
  }

  /** For every stream, the final tool calls are the buffers, in header order. */
  lemma ToolCallsAreBuffers(stream: seq<Part>)
    ensures Assemble(stream).toolCalls == BufferAll(NO_CALLS, stream).calls
  {
    FeedAllRefines(EMPTY, NO_CALLS, stream);
  }

  // ---------- What the buffers hold ----------

  /** The deltas of one index, in order. */
  function DeltasOf(stream: seq<Part>, x: Index): seq<Option<string>> {
    if stream == [] then []
    else (if stream[0].ToolCallPart? && stream[0].index == Some(x) then [stream[0].argumentsPart] else [])
         + DeltasOf(stream[1..], x)
  }

  function AppendEach(arguments: Option<string>, deltas: seq<Option<string>>): Option<string>
    decreases |deltas|
  {
    if deltas == [] then arguments else AppendEach(Append(arguments, deltas[0]), deltas[1..])
  }

  predicate IsHeaderOf(part: Part, x: Index) {
    part.ToolCall? && part.header.streamIndex == Some(x)
  }

  /** The indices that the headers of a stream announce. */
  function Indices(stream: seq<Part>): set<Index> {
    if stream == [] then {} else Indices(stream[..|stream| - 1]) + IndexOf(stream[|stream| - 1])
  }

  function IndexOf(part: Part): set<Index> {
    if part.ToolCall? && part.header.streamIndex.Some? then {part.header.streamIndex.value} else {}
  }

  /**
   * The deltas of a stream that belong to one call: those of its index `mine` until another header takes that
   * index over; and, as long as the call is `open`, which means that only deltas have followed its header, those
   * whose index nobody has announced.
   */
  function Taken(stream: seq<Part>, mine: Option<Index>, open: bool, known: set<Index>): seq<Option<string>>
    decreases |stream|
  {
    if stream == [] then []
    else match stream[0]
      case ContentPart(_) => Taken(stream[1..], mine, false, known)
      case ToolCall(h) =>
        Taken(stream[1..], if h.streamIndex == mine then None else mine, false, known + IndexOf(stream[0]))
      case ToolCallPart(delta, index) =>
        var takes := if index.Some? && index.value in known then index == mine else open;
        (if takes then [delta] else []) + Taken(stream[1..], mine, open, known)
  }

  lemma BufferWellFormed(b: Buffers, part: Part)
    requires WellFormed(b)
    ensures WellFormed(Buffer(b, part))
  {
  }

  /** The index under which a call is reached, if any. */
  ghost predicate ReachedBy(b: Buffers, i: nat, mine: Option<Index>) {
    forall x :: x in b.latest && b.latest[x] == i <==> mine == Some(x)
  }

  lemma BufferKeepsReached(b: Buffers, i: nat, mine: Option<Index>, h: Header)
    requires WellFormed(b) && i < |b.calls| && ReachedBy(b, i, mine)
    ensures ReachedBy(Buffer(b, ToolCall(h)), i, if h.streamIndex == mine then None else mine)
    ensures Buffer(b, ToolCall(h)).latest.Keys == b.latest.Keys + IndexOf(ToolCall(h))
  {
  }

  lemma DeltaGoesTo(b: Buffers, i: nat, mine: Option<Index>, delta: Option<string>, index: Option<Index>)
    requires WellFormed(b) && i < |b.calls| && ReachedBy(b, i, mine)
    ensures var b' := Buffer(b, ToolCallPart(delta, index));
            var takes := if index.Some? && index.value in b.latest then index == mine else b.current == Some(i);
            && b'.latest == b.latest && b'.current == b.current && |b'.calls| == |b.calls|
            && b'.calls[i] == if takes then b.calls[i].(arguments := Append(b.calls[i].arguments, delta))
                              else b.calls[i]
  {
  }

  lemma {:induction false} CallCollectsDeltas(b: Buffers, i: nat, mine: Option<Index>, stream: seq<Part>)
    requires WellFormed(b) && i < |b.calls| && ReachedBy(b, i, mine)
    ensures var after := BufferAll(b, stream);
            var taken := Taken(stream, mine, b.current == Some(i), b.latest.Keys);
            i < |after.calls|
            && after.calls[i] == b.calls[i].(arguments := AppendEach(b.calls[i].arguments, taken))
    decreases |stream|
  {
    if stream != [] {
      var b' := Buffer(b, stream[0]);
      BufferWellFormed(b, stream[0]);
      match stream[0]
      case ContentPart(_) => CallCollectsDeltas(b', i, mine, stream[1..]);
      case ToolCall(h) =>
        BufferKeepsReached(b, i, mine, h);
        CallCollectsDeltas(b', i, if h.streamIndex == mine then None else mine, stream[1..]);
      case ToolCallPart(delta, index) =>
        DeltaGoesTo(b, i, mine, delta, index);
        CallCollectsDeltas(b', i, mine, stream[1..]);
        var rest := Taken(stream[1..], mine, b.current == Some(i), b.latest.Keys);
        assert ([delta] + rest)[1..] == rest && [] + rest == rest;
    }
  }

  lemma {:induction false} AnnouncedIndices(stream: seq<Part>)
    ensures BufferAll(NO_CALLS, stream).latest.Keys == Indices(stream)
  {
    if stream != [] {
      var front, last := stream[..|stream| - 1], stream[|stream| - 1];
      var one := [last];
      assert stream == front + one && one[1..] == [];
      AnnouncedIndices(front);
      BufferAllAppend(NO_CALLS, front, one);
      assert BufferAll(NO_CALLS, stream) == Buffer(BufferAll(NO_CALLS, front), last);
    }
  }

  lemma {:induction false} BufferAllAppend(b: Buffers, before: seq<Part>, after: seq<Part>)
    ensures BufferAll(b, before + after) == BufferAll(BufferAll(b, before), after)
    decreases |before|
  {
    if before == [] {
      assert before + after == after;
    } else {
      assert (before + after)[1..] == before[1..] + after;
      BufferAllAppend(Buffer(b, before[0]), before[1..], after);
    }
  }

  lemma {:induction false} BufferAllWellFormed(b: Buffers, stream: seq<Part>)
    requires WellFormed(b)
    ensures WellFormed(BufferAll(b, stream))
    decreases |stream|
  {
    if stream != [] {
      BufferWellFormed(b, stream[0]);
      BufferAllWellFormed(Buffer(b, stream[0]), stream[1..]);
    }
  }

  function DeltaText(d: Option<string>): string {
    if d.Some? then d.value else ""
  }

  /** Null if nothing was ever there, and otherwise all the text, in order. */
  function WholeText(arguments: Option<string>, deltas: seq<Option<string>>): Option<string> {
    if arguments.None? && forall d :: d in deltas ==> d.None? then None
    else Some(DeltaText(arguments) + FlatMap(DeltaText, deltas))
  }

  /** Appending deltas one by one concatenates their texts. */
  lemma {:induction false} AppendEachIsWholeText(arguments: Option<string>, deltas: seq<Option<string>>)
    ensures AppendEach(arguments, deltas) == WholeText(arguments, deltas)
    decreases |deltas|
  {
    if deltas == [] {
      assert DeltaText(arguments) + [] == DeltaText(arguments);
    } else {
      var more := Append(arguments, deltas[0]);
      AppendEachIsWholeText(more, deltas[1..]);
      assert forall d :: d in deltas <==> d == deltas[0] || d in deltas[1..];
      var x, y, z := DeltaText(arguments), DeltaText(deltas[0]), FlatMap(DeltaText, deltas[1..]);
      assert DeltaText(more) == x + y;
      assert (x + y) + z == x + (y + z);
    }
  }

  function HeaderCount(stream: seq<Part>): nat {
    if stream == [] then 0
    else HeaderCount(stream[..|stream| - 1]) + if stream[|stream| - 1].ToolCall? then 1 else 0
  }

  lemma {:induction false} BufferPerHeader(stream: seq<Part>)
    ensures |BufferAll(NO_CALLS, stream).calls| == HeaderCount(stream)
  {
    if stream != [] {
      var front, last := stream[..|stream| - 1], stream[|stream| - 1];
      var one := [last];
      assert stream == front + one && one[1..] == [];
      BufferPerHeader(front);
      BufferAllAppend(NO_CALLS, front, one);
      assert BufferAll(NO_CALLS, stream) == Buffer(BufferAll(NO_CALLS, front), last);
    }
  }

  /** There are as many tool calls as headers. */
  lemma CallsAreCounted(stream: seq<Part>)
    ensures |Assemble(stream).toolCalls| == HeaderCount(stream)
  {
    ToolCallsAreBuffers(stream);
    BufferPerHeader(stream);
  }

  /**
   * Closed form, for every header of every stream: its call is at the header's position, with the header's id, name
   * and extras, and ends up with the header's own arguments followed by the text of the deltas that belong to it, in
   * order, whatever else the stream holds.
   */
  lemma EachCallGetsItsDeltas(before: seq<Part>, h: Header, after: seq<Part>)
    ensures var calls := Assemble(before + [ToolCall(h)] + after).toolCalls;
            var taken := Taken(after, h.streamIndex, true, Indices(before + [ToolCall(h)]));
            HeaderCount(before) < |calls|
            && calls[HeaderCount(before)] == StoredCall(h.id, h.name, WholeText(h.arguments, taken), h.extras)
  {
    var start := before + [ToolCall(h)];
    var b := BufferAll(NO_CALLS, before);
    ToolCallsAreBuffers(start + after);
    BufferAllAppend(NO_CALLS, start, after);
    BufferAllAppend(NO_CALLS, before, [ToolCall(h)]);
    assert [ToolCall(h)][1..] == [];
    assert BufferAll(NO_CALLS, start) == Buffer(b, ToolCall(h));
    BufferPerHeader(before);
    BufferAllWellFormed(NO_CALLS, before);
    BufferAllWellFormed(NO_CALLS, start);
    AnnouncedIndices(start);
    CallCollectsDeltas(BufferAll(NO_CALLS, start), |b.calls|, h.streamIndex, after);
    AppendEachIsWholeText(h.arguments, Taken(after, h.streamIndex, true, Indices(start)));
  }

  /** Every delta of the stream has an index that some header before it announced. */
  predicate AllAnnounced(known: set<Index>, stream: seq<Part>)
    decreases |stream|
  {
    stream == []
    || ((stream[0].ToolCallPart? ==> stream[0].index.Some? && stream[0].index.value in known)
        && AllAnnounced(known + IndexOf(stream[0]), stream[1..]))
  }

  lemma {:induction false} AnnouncedDeltasAreTaken(stream: seq<Part>, x: Index, open: bool, known: set<Index>)
    requires AllAnnounced(known, stream) && forall part :: part in stream ==> !IsHeaderOf(part, x)
    ensures Taken(stream, Some(x), open, known) == DeltasOf(stream, x)
    decreases |stream|
  {
    if stream != [] {
      assert stream[0] in stream;
      AnnouncedDeltasAreTaken(stream[1..], x, if stream[0].ToolCallPart? then open else false,
                              known + IndexOf(stream[0]));
      assert known + {} == known;
    }
  }

  /** Where every delta is announced, a call takes exactly the deltas of its own index. */
  lemma IndexedCallGetsItsDeltas(before: seq<Part>, h: Header, x: Index, after: seq<Part>)
    requires h.streamIndex == Some(x)
    requires forall part :: part in after ==> !IsHeaderOf(part, x)
    requires AllAnnounced(Indices(before + [ToolCall(h)]), after)
    ensures var calls := Assemble(before + [ToolCall(h)] + after).toolCalls;
            HeaderCount(before) < |calls|
            && calls[HeaderCount(before)]
               == StoredCall(h.id, h.name, WholeText(h.arguments, DeltasOf(after, x)), h.extras)
  {
    EachCallGetsItsDeltas(before, h, after);
    AnnouncedDeltasAreTaken(after, x, true, Indices(before + [ToolCall(h)]));
  }

  /** Feeding two announced deltas of different indices gives the same state in either order. */
  lemma FeedCommutes(s: State, b: Buffers, d1: Part, d2: Part)
    requires Refines(s, b) && Announced(b, d1) && Announced(b, d2) && d1.index != d2.index
    ensures Feed(Feed(s, d1), d2) == Feed(Feed(s, d2), d1)
  {
    var i, j := b.latest[d1.index.value], b.latest[d2.index.value];
    assert i != j;
    if Routed(s, d1) && Routed(s, d2) {
      assert Feed(Feed(s, d1), d2).toolCalls == Feed(Feed(s, d2), d1).toolCalls;
    }
  }

  lemma {:induction false} FeedAllAppend(s: State, before: seq<Part>, after: seq<Part>)
    ensures FeedAll(s, before + after) == FeedAll(FeedAll(s, before), after)
    decreases |before|
  {
    if before == [] {
      assert before + after == after;
    } else {
      assert (before + after)[1..] == before[1..] + after;
      FeedAllAppend(Feed(s, before[0]), before[1..], after);
    }
  }

  /** Exchanging neighbouring deltas of different announced indices never changes the message. */
  lemma ReorderingDeltasChangesNothing(before: seq<Part>, d1: Part, d2: Part, after: seq<Part>)
    requires var b := BufferAll(NO_CALLS, before);
             Announced(b, d1) && Announced(b, d2) && d1.index != d2.index
    ensures Assemble(before + [d1, d2] + after) == Assemble(before + [d2, d1] + after)
  {
    var s := FeedAll(EMPTY, before);
    FeedAllRefines(EMPTY, NO_CALLS, before);
    FeedCommutes(s, BufferAll(NO_CALLS, before), d1, d2);
    FeedAllAppend(EMPTY, before + [d1, d2], after);
    FeedAllAppend(EMPTY, before + [d2, d1], after);
    FeedAllAppend(EMPTY, before, [d1, d2]);
    FeedAllAppend(EMPTY, before, [d2, d1]);
    FeedTwo(s, d1, d2);
    FeedTwo(s, d2, d1);
  }

  lemma FeedTwo(s: State, d1: Part, d2: Part)
    ensures FeedAll(s, [d1, d2]) == Feed(Feed(s, d1), d2)
  {
    assert [d1, d2][1..] == [d2] && [d2][1..] == [];
    assert FeedAll(Feed(s, d1), [d2]) == FeedAll(Feed(Feed(s, d1), d2), []);
  }

  // ---------- Nothing streamed is lost ----------

  /** The smallest pieces of content: what merging must keep, in order. */
  datatype Atom = TextChar(c: char) | ThinkChar(c: char) | Signature(s: string) | MediaItem(item: Content)

  function TextAtom(c: char): seq<Atom> { [TextChar(c)] }

  function ThinkAtom(c: char): seq<Atom> { [ThinkChar(c)] }

  function AtomsOf(c: Content): seq<Atom> {
    match c
    case Text(t) => FlatMap(TextAtom, t)
    case Think(t, signature) =>
      FlatMap(ThinkAtom, t) + if signature.Some? then [Signature(signature.value)] else []
    case Media(_, _, _) => [MediaItem(c)]
  }

  function ContentOf(part: Part): seq<Content> {
    if part.ContentPart? then [part.content] else []
  }

  /** The atoms of a list of content parts, and of a stream. */
  function Atoms(content: seq<Content>): seq<Atom> {
    FlatMap(AtomsOf, content)
  }

  function Contents(stream: seq<Part>): seq<Content> {
    FlatMap(ContentOf, stream)
  }

  /** The content so far: what is stored, then the pending part if it is content. */
  function SoFar(s: State): seq<Content> {
    s.content + if s.pending.Some? then ContentOf(s.pending.value) else []
  }

  /** Merging keeps every atom in place; a signature therefore stays the end of its block. */
  lemma MergeKeepsAtoms(a: Content, b: Content)
    requires Merge(ContentPart(a), ContentPart(b)).Some?
    ensures Merge(ContentPart(a), ContentPart(b)).value.ContentPart?
    ensures AtomsOf(Merge(ContentPart(a), ContentPart(b)).value.content) == AtomsOf(a) + AtomsOf(b)
  {
    match (a, b)
    case (Text(x), Text(y)) => FlatMapAppend(TextAtom, x, y);
    case (Think(x, _), Think(y, _)) => FlatMapAppend(ThinkAtom, x, y);
    case _ =>
  }

  predicate MergesContent(s: State, part: Part) {
    part.ContentPart? && s.pending.Some? && s.pending.value.ContentPart? && Merge(s.pending.value, part).Some?
  }

  /** Unless content is merged, a part's content is added at the end. */
  lemma FeedAddsContent(s: State, part: Part)
    requires !MergesContent(s, part)
    ensures SoFar(Feed(s, part)) == SoFar(s) + ContentOf(part)
  {
  }

  lemma FeedMergesContent(s: State, part: Part)
    requires MergesContent(s, part)
    ensures var merged := Merge(s.pending.value, part).value;
            merged.ContentPart? && SoFar(s) == s.content + [s.pending.value.content]
            && SoFar(Feed(s, part)) == s.content + [merged.content]
  {
  }

  lemma FeedKeepsAtoms(s: State, part: Part)
    ensures Atoms(SoFar(Feed(s, part))) == Atoms(SoFar(s)) + Atoms(ContentOf(part))
  {
    if MergesContent(s, part) {
      var a, b := s.pending.value.content, part.content;
      var merged := Merge(s.pending.value, part).value.content;
      FeedMergesContent(s, part);
      MergeKeepsAtoms(a, b);
      FlatMapAppend(AtomsOf, s.content, [a]);
      FlatMapAppend(AtomsOf, s.content, [merged]);
      FlatMapOne(AtomsOf, a);
      FlatMapOne(AtomsOf, b);
      FlatMapOne(AtomsOf, merged);
    } else {
      FeedAddsContent(s, part);
      FlatMapAppend(AtomsOf, SoFar(s), ContentOf(part));
    }
  }

  lemma AtomsInOrder(x: seq<Atom>, y: seq<Atom>, z: seq<Atom>)
    ensures x + (y + z) == (x + y) + z && x + [] == x
  {
  }

  lemma ContentsFirst(stream: seq<Part>)
    requires stream != []
    ensures Atoms(Contents(stream)) == Atoms(ContentOf(stream[0])) + Atoms(Contents(stream[1..]))
  {
    FlatMapAppend(AtomsOf, ContentOf(stream[0]), Contents(stream[1..]));
  }

  lemma {:induction false} FeedAllKeepsAtoms(s: State, stream: seq<Part>)
    ensures Atoms(SoFar(FeedAll(s, stream))) == Atoms(SoFar(s)) + Atoms(Contents(stream))
    decreases |stream|
  {
    if stream == [] {
      AtomsInOrder(Atoms(SoFar(s)), [], []);
    } else {
      var first, rest := stream[0], stream[1..];
      FeedKeepsAtoms(s, first);
      FeedAllKeepsAtoms(Feed(s, first), rest);
      ContentsFirst(stream);
      AtomsInOrder(Atoms(SoFar(s)), Atoms(ContentOf(first)), Atoms(Contents(rest)));
    }
  }

  /**
   * For every stream: the assembled content is the streamed content, atom by atom and in order. No text, no
   * thinking, no signature and no medium is lost, doubled or moved, and nothing is added to a signed block.
   */
  lemma ContentIsConserved(stream: seq<Part>)
    ensures Atoms(Assemble(stream).content) == Atoms(Contents(stream))
  {
    FeedAllKeepsAtoms(EMPTY, stream);
    assert Assemble(stream).content == SoFar(FeedAll(EMPTY, stream));
  }

  // ---------- How the content is cut into parts ----------

  /** Content that continues the part before it: text after text, and thinking after thinking not yet signed. */
  predicate Continues(last: Content, c: Content) {
    (last.Text? && c.Text?) || (last.Think? && c.Think? && last.encrypted.None?)
  }

  function Joined(last: Content, c: Content): Content {
    if last.Text? && c.Text? then Text(last.text + c.text)
    else if last.Think? && c.Think? then Think(last.think + c.think, c.encrypted)
    else last
  }

  /**
   * The reference for the content: a part continues the one before it when it can, unless a header or a delta that
   * nobody announced has come between them.
   */
  function Blocks(stream: seq<Part>, blocks: seq<Content>, open: bool, known: set<Index>): seq<Content>
    decreases |stream|
  {
    if stream == [] then blocks
    else match stream[0]
      case ContentPart(c) =>
        var n := |blocks|;
        if open && n > 0 && Continues(blocks[n - 1], c) then
          Blocks(stream[1..], blocks[..n - 1] + [Joined(blocks[n - 1], c)], true, known)
        else Blocks(stream[1..], blocks + [c], true, known)
      case ToolCall(_) => Blocks(stream[1..], blocks, false, known + IndexOf(stream[0]))
      case ToolCallPart(_, index) =>
        Blocks(stream[1..], blocks, open && index.Some? && index.value in known, known)
  }

  predicate HoldsContent(s: State) {
    s.pending.Some? && s.pending.value.ContentPart?
  }

  lemma ContentFeeds(s: State, c: Content)
    ensures var s', blocks := Feed(s, ContentPart(c)), SoFar(s);
            var n := |blocks|;
            && HoldsContent(s')
            && (HoldsContent(s) ==> n > 0 && blocks[n - 1] == s.pending.value.content)
            && SoFar(s') == if HoldsContent(s) && Continues(blocks[n - 1], c)
                            then blocks[..n - 1] + [Joined(blocks[n - 1], c)] else blocks + [c]
  {
  }

  lemma OthersFeed(s: State, b: Buffers, part: Part)
    requires Refines(s, b) && !part.ContentPart?
    ensures var s' := Feed(s, part);
            && SoFar(s') == SoFar(s)
            && HoldsContent(s') == (HoldsContent(s) && Announced(b, part))
            && Buffer(b, part).latest.Keys == b.latest.Keys + IndexOf(part)
  {
  }

  lemma {:induction false} FeedAllBlocks(s: State, b: Buffers, stream: seq<Part>)
    requires Refines(s, b)
    ensures SoFar(FeedAll(s, stream)) == Blocks(stream, SoFar(s), HoldsContent(s), b.latest.Keys)
    decreases |stream|
  {
    if stream != [] {
      FeedRefines(s, b, stream[0]);
      FeedAllBlocks(Feed(s, stream[0]), Buffer(b, stream[0]), stream[1..]);
      if stream[0].ContentPart? {
        ContentFeeds(s, stream[0].content);
        assert Buffer(b, stream[0]).latest == b.latest;
      } else {
        OthersFeed(s, b, stream[0]);
        assert stream[0].ToolCallPart? ==> b.latest.Keys + {} == b.latest.Keys;
      }
    }
  }

  /** For every stream the assembled content consists of exactly the reference's parts. */
  lemma ContentIsBlocks(stream: seq<Part>)
    ensures Assemble(stream).content == Blocks(stream, [], false, {})
  {
    FeedAllBlocks(EMPTY, NO_CALLS, stream);
    assert NO_CALLS.latest.Keys == {} && SoFar(EMPTY) == [] && !HoldsContent(EMPTY);
    assert Assemble(stream).content == SoFar(FeedAll(EMPTY, stream));
  }

  function TextOf(c: Content): string {
    if c.Text? then c.text else ""
  }

  function CharOf(a: Atom): string {
    if a.TextChar? then [a.c] else ""
  }

  lemma {:induction false} CharsOfText(t: string)
    ensures FlatMap(CharOf, FlatMap(TextAtom, t)) == t && FlatMap(CharOf, FlatMap(ThinkAtom, t)) == ""
  {
    if t != [] {
      CharsOfText(t[1..]);
    }
  }

  lemma CharsOfContent(c: Content)
    ensures FlatMap(CharOf, AtomsOf(c)) == TextOf(c)
  {
    match c
    case Text(t) => CharsOfText(t);
    case Think(t, signature) =>
      CharsOfText(t);
      FlatMapAppend(CharOf, FlatMap(ThinkAtom, t), if signature.Some? then [Signature(signature.value)] else []);
    case Media(_, _, _) =>
  }

  /** `extractText` with the empty separator: the text of the message is all streamed text, in order. */
  lemma TextIsConserved(stream: seq<Part>)
    ensures FlatMap(TextOf, Assemble(stream).content) == FlatMap(TextOf, Contents(stream))
  {
    ContentIsConserved(stream);
    forall c ensures FlatMap(CharOf, AtomsOf(c)) == TextOf(c) { CharsOfContent(c); }
    FlatMapTwice(AtomsOf, CharOf, TextOf, Assemble(stream).content);
    FlatMapTwice(AtomsOf, CharOf, TextOf, Contents(stream));
  }

  // ---------- The whole call ----------

  datatype EmptyResponse = NothingReceived | OnlyThinking

  ghost predicate SomeThink(content: seq<Content>) {
    exists c :: c in content && c.Think?
  }

  /** Some character is not white space: `trim` would leave something. */
  ghost predicate NonBlank(blank: char -> bool, text: string) {
    exists c :: c in text && !blank(c)
  }

  ghost predicate HasHeader(stream: seq<Part>) {
    exists part :: part in stream && part.ToolCall?
  }

  lemma FeedKeepsKinds(s: State, part: Part)
    ensures SoFar(Feed(s, part)) == [] <==> SoFar(s) == [] && ContentOf(part) == []
    ensures SomeThink(SoFar(Feed(s, part))) <==> SomeThink(SoFar(s)) || SomeThink(ContentOf(part))
  {
    if MergesContent(s, part) {
      var a, merged := s.pending.value.content, Merge(s.pending.value, part).value.content;
      FeedMergesContent(s, part);
      assert a in SoFar(s) && merged in SoFar(Feed(s, part)) && part.content in ContentOf(part);
      assert forall c :: c in s.content ==> c in SoFar(s) && c in SoFar(Feed(s, part));
    } else {
      FeedAddsContent(s, part);
    }
  }

  lemma {:induction false} FeedAllKeepsKinds(s: State, stream: seq<Part>)
    ensures SoFar(FeedAll(s, stream)) == [] <==> SoFar(s) == [] && Contents(stream) == []
    ensures SomeThink(SoFar(FeedAll(s, stream))) <==> SomeThink(SoFar(s)) || SomeThink(Contents(stream))
    decreases |stream|
  {
    if stream != [] {
      FeedKeepsKinds(s, stream[0]);
      FeedAllKeepsKinds(Feed(s, stream[0]), stream[1..]);
      assert Contents(stream) == ContentOf(stream[0]) + Contents(stream[1..]);
    }
  }

  lemma {:induction false} BuffersPerHeader(b: Buffers, stream: seq<Part>)
    ensures |BufferAll(b, stream).calls| >= |b.calls|
    ensures |BufferAll(b, stream).calls| > |b.calls| <==> HasHeader(stream)
    decreases |stream|
  {
    if stream != [] {
      BuffersPerHeader(Buffer(b, stream[0]), stream[1..]);
      assert stream[0] in stream;
      assert forall part :: part in stream <==> part == stream[0] || part in stream[1..];
    }
  }

  lemma {:induction false} NonBlankText(blank: char -> bool, content: seq<Content>)
    ensures NonBlank(blank, FlatMap(TextOf, content))
       <==> exists c :: c in content && c.Text? && NonBlank(blank, c.text)
  {
    if content != [] {
      NonBlankText(blank, content[1..]);
      var first, rest := TextOf(content[0]), FlatMap(TextOf, content[1..]);
      assert forall c :: c in FlatMap(TextOf, content) <==> c in first || c in rest;
      assert forall c :: c in content <==> c == content[0] || c in content[1..];
      assert NonBlank(blank, FlatMap(TextOf, content)) <==> NonBlank(blank, first) || NonBlank(blank, rest);
    }
  }

  method HasNonBlank(blank: char -> bool, text: string) returns (r: bool)
    ensures r == NonBlank(blank, text)
  {
    var i := 0;
    while i < |text|
      invariant 0 <= i <= |text| && forall c :: c in text[..i] ==> blank(c)
    {
      if !blank(text[i]) {
        return true;
      }
      i := i + 1;
    }
    assert text[..i] == text;
    return false;
  }

  method Kinds(blank: char -> bool, content: seq<Content>) returns (hasThink: bool, hasText: bool)
    ensures hasThink == SomeThink(content)
    ensures hasText == NonBlank(blank, FlatMap(TextOf, content))
  {
    NonBlankText(blank, content);
    hasThink, hasText := false, false;
    var i := 0;
    while i < |content|
      invariant 0 <= i <= |content| && hasThink == SomeThink(content[..i])
      invariant hasText == exists c :: c in content[..i] && c.Text? && NonBlank(blank, c.text)
    {
      assert content[..i + 1] == content[..i] + [content[i]];
      if content[i].Think? { hasThink := true; }
      if content[i].Text? {
        var nonBlank := HasNonBlank(blank, content[i].text);
        if nonBlank { hasText := true; }
      }
      i := i + 1;
    }
    assert content[..i] == content;
  }

  /**
   * The streaming loop of `generate` and its two checks, on the parts a provider streams. The errors are told
   * from the stream alone: nothing but deltas was streamed; or there was thinking, no header and no text but
   * white space.
   */
  method Run(blank: char -> bool, stream: seq<Part>) returns (r: Result<Message, EmptyResponse>)
    ensures r.Ok? ==> r.value == Assemble(stream)
    ensures r == Err(NothingReceived) <==> forall part :: part in stream ==> part.ToolCallPart?
    ensures r == Err(OnlyThinking) <==> && !HasHeader(stream) && SomeThink(Contents(stream))
                                        && !NonBlank(blank, FlatMap(TextOf, Contents(stream)))
  {
    var content: seq<Content> := [];
    var toolCalls: seq<StoredCall> := [];
    var pendingPart: Option<Part> := None;
    var toolCallIndexMap: map<Index, nat> := map[];
    var todo := stream;
    while todo != []
      invariant FeedAll(State(content, toolCalls, pendingPart, toolCallIndexMap), todo) == FeedAll(EMPTY, stream)
      decreases |todo|
    {
      var part := todo[0];
      todo := todo[1..];
      if part.ToolCallPart? && part.index.Some? && !IsPendingAt(pendingPart, part.index.value) {
        if part.index.value in toolCallIndexMap {
          var i := toolCallIndexMap[part.index.value];
          if i < |toolCalls| {
            var target := toolCalls[i];
            toolCalls := toolCalls[i := target.(arguments := Append(target.arguments, part.argumentsPart))];
          }
          continue;
        }
      }
      if pendingPart.None? {
        pendingPart := Some(part);
      } else {
        var merged := Merge(pendingPart.value, part);
        if merged.Some? {
          pendingPart := merged;
        } else {
          ghost var before := State(content, toolCalls, None, toolCallIndexMap);
          content, toolCalls, toolCallIndexMap := FlushPart(content, toolCalls, toolCallIndexMap, pendingPart.value);
          assert State(content, toolCalls, None, toolCallIndexMap) == Flush(before, pendingPart.value);
          pendingPart := Some(part);
        }
      }
    }
    if pendingPart.Some? {
      ghost var before := State(content, toolCalls, None, toolCallIndexMap);
      content, toolCalls, toolCallIndexMap := FlushPart(content, toolCalls, toolCallIndexMap, pendingPart.value);
      assert State(content, toolCalls, None, toolCallIndexMap) == Flush(before, pendingPart.value);
    }
    assert Message(content, toolCalls) == Assemble(stream);
    StreamDecides(stream);
    if |content| == 0 && |toolCalls| == 0 {
      return Err(NothingReceived);
    }
    TextIsConserved(stream);
    var hasThink, hasText := Kinds(blank, content);
    if hasThink && !hasText && |toolCalls| == 0 {
      return Err(OnlyThinking);
    }
    return Ok(Message(content, toolCalls));
  }

  function CallsOf(part: Part): seq<StoredCall> {
    if part.ToolCall? then [Stored(part.header)] else []
  }

  /** `flushPart`: what is stored stays in front; a call is reached by its index from now on. */
  method FlushPart(content: seq<Content>, toolCalls: seq<StoredCall>, indexMap: map<Index, nat>, part: Part)
    returns (content': seq<Content>, toolCalls': seq<StoredCall>, indexMap': map<Index, nat>)
    ensures content' == content + ContentOf(part) && toolCalls' == toolCalls + CallsOf(part)
    ensures forall x :: x in indexMap' <==> x in indexMap || IsHeaderOf(part, x)
    ensures forall x :: x in indexMap' ==> indexMap'[x] == if IsHeaderOf(part, x) then |toolCalls| else indexMap[x]
  {
    content', toolCalls', indexMap' := content, toolCalls, indexMap;
    match part
    case ContentPart(c) => content' := content + [c];
    case ToolCall(h) =>
      toolCalls' := toolCalls + [Stored(h)];
      if h.streamIndex.Some? {
        indexMap' := indexMap[h.streamIndex.value := |toolCalls|];
      }
    case ToolCallPart(_, _) =>
  }

  function FlushAll(s: State, parts: seq<Part>): State
    decreases |parts|
  {
    if parts == [] then s else FlushAll(Flush(s, parts[0]), parts[1..])
  }

  lemma {:induction false} FlushedCallStays(s: State, i: nat, x: Index, later: seq<Part>)
    requires i < |s.toolCalls| && x in s.indexMap && s.indexMap[x] == i
    requires forall part :: part in later ==> !IsHeaderOf(part, x)
    ensures var t := FlushAll(s, later);
            i < |t.toolCalls| && t.toolCalls[i] == s.toolCalls[i] && x in t.indexMap && t.indexMap[x] == i
    decreases |later|
  {
    if later != [] {
      assert later[0] in later;
      FlushedCallStays(Flush(s, later[0]), i, x, later[1..]);
    }
  }

  /**
   * A flushed call is found again: whatever is flushed after it and whatever is pending, as long as its index has
   * not been announced again, a delta of that index is appended to this call and changes nothing else.
   */
  lemma FlushedCallTakesItsDelta(s: State, h: Header, x: Index, later: seq<Part>, pending: Option<Part>,
                                 delta: Option<string>)
    requires h.streamIndex == Some(x) && !IsPendingAt(pending, x)
    requires forall part :: part in later ==> !IsHeaderOf(part, x)
    ensures var t := FlushAll(Flush(s, ToolCall(h)), later).(pending := pending);
            var call := StoredCall(h.id, h.name, WholeText(h.arguments, [delta]), h.extras);
            |s.toolCalls| < |t.toolCalls|
            && Feed(t, ToolCallPart(delta, Some(x))) == t.(toolCalls := t.toolCalls[|s.toolCalls| := call])
  {
    FlushedCallStays(Flush(s, ToolCall(h)), |s.toolCalls|, x, later);
    var one := [delta];
    assert one[1..] == [];
    AppendEachIsWholeText(h.arguments, one);
  }

  /** What the assembled message has, the stream had. */
  lemma StreamDecides(stream: seq<Part>)
    ensures Assemble(stream).toolCalls == [] <==> !HasHeader(stream)
    ensures Assemble(stream).content == [] <==> Contents(stream) == []
    ensures SomeThink(Assemble(stream).content) <==> SomeThink(Contents(stream))
    ensures Contents(stream) == [] && !HasHeader(stream) <==> forall part :: part in stream ==> part.ToolCallPart?
  {
    ToolCallsAreBuffers(stream);
    BuffersPerHeader(NO_CALLS, stream);
    FeedAllKeepsKinds(EMPTY, stream);
    assert Assemble(stream).content == SoFar(FeedAll(EMPTY, stream));
    NoContents(stream);
  }

  lemma {:induction false} NoContents(stream: seq<Part>)
    ensures Contents(stream) == [] <==> forall part :: part in stream ==> !part.ContentPart?
  {
    if stream != [] {
      NoContents(stream[1..]);
      assert stream[0] in stream;
      assert forall part :: part in stream <==> part == stream[0] || part in stream[1..];
    }
  }
}
