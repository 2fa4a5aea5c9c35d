/** The ACP adapter's replay of a stored history (`replayHistory`, `replayMessage`). */
module AcpReplay {
  import opened Wrappers
  import opened AcpSession

  datatype ContentPart = TextPart(text: string) | ThinkPart(think: string) | MediaPart(url: string)

  /** A stored tool call, with its parsed arguments. */
  datatype StoredCall = StoredCall(id: string, name: string, args: Value)

  datatype Message =
    | User(content: seq<ContentPart>)
    | Assistant(content: seq<ContentPart>, toolCalls: seq<StoredCall>)
    | Tool(toolCallId: Option<string>, isError: bool, output: seq<Block>)
    | Other

  /** A push to the client, and whether it went through. */
  datatype Push = Push(note: Note, delivered: bool)

  datatype Progress = Progress(turnId: nat, turns: map<string, nat>, pushes: seq<Push>)

  const BLANK := Progress(0, map[], [])

  /** What one message makes the replay do, one action after the other until a push fails. */
  datatype Action = Record(callId: string) | Send(note: Note)

  function UserActions(content: seq<ContentPart>): seq<Action> {
    if content == [] then []
    else (if content[0].TextPart? && content[0].text != "" then [Send(UserChunk(content[0].text))] else [])
         + UserActions(content[1..])
  }

  function ContentActions(content: seq<ContentPart>): seq<Action> {
    if content == [] then []
    else PartActions(content[0]) + ContentActions(content[1..])
  }

  function PartActions(part: ContentPart): seq<Action> {
    match part
    case TextPart(text) => if text != "" then [Send(MessageChunk(text))] else []
    case ThinkPart(think) => if think != "" then [Send(ThoughtChunk(think))] else []
    case MediaPart(_) => []
  }

  function CallNote(turnId: nat, c: StoredCall): Note {
    Create(Wire(turnId, c.id), StartedCard(ToolStarted(turnId, c.id, c.name, None, c.args, None)))
  }

  function CallActions(turnId: nat, calls: seq<StoredCall>): seq<Action> {
    if calls == [] then []
    else [Record(calls[0].id), Send(CallNote(turnId, calls[0]))] + CallActions(turnId, calls[1..])
  }

  /** The update for a stored result; unlike a live one it carries no raw output. */
  function OutputNote(turnId: nat, callId: string, isError: bool, output: seq<Block>): Note {
    Update(Wire(turnId, callId), None, None, Some(ResultStatus(isError)), Some(output), None, None)
  }

  function OutputActions(turns: map<string, nat>, m: Message): seq<Action>
    requires m.Tool?
  {
    if m.toolCallId.GetOr("") == "" || m.toolCallId.value !in turns then []
    else
      var id := m.toolCallId.value;
      [Send(OutputNote(turns[id], id, m.isError, m.output))]
  }

  function Actions(s: Progress, m: Message): seq<Action> {
    match m
    case User(content) => UserActions(content)
    case Assistant(content, calls) => ContentActions(content) + CallActions(s.turnId, calls)
    case Tool(_, _, _) => OutputActions(s.turns, m)
    case Other => []
  }

  /** `works` says of each push, counted from the start of the replay, whether it succeeds. */
  function Perform(s: Progress, actions: seq<Action>, works: nat -> bool): Progress
    decreases |actions|
  {
    if actions == [] then s
    else match actions[0]
      case Record(id) => Perform(s.(turns := s.turns[id := s.turnId]), actions[1..], works)
      case Send(note) =>
        var pushed := s.(pushes := s.pushes + [Push(note, works(|s.pushes|))]);
        if works(|s.pushes|) then Perform(pushed, actions[1..], works) else pushed
  }

  function Begin(s: Progress, m: Message): Progress {
    if m.Assistant? then s.(turnId := s.turnId + 1) else s
  }

  function ReplayMessage(s: Progress, m: Message, works: nat -> bool): Progress {
    Perform(Begin(s, m), Actions(Begin(s, m), m), works)
  }

  function ReplayAll(s: Progress, history: seq<Message>, works: nat -> bool): Progress {
    if history == [] then s
    else ReplayMessage(ReplayAll(s, history[..|history| - 1], works), history[|history| - 1], works)
  }

  // ---------- The replay as it runs ----------

  lemma PerformOne(s: Progress, note: Note, works: nat -> bool)
    ensures Perform(s, [Send(note)], works) == s.(pushes := s.pushes + [Push(note, works(|s.pushes|))])
  {
    var rest: seq<Action> := [Send(note)][1..];
    assert rest == [];
  }

  lemma {:induction false} DeliveredAppend(s: Progress, a: seq<Action>, b: seq<Action>, works: nat -> bool)
    ensures AllDelivered(s, a + b, works)
         == (AllDelivered(s, a, works) && AllDelivered(Perform(s, a, works), b, works))
    decreases |a|
  {
    if a == [] {
      assert a + b == b;
    } else {
      assert (a + b)[1..] == a[1..] + b;
      match a[0]
      case Record(id) => DeliveredAppend(s.(turns := s.turns[id := s.turnId]), a[1..], b, works);
      case Send(note) =>
        if works(|s.pushes|) { DeliveredAppend(s.(pushes := s.pushes + [Push(note, true)]), a[1..], b, works); }
    }
  }

  lemma {:induction false} PerformAppend(s: Progress, a: seq<Action>, b: seq<Action>, works: nat -> bool)
    ensures Perform(s, a + b, works)
         == if AllDelivered(s, a, works) then Perform(Perform(s, a, works), b, works) else Perform(s, a, works)
    decreases |a|
  {
    if a == [] {
      assert a + b == b;
    } else {
      assert (a + b)[1..] == a[1..] + b;
      match a[0]
      case Record(id) => PerformAppend(s.(turns := s.turns[id := s.turnId]), a[1..], b, works);
      case Send(note) => PerformAppend(s.(pushes := s.pushes + [Push(note, works(|s.pushes|))]), a[1..], b, works);
    }
  }

  predicate AllDelivered(s: Progress, actions: seq<Action>, works: nat -> bool)
    decreases |actions|
  {
    if actions == [] then true
    else match actions[0]
      case Record(id) => AllDelivered(s.(turns := s.turns[id := s.turnId]), actions[1..], works)
      case Send(note) =>
        works(|s.pushes|) && AllDelivered(s.(pushes := s.pushes + [Push(note, true)]), actions[1..], works)
  }

  class Replay {
    var turnId: nat
    var turns: map<string, nat>
    var pushes: seq<Push>
    const works: nat -> bool

    ghost function View(): Progress
      reads this
    {
      Progress(turnId, turns, pushes)
    }

    constructor (works: nat -> bool)
      ensures View() == BLANK && this.works == works
    {
      turnId, turns, pushes := 0, map[], [];
      this.works := works;
    }

    /** One `sessionUpdate`; a failed one is the exception that ends the message. */
    method SessionUpdate(note: Note) returns (ok: bool)
      modifies this`pushes
      ensures View() == old(View()).(pushes := old(pushes) + [Push(note, ok)])
      ensures ok == works(|old(pushes)|)
    {
      ok := works(|pushes|);
      pushes := pushes + [Push(note, ok)];
    }

    method ReplayUser(content: seq<ContentPart>)
      modifies this
      ensures View() == Perform(old(View()), UserActions(content), works)
    {
      var i := 0;
      assert content[i..] == content;
      while i < |content|
        invariant i <= |content|
        invariant Perform(View(), UserActions(content[i..]), works) == Perform(old(View()), UserActions(content), works)
      {
        assert content[i..][0] == content[i] && content[i..][1..] == content[i + 1..];
        if content[i].TextPart? && content[i].text != "" {
          PerformAppend(View(), [Send(UserChunk(content[i].text))], UserActions(content[i + 1..]), works);
          var ok := SessionUpdate(UserChunk(content[i].text));
          if !ok { return; }
        } else {
          PerformAppend(View(), [], UserActions(content[i + 1..]), works);
        }
        i := i + 1;
      }
    }

    method ReplayContentPart(part: ContentPart) returns (ok: bool)
      modifies this
      ensures View() == Perform(old(View()), PartActions(part), works)
      ensures ok == AllDelivered(old(View()), PartActions(part), works)
    {
      ok := true;
      match part {
        case TextPart(text) => if text != "" { ok := SessionUpdate(MessageChunk(text)); }
        case ThinkPart(think) => if think != "" { ok := SessionUpdate(ThoughtChunk(think)); }
        case MediaPart(_) =>
      }
    }

    method ReplayContent(content: seq<ContentPart>) returns (ok: bool)
      modifies this
      ensures View() == Perform(old(View()), ContentActions(content), works)
      ensures ok == AllDelivered(old(View()), ContentActions(content), works)
    {
      ok := true;
      var i := 0;
      assert content[i..] == content;
      while i < |content|
        invariant i <= |content|
        invariant Perform(View(), ContentActions(content[i..]), works)
               == Perform(old(View()), ContentActions(content), works)
        invariant AllDelivered(View(), ContentActions(content[i..]), works)
               == AllDelivered(old(View()), ContentActions(content), works)
      {
        assert content[i..][0] == content[i] && content[i..][1..] == content[i + 1..];
        PerformAppend(View(), PartActions(content[i]), ContentActions(content[i + 1..]), works);
        DeliveredAppend(View(), PartActions(content[i]), ContentActions(content[i + 1..]), works);
        ok := ReplayContentPart(content[i]);
        if !ok { return; }
        i := i + 1;
      }
    }

    method ReplayCalls(calls: seq<StoredCall>)
      modifies this
      ensures View() == Perform(old(View()), CallActions(old(turnId), calls), works)
    {
      var j := 0;
      assert calls[j..] == calls;
      while j < |calls|
        invariant j <= |calls| && turnId == old(turnId)
        invariant Perform(View(), CallActions(turnId, calls[j..]), works)
               == Perform(old(View()), CallActions(turnId, calls), works)
      {
        assert calls[j..][0] == calls[j] && calls[j..][1..] == calls[j + 1..];
        ghost var rest := CallActions(turnId, calls[j + 1..]);
        ghost var note := CallNote(turnId, calls[j]);
        assert CallActions(turnId, calls[j..])[1..] == [Send(note)] + rest;
        turns := turns[calls[j].id := turnId];
        PerformAppend(View(), [Send(note)], rest, works);
        PerformOne(View(), note, works);
        var ok := SessionUpdate(CallNote(turnId, calls[j]));
        if !ok { return; }
        j := j + 1;
      }
    }

    method ReplayAssistant(content: seq<ContentPart>, calls: seq<StoredCall>)
      modifies this
      ensures View() == ReplayMessage(old(View()), Assistant(content, calls), works)
    {
      turnId := turnId + 1;
      PerformAppend(View(), ContentActions(content), CallActions(turnId, calls), works);
      PerformKeepsTurn(View(), ContentActions(content), works);
      var ok := ReplayContent(content);
      if !ok { return; }
      ReplayCalls(calls);
    }

    method ReplayTool(toolCallId: Option<string>, isError: bool, output: seq<Block>)
      modifies this
      ensures View() == ReplayMessage(old(View()), Tool(toolCallId, isError, output), works)
    {
      if toolCallId.None? || toolCallId.value == "" { return; }
      if toolCallId.value !in turns { return; }
      PerformOne(View(), OutputNote(turns[toolCallId.value], toolCallId.value, isError, output), works);
      var _ := SessionUpdate(OutputNote(turns[toolCallId.value], toolCallId.value, isError, output));
    }

    method ReplayHistory(history: seq<Message>)
      modifies this
      ensures View() == ReplayAll(old(View()), history, works)
    {
      var i := 0;
      while i < |history|
        invariant i <= |history|
        invariant View() == ReplayAll(old(View()), history[..i], works)
      {
        assert history[..i + 1][..i] == history[..i];
        match history[i] {
          case User(content) => ReplayUser(content);
          case Assistant(content, calls) => ReplayAssistant(content, calls);
          case Tool(id, isError, output) => ReplayTool(id, isError, output);
          case Other =>
        }
        i := i + 1;
      }
      assert history[..i] == history;
    }
  }

  lemma {:induction false} PerformKeepsTurn(s: Progress, actions: seq<Action>, works: nat -> bool)
    ensures Perform(s, actions, works).turnId == s.turnId
    decreases |actions|
  {
    if actions != [] {
      match actions[0]
      case Record(id) => PerformKeepsTurn(s.(turns := s.turns[id := s.turnId]), actions[1..], works);
      case Send(note) =>
        PerformKeepsTurn(s.(pushes := s.pushes + [Push(note, works(|s.pushes|))]), actions[1..], works);
    }
  }

  // ---------- Every result finds its call ----------

  /** The CREATE at `i` is the latest one among the first `n` pushes for its raw id, and has turn `t`. */
  ghost predicate LatestCreate(pushes: seq<Push>, i: int, n: nat, t: nat, r: string) {
    && 0 <= i < n <= |pushes| && CreatesCall(pushes[i].note, t, r)
    && forall k, u: nat :: i < k < n ==> !CreatesCall(pushes[k].note, u, r)
  }

  /** The update at `n` is for the latest call with some raw id. */
  ghost predicate OnTarget(pushes: seq<Push>, n: nat)
    requires n < |pushes| && pushes[n].note.Update?
  {
    exists i, t: nat, r :: LatestCreate(pushes, i, n, t, r) && pushes[n].note.id == Wire(t, r)
  }

  ghost predicate Targeted(pushes: seq<Push>) {
    forall n :: 0 <= n < |pushes| && pushes[n].note.Update? ==> OnTarget(pushes, n)
  }

  /** The bookkeeping map holds exactly the raw ids that have a CREATE, with the turn of the latest one. */
  ghost predicate Recorded(s: Progress) {
    && (forall r :: r in s.turns ==> exists i :: LatestCreate(s.pushes, i, |s.pushes|, s.turns[r], r))
    && (forall r :: HasCreate(s.pushes, r) ==> r in s.turns)
  }

  ghost predicate HasCreate(pushes: seq<Push>, r: string) {
    exists k, t: nat :: 0 <= k < |pushes| && CreatesCall(pushes[k].note, t, r)
  }

  ghost predicate CreatesCall(note: Note, t: nat, r: string) {
    note.Create? && note.id == Wire(t, r)
  }

  ghost predicate Sound(s: Progress) {
    Targeted(s.pushes) && Recorded(s)
  }

  lemma PushKeepsTargets(pushes: seq<Push>, p: Push)
    requires Targeted(pushes)
    requires p.note.Update? ==>
               exists i, t: nat, r :: LatestCreate(pushes, i, |pushes|, t, r) && p.note.id == Wire(t, r)
    ensures Targeted(pushes + [p])
  {
    var more := pushes + [p];
    forall n | 0 <= n < |more| && more[n].note.Update? ensures OnTarget(more, n) {
      if n < |pushes| {
        assert OnTarget(pushes, n);
        var i, t: nat, r :| LatestCreate(pushes, i, n, t, r) && pushes[n].note.id == Wire(t, r);
        assert LatestCreate(more, i, n, t, r);
      } else {
        var i, t: nat, r :| LatestCreate(pushes, i, |pushes|, t, r) && p.note.id == Wire(t, r);
        assert LatestCreate(more, i, n, t, r);
      }
    }
  }

  lemma HasCreateSnoc(pushes: seq<Push>, p: Push, r: string)
    ensures HasCreate(pushes + [p], r) ==> HasCreate(pushes, r) || exists t: nat :: CreatesCall(p.note, t, r)
  {
    if HasCreate(pushes + [p], r) {
      var k, t: nat :| 0 <= k < |pushes + [p]| && CreatesCall((pushes + [p])[k].note, t, r);
      if k < |pushes| { assert CreatesCall(pushes[k].note, t, r); }
    }
  }

  lemma PlainPushIsSound(s: Progress, note: Note, delivered: bool)
    requires Sound(s) && !note.Create?
    requires note.Update? ==> exists r :: r in s.turns && note.id == Wire(s.turns[r], r)
    ensures Sound(s.(pushes := s.pushes + [Push(note, delivered)]))
  {
    if note.Update? {
      var r :| r in s.turns && note.id == Wire(s.turns[r], r);
      var i :| LatestCreate(s.pushes, i, |s.pushes|, s.turns[r], r);
    }
    PushKeepsTargets(s.pushes, Push(note, delivered));
    var s' := s.(pushes := s.pushes + [Push(note, delivered)]);
    forall r | HasCreate(s'.pushes, r) ensures r in s'.turns { HasCreateSnoc(s.pushes, Push(note, delivered), r); }
    forall r | r in s'.turns ensures exists i :: LatestCreate(s'.pushes, i, |s'.pushes|, s'.turns[r], r) {
      var i :| LatestCreate(s.pushes, i, |s.pushes|, s.turns[r], r);
      assert LatestCreate(s'.pushes, i, |s'.pushes|, s'.turns[r], r);
    }
  }

  lemma CallPushIsSound(s: Progress, c: StoredCall, delivered: bool)
    requires Sound(s)
    ensures Sound(s.(turns := s.turns[c.id := s.turnId], pushes := s.pushes + [Push(CallNote(s.turnId, c), delivered)]))
  {
    var p := Push(CallNote(s.turnId, c), delivered);
    PushKeepsTargets(s.pushes, p);
    var s' := s.(turns := s.turns[c.id := s.turnId], pushes := s.pushes + [p]);
    forall r | HasCreate(s'.pushes, r) ensures r in s'.turns {
      HasCreateSnoc(s.pushes, p, r);
      if u: nat :| CreatesCall(p.note, u, r) { WireInjective(s.turnId, c.id, u, r); }
    }
    forall r | r in s'.turns ensures exists i :: LatestCreate(s'.pushes, i, |s'.pushes|, s'.turns[r], r) {
      if r == c.id {
        assert LatestCreate(s'.pushes, |s.pushes|, |s'.pushes|, s'.turns[r], r);
      } else {
        var i :| LatestCreate(s.pushes, i, |s.pushes|, s.turns[r], r);
        forall u: nat ensures !CreatesCall(p.note, u, r) { WireInjective(s.turnId, c.id, u, r); }
        assert LatestCreate(s'.pushes, i, |s'.pushes|, s'.turns[r], r);
      }
    }
  }

  predicate IsPlain(a: Action) {
    a.Send? && !a.note.Create? && !a.note.Update?
  }

  lemma {:induction false} PlainActionsAreSound(s: Progress, actions: seq<Action>, works: nat -> bool)
    requires Sound(s) && forall a :: a in actions ==> IsPlain(a)
    ensures var s' := Perform(s, actions, works); Sound(s') && s'.turnId == s.turnId && s'.turns == s.turns
    decreases |actions|
  {
    if actions != [] {
      assert IsPlain(actions[0]);
      var ok := works(|s.pushes|);
      PlainPushIsSound(s, actions[0].note, ok);
      if ok { PlainActionsAreSound(s.(pushes := s.pushes + [Push(actions[0].note, true)]), actions[1..], works); }
    }
  }

  lemma {:induction false} CallActionsAreSound(s: Progress, calls: seq<StoredCall>, works: nat -> bool)
    requires Sound(s)
    ensures Sound(Perform(s, CallActions(s.turnId, calls), works))
    decreases |calls|
  {
    if calls != [] {
      var c, ok := calls[0], works(|s.pushes|);
      var note := CallNote(s.turnId, c);
      var rest := CallActions(s.turnId, calls[1..]);
      var s1 := s.(turns := s.turns[c.id := s.turnId]);
      assert CallActions(s.turnId, calls)[1..] == [Send(note)] + rest;
      PerformAppend(s1, [Send(note)], rest, works);
      assert Perform(s1, [Send(note)], works) == s1.(pushes := s.pushes + [Push(note, ok)]);
      CallPushIsSound(s, c, ok);
      if ok { CallActionsAreSound(s1.(pushes := s.pushes + [Push(note, true)]), calls[1..], works); }
    }
  }

  lemma {:induction false} ContentActionsArePlain(content: seq<ContentPart>)
    ensures forall a :: a in ContentActions(content) || a in UserActions(content) ==> IsPlain(a)
  {
    if content != [] { ContentActionsArePlain(content[1..]); }
  }

  lemma MessageIsSound(s: Progress, m: Message, works: nat -> bool)
    requires Sound(s)
    ensures Sound(ReplayMessage(s, m, works))
  {
    var s1 := Begin(s, m);
    match m
    case User(content) =>
      ContentActionsArePlain(content);
      PlainActionsAreSound(s1, UserActions(content), works);
    case Assistant(content, calls) =>
      ContentActionsArePlain(content);
      PlainActionsAreSound(s1, ContentActions(content), works);
      PerformAppend(s1, ContentActions(content), CallActions(s1.turnId, calls), works);
      CallActionsAreSound(Perform(s1, ContentActions(content), works), calls, works);
    case Tool(_, _, _) =>
      if OutputActions(s.turns, m) != [] {
        PerformOne(s, OutputActions(s.turns, m)[0].note, works);
        PlainPushIsSound(s, OutputActions(s.turns, m)[0].note, works(|s.pushes|));
      }
    case Other =>
  }

  lemma {:induction false} ReplayIsSound(history: seq<Message>, works: nat -> bool)
    ensures Sound(ReplayAll(BLANK, history, works))
  {
    if history != [] {
      ReplayIsSound(history[..|history| - 1], works);
      MessageIsSound(ReplayAll(BLANK, history[..|history| - 1], works), history[|history| - 1], works);
    }
  }

  /**
   * After any history and any push failures, a tool message updates the latest earlier call with its raw id,
   * and is skipped exactly when no call with that id was replayed before.
   */
  lemma ResultFindsItsCall(history: seq<Message>, works: nat -> bool, r: string, isError: bool, output: seq<Block>)
    requires r != ""
    ensures var s := ReplayAll(BLANK, history, works);
            var s' := ReplayMessage(s, Tool(Some(r), isError, output), works);
            if HasCreate(s.pushes, r) then
              exists i, t: nat :: LatestCreate(s.pushes, i, |s.pushes|, t, r)
                 && s'.pushes == s.pushes + [Push(OutputNote(t, r, isError, output), works(|s.pushes|))]
            else s'.pushes == s.pushes
  {
    ReplayIsSound(history, works);
    var s := ReplayAll(BLANK, history, works);
    if r in s.turns {
      var i :| LatestCreate(s.pushes, i, |s.pushes|, s.turns[r], r);
      assert CreatesCall(s.pushes[i].note, s.turns[r], r);
      PerformOne(s, OutputNote(s.turns[r], r, isError, output), works);
    }
  }

  // ---------- Which updates find their card ----------

  /** The client has a card for this wire id when the push `n` reaches it. */
  ghost predicate HasCard(pushes: seq<Push>, n: nat, id: string)
    requires n <= |pushes|
  {
    exists k :: 0 <= k < n && pushes[k].delivered && pushes[k].note.Create? && pushes[k].note.id == id
  }

  /** The CREATE at `i` is for a call of the turn `t`. */
  ghost predicate CreatesInTurn(pushes: seq<Push>, i: nat, t: nat)
    requires i < |pushes|
  {
    exists r :: CreatesCall(pushes[i].note, t, r)
  }

  /**
   * A failed CREATE ends its message, so nothing else of its turn comes after it. `open` says that the turn now
   * being replayed has had no failed CREATE.
   */
  ghost predicate FailuresEndTurns(s: Progress, open: bool) {
    && (forall i, t: nat :: 0 <= i < |s.pushes| && CreatesInTurn(s.pushes, i, t) ==> t <= s.turnId)
    && (forall i, k, t: nat :: 0 <= i < k < |s.pushes| && CreatesInTurn(s.pushes, i, t) && !s.pushes[i].delivered ==>
          !CreatesInTurn(s.pushes, k, t))
    && (open ==> forall i, t: nat :: 0 <= i < |s.pushes| && CreatesInTurn(s.pushes, i, t) && !s.pushes[i].delivered ==>
          t < s.turnId)
  }

  lemma OtherPushKeepsTurns(s: Progress, p: Push, open: bool)
    requires FailuresEndTurns(s, open) && !p.note.Create?
    ensures FailuresEndTurns(s.(pushes := s.pushes + [p]), open)
  {
    var more := s.pushes + [p];
    forall i, t: nat | 0 <= i < |more| && CreatesInTurn(more, i, t)
      ensures i < |s.pushes| && CreatesInTurn(s.pushes, i, t)
    {
      var r :| CreatesCall(more[i].note, t, r);
      assert i < |s.pushes| ==> CreatesCall(s.pushes[i].note, t, r);
    }
  }

  lemma CallPushKeepsTurns(s: Progress, c: StoredCall, delivered: bool)
    requires FailuresEndTurns(s, true)
    ensures FailuresEndTurns(s.(pushes := s.pushes + [Push(CallNote(s.turnId, c), delivered)]), delivered)
  {
    var more := s.pushes + [Push(CallNote(s.turnId, c), delivered)];
    forall i, t: nat | 0 <= i < |more| && CreatesInTurn(more, i, t)
      ensures if i < |s.pushes| then CreatesInTurn(s.pushes, i, t) else t == s.turnId
    {
      var r :| CreatesCall(more[i].note, t, r);
      if i < |s.pushes| {
        assert CreatesCall(s.pushes[i].note, t, r);
      } else {
        WireInjective(t, r, s.turnId, c.id);
      }
    }
  }

  lemma {:induction false} PlainActionsKeepTurns(s: Progress, actions: seq<Action>, works: nat -> bool)
    requires FailuresEndTurns(s, true) && forall a :: a in actions ==> IsPlain(a)
    ensures FailuresEndTurns(Perform(s, actions, works), true)
    decreases |actions|
  {
    if actions != [] {
      assert IsPlain(actions[0]);
      var p := Push(actions[0].note, works(|s.pushes|));
      OtherPushKeepsTurns(s, p, true);
      if works(|s.pushes|) { PlainActionsKeepTurns(s.(pushes := s.pushes + [p]), actions[1..], works); }
    }
  }

  lemma {:induction false} CallActionsKeepTurns(s: Progress, calls: seq<StoredCall>, works: nat -> bool)
    requires FailuresEndTurns(s, true)
    ensures FailuresEndTurns(Perform(s, CallActions(s.turnId, calls), works), false)
    decreases |calls|
  {
    if calls != [] {
      var c, ok := calls[0], works(|s.pushes|);
      var note := CallNote(s.turnId, c);
      var rest := CallActions(s.turnId, calls[1..]);
      var s1 := s.(turns := s.turns[c.id := s.turnId]);
      assert CallActions(s.turnId, calls)[1..] == [Send(note)] + rest;
      PerformAppend(s1, [Send(note)], rest, works);
      PerformOne(s1, note, works);
      assert FailuresEndTurns(s1, true);
      CallPushKeepsTurns(s1, c, ok);
      if ok { CallActionsKeepTurns(s1.(pushes := s.pushes + [Push(note, true)]), calls[1..], works); }
    }
  }

  lemma BeginOpensTurn(s: Progress, m: Message)
    requires FailuresEndTurns(s, false) && m.Assistant?
    ensures FailuresEndTurns(Begin(s, m), true)
  {
  }

  lemma AssistantKeepsTurns(s: Progress, m: Message, works: nat -> bool)
    requires FailuresEndTurns(s, false) && m.Assistant?
    ensures FailuresEndTurns(ReplayMessage(s, m, works), false)
  {
    var s1 := Begin(s, m);
    BeginOpensTurn(s, m);
    ContentActionsArePlain(m.content);
    PlainActionsKeepTurns(s1, ContentActions(m.content), works);
    PerformKeepsTurn(s1, ContentActions(m.content), works);
    PerformAppend(s1, ContentActions(m.content), CallActions(s1.turnId, m.toolCalls), works);
    CallActionsKeepTurns(Perform(s1, ContentActions(m.content), works), m.toolCalls, works);
  }

  /** Messages that are not the assistant's push no CREATE. */
  lemma {:induction false} NoCreatesKeepTurns(s: Progress, actions: seq<Action>, works: nat -> bool)
    requires FailuresEndTurns(s, false) && forall a :: a in actions ==> a.Send? && !a.note.Create?
    ensures FailuresEndTurns(Perform(s, actions, works), false)
    decreases |actions|
  {
    if actions != [] {
      assert actions[0] in actions;
      var p := Push(actions[0].note, works(|s.pushes|));
      OtherPushKeepsTurns(s, p, false);
      if works(|s.pushes|) { NoCreatesKeepTurns(s.(pushes := s.pushes + [p]), actions[1..], works); }
    }
  }

  lemma {:induction false} ReplayKeepsTurns(history: seq<Message>, works: nat -> bool)
    ensures FailuresEndTurns(ReplayAll(BLANK, history, works), false)
  {
    if history != [] {
      var front, m := history[..|history| - 1], history[|history| - 1];
      var s := ReplayAll(BLANK, front, works);
      ReplayKeepsTurns(front, works);
      if m.Assistant? {
        AssistantKeepsTurns(s, m, works);
      } else {
        if m.User? { ContentActionsArePlain(m.content); }
        NoCreatesKeepTurns(s, Actions(s, m), works);
      }
    }
  }

  /**
   * Whatever pushes fail, an update targets the latest earlier call with its raw id, and the client has the card
   * for it unless the CREATE of that call failed and was the first one for its wire id.
   */
  lemma UpdateLacksCardIff(history: seq<Message>, works: nat -> bool, n: nat)
    requires var pushes := ReplayAll(BLANK, history, works).pushes; n < |pushes| && pushes[n].note.Update?
    ensures var pushes := ReplayAll(BLANK, history, works).pushes;
            exists i, t: nat, r :: LatestCreate(pushes, i, n, t, r) && pushes[n].note.id == Wire(t, r)
              && (!HasCard(pushes, n, Wire(t, r)) <==>
                    !pushes[i].delivered && forall k :: 0 <= k < i ==> !CreatesCall(pushes[k].note, t, r))
  {
    ReplayIsSound(history, works);
    ReplayKeepsTurns(history, works);
    var s := ReplayAll(BLANK, history, works);
    assert OnTarget(s.pushes, n);
    var i, t: nat, r :| LatestCreate(s.pushes, i, n, t, r) && s.pushes[n].note.id == Wire(t, r);
    CardIff(s, i, n, t, r);
  }

  lemma CardIff(s: Progress, i: int, n: nat, t: nat, r: string)
    requires FailuresEndTurns(s, false) && LatestCreate(s.pushes, i, n, t, r)
    ensures !HasCard(s.pushes, n, Wire(t, r)) <==>
              !s.pushes[i].delivered && forall k :: 0 <= k < i ==> !CreatesCall(s.pushes[k].note, t, r)
  {
    if k :| 0 <= k < i && CreatesCall(s.pushes[k].note, t, r) {
      assert CreatesInTurn(s.pushes, k, t) && CreatesInTurn(s.pushes, i, t);
      assert s.pushes[k].delivered;
    }
    if HasCard(s.pushes, n, Wire(t, r)) {
      var k :| 0 <= k < n && s.pushes[k].delivered && s.pushes[k].note.Create? && s.pushes[k].note.id == Wire(t, r);
      assert CreatesCall(s.pushes[k].note, t, r);
    }
  }

  /** When every CREATE goes through, every update finds the card of the latest earlier call with its raw id. */
  lemma ReplayedUpdatesFollowTheirCalls(history: seq<Message>, works: nat -> bool, n: nat)
    requires var pushes := ReplayAll(BLANK, history, works).pushes;
             && n < |pushes| && pushes[n].note.Update?
             && forall i :: 0 <= i < n && pushes[i].note.Create? ==> pushes[i].delivered
    ensures var pushes := ReplayAll(BLANK, history, works).pushes;
            OnTarget(pushes, n) && HasCard(pushes, n, pushes[n].note.id)
  {
    UpdateLacksCardIff(history, works, n);
    ReplayIsSound(history, works);
  }

  /** The call is recorded before its CREATE is pushed: if that push fails, its result still goes out, alone. */
  lemma LostCreateLeavesResult(c: StoredCall, output: seq<Block>)
    requires c.id != ""
    ensures var pushes := ReplayAll(BLANK, [Assistant([], [c]), Tool(Some(c.id), false, output)], n => n != 0).pushes;
            && |pushes| == 2 && pushes[0].note.Create? && !pushes[0].delivered
            && pushes[1].note.Update? && pushes[1].delivered && pushes[1].note.id == pushes[0].note.id
  {
    var works: nat -> bool := n => n != 0;
    var a, t := Assistant([], [c]), Tool(Some(c.id), false, output);
    var s0 := Begin(BLANK, a);
    var s1 := s0.(turns := map[c.id := 1]);
    var none: seq<StoredCall> := [c][1..];
    assert none == [];
    var actions := Actions(s0, a);
    assert CallActions(1, none) == [] && CallActions(1, [c]) == [Record(c.id), Send(CallNote(1, c))];
    assert actions == [Record(c.id), Send(CallNote(1, c))] && actions[1..] == [Send(CallNote(1, c))];
    PerformOne(s1, CallNote(1, c), works);
    var s2 := ReplayMessage(BLANK, a, works);
    assert s2 == s1.(pushes := [Push(CallNote(1, c), false)]);
    PerformOne(s2, OutputNote(1, c.id, false, output), works);
    assert [a, t][..1] == [a] && [a][..0] == [];
    assert ReplayAll(BLANK, [a], works) == s2;
  }

  // ---------- What a history is replayed as ----------

  function UserNotes(content: seq<ContentPart>): seq<Note> {
    if content == [] then []
    else (match content[0]
          case TextPart(text) => if |text| > 0 then [UserChunk(text)] else []
          case _ => [])
         + UserNotes(content[1..])
  }

  function ReplyNotes(content: seq<ContentPart>): seq<Note> {
    if content == [] then []
    else (match content[0]
          case TextPart(text) => if |text| > 0 then [MessageChunk(text)] else []
          case ThinkPart(think) => if |think| > 0 then [ThoughtChunk(think)] else []
          case MediaPart(_) => [])
         + ReplyNotes(content[1..])
  }

  function CallNotes(turn: nat, calls: seq<StoredCall>): seq<Note> {
    if calls == [] then []
    else
      var c := calls[0];
      [Create(Wire(turn, c.id), Card(c.name, KindOf(c.name), InProgress, [TextBlock(c.args.text)], Some(c.args), None))]
      + CallNotes(turn, calls[1..])
  }

  /** The number of the assistant messages so far: the turn of the last one. */
  function Turns(history: seq<Message>): nat {
    if history == [] then 0 else Turns(history[..|history| - 1]) + if history[|history| - 1].Assistant? then 1 else 0
  }

  predicate Calls(m: Message, id: string) {
    m.Assistant? && exists c :: c in m.toolCalls && c.id == id
  }

  /** The turn of the latest message that calls a tool under this id. */
  function LatestTurnOf(history: seq<Message>, id: string): Option<nat> {
    if history == [] then None
    else if Calls(history[|history| - 1], id) then Some(Turns(history))
    else LatestTurnOf(history[..|history| - 1], id)
  }

  function NotesFor(before: seq<Message>, m: Message): seq<Note> {
    match m
    case User(content) => UserNotes(content)
    case Assistant(content, calls) => ReplyNotes(content) + CallNotes(Turns(before) + 1, calls)
    case Tool(id, isError, output) =>
      if id == None || id == Some("") || LatestTurnOf(before, id.value).None? then []
      else [Update(Wire(LatestTurnOf(before, id.value).value, id.value), None, None,
                   Some(if isError then FailedStatus else Done), Some(output), None, None)]
    case Other => []
  }

  function Transcript(history: seq<Message>): seq<Note> {
    if history == [] then []
    else
      var n := |history| - 1;
      Transcript(history[..n]) + NotesFor(history[..n], history[n])
  }

  function NotesOf(pushes: seq<Push>): seq<Note> {
    seq(|pushes|, i requires 0 <= i < |pushes| => pushes[i].note)
  }

  /** The notes that actions push when every push works. */
  function Sends(actions: seq<Action>): seq<Note> {
    if actions == [] then []
    else (if actions[0].Send? then [actions[0].note] else []) + Sends(actions[1..])
  }

  lemma {:induction false} SendsAppend(a: seq<Action>, b: seq<Action>)
    ensures Sends(a + b) == Sends(a) + Sends(b)
  {
    if a == [] {
      assert a + b == b;
    } else {
      var first := if a[0].Send? then [a[0].note] else [];
      assert (a + b)[0] == a[0] && (a + b)[1..] == a[1..] + b;
      SendsAppend(a[1..], b);
      assert first + (Sends(a[1..]) + Sends(b)) == (first + Sends(a[1..])) + Sends(b);
    }
  }

  lemma {:induction false} AllIsSent(s: Progress, actions: seq<Action>, works: nat -> bool)
    requires forall n :: works(n)
    ensures NotesOf(Perform(s, actions, works).pushes) == NotesOf(s.pushes) + Sends(actions)
    decreases |actions|
  {
    if actions != [] {
      match actions[0]
      case Record(id) => AllIsSent(s.(turns := s.turns[id := s.turnId]), actions[1..], works);
      case Send(note) =>
        var pushed := s.(pushes := s.pushes + [Push(note, true)]);
        AllIsSent(pushed, actions[1..], works);
        assert NotesOf(pushed.pushes) == NotesOf(s.pushes) + [note];
    }
  }

  lemma {:induction false} ContentSends(content: seq<ContentPart>)
    ensures Sends(UserActions(content)) == UserNotes(content) && Sends(ContentActions(content)) == ReplyNotes(content)
  {
    if content != [] {
      ContentSends(content[1..]);
      var one := if content[0].TextPart? && content[0].text != "" then [Send(UserChunk(content[0].text))] else [];
      SendsAppend(one, UserActions(content[1..]));
      SendsAppend(PartActions(content[0]), ContentActions(content[1..]));
      assert one != [] ==> one[1..] == [];
      assert PartActions(content[0]) != [] ==> PartActions(content[0])[1..] == [];
    }
  }

  lemma {:induction false} CallsSend(turn: nat, calls: seq<StoredCall>)
    ensures Sends(CallActions(turn, calls)) == CallNotes(turn, calls)
  {
    if calls != [] {
      CallsSend(turn, calls[1..]);
      var two := [Record(calls[0].id), Send(CallNote(turn, calls[0]))];
      SendsAppend(two, CallActions(turn, calls[1..]));
      assert two[1..] == [Send(CallNote(turn, calls[0]))] && two[1..][1..] == [];
    }
  }

  lemma {:induction false} CallsRecord(s: Progress, calls: seq<StoredCall>, works: nat -> bool, id: string)
    requires forall n :: works(n)
    ensures var s' := Perform(s, CallActions(s.turnId, calls), works);
            && s'.turnId == s.turnId
            && (id in s'.turns <==> id in s.turns || exists c :: c in calls && c.id == id)
            && (id in s'.turns ==>
                  s'.turns[id] == if exists c :: c in calls && c.id == id then s.turnId else s.turns[id])
    decreases |calls|
  {
    if calls != [] {
      var note, rest := CallNote(s.turnId, calls[0]), CallActions(s.turnId, calls[1..]);
      var s1 := s.(turns := s.turns[calls[0].id := s.turnId]);
      var s2 := s1.(pushes := s.pushes + [Push(note, true)]);
      assert CallActions(s.turnId, calls)[1..] == [Send(note)] + rest && ([Send(note)] + rest)[1..] == rest;
      assert Perform(s, CallActions(s.turnId, calls), works) == Perform(s2, rest, works);
      CallsRecord(s2, calls[1..], works, id);
      assert forall c :: c in calls <==> c == calls[0] || c in calls[1..];
    }
  }

  lemma {:induction false} PlainActionsKeepBooks(s: Progress, actions: seq<Action>, works: nat -> bool)
    requires (forall n :: works(n)) && forall a :: a in actions ==> a.Send?
    ensures var s' := Perform(s, actions, works); s'.turnId == s.turnId && s'.turns == s.turns
    decreases |actions|
  {
    if actions != [] {
      assert actions[0] in actions;
      PlainActionsKeepBooks(s.(pushes := s.pushes + [Push(actions[0].note, true)]), actions[1..], works);
    }
  }

  lemma {:induction false} WorkingPushesAllDeliver(s: Progress, actions: seq<Action>, works: nat -> bool)
    requires forall n :: works(n)
    ensures AllDelivered(s, actions, works)
    decreases |actions|
  {
    if actions != [] {
      match actions[0]
      case Record(id) => WorkingPushesAllDeliver(s.(turns := s.turns[id := s.turnId]), actions[1..], works);
      case Send(note) => WorkingPushesAllDeliver(s.(pushes := s.pushes + [Push(note, true)]), actions[1..], works);
    }
  }

  /** The books after a message: the turn counter, and of each id the turn of the latest call. */
  lemma MessageKeepsBooks(s: Progress, before: seq<Message>, m: Message, works: nat -> bool, id: string)
    requires (forall n :: works(n)) && s.turnId == Turns(before) && TurnOfCall(s, id) == LatestTurnOf(before, id)
    ensures var s' := ReplayMessage(s, m, works);
            s'.turnId == Turns(before + [m]) && TurnOfCall(s', id) == LatestTurnOf(before + [m], id)
  {
    assert (before + [m])[..|before|] == before;
    var s1 := Begin(s, m);
    match m
    case User(content) =>
      ContentActionsArePlain(content);
      PlainActionsKeepBooks(s1, UserActions(content), works);
    case Assistant(content, calls) =>
      ContentActionsArePlain(content);
      PlainActionsKeepBooks(s1, ContentActions(content), works);
      WorkingPushesAllDeliver(s1, ContentActions(content), works);
      PerformAppend(s1, ContentActions(content), CallActions(s1.turnId, calls), works);
      CallsRecord(Perform(s1, ContentActions(content), works), calls, works, id);
    case Tool(_, _, _) => PlainActionsKeepBooks(s1, OutputActions(s1.turns, m), works);
    case Other =>
  }

  function TurnOfCall(s: Progress, id: string): Option<nat> {
    if id in s.turns then Some(s.turns[id]) else None
  }

  lemma {:induction false} BooksAreKept(history: seq<Message>, works: nat -> bool, id: string)
    requires forall n :: works(n)
    ensures var s := ReplayAll(BLANK, history, works);
            s.turnId == Turns(history) && TurnOfCall(s, id) == LatestTurnOf(history, id)
  {
    if history != [] {
      var front, m := history[..|history| - 1], history[|history| - 1];
      assert history == front + [m];
      BooksAreKept(front, works, id);
      MessageKeepsBooks(ReplayAll(BLANK, front, works), front, m, works, id);
    }
  }

  /** When no push fails, the client is sent exactly the transcript of the history. */
  lemma {:induction false} ReplayIsTranscript(history: seq<Message>, works: nat -> bool)
    requires forall n :: works(n)
    ensures NotesOf(ReplayAll(BLANK, history, works).pushes) == Transcript(history)
  {
    if history != [] {
      var front, m := history[..|history| - 1], history[|history| - 1];
      var s := ReplayAll(BLANK, front, works);
      var s1 := Begin(s, m);
      ReplayIsTranscript(front, works);
      BooksAreKept(front, works, if m.Tool? && m.toolCallId.Some? then m.toolCallId.value else "");
      AllIsSent(s1, Actions(s1, m), works);
      MessageSends(s1, front, m);
    }
  }

  lemma MessageSends(s1: Progress, before: seq<Message>, m: Message)
    requires s1.turnId == Turns(before) + if m.Assistant? then 1 else 0
    requires m.Tool? && m.toolCallId.Some? ==>
               TurnOfCall(s1, m.toolCallId.value) == LatestTurnOf(before, m.toolCallId.value)
    ensures Sends(Actions(s1, m)) == NotesFor(before, m)
  {
    match m
    case User(content) => ContentSends(content);
    case Assistant(content, calls) =>
      ContentSends(content);
      CallsSend(s1.turnId, calls);
      SendsAppend(ContentActions(content), CallActions(s1.turnId, calls));
    case Tool(_, _, _) =>
      var actions := OutputActions(s1.turns, m);
      assert actions != [] ==> actions[1..] == [];
    case Other =>
  }
}
