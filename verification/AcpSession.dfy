/**
 * The ACP adapter: one prompt's event stream turned into client notifications (`runTurnBody`), against one
 * buffer per wire-level tool call.
 */
module AcpSession {
  import opened Wrappers
  import opened Sequences

  // ---------- Wire ids ----------

  function Dec(n: nat): string {
    if n < 10 then [Digit(n)] else Dec(n / 10) + [Digit(n % 10)]
  }

  function Digit(d: nat): char
    requires d < 10
  {
    '0' + d as char
  }

  /** `acpToolCallId`. */
  function Wire(turnId: nat, callId: string): string {
    Dec(turnId) + ":" + callId
  }

  lemma {:induction false} DecShape(n: nat)
    ensures |Dec(n)| >= 1 && ':' !in Dec(n)
  {
    if n >= 10 { DecShape(n / 10); }
  }

  lemma {:induction false} DecInjective(m: nat, n: nat)
    requires Dec(m) == Dec(n)
    ensures m == n
  {
    DecShape(m / 10);
    DecShape(n / 10);
    var a, b := Dec(m), Dec(n);
    assert a[|a| - 1] == Digit(m % 10) && b[|b| - 1] == Digit(n % 10);
    assert m % 10 == n % 10;
    if m >= 10 && n >= 10 {
      assert Dec(m / 10) == a[..|a| - 1] == b[..|b| - 1] == Dec(n / 10);
      DecInjective(m / 10, n / 10);
    }
  }

  /** No two calls share a wire id, whatever characters the raw ids hold. */
  lemma WireInjective(t: nat, r: string, u: nat, q: string)
    ensures Wire(t, r) == Wire(u, q) ==> t == u && r == q
  {
    if Wire(t, r) == Wire(u, q) {
      DecShape(t);
      DecShape(u);
      var a, b, w := Dec(t), Dec(u), Wire(t, r);
      assert w[..|a|] == a && w[..|b|] == b && w[|a|] == ':' && w[|b|] == ':';
      forall i | 0 <= i < |a| ensures w[i] != ':' { assert w[i] == a[i]; }
      forall i | 0 <= i < |b| ensures w[i] != ':' { assert w[i] == b[i]; }
      assert |a| == |b|;
      DecInjective(t, u);
      assert r == w[|a| + 1..] == q;
    }
  }

  predicate DigitsOnly(s: string) {
    forall i :: 0 <= i < |s| ==> '0' <= s[i] <= '9'
  }

  function ValueOf(s: string): nat
    requires DigitsOnly(s)
  {
    if s == "" then 0
    else 10 * ValueOf(s[..|s| - 1]) + (s[|s| - 1] as nat - '0' as nat)
  }

  /** A wire id is the turn in decimal, without leading zeros, a colon, and the raw id. */
  lemma {:induction false} WireFormat(t: nat, r: string)
    ensures Wire(t, r) == Dec(t) + ":" + r && DigitsOnly(Dec(t)) && ValueOf(Dec(t)) == t
    ensures t > 0 ==> Dec(t)[0] != '0'
  {
    if t >= 10 {
      WireFormat(t / 10, r);
      var front, last := Dec(t / 10), Digit(t % 10);
      assert Dec(t)[..|Dec(t)| - 1] == front && Dec(t)[|Dec(t)| - 1] == last;
    } else {
      assert Dec(t)[..0] == "";
    }
  }

  // ---------- Events and notifications ----------

  datatype Reason = Completed | Cancelled | Failed | Filtered

  datatype TodoItem = TodoItem(title: string, status: string)

  /** A tool's input display: one that renders as a diff, a todo list, or any other. */
  datatype Display = DiffDisplay(diff: string) | TodoDisplay(items: seq<TodoItem>) | OtherDisplay

  /** A JSON value, and its string form (`stringifyArgs`). */
  datatype Value = Value(json: string, text: string)

  /** An SDK event; the last kind stands for those that can only move the current turn. */
  datatype Event =
    | TurnStarted(turnId: nat)
    | TurnEnded(turnId: nat, reason: Reason, errorCode: Option<string>)
    | ErrorEvent(code: string, message: string, details: Option<string>)
    | AssistantDelta(turnId: nat, text: string)
    | ThinkingDelta(turnId: nat, text: string)
    | ToolStarted(turnId: nat, callId: string, name: string, description: Option<string>, args: Value,
                  display: Option<Display>)
    | ToolDelta(turnId: nat, callId: string, toolName: Option<string>, part: Option<string>)
    | ToolProgress(turnId: nat, callId: string, kind: string, status: Option<string>)
    | ToolResult(turnId: nat, callId: string, isError: bool, output: Value, blocks: seq<Block>)
    | OtherEvent(turn: Option<nat>)

  /** What can happen to a prompt: an event of some agent, or the failure of the call that started it. */
  datatype Input = Sdk(agentId: Option<string>, event: Event) | KickRejected(authRequired: bool)

  datatype Block = TextBlock(text: string) | DiffBlock(diff: string) | OtherBlock(raw: string)
  datatype ToolKind = ReadKind | EditKind | ExecuteKind | FetchKind | ThinkKind | OtherKind
  datatype Status = Pending | InProgress | Done | FailedStatus
  datatype Card = Card(title: string, kind: ToolKind, status: Status, content: seq<Block>,
                       rawInput: Option<Value>, rawOutput: Option<Value>)

  /** A notification; an update replaces the fields it names. */
  datatype Note =
    | MessageChunk(text: string)
    | ThoughtChunk(text: string)
    | UserChunk(text: string)
    | Create(id: string, card: Card)
    | Update(id: string, title: Option<string>, kind: Option<ToolKind>, status: Option<Status>,
             content: Option<seq<Block>>, rawInput: Option<Value>, rawOutput: Option<Value>)
    | Plan(entries: seq<(string, Status)>)

  datatype Outcome = Stopped(stopReason: string) | Busy(message: string, details: Option<string>) | AuthRequired
                   | InternalError

  function InferToolKind(name: string): ToolKind {
    if name in {"Read", "Glob", "Grep"} then ReadKind
    else if name in {"Write", "Edit"} then EditKind
    else if name in {"Bash", "Terminal"} then ExecuteKind
    else if name in {"WebFetch", "WebSearch"} then FetchKind
    else if name == "Think" then ThinkKind
    else OtherKind
  }

  function StartedCard(e: Event): Card
    requires e.ToolStarted?
  {
    var text := [TextBlock(e.args.text)];
    Card(e.description.GetOr(e.name), InferToolKind(e.name), InProgress,
         if e.display.Some? && e.display.value.DiffDisplay? then [DiffBlock(e.display.value.diff)] + text else text,
         Some(e.args), None)
  }

  function LazyCard(e: Event): Card
    requires e.ToolDelta?
  {
    Card(e.toolName.GetOr("tool"),
         if e.toolName.GetOr("") != "" then InferToolKind(e.toolName.value) else OtherKind,
         Pending, [TextBlock(e.part.GetOr(""))], None, None)
  }

  function UpgradeNote(e: Event): Note
    requires e.ToolStarted?
  {
    var c := StartedCard(e);
    Update(Wire(e.turnId, e.callId), Some(c.title), Some(c.kind), Some(c.status), Some(c.content), c.rawInput, None)
  }

  function DeltaNote(e: Event, args: string): Note
    requires e.ToolDelta?
  {
    Update(Wire(e.turnId, e.callId), None, None, Some(InProgress), Some([TextBlock(args)]), None, None)
  }

  function ResultNote(e: Event): Note
    requires e.ToolResult?
  {
    Update(Wire(e.turnId, e.callId), None, None, Some(ResultStatus(e.isError)), Some(e.blocks), None, Some(e.output))
  }

  function ResultStatus(isError: bool): Status {
    if isError then FailedStatus else Done
  }

  function ProgressNotes(e: Event): seq<Note>
    requires e.ToolProgress?
  {
    if e.kind == "status" && e.status.GetOr("") != "" then
      [Update(Wire(e.turnId, e.callId), Some(e.status.value), None, None, None, None, None)]
    else []
  }

  function TodoStatus(status: string): Status {
    if status == "in_progress" then InProgress
    else if status in {"done", "completed"} then Done
    else Pending
  }

  function PlanEntries(items: seq<TodoItem>): seq<(string, Status)> {
    seq(|items|, i requires 0 <= i < |items| => (items[i].title, TodoStatus(items[i].status)))
  }

  function PlanNotes(display: Option<Display>): seq<Note> {
    if display.Some? && display.value.TodoDisplay? && display.value.items != [] then
      [Plan(PlanEntries(display.value.items))]
    else []
  }

  function StopReason(reason: Reason): string {
    match reason
    case Completed => "end_turn"
    case Cancelled => "cancelled"
    case Failed => "end_turn"
    case Filtered => "refusal"
  }

  function EndOutcome(reason: Reason, errorCode: Option<string>): Outcome {
    if reason.Failed? && errorCode.GetOr("") in {"auth.login_required", "provider.auth_error"} then AuthRequired
    else Stopped(StopReason(reason))
  }

  const TURN_AGENT_BUSY := "turn.agent_busy"

  // ---------- One prompt ----------

  /** The variables of one prompt, what it has sent, and how often its promise was settled. */
  datatype State = State(settled: bool, subscribed: bool, ownTurn: bool, initial: Option<nat>, current: Option<nat>,
                         started: set<string>, args: map<string, string>, out: seq<Note>, outcomes: seq<Outcome>)

  function Start(current: Option<nat>): State {
    State(false, true, false, current, current, {}, map[], [], [])
  }

  predicate FromMain(agentId: Option<string>) {
    agentId.GetOr("main") == "main"
  }

  predicate OwnStart(e: Event, initial: Option<nat>) {
    e.TurnStarted? && initial != Some(e.turnId)
  }

  function Send(s: State, notes: seq<Note>): State {
    s.(out := s.out + notes)
  }

  function Settle(s: State, o: Outcome): State {
    s.(settled := true, subscribed := false, current := None, started := {}, args := map[],
       outcomes := s.outcomes + [o])
  }

  /** The turn an event carries, if it carries one. */
  function TurnOf(e: Event): Option<nat> {
    if e.ErrorEvent? then None else if e.OtherEvent? then e.turn else Some(e.turnId)
  }

  /** The two assignments at the top of the listener. */
  function Track(s: State, e: Event): State {
    s.(ownTurn := s.ownTurn || OwnStart(e, s.initial),
       current := if TurnOf(e).Some? then TurnOf(e) else s.current)
  }

  function StartNote(started: set<string>, e: Event): Note
    requires e.ToolStarted?
  {
    var id := Wire(e.turnId, e.callId);
    if id in started then UpgradeNote(e) else Create(id, StartedCard(e))
  }

  function OnStarted(s: State, e: Event): State
    requires e.ToolStarted?
  {
    Send(s.(args := s.args[e.callId := e.args.text], started := s.started + {Wire(e.turnId, e.callId)}),
         [StartNote(s.started, e)] + PlanNotes(e.display))
  }

  function OnDelta(s: State, e: Event): State
    requires e.ToolDelta?
  {
    var id := Wire(e.turnId, e.callId);
    var part := e.part.GetOr("");
    if id !in s.started then
      Send(s.(args := s.args[e.callId := part], started := s.started + {id}), [Create(id, LazyCard(e))])
    else
      var args := (if e.callId in s.args then s.args[e.callId] else "") + part;
      Send(s.(args := s.args[e.callId := args]), [DeltaNote(e, args)])
  }

  /** The listener, on an event of the main agent. */
  function OnMain(s: State, e: Event): State {
    var s := Track(s, e);
    match e
    case TurnStarted(_) => s
    case TurnEnded(_, reason, code) => if s.settled then s else Settle(s, EndOutcome(reason, code))
    case ErrorEvent(code, message, details) =>
      if s.settled || code != TURN_AGENT_BUSY || s.ownTurn then s else Settle(s, Busy(message, details))
    case AssistantDelta(_, text) => Send(s, [MessageChunk(text)])
    case ThinkingDelta(_, text) => Send(s, [ThoughtChunk(text)])
    case ToolStarted(_, _, _, _, _, _) => OnStarted(s, e)
    case ToolDelta(_, _, _, _) => OnDelta(s, e)
    case ToolProgress(_, _, _, _) => Send(s, ProgressNotes(e))
    case ToolResult(_, _, _, _, _) => Send(s, [ResultNote(e)])
    case OtherEvent(_) => s
  }

  function Step(s: State, x: Input): State {
    match x
    case Sdk(agentId, e) => if s.subscribed && FromMain(agentId) then OnMain(s, e) else s
    case KickRejected(auth) =>
      if s.settled then s
      else s.(settled := true, subscribed := false,
              outcomes := s.outcomes + [if auth then AuthRequired else InternalError])
  }

  function Run(s: State, inputs: seq<Input>): State {
    if inputs == [] then s else Step(Run(s, inputs[..|inputs| - 1]), inputs[|inputs| - 1])
  }

  /** One prompt as the adapter keeps it. */
  class TurnBody {
    var settled: bool
    var subscribed: bool
    var ownTurn: bool
    const initial: Option<nat>
    var current: Option<nat>
    var started: set<string>
    var args: map<string, string>
    var out: seq<Note>
    var outcomes: seq<Outcome>

    ghost function View(): State
      reads this
    {
      State(settled, subscribed, ownTurn, initial, current, started, args, out, outcomes)
    }

    constructor (currentTurnId: Option<nat>)
      ensures View() == Start(currentTurnId)
    {
      settled, subscribed, ownTurn := false, true, false;
      initial, current := currentTurnId, currentTurnId;
      started, args := {}, map[];
      out, outcomes := [], [];
    }

    method Push(note: Note)
      modifies this`out
      ensures out == old(out) + [note]
    {
      out := out + [note];
    }

    method SettleWith(outcome: Outcome)
      modifies this
      ensures View() == Settle(old(View()), outcome)
    {
      settled := true;
      args := map[];
      started := {};
      current := None;
      subscribed := false;
      outcomes := outcomes + [outcome];
    }

    method ToolCallStarted(e: Event)
      requires e.ToolStarted?
      modifies this
      ensures View() == OnStarted(old(View()), e)
    {
      args := args[e.callId := e.args.text];
      var id := Wire(e.turnId, e.callId);
      if id in started {
        Push(UpgradeNote(e));
      } else {
        started := started + {id};
        Push(Create(id, StartedCard(e)));
      }
      ghost var sent := out;
      if e.display.Some? && e.display.value.TodoDisplay? && e.display.value.items != [] {
        Push(Plan(PlanEntries(e.display.value.items)));
      }
      assert out == sent + PlanNotes(e.display);
      assert old(started) + {id} == started;
    }

    method ToolCallDelta(e: Event)
      requires e.ToolDelta?
      modifies this
      ensures View() == OnDelta(old(View()), e)
    {
      var id := Wire(e.turnId, e.callId);
      if id !in started {
        args := args[e.callId := e.part.GetOr("")];
        started := started + {id};
        Push(Create(id, LazyCard(e)));
        return;
      }
      if e.callId !in args {
        args := args[e.callId := ""];
      }
      args := args[e.callId := args[e.callId] + e.part.GetOr("")];
      Push(DeltaNote(e, args[e.callId]));
    }

    /** One event delivered by the session, or the rejection of the call that started the turn. */
    method Handle(x: Input)
      modifies this
      ensures View() == Step(old(View()), x)
    {
      if x.KickRejected? {
        if settled { return; }
        settled := true;
        subscribed := false;
        outcomes := outcomes + [if x.authRequired then AuthRequired else InternalError];
        return;
      }
      if !subscribed { return; }
      var e := x.event;
      var main := FromMain(x.agentId);
      if e.TurnStarted? && main && initial != Some(e.turnId) { ownTurn := true; }
      if TurnOf(e).Some? && main { current := TurnOf(e); }
      if !main { return; }
      match e {
        case TurnStarted(_) =>
        case TurnEnded(_, reason, code) => if !settled { SettleWith(EndOutcome(reason, code)); }
        case ErrorEvent(code, message, details) =>
          if !settled && code == TURN_AGENT_BUSY && !ownTurn { SettleWith(Busy(message, details)); }
        case AssistantDelta(_, text) => Push(MessageChunk(text));
        case ThinkingDelta(_, text) => Push(ThoughtChunk(text));
        case ToolStarted(_, _, _, _, _, _) => ToolCallStarted(e);
        case ToolDelta(_, _, _, _) => ToolCallDelta(e);
        case ToolProgress(_, _, kind, status) =>
          if kind == "status" && status.GetOr("") != "" {
            Push(Update(Wire(e.turnId, e.callId), Some(status.value), None, None, None, None, None));
          }
        case ToolResult(_, _, _, _, _) => Push(ResultNote(e));
        case OtherEvent(_) =>
      }
    }
  }

  lemma RunSnoc(s: State, inputs: seq<Input>, x: Input)
    ensures Run(s, inputs + [x]) == Step(Run(s, inputs), x)
  {
    assert (inputs + [x])[..|inputs|] == inputs;
  }

  // ---------- Settling ----------

  lemma {:induction false} RunAppend(s: State, a: seq<Input>, b: seq<Input>)
    ensures Run(s, a + b) == Run(Run(s, a), b)
  {
    if b == [] {
      assert a + b == a;
    } else {
      assert (a + b)[..|a + b| - 1] == a + b[..|b| - 1];
      RunAppend(s, a, b[..|b| - 1]);
    }
  }

  ghost predicate SettledOnce(s: State) {
    && s.subscribed == !s.settled
    && |s.outcomes| == (if s.settled then 1 else 0)
  }

  lemma {:induction false} SettledOnceHolds(current: Option<nat>, inputs: seq<Input>)
    ensures SettledOnce(Run(Start(current), inputs))
  {
    if inputs != [] { SettledOnceHolds(current, inputs[..|inputs| - 1]); }
  }

  lemma {:induction false} SettledStays(s: State, inputs: seq<Input>)
    requires SettledOnce(s) && s.settled
    ensures Run(s, inputs) == s
  {
    if inputs != [] { SettledStays(s, inputs[..|inputs| - 1]); }
  }

  /** The promise settles at most once, and whatever happens afterwards changes and sends nothing. */
  lemma SettlesAtMostOnce(current: Option<nat>, inputs: seq<Input>, later: seq<Input>)
    ensures |Run(Start(current), inputs).outcomes| <= 1
    ensures Run(Start(current), inputs).outcomes != [] ==>
              Run(Start(current), inputs + later) == Run(Start(current), inputs)
  {
    SettledOnceHolds(current, inputs);
    RunAppend(Start(current), inputs, later);
    if Run(Start(current), inputs).settled { SettledStays(Run(Start(current), inputs), later); }
  }

  /** An event of the main agent: one that names it, or no agent at all. */
  predicate OfMain(x: Input) {
    x.Sdk? && (x.agentId == None || x.agentId == Some("main"))
  }

  /** A turn of the main agent starts, and not the one that was under way before the prompt. */
  predicate StartsOwnTurn(x: Input, initial: Option<nat>) {
    OfMain(x) && x.event.TurnStarted? && !(initial.Some? && initial.value == x.event.turnId)
  }

  ghost predicate OwnTurnAmong(inputs: seq<Input>, initial: Option<nat>) {
    exists i :: 0 <= i < |inputs| && StartsOwnTurn(inputs[i], initial)
  }

  lemma OwnTurnSnoc(front: seq<Input>, x: Input, initial: Option<nat>)
    ensures OwnTurnAmong(front + [x], initial) == (OwnTurnAmong(front, initial) || StartsOwnTurn(x, initial))
  {
    var inputs := front + [x];
    if i :| 0 <= i < |front| && StartsOwnTurn(front[i], initial) { assert StartsOwnTurn(inputs[i], initial); }
    assert StartsOwnTurn(x, initial) ==> StartsOwnTurn(inputs[|front|], initial);
  }

  lemma OwnTurnStep(s: State, x: Input)
    requires SettledOnce(s) && !Step(s, x).settled
    ensures !s.settled && Step(s, x).initial == s.initial
    ensures Step(s, x).ownTurn == (s.ownTurn || StartsOwnTurn(x, s.initial))
  {
    if x.Sdk? && x.event.ToolStarted? {
      assert OnStarted(Track(s, x.event), x.event).ownTurn == Track(s, x.event).ownTurn;
    }
  }

  /** While the prompt is pending its flag says exactly whether a turn of its own has started. */
  lemma {:induction false} OwnTurnFlag(current: Option<nat>, inputs: seq<Input>)
    ensures var s := Run(Start(current), inputs);
            !s.settled ==> s.initial == current && s.ownTurn == OwnTurnAmong(inputs, current)
  {
    if inputs != [] {
      var front, x := inputs[..|inputs| - 1], inputs[|inputs| - 1];
      assert inputs == front + [x];
      OwnTurnFlag(current, front);
      SettledOnceHolds(current, front);
      if !Run(Start(current), inputs).settled { OwnTurnStep(Run(Start(current), front), x); }
      OwnTurnSnoc(front, x, current);
    }
  }

  /** What a busy error does to a prompt: reject it, or nothing at all. */
  predicate BusyRejects(s: State, agentId: Option<string>, message: string, details: Option<string>) {
    Step(s, Sdk(agentId, ErrorEvent("turn.agent_busy", message, details))).outcomes == [Busy(message, details)]
  }

  predicate BusyIsIgnored(s: State, agentId: Option<string>, message: string, details: Option<string>) {
    Step(s, Sdk(agentId, ErrorEvent("turn.agent_busy", message, details))) == s
  }

  /** A busy agent rejects the prompt exactly as long as no turn of the prompt's own has started. */
  lemma BusyOnlyBeforeOwnTurn(current: Option<nat>, inputs: seq<Input>, agentId: Option<string>, message: string,
                              details: Option<string>)
    requires !Run(Start(current), inputs).settled && (agentId == None || agentId == Some("main"))
    ensures OwnTurnAmong(inputs, current) ==> BusyIsIgnored(Run(Start(current), inputs), agentId, message, details)
    ensures !OwnTurnAmong(inputs, current) ==> BusyRejects(Run(Start(current), inputs), agentId, message, details)
  {
    OwnTurnFlag(current, inputs);
    SettledOnceHolds(current, inputs);
  }

  /** The inputs that settle a pending prompt, by whether a turn of its own has started. */
  predicate SettlesUnless(ownTurn: bool, x: Input) {
    x.KickRejected?
    || (OfMain(x)
        && (x.event.TurnEnded? || (x.event.ErrorEvent? && x.event.code == "turn.agent_busy" && !ownTurn)))
  }

  ghost predicate Settles(before: seq<Input>, x: Input, current: Option<nat>) {
    SettlesUnless(OwnTurnAmong(before, current), x)
  }

  /** What a settling input makes of the prompt. */
  function Verdict(x: Input): Outcome {
    match x
    case KickRejected(authRequired) => if authRequired then AuthRequired else InternalError
    case Sdk(_, ErrorEvent(_, message, details)) => Busy(message, details)
    case Sdk(_, TurnEnded(_, Completed, _)) => Stopped("end_turn")
    case Sdk(_, TurnEnded(_, Cancelled, _)) => Stopped("cancelled")
    case Sdk(_, TurnEnded(_, Filtered, _)) => Stopped("refusal")
    case Sdk(_, TurnEnded(_, Failed, code)) =>
      if code == Some("auth.login_required") || code == Some("provider.auth_error") then AuthRequired
      else Stopped("end_turn")
    case Sdk(_, _) => InternalError
  }

  lemma {:induction false} NotYetSettled(current: Option<nat>, inputs: seq<Input>, n: nat)
    requires n <= |inputs|
    requires forall i :: 0 <= i < n ==> !Settles(inputs[..i], inputs[i], current)
    ensures !Run(Start(current), inputs[..n]).settled && Run(Start(current), inputs[..n]).outcomes == []
  {
    SettledOnceHolds(current, inputs[..n]);
    if n > 0 {
      NotYetSettled(current, inputs, n - 1);
      UnsettledStep(current, inputs[..n - 1], inputs[n - 1]);
      assert inputs[..n] == inputs[..n - 1] + [inputs[n - 1]];
    }
  }

  lemma SettlesHere(current: Option<nat>, before: seq<Input>, x: Input, later: seq<Input>, inputs: seq<Input>)
    requires !Run(Start(current), before).settled && Settles(before, x, current)
    requires inputs == (before + [x]) + later
    ensures Run(Start(current), inputs).outcomes == [Verdict(x)]
  {
    UnsettledStep(current, before, x);
    SettlesAtMostOnce(current, before + [x], later);
  }

  lemma Cut(inputs: seq<Input>, n: nat)
    requires n < |inputs|
    ensures inputs == (inputs[..n] + [inputs[n]]) + inputs[n + 1..]
  {
  }

  /** A prompt is pending until the first settling input, and settles with it, in the way of that input. */
  lemma FirstSettlingInputDecides(current: Option<nat>, inputs: seq<Input>, n: nat)
    requires n <= |inputs|
    requires forall i :: 0 <= i < n ==> !Settles(inputs[..i], inputs[i], current)
    ensures Run(Start(current), inputs[..n]).outcomes == []
    ensures n < |inputs| && Settles(inputs[..n], inputs[n], current) ==>
              Run(Start(current), inputs).outcomes == [Verdict(inputs[n])]
  {
    NotYetSettled(current, inputs, n);
    if n < |inputs| && Settles(inputs[..n], inputs[n], current) {
      Cut(inputs, n);
      SettlesHere(current, inputs[..n], inputs[n], inputs[n + 1..], inputs);
    }
  }

  lemma StepSettles(s: State, x: Input)
    requires SettledOnce(s) && !s.settled
    ensures Step(s, x).outcomes == if SettlesUnless(s.ownTurn, x) then [Verdict(x)] else []
  {
    if x.Sdk? && x.event.ToolStarted? {
      assert OnStarted(Track(s, x.event), x.event).outcomes == s.outcomes;
    } else if x.Sdk? && x.event.ToolDelta? {
      assert OnDelta(Track(s, x.event), x.event).outcomes == s.outcomes;
    }
  }

  lemma UnsettledStep(current: Option<nat>, before: seq<Input>, x: Input)
    requires !Run(Start(current), before).settled
    ensures Run(Start(current), before + [x]).outcomes == if Settles(before, x, current) then [Verdict(x)] else []
  {
    RunSnoc(Start(current), before, x);
    SettledOnceHolds(current, before);
    OwnTurnFlag(current, before);
    StepSettles(Run(Start(current), before), x);
  }

  // ---------- Creates come first and once ----------

  function Created(out: seq<Note>): set<string> {
    if out == [] then {}
    else Created(out[..|out| - 1]) + (if out[|out| - 1].Create? then {out[|out| - 1].id} else {})
  }

  lemma {:induction false} CreatedMember(out: seq<Note>, id: string)
    ensures id in Created(out) <==> exists i :: 0 <= i < |out| && out[i].Create? && out[i].id == id
  {
    if out != [] {
      var front := out[..|out| - 1];
      CreatedMember(front, id);
      if exists i :: 0 <= i < |front| && front[i].Create? && front[i].id == id {
        var i :| 0 <= i < |front| && front[i].Create? && front[i].id == id;
        assert out[i] == front[i];
      }
      if exists i :: 0 <= i < |out| && out[i].Create? && out[i].id == id {
        var i :| 0 <= i < |out| && out[i].Create? && out[i].id == id;
        if i < |front| { assert front[i] == out[i]; }
      }
    }
  }

  /** Argument updates: the deltas and the upgrades, which are the ones that set the status to in progress. */
  predicate IsArgumentUpdate(n: Note) {
    n.Update? && n.status == Some(InProgress)
  }

  ghost predicate Orderly(out: seq<Note>) {
    out != [] ==>
      && Orderly(out[..|out| - 1])
      && (out[|out| - 1].Create? ==> out[|out| - 1].id !in Created(out[..|out| - 1]))
      && (IsArgumentUpdate(out[|out| - 1]) ==> out[|out| - 1].id in Created(out[..|out| - 1]))
  }

  lemma OrderlySnoc(out: seq<Note>, n: Note)
    requires Orderly(out)
    requires n.Create? ==> n.id !in Created(out)
    requires IsArgumentUpdate(n) ==> n.id in Created(out)
    ensures Orderly(out + [n])
    ensures Created(out + [n]) == Created(out) + (if n.Create? then {n.id} else {})
  {
    assert (out + [n])[..|out|] == out;
  }

  lemma OrderlyPlain(out: seq<Note>, notes: seq<Note>)
    requires Orderly(out)
    requires notes == [] || (|notes| == 1 && !notes[0].Create? && !IsArgumentUpdate(notes[0]))
    ensures Orderly(out + notes) && Created(out + notes) == Created(out)
  {
    if notes == [] {
      assert out + notes == out;
    } else {
      var n := notes[0];
      assert notes == [n];
      OrderlySnoc(out, n);
    }
  }

  lemma StartNoteIsOrderly(out: seq<Note>, e: Event, note: Note, plans: seq<Note>)
    requires e.ToolStarted? && Orderly(out)
    requires note == StartNote(Created(out), e)
    requires plans == [] || (|plans| == 1 && plans[0].Plan?)
    ensures Orderly(out + ([note] + plans))
    ensures Created(out + ([note] + plans)) == Created(out) + {Wire(e.turnId, e.callId)}
  {
    OrderlySnoc(out, note);
    OrderlyPlain(out + [note], plans);
    assert out + ([note] + plans) == (out + [note]) + plans;
  }

  lemma ToolStartKeepsOrder(s: State, e: Event)
    requires e.ToolStarted? && Orderly(s.out) && s.started == Created(s.out)
    ensures Orderly(OnStarted(s, e).out) && OnStarted(s, e).started == Created(OnStarted(s, e).out)
  {
    StartNoteIsOrderly(s.out, e, StartNote(s.started, e), PlanNotes(e.display));
  }

  lemma ToolDeltaKeepsOrder(s: State, e: Event)
    requires e.ToolDelta? && Orderly(s.out) && s.started == Created(s.out)
    ensures Orderly(OnDelta(s, e).out) && OnDelta(s, e).started == Created(OnDelta(s, e).out)
  {
    var id := Wire(e.turnId, e.callId);
    if id !in s.started {
      OrderlySnoc(s.out, Create(id, LazyCard(e)));
    } else {
      OrderlySnoc(s.out, DeltaNote(e, (if e.callId in s.args then s.args[e.callId] else "") + e.part.GetOr("")));
    }
  }

  lemma {:induction false} RunIsOrderly(current: Option<nat>, inputs: seq<Input>)
    ensures var s := Run(Start(current), inputs); Orderly(s.out) && (!s.settled ==> s.started == Created(s.out))
  {
    if inputs != [] {
      var front, x := inputs[..|inputs| - 1], inputs[|inputs| - 1];
      RunIsOrderly(current, front);
      SettledOnceHolds(current, front);
      var s := Run(Start(current), front);
      if x.Sdk? && s.subscribed && FromMain(x.agentId) {
        var e := x.event;
        var t := Track(s, e);
        if e.ToolStarted? { ToolStartKeepsOrder(t, e); }
        if e.ToolDelta? { ToolDeltaKeepsOrder(t, e); }
        if e.AssistantDelta? { OrderlyPlain(s.out, [MessageChunk(e.text)]); }
        if e.ThinkingDelta? { OrderlyPlain(s.out, [ThoughtChunk(e.text)]); }
        if e.ToolProgress? { OrderlyPlain(s.out, ProgressNotes(e)); }
        if e.ToolResult? { OrderlyPlain(s.out, [ResultNote(e)]); }
      }
    }
  }

  lemma {:induction false} OrderlyAt(out: seq<Note>, j: nat)
    requires Orderly(out) && j < |out|
    ensures out[j].Create? ==> out[j].id !in Created(out[..j])
    ensures IsArgumentUpdate(out[j]) ==> out[j].id in Created(out[..j])
  {
    var front := out[..|out| - 1];
    if j < |front| {
      OrderlyAt(front, j);
      assert front[..j] == out[..j];
    }
  }

  ghost predicate CreatedOnce(out: seq<Note>) {
    forall i, j :: 0 <= i < j < |out| && out[i].Create? && out[j].Create? ==> out[i].id != out[j].id
  }

  ghost predicate CreatedFirst(out: seq<Note>) {
    forall j :: 0 <= j < |out| && IsArgumentUpdate(out[j]) ==>
      exists i :: 0 <= i < j && out[i].Create? && out[i].id == out[j].id
  }

  /** In every run: one CREATE per wire id, and every delta or upgrade comes after the CREATE of its id. */
  lemma CreatedOnceAndFirst(current: Option<nat>, inputs: seq<Input>)
    ensures CreatedOnce(Run(Start(current), inputs).out)
    ensures CreatedFirst(Run(Start(current), inputs).out)
  {
    RunIsOrderly(current, inputs);
    OrderlyMeans(Run(Start(current), inputs).out);
  }

  lemma OrderlyMeans(out: seq<Note>)
    requires Orderly(out)
    ensures CreatedOnce(out) && CreatedFirst(out)
  {
    forall j | 0 <= j < |out| && IsArgumentUpdate(out[j])
      ensures exists i :: 0 <= i < j && out[i].Create? && out[i].id == out[j].id
    {
      OrderlyAt(out, j);
      CreatedMember(out[..j], out[j].id);
      var i :| 0 <= i < j && out[..j][i].Create? && out[..j][i].id == out[j].id;
      assert out[i] == out[..j][i];
    }
    forall i, j | 0 <= i < j < |out| && out[i].Create? && out[j].Create? ensures out[i].id != out[j].id {
      OrderlyAt(out, j);
      CreatedMember(out[..j], out[j].id);
      assert out[..j][i] == out[i];
    }
  }

  // ---------- What the client shows ----------

  /** A client applying one notification to its card for an id; it ignores updates of cards it does not have. */
  function Apply(c: Option<Card>, n: Note, id: string): Option<Card> {
    if n.Create? && n.id == id then Some(n.card)
    else if n.Update? && n.id == id && c.Some? then
      var d := c.value;
      Some(Card(n.title.GetOr(d.title), n.kind.GetOr(d.kind), n.status.GetOr(d.status), n.content.GetOr(d.content),
                if n.rawInput.Some? then n.rawInput else d.rawInput,
                if n.rawOutput.Some? then n.rawOutput else d.rawOutput))
    else c
  }

  function Shown(out: seq<Note>, id: string): Option<Card> {
    if out == [] then None else Apply(Shown(out[..|out| - 1], id), out[|out| - 1], id)
  }

  /** The reference: one call of one turn, with its own buffer, looking at nothing but its own events. */
  datatype Call = Call(args: string, card: Card)

  predicate IsArguments(e: Event) {
    e.ToolStarted? || e.ToolDelta?
  }

  predicate About(x: Input, t: nat, r: string) {
    && OfMain(x)
    && (IsArguments(x.event) || x.event.ToolProgress? || x.event.ToolResult?)
    && x.event.turnId == t && x.event.callId == r
  }

  /** The card of a started call; a result that came before stays with it. */
  function Restarted(c: Option<Card>, e: Event): Card
    requires e.ToolStarted?
  {
    StartedCard(e).(rawOutput := if c.Some? then c.value.rawOutput else None)
  }

  function After(c: Option<Call>, e: Event): Option<Call> {
    if e.ToolStarted? then Some(Call(e.args.text, Restarted(if c.Some? then Some(c.value.card) else None, e)))
    else if e.ToolDelta? && c.None? then Some(Call(e.part.GetOr(""), LazyCard(e)))
    else if c.None? then None
    else if e.ToolDelta? then
      var args := c.value.args + e.part.GetOr("");
      Some(Call(args, c.value.card.(status := InProgress, content := [TextBlock(args)])))
    else if e.ToolProgress? && e.kind == "status" && e.status.GetOr("") != "" then
      Some(c.value.(card := c.value.card.(title := e.status.value)))
    else if e.ToolResult? then
      Some(c.value.(card := c.value.card.(status := ResultStatus(e.isError), content := e.blocks,
                                          rawOutput := Some(e.output))))
    else c
  }

  function CallOf(inputs: seq<Input>, t: nat, r: string): Option<Call> {
    if inputs == [] then None
    else
      var before, x := CallOf(inputs[..|inputs| - 1], t, r), inputs[|inputs| - 1];
      if About(x, t, r) then After(before, x.event) else before
  }

  function CardOf(inputs: seq<Input>, t: nat, r: string): Option<Card> {
    var c := CallOf(inputs, t, r);
    if c.Some? then Some(c.value.card) else None
  }

  function ArgsOf(inputs: seq<Input>, t: nat, r: string): string {
    var c := CallOf(inputs, t, r);
    if c.Some? then c.value.args else ""
  }

  /** The turn of the last argument event of a raw id. */
  function LastTurn(inputs: seq<Input>, r: string): Option<nat> {
    if inputs == [] then None
    else
      var x := inputs[|inputs| - 1];
      if OfMain(x) && IsArguments(x.event) && x.event.callId == r then Some(x.event.turnId)
      else LastTurn(inputs[..|inputs| - 1], r)
  }

  lemma CallOfSnoc(inputs: seq<Input>, x: Input, t: nat, r: string)
    ensures CallOf(inputs + [x], t, r)
         == if About(x, t, r) then After(CallOf(inputs, t, r), x.event) else CallOf(inputs, t, r)
    ensures LastTurn(inputs + [x], r)
         == if OfMain(x) && IsArguments(x.event) && x.event.callId == r then Some(x.event.turnId)
            else LastTurn(inputs, r)
  {
    assert (inputs + [x])[..|inputs|] == inputs;
  }

  lemma ShownSnoc(out: seq<Note>, n: Note, id: string)
    ensures Shown(out + [n], id) == Apply(Shown(out, id), n, id)
  {
    assert (out + [n])[..|out|] == out;
  }

  lemma ShownUnchanged(out: seq<Note>, notes: seq<Note>, id: string)
    requires |notes| <= 1
    requires forall n :: n in notes ==> (n.Create? || n.Update?) ==> n.id != id
    ensures Shown(out + notes, id) == Shown(out, id)
  {
    if notes == [] {
      assert out + notes == out;
    } else {
      assert notes == [notes[0]] && notes[0] in notes;
      ShownSnoc(out, notes[0], id);
    }
  }

  /** The client shows every call exactly as the call's own buffer has it, and shows nothing else for its id. */
  ghost predicate Exact(s: State, inputs: seq<Input>) {
    forall t: nat, r: string :: Shown(s.out, Wire(t, r)) == CardOf(inputs, t, r)
  }

  ghost predicate Keys(s: State, inputs: seq<Input>) {
    forall t: nat, r: string :: Wire(t, r) in s.started <==> CallOf(inputs, t, r).Some?
  }

  /** The accumulator of a raw id is the buffer of the call that last touched it. */
  ghost predicate Accumulated(s: State, inputs: seq<Input>) {
    forall r: string :: AccumulatedAt(s.args, inputs, r)
  }

  ghost predicate AccumulatedAt(args: map<string, string>, inputs: seq<Input>, r: string) {
    match LastTurn(inputs, r)
    case None => r !in args && forall t: nat :: CallOf(inputs, t, r).None?
    case Some(t) => CallOf(inputs, t, r).Some? && r in args && args[r] == ArgsOf(inputs, t, r)
  }

  /**
   * A delta is harmless when its call is new, or when the raw id's accumulator, which belongs to the call that
   * last used this raw id, holds the same text as this call's own buffer.
   */
  predicate Harmless(inputs: seq<Input>, x: Input) {
    OfMain(x) && x.event.ToolDelta? ==>
      var t, r := x.event.turnId, x.event.callId;
      CallOf(inputs, t, r).Some? && LastTurn(inputs, r).Some? ==>
        ArgsOf(inputs, LastTurn(inputs, r).value, r) == ArgsOf(inputs, t, r)
  }

  ghost predicate Tracked(s: State, inputs: seq<Input>) {
    Keys(s, inputs) && Accumulated(s, inputs)
  }

  lemma StepKeepsKeys(s: State, inputs: seq<Input>, x: Input)
    requires SettledOnce(s) && !s.settled && Keys(s, inputs)
    ensures !Step(s, x).settled ==> Keys(Step(s, x), inputs + [x])
  {
    var s' := Step(s, x);
    if !s'.settled {
      forall t: nat, r: string ensures Wire(t, r) in s'.started <==> CallOf(inputs + [x], t, r).Some? {
        CallOfSnoc(inputs, x, t, r);
        if x.Sdk? && FromMain(x.agentId) && IsArguments(x.event) {
          WireInjective(t, r, x.event.turnId, x.event.callId);
        }
      }
    }
  }

  lemma OtherRawIdAccumulates(s: State, inputs: seq<Input>, x: Input, r: string)
    requires Accumulated(s, inputs) && !Step(s, x).settled
    requires !(x.Sdk? && s.subscribed && FromMain(x.agentId) && IsArguments(x.event) && x.event.callId == r)
    requires s.subscribed
    ensures AccumulatedAt(Step(s, x).args, inputs + [x], r)
  {
    assert AccumulatedAt(s.args, inputs, r);
    var s' := Step(s, x);
    assert (r in s'.args <==> r in s.args) && (r in s.args ==> s'.args[r] == s.args[r]);
    CallOfSnoc(inputs, x, LastTurn(inputs, r).GetOr(0), r);
    forall t: nat ensures CallOf(inputs + [x], t, r).Some? == CallOf(inputs, t, r).Some? {
      CallOfSnoc(inputs, x, t, r);
    }
  }

  lemma OwnRawIdAccumulates(s: State, inputs: seq<Input>, x: Input)
    requires Tracked(s, inputs) && s.subscribed && Harmless(inputs, x)
    requires x.Sdk? && FromMain(x.agentId) && IsArguments(x.event)
    ensures AccumulatedAt(Step(s, x).args, inputs + [x], x.event.callId)
  {
    var t, r := x.event.turnId, x.event.callId;
    assert AccumulatedAt(s.args, inputs, r);
    assert Wire(t, r) in s.started <==> CallOf(inputs, t, r).Some?;
    CallOfSnoc(inputs, x, t, r);
  }

  lemma StepKeepsAccumulated(s: State, inputs: seq<Input>, x: Input)
    requires SettledOnce(s) && !s.settled && Tracked(s, inputs) && Harmless(inputs, x)
    ensures !Step(s, x).settled ==> Accumulated(Step(s, x), inputs + [x])
  {
    if !Step(s, x).settled {
      forall r: string ensures AccumulatedAt(Step(s, x).args, inputs + [x], r) {
        if x.Sdk? && FromMain(x.agentId) && IsArguments(x.event) && x.event.callId == r {
          OwnRawIdAccumulates(s, inputs, x);
        } else {
          OtherRawIdAccumulates(s, inputs, x, r);
        }
      }
    }
  }

  lemma StartedNoteShows(out: seq<Note>, e: Event, id: string)
    requires e.ToolStarted?
    ensures var wire := Wire(e.turnId, e.callId);
            var note := if Shown(out, wire).Some? then UpgradeNote(e) else Create(wire, StartedCard(e));
            Shown(out + [note], id) == if id == wire then Some(Restarted(Shown(out, wire), e)) else Shown(out, id)
  {
    var wire := Wire(e.turnId, e.callId);
    if Shown(out, wire).Some? {
      ShownSnoc(out, UpgradeNote(e), id);
    } else {
      ShownSnoc(out, Create(wire, StartedCard(e)), id);
    }
  }

  lemma OnStartedShows(s: State, e: Event, id: string)
    requires e.ToolStarted? && (Shown(s.out, Wire(e.turnId, e.callId)).Some? <==> Wire(e.turnId, e.callId) in s.started)
    ensures Shown(OnStarted(s, e).out, id)
         == if id == Wire(e.turnId, e.callId) then Some(Restarted(Shown(s.out, id), e)) else Shown(s.out, id)
  {
    var wire := Wire(e.turnId, e.callId);
    var note := StartNote(s.started, e);
    StartedNoteShows(s.out, e, id);
    ShownUnchanged(s.out + [note], PlanNotes(e.display), id);
    assert (s.out + [note]) + PlanNotes(e.display) == s.out + ([note] + PlanNotes(e.display));
  }

  lemma OnDeltaShows(s: State, e: Event, id: string)
    requires e.ToolDelta? && (Shown(s.out, Wire(e.turnId, e.callId)).Some? <==> Wire(e.turnId, e.callId) in s.started)
    requires Wire(e.turnId, e.callId) in s.started ==> e.callId in s.args
    ensures Shown(OnDelta(s, e).out, id)
         == if id != Wire(e.turnId, e.callId) then Shown(s.out, id)
            else if id !in s.started then Some(LazyCard(e))
            else Some(Shown(s.out, id).value.(status := InProgress,
                                              content := [TextBlock(s.args[e.callId] + e.part.GetOr(""))]))
  {
    var wire := Wire(e.turnId, e.callId);
    if wire !in s.started {
      ShownSnoc(s.out, Create(wire, LazyCard(e)), id);
    } else {
      ShownSnoc(s.out, DeltaNote(e, s.args[e.callId] + e.part.GetOr("")), id);
    }
  }

  lemma ArgumentsShow(s: State, inputs: seq<Input>, x: Input, t: nat, r: string)
    requires s.subscribed && Tracked(s, inputs) && Exact(s, inputs)
    requires x.Sdk? && FromMain(x.agentId) && IsArguments(x.event)
    requires About(x, t, r) && x.event.ToolDelta? && CallOf(inputs, t, r).Some? ==>
               r in s.args && s.args[r] == ArgsOf(inputs, t, r)
    ensures Shown(Step(s, x).out, Wire(t, r)) == CardOf(inputs + [x], t, r)
  {
    var e := x.event;
    var u, q := e.turnId, e.callId;
    CallOfSnoc(inputs, x, t, r);
    WireInjective(t, r, u, q);
    assert Shown(s.out, Wire(t, r)) == CardOf(inputs, t, r);
    assert Shown(s.out, Wire(u, q)) == CardOf(inputs, u, q);
    assert Wire(u, q) in s.started <==> CallOf(inputs, u, q).Some?;
    assert AccumulatedAt(s.args, inputs, q);
    if e.ToolStarted? {
      OnStartedShows(Track(s, e), e, Wire(t, r));
    } else {
      OnDeltaShows(Track(s, e), e, Wire(t, r));
    }
  }

  lemma ProgressShows(s: State, inputs: seq<Input>, x: Input, t: nat, r: string)
    requires s.subscribed && Shown(s.out, Wire(t, r)) == CardOf(inputs, t, r)
    requires x.Sdk? && FromMain(x.agentId) && x.event.ToolProgress?
    ensures Shown(Step(s, x).out, Wire(t, r)) == CardOf(inputs + [x], t, r)
  {
    var e := x.event;
    CallOfSnoc(inputs, x, t, r);
    WireInjective(t, r, e.turnId, e.callId);
    assert Step(s, x).out == s.out + ProgressNotes(e);
    if e.kind == "status" && e.status.GetOr("") != "" {
      ShownSnoc(s.out, ProgressNotes(e)[0], Wire(t, r));
    } else {
      assert s.out + [] == s.out;
    }
  }

  lemma ResultShows(s: State, inputs: seq<Input>, x: Input, t: nat, r: string)
    requires s.subscribed && Shown(s.out, Wire(t, r)) == CardOf(inputs, t, r)
    requires x.Sdk? && FromMain(x.agentId) && x.event.ToolResult?
    ensures Shown(Step(s, x).out, Wire(t, r)) == CardOf(inputs + [x], t, r)
  {
    CallOfSnoc(inputs, x, t, r);
    WireInjective(t, r, x.event.turnId, x.event.callId);
    ShownSnoc(s.out, ResultNote(x.event), Wire(t, r));
  }

  lemma OthersShow(s: State, inputs: seq<Input>, x: Input, t: nat, r: string)
    requires SettledOnce(s) && !s.settled && Shown(s.out, Wire(t, r)) == CardOf(inputs, t, r)
    requires !(x.Sdk? && FromMain(x.agentId) && IsArguments(x.event))
    ensures Shown(Step(s, x).out, Wire(t, r)) == CardOf(inputs + [x], t, r)
  {
    if x.Sdk? && FromMain(x.agentId) && x.event.ToolProgress? {
      ProgressShows(s, inputs, x, t, r);
    } else if x.Sdk? && FromMain(x.agentId) && x.event.ToolResult? {
      ResultShows(s, inputs, x, t, r);
    } else {
      CallOfSnoc(inputs, x, t, r);
      if x.Sdk? && x.event.AssistantDelta? { ShownUnchanged(s.out, [MessageChunk(x.event.text)], Wire(t, r)); }
      if x.Sdk? && x.event.ThinkingDelta? { ShownUnchanged(s.out, [ThoughtChunk(x.event.text)], Wire(t, r)); }
    }
  }

  // ---------- The client's view is exact ----------

  lemma {:induction false} UnsettledBefore(current: Option<nat>, inputs: seq<Input>, n: nat)
    requires n <= |inputs| && !Run(Start(current), inputs).settled
    ensures !Run(Start(current), inputs[..n]).settled
  {
    SettledOnceHolds(current, inputs[..n]);
    assert inputs == inputs[..n] + inputs[n..];
    RunAppend(Start(current), inputs[..n], inputs[n..]);
    if Run(Start(current), inputs[..n]).settled { SettledStays(Run(Start(current), inputs[..n]), inputs[n..]); }
  }

  /** No input comes after the one that settles the prompt. */
  ghost predicate Listening(current: Option<nat>, inputs: seq<Input>) {
    inputs != [] ==> !Run(Start(current), inputs[..|inputs| - 1]).settled
  }

  lemma ListeningBefore(current: Option<nat>, inputs: seq<Input>, n: nat)
    requires n <= |inputs| && Listening(current, inputs)
    ensures Listening(current, inputs[..n])
    ensures n < |inputs| ==> !Run(Start(current), inputs[..n]).settled
  {
    if n < |inputs| {
      var front := inputs[..|inputs| - 1];
      UnsettledBefore(current, front, n);
      assert front[..n] == inputs[..n];
      if n > 0 { UnsettledBefore(current, inputs[..n], n - 1); }
    } else {
      assert inputs[..n] == inputs;
    }
  }

  ghost predicate AllHarmless(inputs: seq<Input>) {
    forall n :: 0 <= n < |inputs| ==> Harmless(inputs[..n], inputs[n])
  }

  lemma {:induction false} ExactWhileHarmless(current: Option<nat>, inputs: seq<Input>)
    requires Listening(current, inputs) && AllHarmless(inputs)
    ensures Exact(Run(Start(current), inputs), inputs)
    ensures !Run(Start(current), inputs).settled ==> Tracked(Run(Start(current), inputs), inputs)
  {
    if inputs != [] {
      var n := |inputs| - 1;
      var front, x := inputs[..n], inputs[n];
      var s := Run(Start(current), front);
      assert inputs == front + [x];
      ListeningBefore(current, inputs, n);
      SettledOnceHolds(current, front);
      forall i | 0 <= i < |front| ensures Harmless(front[..i], front[i]) { assert front[..i] == inputs[..i]; }
      ExactWhileHarmless(current, front);
      assert Harmless(front, x);
      StepKeepsKeys(s, front, x);
      StepKeepsAccumulated(s, front, x);
      forall t: nat, r: string ensures Shown(Step(s, x).out, Wire(t, r)) == CardOf(inputs, t, r) {
        if x.Sdk? && FromMain(x.agentId) && IsArguments(x.event) {
          assert AccumulatedAt(s.args, front, r);
          ArgumentsShow(s, front, x, t, r);
        } else {
          OthersShow(s, front, x, t, r);
        }
      }
    }
  }

  lemma AppendCancels(a: string, b: string, c: string)
    requires a + c == b + c
    ensures a == b
  {
    assert a == (a + c)[..|a + c| - |c|] == b;
  }

  lemma HarmfulDeltaShowsOtherText(s: State, inputs: seq<Input>, x: Input)
    requires SettledOnce(s) && !s.settled && Tracked(s, inputs) && Exact(s, inputs) && !Harmless(inputs, x)
    ensures !Exact(Step(s, x), inputs + [x])
  {
    var t, r, part := x.event.turnId, x.event.callId, x.event.part.GetOr("");
    assert AccumulatedAt(s.args, inputs, r);
    assert Shown(s.out, Wire(t, r)) == CardOf(inputs, t, r);
    OnDeltaShows(Track(s, x.event), x.event, Wire(t, r));
    CallOfSnoc(inputs, x, t, r);
    var a, b := s.args[r] + part, ArgsOf(inputs, t, r) + part;
    if a == b { AppendCancels(s.args[r], ArgsOf(inputs, t, r), part); }
    assert [TextBlock(a)][0] != [TextBlock(b)][0];
    assert Shown(Step(s, x).out, Wire(t, r)) != CardOf(inputs + [x], t, r);
  }

  ghost predicate ExactThroughout(current: Option<nat>, inputs: seq<Input>) {
    forall n :: 0 <= n <= |inputs| ==> Exact(Run(Start(current), inputs[..n]), inputs[..n])
  }

  lemma HarmlessBefore(inputs: seq<Input>, n: nat)
    requires n <= |inputs| && forall i :: 0 <= i < n ==> Harmless(inputs[..i], inputs[i])
    ensures AllHarmless(inputs[..n])
  {
    forall i | 0 <= i < n ensures Harmless(inputs[..n][..i], inputs[..n][i]) {
      assert inputs[..n][..i] == inputs[..i];
    }
  }

  lemma HarmlessIsExactThroughout(current: Option<nat>, inputs: seq<Input>)
    requires Listening(current, inputs) && AllHarmless(inputs)
    ensures ExactThroughout(current, inputs)
  {
    forall n | 0 <= n <= |inputs| ensures Exact(Run(Start(current), inputs[..n]), inputs[..n]) {
      ListeningBefore(current, inputs, n);
      HarmlessBefore(inputs, n);
      ExactWhileHarmless(current, inputs[..n]);
    }
  }

  lemma FirstHarmShows(current: Option<nat>, inputs: seq<Input>, n: nat)
    requires Listening(current, inputs) && n < |inputs| && !Harmless(inputs[..n], inputs[n])
    requires forall i :: 0 <= i < n ==> Harmless(inputs[..i], inputs[i])
    ensures !Exact(Run(Start(current), inputs[..n + 1]), inputs[..n + 1])
  {
    var front, x := inputs[..n], inputs[n];
    ListeningBefore(current, inputs, n);
    SettledOnceHolds(current, front);
    HarmlessBefore(inputs, n);
    ExactWhileHarmless(current, front);
    HarmfulDeltaShowsOtherText(Run(Start(current), front), front, x);
    RunSnoc(Start(current), front, x);
    assert inputs[..n + 1] == front + [x];
  }

  /**
   * The client shows every call's own accumulated arguments after every input if and only if no delta continues
   * a call whose raw id another turn has used since with different text.
   */
  lemma ClientIsExactIff(current: Option<nat>, inputs: seq<Input>)
    requires Listening(current, inputs)
    ensures ExactThroughout(current, inputs) <==> AllHarmless(inputs)
  {
    if AllHarmless(inputs) {
      HarmlessIsExactThroughout(current, inputs);
    } else {
      var n := FirstHarmful(inputs);
      FirstHarmShows(current, inputs, n);
    }
  }

  lemma {:induction false} FirstHarmful(inputs: seq<Input>) returns (n: nat)
    requires !AllHarmless(inputs)
    ensures n < |inputs| && !Harmless(inputs[..n], inputs[n])
    ensures forall i :: 0 <= i < n ==> Harmless(inputs[..i], inputs[i])
  {
    n := 0;
    while Harmless(inputs[..n], inputs[n])
      invariant n < |inputs|
      invariant forall i :: 0 <= i < n ==> Harmless(inputs[..i], inputs[i])
      decreases |inputs| - n
    {
      n := n + 1;
    }
  }

  /** The turns that use a raw id never go backwards. */
  ghost predicate TurnsGoForward(inputs: seq<Input>) {
    forall m, n, r: string ::
      0 <= m <= n <= |inputs| && LastTurn(inputs[..m], r).Some? && LastTurn(inputs[..n], r).Some? ==>
        LastTurn(inputs[..m], r).value <= LastTurn(inputs[..n], r).value
  }

  lemma {:induction false} KnownCallHasPassed(inputs: seq<Input>, t: nat, r: string)
    requires CallOf(inputs, t, r).Some?
    ensures exists n :: 0 <= n <= |inputs| && LastTurn(inputs[..n], r) == Some(t)
  {
    var front := inputs[..|inputs| - 1];
    var x := inputs[|inputs| - 1];
    if CallOf(front, t, r).Some? {
      KnownCallHasPassed(front, t, r);
      var n :| 0 <= n <= |front| && LastTurn(front[..n], r) == Some(t);
      assert front[..n] == inputs[..n];
    } else {
      assert About(x, t, r) && IsArguments(x.event);
      assert inputs[..|inputs|] == inputs;
    }
  }

  /** What the adapter still hears: everything up to the input that settles the prompt. */
  function Heard(current: Option<nat>, inputs: seq<Input>): seq<Input> {
    if inputs == [] || !Run(Start(current), inputs[..|inputs| - 1]).settled then inputs
    else Heard(current, inputs[..|inputs| - 1])
  }

  lemma {:induction false} HeardDecidesTheRun(current: Option<nat>, inputs: seq<Input>)
    ensures Listening(current, Heard(current, inputs))
    ensures Run(Start(current), Heard(current, inputs)) == Run(Start(current), inputs)
  {
    if inputs != [] && Run(Start(current), inputs[..|inputs| - 1]).settled {
      HeardDecidesTheRun(current, inputs[..|inputs| - 1]);
      SettledOnceHolds(current, inputs[..|inputs| - 1]);
    }
  }

  lemma ForwardTurnsAreHarmless(inputs: seq<Input>)
    requires TurnsGoForward(inputs)
    ensures AllHarmless(inputs)
  {
    forall n | 0 <= n < |inputs| ensures Harmless(inputs[..n], inputs[n]) {
      var front, x := inputs[..n], inputs[n];
      if x.Sdk? && FromMain(x.agentId) && x.event.ToolDelta? {
        var t, r := x.event.turnId, x.event.callId;
        if CallOf(front, t, r).Some? && LastTurn(front, r).Some? {
          assert inputs[..n + 1] == front + [x];
          CallOfSnoc(front, x, t, r);
          assert LastTurn(inputs[..n], r).value <= LastTurn(inputs[..n + 1], r).value == t;
          KnownCallHasPassed(front, t, r);
          var k :| 0 <= k <= n && LastTurn(front[..k], r) == Some(t);
          assert front[..k] == inputs[..k];
        }
      }
    }
  }

  /** In every run whose turns go forward the client shows every call's own accumulated arguments. */
  lemma ForwardTurnsAreShownExactly(current: Option<nat>, inputs: seq<Input>)
    requires TurnsGoForward(Heard(current, inputs))
    ensures Exact(Run(Start(current), inputs), Heard(current, inputs))
  {
    HeardDecidesTheRun(current, inputs);
    ForwardTurnsAreHarmless(Heard(current, inputs));
    ExactWhileHarmless(current, Heard(current, inputs));
  }

  function Delta(t: nat, r: string, text: string): Input {
    Sdk(None, ToolDelta(t, r, None, Some(text)))
  }

  lemma DeltaAt(before: seq<Input>, t: nat, u: nat, r: string, text: string)
    ensures var after := before + [Delta(u, r, text)];
            && (u != t ==> CallOf(after, t, r) == CallOf(before, t, r))
            && (u == t ==> CallOf(after, t, r).Some? && ArgsOf(after, t, r) == ArgsOf(before, t, r) + text)
  {
    CallOfSnoc(before, Delta(u, r, text), t, r);
    assert "" + text == text;
  }

  lemma BackwardTurnBuffer(t: nat, u: nat, r: string, p: string, q: string, z: string)
    requires t != u
    ensures ArgsOf([Delta(t, r, p), Delta(u, r, q), Delta(t, r, z)], t, r) == p + z
  {
    var none: seq<Input> := [];
    var one := none + [Delta(t, r, p)];
    var two := one + [Delta(u, r, q)];
    DeltaAt(none, t, t, r, p);
    DeltaAt(one, t, u, r, q);
    DeltaAt(two, t, t, r, z);
    assert ArgsOf(none, t, r) + p == p;
    assert [Delta(t, r, p), Delta(u, r, q), Delta(t, r, z)] == two + [Delta(t, r, z)];
  }

  lemma NewCallRun(s: State, t: nat, r: string, p: string, id: string)
    requires s.subscribed && Wire(t, r) !in s.started && Shown(s.out, Wire(t, r)).None?
    ensures var s' := Step(s, Delta(t, r, p));
            && s'.subscribed && s'.started == s.started + {Wire(t, r)} && s'.args == s.args[r := p]
            && Shown(s'.out, id) == if id == Wire(t, r)
                                    then Some(Card("tool", OtherKind, Pending, [TextBlock(p)], None, None))
                                    else Shown(s.out, id)
  {
    var e := Delta(t, r, p).event;
    OnDeltaShows(Track(s, e), e, id);
  }

  lemma TwoTurnsRun(t: nat, u: nat, r: string, p: string, q: string)
    requires t != u
    ensures var s := Run(Start(None), [Delta(t, r, p), Delta(u, r, q)]);
            && s.subscribed && Wire(t, r) in s.started && r in s.args && s.args[r] == q
            && Shown(s.out, Wire(t, r)) == Some(Card("tool", OtherKind, Pending, [TextBlock(p)], None, None))
  {
    var d1, d2 := Delta(t, r, p), Delta(u, r, q);
    assert [d1] == [] + [d1] && [d1, d2] == [d1] + [d2];
    WireInjective(t, r, u, r);
    RunSnoc(Start(None), [], d1);
    RunSnoc(Start(None), [d1], d2);
    NewCallRun(Start(None), t, r, p, Wire(t, r));
    NewCallRun(Start(None), t, r, p, Wire(u, r));
    NewCallRun(Step(Start(None), d1), u, r, q, Wire(t, r));
  }

  /** Without that order the client is shown another turn's text: three deltas of one raw id suffice. */
  lemma BackwardTurnShowsOtherText(t: nat, u: nat, r: string, p: string, q: string, z: string)
    requires t != u
    ensures var inputs := [Delta(t, r, p), Delta(u, r, q), Delta(t, r, z)];
            && ArgsOf(inputs, t, r) == p + z
            && Shown(Run(Start(None), inputs).out, Wire(t, r))
               == Some(Card("tool", OtherKind, InProgress, [TextBlock(q + z)], None, None))
  {
    BackwardTurnBuffer(t, u, r, p, q, z);
    TwoTurnsRun(t, u, r, p, q);
    var two, d3 := [Delta(t, r, p), Delta(u, r, q)], Delta(t, r, z);
    RunSnoc(Start(None), two, d3);
    assert [Delta(t, r, p), Delta(u, r, q), Delta(t, r, z)] == two + [d3];
    ShownSnoc(Run(Start(None), two).out, DeltaNote(d3.event, q + z), Wire(t, r));
  }

  // ---------- What the buffer of a call holds ----------

  function PartsFor(t: nat, r: string): Input -> string {
    (x: Input) => if About(x, t, r) && x.event.ToolDelta? then x.event.part.GetOr("") else ""
  }

  lemma PartsSnoc(after: seq<Input>, x: Input, t: nat, r: string)
    ensures FlatMap(PartsFor(t, r), after + [x]) == FlatMap(PartsFor(t, r), after) + PartsFor(t, r)(x)
  {
    FlatMapAppend(PartsFor(t, r), after, [x]);
    FlatMapOne(PartsFor(t, r), x);
  }

  lemma CallGainsOnePart(before: seq<Input>, x: Input, t: nat, r: string)
    requires CallOf(before, t, r).Some? && (About(x, t, r) ==> !x.event.ToolStarted?)
    ensures CallOf(before + [x], t, r).Some?
    ensures ArgsOf(before + [x], t, r) == ArgsOf(before, t, r) + PartsFor(t, r)(x)
  {
    CallOfSnoc(before, x, t, r);
  }

  lemma TextsInOrder(x: string, y: string, z: string)
    ensures (x + y) + z == x + (y + z) && x + "" == x
  {
  }

  /** From any point on, until it is started again, a call gains exactly its own delta parts, in order. */
  lemma {:induction false} CallGainsItsParts(before: seq<Input>, after: seq<Input>, t: nat, r: string)
    requires CallOf(before, t, r).Some?
    requires forall i :: 0 <= i < |after| && About(after[i], t, r) ==> !after[i].event.ToolStarted?
    ensures CallOf(before + after, t, r).Some?
    ensures ArgsOf(before + after, t, r) == ArgsOf(before, t, r) + FlatMap(PartsFor(t, r), after)
  {
    if after == [] {
      assert before + after == before;
      TextsInOrder(ArgsOf(before, t, r), "", "");
    } else {
      var front, x := after[..|after| - 1], after[|after| - 1];
      assert after == front + [x];
      assert before + after == (before + front) + [x];
      CallGainsItsParts(before, front, t, r);
      CallGainsOnePart(before + front, x, t, r);
      PartsSnoc(front, x, t, r);
      TextsInOrder(ArgsOf(before, t, r), FlatMap(PartsFor(t, r), front), PartsFor(t, r)(x));
    }
  }

  /** A started call holds its canonical arguments and then its later parts; the card ends with that text. */
  lemma StartedCallHolds(before: seq<Input>, start: Input, after: seq<Input>, t: nat, r: string)
    requires About(start, t, r) && start.event.ToolStarted?
    requires forall i :: 0 <= i < |after| && About(after[i], t, r) ==>
               !after[i].event.ToolStarted? && !after[i].event.ToolResult?
    ensures ArgsOf(before + [start] + after, t, r) == start.event.args.text + FlatMap(PartsFor(t, r), after)
    ensures var card := CardOf(before + [start] + after, t, r);
            card.Some? && card.value.content != []
            && card.value.content[|card.value.content| - 1] == TextBlock(ArgsOf(before + [start] + after, t, r))
  {
    CallOfSnoc(before, start, t, r);
    CallGainsItsParts(before + [start], after, t, r);
    CardEndsWithArguments(before + [start], after, t, r);
  }

  lemma {:induction false} CardEndsWithArguments(before: seq<Input>, after: seq<Input>, t: nat, r: string)
    requires CallOf(before, t, r).Some? && EndsWithArguments(CallOf(before, t, r).value)
    requires forall i :: 0 <= i < |after| && About(after[i], t, r) ==> !after[i].event.ToolResult?
    ensures CallOf(before + after, t, r).Some? && EndsWithArguments(CallOf(before + after, t, r).value)
  {
    if after == [] {
      assert before + after == before;
    } else {
      var front, x := after[..|after| - 1], after[|after| - 1];
      assert before + after == (before + front) + [x];
      CardEndsWithArguments(before, front, t, r);
      CallOfSnoc(before + front, x, t, r);
    }
  }

  predicate EndsWithArguments(c: Call) {
    c.card.content != [] && c.card.content[|c.card.content| - 1] == TextBlock(c.args)
  }

  // ---------- What the cards say ----------

  function KindOf(name: string): ToolKind {
    if name == "Read" || name == "Glob" || name == "Grep" then ReadKind
    else if name == "Write" || name == "Edit" then EditKind
    else if name == "Bash" || name == "Terminal" then ExecuteKind
    else if name == "WebFetch" || name == "WebSearch" then FetchKind
    else if name == "Think" then ThinkKind
    else OtherKind
  }

  /** After its start a call is shown with its description or name, its arguments, and its diff if it has one. */
  lemma StartedCardSays(front: seq<Input>, x: Input, t: nat, r: string)
    requires About(x, t, r) && x.event.ToolStarted?
    ensures var e, before, card := x.event, CardOf(front, t, r), CardOf(front + [x], t, r);
            var text := TextBlock(e.args.text);
            && card.Some? && card.value.status == InProgress && card.value.kind == KindOf(e.name)
            && card.value.title == (if e.description.Some? then e.description.value else e.name)
            && card.value.rawInput == Some(e.args)
            && card.value.rawOutput == (if before.Some? then before.value.rawOutput else None)
            && card.value.content == match e.display
                                     case Some(DiffDisplay(diff)) => [DiffBlock(diff), text]
                                     case _ => [text]
  {
    CallOfSnoc(front, x, t, r);
  }

  /** The first delta opens a pending card; a later one only puts it in progress and replaces its text. */
  lemma DeltaCardSays(front: seq<Input>, x: Input, t: nat, r: string)
    requires About(x, t, r) && x.event.ToolDelta?
    ensures var e, before := x.event, CallOf(front, t, r);
            var part := if e.part.Some? then e.part.value else "";
            CardOf(front + [x], t, r)
            == match before
               case None =>
                 Some(Card(if e.toolName.Some? then e.toolName.value else "tool",
                           if e.toolName.Some? then KindOf(e.toolName.value) else OtherKind,
                           Pending, [TextBlock(part)], None, None))
               case Some(c) =>
                 Some(Card(c.card.title, c.card.kind, InProgress, [TextBlock(c.args + part)], c.card.rawInput,
                           c.card.rawOutput))
  {
    CallOfSnoc(front, x, t, r);
  }

  /** Progress changes the title, when it is a status with a text; a result replaces status, content and raw output. */
  lemma LaterCardSays(front: seq<Input>, x: Input, t: nat, r: string)
    requires About(x, t, r) && (x.event.ToolProgress? || x.event.ToolResult?)
    ensures var e, before := x.event, CardOf(front, t, r);
            CardOf(front + [x], t, r)
            == match before
               case None => None
               case Some(c) =>
                 Some(if e.ToolResult? then
                        Card(c.title, c.kind, if e.isError then FailedStatus else Done, e.blocks, c.rawInput,
                             Some(e.output))
                      else if e.kind == "status" && e.status.Some? && e.status.value != "" then
                        Card(e.status.value, c.kind, c.status, c.content, c.rawInput, c.rawOutput)
                      else c)
  {
    CallOfSnoc(front, x, t, r);
  }

  // ---------- What else is sent ----------

  function MessageOf(n: Note): seq<string> {
    if n.MessageChunk? then [n.text] else []
  }

  function ThoughtOf(n: Note): seq<string> {
    if n.ThoughtChunk? then [n.text] else []
  }

  function PlanOf(n: Note): seq<seq<(string, Status)>> {
    if n.Plan? then [n.entries] else []
  }

  function SaysMessage(x: Input): seq<string> {
    if OfMain(x) && x.event.AssistantDelta? then [x.event.text] else []
  }

  function SaysThought(x: Input): seq<string> {
    if OfMain(x) && x.event.ThinkingDelta? then [x.event.text] else []
  }

  function PlanStatus(status: string): Status {
    if status == "done" || status == "completed" then Done else if status == "in_progress" then InProgress else Pending
  }

  function SaysPlan(x: Input): seq<seq<(string, Status)>> {
    if OfMain(x) && x.event.ToolStarted? && x.event.display.Some? && x.event.display.value.TodoDisplay?
       && |x.event.display.value.items| > 0 then
      var items := x.event.display.value.items;
      [seq(|items|, i requires 0 <= i < |items| => (items[i].title, PlanStatus(items[i].status)))]
    else []
  }

  /** What the notifications say besides the cards is what the inputs say. */
  ghost predicate Says(out: seq<Note>, inputs: seq<Input>) {
    && FlatMap(MessageOf, out) == FlatMap(SaysMessage, inputs)
    && FlatMap(ThoughtOf, out) == FlatMap(SaysThought, inputs)
    && FlatMap(PlanOf, out) == FlatMap(SaysPlan, inputs)
  }

  lemma SaysMore(out: seq<Note>, n: Note)
    ensures FlatMap(MessageOf, out + [n]) == FlatMap(MessageOf, out) + MessageOf(n)
    ensures FlatMap(ThoughtOf, out + [n]) == FlatMap(ThoughtOf, out) + ThoughtOf(n)
    ensures FlatMap(PlanOf, out + [n]) == FlatMap(PlanOf, out) + PlanOf(n)
  {
    FlatMapAppend(MessageOf, out, [n]);
    FlatMapAppend(ThoughtOf, out, [n]);
    FlatMapAppend(PlanOf, out, [n]);
    FlatMapOne(MessageOf, n);
    FlatMapOne(ThoughtOf, n);
    FlatMapOne(PlanOf, n);
  }

  lemma HearsMore(inputs: seq<Input>, x: Input)
    ensures FlatMap(SaysMessage, inputs + [x]) == FlatMap(SaysMessage, inputs) + SaysMessage(x)
    ensures FlatMap(SaysThought, inputs + [x]) == FlatMap(SaysThought, inputs) + SaysThought(x)
    ensures FlatMap(SaysPlan, inputs + [x]) == FlatMap(SaysPlan, inputs) + SaysPlan(x)
  {
    FlatMapAppend(SaysMessage, inputs, [x]);
    FlatMapAppend(SaysThought, inputs, [x]);
    FlatMapAppend(SaysPlan, inputs, [x]);
    FlatMapOne(SaysMessage, x);
    FlatMapOne(SaysThought, x);
    FlatMapOne(SaysPlan, x);
  }

  lemma PlanSays(x: Input)
    requires OfMain(x) && x.event.ToolStarted?
    ensures PlanNotes(x.event.display) == if SaysPlan(x) == [] then [] else [Plan(SaysPlan(x)[0])]
  {
    if SaysPlan(x) != [] {
      assert PlanEntries(x.event.display.value.items) == SaysPlan(x)[0];
    }
  }

  lemma CardNoteSaysNothing(out: seq<Note>, n: Note)
    requires n.Create? || n.Update?
    ensures FlatMap(MessageOf, out + [n]) == FlatMap(MessageOf, out)
    ensures FlatMap(ThoughtOf, out + [n]) == FlatMap(ThoughtOf, out)
    ensures FlatMap(PlanOf, out + [n]) == FlatMap(PlanOf, out)
  {
    SaysMore(out, n);
  }

  lemma PlanNoteSaysPlan(out: seq<Note>, entries: seq<(string, Status)>)
    ensures FlatMap(MessageOf, out + [Plan(entries)]) == FlatMap(MessageOf, out)
    ensures FlatMap(ThoughtOf, out + [Plan(entries)]) == FlatMap(ThoughtOf, out)
    ensures FlatMap(PlanOf, out + [Plan(entries)]) == FlatMap(PlanOf, out) + [entries]
  {
    SaysMore(out, Plan(entries));
  }

  lemma StartSends(s: State, x: Input)
    requires s.subscribed && OfMain(x) && x.event.ToolStarted?
    ensures var note, plan := StartNote(s.started, x.event), SaysPlan(x);
            && (note.Create? || note.Update?) && |plan| <= 1
            && Step(s, x).out == if plan == [] then s.out + [note] else (s.out + [note]) + [Plan(plan[0])]
  {
    var note, plans := StartNote(s.started, x.event), PlanNotes(x.event.display);
    PlanSays(x);
    assert Step(s, x).out == s.out + ([note] + plans);
    if plans == [] {
      assert [note] + plans == [note];
    } else {
      assert s.out + ([note] + plans) == (s.out + [note]) + plans;
    }
  }

  lemma OnlyPlanHeard(inputs: seq<Input>, x: Input)
    requires OfMain(x) && x.event.ToolStarted?
    ensures FlatMap(SaysMessage, inputs + [x]) == FlatMap(SaysMessage, inputs)
    ensures FlatMap(SaysThought, inputs + [x]) == FlatMap(SaysThought, inputs)
    ensures FlatMap(SaysPlan, inputs + [x]) == FlatMap(SaysPlan, inputs) + SaysPlan(x)
  {
    HearsMore(inputs, x);
    assert SaysMessage(x) == [] && SaysThought(x) == [];
  }

  lemma StartSays(s: State, inputs: seq<Input>, x: Input)
    requires s.subscribed && Says(s.out, inputs) && OfMain(x) && x.event.ToolStarted?
    ensures Says(Step(s, x).out, inputs + [x])
  {
    var note, plan := StartNote(s.started, x.event), SaysPlan(x);
    StartSends(s, x);
    OnlyPlanHeard(inputs, x);
    CardNoteSaysNothing(s.out, note);
    if plan == [] {
      assert FlatMap(SaysPlan, inputs) + plan == FlatMap(SaysPlan, inputs);
    } else {
      PlanNoteSaysPlan(s.out + [note], plan[0]);
      assert plan == [plan[0]];
    }
  }

  lemma ChunkSays(s: State, inputs: seq<Input>, x: Input)
    requires s.subscribed && Says(s.out, inputs) && OfMain(x) && (x.event.AssistantDelta? || x.event.ThinkingDelta?)
    ensures Says(Step(s, x).out, inputs + [x])
  {
    var note := if x.event.AssistantDelta? then MessageChunk(x.event.text) else ThoughtChunk(x.event.text);
    assert Step(s, x).out == s.out + [note];
    HearsMore(inputs, x);
    SaysMore(s.out, note);
    assert SaysMessage(x) == MessageOf(note) && SaysThought(x) == ThoughtOf(note) && SaysPlan(x) == PlanOf(note);
  }

  predicate Quiet(x: Input) {
    !(OfMain(x) && (x.event.ToolStarted? || x.event.AssistantDelta? || x.event.ThinkingDelta?))
  }

  lemma QuietSays(s: State, inputs: seq<Input>, x: Input)
    requires SettledOnce(s) && !s.settled && Says(s.out, inputs) && Quiet(x)
    ensures Says(Step(s, x).out, inputs + [x])
  {
    NothingHeard(inputs, x);
    if OfMain(x) { OtherNotesSayNothing(s, x); }
  }

  lemma NothingHeard(inputs: seq<Input>, x: Input)
    requires Quiet(x)
    ensures FlatMap(SaysMessage, inputs + [x]) == FlatMap(SaysMessage, inputs)
    ensures FlatMap(SaysThought, inputs + [x]) == FlatMap(SaysThought, inputs)
    ensures FlatMap(SaysPlan, inputs + [x]) == FlatMap(SaysPlan, inputs)
  {
    HearsMore(inputs, x);
    assert SaysMessage(x) == [] && SaysThought(x) == [] && SaysPlan(x) == [];
  }

  lemma StepSays(s: State, inputs: seq<Input>, x: Input)
    requires SettledOnce(s) && !s.settled && Says(s.out, inputs)
    ensures Says(Step(s, x).out, inputs + [x])
  {
    if Quiet(x) {
      QuietSays(s, inputs, x);
    } else if x.event.ToolStarted? {
      StartSays(s, inputs, x);
    } else {
      ChunkSays(s, inputs, x);
    }
  }

  /** Other events send at most one notification, about a card. */
  lemma OtherNotes(s: State, x: Input) returns (notes: seq<Note>)
    requires s.subscribed && OfMain(x)
    requires !x.event.ToolStarted? && !x.event.AssistantDelta? && !x.event.ThinkingDelta?
    ensures Step(s, x).out == s.out + notes && (notes == [] || (|notes| == 1 && (notes[0].Create? || notes[0].Update?)))
  {
    var e := x.event;
    notes := if e.ToolDelta? then OnDelta(Track(s, e), e).out[|s.out|..]
             else if e.ToolProgress? then ProgressNotes(e)
             else if e.ToolResult? then [ResultNote(e)]
             else [];
  }

  lemma OtherNotesSayNothing(s: State, x: Input)
    requires s.subscribed && OfMain(x)
    requires !x.event.ToolStarted? && !x.event.AssistantDelta? && !x.event.ThinkingDelta?
    ensures FlatMap(MessageOf, Step(s, x).out) == FlatMap(MessageOf, s.out)
    ensures FlatMap(ThoughtOf, Step(s, x).out) == FlatMap(ThoughtOf, s.out)
    ensures FlatMap(PlanOf, Step(s, x).out) == FlatMap(PlanOf, s.out)
  {
    var notes := OtherNotes(s, x);
    if notes == [] {
      assert s.out + notes == s.out;
    } else {
      assert notes == [notes[0]];
      CardNoteSaysNothing(s.out, notes[0]);
    }
  }

  /**
   * In every run the client is sent exactly the main agent's texts, thoughts and todo lists that the prompt hears,
   * in order and each once.
   */
  lemma {:induction false} EverythingHeardIsSaid(current: Option<nat>, inputs: seq<Input>)
    ensures Says(Run(Start(current), inputs).out, Heard(current, inputs))
  {
    if inputs != [] {
      var front, x := inputs[..|inputs| - 1], inputs[|inputs| - 1];
      var s := Run(Start(current), front);
      EverythingHeardIsSaid(current, front);
      SettledOnceHolds(current, front);
      if !s.settled {
        assert inputs == front + [x] && Heard(current, inputs) == inputs;
        UnsettledIsHeard(current, front);
        StepSays(s, front, x);
      }
    }
  }

  lemma UnsettledIsHeard(current: Option<nat>, inputs: seq<Input>)
    requires !Run(Start(current), inputs).settled
    ensures Heard(current, inputs) == inputs
  {
    if inputs != [] { UnsettledBefore(current, inputs, |inputs| - 1); }
  }

  // ---------- The current turn ----------

  /** The turn of the latest event of the main agent that has one. */
  function LatestTurn(current: Option<nat>, inputs: seq<Input>): Option<nat> {
    if inputs == [] then current
    else
      var x := inputs[|inputs| - 1];
      if !OfMain(x) || x.event.ErrorEvent? || (x.event.OtherEvent? && x.event.turn.None?) then
        LatestTurn(current, inputs[..|inputs| - 1])
      else if x.event.OtherEvent? then x.event.turn
      else Some(x.event.turnId)
  }

  lemma StepTurn(s: State, x: Input)
    requires SettledOnce(s) && !s.settled
    ensures Step(s, x).current
         == if Step(s, x).settled && x.Sdk? then None
            else if !OfMain(x) || x.event.ErrorEvent? || (x.event.OtherEvent? && x.event.turn.None?) then s.current
            else if x.event.OtherEvent? then x.event.turn else Some(x.event.turnId)
  {
    if x.Sdk? && x.event.ToolStarted? {
      assert OnStarted(Track(s, x.event), x.event).current == Track(s, x.event).current;
    } else if x.Sdk? && x.event.ToolDelta? {
      assert OnDelta(Track(s, x.event), x.event).current == Track(s, x.event).current;
    }
  }

  /**
   * While the prompt is pending the current turn is the one the main agent's latest event named. An event that
   * settles the prompt forgets it; the rejection of the starting call does not.
   */
  lemma {:induction false} CurrentTurnIsLatest(current: Option<nat>, inputs: seq<Input>, x: Input)
    ensures !Run(Start(current), inputs).settled ==> Run(Start(current), inputs).current == LatestTurn(current, inputs)
    ensures !Run(Start(current), inputs).settled && Run(Start(current), inputs + [x]).settled ==>
              Run(Start(current), inputs + [x]).current == if x.Sdk? then None else LatestTurn(current, inputs)
  {
    var s := Run(Start(current), inputs);
    SettledOnceHolds(current, inputs);
    RunSnoc(Start(current), inputs, x);
    if !s.settled {
      if inputs != [] {
        var front, y := inputs[..|inputs| - 1], inputs[|inputs| - 1];
        UnsettledBefore(current, inputs, |inputs| - 1);
        CurrentTurnIsLatest(current, front, y);
        SettledOnceHolds(current, front);
        StepTurn(Run(Start(current), front), y);
      }
      StepTurn(s, x);
    }
  }
}
