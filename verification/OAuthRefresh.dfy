/**
 * The token refresh protocol: any number of `doEnsureFresh` calls, in any number of processes, share one
 * token file, one cross-process lock and one authorization server that rotates refresh tokens.
 *
 * A state is everything that survives an `await`; a step is what one call (or the environment) does
 * between two of them. Every way the protocol can be disturbed is a step too: a reply lost after the server
 * accepted the exchange, a request that arrives after its call gave up, a crash, a failed save, a lock broken
 * under a live holder, and a login or logout in the middle of a refresh. Those steps clear the history variable
 * `clean`, so the theorems say which disturbances they exclude, and the lemmas at the end show that each
 * exclusion is needed.
 */
module OAuthRefresh {
  import opened Wrappers

  // ---------- Tokens ----------

  datatype TokenInfo = TokenInfo(accessToken: string, refreshToken: string, expiresAt: int,
                                 scope: string, tokenType: string, expiresIn: int)

  datatype TokenState = Valid(token: TokenInfo) | Revoked(scope: string, tokenType: string) | Missing

  function ClassifyToken(token: Option<TokenInfo>): TokenState {
    match token
    case None => Missing
    case Some(t) => if |t.accessToken| == 0 then Revoked(t.scope, t.tokenType) else Valid(t)
  }

  function RevokedTombstone(prior: TokenInfo): TokenInfo {
    TokenInfo("", "", 0, prior.scope, prior.tokenType, 0)
  }

  const MIN_REFRESH_THRESHOLD_SECONDS := 300.0
  const REFRESH_THRESHOLD_RATIO := 0.5

  function DefaultRefreshThreshold(expiresIn: int): real {
    if expiresIn > 0 && expiresIn as real * REFRESH_THRESHOLD_RATIO > MIN_REFRESH_THRESHOLD_SECONDS
    then expiresIn as real * REFRESH_THRESHOLD_RATIO
    else MIN_REFRESH_THRESHOLD_SECONDS
  }

  predicate ShouldRefreshToken(token: TokenInfo, force: bool, now: int) {
    force
    || (token.expiresAt != 0 && (token.expiresAt - now) as real < DefaultRefreshThreshold(token.expiresIn))
  }

  /** The comparison of a forced call: has anything but scope and type changed since the snapshot? */
  predicate ChangedWhileWaiting(after: TokenInfo, snapshot: TokenInfo) {
    after.refreshToken != snapshot.refreshToken || after.accessToken != snapshot.accessToken
    || after.expiresAt != snapshot.expiresAt || after.expiresIn != snapshot.expiresIn
  }

  // ---------- States ----------

  type Proc = nat

  /** What one `doEnsureFresh` call carries across its awaits: its pre-lock snapshot and its flag. */
  datatype Call = Call(snapshot: TokenInfo, force: bool)

  datatype Outcome = Token(accessToken: string) | Unauthorized | Failed

  datatype Pc =
    | Idle
    | Waiting(call: Call)                                            // acquiring the lock
    | Locked(call: Call)                                             // lock held, not yet re-read
    | Exchanging(call: Call, active: TokenInfo)                      // request on its way
    | Exchanged(call: Call, active: TokenInfo, issued: TokenInfo)     // reply in hand, not yet saved
    | Rejected(call: Call, active: TokenInfo)                        // 401, about to re-read
    | Tombstoning(call: Call, active: TokenInfo)                     // about to write the tombstone
    | Releasing(outcome: Outcome)                                    // in the `finally`
    | Done(outcome: Outcome)

  predicate Critical(pc: Pc) {
    pc.Locked? || pc.Exchanging? || pc.Exchanged? || pc.Rejected? || pc.Tombstoning? || pc.Releasing?
  }

  predicate Active(pc: Pc) {
    pc.Waiting? || Critical(pc)
  }

  /** The server's side of one login: the refresh token it will accept next, and those it accepted before. */
  datatype Server = Server(live: string, revoked: bool, spent: set<string>)

  /** One refresh token shown to the server, and whether it was the current one at that moment. */
  datatype Presentation = Presentation(proc: Proc, call: Call, refreshToken: string, current: bool, accepted: bool)

  datatype World = World(stored: Option<TokenInfo>, holder: Option<Proc>, procs: map<Proc, Pc>, server: Server,
                         presented: seq<Presentation>, clean: bool)

  ghost predicate Init(w: World) {
    && (w.stored.Some? ==> w.stored.value.accessToken != "" && w.stored.value.refreshToken == w.server.live)
    && w.holder == None
    && (forall p :: p in w.procs ==> w.procs[p] == Idle)
    && !w.server.revoked && w.server.spent == {}
    && w.presented == [] && w.clean
  }

  // ---------- Steps ----------

  datatype Step =
    | Start(p: Proc, force: bool, now: int)
    | Acquire(p: Proc)
    | AcquireFail(p: Proc)
    | Recheck(p: Proc, now: int)
    | Accept(p: Proc, issued: TokenInfo)
    | Reject(p: Proc)
    | NetworkFail(p: Proc)
    | StorageFail(p: Proc)
    | Save(p: Proc)
    | Recover(p: Proc)
    | WriteTombstone(p: Proc)
    | Release(p: Proc)
    | Revoke
    | Login(issued: TokenInfo)
    | Logout
    // disturbances
    | LoseReply(p: Proc, issued: TokenInfo, retry: bool)
    | SaveFail(p: Proc)
    | Crash(p: Proc)
    | LateArrival(refreshToken: string, issued: TokenInfo)
    | BreakLock

  /** A token response: `tokenFromResponse` demands all three fields, and the server never reissues a token. */
  predicate FreshResponse(server: Server, t: TokenInfo) {
    t.accessToken != "" && t.refreshToken != "" && t.expiresIn > 0
    && t.refreshToken != server.live && t.refreshToken !in server.spent
  }

  function Rotate(server: Server, t: TokenInfo): Server {
    server.(live := t.refreshToken, spent := server.spent + {server.live})
  }

  function At(w: World, p: Proc, pc: Pc): World {
    w.(procs := w.procs[p := pc])
  }

  predicate Quiescent(w: World) {
    forall p :: p in w.procs ==> !Active(w.procs[p])
  }

  function StartStep(w: World, p: Proc, force: bool, now: int): World {
    match ClassifyToken(w.stored)
    case Missing => At(w, p, Done(Unauthorized))
    case Revoked(_, _) => At(w, p, Done(Unauthorized))
    case Valid(token) =>
      if !ShouldRefreshToken(token, force, now) then At(w, p, Done(Token(token.accessToken)))
      else At(w, p, Waiting(Call(token, force)))
  }

  function BeginExchange(w: World, p: Proc, call: Call, active: TokenInfo): World {
    if |active.refreshToken| == 0 then At(w, p, Releasing(Unauthorized))
    else At(w, p, Exchanging(call, active))
  }

  function RecheckStep(w: World, p: Proc, call: Call, now: int): World {
    match ClassifyToken(w.stored)
    case Revoked(_, _) => At(w, p, Releasing(Unauthorized))
    case Missing => BeginExchange(w, p, call, call.snapshot)
    case Valid(after) =>
      if !ShouldRefreshToken(after, call.force, now) then At(w, p, Releasing(Token(after.accessToken)))
      else if call.force && ChangedWhileWaiting(after, call.snapshot) then
        At(w, p, Releasing(Token(after.accessToken)))
      else BeginExchange(w, p, call, after)
  }

  function RecoverStep(w: World, p: Proc, call: Call, active: TokenInfo): World {
    match ClassifyToken(w.stored)
    case Valid(t) =>
      if t.refreshToken != active.refreshToken then At(w, p, Releasing(Token(t.accessToken)))
      else At(w, p, Tombstoning(call, active))
    case _ => At(w, p, Tombstoning(call, active))
  }

  predicate Accepts(server: Server, refreshToken: string) {
    !server.revoked && server.live == refreshToken
  }

  function Present(w: World, p: Proc, call: Call, active: TokenInfo, accepted: bool): World {
    w.(presented := w.presented
                    + [Presentation(p, call, active.refreshToken, active.refreshToken == w.server.live, accepted)])
  }

  /** The step of the call `p` itself; `None` when `p` is not at the place the step starts from. */
  function ProcStep(w: World, p: Proc, pc: Pc, s: Step): Option<World> {
    match s
    case Start(_, force, now) => if Active(pc) then None else Some(StartStep(w, p, force, now))
    case Acquire(_) =>
      if pc.Waiting? && w.holder == None then Some(At(w, p, Locked(pc.call)).(holder := Some(p))) else None
    case AcquireFail(_) => if pc.Waiting? then Some(At(w, p, Done(Failed))) else None
    case Recheck(_, now) => if pc.Locked? then Some(RecheckStep(w, p, pc.call, now)) else None
    case Accept(_, issued) =>
      if pc.Exchanging? && Accepts(w.server, pc.active.refreshToken) && FreshResponse(w.server, issued)
      then Some(At(Present(w, p, pc.call, pc.active, true), p, Exchanged(pc.call, pc.active, issued))
                .(server := Rotate(w.server, issued)))
      else None
    case Reject(_) =>
      if pc.Exchanging? && !Accepts(w.server, pc.active.refreshToken)
      then Some(At(Present(w, p, pc.call, pc.active, false), p, Rejected(pc.call, pc.active)))
      else None
    case NetworkFail(_) => if pc.Exchanging? then Some(At(w, p, Releasing(Failed))) else None
    case StorageFail(_) =>
      // a read or the write of the tombstone throws
      if !Active(pc) then Some(At(w, p, Done(Failed)))
      else if pc.Locked? || pc.Rejected? || pc.Tombstoning? then Some(At(w, p, Releasing(Failed)))
      else None
    case Save(_) =>
      if pc.Exchanged? then Some(At(w, p, Releasing(Token(pc.issued.accessToken))).(stored := Some(pc.issued)))
      else None
    case Recover(_) => if pc.Rejected? then Some(RecoverStep(w, p, pc.call, pc.active)) else None
    case WriteTombstone(_) =>
      if pc.Tombstoning?
      then Some(At(w, p, Releasing(Unauthorized)).(stored := Some(RevokedTombstone(pc.active))))
      else None
    case Release(_) =>
      if pc.Releasing?
      then Some(At(w, p, Done(pc.outcome)).(holder := if w.holder == Some(p) then None else w.holder))
      else None
    case LoseReply(_, issued, retry) =>
      if pc.Exchanging? && Accepts(w.server, pc.active.refreshToken) && FreshResponse(w.server, issued)
      then Some(At(Present(w, p, pc.call, pc.active, true), p, if retry then pc else Releasing(Failed))
                .(server := Rotate(w.server, issued), clean := false))
      else None
    case SaveFail(_) => if pc.Exchanged? then Some(At(w, p, Releasing(Failed)).(clean := false)) else None
    case Crash(_) =>
      // the dead holder's lock goes stale and is broken
      Some(At(w, p, Idle).(holder := if w.holder == Some(p) then None else w.holder,
                           clean := w.clean && !pc.Exchanged?))
    case _ => None
  }

  function Next(w: World, s: Step): Option<World> {
    match s
    case Revoke => Some(w.(server := w.server.(revoked := true)))
    case Login(issued) =>
      if FreshResponse(w.server, issued)
      then Some(w.(stored := Some(issued), server := Rotate(w.server, issued).(revoked := false),
                   clean := w.clean && Quiescent(w)))
      else None
    case Logout => Some(w.(stored := None, clean := w.clean && Quiescent(w)))
    case LateArrival(refreshToken, issued) =>
      if Accepts(w.server, refreshToken) && FreshResponse(w.server, issued)
      then Some(w.(server := Rotate(w.server, issued), clean := false))
      else None
    case BreakLock => Some(w.(holder := None, clean := w.clean && w.holder == None))
    case _ => if s.p in w.procs then ProcStep(w, s.p, w.procs[s.p], s) else None
  }

  /** The state after a whole run; `None` when some step of it is not enabled. */
  function Run(w: World, steps: seq<Step>): Option<World>
    decreases |steps|
  {
    if steps == [] then Some(w)
    else match Next(w, steps[0])
      case None => None
      case Some(w') => Run(w', steps[1..])
  }

  // ---------- The invariant ----------

  ghost predicate Mutex(w: World) {
    && (forall p :: p in w.procs && Critical(w.procs[p]) ==> w.holder == Some(p))
    && (w.holder.Some? ==> w.holder.value in w.procs && Critical(w.procs[w.holder.value]))
  }

  /** What each place of a call knows about the token file and the server. */
  ghost predicate PcInv(w: World, pc: Pc) {
    match pc
    case Waiting(call) => w.stored.Some? && Known(w.server, call.snapshot)
    case Locked(call) => w.stored.Some? && Known(w.server, call.snapshot)
    case Exchanging(call, active) =>
      w.stored == Some(active) && active.accessToken != "" && ForcedSame(call, active)
    case Exchanged(call, active, issued) =>
      w.stored == Some(active) && active.accessToken != "" && active.refreshToken in w.server.spent
      && issued.accessToken != "" && issued.refreshToken == w.server.live
    case Rejected(call, active) => w.stored == Some(active) && active.accessToken != "" && w.server.revoked
    case Tombstoning(call, active) => w.stored == Some(active) && active.accessToken != "" && w.server.revoked
    case _ => true
  }

  ghost predicate Known(server: Server, t: TokenInfo) {
    t.refreshToken == server.live || t.refreshToken in server.spent
  }

  ghost predicate ForcedSame(call: Call, active: TokenInfo) {
    call.force ==> !ChangedWhileWaiting(active, call.snapshot)
  }

  /** A fresh token is in the hands of the lock holder and not yet on disk. */
  ghost predicate SavePending(w: World) {
    w.holder.Some? && w.holder.value in w.procs && w.procs[w.holder.value].Exchanged?
  }

  /** The token file: current unless a save is pending; a tombstone only after the server revoked. */
  ghost predicate StorageInv(w: World) {
    match ClassifyToken(w.stored)
    case Missing => true
    case Revoked(_, _) => w.server.revoked && !SavePending(w)
    case Valid(t) => SavePending(w) || t.refreshToken == w.server.live
  }

  /** Every token shown was current; the accepted ones are spent and pairwise different. */
  ghost predicate HistoryInv(w: World) {
    && (forall i :: 0 <= i < |w.presented| ==> w.presented[i].current)
    && (forall i :: 0 <= i < |w.presented| ==> ForcedSnapshot(w.presented[i]))
    && (forall i :: 0 <= i < |w.presented| && w.presented[i].accepted ==>
          w.presented[i].refreshToken in w.server.spent)
    && (forall i, j :: 0 <= i < j < |w.presented| && w.presented[i].accepted && w.presented[j].accepted ==>
          w.presented[i].refreshToken != w.presented[j].refreshToken)
  }

  ghost predicate ForcedSnapshot(e: Presentation) {
    e.call.force ==> e.refreshToken == e.call.snapshot.refreshToken
  }

  ghost predicate Inv(w: World) {
    && Mutex(w)
    && (forall p :: p in w.procs ==> PcInv(w, w.procs[p]))
    && StorageInv(w)
    && HistoryInv(w)
    && w.server.live !in w.server.spent
  }

  /** A step that only moves one call keeps the invariant if its new place is justified. */
  lemma MoveKeepsInv(w: World, p: Proc, pc: Pc, holder: Option<Proc>)
    requires Inv(w) && p in w.procs
    requires PcInv(w, pc)
    requires Critical(pc) ==> holder == Some(p) && (w.holder == None || w.holder == Some(p))
    requires !Critical(pc) ==> holder == (if w.holder == Some(p) then None else w.holder)
    requires !pc.Exchanged? && !w.procs[p].Exchanged?
    ensures Inv(At(w, p, pc).(holder := holder))
  {
    var w' := At(w, p, pc).(holder := holder);
    assert forall q :: q in w.procs && q != p ==> w'.procs[q] == w.procs[q];
    assert forall q :: q in w.procs && q != p ==> PcInv(w', w.procs[q]);
  }

  lemma AcceptKeepsInv(w: World, p: Proc, issued: TokenInfo)
    requires Inv(w) && p in w.procs && w.procs[p].Exchanging?
    requires ProcStep(w, p, w.procs[p], Accept(p, issued)).Some?
    ensures Inv(ProcStep(w, p, w.procs[p], Accept(p, issued)).value)
  {
    var w' := ProcStep(w, p, w.procs[p], Accept(p, issued)).value;
    assert forall q :: q in w.procs && q != p ==> w'.procs[q] == w.procs[q] && !Critical(w.procs[q]);
  }

  lemma RejectKeepsInv(w: World, p: Proc)
    requires Inv(w) && p in w.procs && w.procs[p].Exchanging?
    requires ProcStep(w, p, w.procs[p], Reject(p)).Some?
    ensures Inv(ProcStep(w, p, w.procs[p], Reject(p)).value)
  {
    var w' := ProcStep(w, p, w.procs[p], Reject(p)).value;
    assert forall q :: q in w.procs && q != p ==> w'.procs[q] == w.procs[q] && !Critical(w.procs[q]);
  }

  /** The two writes of the token file, by the lock holder. */
  lemma WriteKeepsInv(w: World, p: Proc, s: Step)
    requires Inv(w) && p in w.procs && (s.Save? || s.WriteTombstone?)
    requires ProcStep(w, p, w.procs[p], s).Some?
    ensures Inv(ProcStep(w, p, w.procs[p], s).value)
  {
    var w' := ProcStep(w, p, w.procs[p], s).value;
    assert forall q :: q in w.procs && q != p ==> w'.procs[q] == w.procs[q] && !Critical(w.procs[q]);
  }

  /** The other steps only move their call. */
  lemma OtherStepsMove(w: World, p: Proc, s: Step)
    requires Inv(w) && p in w.procs
    requires !s.Accept? && !s.Reject? && !s.Save? && !s.WriteTombstone?
    requires ProcStep(w, p, w.procs[p], s).Some? && ProcStep(w, p, w.procs[p], s).value.clean
    ensures w.clean
    ensures var w' := ProcStep(w, p, w.procs[p], s).value;
            && p in w'.procs && w' == At(w, p, w'.procs[p]).(holder := w'.holder)
            && PcInv(w, w'.procs[p]) && !w'.procs[p].Exchanged? && !w.procs[p].Exchanged?
            && (Critical(w'.procs[p]) ==> w'.holder == Some(p) && (w.holder == None || w.holder == Some(p)))
            && (!Critical(w'.procs[p]) ==> w'.holder == (if w.holder == Some(p) then None else w.holder))
  {
    assert PcInv(w, w.procs[p]);
  }

  lemma ProcStepKeepsInv(w: World, p: Proc, s: Step)
    requires Inv(w) && p in w.procs
    requires ProcStep(w, p, w.procs[p], s).Some? && ProcStep(w, p, w.procs[p], s).value.clean
    ensures w.clean && Inv(ProcStep(w, p, w.procs[p], s).value)
  {
    if s.Accept? {
      AcceptKeepsInv(w, p, s.issued);
    } else if s.Reject? {
      RejectKeepsInv(w, p);
    } else if s.Save? || s.WriteTombstone? {
      WriteKeepsInv(w, p, s);
    } else {
      var w' := ProcStep(w, p, w.procs[p], s).value;
      OtherStepsMove(w, p, s);
      MoveKeepsInv(w, p, w'.procs[p], w'.holder);
    }
  }

  /** Every undisturbed step of any call or of the environment keeps the invariant. */
  lemma StepKeepsInv(w: World, s: Step)
    requires Inv(w) && Next(w, s).Some? && Next(w, s).value.clean
    ensures w.clean && Inv(Next(w, s).value)
  {
    match s
    case Revoke =>
    case Login(_) =>
    case Logout =>
    case BreakLock =>
    case LateArrival(_, _) =>
    case _ => ProcStepKeepsInv(w, s.p, s);
  }

  // ---------- Whole runs ----------

  lemma {:induction false} CleanFromTheStart(w: World, steps: seq<Step>)
    requires Run(w, steps).Some? && Run(w, steps).value.clean
    ensures w.clean
    decreases |steps|
  {
    if steps != [] {
      CleanFromTheStart(Next(w, steps[0]).value, steps[1..]);
    }
  }

  /** The invariant survives every undisturbed run: any calls, any interleaving, any length. */
  lemma {:induction false} RunKeepsInv(w: World, steps: seq<Step>)
    requires Inv(w)
    requires Run(w, steps).Some? && Run(w, steps).value.clean
    ensures Inv(Run(w, steps).value)
    decreases |steps|
  {
    if steps != [] {
      var w1 := Next(w, steps[0]).value;
      CleanFromTheStart(w1, steps[1..]);
      StepKeepsInv(w, steps[0]);
      RunKeepsInv(w1, steps[1..]);
    }
  }

  /**
   * Safety. In every undisturbed run from a fresh start: at most one call is between lock and release; the
   * token file holds the server's current refresh token unless the holder has a reply to save; a tombstone
   * is there only if the server revoked the login; and no call ever showed a spent token to the server.
   */
  lemma RefreshIsSafe(w: World, steps: seq<Step>, w': World)
    requires Init(w) && Run(w, steps) == Some(w') && w'.clean
    ensures forall p, q :: p in w'.procs && q in w'.procs && Critical(w'.procs[p]) && Critical(w'.procs[q]) ==> p == q
    ensures ClassifyToken(w'.stored).Valid? && !SavePending(w') ==> w'.stored.value.refreshToken == w'.server.live
    ensures SavePending(w') ==> w'.stored.Some? && w'.stored.value.refreshToken in w'.server.spent
    ensures ClassifyToken(w'.stored).Revoked? ==> w'.server.revoked
    ensures forall e :: e in w'.presented ==> e.current
    ensures forall e :: e in w'.presented && e.accepted ==> e.refreshToken in w'.server.spent
    ensures w'.server.live !in w'.server.spent
  {
    RunKeepsInv(w, steps);
  }

  /** No call has got past its re-read of the token file. */
  ghost predicate NothingUnderWay(w: World) {
    forall p :: p in w.procs ==>
      var pc := w.procs[p]; !pc.Exchanging? && !pc.Exchanged? && !pc.Rejected? && !pc.Tombstoning?
  }

  lemma TombstoneStops(w: World)
    requires Inv(w) && ClassifyToken(w.stored).Revoked?
    ensures NothingUnderWay(w)
  {
    forall p | p in w.procs
      ensures var pc := w.procs[p]; !pc.Exchanging? && !pc.Exchanged? && !pc.Rejected? && !pc.Tombstoning?
    {
      assert PcInv(w, w.procs[p]);
    }
  }

  lemma StepKeepsTombstone(w: World, s: Step)
    requires NothingUnderWay(w) && ClassifyToken(w.stored).Revoked? && Next(w, s).Some?
    requires !s.Login? && !s.Logout?
    ensures Next(w, s).value.stored == w.stored && NothingUnderWay(Next(w, s).value)
  {
  }

  lemma {:induction false} TombstoneStays(w: World, steps: seq<Step>)
    requires NothingUnderWay(w) && ClassifyToken(w.stored).Revoked? && Run(w, steps).Some?
    requires forall s :: s in steps ==> !s.Login? && !s.Logout?
    ensures Run(w, steps).value.stored == w.stored
    decreases |steps|
  {
    if steps != [] {
      assert steps[0] in steps;
      StepKeepsTombstone(w, steps[0]);
      TombstoneStays(Next(w, steps[0]).value, steps[1..]);
    }
  }

  /** A tombstone outlives every continuation without a login or logout, whatever else goes wrong in it. */
  lemma TombstonePersists(w: World, steps: seq<Step>)
    requires Inv(w) && ClassifyToken(w.stored).Revoked? && Run(w, steps).Some?
    requires forall s :: s in steps ==> !s.Login? && !s.Logout?
    ensures Run(w, steps).value.stored == w.stored
  {
    TombstoneStops(w);
    TombstoneStays(w, steps);
  }

  /**
   * Forced refreshes. What a forced call shows the server is its own pre-lock snapshot, so of all forced
   * calls that started from one snapshot at most one exchange is ever accepted.
   */
  lemma OneForcedExchangePerSnapshot(w: World, steps: seq<Step>, w': World, i: nat, j: nat)
    requires Init(w) && Run(w, steps) == Some(w') && w'.clean
    requires i < |w'.presented| && j < |w'.presented|
    requires w'.presented[i].call.force && w'.presented[i].accepted
    ensures w'.presented[i].refreshToken == w'.presented[i].call.snapshot.refreshToken
    ensures (&& w'.presented[j].call.force && w'.presented[j].accepted
             && w'.presented[j].call.snapshot == w'.presented[i].call.snapshot) ==> i == j
  {
    RunKeepsInv(w, steps);
    var a, b := if i < j then i else j, if i < j then j else i;
    assert ForcedSnapshot(w'.presented[i]) && ForcedSnapshot(w'.presented[j]);
    if i != j && w'.presented[j].accepted {
      assert w'.presented[a].refreshToken != w'.presented[b].refreshToken;
    }
  }

  /**
   * A forced call whose snapshot has been rotated away meanwhile never gets as far as the server: holding the
   * lock, its next step either returns the stored access token or reports the tombstone.
   */
  lemma LateForcedCallReturnsStoredToken(w: World, steps: seq<Step>, w': World, p: Proc, now: int)
    requires Init(w) && Run(w, steps) == Some(w') && w'.clean
    requires p in w'.procs
    ensures w'.procs[p].Exchanging? && w'.procs[p].call.force ==>
              w'.procs[p].call.snapshot.refreshToken !in w'.server.spent
    ensures (&& w'.procs[p].Locked? && w'.procs[p].call.force
             && w'.procs[p].call.snapshot.refreshToken in w'.server.spent) ==>
              && Next(w', Recheck(p, now)).Some?
              && w'.stored.Some?
              && Next(w', Recheck(p, now)).value
                 == At(w', p, Releasing(if w'.stored.value.accessToken == "" then Unauthorized
                                        else Token(w'.stored.value.accessToken)))
  {
    RunKeepsInv(w, steps);
    assert PcInv(w', w'.procs[p]);
  }

  // ---------- What a call returns ----------

  /** The steps of a call that read the token file. */
  predicate Reads(s: Step, p: Proc) {
    (s.Start? || s.Recheck? || s.Recover?) && s.p == p
  }

  /** What the call found at its last read of the token file. */
  function LastRead(w: World, steps: seq<Step>, p: Proc): Option<TokenInfo>
    requires Run(w, steps).Some?
  {
    if steps == [] then None
    else
      var n := |steps| - 1;
      RunBefore(w, steps, n);
      if Reads(steps[n], p) then Run(w, steps[..n]).value.stored else LastRead(w, steps[..n], p)
  }

  /** The token that the server issued to the call since it started. */
  function Issued(steps: seq<Step>, p: Proc): Option<TokenInfo> {
    if steps == [] then None
    else
      var s := steps[|steps| - 1];
      if s.Accept? && s.p == p then Some(s.issued)
      else if (s.Start? || s.Crash?) && s.p == p then None
      else Issued(steps[..|steps| - 1], p)
  }

  /** The call saved this token in the course of the run. */
  ghost predicate Saved(w: World, steps: seq<Step>, p: Proc, t: TokenInfo) {
    exists k :: 0 <= k < |steps| && steps[k] == Save(p) && Run(w, steps[..k + 1]).Some?
                && Run(w, steps[..k + 1]).value.stored == Some(t)
  }

  /** The call recorded a rejection of `prior`, keeping its scope and type and nothing else. */
  ghost predicate Recorded(w: World, steps: seq<Step>, p: Proc, prior: TokenInfo) {
    exists k :: 0 <= k < |steps| && steps[k] == WriteTombstone(p) && Run(w, steps[..k + 1]).Some?
                && Run(w, steps[..k + 1]).value.stored
                   == Some(TokenInfo("", "", 0, prior.scope, prior.tokenType, 0))
  }

  /** One of the steps by which a call fails without being told that its token is no good. */
  predicate Fails(s: Step, p: Proc) {
    && (s.AcquireFail? || s.NetworkFail? || s.StorageFail? || s.SaveFail? || (s.LoseReply? && !s.retry)) && s.p == p
  }

  lemma {:induction false} RunBefore(w: World, steps: seq<Step>, n: nat)
    requires Run(w, steps).Some? && n <= |steps|
    ensures Run(w, steps[..n]).Some?
    ensures Run(w, steps) == Run(Run(w, steps[..n]).value, steps[n..])
    decreases n
  {
    if n > 0 {
      var w1 := Next(w, steps[0]).value;
      RunBefore(w1, steps[1..], n - 1);
      assert steps[1..][..n - 1] == steps[..n][1..] && steps[1..][n - 1..] == steps[n..];
    } else {
      assert steps[..0] == [] && steps[0..] == steps;
    }
  }

  lemma RunLast(w: World, steps: seq<Step>)
    requires Run(w, steps).Some? && steps != []
    ensures var n := |steps| - 1;
            Run(w, steps[..n]).Some? && Next(Run(w, steps[..n]).value, steps[n]) == Run(w, steps)
  {
    var n := |steps| - 1;
    RunBefore(w, steps, n);
    assert steps[n..][0] == steps[n] && steps[n..][1..] == [];
  }

  /** Where a returned token comes from: the accepted exchange, and then it was saved, or else the last read. */
  ghost predicate Returns(w: World, steps: seq<Step>, p: Proc, a: string)
    requires Run(w, steps).Some?
  {
    match Issued(steps, p)
    case Some(t) => a == t.accessToken && Saved(w, steps, p, t)
    case None => LastRead(w, steps, p).Some? && LastRead(w, steps, p).value.accessToken == a && a != ""
  }

  /**
   * Where an unauthorized call comes from: it read no token or a tombstone, or the token to be presented lacks a
   * refresh token, or its token was rejected and that was recorded.
   */
  ghost predicate Unauthorizes(w: World, steps: seq<Step>, p: Proc)
    requires Run(w, steps).Some?
  {
    || LastRead(w, steps, p).None? || LastRead(w, steps, p).value.accessToken == ""
    || LastRead(w, steps, p).value.refreshToken == ""
    || exists prior :: Recorded(w, steps, p, prior) && Presented(Run(w, steps).value, p, prior.refreshToken)
  }

  /** The call has shown this refresh token to the server, which did not accept it. */
  ghost predicate Presented(w: World, p: Proc, refreshToken: string) {
    exists i :: 0 <= i < |w.presented| && w.presented[i].proc == p && w.presented[i].refreshToken == refreshToken
                && !w.presented[i].accepted
  }

  ghost predicate OutcomeExplained(w: World, steps: seq<Step>, p: Proc, o: Outcome)
    requires Run(w, steps).Some?
  {
    match o
    case Token(a) => Returns(w, steps, p, a)
    case Unauthorized => Unauthorizes(w, steps, p)
    case Failed => exists k :: 0 <= k < |steps| && Fails(steps[k], p)
  }

  ghost predicate Explained(w: World, steps: seq<Step>, p: Proc, pc: Pc)
    requires Run(w, steps).Some?
  {
    match pc
    case Idle => true
    case Waiting(call) => Issued(steps, p).None?
    case Locked(call) => Issued(steps, p).None?
    case Exchanging(_, _) => Issued(steps, p).None?
    case Exchanged(_, _, issued) => Issued(steps, p) == Some(issued)
    case Rejected(_, active) => Issued(steps, p).None? && Presented(Run(w, steps).value, p, active.refreshToken)
    case Tombstoning(_, active) => Issued(steps, p).None? && Presented(Run(w, steps).value, p, active.refreshToken)
    case Releasing(o) => OutcomeExplained(w, steps, p, o)
    case Done(o) => OutcomeExplained(w, steps, p, o)
  }

  predicate StepOf(s: Step, p: Proc) {
    !s.Revoke? && !s.Login? && !s.Logout? && !s.LateArrival? && !s.BreakLock? && s.p == p
  }

  /** The presentations only grow. */
  lemma PresentedStays(w: World, s: Step, p: Proc, refreshToken: string)
    requires Next(w, s).Some? && Presented(w, p, refreshToken)
    ensures Presented(Next(w, s).value, p, refreshToken)
  {
    var i :| 0 <= i < |w.presented| && w.presented[i].proc == p && w.presented[i].refreshToken == refreshToken
             && !w.presented[i].accepted;
    assert Next(w, s).value.presented[i] == w.presented[i];
  }

  lemma HistoryStays(w: World, front: seq<Step>, s: Step, p: Proc)
    requires Run(w, front).Some? && Run(w, front + [s]).Some?
    ensures forall t :: Saved(w, front, p, t) ==> Saved(w, front + [s], p, t)
    ensures forall t :: Recorded(w, front, p, t) ==> Recorded(w, front + [s], p, t)
    ensures (exists k :: 0 <= k < |front| && Fails(front[k], p)) ==>
              exists k :: 0 <= k < |front + [s]| && Fails((front + [s])[k], p)
  {
    var steps := front + [s];
    assert forall k :: 0 <= k < |front| ==> steps[k] == front[k] && steps[..k + 1] == front[..k + 1];
    if k :| 0 <= k < |front| && Fails(front[k], p) { assert Fails(steps[k], p); }
  }

  lemma RunSnoc(w: World, front: seq<Step>, s: Step)
    requires Run(w, front).Some? && Next(Run(w, front).value, s).Some?
    ensures Run(w, front + [s]) == Next(Run(w, front).value, s)
  {
    RunAppend(w, front, [s]);
    assert [s][1..] == [];
  }

  lemma OutcomeStays(w: World, front: seq<Step>, s: Step, p: Proc, o: Outcome)
    requires Run(w, front).Some? && Next(Run(w, front).value, s).Some? && Run(w, front + [s]).Some?
    requires Run(w, front + [s]) == Next(Run(w, front).value, s)
    requires !Reads(s, p) && !(s.Accept? && s.p == p) && !((s.Start? || s.Crash?) && s.p == p)
    requires OutcomeExplained(w, front, p, o)
    ensures OutcomeExplained(w, front + [s], p, o)
  {
    var steps := front + [s];
    assert steps[..|front|] == front && steps[|front|] == s;
    HistoryStays(w, front, s, p);
    assert Issued(steps, p) == Issued(front, p) && LastRead(w, steps, p) == LastRead(w, front, p);
    if o.Unauthorized? {
      if prior :| Recorded(w, front, p, prior) && Presented(Run(w, front).value, p, prior.refreshToken) {
        PresentedStays(Run(w, front).value, s, p, prior.refreshToken);
      }
    }
  }

  /** What other calls and the environment do leaves a call's place explained. */
  lemma OthersKeepExplained(w: World, front: seq<Step>, s: Step, p: Proc, pc: Pc)
    requires Run(w, front).Some? && Next(Run(w, front).value, s).Some? && Run(w, front + [s]).Some?
    requires Run(w, front + [s]) == Next(Run(w, front).value, s)
    requires !StepOf(s, p) && Explained(w, front, p, pc)
    ensures Explained(w, front + [s], p, pc)
  {
    var steps := front + [s];
    assert steps[..|front|] == front && steps[|front|] == s;
    assert Issued(steps, p) == Issued(front, p);
    if pc.Releasing? || pc.Done? {
      OutcomeStays(w, front, s, p, pc.outcome);
    } else if pc.Rejected? || pc.Tombstoning? {
      PresentedStays(Run(w, front).value, s, p, pc.active.refreshToken);
    }
  }

  lemma OwnWriteExplained(w: World, front: seq<Step>, s: Step, p: Proc)
    requires Run(w, front).Some? && Next(Run(w, front).value, s).Some? && Run(w, front + [s]).Some?
    requires Run(w, front + [s]) == Next(Run(w, front).value, s)
    requires StepOf(s, p) && p in Run(w, front).value.procs && p in Run(w, front + [s]).value.procs
    requires Explained(w, front, p, Run(w, front).value.procs[p])
    requires s.Save? || s.WriteTombstone?
    ensures Explained(w, front + [s], p, Run(w, front + [s]).value.procs[p])
  {
    var steps, before := front + [s], Run(w, front).value;
    var pc := before.procs[p];
    assert steps[..|front|] == front && steps[|front|] == s && steps[..|front| + 1] == steps;
    if s.Save? {
      assert Saved(w, steps, p, pc.issued);
    } else {
      PresentedStays(before, s, p, pc.active.refreshToken);
      assert Recorded(w, steps, p, pc.active);
    }
  }

  lemma OwnRejectionExplained(w: World, front: seq<Step>, s: Step, p: Proc)
    requires Run(w, front).Some? && Next(Run(w, front).value, s).Some? && Run(w, front + [s]).Some?
    requires Run(w, front + [s]) == Next(Run(w, front).value, s)
    requires StepOf(s, p) && p in Run(w, front).value.procs && p in Run(w, front + [s]).value.procs
    requires Explained(w, front, p, Run(w, front).value.procs[p])
    requires s.Reject? || s.Recover?
    ensures Explained(w, front + [s], p, Run(w, front + [s]).value.procs[p])
  {
    var steps, before, after := front + [s], Run(w, front).value, Run(w, front + [s]).value;
    assert steps[..|front|] == front && steps[|front|] == s;
    if s.Reject? {
      assert after.presented[|before.presented|].proc == p;
    } else {
      PresentedStays(before, s, p, before.procs[p].active.refreshToken);
    }
  }

  lemma OwnReadExplained(w: World, front: seq<Step>, s: Step, p: Proc)
    requires Run(w, front).Some? && Next(Run(w, front).value, s).Some? && Run(w, front + [s]).Some?
    requires Run(w, front + [s]) == Next(Run(w, front).value, s)
    requires StepOf(s, p) && p in Run(w, front).value.procs && p in Run(w, front + [s]).value.procs
    requires Explained(w, front, p, Run(w, front).value.procs[p])
    requires s.Start? || s.Recheck?
    ensures Explained(w, front + [s], p, Run(w, front + [s]).value.procs[p])
  {
    var steps := front + [s];
    assert steps[..|front|] == front && steps[|front|] == s;
  }

  lemma OwnMoveExplained(w: World, front: seq<Step>, s: Step, p: Proc)
    requires Run(w, front).Some? && Next(Run(w, front).value, s).Some? && Run(w, front + [s]).Some?
    requires Run(w, front + [s]) == Next(Run(w, front).value, s)
    requires StepOf(s, p) && p in Run(w, front).value.procs && p in Run(w, front + [s]).value.procs
    requires Explained(w, front, p, Run(w, front).value.procs[p])
    requires !Reads(s, p) && !s.Save? && !s.WriteTombstone? && !s.Reject? && !s.Release?
    ensures Explained(w, front + [s], p, Run(w, front + [s]).value.procs[p])
  {
    var steps := front + [s];
    assert steps[..|front|] == front && steps[|front|] == s;
    if Fails(s, p) { assert Fails(steps[|front|], p); }
  }

  /** The call's own step explains its new place. */
  lemma OwnStepExplained(w: World, front: seq<Step>, s: Step, p: Proc)
    requires Run(w, front).Some? && Next(Run(w, front).value, s).Some? && Run(w, front + [s]).Some?
    requires Run(w, front + [s]) == Next(Run(w, front).value, s)
    requires StepOf(s, p) && p in Run(w, front).value.procs && p in Run(w, front + [s]).value.procs
    requires Explained(w, front, p, Run(w, front).value.procs[p])
    ensures Explained(w, front + [s], p, Run(w, front + [s]).value.procs[p])
  {
    if s.Release? {
      OutcomeStays(w, front, s, p, Run(w, front).value.procs[p].outcome);
    } else if s.Save? || s.WriteTombstone? {
      OwnWriteExplained(w, front, s, p);
    } else if s.Reject? || s.Recover? {
      OwnRejectionExplained(w, front, s, p);
    } else if s.Start? || s.Recheck? {
      OwnReadExplained(w, front, s, p);
    } else {
      OwnMoveExplained(w, front, s, p);
    }
  }

  lemma {:induction false} EveryPlaceIsExplained(w: World, steps: seq<Step>, p: Proc)
    requires Run(w, steps).Some? && forall q :: q in w.procs ==> w.procs[q] == Idle
    requires p in Run(w, steps).value.procs
    ensures Explained(w, steps, p, Run(w, steps).value.procs[p])
  {
    if steps != [] {
      var n := |steps| - 1;
      var front, s := steps[..n], steps[n];
      RunLast(w, steps);
      assert steps == front + [s];
      assert p in Run(w, front).value.procs;
      EveryPlaceIsExplained(w, front, p);
      if StepOf(s, p) {
        OwnStepExplained(w, front, s, p);
      } else {
        OthersKeepExplained(w, front, s, p, Run(w, front).value.procs[p]);
        assert Run(w, steps).value.procs[p] == Run(w, front).value.procs[p];
      }
    }
  }

  /**
   * What a finished call returns, in every run, disturbed or not. A token is the access token that the server issued
   * to this very call, which the call then saved; or, without an exchange, that of the token file at its last read.
   */
  lemma ReturnedTokenIsIssuedOrRead(w: World, steps: seq<Step>, p: Proc, a: string)
    requires Run(w, steps).Some? && forall q :: q in w.procs ==> w.procs[q] == Idle
    requires p in Run(w, steps).value.procs && Run(w, steps).value.procs[p] == Done(Token(a))
    ensures match Issued(steps, p)
            case Some(t) => a == t.accessToken && Saved(w, steps, p, t)
            case None => LastRead(w, steps, p).Some? && a == LastRead(w, steps, p).value.accessToken && a != ""
  {
    EveryPlaceIsExplained(w, steps, p);
  }

  /** And why a call ends without one. */
  lemma FailureIsExplained(w: World, steps: seq<Step>, p: Proc)
    requires Run(w, steps).Some? && forall q :: q in w.procs ==> w.procs[q] == Idle
    requires p in Run(w, steps).value.procs
    ensures Run(w, steps).value.procs[p] == Done(Unauthorized) ==> Unauthorizes(w, steps, p)
    ensures Run(w, steps).value.procs[p] == Done(Failed) ==> exists k :: 0 <= k < |steps| && Fails(steps[k], p)
  {
    EveryPlaceIsExplained(w, steps, p);
  }

  // ---------- What the other steps do ----------

  /** The three kinds of a stored token. */
  lemma StoredTokenIs(token: Option<TokenInfo>)
    ensures ClassifyToken(token)
         == if token.None? then Missing
            else if token.value.accessToken == "" then Revoked(token.value.scope, token.value.tokenType)
            else Valid(token.value)
  {
  }

  /**
   * The server's side of an exchange: it is recorded with the token that was shown, as accepted exactly when the
   * server rotated, which it does only for its live token.
   */
  lemma ExchangeIsRecorded(w: World, s: Step)
    requires Next(w, s).Some?
    ensures var w' := Next(w, s).value;
            if s.Accept? || s.LoseReply? then
              s.p in w.procs && w.procs[s.p].Exchanging?
              && w'.presented
                 == w.presented + [Presentation(s.p, w.procs[s.p].call, w.server.live, true, true)]
              && w.procs[s.p].active.refreshToken == w.server.live && !w.server.revoked
              && w'.server == Server(s.issued.refreshToken, false, w.server.spent + {w.server.live})
            else if s.Reject? then
              s.p in w.procs && w.procs[s.p].Exchanging?
              && var shown := w.procs[s.p].active.refreshToken;
                 w'.presented
                 == w.presented + [Presentation(s.p, w.procs[s.p].call, shown, shown == w.server.live, false)]
                 && w'.server == w.server && (w.server.revoked || shown != w.server.live)
            else w'.presented == w.presented
  {
  }

  /** A login stores its token and starts afresh with the server; a logout only removes the file. */
  lemma LoginAndLogout(w: World, s: Step)
    requires (s.Login? || s.Logout?) && Next(w, s).Some?
    ensures var w' := Next(w, s).value;
            && w'.procs == w.procs && w'.holder == w.holder
            && (s.Login? ==> w'.stored == Some(s.issued)
                             && w'.server == Server(s.issued.refreshToken, false, w.server.spent + {w.server.live}))
            && (s.Logout? ==> w'.stored == None && w'.server == w.server)
  {
  }

  // ---------- When a call asks the server ----------

  /** Half of the token's life or five minutes, whichever is longer, is left; or the token does not expire. */
  predicate FreshEnough(t: TokenInfo, now: int) {
    t.expiresAt == 0 || (t.expiresAt - now >= 300 && 2 * (t.expiresAt - now) >= t.expiresIn)
  }

  /** The same token but for scope and type. */
  predicate SameToken(a: TokenInfo, b: TokenInfo) {
    a.refreshToken == b.refreshToken && a.accessToken == b.accessToken && a.expiresAt == b.expiresAt
    && a.expiresIn == b.expiresIn
  }

  /** Starting: a call waits for the lock exactly when there is a token that is forced or not fresh enough. */
  lemma StartDecides(w: World, p: Proc, force: bool, now: int)
    requires p in w.procs && !Active(w.procs[p])
    ensures Next(w, Start(p, force, now)).Some?
    ensures var pc := Next(w, Start(p, force, now)).value.procs[p];
            if w.stored.None? || w.stored.value.accessToken == "" then pc == Done(Unauthorized)
            else if !force && FreshEnough(w.stored.value, now) then pc == Done(Token(w.stored.value.accessToken))
            else pc == Waiting(Call(w.stored.value, force))
  {
  }

  /** With the lock: what is exchanged, if anything is. A forced call exchanges its own snapshot or nothing. */
  lemma RecheckDecides(w: World, p: Proc, now: int)
    requires p in w.procs && w.procs[p].Locked?
    ensures Next(w, Recheck(p, now)).Some?
    ensures var call, pc := w.procs[p].call, Next(w, Recheck(p, now)).value.procs[p];
            if w.stored.None? then pc == ExchangeOf(call, call.snapshot)
            else if w.stored.value.accessToken == "" then pc == Releasing(Unauthorized)
            else if if call.force then SameToken(w.stored.value, call.snapshot) else !FreshEnough(w.stored.value, now)
            then pc == ExchangeOf(call, w.stored.value)
            else pc == Releasing(Token(w.stored.value.accessToken))
  {
  }

  function ExchangeOf(call: Call, t: TokenInfo): Pc {
    if t.refreshToken == "" then Releasing(Unauthorized) else Exchanging(call, t)
  }

  /** After a rejection: another token found on disk is returned, and otherwise the rejection is recorded. */
  lemma RecoverDecides(w: World, p: Proc)
    requires p in w.procs && w.procs[p].Rejected?
    ensures Next(w, Recover(p)).Some?
    ensures var pc, active := Next(w, Recover(p)).value.procs[p], w.procs[p].active;
            if w.stored.Some? && w.stored.value.accessToken != "" && w.stored.value.refreshToken != active.refreshToken
            then pc == Releasing(Token(w.stored.value.accessToken))
            else pc == Tombstoning(w.procs[p].call, active)
  {
  }

  // ---------- Each excluded disturbance is needed ----------

  const OLD := TokenInfo("a0", "r0", 0, "", "Bearer", 900)
  const NEW := TokenInfo("a1", "r1", 0, "", "Bearer", 900)
  const NEWER := TokenInfo("a2", "r2", 0, "", "Bearer", 900)

  const TWO_CALLS := World(Some(OLD), None, map[0 := Idle, 1 := Idle], Server("r0", false, {}), [], true)

  ghost predicate Reaches(w: World, w': World) {
    exists steps :: Run(w, steps) == Some(w')
  }

  lemma {:induction false} RunAppend(w: World, before: seq<Step>, rest: seq<Step>)
    requires Run(w, before).Some?
    ensures Run(w, before + rest) == Run(Run(w, before).value, rest)
    decreases |before|
  {
    if before == [] {
      assert before + rest == rest;
    } else {
      assert (before + rest)[1..] == before[1..] + rest;
      RunAppend(Next(w, before[0]).value, before[1..], rest);
    }
  }

  lemma Then(start: World, w: World, s: Step) returns (w': World)
    requires Reaches(start, w) && Next(w, s).Some?
    ensures w' == Next(w, s).value && Reaches(start, w')
  {
    var steps :| Run(start, steps) == Some(w);
    w' := Next(w, s).value;
    RunAppend(start, steps, [s]);
    assert Run(w, [s]) == Some(w');
  }

  /** An idle call that forces a refresh while the lock is free gets as far as the server. */
  lemma ToExchange(start: World, w0: World, p: Proc) returns (w: World)
    requires Reaches(start, w0) && w0.stored == Some(OLD) && w0.holder == None
    requires p in w0.procs && w0.procs[p] == Idle
    ensures Reaches(start, w)
    ensures w == At(w0, p, Exchanging(Call(OLD, true), OLD)).(holder := Some(p))
  {
    w := Then(start, w0, Start(p, true, 0));
    w := Then(start, w, Acquire(p));
    w := Then(start, w, Recheck(p, 0));
    assert w.procs == w0.procs[p := Exchanging(Call(OLD, true), OLD)];
  }

  lemma FirstToExchange() returns (w: World)
    ensures Init(TWO_CALLS) && Reaches(TWO_CALLS, w)
    ensures w == At(TWO_CALLS, 0, Exchanging(Call(OLD, true), OLD)).(holder := Some(0))
  {
    assert Run(TWO_CALLS, []) == Some(TWO_CALLS);
    w := ToExchange(TWO_CALLS, TWO_CALLS, 0);
  }

  ghost predicate ShowedSpentToken(w: World) {
    exists i :: 0 <= i < |w.presented| && !w.presented[i].current
  }

  /** A call whose token the server has retired meanwhile is about to show a spent one. */
  lemma SpentTokenIsShown(start: World, w0: World, p: Proc, call: Call) returns (w: World)
    requires Reaches(start, w0) && p in w0.procs && w0.procs[p] == Exchanging(call, OLD)
    requires w0.server.live != OLD.refreshToken
    ensures Reaches(start, w) && ShowedSpentToken(w)
    ensures p in w.procs && w.procs[p] == Rejected(call, OLD) && w.stored == w0.stored && w.server == w0.server
  {
    w := Then(start, w0, Reject(p));
    assert !w.presented[|w0.presented|].current;
  }

  lemma RejectionIsRecorded(start: World, w0: World, p: Proc, call: Call) returns (w: World)
    requires Reaches(start, w0) && p in w0.procs && w0.procs[p] == Rejected(call, OLD) && w0.stored == Some(OLD)
    ensures Reaches(start, w) && ClassifyToken(w.stored).Revoked?
    ensures w.server == w0.server && w.presented == w0.presented
  {
    w := Then(start, w0, Recover(p));
    w := Then(start, w, WriteTombstone(p));
  }

  /** A lost reply: the retry shows a spent token, and a tombstone is written though nothing was revoked. */
  lemma LostReplyBreaksSafety() returns (w: World)
    ensures Init(TWO_CALLS) && Reaches(TWO_CALLS, w)
    ensures ShowedSpentToken(w) && !w.server.revoked && ClassifyToken(w.stored).Revoked?
  {
    w := FirstToExchange();
    w := Then(TWO_CALLS, w, LoseReply(0, NEW, true));
    w := SpentTokenIsShown(TWO_CALLS, w, 0, Call(OLD, true));
    w := RejectionIsRecorded(TWO_CALLS, w, 0, Call(OLD, true));
  }

  /** A request that arrives after its call gave up: the next call shows a spent token. */
  lemma LateArrivalBreaksSafety() returns (w: World)
    ensures Init(TWO_CALLS) && Reaches(TWO_CALLS, w)
    ensures ShowedSpentToken(w)
  {
    w := FirstToExchange();
    w := Then(TWO_CALLS, w, NetworkFail(0));
    w := Then(TWO_CALLS, w, Release(0));
    w := Then(TWO_CALLS, w, LateArrival("r0", NEW));
    w := ToExchange(TWO_CALLS, w, 1);
    w := SpentTokenIsShown(TWO_CALLS, w, 1, Call(OLD, true));
  }

  /** A crash between exchange and save: the next call shows the spent token. */
  lemma CrashBeforeSaveBreaksSafety() returns (w: World)
    ensures Init(TWO_CALLS) && Reaches(TWO_CALLS, w)
    ensures ShowedSpentToken(w)
  {
    w := FirstToExchange();
    w := Then(TWO_CALLS, w, Accept(0, NEW));
    w := Then(TWO_CALLS, w, Crash(0));
    w := ToExchange(TWO_CALLS, w, 1);
    w := SpentTokenIsShown(TWO_CALLS, w, 1, Call(OLD, true));
  }

  /** A save that fails: likewise. */
  lemma FailedSaveBreaksSafety() returns (w: World)
    ensures Init(TWO_CALLS) && Reaches(TWO_CALLS, w)
    ensures ShowedSpentToken(w)
  {
    w := FirstToExchange();
    w := Then(TWO_CALLS, w, Accept(0, NEW));
    w := Then(TWO_CALLS, w, SaveFail(0));
    w := Then(TWO_CALLS, w, Release(0));
    w := ToExchange(TWO_CALLS, w, 1);
    w := SpentTokenIsShown(TWO_CALLS, w, 1, Call(OLD, true));
  }

  /** A lock broken under its live holder: two calls exchange the same token. */
  lemma BrokenLockBreaksSafety() returns (w: World)
    ensures Init(TWO_CALLS) && Reaches(TWO_CALLS, w)
    ensures ShowedSpentToken(w)
  {
    w := FirstToExchange();
    w := Then(TWO_CALLS, w, BreakLock);
    w := ToExchange(TWO_CALLS, w, 1);
    w := Then(TWO_CALLS, w, Accept(0, NEW));
    w := SpentTokenIsShown(TWO_CALLS, w, 1, Call(OLD, true));
  }

  /** A login during a refresh: the pending save overwrites the new login with a token already retired. */
  lemma LoginRaceLosesNewLogin() returns (w: World)
    ensures Init(TWO_CALLS) && Reaches(TWO_CALLS, w)
    ensures w.stored == Some(NEW) && w.server.live == NEWER.refreshToken && NEW.refreshToken in w.server.spent
  {
    w := FirstToExchange();
    w := Then(TWO_CALLS, w, Accept(0, NEW));
    w := Then(TWO_CALLS, w, Login(NEWER));
    w := Then(TWO_CALLS, w, Save(0));
  }

  /** A logout while a call waits for the lock is undone: the call falls back to its snapshot and saves. */
  lemma LogoutRaceRestoresToken() returns (out: World, w: World)
    ensures Init(TWO_CALLS) && Reaches(TWO_CALLS, out) && out.stored == None
    ensures Reaches(out, w) && w.stored == Some(NEW) && w.server.spent == {OLD.refreshToken}
  {
    assert Run(TWO_CALLS, []) == Some(TWO_CALLS);
    out := Then(TWO_CALLS, TWO_CALLS, Start(0, true, 0));
    assert Active(out.procs[0]);
    out := Then(TWO_CALLS, out, Logout);
    assert out.procs == map[0 := Waiting(Call(OLD, true)), 1 := Idle];
    w := AfterLogout(out);
  }

  lemma AfterLogout(out: World) returns (w: World)
    requires out == World(None, None, map[0 := Waiting(Call(OLD, true)), 1 := Idle], Server("r0", false, {}), [], false)
    ensures Reaches(out, w) && w.stored == Some(NEW) && w.server.spent == {OLD.refreshToken}
  {
    assert Run(out, []) == Some(out);
    w := Then(out, out, Acquire(0));
    w := Then(out, w, Recheck(0, 0));
    w := ExchangeAndSave(out, w, 0);
  }

  lemma ExchangeAndSave(start: World, w0: World, p: Proc) returns (w: World)
    requires Reaches(start, w0) && p in w0.procs && w0.procs[p] == Exchanging(Call(OLD, true), OLD)
    requires w0.server == Server("r0", false, {})
    ensures Reaches(start, w) && w.stored == Some(NEW) && w.server.spent == {OLD.refreshToken}
  {
    w := Then(start, w0, Accept(p, NEW));
    w := Then(start, w, Save(p));
  }
}
