/**
 * The single-flight coalescer of `ensureFresh`: calls of one process share the run in flight, except that a forced
 * call never shares a run that was started without force. A run is one `doEnsureFresh`; between two awaits the
 * calls and settlements below happen in any order.
 */
module Coalescer {
  import opened Wrappers

  type Caller = nat

  /** Sharing a run; queued behind one; woken by its settlement, about to call again. */
  datatype Status = Attached(run: nat, force: bool) | Queued(run: nat) | Woken

  /** `forced` lists the runs ever started, with their flags; `running` those that have not settled. */
  datatype State = State(slot: Option<nat>, forced: seq<bool>, running: set<nat>, callers: map<Caller, Status>)

  const IDLE := State(None, [], {}, map[])

  /** `ensureFresh`, as entered by a caller. */
  function Enter(s: State, c: Caller, force: bool): State {
    match s.slot
    case Some(run) =>
      if !force || (run < |s.forced| && s.forced[run]) then s.(callers := s.callers[c := Attached(run, force)])
      else s.(callers := s.callers[c := Queued(run)])
    case None =>
      var run := |s.forced|;
      State(Some(run), s.forced + [force], s.running + {run}, s.callers[c := Attached(run, force)])
  }

  function Wake(callers: map<Caller, Status>, run: nat): map<Caller, Status> {
    map c | c in callers :: if callers[c] == Queued(run) then Woken else callers[c]
  }

  /** A run settles, in whatever way: it clears the slot if the slot is its own, and wakes the calls behind it. */
  function SettleRun(s: State, run: nat): State {
    s.(running := s.running - {run}, slot := if s.slot == Some(run) then None else s.slot,
       callers := Wake(s.callers, run))
  }

  datatype Step = Call(caller: Caller, force: bool) | Settle(run: nat) | Resume(caller: Caller)

  /** A step that cannot happen in a state changes nothing. */
  function Do(s: State, step: Step): State {
    match step
    case Call(c, force) => if c in s.callers then s else Enter(s, c, force)
    case Settle(run) => if run in s.running then SettleRun(s, run) else s
    case Resume(c) => if c in s.callers && s.callers[c].Woken? then Enter(s, c, true) else s
  }

  function Run(s: State, steps: seq<Step>): State {
    if steps == [] then s else Do(Run(s, steps[..|steps| - 1]), steps[|steps| - 1])
  }

  /** The run in flight is the one in the slot, and the only one. */
  ghost predicate Inv(s: State) {
    && s.running == (if s.slot.Some? then {s.slot.value} else {})
    && (forall r :: r in s.running ==> r < |s.forced|)
    && (forall c :: c in s.callers && s.callers[c].Attached? ==>
          s.callers[c].run < |s.forced| && (s.callers[c].force ==> s.forced[s.callers[c].run]))
    && (forall c :: c in s.callers && s.callers[c].Queued? ==>
          s.callers[c].run in s.running && !s.forced[s.callers[c].run])
  }

  class Manager {
    var slot: Option<nat>
    var forced: seq<bool>
    var running: set<nat>
    var callers: map<Caller, Status>

    ghost function View(): State
      reads this
    {
      State(slot, forced, running, callers)
    }

    constructor ()
      ensures View() == IDLE
    {
      slot, forced, running, callers := None, [], {}, map[];
    }

    method EnsureFresh(c: Caller, force: bool)
      requires Inv(View())
      modifies this
      ensures View() == Enter(old(View()), c, force)
      ensures Inv(View())
    {
      EnterKeepsInv(View(), c, force);
      if slot.Some? {
        var run := slot.value;
        if !force || forced[run] {
          callers := callers[c := Attached(run, force)];
        } else {
          callers := callers[c := Queued(run)];
        }
        return;
      }
      var run := |forced|;
      forced := forced + [force];
      running := running + {run};
      callers := callers[c := Attached(run, force)];
      slot := Some(run);
    }

    /** The clean-up of a settled run, with the guard that it only clears its own slot. */
    method Finally(run: nat)
      requires Inv(View()) && run in running
      modifies this
      ensures View() == SettleRun(old(View()), run) && Inv(View()) && slot.None?
    {
      SettleKeepsInv(View(), run);
      if slot == Some(run) { slot := None; }
      running := running - {run};
      callers := map c | c in callers :: if callers[c] == Queued(run) then Woken else callers[c];
    }
  }

  lemma EnterKeepsInv(s: State, c: Caller, force: bool)
    requires Inv(s)
    ensures Inv(Enter(s, c, force))
  {
  }

  lemma SettleKeepsInv(s: State, run: nat)
    requires Inv(s) && run in s.running
    ensures Inv(SettleRun(s, run)) && SettleRun(s, run).slot == None
  {
  }

  lemma {:induction false} RunKeepsInv(steps: seq<Step>)
    ensures Inv(Run(IDLE, steps))
  {
    if steps != [] {
      RunKeepsInv(steps[..|steps| - 1]);
      DoKeepsInv(Run(IDLE, steps[..|steps| - 1]), steps[|steps| - 1]);
    }
  }

  /**
   * In every order of calls and settlements: at most one run is in flight and the slot names it, a forced call
   * only ever shares a forced run, and no call is left queued behind a run that is no longer there.
   */
  lemma SingleFlight(steps: seq<Step>)
    ensures var s := Run(IDLE, steps);
            && |s.running| <= 1
            && (forall run :: run in s.running <==> s.slot == Some(run))
            && (forall c :: c in s.callers && s.callers[c].Attached? ==>
                  s.callers[c].run < |s.forced| && (s.callers[c].force ==> s.forced[s.callers[c].run]))
            && (forall c :: c in s.callers && s.callers[c].Queued? ==> s.slot == Some(s.callers[c].run))
  {
    RunKeepsInv(steps);
  }

  /** A call starts a run if there is none, joins the one there is if it may, and queues behind it otherwise. */
  lemma CallDecides(s: State, c: Caller, force: bool)
    requires Inv(s) && c !in s.callers
    ensures var s' := Do(s, Call(c, force));
            && c in s'.callers && (forall d :: d in s.callers ==> d in s'.callers && s'.callers[d] == s.callers[d])
            && if s.running == {} then
                 s'.callers[c] == Attached(|s.forced|, force) && s'.forced == s.forced + [force]
                 && s'.running == {|s.forced|}
               else
                 s'.running == s.running && s'.forced == s.forced
                 && forall run :: run in s.running ==>
                      s'.callers[c] == if force && !s.forced[run] then Queued(run) else Attached(run, force)
  {
  }

  /** A run that settles leaves none in flight and wakes exactly the calls behind it. */
  lemma SettlementDecides(s: State, run: nat)
    requires Inv(s) && run in s.running
    ensures var s' := Do(s, Settle(run));
            && s'.running == {} && s'.slot == None && s'.forced == s.forced && s'.callers.Keys == s.callers.Keys
            && forall c :: c in s.callers ==>
                 s'.callers[c] == if s.callers[c] == Queued(run) then Woken else s.callers[c]
  {
  }

  // ---------- Queued calls share one run ----------

  function ResumeAll(cs: seq<Caller>): seq<Step> {
    seq(|cs|, i requires 0 <= i < |cs| => Resume(cs[i]))
  }

  /** However many forced calls queued behind a run: when they call again, one new run serves them all. */
  lemma {:induction false} WokenShareOneRun(s: State, cs: seq<Caller>)
    requires Inv(s) && s.slot.None? && cs != []
    requires forall i :: 0 <= i < |cs| ==> cs[i] in s.callers && s.callers[cs[i]].Woken?
    requires forall i, j :: 0 <= i < j < |cs| ==> cs[i] != cs[j]
    ensures var s' := Run(s, ResumeAll(cs));
            && s'.forced == s.forced + [true] && s'.slot == Some(|s.forced|)
            && (forall i :: 0 <= i < |cs| ==> cs[i] in s'.callers && s'.callers[cs[i]] == Attached(|s.forced|, true))
            && (forall c :: c in s.callers && c !in cs ==> c in s'.callers && s'.callers[c] == s.callers[c])
  {
    var front, c := cs[..|cs| - 1], cs[|cs| - 1];
    assert ResumeAll(cs)[..|cs| - 1] == ResumeAll(front);
    assert cs == front + [c];
    if front != [] {
      WokenShareOneRun(s, front);
      assert c !in front;
    } else {
      assert Run(s, ResumeAll(front)) == s;
    }
  }

  lemma DoKeepsInv(s: State, step: Step)
    requires Inv(s)
    ensures Inv(Do(s, step))
  {
    match step
    case Call(c, force) => EnterKeepsInv(s, c, force);
    case Settle(run) => if run in s.running { SettleKeepsInv(s, run); }
    case Resume(c) => EnterKeepsInv(s, c, true);
  }

  /** What can become of a forced call that queued behind `run` when `started` runs had been started. */
  ghost predicate Served(s: State, c: Caller, run: nat, started: nat) {
    && |s.forced| >= started && c in s.callers
    && (forall r :: r in s.running ==> r == run || started <= r)
    && match s.callers[c]
       case Queued(r) => r == run || started <= r
       case Woken => run !in s.running
       case Attached(r, force) => force && started <= r < |s.forced| && s.forced[r]
  }

  lemma DoKeepsServed(s: State, step: Step, c: Caller, run: nat, started: nat)
    requires Inv(s) && Served(s, c, run, started) && run < started
    ensures Served(Do(s, step), c, run, started)
  {
    var d := Do(s, step);
    if step.Settle? {
      assert d.forced == s.forced;
    } else {
      if step.caller != c { assert c in d.callers && d.callers[c] == s.callers[c]; }
    }
  }

  /**
   * A forced call that queued is only ever answered by a forced run that started after it was made, hence after
   * the run it queued behind.
   */
  lemma {:induction false} QueuedCallGetsLaterRun(s: State, c: Caller, steps: seq<Step>)
    requires Inv(s) && c in s.callers && s.callers[c].Queued?
    ensures Inv(Run(s, steps)) && Served(Run(s, steps), c, s.callers[c].run, |s.forced|)
  {
    if steps != [] {
      var t := Run(s, steps[..|steps| - 1]);
      QueuedCallGetsLaterRun(s, c, steps[..|steps| - 1]);
      DoKeepsInv(t, steps[|steps| - 1]);
      DoKeepsServed(t, steps[|steps| - 1], c, s.callers[c].run, |s.forced|);
    }
  }
}
