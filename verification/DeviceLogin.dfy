/** The device login of `OAuthManager`: two nested polling loops against a clock and an authorization server. */
module DeviceLogin {
  import opened Wrappers
  import OAuthRefresh

  // ---------- The flow ----------

  datatype Reply = Success(token: OAuthRefresh.TokenInfo) | Pending(slowDown: bool) | Expired | Denied

  /** One turn of the inner loop: the abort flag, the clock, and what the server answers if it is asked. */
  datatype Turn = Turn(aborted: bool, now: real, reply: Reply)

  /** One device code: its interval, its turns, and the clock once it has expired. */
  datatype Code = Code(interval: real, turns: seq<Turn>, after: real)

  /** How a login ends; `Waiting` is a login that is still going on when the script is used up. */
  datatype End = LoggedIn(token: OAuthRefresh.TokenInfo) | AccessDenied | TimedOut | Aborted | CodeExpired | Waiting

  /** A poll: its code, when it started, the answer, and how many seconds the login slept afterwards. */
  datatype Poll = Poll(code: nat, at: real, reply: Reply, pause: real)

  function StartInterval(c: Code): real {
    if c.interval > 1.0 then c.interval else 1.0
  }

  function Slower(interval: real, reply: Reply): real {
    if reply == Pending(true) then interval + 5.0 else interval
  }

  /** Polling with one code. */
  function PollCode(turns: seq<Turn>, code: nat, interval: real, deadline: real): (seq<Poll>, End)
    decreases |turns|
  {
    if turns == [] then ([], Waiting)
    else
      var t := turns[0];
      if t.aborted then ([], Aborted)
      else if t.now >= deadline then ([], TimedOut)
      else match t.reply
        case Success(token) => ([Poll(code, t.now, t.reply, 0.0)], LoggedIn(token))
        case Denied => ([Poll(code, t.now, t.reply, 0.0)], AccessDenied)
        case Expired => ([Poll(code, t.now, t.reply, 0.0)], CodeExpired)
        case Pending(_) =>
          var next := Slower(interval, t.reply);
          var (polls, end) := PollCode(turns[1..], code, next, deadline);
          ([Poll(code, t.now, t.reply, next)] + polls, end)
  }

  function PollCodes(codes: seq<Code>, code: nat, deadline: real): (seq<Poll>, End)
    requires code <= |codes|
    decreases |codes| - code
  {
    if code == |codes| then ([], Waiting)
    else
      var c := codes[code];
      var (polls, end) := PollCode(c.turns, code, StartInterval(c), deadline);
      if !end.CodeExpired? then (polls, end)
      else if c.after >= deadline then (polls, TimedOut)
      else
        var (more, last) := PollCodes(codes, code + 1, deadline);
        (polls + more, last)
  }

  /** `Math.ceil(timeoutMs / 1000)`. */
  function TimeoutSeconds(timeoutMs: nat): nat {
    (timeoutMs + 999) / 1000
  }

  function Deadline(startedAt: real, timeoutMs: nat): real {
    startedAt + TimeoutSeconds(timeoutMs) as real
  }

  class Manager {
    var stored: Option<OAuthRefresh.TokenInfo>

    constructor (stored: Option<OAuthRefresh.TokenInfo>)
      ensures this.stored == stored
    {
      this.stored := stored;
    }

    method Login(codes: seq<Code>, startedAt: real, timeoutMs: nat) returns (polls: seq<Poll>, end: End)
      modifies this
      ensures (polls, end) == PollCodes(codes, 0, Deadline(startedAt, timeoutMs))
      ensures stored == if end.LoggedIn? then Some(end.token) else old(stored)
    {
      var deadline := Deadline(startedAt, timeoutMs);
      polls := [];
      var k := 0;
      assert [] + PollCodes(codes, 0, deadline).0 == PollCodes(codes, 0, deadline).0;
      while k < |codes|
        invariant k <= |codes| && stored == old(stored)
        invariant PollCodes(codes, 0, deadline) == Then(polls, PollCodes(codes, k, deadline))
      {
        NextCode(codes, k, deadline, polls);
        var more, ended := PollOneCode(codes[k].turns, k, StartInterval(codes[k]), deadline);
        polls := polls + more;
        if ended.LoggedIn? { stored := Some(ended.token); }
        if !ended.CodeExpired? { return polls, ended; }
        if codes[k].after >= deadline { return polls, TimedOut; }
        k := k + 1;
      }
      assert polls + [] == polls;
      return polls, Waiting;
    }
  }

  function Then(polls: seq<Poll>, rest: (seq<Poll>, End)): (seq<Poll>, End) {
    (polls + rest.0, rest.1)
  }

  /** The inner loop: polling with one code, more slowly each time the server asks for it. */
  method PollOneCode(turns: seq<Turn>, code: nat, startInterval: real, deadline: real)
    returns (polls: seq<Poll>, end: End)
    ensures (polls, end) == PollCode(turns, code, startInterval, deadline)
  {
    polls := [];
    var interval := startInterval;
    ghost var whole := PollCode(turns, code, startInterval, deadline);
    assert turns[0..] == turns && [] + whole.0 == whole.0;
    for i := 0 to |turns|
      invariant whole == Then(polls, PollCode(turns[i..], code, interval, deadline))
    {
      var t := turns[i];
      assert turns[i..][0] == t && turns[i..][1..] == turns[i + 1..];
      NextTurn(turns[i..], code, interval, deadline, polls);
      if t.aborted { return polls, Aborted; }
      if t.now >= deadline { return polls, TimedOut; }
      if t.reply.Pending? && t.reply.slowDown { interval := interval + 5.0; }
      polls := polls + [Poll(code, t.now, t.reply, if t.reply.Pending? then interval else 0.0)];
      match t.reply {
        case Success(token) => return polls, LoggedIn(token);
        case Denied => return polls, AccessDenied;
        case Expired => return polls, CodeExpired;
        case Pending(_) =>
      }
    }
    assert turns[|turns|..] == [] && polls + [] == polls;
    return polls, Waiting;
  }

  /** One turn, added to the polls so far. */
  lemma NextTurn(turns: seq<Turn>, code: nat, interval: real, deadline: real, polls: seq<Poll>)
    requires turns != []
    ensures var t := turns[0];
            Then(polls, PollCode(turns, code, interval, deadline))
            == if t.aborted then (polls, Aborted)
               else if t.now >= deadline then (polls, TimedOut)
               else if t.reply.Pending? then
                 Then(polls + [Poll(code, t.now, t.reply, Slower(interval, t.reply))],
                      PollCode(turns[1..], code, Slower(interval, t.reply), deadline))
               else (polls + [Poll(code, t.now, t.reply, 0.0)],
                     if t.reply.Success? then LoggedIn(t.reply.token)
                     else if t.reply.Denied? then AccessDenied else CodeExpired)
  {
    var t := turns[0];
    assert polls + [] == polls;
    if !t.aborted && t.now < deadline && t.reply.Pending? {
      var next := Slower(interval, t.reply);
      var rest := PollCode(turns[1..], code, next, deadline).0;
      assert polls + ([Poll(code, t.now, t.reply, next)] + rest) == (polls + [Poll(code, t.now, t.reply, next)]) + rest;
    }
  }

  /** One code, added to the polls so far. */
  lemma NextCode(codes: seq<Code>, k: nat, deadline: real, polls: seq<Poll>)
    requires k < |codes|
    ensures var (more, end) := PollCode(codes[k].turns, k, StartInterval(codes[k]), deadline);
            Then(polls, PollCodes(codes, k, deadline))
            == if !end.CodeExpired? then (polls + more, end)
               else if codes[k].after >= deadline then (polls + more, TimedOut)
               else Then(polls + more, PollCodes(codes, k + 1, deadline))
  {
    var (more, end) := PollCode(codes[k].turns, k, StartInterval(codes[k]), deadline);
    if end.CodeExpired? && codes[k].after < deadline {
      var later := PollCodes(codes, k + 1, deadline).0;
      assert polls + (more + later) == (polls + more) + later;
    }
  }

  // ---------- What a login does with its script ----------

  /** The first interval is the code's own, but at least a second. */
  lemma StartIntervalIsMaximum(c: Code)
    ensures StartInterval(c) >= c.interval && StartInterval(c) >= 1.0
    ensures StartInterval(c) == c.interval || StartInterval(c) == 1.0
  {
  }

  /** The timeout is rounded up to whole seconds. */
  lemma TimeoutIsRoundedUp(timeoutMs: nat)
    ensures timeoutMs <= 1000 * TimeoutSeconds(timeoutMs) < timeoutMs + 1000
  {
  }

  /** Why polling with one code ends after `n` polls. */
  ghost predicate EndsAfter(turns: seq<Turn>, deadline: real, n: nat, end: End)
    requires n <= |turns|
  {
    if n > 0 && !turns[n - 1].reply.Pending? then
      match turns[n - 1].reply
      case Success(token) => end == LoggedIn(token)
      case Denied => end == AccessDenied
      case _ => end == CodeExpired
    else if n == |turns| then end == Waiting
    else if turns[n].aborted then end == Aborted
    else turns[n].now >= deadline && end == TimedOut
  }

  /**
   * Polling with one code asks the server once in each turn, until an answer is not pending, the caller aborts, or
   * the deadline has come; and it ends in the way of whichever of these came first.
   */
  lemma {:induction false} CodeFollowsScript(turns: seq<Turn>, code: nat, interval: real, deadline: real)
    ensures var (polls, end) := PollCode(turns, code, interval, deadline);
            && |polls| <= |turns|
            && (forall i :: 0 <= i < |polls| ==>
                  polls[i].at == turns[i].now && polls[i].reply == turns[i].reply && !turns[i].aborted)
            && (forall i :: 0 <= i < |polls| - 1 ==> turns[i].reply.Pending?)
            && EndsAfter(turns, deadline, |polls|, end)
    decreases |turns|
  {
    if turns != [] && !turns[0].aborted && turns[0].now < deadline && turns[0].reply.Pending? {
      var next := Slower(interval, turns[0].reply);
      CodeFollowsScript(turns[1..], code, next, deadline);
      var rest := PollCode(turns[1..], code, next, deadline).0;
      var polls := PollCode(turns, code, interval, deadline).0;
      assert polls == [polls[0]] + rest;
      assert forall i :: 1 <= i < |polls| ==> polls[i] == rest[i - 1] && turns[i] == turns[1..][i - 1];
    }
  }

  /** The polls of all codes from `k` to `m`, one code after the other. */
  function PollsOf(codes: seq<Code>, k: nat, m: nat, deadline: real): seq<Poll>
    requires k <= m <= |codes|
    decreases m - k
  {
    if k == m then []
    else PollCode(codes[k].turns, k, StartInterval(codes[k]), deadline).0 + PollsOf(codes, k + 1, m, deadline)
  }

  /** A login goes on to another code exactly when the last one has expired before the deadline. */
  lemma {:induction false} LoginFollowsCodes(codes: seq<Code>, k: nat, deadline: real) returns (m: nat)
    requires k <= |codes|
    ensures k <= m <= |codes|
    ensures forall j :: k <= j < m ==>
              && PollCode(codes[j].turns, j, StartInterval(codes[j]), deadline).1 == CodeExpired
              && codes[j].after < deadline
    ensures m == |codes| ==> PollCodes(codes, k, deadline) == (PollsOf(codes, k, m, deadline), Waiting)
    ensures m < |codes| ==>
              var (polls, end) := PollCode(codes[m].turns, m, StartInterval(codes[m]), deadline);
              && (end == CodeExpired ==> codes[m].after >= deadline)
              && PollCodes(codes, k, deadline)
                 == (PollsOf(codes, k, m, deadline) + polls, if end == CodeExpired then TimedOut else end)
    decreases |codes| - k
  {
    m := k;
    if k < |codes| {
      var (polls, end) := PollCode(codes[k].turns, k, StartInterval(codes[k]), deadline);
      if end == CodeExpired && codes[k].after < deadline {
        m := LoginFollowsCodes(codes, k + 1, deadline);
        if m < |codes| {
          var last := PollCode(codes[m].turns, m, StartInterval(codes[m]), deadline).0;
          assert polls + (PollsOf(codes, k + 1, m, deadline) + last)
              == (polls + PollsOf(codes, k + 1, m, deadline)) + last;
        }
      } else {
        assert [] + polls == polls;
      }
    }
  }

  // ---------- Every run ----------

  /** The `slow_down` answers on one code. */
  function SlowDowns(polls: seq<Poll>, code: nat): nat {
    if polls == [] then 0
    else SlowDowns(polls[1..], code) + if polls[0].code == code && polls[0].reply == Pending(true) then 1 else 0
  }

  lemma {:induction false} SlowDownsAppend(a: seq<Poll>, b: seq<Poll>, code: nat)
    ensures SlowDowns(a + b, code) == SlowDowns(a, code) + SlowDowns(b, code)
  {
    if a == [] {
      assert a + b == b;
    } else {
      assert (a + b)[1..] == a[1..] + b;
      SlowDownsAppend(a[1..], b, code);
    }
  }

  lemma {:induction false} SlowDownsElsewhere(polls: seq<Poll>, code: nat)
    requires forall p :: p in polls ==> p.code != code
    ensures SlowDowns(polls, code) == 0
  {
    if polls != [] {
      assert polls[0] in polls;
      SlowDownsElsewhere(polls[1..], code);
    }
  }

  /** The pause the protocol asks for: the code's interval and five seconds for every `slow_down` so far. */
  ghost predicate ProperPause(interval: real, polls: seq<Poll>, i: nat)
    requires i < |polls|
  {
    polls[i].reply.Pending? ==> polls[i].pause == interval + 5.0 * SlowDowns(polls[..i + 1], polls[i].code) as real
  }

  lemma {:induction false} CodePolls(turns: seq<Turn>, code: nat, interval: real, deadline: real, i: nat)
    requires i < |PollCode(turns, code, interval, deadline).0|
    ensures var polls := PollCode(turns, code, interval, deadline).0;
            polls[i].code == code && polls[i].at < deadline && ProperPause(interval, polls, i)
    decreases |turns|
  {
    var t := turns[0];
    var polls := PollCode(turns, code, interval, deadline).0;
    if t.reply.Pending? {
      var next := Slower(interval, t.reply);
      var rest := PollCode(turns[1..], code, next, deadline).0;
      assert polls == [polls[0]] + rest;
      if i == 0 {
        assert polls[..1] == [polls[0]];
        assert polls[..1][1..] == [];
      } else {
        CodePolls(turns[1..], code, next, deadline, i - 1);
        assert polls[..i + 1][1..] == rest[..i];
      }
    }
  }

  lemma {:induction false} AllPolls(codes: seq<Code>, k: nat, deadline: real, i: nat)
    requires k <= |codes| && i < |PollCodes(codes, k, deadline).0|
    ensures var polls := PollCodes(codes, k, deadline).0;
            && k <= polls[i].code < |codes| && polls[i].at < deadline
            && ProperPause(StartInterval(codes[polls[i].code]), polls, i)
    decreases |codes| - k
  {
    var polls := PollCodes(codes, k, deadline).0;
    var first := PollCode(codes[k].turns, k, StartInterval(codes[k]), deadline).0;
    if i < |first| {
      CodePolls(codes[k].turns, k, StartInterval(codes[k]), deadline, i);
      assert polls[..i + 1] == first[..i + 1];
    } else {
      var rest := PollCodes(codes, k + 1, deadline).0;
      assert polls == first + rest;
      AllPolls(codes, k + 1, deadline, i - |first|);
      var code := polls[i].code;
      forall p | p in first ensures p.code != code {
        var j :| 0 <= j < |first| && first[j] == p;
        CodePolls(codes[k].turns, k, StartInterval(codes[k]), deadline, j);
      }
      assert polls[..i + 1] == first + rest[..i - |first| + 1];
      SlowDownsElsewhere(first, code);
      SlowDownsAppend(first, rest[..i - |first| + 1], code);
    }
  }

  /**
   * In every login each poll starts strictly before the deadline, and every pending answer is followed by a pause
   * of the code's interval, at least one second, and five seconds for each `slow_down` on that code so far.
   */
  lemma PollsAreTimely(codes: seq<Code>, startedAt: real, timeoutMs: nat, i: nat)
    requires i < |PollCodes(codes, 0, Deadline(startedAt, timeoutMs)).0|
    ensures var polls := PollCodes(codes, 0, Deadline(startedAt, timeoutMs)).0;
            && polls[i].at < Deadline(startedAt, timeoutMs)
            && polls[i].code < |codes| && ProperPause(StartInterval(codes[polls[i].code]), polls, i)
  {
    AllPolls(codes, 0, Deadline(startedAt, timeoutMs), i);
  }

  /** A clock that never goes back and advances by at least every sleep. */
  ghost predicate ClockAdvances(startedAt: real, polls: seq<Poll>) {
    && (polls != [] ==> polls[0].at >= startedAt)
    && forall i :: 0 <= i < |polls| - 1 ==> polls[i + 1].at >= polls[i].at + polls[i].pause
  }

  function PendingPolls(polls: seq<Poll>): nat {
    if polls == [] then 0
    else PendingPolls(polls[..|polls| - 1]) + if polls[|polls| - 1].reply.Pending? then 1 else 0
  }

  lemma {:induction false} PendingTakesTime(startedAt: real, polls: seq<Poll>)
    requires polls != [] && ClockAdvances(startedAt, polls)
    requires forall i :: 0 <= i < |polls| ==>
               polls[i].pause >= (if polls[i].reply.Pending? then 1.0 else 0.0)
    ensures polls[|polls| - 1].at >= startedAt + PendingPolls(polls[..|polls| - 1]) as real
    decreases |polls|
  {
    var n := |polls| - 1;
    if n > 0 {
      var front := polls[..n];
      PendingTakesTime(startedAt, front);
      assert front[..n - 1] == polls[..n - 1];
      assert polls[(n - 1) + 1].at >= polls[n - 1].at + polls[n - 1].pause;
    }
  }

  /** With such a clock a login polls in vain at most once for every second of its timeout. */
  lemma PendingPollsAreBounded(codes: seq<Code>, startedAt: real, timeoutMs: nat)
    requires ClockAdvances(startedAt, PollCodes(codes, 0, Deadline(startedAt, timeoutMs)).0)
    ensures PendingPolls(PollCodes(codes, 0, Deadline(startedAt, timeoutMs)).0) <= TimeoutSeconds(timeoutMs)
  {
    var deadline := Deadline(startedAt, timeoutMs);
    var polls := PollCodes(codes, 0, deadline).0;
    forall i | 0 <= i < |polls| ensures polls[i].pause >= (if polls[i].reply.Pending? then 1.0 else 0.0) {
      AllPolls(codes, 0, deadline, i);
      PausesArePositive(codes, 0, deadline, i);
    }
    if polls != [] {
      PendingTakesTime(startedAt, polls);
      AllPolls(codes, 0, deadline, |polls| - 1);
    }
  }

  lemma {:induction false} CodePauses(turns: seq<Turn>, code: nat, interval: real, deadline: real, i: nat)
    requires i < |PollCode(turns, code, interval, deadline).0|
    ensures var p := PollCode(turns, code, interval, deadline).0[i]; !p.reply.Pending? ==> p.pause == 0.0
    decreases |turns|
  {
    if turns[0].reply.Pending? && i > 0 {
      CodePauses(turns[1..], code, Slower(interval, turns[0].reply), deadline, i - 1);
    }
  }

  lemma {:induction false} PausesArePositive(codes: seq<Code>, k: nat, deadline: real, i: nat)
    requires k <= |codes| && i < |PollCodes(codes, k, deadline).0|
    ensures PollCodes(codes, k, deadline).0[i].pause
         >= (if PollCodes(codes, k, deadline).0[i].reply.Pending? then 1.0 else 0.0)
    decreases |codes| - k
  {
    var first := PollCode(codes[k].turns, k, StartInterval(codes[k]), deadline).0;
    AllPolls(codes, k, deadline, i);
    if i < |first| {
      CodePauses(codes[k].turns, k, StartInterval(codes[k]), deadline, i);
    } else {
      PausesArePositive(codes, k + 1, deadline, i - |first|);
    }
  }

  // ---------- A server that only ever says slow down ----------

  /** The time `n` polls take at least when each is answered by `slow_down`: n(n-1)/2 times five seconds more. */
  function SlowTime(n: nat, interval: real): real {
    if n == 0 then 0.0 else SlowTime(n - 1, interval) + interval + 5.0 * n as real
  }

  lemma {:induction false} SlowTimeClosed(n: nat, interval: real)
    ensures SlowTime(n, interval) == n as real * interval + 2.5 * n as real * (n + 1) as real
  {
    if n > 0 { SlowTimeClosed(n - 1, interval); }
  }

  lemma {:induction false} SlowDownsTakeTime(turns: seq<Turn>, code: nat, interval: real, deadline: real,
                                             startedAt: real,
                                             n: nat)
    requires var polls := PollCode(turns, code, interval, deadline).0;
             && n < |polls| && ClockAdvances(startedAt, polls)
             && forall i :: 0 <= i < n ==> polls[i].reply == Pending(true)
    ensures PollCode(turns, code, interval, deadline).0[n].at >= startedAt + SlowTime(n, interval)
  {
    var polls := PollCode(turns, code, interval, deadline).0;
    if n > 0 {
      SlowDownsTakeTime(turns, code, interval, deadline, startedAt, n - 1);
      CodePolls(turns, code, interval, deadline, n - 1);
      forall i | 0 <= i < n ensures polls[i].code == code { CodePolls(turns, code, interval, deadline, i); }
      AllSlowDowns(polls[..n], code);
      assert polls[..(n - 1) + 1] == polls[..n];
      assert polls[(n - 1) + 1].at >= polls[n - 1].at + polls[n - 1].pause;
    }
  }

  lemma {:induction false} AllSlowDowns(polls: seq<Poll>, code: nat)
    requires forall i :: 0 <= i < |polls| ==> polls[i].code == code && polls[i].reply == Pending(true)
    ensures SlowDowns(polls, code) == |polls|
  {
    if polls != [] { AllSlowDowns(polls[1..], code); }
  }

  /** If every answer on a code is `slow_down`, n polls fit into the timeout only if (n-1)I + 5n(n-1)/2 does. */
  lemma SlowDownPollsFit(turns: seq<Turn>, code: nat, interval: real, startedAt: real, timeoutMs: nat)
    requires var polls := PollCode(turns, code, interval, Deadline(startedAt, timeoutMs)).0;
             && polls != [] && ClockAdvances(startedAt, polls)
             && forall i :: 0 <= i < |polls| ==> polls[i].reply == Pending(true)
    ensures var n := |PollCode(turns, code, interval, Deadline(startedAt, timeoutMs)).0|;
            (n - 1) as real * interval + 2.5 * n as real * (n - 1) as real < TimeoutSeconds(timeoutMs) as real
  {
    var deadline := Deadline(startedAt, timeoutMs);
    var n := |PollCode(turns, code, interval, deadline).0| - 1;
    SlowDownsTakeTime(turns, code, interval, deadline, startedAt, n);
    CodePolls(turns, code, interval, deadline, n);
    SlowTimeClosed(n, interval);
    assert 2.5 * n as real * (n + 1) as real == 2.5 * (n + 1) as real * n as real;
  }
}
