/**
 Backup mode: the standby process watches the active one and takes over after repeated failures. The
 environment is a script of attempts, each with the poll results of its session.
 */
module KeepAlive {
  import opened Streams

  datatype Poll = PollError | HeartbeatSent | SendFailed | Readable | ReceiveFailed

  /** A session whose polls run out without ending it goes on. */
  datatype Attempt = NoSocket | NoConnection | Session(polls: seq<Poll>)

  /** Everything that bears on the retry counter, in order. */
  datatype Note = SocketFailed | ConnectFailed | PollFailed | Heartbeat | SessionEnded

  /** The failures since the last successful heartbeat. */
  function Failures(log: seq<Note>): nat {
    if log == [] || Last(log) == Heartbeat then 0 else Failures(Front(log)) + 1
  }

  lemma FailuresSnoc(log: seq<Note>, n: Note)
    ensures Failures(log + [n]) == if n == Heartbeat then 0 else Failures(log) + 1
  {
    assert Front(log + [n]) == log;
  }

  /** The log after the polls of a session, up to the one that ends it, and whether any did. */
  function Polled(log: seq<Note>, polls: seq<Poll>): (seq<Note>, bool)
    decreases |polls|
  {
    if polls == [] then (log, false)
    else
      match polls[0]
      case PollError =>
        var more := log + [PollFailed];
        if Failures(more) == 3 then (more, true) else Polled(more, polls[1..])
      case HeartbeatSent => Polled(log + [Heartbeat], polls[1..])
      case Readable => Polled(log, polls[1..])
      case SendFailed => (log, true)
      case ReceiveFailed => (log, true)
  }

  /** The log of a standby process and whether it took over. */
  function Waited(log: seq<Note>, script: seq<Attempt>): (seq<Note>, bool)
    decreases |script|, 0
  {
    if script == [] then (log, false)
    else
      match script[0]
      case NoSocket => Judged(log + [SocketFailed], script[1..])
      case NoConnection => Judged(log + [ConnectFailed], script[1..])
      case Session(polls) =>
        var (polled, ended) := Polled(log, polls);
        if ended then Judged(polled + [SessionEnded], script[1..]) else (polled, false)
  }

  /** Enough failures, or one more attempt. */
  function Judged(log: seq<Note>, script: seq<Attempt>): (seq<Note>, bool)
    decreases |script|, 1
  {
    if Failures(log) >= 3 then (log, true) else Waited(log, script)
  }

  /** The third failure in a row ends a session, so the exact test never misses it. */
  lemma {:induction false} PollsStopAtThree(log: seq<Note>, polls: seq<Poll>)
    requires Failures(log) <= 2
    ensures var (after, ended) := Polled(log, polls);
            log <= after && Failures(after) <= 3 && (Failures(after) == 3 ==> ended)
    decreases |polls|
  {
    if polls != [] {
      FailuresSnoc(log, PollFailed);
      FailuresSnoc(log, Heartbeat);
      match polls[0]
      case PollError =>
        if Failures(log) < 2 {
          PollsStopAtThree(log + [PollFailed], polls[1..]);
        }
      case HeartbeatSent => PollsStopAtThree(log + [Heartbeat], polls[1..]);
      case Readable => PollsStopAtThree(log, polls[1..]);
      case _ =>
    }
  }

  /**
   The standby process takes over exactly when the failures since the last successful heartbeat have reached
   three, and the failure it takes over upon is the end of an attempt, with at least two failures before it.
   */
  lemma {:induction false} TakesOverUponThreeFailures(log: seq<Note>, script: seq<Attempt>)
    requires Failures(log) <= 2
    ensures var (after, tookOver) := Waited(log, script);
            && log <= after && (tookOver <==> Failures(after) >= 3)
            && (tookOver ==> after != [] && Failures(Front(after)) >= 2
                             && Last(after) != PollFailed && Last(after) != Heartbeat)
    decreases |script|
  {
    if script != [] {
      var at, end := log, SocketFailed;
      match script[0] {
        case NoSocket =>
        case NoConnection => end := ConnectFailed;
        case Session(polls) =>
          PollsStopAtThree(log, polls);
          at, end := Polled(log, polls).0, SessionEnded;
      }
      FailuresSnoc(at, end);
      assert Front(at + [end]) == at;
      if Failures(at + [end]) <= 2 {
        TakesOverUponThreeFailures(at + [end], script[1..]);
      }
    }
  }

  // ---------------------------------------------------------------- told by the polls alone

  /** The failures in a row after some polls, if there were r before them; a heartbeat sent resets them. */
  function Errors(r: nat, polls: seq<Poll>): nat {
    if polls == [] then r
    else
      match Last(polls)
      case PollError => Errors(r, Front(polls)) + 1
      case HeartbeatSent => 0
      case _ => Errors(r, Front(polls))
  }

  /** A failed send or receive ends the session at once, a failed poll when it is the third failure in a row. */
  predicate EndsAt(r: nat, polls: seq<Poll>, i: nat)
    requires i < |polls|
  {
    || polls[i] == SendFailed || polls[i] == ReceiveFailed
    || (polls[i] == PollError && Errors(r, polls[..i + 1]) >= 3)
  }

  lemma {:induction false} ErrorsCons(r: nat, p: Poll, rest: seq<Poll>)
    ensures Errors(r, [p] + rest) == Errors(Errors(r, [p]), rest)
  {
    if rest != [] {
      ErrorsCons(r, p, Front(rest));
      assert Front([p] + rest) == [p] + Front(rest);
    }
  }

  lemma OneError(r: nat, p: Poll)
    ensures Errors(r, [p]) == if p == PollError then r + 1 else if p == HeartbeatSent then 0 else r
  {
    assert Front([p]) == [];
  }

  /** The poll that ends a session is the first that does by itself, and the counter is what the polls up to it say. */
  ghost predicate SessionFits(r: nat, polls: seq<Poll>, n: nat, ended: bool, failures: nat) {
    && n <= |polls| && (ended <==> n < |polls|)
    && (ended ==> EndsAt(r, polls, n))
    && (forall k | 0 <= k < n :: !EndsAt(r, polls, k))
    && failures == Errors(r, polls[..if ended then n + 1 else n])
  }

  lemma {:induction false} EndsLater(r: nat, polls: seq<Poll>, i: nat)
    requires i + 1 < |polls|
    ensures EndsAt(r, polls, i + 1) <==> EndsAt(Errors(r, [polls[0]]), polls[1..], i)
    ensures Errors(r, polls[..i + 2]) == Errors(Errors(r, [polls[0]]), polls[1..][..i + 1])
  {
    ErrorsCons(r, polls[0], polls[1..][..i + 1]);
    assert [polls[0]] + polls[1..][..i + 1] == polls[..i + 2];
  }

  lemma {:induction false} SessionFollowsPolls(log: seq<Note>, polls: seq<Poll>) returns (n: nat)
    requires Failures(log) <= 2
    ensures SessionFits(Failures(log), polls, n, Polled(log, polls).1, Failures(Polled(log, polls).0))
    decreases |polls|
  {
    var r := Failures(log);
    n := 0;
    if polls != [] {
      var p := polls[0];
      assert polls[..1] == [p];
      OneError(r, p);
      FailuresSnoc(log, PollFailed);
      FailuresSnoc(log, Heartbeat);
      if !EndsAt(r, polls, 0) {
        var next := if p == PollError then log + [PollFailed]
                    else if p == HeartbeatSent then log + [Heartbeat] else log;
        var m := SessionFollowsPolls(next, polls[1..]);
        n := m + 1;
        SessionLonger(r, polls, m, Polled(log, polls).1, Failures(Polled(log, polls).0));
      }
    }
  }

  lemma {:induction false} SessionLonger(r: nat, polls: seq<Poll>, m: nat, ended: bool, failures: nat)
    requires polls != [] && !EndsAt(r, polls, 0)
    requires SessionFits(Errors(r, [polls[0]]), polls[1..], m, ended, failures)
    ensures SessionFits(r, polls, m + 1, ended, failures)
  {
    forall k | 0 <= k < |polls| - 1 {
      EndsLater(r, polls, k);
    }
    assert forall k | 0 < k < m + 1 :: EndsAt(r, polls, k) <==> EndsAt(Errors(r, [polls[0]]), polls[1..], k - 1);
    if m == 0 && !ended {
      assert polls[..1] == [polls[0]] && polls[1..][..0] == [];
    } else {
      var k := if ended then m else m - 1;
      EndsLater(r, polls, k);
    }
  }

  /** The counter at the end of an attempt, if it comes to an end. */
  ghost predicate CountsTo(r: nat, a: Attempt, ended: bool, counted: nat) {
    match a
    case NoSocket => ended && counted == r + 1
    case NoConnection => ended && counted == r + 1
    case Session(polls) => exists n, failures: nat ::
      SessionFits(r, polls, n, ended, failures) && counted == if ended then failures + 1 else failures
  }

  /** The counters after the attempts made, the last of which takes over, goes on, or ends the script. */
  ghost predicate Counts(r: nat, script: seq<Attempt>, tookOver: bool, counted: nat)
    decreases |script|
  {
    if script == [] then !tookOver && counted == r
    else exists c: nat, ended: bool ::
      CountsTo(r, script[0], ended, c)
      && if !ended then !tookOver && counted == c
         else if c >= 3 then tookOver && counted == c
         else Counts(c, script[1..], tookOver, counted)
  }

  /** Whether and with what count the process takes over, by the attempts and polls of the script. */
  lemma {:induction false} TakeoverFollowsScript(log: seq<Note>, script: seq<Attempt>)
    requires Failures(log) <= 2
    ensures Counts(Failures(log), script, Waited(log, script).1, Failures(Waited(log, script).0))
    decreases |script|
  {
    if script != [] {
      var at, end, ended := log, SocketFailed, true;
      match script[0] {
        case NoSocket =>
        case NoConnection => end := ConnectFailed;
        case Session(polls) =>
          var n := SessionFollowsPolls(log, polls);
          at, end, ended := Polled(log, polls).0, SessionEnded, Polled(log, polls).1;
          assert SessionFits(Failures(log), polls, n, ended, Failures(at));
      }
      var c := if ended then Failures(at) + 1 else Failures(at);
      assert CountsTo(Failures(log), script[0], ended, c);
      FailuresSnoc(at, end);
      assert Waited(log, script) == if ended then Judged(at + [end], script[1..]) else (at, false);
      if ended && c < 3 {
        TakeoverFollowsScript(at + [end], script[1..]);
        assert Counts(c, script[1..], Waited(log, script).1, Failures(Waited(log, script).0));
      }
    }
  }

  class KeepAlivedClient {
    var retry: int
    ghost var log: seq<Note>

    ghost predicate Valid()
      reads this
    {
      retry == Failures(log)
    }

    constructor ()
      ensures Valid() && log == [] && retry == 0
    {
      retry, log := 0, [];
    }

    ghost method Record(n: Note)
      modifies this`log
      ensures log == old(log) + [n] && Failures(log) == if n == Heartbeat then 0 else old(Failures(log)) + 1
    {
      FailuresSnoc(log, n);
      log := log + [n];
    }

    /**
     Runs one session, up to the first poll that ends it. The counter always equals the failures since the
     last heartbeat, and the test for exactly 3 never misses the third.
     */
    method HealthCheck(polls: seq<Poll>) returns (ended: bool)
      requires Valid() && retry <= 2
      modifies this
      ensures Valid() && 0 <= retry <= 3 && (retry == 3 ==> ended)
      ensures (log, ended) == Polled(old(log), polls)
    {
      for i := 0 to |polls|
        invariant Valid() && 0 <= retry <= 2
        invariant Polled(old(log), polls) == Polled(log, polls[i..])
      {
        assert polls[i..][1..] == polls[i + 1..];
        match polls[i] {
          case PollError =>
            retry := retry + 1;
            Record(PollFailed);
            if retry == 3 {
              return true;
            }
          case SendFailed =>
            return true;
          case HeartbeatSent =>
            retry := 0;
            Record(Heartbeat);
          case ReceiveFailed =>
            return true;
          case Readable =>
        }
      }
      ended := false;
    }

    /** The takeover loop: one attempt after the other until the counter says that the active process is gone. */
    method WaitForTakeover(script: seq<Attempt>) returns (tookOver: bool)
      requires Valid() && retry <= 2
      modifies this
      ensures Valid() && (log, tookOver) == Waited(old(log), script)
      ensures tookOver <==> retry >= 3
    {
      for i := 0 to |script|
        invariant Valid() && 0 <= retry <= 2
        invariant Waited(old(log), script) == Waited(log, script[i..])
      {
        assert script[i..][1..] == script[i + 1..];
        match script[i] {
          case Session(polls) =>
            var ended := HealthCheck(polls);
            if !ended {
              return false;
            }
            Record(SessionEnded);
          case NoConnection =>
            Record(ConnectFailed);
          case NoSocket =>
            Record(SocketFailed);
        }
        retry := retry + 1;
        if retry >= 3 {
          return true;
        }
      }
      tookOver := false;
    }
  }
}
