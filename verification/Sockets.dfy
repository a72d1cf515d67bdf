/**
 The socket slot and the loops that use it. What the operating system answers is given to the loops as a
 script, one entry for each attempt; a loop returns where its script ends, which may be anywhere.
 */
module Sockets {
  import opened Streams

  datatype Descriptor = Opened(fd: int) | Closed(fd: int)

  /** Descriptors are opened and closed in turn, each closed before the next is opened. */
  ghost predicate InTurn(trace: seq<Descriptor>) {
    forall i | 0 <= i < |trace| :: MayFollow(trace[..i], trace[i])
  }

  predicate MayFollow(before: seq<Descriptor>, d: Descriptor) {
    if |before| % 2 == 0 then d.Opened? else d == Closed(before[|before| - 1].fd)
  }

  lemma TurnKeeps(trace: seq<Descriptor>, d: Descriptor)
    requires InTurn(trace) && MayFollow(trace, d)
    ensures InTurn(trace + [d])
  {
    var more := trace + [d];
    forall i | 0 <= i < |more|
      ensures MayFollow(more[..i], more[i])
    {
      assert more[..i] == trace[..i];
    }
  }

  /** One attempt: what socket() returns, whether the options can be set, whether connect() succeeds. */
  datatype Try = Try(fd: int, configured: bool, connects: bool)

  predicate IsTry(t: Try) {
    t.fd >= -1
  }

  predicate Succeeds(t: Try) {
    t.fd >= 0 && t.configured && t.connects
  }

  /** What one attempt on an empty slot opens, and what is closed by the time the slot is empty again. */
  function Life(t: Try): seq<Descriptor> {
    if t.fd < 0 then [] else [Opened(t.fd), Closed(t.fd)]
  }

  /** One life after the other: what a loop over these attempts leaves in the trace. */
  function Lives(tries: seq<Try>): seq<Descriptor> {
    if tries == [] then [] else Lives(Front(tries)) + Life(Last(tries))
  }

  lemma LivesSnoc(before: seq<Descriptor>, tries: seq<Try>, i: nat)
    requires i < |tries|
    ensures before + Lives(tries[..i + 1]) == before + Lives(tries[..i]) + Life(tries[i])
  {
    assert Front(tries[..i + 1]) == tries[..i];
  }

  class MySocket {
    var fd: int
    /** All descriptors this slot has held, and how often it was asked for a socket while it held one. */
    ghost var trace: seq<Descriptor>
    ghost var refusals: nat

    ghost predicate Valid()
      reads this
    {
      && fd >= -1 && InTurn(trace)
      && (fd == -1 <==> |trace| % 2 == 0)
      && (fd != -1 ==> trace[|trace| - 1] == Opened(fd))
    }

    constructor ()
      ensures Valid() && fd == -1 && refusals == 0 && trace == []
    {
      fd, trace, refusals := -1, [], 0;
    }

    /** The trace once the descriptor in the slot, if any, is closed. */
    ghost function Settled(): seq<Descriptor>
      reads this
    {
      if fd == -1 then trace else trace + [Closed(fd)]
    }

    method Close()
      requires Valid() && fd != -1
      modifies this
      ensures Valid() && fd == -1 && refusals == old(refusals) && trace == old(trace) + [Closed(old(fd))]
    {
      TurnKeeps(trace, Closed(fd));
      trace := trace + [Closed(fd)];
      fd := -1;
    }

    method CreateSocket(t: Try) returns (r: int)
      requires Valid() && IsTry(t)
      modifies this
      ensures Valid() && (r == 0 || r == -1)
      ensures old(fd) != -1 ==> r == -1 && fd == old(fd) && trace == old(trace) && refusals == old(refusals) + 1
      ensures old(fd) == -1 ==> refusals == old(refusals) && (r == 0 <==> t.fd >= 0 && t.configured)
      ensures old(fd) == -1 ==> fd == (if r == 0 then t.fd else -1) && Settled() == old(trace) + Life(t)
    {
      if fd != -1 {
        refusals := refusals + 1;
        return -1;
      }
      fd := t.fd;
      if fd < 0 {
        return -1;
      }
      TurnKeeps(trace, Opened(fd));
      trace := trace + [Opened(fd)];
      if !t.configured {
        Close();
        return -1;
      }
      r := 0;
    }

    method ConnectToServer(t: Try) returns (r: int)
      requires Valid() && fd != -1
      modifies this
      ensures Valid() && refusals == old(refusals) && (r == 0 || r == -1) && (r == 0 <==> t.connects)
      ensures fd == (if r == 0 then old(fd) else -1) && Settled() == old(Settled())
    {
      if !t.connects {
        Close();
        return -1;
      }
      r := 0;
    }

    method DestroySocket()
      requires Valid()
      modifies this
      ensures Valid() && fd == -1 && refusals == old(refusals) && trace == old(Settled())
    {
      if fd != -1 {
        Close();
      }
    }

    /** CreateSocket and ConnectToServer, as every loop of the program combines them. */
    method Attempt(t: Try) returns (r: int)
      requires Valid() && IsTry(t)
      modifies this
      ensures Valid() && (r == 0 || r == -1)
      ensures old(fd) != -1 ==> r == -1 && fd == old(fd) && trace == old(trace) && refusals == old(refusals) + 1
      ensures old(fd) == -1 ==> refusals == old(refusals) && (r == 0 <==> Succeeds(t)) && (fd == -1 <==> r == -1)
      ensures old(fd) == -1 ==> Settled() == old(trace) + Life(t)
    {
      r := CreateSocket(t);
      if r == -1 {
        return;
      }
      r := ConnectToServer(t);
    }
  }

  // ---------------------------------------------------------------- the watcher of the extra VAS

  /** Every connection of the script breaks in the end. */
  method WatchExtra(socket: MySocket, tries: seq<Try>) returns (connected: bool)
    requires socket.Valid() && socket.fd == -1 && forall t | t in tries :: IsTry(t)
    modifies socket
    ensures socket.Valid() && socket.refusals == old(socket.refusals) && !connected && socket.fd == -1
    ensures socket.trace == old(socket.trace) + Lives(tries)
  {
    connected := false;
    assert socket.trace + [] == socket.trace;
    for i := 0 to |tries|
      invariant socket.Valid() && socket.refusals == old(socket.refusals) && socket.fd == -1 && !connected
      invariant socket.trace == old(socket.trace) + Lives(tries[..i])
    {
      assert tries[i] in tries;
      LivesSnoc(old(socket.trace), tries, i);
      var r := socket.Attempt(tries[i]);
      if r == -1 {
        continue;
      }
      connected := true;
      // heartbeats and receives, until one of them fails
      connected := false;
      socket.DestroySocket();
    }
    assert tries[..|tries|] == tries;
  }

  // ---------------------------------------------------------------- the PFS handler

  /** What happens to the connection to a PFS; a fan-out asks every VAS handler and the extra VAS to change. */
  datatype Note = Up | Lost | AttemptFailed | FanOut

  /** Whether the handler is reconnecting, the failures in a row since the loss, and what happened so far. */
  datatype Pfs = Pfs(lost: bool, failures: nat, story: seq<Note>)

  /** One attempt; a connection it opens breaks in the end. */
  function Attempted(s: Pfs, t: Try): Pfs {
    if Succeeds(t) then Pfs(true, 0, s.story + [Up, Lost])
    else if !s.lost then s
    else if s.failures < 2 then Pfs(true, s.failures + 1, s.story + [AttemptFailed])
    else Pfs(false, 0, s.story + [AttemptFailed, FanOut])
  }

  function AfterTries(tries: seq<Try>): Pfs {
    if tries == [] then Pfs(false, 0, []) else Attempted(AfterTries(Front(tries)), Last(tries))
  }

  lemma AfterOneMore(tries: seq<Try>, i: nat)
    requires i < |tries|
    ensures AfterTries(tries[..i + 1]) == Attempted(AfterTries(tries[..i]), tries[i])
  {
    assert Front(tries[..i + 1]) == tries[..i];
  }

  predicate Fails(story: seq<Note>, n: nat)
    decreases n
  {
    if n == 0 then story != [] && Last(story) == Lost
    else story != [] && Last(story) == AttemptFailed && Fails(Front(story), n - 1)
  }

  /** A fan-out follows three failed reconnects in a row, and a fourth reconnect is never tried. */
  ghost predicate WellTold(story: seq<Note>) {
    && (forall i | 0 <= i < |story| && story[i] == FanOut :: Fails(story[..i], 3))
    && (forall i | 0 < i < |story| && Fails(story[..i], 3) :: story[i] == FanOut)
  }

  lemma {:induction false} Tell(story: seq<Note>, n: Note)
    requires WellTold(story) && (n == FanOut <==> Fails(story, 3))
    ensures WellTold(story + [n])
  {
    var more := story + [n];
    assert more[..|story|] == story;
    assert forall i | 0 <= i <= |story| :: more[..i] == story[..i];
  }

  lemma OneCount(story: seq<Note>, j: nat, k: nat)
    requires Fails(story, j) && Fails(story, k)
    ensures j == k
    decreases j
  {
    if j > 0 && k > 0 {
      OneCount(Front(story), j - 1, k - 1);
    }
  }

  ghost predicate PfsInv(s: Pfs) {
    WellTold(s.story) && !Fails(s.story, 3) && (s.lost ==> s.failures < 3 && Fails(s.story, s.failures))
  }

  lemma {:induction false} Reconnected(s: Pfs)
    requires PfsInv(s)
    ensures PfsInv(Pfs(true, 0, s.story + [Up, Lost]))
  {
    var up := s.story + [Up];
    Tell(s.story, Up);
    assert !Fails(up, 3);
    Tell(up, Lost);
    assert s.story + [Up, Lost] == up + [Lost];
  }

  lemma {:induction false} NotReconnected(s: Pfs)
    requires PfsInv(s) && s.lost
    ensures var failed := s.story + [AttemptFailed];
            if s.failures < 2 then PfsInv(Pfs(true, s.failures + 1, failed))
            else PfsInv(Pfs(false, 0, failed + [FanOut]))
  {
    var failed := s.story + [AttemptFailed];
    Tell(s.story, AttemptFailed);
    assert Front(failed) == s.story && Fails(failed, s.failures + 1);
    if s.failures < 2 {
      if Fails(failed, 3) {
        OneCount(failed, s.failures + 1, 3);
      }
    } else {
      Tell(failed, FanOut);
      assert Last(failed + [FanOut]) == FanOut;
    }
  }

  /** Whatever the attempts, all handlers are asked to change exactly after each third failure in a row. */
  lemma {:induction false} FanOutAfterThreeFailures(tries: seq<Try>)
    ensures PfsInv(AfterTries(tries))
  {
    if tries != [] {
      var s := AfterTries(Front(tries));
      FanOutAfterThreeFailures(Front(tries));
      if Succeeds(Last(tries)) {
        Reconnected(s);
      } else if s.lost {
        NotReconnected(s);
        assert s.story + [AttemptFailed] + [FanOut] == s.story + [AttemptFailed, FanOut];
      }
    }
  }

  /** The failed attempts in a row at the end of a script. */
  function Trailing(tries: seq<Try>): nat {
    if tries == [] || Succeeds(Last(tries)) then 0 else Trailing(Front(tries)) + 1
  }

  /**
   What the last attempt of a script gives to tell, by the attempts alone: a fan-out if it is the third failure
   in a row behind a success; nothing behind that, and nothing before the first success.
   */
  function News(tries: seq<Try>): seq<Note>
    requires tries != []
  {
    var n := Trailing(tries);
    if n == 0 then [Up, Lost]
    else if n == |tries| || n > 3 then []
    else if n < 3 then [AttemptFailed]
    else [AttemptFailed, FanOut]
  }

  function StoryOf(tries: seq<Try>): seq<Note> {
    if tries == [] then [] else StoryOf(Front(tries)) + News(tries)
  }

  lemma {:induction false} TrailingFits(tries: seq<Try>)
    ensures Trailing(tries) <= |tries|
  {
    if tries != [] {
      TrailingFits(Front(tries));
    }
  }

  lemma {:induction false} StoryFollowsTries(tries: seq<Try>)
    ensures var s := AfterTries(tries);
            && s.story == StoryOf(tries)
            && (s.lost <==> Trailing(tries) < |tries| && Trailing(tries) < 3)
            && (s.lost ==> s.failures == Trailing(tries))
  {
    if tries != [] {
      StoryFollowsTries(Front(tries));
      TrailingFits(Front(tries));
      var story := StoryOf(Front(tries));
      assert story + [] == story;
    }
  }

  /** The requests of all fan-outs: each asks all handlers in order, then the extra VAS. */
  function FanOuts(story: seq<Note>, handlers: nat): seq<nat> {
    if story == [] then []
    else FanOuts(Front(story), handlers) + if Last(story) == FanOut then seq(handlers + 1, k => k) else []
  }

  lemma FanOutsSnoc(story: seq<Note>, n: Note, handlers: nat)
    ensures FanOuts(story + [n], handlers)
         == FanOuts(story, handlers) + if n == FanOut then seq(handlers + 1, k => k) else []
  {
    assert Front(story + [n]) == story;
  }

  lemma TellUp(story: seq<Note>, handlers: nat)
    ensures FanOuts(story + [Up], handlers) == FanOuts(story, handlers)
    ensures story + [Up] + [Lost] == story + [Up, Lost]
  {
    FanOutsSnoc(story, Up, handlers);
  }

  lemma TellFailed(story: seq<Note>)
    ensures forall handlers: nat :: FanOuts(story + [AttemptFailed], handlers) == FanOuts(story, handlers)
    ensures story + [AttemptFailed] + [FanOut] == story + [AttemptFailed, FanOut]
  {
    forall handlers: nat {
      FanOutsSnoc(story, AttemptFailed, handlers);
    }
  }

  /** The reconnect loop: up to three attempts, half a second apart. */
  method Reconnect(socket: MySocket, tries: seq<Try>, from: nat, told: seq<Note>, ghost before: seq<Descriptor>)
    returns (up: bool, count: nat, i: nat, story: seq<Note>)
    requires socket.Valid() && socket.fd == -1 && from <= |tries| && forall t | t in tries :: IsTry(t)
    requires AfterTries(tries[..from]) == Pfs(true, 0, told) && socket.trace == before + Lives(tries[..from])
    modifies socket
    ensures socket.Valid() && socket.refusals == old(socket.refusals) && (up <==> socket.fd != -1)
    ensures from <= i <= |tries| && socket.Settled() == before + Lives(tries[..i])
    ensures up ==> from < i && AfterTries(tries[..i]) == Pfs(true, 0, story + [Up, Lost])
    ensures !up && count < 3 ==> i == |tries| && AfterTries(tries) == Pfs(true, count, story)
    ensures !up && count >= 3 ==> count == 3 && AfterTries(tries[..i]) == Pfs(false, 0, story + [FanOut])
    ensures forall handlers: nat :: FanOuts(story, handlers) == FanOuts(told, handlers)
  {
    up, count, i, story := false, 0, from, told;
    while count < 3 && i < |tries|
      invariant count <= 3 && from <= i <= |tries| && !up && socket.fd == -1
      invariant socket.Valid() && socket.refusals == old(socket.refusals)
      invariant socket.trace == before + Lives(tries[..i])
      invariant AfterTries(tries[..i]) == if count < 3 then Pfs(true, count, story) else Pfs(false, 0, story + [FanOut])
      invariant forall handlers: nat :: FanOuts(story, handlers) == FanOuts(told, handlers)
    {
      assert tries[i] in tries;
      LivesSnoc(before, tries, i);
      AfterOneMore(tries, i);
      var r := socket.Attempt(tries[i]);
      i := i + 1;
      if r == 0 {
        up := true;
        break;
      }
      TellFailed(story);
      story := story + [AttemptFailed];
      count := count + 1;
    }
    assert tries[..|tries|] == tries;
  }

  /**
   One connection: each time it breaks, the handler reconnects, or after three vain attempts asks for a
   change and gives up.
   */
  method ServePfs(socket: MySocket, tries: seq<Try>, from: nat, told: seq<Note>, handlers: nat,
                  ghost before: seq<Descriptor>)
    returns (i: nat, story: seq<Note>, changes: seq<nat>)
    requires socket.Valid() && socket.fd != -1 && from <= |tries| && forall t | t in tries :: IsTry(t)
    requires AfterTries(tries[..from]) == Pfs(true, 0, told + [Lost])
    requires socket.Settled() == before + Lives(tries[..from])
    modifies socket
    ensures socket.Valid() && socket.refusals == old(socket.refusals) && socket.fd == -1
    ensures from <= i <= |tries| && socket.trace == before + Lives(tries[..i])
    ensures AfterTries(tries[..i]).story == story && (i < |tries| ==> !AfterTries(tries[..i]).lost)
    ensures FanOuts(story, handlers) == FanOuts(told, handlers) + changes
  {
    i, story, changes := from, told, [];
    var up := true;
    while up
      invariant from <= i <= |tries| && socket.Valid() && socket.refusals == old(socket.refusals)
      invariant (up <==> socket.fd != -1) && socket.Settled() == before + Lives(tries[..i])
      invariant up ==> AfterTries(tries[..i]) == Pfs(true, 0, story + [Lost]) && changes == []
      invariant !up ==> AfterTries(tries[..i]).story == story && (i < |tries| ==> !AfterTries(tries[..i]).lost)
      invariant FanOuts(story, handlers) == FanOuts(told, handlers) + changes
      decreases |tries| - i, up
    {
      socket.DestroySocket();
      FanOutsSnoc(story, Lost, handlers);
      story := story + [Lost];
      var count;
      up, count, i, story := Reconnect(socket, tries, i, story, before);
      if count == 3 && !up {
        changes := seq(handlers + 1, k => k);
        FanOutsSnoc(story, FanOut, handlers);
        story := story + [FanOut];
      } else if up {
        TellUp(story, handlers);
        story := story + [Up];
      } else {
        assert tries[..i] == tries;
      }
    }
  }

  /** `changes` lists the handlers asked to change their PFS; number `handlers` stands for the extra VAS. */
  method RunPfs(socket: MySocket, tries: seq<Try>, handlers: nat) returns (story: seq<Note>, changes: seq<nat>)
    requires socket.Valid() && socket.fd == -1 && forall t | t in tries :: IsTry(t)
    modifies socket
    ensures socket.Valid() && socket.refusals == old(socket.refusals) && socket.fd == -1
    ensures socket.trace == old(socket.trace) + Lives(tries)
    ensures story == AfterTries(tries).story && changes == FanOuts(story, handlers)
  {
    story, changes := [], [];
    var i := 0;
    ghost var before := socket.trace;
    assert before + [] == before;
    while i < |tries|
      invariant 0 <= i <= |tries| && socket.Valid() && socket.refusals == old(socket.refusals) && socket.fd == -1
      invariant socket.trace == before + Lives(tries[..i])
      invariant AfterTries(tries[..i]).story == story && (i < |tries| ==> !AfterTries(tries[..i]).lost)
      invariant changes == FanOuts(story, handlers)
    {
      assert tries[i] in tries;
      LivesSnoc(before, tries, i);
      AfterOneMore(tries, i);
      var r := socket.Attempt(tries[i]);
      i := i + 1;
      if r == 0 {
        TellUp(story, handlers);
        story := story + [Up];
        var more;
        i, story, more := ServePfs(socket, tries, i, story, handlers, before);
        changes := changes + more;
      }
    }
    assert tries[..i] == tries;
  }

  // ---------------------------------------------------------------- the CTI socket

  /** An attempt to open a CTI session, and whether the server confirms it. */
  datatype Session = Session(t: Try, confirms: bool)

  datatype Tried = Tried(standby: bool, confirmed: bool)

  predicate Confirmed(s: Session) {
    Succeeds(s.t) && s.confirms
  }

  /** After a confirmed session the same server is tried first, after any other attempt the other one. */
  function StandbyNext(log: seq<Tried>): bool {
    log != [] && Last(log).standby == Last(log).confirmed
  }

  function Turns(script: seq<Session>): seq<Tried> {
    if script == [] then []
    else var log := Turns(Front(script)); log + [Tried(StandbyNext(log), Confirmed(Last(script)))]
  }

  lemma TurnsSnoc(script: seq<Session>, i: nat)
    requires i < |script|
    ensures var log := Turns(script[..i]);
            Turns(script[..i + 1]) == log + [Tried(StandbyNext(log), Confirmed(script[i]))]
  {
    assert Front(script[..i + 1]) == script[..i];
  }

  /** The standby server has its turn exactly when an odd number of attempts before remained unconfirmed. */
  function Unconfirmed(script: seq<Session>): nat {
    if script == [] then 0 else Unconfirmed(Front(script)) + if Confirmed(Last(script)) then 0 else 1
  }

  lemma {:induction false} StandbyAfterOddFailures(script: seq<Session>)
    ensures |Turns(script)| == |script|
    ensures StandbyNext(Turns(script)) <==> Unconfirmed(script) % 2 == 1
  {
    if script != [] {
      StandbyAfterOddFailures(Front(script));
    }
  }

  /** Each attempt is made at the server the number of unconfirmed attempts before it says. */
  lemma {:induction false} TurnAt(script: seq<Session>, i: nat)
    requires i < |script|
    ensures |Turns(script)| == |script|
    ensures Turns(script)[i] == Tried(Unconfirmed(script[..i]) % 2 == 1, Confirmed(script[i]))
  {
    var front := Front(script);
    StandbyAfterOddFailures(front);
    StandbyAfterOddFailures(script);
    if i == |front| {
      assert script[..i] == front;
    } else {
      TurnAt(front, i);
      assert script[..i] == front[..i];
    }
  }

  /** ConnectToCtiServer: -1 without a connection, 0 with an unconfirmed one, 1 with a session. */
  method ConnectToCtiServer(socket: MySocket, s: Session) returns (confirmed: int)
    requires socket.Valid() && socket.fd == -1 && IsTry(s.t)
    modifies socket
    ensures socket.Valid() && socket.refusals == old(socket.refusals)
    ensures confirmed == if !Succeeds(s.t) then -1 else if s.confirms then 1 else 0
    ensures (socket.fd == -1 <==> confirmed == -1) && socket.Settled() == old(socket.trace) + Life(s.t)
  {
    var r := socket.Attempt(s.t);
    if r == -1 {
      return -1;
    }
    confirmed := if s.confirms then 1 else 0;
  }

  function TriesOf(script: seq<Session>): (tries: seq<Try>)
    ensures |tries| == |script|
  {
    if script == [] then [] else TriesOf(Front(script)) + [Last(script).t]
  }

  lemma TrySnoc(before: seq<Descriptor>, script: seq<Session>, i: nat)
    requires i < |script|
    ensures before + Lives(TriesOf(script[..i + 1])) == before + Lives(TriesOf(script[..i])) + Life(script[i].t)
  {
    assert Front(script[..i + 1]) == script[..i];
    var tries := TriesOf(script[..i]);
    assert Front(tries + [script[i].t]) == tries;
  }

  /** One turn of a server: a connection without a session is given up at once. */
  method TryServer(socket: MySocket, script: seq<Session>, i: nat, log: seq<Tried>, standby: bool,
                   ghost before: seq<Descriptor>)
    returns (confirmed: int, more: seq<Tried>)
    requires socket.Valid() && socket.fd == -1 && i < |script| && IsTry(script[i].t)
    requires socket.trace == before + Lives(TriesOf(script[..i]))
    requires log == Turns(script[..i]) && standby == StandbyNext(log)
    modifies socket
    ensures socket.Valid() && socket.refusals == old(socket.refusals) && (socket.fd != -1 <==> confirmed == 1)
    ensures socket.Settled() == before + Lives(TriesOf(script[..i + 1]))
    ensures more == Turns(script[..i + 1]) && StandbyNext(more) == (standby == (confirmed == 1))
  {
    TrySnoc(before, script, i);
    TurnsSnoc(script, i);
    confirmed := ConnectToCtiServer(socket, script[i]);
    if confirmed == 0 {
      socket.DestroySocket();
    }
    more := log + [Tried(standby, confirmed == 1)];
  }

  method RunCti(socket: MySocket, script: seq<Session>) returns (log: seq<Tried>)
    requires socket.Valid() && socket.fd == -1 && forall s | s in script :: IsTry(s.t)
    modifies socket
    ensures socket.Valid() && socket.refusals == old(socket.refusals) && socket.fd == -1
    ensures socket.trace == old(socket.trace) + Lives(TriesOf(script)) && log == Turns(script)
  {
    log := [];
    var next, i := 0, 0;
    ghost var before := socket.trace;
    assert before + [] == before;
    while i < |script|
      invariant 0 <= i <= |script| && socket.Valid() && socket.refusals == old(socket.refusals) && socket.fd == -1
      invariant socket.trace == before + Lives(TriesOf(script[..i])) && log == Turns(script[..i])
      invariant (next == 0 || next == 1) && (next == 1 <==> StandbyNext(log))
      decreases |script| - i
    {
      var confirmed := 0;
      if next == 0 {
        next := 1;
        assert script[i] in script;
        confirmed, log := TryServer(socket, script, i, log, false, before);
        i := i + 1;
        if confirmed == 1 {
          next := 0;
        }
      }
      if confirmed != 1 && next == 1 && i < |script| {
        next := 0;
        assert script[i] in script;
        confirmed, log := TryServer(socket, script, i, log, true, before);
        i := i + 1;
        if confirmed == 1 {
          next := 1;
        }
      }
      // a confirmed session runs until a heartbeat, a receive or a wrong message type gives it up
      socket.DestroySocket();
    }
    assert script[..i] == script;
  }
}
