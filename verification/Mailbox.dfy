/**
 The queue protocol between any number of producers and one consumer: a ring under a lock, a semaphore
 posted after the unlock, and a pending-change flag that shares the semaphore. Every step is one atomic
 action of one thread; a run is any interleaving of enabled actions.
 */
module Mailbox {
  import opened Streams
  import opened Rings

  /** Where the consumer's loop stands. */
  datatype Phase<M> = Idle | Woken | SendingChange | ChangeSent | ToDequeue | InHand(msg: M)

  /** No change is pending while `pending` is NUL; `inFlight` counts semaphore posts still to be done. */
  datatype State<M> = State(ring: seq<M>, sem: nat, inFlight: nat, pending: char, phase: Phase<M>,
                            accepted: seq<M>, refused: seq<M>, taken: seq<M>, changesSent: seq<char>)

  datatype Action<M> =
    | Enqueue(msg: M)          // a producer, under the lock
    | Post                     // a producer, after the unlock
    | RequestChange(port: char)// PfsChange sets the flag; its post is still to come
    | Wait                     // sem_wait succeeds
    | WaitFails                // sem_wait fails, and the loop goes on regardless
    | Inspect                  // the consumer tests the flag
    | SendChange               // it reads the flag again and sends the change
    | ClearChange
    | Dequeue
    | Finish                   // it is done with the message in hand

  function Start<M>(): State<M> {
    State([], 0, 0, '\0', Idle, [], [], [], [])
  }

  predicate Enabled<M>(s: State<M>, a: Action<M>) {
    match a
    case Enqueue(_) => true
    case Post => s.inFlight > 0
    case RequestChange(_) => true
    case Wait => s.phase.Idle? && s.sem > 0
    case WaitFails => s.phase.Idle?
    case Inspect => s.phase.Woken?
    case SendChange => s.phase.SendingChange?
    case ClearChange => s.phase.ChangeSent?
    case Dequeue => s.phase.ToDequeue?
    case Finish => s.phase.InHand?
  }

  function Next<M>(capacity: nat, s: State<M>, a: Action<M>): State<M>
    requires Enabled(s, a)
  {
    match a
    case Enqueue(m) =>
      if |s.ring| < capacity then
        s.(ring := Push(s.ring, m, capacity), accepted := s.accepted + [m], inFlight := s.inFlight + 1)
      else s.(refused := s.refused + [m])
    case Post => s.(inFlight := s.inFlight - 1, sem := s.sem + 1)
    case RequestChange(port) => s.(pending := port, inFlight := s.inFlight + 1)
    case Wait => s.(sem := s.sem - 1, phase := Woken)
    case WaitFails => s.(phase := Woken)
    case Inspect => s.(phase := if s.pending != '\0' then SendingChange else ToDequeue)
    case SendChange => s.(phase := ChangeSent, changesSent := s.changesSent + [s.pending])
    case ClearChange => s.(phase := Idle, pending := '\0')
    case Dequeue =>
      if s.ring == [] then s.(phase := Idle)
      else s.(phase := InHand(s.ring[0]), ring := s.ring[1..], taken := s.taken + [s.ring[0]])
    case Finish => s.(phase := Idle)
  }

  function Pending<M>(s: State<M>): nat {
    if s.pending != '\0' then 1 else 0
  }

  /**
   Phase by phase, the tokens posted or about to be posted cover the work that is left. Coalesced change
   requests and failed waits leave surplus tokens, so this is an inequality.
   */
  predicate Covered<M>(s: State<M>) {
    var tokens := s.sem + s.inFlight;
    match s.phase
    case Idle => tokens >= |s.ring| + Pending(s)
    case InHand(_) => tokens >= |s.ring| + Pending(s)
    case Woken => tokens + 1 >= |s.ring| + Pending(s)
    case SendingChange => tokens >= |s.ring|
    case ChangeSent => tokens >= |s.ring|
    case ToDequeue => tokens >= Pending(s) + if s.ring == [] then 0 else |s.ring| - 1
  }

  /**
   Nothing accepted is lost, duplicated or reordered on its way to the consumer's hand, and nothing is refused
   before the ring was full once.
   */
  predicate InOrder<M(==)>(capacity: nat, s: State<M>) {
    && s.accepted == s.taken + s.ring
    && |s.ring| <= capacity
    && (s.refused != [] ==> |s.accepted| >= capacity)
    && (s.phase.InHand? ==> s.taken != [] && s.taken[|s.taken| - 1] == s.phase.msg)
  }

  predicate Inv<M(==)>(capacity: nat, s: State<M>) {
    Covered(s) && InOrder(capacity, s)
  }

  lemma StepKeepsInv<M>(capacity: nat, s: State<M>, a: Action<M>)
    requires Inv(capacity, s) && Enabled(s, a)
    ensures Inv(capacity, Next(capacity, s, a))
  {
    if a.Dequeue? && s.ring != [] {
      assert s.ring == [s.ring[0]] + s.ring[1..];
    }
  }

  /** The consumer sleeps, nothing can wake it and nobody is about to. */
  predicate Asleep<M>(s: State<M>) {
    s.phase.Idle? && s.sem == 0 && s.inFlight == 0
  }

  // ---------------------------------------------------------------- runs

  predicate IsRun<M>(capacity: nat, actions: seq<Action<M>>)
    decreases |actions|, 0
  {
    actions == [] ||
    (IsRun(capacity, Front(actions))
     && Enabled(Reached(capacity, Front(actions)), Last(actions)))
  }

  function Reached<M>(capacity: nat, actions: seq<Action<M>>): State<M>
    requires IsRun(capacity, actions)
    decreases |actions|, 1
  {
    if actions == [] then Start()
    else Next(capacity, Reached(capacity, Front(actions)), Last(actions))
  }

  lemma {:induction false} RunKeepsInv<M>(capacity: nat, actions: seq<Action<M>>)
    requires IsRun(capacity, actions)
    ensures Inv(capacity, Reached(capacity, actions))
  {
    if actions != [] {
      var front := Front(actions);
      RunKeepsInv(capacity, front);
      StepKeepsInv(capacity, Reached(capacity, front), Last(actions));
    }
  }

  /**
   No wake-up is lost: whenever the consumer sleeps for good, the ring is empty and no change is pending,
   in every interleaving and even if sem_wait fails at times.
   */
  lemma NoLostWakeUp<M>(capacity: nat, actions: seq<Action<M>>)
    requires IsRun(capacity, actions) && Asleep(Reached(capacity, actions))
    ensures var s := Reached(capacity, actions);
            s.ring == [] && s.pending == '\0' && s.taken == s.accepted
  {
    RunKeepsInv(capacity, actions);
  }

  // ---------------------------------------------------------------- what the producers did

  /** The messages of all producers, in the order in which they got the lock. */
  function Enqueued<M>(actions: seq<Action<M>>): seq<M> {
    if actions == [] then []
    else Enqueued(Front(actions)) + if Last(actions).Enqueue? then [Last(actions).msg] else []
  }

  predicate EnqueuedFits<M(==)>(capacity: nat, s: State<M>, enqueued: seq<M>) {
    && |s.accepted| + |s.refused| == |enqueued|
    && Sub(s.accepted, enqueued)
    && (s.refused == [] ==> s.accepted == enqueued)
    && (s.refused != [] ==> |s.accepted| >= capacity)
  }

  lemma {:induction false} StepKeepsEnqueued<M>(capacity: nat, s: State<M>, a: Action<M>, enqueued: seq<M>)
    requires InOrder(capacity, s) && EnqueuedFits(capacity, s, enqueued) && Enabled(s, a)
    ensures EnqueuedFits(capacity, Next(capacity, s, a), if a.Enqueue? then enqueued + [a.msg] else enqueued)
  {
    if a.Enqueue? {
      SubSnoc(s.accepted, enqueued, a.msg);
      assert |s.refused + [a.msg]| > 0;
    }
  }

  /**
   Every message is accepted or refused. Those accepted keep the order of the producers, none is refused
   unless as many as the ring has slots were accepted, and if none is, all were.
   */
  lemma {:induction false} AcceptedAsEnqueued<M>(capacity: nat, actions: seq<Action<M>>)
    requires IsRun(capacity, actions)
    ensures EnqueuedFits(capacity, Reached(capacity, actions), Enqueued(actions))
  {
    if actions != [] {
      var before := Reached(capacity, Front(actions));
      AcceptedAsEnqueued(capacity, Front(actions));
      RunKeepsInv(capacity, Front(actions));
      StepKeepsEnqueued(capacity, before, Last(actions), Enqueued(Front(actions)));
      assert Enqueued(Front(actions)) + [] == Enqueued(Front(actions));
    }
  }

  // ---------------------------------------------------------------- what became of the change requests

  /** The ports asked for, in order. */
  function Requested<M>(actions: seq<Action<M>>): seq<char> {
    if actions == [] then []
    else Requested(Front(actions)) + if Last(actions).RequestChange? then [Last(actions).port] else []
  }

  /** For each send of a change, how many requests there had been. */
  function SentAt<M>(actions: seq<Action<M>>): seq<nat> {
    if actions == [] then []
    else SentAt(Front(actions)) + if Last(actions).SendChange? then [|Requested(Front(actions))|] else []
  }

  /** The consumer has sent a change and not yet cleared the flag. */
  predicate AmidChange<M>(actions: seq<Action<M>>) {
    actions != [] && (Last(actions).SendChange? || (!Last(actions).ClearChange? && AmidChange(Front(actions))))
  }

  /** The last request came there, where it is cleared unsent. */
  predicate LastRequestAmidChange<M>(actions: seq<Action<M>>) {
    actions != [] && if Last(actions).RequestChange? then AmidChange(Front(actions))
                     else LastRequestAmidChange(Front(actions))
  }

  /** What was sent, against the requests it answers. */
  predicate SentMatch(sent: seq<char>, requested: seq<char>, sentAt: seq<nat>) {
    && |sent| == |sentAt|
    && (forall i | 0 <= i < |sentAt| :: 0 < sentAt[i] <= |requested| && sent[i] == requested[sentAt[i] - 1])
    && (forall i, j | 0 <= i < j < |sentAt| :: sentAt[i] < sentAt[j])
  }

  /** What is to be sent: while the flag is to be read, it holds the newest request, which was not sent yet. */
  predicate PendingFits<M>(s: State<M>, requested: seq<char>, sentAt: seq<nat>, amid: bool) {
    && (amid <==> s.phase.ChangeSent?) && (amid ==> sentAt != [])
    && (!amid && (s.pending != '\0' || s.phase.SendingChange?) ==>
          requested != [] && s.pending == Last(requested) && (sentAt == [] || Last(sentAt) < |requested|))
  }

  predicate SendsFit<M>(s: State<M>, requested: seq<char>, sentAt: seq<nat>, amid: bool) {
    SentMatch(s.changesSent, requested, sentAt) && PendingFits(s, requested, sentAt, amid)
  }

  lemma RequestKeepsMatch(sent: seq<char>, requested: seq<char>, sentAt: seq<nat>, port: char)
    requires SentMatch(sent, requested, sentAt)
    ensures SentMatch(sent, requested + [port], sentAt)
    ensures sentAt != [] ==> Last(sentAt) <= |requested|
  {
  }

  lemma SendKeepsMatch(sent: seq<char>, requested: seq<char>, sentAt: seq<nat>)
    requires SentMatch(sent, requested, sentAt) && requested != [] && (sentAt == [] || Last(sentAt) < |requested|)
    ensures SentMatch(sent + [Last(requested)], requested, sentAt + [|requested|])
  {
    assert forall i | 0 <= i < |sentAt| :: sentAt[i] <= Last(sentAt);
  }

  lemma {:induction false} StepKeepsSends<M>(capacity: nat, s: State<M>, a: Action<M>, requested: seq<char>,
                                             sentAt: seq<nat>, amid: bool)
    requires Enabled(s, a) && SendsFit(s, requested, sentAt, amid)
    ensures var s' := Next(capacity, s, a);
            match a
            case RequestChange(port) => SendsFit(s', requested + [port], sentAt, amid)
            case SendChange => SendsFit(s', requested, sentAt + [|requested|], true)
            case ClearChange => SendsFit(s', requested, sentAt, false)
            case _ => SendsFit(s', requested, sentAt, amid)
  {
    match a
    case RequestChange(port) => RequestKeepsMatch(s.changesSent, requested, sentAt, port);
    case SendChange => SendKeepsMatch(s.changesSent, requested, sentAt);
    case _ =>
  }

  /** Each change sent is the newest one asked for at that time, and no request is sent twice. */
  lemma {:induction false} ChangesSentWereRequested<M>(capacity: nat, actions: seq<Action<M>>)
    requires IsRun(capacity, actions)
    ensures SendsFit(Reached(capacity, actions), Requested(actions), SentAt(actions), AmidChange(actions))
  {
    if actions != [] {
      var requested, sentAt := Requested(Front(actions)), SentAt(Front(actions));
      ChangesSentWereRequested(capacity, Front(actions));
      StepKeepsSends(capacity, Reached(capacity, Front(actions)), Last(actions), requested, sentAt,
                     AmidChange(Front(actions)));
      assert requested + [] == requested && sentAt + [] == sentAt;
    }
  }

  /** The last request was sent. */
  predicate CaughtUp(requested: seq<char>, sentAt: seq<nat>) {
    sentAt != [] && Last(sentAt) == |requested|
  }

  predicate LastFits<M>(s: State<M>, requested: seq<char>, sentAt: seq<nat>, lost: bool) {
    && (requested == [] ==> s.pending == '\0')
    && (lost ==> sentAt != [])
    && (requested != [] ==>
          if s.pending != '\0' && !s.phase.ChangeSent? then !lost else CaughtUp(requested, sentAt) <==> !lost)
  }

  lemma {:induction false} StepKeepsLast<M>(capacity: nat, s: State<M>, a: Action<M>, requested: seq<char>,
                                            sentAt: seq<nat>, amid: bool, lost: bool)
    requires Enabled(s, a) && '\0' !in requested && (a.RequestChange? ==> a.port != '\0')
    requires SendsFit(s, requested, sentAt, amid) && LastFits(s, requested, sentAt, lost)
    ensures var s' := Next(capacity, s, a);
            match a
            case RequestChange(port) => LastFits(s', requested + [port], sentAt, amid)
            case SendChange => LastFits(s', requested, sentAt + [|requested|], lost)
            case _ => LastFits(s', requested, sentAt, lost)
  {
    assert s.phase.SendingChange? ==> s.pending in requested;
    if a.RequestChange? {
      RequestKeepsMatch(s.changesSent, requested, sentAt, a.port);
    }
  }

  lemma {:induction false} RunKeepsLast<M>(capacity: nat, actions: seq<Action<M>>)
    requires IsRun(capacity, actions) && '\0' !in Requested(actions)
    ensures LastFits(Reached(capacity, actions), Requested(actions), SentAt(actions), LastRequestAmidChange(actions))
  {
    if actions != [] {
      var front, a := Front(actions), Last(actions);
      var requested, sentAt := Requested(front), SentAt(front);
      assert requested + [] == requested && sentAt + [] == sentAt;
      assert a.RequestChange? ==> a.port in Requested(actions);
      RunKeepsLast(capacity, front);
      ChangesSentWereRequested(capacity, front);
      StepKeepsLast(capacity, Reached(capacity, front), a, requested, sentAt, AmidChange(front),
                    LastRequestAmidChange(front));
    }
  }

  /**
   A consumer asleep for good that was asked for changes has sent one; and the last one asked for was sent,
   as the last, exactly if it was not asked for between a send and the clearing of the flag.
   */
  lemma {:induction false} LastChangeIsSent<M>(capacity: nat, actions: seq<Action<M>>)
    requires IsRun(capacity, actions) && '\0' !in Requested(actions) && Requested(actions) != []
    requires Asleep(Reached(capacity, actions))
    ensures var sent := Reached(capacity, actions).changesSent;
            && sent != []
            && (CaughtUp(Requested(actions), SentAt(actions)) <==> !LastRequestAmidChange(actions))
            && (!LastRequestAmidChange(actions) ==> Last(sent) == Last(Requested(actions)))
  {
    NoLostWakeUp(capacity, actions);
    ChangesSentWereRequested(capacity, actions);
    RunKeepsLast(capacity, actions);
  }

  // ---------------------------------------------------------------- a queue without change requests

  predicate Plain<M>(a: Action<M>) {
    !a.RequestChange? && !a.WaitFails?
  }

  /** The token the consumer holds between its wait and its dequeue. */
  function Held<M>(s: State<M>): nat {
    if s.phase.Woken? || s.phase.ToDequeue? then 1 else 0
  }

  predicate Exact<M>(s: State<M>) {
    && s.sem + s.inFlight + Held(s) == |s.ring|
    && s.pending == '\0' && !s.phase.SendingChange? && !s.phase.ChangeSent?
  }

  /**
   The CTI queue posts for messages only: as long as sem_wait succeeds, tokens and messages match exactly,
   so the consumer never finds the queue empty, and it parses the messages in the order of acceptance.
   */
  lemma {:induction false} TokensMatchMessages<M>(capacity: nat, actions: seq<Action<M>>)
    requires IsRun(capacity, actions) && forall a | a in actions :: Plain(a)
    ensures var s := Reached(capacity, actions);
            && Exact(s)
            && (s.phase.ToDequeue? ==> s.ring != [])
            && s.taken <= s.accepted
  {
    if actions != [] {
      var front, a := Front(actions), Last(actions);
      assert a in actions;
      TokensMatchMessages(capacity, front);
    }
    RunKeepsInv(capacity, actions);
  }
}
