/**
 From the CTI socket to the notices: the socket thread enqueues the messages of five types, and the handler
 takes them from the queue and parses each as it comes.
 */
module CtiDelivery {
  import opened Rings
  import opened Streams
  import opened IpIndex
  import opened CallTracking
  import opened CallIndependence
  import Mailbox

  /** `received` and `parsed` list the messages of the socket and of the handler so far. */
  datatype State = State(box: Mailbox.State<Message>, tracker: Tracker, sent: seq<Notice>,
                         received: seq<Message>, parsed: seq<Message>)

  datatype Action =
    | Receive(m: Message)               // the socket thread, up to the unlock
    | Box(b: Mailbox.Action<Message>)   // its post, or a step of the handler before it holds a message
    | Parse

  function Start(): State {
    State(Mailbox.Start(), After(map[], []), [], [], [])
  }

  predicate Enabled(s: State, a: Action) {
    match a
    case Receive(_) => true
    case Box(b) => Mailbox.Enabled(s.box, b) && !b.Enqueue? && !b.Finish? && !b.RequestChange?
    case Parse => s.box.phase.InHand?
  }

  function Next(t: Table, s: State, a: Action): State
    requires Enabled(s, a)
  {
    match a
    case Receive(m) =>
      var heard := s.(received := s.received + [m]);
      if Queued(m.messageType) then
        heard.(box := Mailbox.Next(MAX_CTI_QUEUE_SIZE, s.box, Mailbox.Enqueue(m)))
      else heard
    case Box(b) => s.(box := Mailbox.Next(MAX_CTI_QUEUE_SIZE, s.box, b))
    case Parse =>
      var m := s.box.phase.msg;
      var (tracker, sent) := Step(t, s.tracker, Parsed(m));
      s.(box := Mailbox.Next(MAX_CTI_QUEUE_SIZE, s.box, Mailbox.Finish),
         tracker := tracker, sent := s.sent + sent, parsed := s.parsed + [m])
  }

  function InHand(s: State): seq<Message> {
    if s.box.phase.InHand? then [s.box.phase.msg] else []
  }

  /** The handler has done with the parsed messages what the tracker does. */
  predicate ParsedFits(t: Table, s: State) {
    && s.box.taken == s.parsed + InHand(s)
    && s.tracker == After(t, ParsedAll(s.parsed))
    && s.sent == Log(t, ParsedAll(s.parsed))
  }

  /** As long as the queue was never full, it accepted exactly the messages of the five types. */
  predicate ReceivedFits(s: State) {
    s.box.refused == [] ==> s.box.accepted == QueuedOnly(s.received)
  }

  predicate Inv(t: Table, s: State) {
    Mailbox.Inv(MAX_CTI_QUEUE_SIZE, s.box) && ParsedFits(t, s) && ReceivedFits(s)
  }

  lemma {:induction false} ReceiveKeepsInv(t: Table, s: State, m: Message)
    requires Inv(t, s)
    ensures Inv(t, Next(t, s, Receive(m)))
  {
    assert Front(s.received + [m]) == s.received;
    if Queued(m.messageType) {
      Mailbox.StepKeepsInv(MAX_CTI_QUEUE_SIZE, s.box, Mailbox.Enqueue(m));
      assert |s.box.refused + [m]| > 0;
    } else {
      assert QueuedOnly(s.received) + [] == QueuedOnly(s.received);
    }
  }

  lemma {:induction false} BoxKeepsInv(t: Table, s: State, b: Mailbox.Action<Message>)
    requires Inv(t, s) && Enabled(s, Box(b))
    ensures Inv(t, Next(t, s, Box(b)))
  {
    Mailbox.StepKeepsInv(MAX_CTI_QUEUE_SIZE, s.box, b);
    if b.Dequeue? && s.box.ring != [] {
      assert s.parsed + [] == s.parsed;
    }
  }

  lemma {:induction false} ParseKeepsInv(t: Table, s: State)
    requires Inv(t, s) && Enabled(s, Parse)
    ensures Inv(t, Next(t, s, Parse))
  {
    var m := s.box.phase.msg;
    var parsed := s.parsed + [m];
    Mailbox.StepKeepsInv(MAX_CTI_QUEUE_SIZE, s.box, Mailbox.Finish);
    RunSnoc(t, ParsedAll(s.parsed), Parsed(m));
    assert Front(parsed) == s.parsed && parsed + [] == parsed;
  }

  lemma {:induction false} StepKeepsInv(t: Table, s: State, a: Action)
    requires Inv(t, s) && Enabled(s, a)
    ensures Inv(t, Next(t, s, a))
  {
    match a
    case Receive(m) => ReceiveKeepsInv(t, s, m);
    case Box(b) => BoxKeepsInv(t, s, b);
    case Parse => ParseKeepsInv(t, s);
  }

  // ---------------------------------------------------------------- runs

  predicate IsRun(t: Table, actions: seq<Action>)
    decreases |actions|, 0
  {
    actions == [] || (IsRun(t, Front(actions)) && Enabled(Reached(t, Front(actions)), Last(actions)))
  }

  function Reached(t: Table, actions: seq<Action>): State
    requires IsRun(t, actions)
    decreases |actions|, 1
  {
    if actions == [] then Start() else Next(t, Reached(t, Front(actions)), Last(actions))
  }

  lemma {:induction false} RunKeepsInv(t: Table, actions: seq<Action>)
    requires IsRun(t, actions)
    ensures Inv(t, Reached(t, actions))
  {
    if actions != [] {
      RunKeepsInv(t, Front(actions));
      StepKeepsInv(t, Reached(t, Front(actions)), Last(actions));
    }
  }

  /**
   At every moment of every run the notices sent are those of the tracker over the messages parsed, and these
   are the accepted ones in their order but for the one in hand and those in the ring.
   */
  lemma {:induction false} NoticesFollowQueue(t: Table, actions: seq<Action>)
    requires IsRun(t, actions)
    ensures var s := Reached(t, actions);
            s.sent == Log(t, ParsedAll(s.parsed)) && s.box.accepted == s.parsed + InHand(s) + s.box.ring
  {
    RunKeepsInv(t, actions);
  }

  /**
   If the queue was never full, then whenever the handler sleeps for good it has sent the notices, and holds
   the calls, of the whole stream the socket received.
   */
  lemma {:induction false} WholeStreamIsReported(t: Table, actions: seq<Action>)
    requires IsRun(t, actions)
    requires Mailbox.Asleep(Reached(t, actions).box) && Reached(t, actions).box.refused == []
    ensures var s := Reached(t, actions);
            s.sent == Log(t, ParsedAll(s.received)) && s.tracker == After(t, ParsedAll(s.received))
  {
    var s := Reached(t, actions);
    RunKeepsInv(t, actions);
    assert s.parsed + [] == s.parsed && s.parsed + s.box.ring == s.parsed;
    DiscardedMessagesDoNotMatter(t, s.received);
  }
}
