/**
 All VAS handlers together with the extra VAS they forward to when their own server is dead. The extra VAS
 has a mailbox of its own; its loop sends a message if its connection is up and discards it otherwise.
 */
module Forwarding {
  import opened Rings
  import opened Streams
  import Mailbox
  import VasDelivery

  datatype Fate = Sent | Discarded

  datatype Admission = Admitted | Refused

  /** A forwarded message with the number of the handler it came from. */
  type Parcel<M> = (nat, M)

  /** `offers` lists what the handlers forwarded, `admissions` whether the ring had room for it. */
  datatype State<M> = State(handlers: seq<VasDelivery.State<M>>, box: Mailbox.State<Parcel<M>>, connected: bool,
                            offers: seq<Parcel<M>>, admissions: seq<Admission>,
                            fates: seq<Fate>, sent: seq<Parcel<M>>, discarded: seq<Parcel<M>>)

  datatype Action<M> =
    | Handler(i: nat, a: VasDelivery.Action<M>)
    | Box(b: Mailbox.Action<Parcel<M>>)  // posts, change requests and the extra consumer's own steps
    | Flip(up: bool)                     // its watcher gains or loses the connection
    | Deliver                            // it reads the flag once, and sends or discards

  function Start<M>(count: nat): State<M> {
    State(seq(count, i => VasDelivery.Start()), Mailbox.Start(), false, [], [], [], [], [])
  }

  predicate Enabled<M>(s: State<M>, a: Action<M>) {
    match a
    case Handler(i, h) => i < |s.handlers| && VasDelivery.Enabled(s.handlers[i], h)
    case Box(b) => Mailbox.Enabled(s.box, b) && !b.Enqueue? && !b.Finish?
    case Flip(_) => true
    case Deliver => s.box.phase.InHand?
  }

  function Next<M>(s: State<M>, a: Action<M>): State<M>
    requires Enabled(s, a)
  {
    match a
    case Handler(i, h) =>
      var moved := s.(handlers := s.handlers[i := VasDelivery.Next(s.handlers[i], h)]);
      if h.Forward? then Offered(moved, (i, s.handlers[i].box.phase.msg)) else moved
    case Box(b) => s.(box := Mailbox.Next(MAX_VAS_EXTRA_QUEUE_SIZE, s.box, b))
    case Flip(up) => s.(connected := up)
    case Deliver =>
      var p := s.box.phase.msg;
      var rest := s.(box := Mailbox.Next(MAX_VAS_EXTRA_QUEUE_SIZE, s.box, Mailbox.Finish));
      if s.connected then rest.(sent := s.sent + [p], fates := s.fates + [Sent])
      else rest.(discarded := s.discarded + [p], fates := s.fates + [Discarded])
  }

  function Admits<M>(s: State<M>): Admission {
    if |s.box.ring| < MAX_VAS_EXTRA_QUEUE_SIZE then Admitted else Refused
  }

  function Offered<M>(s: State<M>, p: Parcel<M>): State<M> {
    s.(box := Mailbox.Next(MAX_VAS_EXTRA_QUEUE_SIZE, s.box, Mailbox.Enqueue(p)),
       offers := s.offers + [p], admissions := s.admissions + [Admits(s)])
  }

  function InHand<M>(s: State<M>): seq<Parcel<M>> {
    if s.box.phase.InHand? then [s.box.phase.msg] else []
  }

  function Disposed<M>(s: State<M>): seq<Parcel<M>> {
    if |s.fates| <= |s.box.taken| then s.box.taken[..|s.fates|] else []
  }

  ghost predicate OffersFit<M>(s: State<M>) {
    && |s.admissions| == |s.offers|
    && s.box.accepted == Picked(s.offers, s.admissions, Admitted)
    && s.box.refused == Picked(s.offers, s.admissions, Refused)
    && (forall i | 0 <= i < |s.handlers| :: FromSource(s.offers, i) == s.handlers[i].extra)
  }

  predicate FatesFit<M(==)>(s: State<M>) {
    && s.box.taken == Disposed(s) + InHand(s) && |Disposed(s)| == |s.fates|
    && s.sent == Picked(Disposed(s), s.fates, Sent)
    && s.discarded == Picked(Disposed(s), s.fates, Discarded)
  }

  ghost predicate HandlersFit<M>(s: State<M>) {
    forall i | 0 <= i < |s.handlers| :: VasDelivery.Inv(s.handlers[i])
  }

  ghost predicate Inv<M>(s: State<M>) {
    HandlersFit(s) && Mailbox.Inv(MAX_VAS_EXTRA_QUEUE_SIZE, s.box) && OffersFit(s) && FatesFit(s)
  }

  lemma OfferKeeps<M>(s: State<M>, i: nat, p: Parcel<M>, s': State<M>)
    requires OffersFit(s) && FatesFit(s) && i < |s.handlers| && p.0 == i
    requires s' == Offered(s.(handlers := s'.handlers), p) && |s'.handlers| == |s.handlers|
    requires forall j | 0 <= j < |s.handlers| ::
               s'.handlers[j].extra == s.handlers[j].extra + if j == i then [p.1] else []
    ensures OffersFit(s') && FatesFit(s')
  {
    PickedSnoc(s.offers, s.admissions, p, Admits(s), Admitted);
    PickedSnoc(s.offers, s.admissions, p, Admits(s), Refused);
    forall j | 0 <= j < |s'.handlers|
      ensures FromSource(s'.offers, j) == s'.handlers[j].extra
    {
      FromSourceSnoc(s.offers, p, j);
    }
    assert s'.box.taken == s.box.taken && InHand(s') == InHand(s) && Disposed(s') == Disposed(s);
  }

  lemma HandlerMoves<M>(s: State<M>, i: nat, h: VasDelivery.Action<M>)
    requires Enabled(s, Handler(i, h))
    ensures Next(s, Handler(i, h)).handlers == s.handlers[i := VasDelivery.Next(s.handlers[i], h)]
  {
  }

  lemma {:induction false} HandlerKeepsHandlers<M>(s: State<M>, i: nat, h: VasDelivery.Action<M>)
    requires HandlersFit(s) && Enabled(s, Handler(i, h))
    ensures HandlersFit(Next(s, Handler(i, h)))
  {
    var handlers := Next(s, Handler(i, h)).handlers;
    HandlerMoves(s, i, h);
    forall j | 0 <= j < |handlers|
      ensures VasDelivery.Inv(handlers[j])
    {
      if j == i {
        VasDelivery.StepKeepsInv(s.handlers[i], h);
      }
    }
  }

  lemma {:induction false} ForwardKeepsInv<M>(s: State<M>, i: nat)
    requires Inv(s) && Enabled(s, Handler(i, VasDelivery.Forward))
    ensures Inv(Next(s, Handler(i, VasDelivery.Forward)))
  {
    var s', p := Next(s, Handler(i, VasDelivery.Forward)), (i, s.handlers[i].box.phase.msg);
    HandlerMoves(s, i, VasDelivery.Forward);
    HandlerKeepsHandlers(s, i, VasDelivery.Forward);
    Mailbox.StepKeepsInv(MAX_VAS_EXTRA_QUEUE_SIZE, s.box, Mailbox.Enqueue(p));
    assert forall j | 0 <= j < |s.handlers| && j != i :: s'.handlers[j].extra + [] == s'.handlers[j].extra;
    OfferKeeps(s, i, p, s');
  }

  lemma {:induction false} OtherStepsKeepOffers<M>(s: State<M>, i: nat, h: VasDelivery.Action<M>)
    requires OffersFit(s) && FatesFit(s) && Enabled(s, Handler(i, h)) && !h.Forward?
    ensures OffersFit(Next(s, Handler(i, h))) && FatesFit(Next(s, Handler(i, h)))
  {
    assert VasDelivery.Next(s.handlers[i], h).extra == s.handlers[i].extra;
  }

  lemma {:induction false} HandlerKeepsInv<M>(s: State<M>, i: nat, h: VasDelivery.Action<M>)
    requires Inv(s) && Enabled(s, Handler(i, h))
    ensures Inv(Next(s, Handler(i, h)))
  {
    if h.Forward? {
      ForwardKeepsInv(s, i);
    } else {
      HandlerKeepsHandlers(s, i, h);
      OtherStepsKeepOffers(s, i, h);
    }
  }

  lemma BoxKeepsInv<M>(s: State<M>, b: Mailbox.Action<Parcel<M>>)
    requires Inv(s) && Enabled(s, Box(b))
    ensures Inv(Next(s, Box(b)))
  {
    var s' := Next(s, Box(b));
    Mailbox.StepKeepsInv(MAX_VAS_EXTRA_QUEUE_SIZE, s.box, b);
    if b.Dequeue? && s.box.ring != [] {
      assert Disposed(s') == Disposed(s) && Disposed(s) + [] == Disposed(s);
    } else {
      assert s'.box.taken == s.box.taken && InHand(s') == InHand(s);
    }
  }

  lemma {:induction false} DeliverKeepsFates<M>(s: State<M>)
    requires FatesFit(s) && Enabled(s, Deliver)
    ensures FatesFit(Next(s, Deliver))
  {
    var s', p, before := Next(s, Deliver), s.box.phase.msg, Disposed(s);
    var fate := if s.connected then Sent else Discarded;
    assert Disposed(s') == s.box.taken == before + [p] && s'.box.taken == Disposed(s') + InHand(s');
    PickedSnoc(before, s.fates, p, fate, Sent);
    PickedSnoc(before, s.fates, p, fate, Discarded);
    assert s.sent + [] == s.sent && s.discarded + [] == s.discarded;
  }

  lemma {:induction false} DeliverKeepsInv<M>(s: State<M>)
    requires Inv(s) && Enabled(s, Deliver)
    ensures Inv(Next(s, Deliver))
  {
    Mailbox.StepKeepsInv(MAX_VAS_EXTRA_QUEUE_SIZE, s.box, Mailbox.Finish);
    DeliverKeepsFates(s);
  }

  lemma StepKeepsInv<M>(s: State<M>, a: Action<M>)
    requires Inv(s) && Enabled(s, a)
    ensures Inv(Next(s, a))
  {
    match a
    case Handler(i, h) => HandlerKeepsInv(s, i, h);
    case Box(b) => BoxKeepsInv(s, b);
    case Flip(_) =>
    case Deliver => DeliverKeepsInv(s);
  }

  // ---------------------------------------------------------------- runs

  predicate IsRun<M>(count: nat, actions: seq<Action<M>>)
    decreases |actions|, 0
  {
    actions == [] || (IsRun(count, Front(actions)) && Enabled(Reached(count, Front(actions)), Last(actions)))
  }

  function Reached<M>(count: nat, actions: seq<Action<M>>): State<M>
    requires IsRun(count, actions)
    decreases |actions|, 1
  {
    if actions == [] then Start(count) else Next(Reached(count, Front(actions)), Last(actions))
  }

  lemma {:induction false} StartFits<M>(count: nat)
    ensures Inv<M>(Start(count))
  {
    var s: State<M> := Start(count);
    VasDelivery.StartFits<M>();
    assert forall i | 0 <= i < |s.handlers| :: s.handlers[i] == VasDelivery.Start();
  }

  lemma StepKeepsCount<M>(s: State<M>, a: Action<M>)
    requires Enabled(s, a)
    ensures |Next(s, a).handlers| == |s.handlers|
  {
  }

  lemma {:induction false} RunKeepsInv<M>(count: nat, actions: seq<Action<M>>)
    requires IsRun(count, actions)
    ensures Inv(Reached(count, actions)) && |Reached(count, actions).handlers| == count
  {
    if actions == [] {
      StartFits<M>(count);
    } else {
      var before := Reached(count, Front(actions));
      RunKeepsInv(count, Front(actions));
      StepKeepsInv(before, Last(actions));
      StepKeepsCount(before, Last(actions));
    }
  }

  /**
   Conservation from every handler to the extra VAS: what a handler forwarded is what it offered; each offer
   was admitted or refused by the ring; each admitted message was sent or discarded, is in hand, or waits.
   */
  ghost predicate Conserved<M>(s: State<M>) {
    && (forall i | 0 <= i < |s.handlers| :: FromSource(s.offers, i) == s.handlers[i].extra)
    && |s.admissions| == |s.offers|
    && Picked(s.offers, s.admissions, Admitted) == Disposed(s) + InHand(s) + s.box.ring
    && Picked(s.offers, s.admissions, Refused) == s.box.refused
    && |s.fates| == |Disposed(s)|
    && s.sent == Picked(Disposed(s), s.fates, Sent)
    && s.discarded == Picked(Disposed(s), s.fates, Discarded)
    && |s.sent| + |s.discarded| + |InHand(s)| + |s.box.ring| + |s.box.refused| == |s.offers|
    && (s.box.refused != [] ==> |s.box.accepted| >= 700)
  }

  lemma InvImpliesConserved<M>(s: State<M>)
    requires Inv(s)
    ensures Conserved(s)
  {
    assert forall i | 0 <= i < |s.admissions| :: s.admissions[i].Admitted? || s.admissions[i].Refused?;
    assert forall i | 0 <= i < |s.fates| :: s.fates[i].Sent? || s.fates[i].Discarded?;
    PickedSplit(s.offers, s.admissions, Admitted, Refused);
    PickedSplit(Disposed(s), s.fates, Sent, Discarded);
  }

  lemma {:induction false} ForwardedMessagesAreConserved<M>(count: nat, actions: seq<Action<M>>)
    requires IsRun(count, actions)
    ensures Conserved(Reached(count, actions)) && |Reached(count, actions).handlers| == count
  {
    RunKeepsInv(count, actions);
    InvImpliesConserved(Reached(count, actions));
  }

  /** The extra VAS gets the messages of each handler in the order that handler accepted them. */
  ghost predicate InSourceOrder<M>(s: State<M>, h: VasDelivery.State<M>, i: nat) {
    && Sub(FromSource(s.sent, i), h.extra)
    && Sub(h.extra, h.box.accepted)
    && Sub(FromSource(s.sent, i), h.box.accepted)
  }

  lemma SentIsSubOfOffers<M>(s: State<M>)
    requires Inv(s)
    ensures Sub(s.sent, s.offers)
  {
    PickedIsSub(Disposed(s), s.fates, Sent);
    PrefixIsSub(Disposed(s), s.box.accepted);
    PickedIsSub(s.offers, s.admissions, Admitted);
    SubTransitive(s.sent, Disposed(s), s.box.accepted);
    SubTransitive(s.sent, s.box.accepted, s.offers);
  }

  lemma ForwardedIsSubOfAccepted<M>(h: VasDelivery.State<M>)
    requires VasDelivery.Inv(h)
    ensures Sub(h.extra, h.box.accepted)
  {
    PickedIsSub(VasDelivery.Disposed(h), h.routes, VasDelivery.Extra);
    PrefixIsSub(VasDelivery.Disposed(h), h.box.accepted);
    SubTransitive(h.extra, VasDelivery.Disposed(h), h.box.accepted);
  }

  lemma EachSourceKeepsItsOrder<M>(count: nat, actions: seq<Action<M>>, i: nat)
    requires IsRun(count, actions) && i < count
    ensures var s := Reached(count, actions);
            |s.handlers| == count && InSourceOrder(s, s.handlers[i], i)
  {
    RunKeepsInv(count, actions);
    var s := Reached(count, actions);
    var h := s.handlers[i];
    SentIsSubOfOffers(s);
    SubFromSource(s.sent, s.offers, i);
    ForwardedIsSubOfAccepted(h);
    SubTransitive(FromSource(s.sent, i), h.extra, h.box.accepted);
  }

  // ---------------------------------------------------------------- what decides between sending and discarding

  /** The connection of the extra VAS, by the last gain or loss of it. */
  predicate Up<M>(actions: seq<Action<M>>) {
    actions != [] && if Last(actions).Flip? then Last(actions).up else Up(Front(actions))
  }

  /** The fates of all deliveries so far: sent exactly while the connection is up. */
  function FatesOf<M>(actions: seq<Action<M>>): seq<Fate> {
    if actions == [] then []
    else if !Last(actions).Deliver? then FatesOf(Front(actions))
    else FatesOf(Front(actions)) + [if Up(Front(actions)) then Sent else Discarded]
  }

  /** Each delivery is sent or discarded as the connection stood at that moment. */
  lemma {:induction false} FatesFollowConnection<M>(count: nat, actions: seq<Action<M>>)
    requires IsRun(count, actions)
    ensures Reached(count, actions).connected == Up(actions) && Reached(count, actions).fates == FatesOf(actions)
  {
    if actions != [] {
      FatesFollowConnection(count, Front(actions));
    }
  }

  lemma {:induction false} DownMeansDiscarded<M>(actions: seq<Action<M>>)
    requires Flip(true) !in actions
    ensures !Up(actions) && Sent !in FatesOf(actions)
  {
    if actions != [] {
      assert Last(actions) in actions && forall a | a in Front(actions) :: a in actions;
      DownMeansDiscarded(Front(actions));
    }
  }

  /** An extra VAS that never had a connection was sent nothing. */
  lemma {:induction false} NothingSentUnconnected<M>(count: nat, actions: seq<Action<M>>)
    requires IsRun(count, actions) && Flip(true) !in actions
    ensures Reached(count, actions).sent == []
  {
    var s := Reached(count, actions);
    RunKeepsInv(count, actions);
    FatesFollowConnection(count, actions);
    DownMeansDiscarded(actions);
    PickedNone(Disposed(s), s.fates, Sent);
  }

  /** The connection came up before the first delivery and was not lost since. */
  predicate UpThroughout<M(==)>(actions: seq<Action<M>>, k: nat) {
    && k < |actions| && actions[k] == Flip(true) && Deliver !in actions[..k]
    && Flip(false) !in actions[k..]
  }

  lemma {:induction false} NoDeliveryNoFate<M>(actions: seq<Action<M>>)
    requires Deliver !in actions
    ensures FatesOf(actions) == []
  {
    if actions != [] {
      assert Last(actions) in actions && forall a | a in Front(actions) :: a in actions;
      NoDeliveryNoFate(Front(actions));
    }
  }

  lemma {:induction false} UpMeansSent<M>(actions: seq<Action<M>>, k: nat)
    requires UpThroughout(actions, k)
    ensures Up(actions) && Discarded !in FatesOf(actions)
  {
    var front, a := Front(actions), Last(actions);
    assert a in actions[k..];
    if k == |actions| - 1 {
      assert front == actions[..k];
      NoDeliveryNoFate(front);
    } else {
      assert front[..k] == actions[..k];
      assert forall x | x in front[k..] :: x in actions[k..];
      UpMeansSent(front, k);
    }
  }

  /** With a connection that lasts, nothing is discarded. */
  lemma {:induction false} NothingDiscardedConnected<M>(count: nat, actions: seq<Action<M>>, k: nat)
    requires IsRun(count, actions) && UpThroughout(actions, k)
    ensures Reached(count, actions).discarded == []
  {
    var s := Reached(count, actions);
    RunKeepsInv(count, actions);
    FatesFollowConnection(count, actions);
    UpMeansSent(actions, k);
    PickedNone(Disposed(s), s.fates, Discarded);
  }
}
