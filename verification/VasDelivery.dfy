/**
 One VAS handler: its mailbox, the watcher of its connection, and the loop that gives each dequeued message
 either to the primary VAS or to the extra VAS. The loop tests the watcher's two flags one read at a time,
 and the watcher may move between any two reads.
 */
module VasDelivery {
  import opened Rings
  import opened Streams
  import Mailbox
  import Watcher

  /** The next flag test (or the decision taken) for the message in hand. */
  datatype Spot = Test1 | Test2 | Test3 | Test4 | Wait1 | Wait2 | Wait3 | ToSend | ToForward

  datatype Route = Primary | Extra

  /**
   Three marks say how much of the watcher's story had been told: when the message in hand was taken, when a
   read last saw the VAS alive (connected, or not declared dead), and when one last saw it declared dead.
   */
  datatype State<M> = State(box: Mailbox.State<M>, watch: Watcher.State, running: bool, spot: Spot,
                            takenAt: nat, aliveAt: nat, deadAt: nat,
                            routes: seq<Route>, primary: seq<M>, extra: seq<M>)

  datatype Action<M> =
    | Begin                        // the loop starts once it sees a connection
    | Box(a: Mailbox.Action<M>)    // a producer's step, or one of the consumer before it holds a message
    | Read                         // one flag test
    | Send                         // send() to the primary VAS, whatever it returns
    | Forward                      // EnqueueMessage of the extra VAS
    | Watch(w: Watcher.Action)

  function Start<M>(): State<M> {
    State(Mailbox.Start(), Watcher.Start(), false, Test1, 0, 0, 0, [], [], [])
  }

  predicate Enabled<M>(s: State<M>, a: Action<M>) {
    match a
    case Begin => s.watch.connected
    case Box(b) => Mailbox.Enabled(s.box, b) && !b.Finish? && (b.Wait? || b.WaitFails? ==> s.running)
    case Read => s.box.phase.InHand? && !s.spot.ToSend? && !s.spot.ToForward?
    case Send => s.box.phase.InHand? && s.spot.ToSend?
    case Forward => s.box.phase.InHand? && s.spot.ToForward?
    case Watch(_) => true
  }

  function Tested(spot: Spot, connected: bool, failed: bool): Spot {
    match spot
    case Test1 => if !connected then Test2 else Test3
    case Test2 => if failed then ToForward else Test3
    case Test3 => if !connected then Test4 else ToSend
    case Test4 => if !failed then Wait1 else ToSend
    case Wait1 => if connected then ToSend else Wait2
    case Wait2 => if !connected then Wait3 else Wait1
    case Wait3 => if failed then ToForward else Wait1
    case _ => spot
  }

  predicate ReadsConnected(spot: Spot) {
    spot.Test1? || spot.Test3? || spot.Wait1? || spot.Wait2?
  }

  predicate SeesAlive<M>(s: State<M>) {
    if ReadsConnected(s.spot) then s.watch.connected else !s.watch.failed
  }

  predicate SeesDead<M>(s: State<M>) {
    !ReadsConnected(s.spot) && s.watch.failed
  }

  function Next<M>(s: State<M>, a: Action<M>): State<M>
    requires Enabled(s, a)
  {
    match a
    case Begin => s.(running := true)
    case Box(b) =>
      var moved := s.(box := Mailbox.Next(MAX_VAS_QUEUE_SIZE, s.box, b));
      if b.Dequeue? then moved.(spot := Test1, takenAt := |s.watch.story|) else moved
    case Read =>
      var moved := s.(spot := Tested(s.spot, s.watch.connected, s.watch.failed));
      if SeesAlive(s) then moved.(aliveAt := |s.watch.story|)
      else if SeesDead(s) then moved.(deadAt := |s.watch.story|)
      else moved
    case Send =>
      s.(primary := s.primary + [s.box.phase.msg], routes := s.routes + [Primary],
         box := Mailbox.Next(MAX_VAS_QUEUE_SIZE, s.box, Mailbox.Finish))
    case Forward =>
      s.(extra := s.extra + [s.box.phase.msg], routes := s.routes + [Extra],
         box := Mailbox.Next(MAX_VAS_QUEUE_SIZE, s.box, Mailbox.Finish))
    case Watch(w) => s.(watch := Watcher.Next(s.watch, w))
  }

  function InHand<M>(s: State<M>): seq<M> {
    if s.box.phase.InHand? then [s.box.phase.msg] else []
  }

  /** The messages already given to one of the two servers. */
  function Disposed<M>(s: State<M>): seq<M> {
    if |s.routes| <= |s.box.taken| then s.box.taken[..|s.routes|] else []
  }

  predicate Routed<M(==)>(s: State<M>) {
    && s.box.taken == Disposed(s) + InHand(s) && |Disposed(s)| == |s.routes|
    && s.primary == Picked(Disposed(s), s.routes, Primary)
    && s.extra == Picked(Disposed(s), s.routes, Extra)
  }

  /** The loop has seen the VAS alive since it took the message in hand. */
  predicate Past(spot: Spot) {
    !spot.Test1? && !spot.Test2? && !spot.ToForward?
  }

  /** The note told last when that much of the story had been told. */
  predicate EndedAt(story: seq<Watcher.Note>, at: nat, n: Watcher.Note) {
    0 < at <= |story| && story[at - 1] == n
  }

  /** What the reads so far tell of the story, if a message is in hand. */
  predicate ReadsFit(spot: Spot, failed: bool, story: seq<Watcher.Note>, takenAt: nat, aliveAt: nat, deadAt: nat) {
    && takenAt <= |story|
    && (Past(spot) ==> takenAt <= aliveAt <= |story| && (failed ==> Watcher.DeadIn(story, aliveAt)))
    && (spot.ToSend? ==> EndedAt(story, aliveAt, Watcher.Up) || Watcher.DeadIn(story, aliveAt))
    && (spot.ToForward? ==>
          takenAt <= deadAt && (EndedAt(story, deadAt, Watcher.Dead) || EndedAt(story, deadAt, Watcher.Back)))
  }

  predicate InHandFits<M>(s: State<M>) {
    s.box.phase.InHand? ==> ReadsFit(s.spot, s.watch.failed, s.watch.story, s.takenAt, s.aliveAt, s.deadAt)
  }

  ghost predicate Inv<M>(s: State<M>) {
    Mailbox.Inv(MAX_VAS_QUEUE_SIZE, s.box) && Watcher.Inv(s.watch) && Routed(s) && InHandFits(s)
  }

  lemma {:induction false} ReadKeepsReads<M>(s: State<M>)
    requires Watcher.FlagsTell(s.watch) && InHandFits(s) && Enabled(s, Read)
    ensures InHandFits(Next(s, Read))
  {
    if SeesAlive(s) {
      assert !s.watch.failed;
    }
  }

  lemma {:induction false} WatchKeepsReads<M>(s: State<M>, w: Watcher.Action)
    requires InHandFits(s)
    ensures InHandFits(Next(s, Watch(w)))
  {
    if s.box.phase.InHand? {
      if s.aliveAt <= |s.watch.story| {
        Watcher.StepExtendsStory(s.watch, w, s.aliveAt);
      } else {
        Watcher.StepExtendsStory(s.watch, w, 0);
      }
    }
  }

  lemma BoxKeepsRouted<M>(s: State<M>, b: Mailbox.Action<M>)
    requires Routed(s) && Enabled(s, Box(b))
    ensures Routed(Next(s, Box(b)))
  {
    var s' := Next(s, Box(b));
    if b.Dequeue? && s.box.ring != [] {
      assert s'.box.taken[..|s.routes|] == Disposed(s);
      assert InHand(s) == [] && Disposed(s) + [] == Disposed(s);
    } else {
      assert s'.box.taken == s.box.taken && InHand(s') == InHand(s);
    }
  }

  lemma DisposeKeepsRouted<M>(s: State<M>, route: Route)
    requires Routed(s) && Enabled(s, if route.Primary? then Send else Forward)
    ensures Routed(Next(s, if route.Primary? then Send else Forward))
  {
    var s', m := Next(s, if route.Primary? then Send else Forward), s.box.phase.msg;
    var before := Disposed(s);
    assert Disposed(s') == s.box.taken == before + [m];
    assert s'.box.taken == Disposed(s') + InHand(s');
    PickedSnoc(before, s.routes, m, route, Primary);
    PickedSnoc(before, s.routes, m, route, Extra);
    assert s.primary + [] == s.primary && s.extra + [] == s.extra;
  }

  lemma BoxKeepsInv<M>(s: State<M>, b: Mailbox.Action<M>)
    requires Inv(s) && Enabled(s, Box(b))
    ensures Inv(Next(s, Box(b)))
  {
    Mailbox.StepKeepsInv(MAX_VAS_QUEUE_SIZE, s.box, b);
    BoxKeepsRouted(s, b);
  }

  lemma DisposeKeepsInv<M>(s: State<M>, route: Route)
    requires Inv(s) && Enabled(s, if route.Primary? then Send else Forward)
    ensures Inv(Next(s, if route.Primary? then Send else Forward))
  {
    Mailbox.StepKeepsInv(MAX_VAS_QUEUE_SIZE, s.box, Mailbox.Finish);
    DisposeKeepsRouted(s, route);
  }

  lemma StepKeepsInv<M>(s: State<M>, a: Action<M>)
    requires Inv(s) && Enabled(s, a)
    ensures Inv(Next(s, a))
  {
    match a
    case Begin =>
    case Box(b) => BoxKeepsInv(s, b);
    case Read =>
      Watcher.InvTells(s.watch);
      ReadKeepsReads(s);
    case Send => DisposeKeepsInv(s, Primary);
    case Forward => DisposeKeepsInv(s, Extra);
    case Watch(w) =>
      Watcher.StepKeepsInv(s.watch, w);
      WatchKeepsReads(s, w);
  }

  // ---------------------------------------------------------------- runs

  predicate IsRun<M>(actions: seq<Action<M>>)
    decreases |actions|, 0
  {
    actions == [] ||
    (IsRun(Front(actions)) && Enabled(Reached(Front(actions)), Last(actions)))
  }

  function Reached<M>(actions: seq<Action<M>>): State<M>
    requires IsRun(actions)
    decreases |actions|, 1
  {
    if actions == [] then Start() else Next(Reached(Front(actions)), Last(actions))
  }

  lemma {:induction false} StartFits<M>()
    ensures Inv<M>(Start())
  {
    Watcher.RunKeepsInv([]);
  }

  lemma {:induction false} RunKeepsInv<M>(actions: seq<Action<M>>)
    requires IsRun(actions)
    ensures Inv(Reached(actions))
  {
    if actions == [] {
      StartFits<M>();
    } else {
      RunKeepsInv(Front(actions));
      StepKeepsInv(Reached(Front(actions)), Last(actions));
    }
  }

  /** Disposed messages, the message in hand and the ring make up what was accepted, and each route is in order. */
  predicate OnceInOrder<M(==)>(s: State<M>) {
    && s.box.accepted == Disposed(s) + InHand(s) + s.box.ring
    && |s.routes| == |Disposed(s)|
    && s.primary == Picked(Disposed(s), s.routes, Primary)
    && s.extra == Picked(Disposed(s), s.routes, Extra)
    && |s.primary| + |s.extra| == |Disposed(s)|
  }

  lemma InvImpliesOnceInOrder<M>(s: State<M>)
    requires Inv(s)
    ensures OnceInOrder(s)
  {
    assert forall i | 0 <= i < |s.routes| :: s.routes[i].Primary? || s.routes[i].Extra?;
    PickedSplit(Disposed(s), s.routes, Primary, Extra);
  }

  /**
   At every moment of every run, however the watcher flips its flags: what was accepted is what was disposed
   of, then the message in hand, then the ring; each disposed message went to exactly one of the two servers,
   and each of the two got its share in the order of acceptance.
   */
  lemma EachMessageOnceInOrder<M>(actions: seq<Action<M>>)
    requires IsRun(actions)
    ensures OnceInOrder(Reached(actions))
  {
    RunKeepsInv(actions);
    InvImpliesOnceInOrder(Reached(actions));
  }

  /** A handler asleep for good has sent or forwarded everything it accepted. */
  lemma NothingLeftBehind<M>(actions: seq<Action<M>>)
    requires IsRun(actions) && Mailbox.Asleep(Reached(actions).box)
    ensures var s := Reached(actions); s.box.accepted == Disposed(s) && s.box.pending == '\0'
  {
    RunKeepsInv(actions);
    var s := Reached(actions);
    assert s.box.taken + [] == s.box.taken && Disposed(s) + [] == Disposed(s);
  }

  // ---------------------------------------------------------------- what decides the route

  /** At that point of the story or behind it the VAS was declared dead, and the flag was not written down since. */
  predicate DeclaredSince(w: Watcher.State, from: nat) {
    Watcher.DeadIn(w.story, from) && Watcher.DeadIn(w.story, w.lowered)
  }

  /**
   What the next read decides, by what the watcher has told: to send, if the connection came up last, and at
   the fourth test if the VAS was declared dead since a read last saw it alive; to forward, at the second
   test and in the wait loop, if it stands declared dead.
   */
  predicate ReadDecides<M>(s: State<M>)
    requires Enabled(s, Read)
  {
    var next := Next(s, Read).spot;
    && (next.ToSend? <==>
          || ((s.spot.Test3? || s.spot.Wait1?) && Watcher.Ends(s.watch.story, Watcher.Up))
          || (s.spot.Test4? && DeclaredSince(s.watch, s.aliveAt)))
    && (next.ToForward? <==> (s.spot.Test2? || s.spot.Wait3?) && DeclaredSince(s.watch, 0))
    && (next.ToForward? ==>
          && !s.watch.connected
          && (Watcher.Ends(s.watch.story, Watcher.Dead) || Watcher.Ends(s.watch.story, Watcher.Back)))
    && (next.ToSend? && s.watch.failed <==> s.spot.Test4? && DeclaredSince(s.watch, s.aliveAt))
  }

  lemma {:induction false} ReachedReadsFit<M>(actions: seq<Action<M>>)
    requires IsRun(actions)
    ensures InHandFits(Reached(actions)) && Watcher.FlagsTell(Reached(actions).watch)
  {
    RunKeepsInv(actions);
    Watcher.InvTells(Reached(actions).watch);
  }

  lemma {:induction false} FittingReadDecides<M>(s: State<M>)
    requires InHandFits(s) && Watcher.FlagsTell(s.watch) && Enabled(s, Read)
    ensures ReadDecides(s)
  {
    assert Watcher.DeadIn(s.watch.story, s.watch.lowered) ==> Watcher.DeadIn(s.watch.story, 0);
  }

  /**
   In every run: a read that finds the VAS declared dead lets the message go there exactly if it is the
   fourth test and the declaration was told after the last read that saw the VAS alive.
   */
  lemma {:induction false} DecisionsFollowStory<M>(actions: seq<Action<M>>)
    requires IsRun(actions) && Enabled(Reached(actions), Read)
    ensures ReadDecides(Reached(actions))
  {
    ReachedReadsFit(actions);
    FittingReadDecides(Reached(actions));
  }

  /**
   When a message is about to be sent: the read that last saw the VAS alive came after the message was taken,
   and it saw a connection unless a declaration was told after it; and the VAS stands declared dead by now
   exactly if the declaration was told after that read.
   */
  predicate SendFits<M>(s: State<M>) {
    && s.takenAt <= s.aliveAt
    && (EndedAt(s.watch.story, s.aliveAt, Watcher.Up) || Watcher.DeadIn(s.watch.story, s.aliveAt))
    && (s.watch.failed <==> DeclaredSince(s.watch, s.aliveAt))
  }

  lemma {:induction false} FittingSend<M>(s: State<M>)
    requires InHandFits(s) && Watcher.FlagsTell(s.watch) && Enabled(s, Send)
    ensures SendFits(s)
  {
  }

  lemma {:induction false} SendsFollowStory<M>(actions: seq<Action<M>>)
    requires IsRun(actions) && Enabled(Reached(actions), Send)
    ensures SendFits(Reached(actions))
  {
    ReachedReadsFit(actions);
    FittingSend(Reached(actions));
  }

  /** The VAS stood declared dead when the message in hand was taken, and no change-back was consumed since. */
  predicate DeadWhenTaken<M>(s: State<M>) {
    && EndedAt(s.watch.story, s.takenAt, Watcher.Dead)
    && forall i | s.takenAt <= i < |s.watch.story| :: s.watch.story[i] != Watcher.Back
  }

  lemma {:induction false} NothingToldSinceDeath<M>(s: State<M>)
    requires Watcher.Inv(s.watch) && DeadWhenTaken(s)
    ensures s.takenAt == |s.watch.story| && s.watch.failed && !s.watch.connected
  {
    var story, at := s.watch.story, s.takenAt;
    if at < |story| {
      Watcher.BackFollowsDeath(story, at);
    }
    Watcher.InvTells(s.watch);
  }

  /** It is on its way to the extra VAS: each read brings it closer. */
  predicate Forwarded<M>(s: State<M>)
    requires s.box.phase.InHand?
  {
    && (s.spot.Test1? || s.spot.Test2? || s.spot.ToForward?)
    && (s.spot.Test1? ==> Next(s, Read).spot.Test2?)
    && (s.spot.Test2? ==> Next(s, Read).spot.ToForward?)
  }

  lemma {:induction false} InvForwards<M>(s: State<M>)
    requires Inv(s) && s.box.phase.InHand? && DeadWhenTaken(s)
    ensures Forwarded(s)
  {
    NothingToldSinceDeath(s);
  }

  /** A message taken while the VAS stands declared dead is never sent there, unless a change-back comes first. */
  lemma {:induction false} DeadWhenTakenIsForwarded<M>(actions: seq<Action<M>>)
    requires IsRun(actions) && Reached(actions).box.phase.InHand? && DeadWhenTaken(Reached(actions))
    ensures Forwarded(Reached(actions))
  {
    RunKeepsInv(actions);
    InvForwards(Reached(actions));
  }

  predicate RoutedByConnection<M>(s: State<M>) {
    (s.spot.ToSend? ==> s.watch.connected) && (s.spot.ToForward? ==> !s.watch.connected)
  }

  lemma {:induction false} QuietRouteFits<M>(s: State<M>)
    requires InHandFits(s) && Watcher.FlagsTell(s.watch) && s.box.phase.InHand? && s.takenAt == |s.watch.story|
    ensures RoutedByConnection(s)
  {
  }

  /**
   As long as the watcher tells nothing new after a message is taken, a decided message goes to the primary VAS
   exactly if the connection is up.
   */
  lemma {:induction false} QuietRoutesAreRight<M>(actions: seq<Action<M>>)
    requires IsRun(actions) && Reached(actions).box.phase.InHand?
    requires Reached(actions).takenAt == |Reached(actions).watch.story|
    ensures RoutedByConnection(Reached(actions))
  {
    ReachedReadsFit(actions);
    QuietRouteFits(Reached(actions));
  }

  /** The next read, if there is one. */
  function ReadOn<M>(s: State<M>): State<M> {
    if Enabled(s, Read) then Next(s, Read) else s
  }

  predicate Waits(spot: Spot) {
    spot.Wait1? || spot.Wait2? || spot.Wait3?
  }

  lemma ReadMovesSpot<M>(s: State<M>)
    requires s.box.phase.InHand?
    ensures var next := ReadOn(s);
            && next.watch == s.watch && next.box == s.box
            && next.spot == Tested(s.spot, s.watch.connected, s.watch.failed)
  {
  }

  lemma SpotSettles(spot: Spot, connected: bool, failed: bool)
    requires (spot.Test1? || Waits(spot)) && !(connected && failed)
    ensures var three := Tested(Tested(Tested(spot, connected, failed), connected, failed), connected, failed);
            var end := if spot.Test1? then Tested(three, connected, failed) else three;
            if connected then end.ToSend? else if failed then end.ToForward? else Waits(end)
  {
  }

  /**
   With the flags still, a message just taken is decided within four reads, and a waiting one within three:
   to send if the VAS is connected, to forward if it is declared dead; otherwise it waits.
   */
  lemma {:induction false} StillFlagsDecide<M>(s: State<M>)
    requires s.box.phase.InHand? && (s.spot.Test1? || Waits(s.spot)) && !(s.watch.connected && s.watch.failed)
    ensures var three := ReadOn(ReadOn(ReadOn(s)));
            var end := if s.spot.Test1? then ReadOn(three) else three;
            && (if s.watch.connected then end.spot.ToSend?
                else if s.watch.failed then end.spot.ToForward? else Waits(end.spot))
            && end.watch == s.watch && end.box == s.box
  {
    ReadMovesSpot(s);
    ReadMovesSpot(ReadOn(s));
    ReadMovesSpot(ReadOn(ReadOn(s)));
    ReadMovesSpot(ReadOn(ReadOn(ReadOn(s))));
    SpotSettles(s.spot, s.watch.connected, s.watch.failed);
  }

  // ---------------------------------------------------------------- what the loop did

  function RoutesOf<M>(actions: seq<Action<M>>): seq<Route> {
    if actions == [] then []
    else RoutesOf(Front(actions)) + match Last(actions)
                                    case Send => [Primary]
                                    case Forward => [Extra]
                                    case _ => []
  }

  /** The steps of its mailbox; a message sent or forwarded is finished with. */
  function BoxActions<M>(actions: seq<Action<M>>): seq<Mailbox.Action<M>> {
    if actions == [] then []
    else BoxActions(Front(actions)) + match Last(actions)
                                      case Box(b) => [b]
                                      case Send => [Mailbox.Finish]
                                      case Forward => [Mailbox.Finish]
                                      case _ => []
  }

  /** The routes are those of the sends and forwards made. */
  lemma {:induction false} RoutesFollowSteps<M>(actions: seq<Action<M>>)
    requires IsRun(actions)
    ensures Reached(actions).routes == RoutesOf(actions)
  {
    if actions != [] {
      RoutesFollowSteps(Front(actions));
      assert RoutesOf(Front(actions)) + [] == RoutesOf(Front(actions));
    }
  }

  lemma MailboxSnoc<M>(own: seq<Mailbox.Action<M>>, b: Mailbox.Action<M>)
    requires Mailbox.IsRun(MAX_VAS_QUEUE_SIZE, own)
    requires Mailbox.Enabled(Mailbox.Reached(MAX_VAS_QUEUE_SIZE, own), b)
    ensures Mailbox.IsRun(MAX_VAS_QUEUE_SIZE, own + [b])
    ensures Mailbox.Reached(MAX_VAS_QUEUE_SIZE, own + [b])
         == Mailbox.Next(MAX_VAS_QUEUE_SIZE, Mailbox.Reached(MAX_VAS_QUEUE_SIZE, own), b)
  {
    assert Front(own + [b]) == own;
  }

  /** The mailbox is in a run of its own, so that all that holds of mailboxes holds of it. */
  lemma {:induction false} MailboxRunsAlone<M>(actions: seq<Action<M>>)
    requires IsRun(actions)
    ensures var own := BoxActions(actions);
            Mailbox.IsRun(MAX_VAS_QUEUE_SIZE, own) && Mailbox.Reached(MAX_VAS_QUEUE_SIZE, own) == Reached(actions).box
  {
    if actions != [] {
      var own := BoxActions(Front(actions));
      MailboxRunsAlone(Front(actions));
      match Last(actions)
      case Box(b) => MailboxSnoc(own, b);
      case Send => MailboxSnoc(own, Mailbox.Finish);
      case Forward => MailboxSnoc(own, Mailbox.Finish);
      case _ => assert own + [] == own;
    }
  }

  // ---------------------------------------------------------------- a message sent to a dead VAS

  ghost predicate Reachable<M(!new)>(s: State<M>) {
    exists actions: seq<Action<M>> :: IsRun(actions) && Reached(actions) == s
  }

  lemma Advance<M(!new)>(s: State<M>, a: Action<M>) returns (s': State<M>)
    requires Reachable(s) && Enabled(s, a)
    ensures Reachable(s') && s' == Next(s, a)
  {
    s' := Next(s, a);
    var actions: seq<Action<M>> :| IsRun(actions) && Reached(actions) == s;
    var more := actions + [a];
    assert more[..|more| - 1] == actions;
    assert IsRun(more) && Reached(more) == s';
  }

  /** Any steps of the watcher alone. */
  function Watched(w: Watcher.State, oks: seq<bool>): Watcher.State
    decreases |oks|
  {
    if oks == [] then w else Watched(Watcher.Moved(w, oks[0]), oks[1..])
  }

  lemma {:induction false} Watches<M(!new)>(s: State<M>, oks: seq<bool>) returns (s': State<M>)
    requires Reachable(s)
    ensures Reachable(s') && s' == s.(watch := Watched(s.watch, oks))
    decreases |oks|
  {
    s' := s;
    if oks != [] {
      s' := Advance(s, Watch(Watcher.Go(oks[0])));
      s' := Watches(s', oks[1..]);
    }
  }

  /** From the start to a connection. */
  lemma ComesUp()
    ensures var w := Watched(Watcher.Start(), [true, true, true, true, true, true]);
            w.place.Poll? && w.connected && !w.failed && w.slot && w.story == [Watcher.Up]
  {
    var w1 := Watcher.Moved(Watcher.Start(), true);
    var w2 := Watcher.Moved(w1, true);
    var w3 := Watcher.Moved(w2, true);
    var w4 := Watcher.Moved(w3, true);
    var w5 := Watcher.Moved(w4, true);
    var w6 := Watcher.Moved(w5, true);
    assert w6.place.Poll? && w6.connected && !w6.failed && w6.slot && w6.story == [Watcher.Up];
    assert Watched(w5, [true]) == w6;
    assert Watched(w4, [true, true]) == w6;
    assert Watched(w3, [true, true, true]) == w6;
    assert Watched(w2, [true, true, true, true]) == w6;
    assert Watched(w1, [true, true, true, true, true]) == w6;
  }

  lemma RetriesFail(w: Watcher.State)
    requires w.place.DropFailed? && w.slot && !w.connected
    ensures var v := Watched(w, [true, true, false, false, false]);
            v.place.RetryCreate? && v.tries == 3 && !v.connected
  {
    var w1 := Watcher.Moved(w, true);
    var w2 := Watcher.Moved(w1, true);
    var w3 := Watcher.Moved(w2, false);
    var w4 := Watcher.Moved(w3, false);
    var w5 := Watcher.Moved(w4, false);
    assert Watched(w4, [false]) == w5;
    assert Watched(w3, [false, false]) == w5;
    assert Watched(w2, [false, false, false]) == w5;
    assert Watched(w1, [true, false, false, false]) == w5;
  }

  lemma Declares(w: Watcher.State)
    requires w.place.RetryCreate? && w.tries == 3 && !w.connected
    ensures var v := Watched(w, [true, true, true, true]);
            v.failed && !v.connected && Watcher.Ends(v.story, Watcher.Dead)
  {
    var w1 := Watcher.Moved(w, true);
    assert w1 == w.(place := Watcher.NotifyFirst);
    var w2 := Watcher.Moved(w1, true);
    assert w2.place.NotifySecond? && !w2.connected;
    var w3 := Watcher.Moved(w2, true);
    assert w3.place.Declare? && !w3.connected;
    var w4 := Watcher.Moved(w3, true);
    assert w4.failed && !w4.connected && Watcher.Ends(w4.story, Watcher.Dead);
    assert Watched(w3, [true]) == w4;
    assert Watched(w2, [true, true]) == w4;
    assert Watched(w1, [true, true, true]) == w4;
  }

  lemma ConnectsAndStarts<M(!new)>() returns (s: State<M>)
    ensures Reachable(s) && s.running && s.box == Mailbox.Start()
    ensures s.watch.place.Poll? && s.watch.connected && s.watch.slot && !s.watch.failed
  {
    s := Start();
    assert IsRun<M>([]) && Reached<M>([]) == s;
    s := Watches(s, [true, true, true, true, true, true]);
    ComesUp();
    s := Advance(s, Begin);
  }

  lemma TakesMessage<M(!new)>(m: M) returns (s: State<M>)
    ensures Reachable(s) && s.box.phase == Mailbox.InHand(m) && s.spot.Test1?
    ensures s.watch.place.Poll? && s.watch.connected && s.watch.slot && !s.watch.failed
  {
    s := ConnectsAndStarts();
    s := Advance(s, Box(Mailbox.Enqueue(m)));
    s := Advance(s, Box(Mailbox.Post));
    s := Advance(s, Box(Mailbox.Wait));
    s := Advance(s, Box(Mailbox.Inspect));
    s := Advance(s, Box(Mailbox.Dequeue));
  }

  lemma {:induction false} MissesTheLoss<M(!new)>(s0: State<M>) returns (s: State<M>)
    requires Reachable(s0) && s0.box.phase.InHand? && s0.spot.Test1?
    requires s0.watch.place.Poll? && s0.watch.connected && s0.watch.slot && !s0.watch.failed
    ensures Reachable(s) && s.box.phase == s0.box.phase && s.spot.Test4?
    ensures s.watch.place.DropFailed? && s.watch.slot && !s.watch.connected
  {
    s := Advance(s0, Watch(Watcher.Go(false)));
    s := Advance(s, Watch(Watcher.Go(true)));
    s := Advance(s, Read);
    s := Advance(s, Read);
    s := Advance(s, Read);
  }

  lemma DeclaredMeanwhile<M(!new)>(s0: State<M>) returns (s: State<M>)
    requires Reachable(s0) && s0.watch.place.DropFailed? && s0.watch.slot && !s0.watch.connected
    ensures Reachable(s) && s == s0.(watch := s.watch)
    ensures s.watch.failed && !s.watch.connected && Watcher.Ends(s.watch.story, Watcher.Dead)
  {
    RetriesFail(s0.watch);
    s := Watches(s0, [true, true, false, false, false]);
    Declares(s.watch);
    s := Watches(s, [true, true, true, true]);
  }

  /**
   So a message can go to the primary VAS although the deciding read finds it declared dead: the connection
   is lost before the first test, and the declaration falls between the second and the fourth.
   */
  lemma SentAfterDeclaredDead<M(!new)>(m: M) returns (s: State<M>, sent: State<M>)
    ensures Reachable(s) && s.box.phase == Mailbox.InHand(m) && s.spot.Test4? && s.watch.failed
    ensures Enabled(s, Read) && Next(s, Read).spot.ToSend?
    ensures Reachable(sent) && sent == Next(Next(s, Read), Send) && sent.routes == s.routes + [Primary]
  {
    s := TakesMessage(m);
    s := MissesTheLoss(s);
    s := DeclaredMeanwhile(s);
    sent := Advance(s, Read);
    sent := Advance(sent, Send);
  }
}
