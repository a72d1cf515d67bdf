/**
 The thread that watches the connection to one VAS. It alone writes the two flags the delivery loop reads,
 one flag at a time, and owns the socket slot. Each step is one write or one system call whose outcome is
 not known; a change-back request of the TCP server may come between any two steps.
 */
module Watcher {
  import opened Streams

  datatype Place =
    | ClearConnected | ClearFailed | Create | Connect | Publish | Raise | Poll
    | Drop | DropFailed | Destroy | RetryCreate | RetryConnect
    | NotifyFirst | NotifySecond | Declare | AwaitBack | Consume

  /** What the watcher has to tell, in order. */
  datatype Note = Up | Lost | AttemptFailed | Notified(pfs: nat) | Dead | Back

  datatype Request = Requested | Consumed

  /** What became of the socket slot: a descriptor opened into it, or the one in it closed. */
  datatype SlotChange = Filled | Emptied

  /** `lowered` is how much of the story had been told when `failed` was last written down. */
  datatype State = State(place: Place, connected: bool, failed: bool, slot: bool, tries: nat, changeBack: bool,
                         lowered: nat, story: seq<Note>, requests: seq<Request>, slotChanges: seq<SlotChange>)

  /** The watcher's next step and whether its system call, if any, succeeds; or a change-back request. */
  datatype Action = Go(ok: bool) | RequestBack

  function Start(): State {
    State(ClearConnected, false, false, false, 0, false, 0, [], [], [])
  }

  function Tell(s: State, n: Note, place: Place): State {
    s.(story := s.story + [n], place := place)
  }

  function Open(s: State, place: Place): State {
    s.(slot := true, slotChanges := s.slotChanges + [Filled], place := place)
  }

  function Close(s: State, place: Place): State {
    s.(slot := false, slotChanges := s.slotChanges + [Emptied], place := place)
  }

  function Lower(s: State, place: Place): State {
    s.(failed := false, lowered := |s.story|, place := place)
  }

  /** One failed attempt to reconnect; the loop gives up at three. */
  function Failed(s: State): State {
    Tell(s.(tries := s.tries + 1), AttemptFailed, RetryCreate)
  }

  predicate Starting(p: Place) {
    p.ClearConnected? || p.ClearFailed? || p.Create? || p.Connect? || p.Publish?
  }

  predicate Online(p: Place) {
    p.Raise? || p.Poll? || p.Drop? || p.DropFailed? || p.Destroy?
  }

  predicate Reconnecting(p: Place) {
    p.RetryCreate? || p.RetryConnect?
  }

  function Starts(s: State, ok: bool): State
    requires Starting(s.place)
  {
    match s.place
    case ClearConnected => s.(connected := false, place := ClearFailed)
    case ClearFailed => Lower(s, Create)
    case Create => if ok && !s.slot then Open(s, Connect) else s.(place := ClearConnected)
    case Connect => if ok then s.(place := Publish) else Close(s, ClearConnected)
    case Publish => s.(place := Raise)
  }

  function Serves(s: State, ok: bool): State
    requires Online(s.place)
  {
    match s.place
    case Raise => Tell(s.(connected := true), Up, Poll)
    case Poll => if ok then s else s.(place := Drop)
    case Drop => Tell(s.(connected := false), Lost, DropFailed)
    case DropFailed => Lower(s, Destroy)
    case Destroy => (if s.slot then Close(s, RetryCreate) else s.(place := RetryCreate)).(tries := 0)
  }

  function Reconnects(s: State, ok: bool): State
    requires Reconnecting(s.place)
  {
    match s.place
    case RetryCreate =>
      if s.tries >= 3 then s.(place := NotifyFirst)
      else if ok && !s.slot then Open(s, RetryConnect)
      else Failed(s)
    case RetryConnect => if ok then s.(place := Publish) else Failed(Close(s, RetryCreate))
  }

  function GivesUp(s: State): State
    requires !Starting(s.place) && !Online(s.place) && !Reconnecting(s.place)
  {
    match s.place
    case NotifyFirst => Tell(s, Notified(0), NotifySecond)
    case NotifySecond => Tell(s, Notified(1), Declare)
    case Declare => Tell(s.(failed := true), Dead, AwaitBack)
    case AwaitBack => if s.changeBack then s.(place := Consume) else s
    case Consume => Tell(s.(changeBack := false, requests := s.requests + [Consumed]), Back, ClearConnected)
  }

  function Moved(s: State, ok: bool): State {
    if Starting(s.place) then Starts(s, ok)
    else if Online(s.place) then Serves(s, ok)
    else if Reconnecting(s.place) then Reconnects(s, ok)
    else GivesUp(s)
  }

  function Next(s: State, a: Action): State {
    match a
    case Go(ok) => Moved(s, ok)
    case RequestBack => s.(changeBack := true, requests := s.requests + [Requested])
  }

  function After(actions: seq<Action>): State {
    if actions == [] then Start() else Next(After(Front(actions)), Last(actions))
  }

  // ---------------------------------------------------------------- the grammar of the story

  predicate Ends<T(==)>(s: seq<T>, x: T) {
    s != [] && s[|s| - 1] == x
  }

  /** The story ends with the loss of the connection and that many failed attempts to get it back. */
  predicate Failures(story: seq<Note>, tries: nat)
    decreases tries
  {
    if tries == 0 then Ends(story, Lost)
    else Ends(story, AttemptFailed) && Failures(story[..|story| - 1], tries - 1)
  }

  /** How the story may go on after what was told so far. */
  predicate MayFollow(told: seq<Note>, n: Note) {
    match n
    case Up => told == [] || Ends(told, Back) || Ends(told, Lost) || Ends(told, AttemptFailed)
    case Lost => Ends(told, Up)
    case AttemptFailed => Ends(told, Lost) || Ends(told, AttemptFailed)
    case Notified(pfs) =>
      if pfs == 0 then Failures(told, 3)
      else Ends(told, Notified(pfs - 1)) && pfs == 1
    case Dead => Ends(told, Notified(1))
    case Back => Ends(told, Dead)
  }

  ghost predicate WellTold(story: seq<Note>) {
    forall i | 0 <= i < |story| :: MayFollow(story[..i], story[i])
  }

  /** Every consumption was asked for since the one before it. */
  ghost predicate Asked(requests: seq<Request>) {
    forall i | 0 <= i < |requests| && requests[i] == Consumed :: i > 0 && requests[i - 1] == Requested
  }

  /** The slot is filled and emptied in turn. */
  ghost predicate Alternating(slotChanges: seq<SlotChange>) {
    forall i | 0 <= i < |slotChanges| :: slotChanges[i] == if i % 2 == 0 then Filled else Emptied
  }

  /** What has been told by the time the watcher is at a place. */
  predicate Told(s: State) {
    match s.place
    case ClearConnected => s.story == [] || Ends(s.story, Back)
    case ClearFailed => s.story == [] || Ends(s.story, Back)
    case Create => s.story == [] || Ends(s.story, Back)
    case Connect => s.story == [] || Ends(s.story, Back)
    case Publish => MayFollow(s.story, Up)
    case Raise => MayFollow(s.story, Up)
    case Poll => Ends(s.story, Up)
    case Drop => Ends(s.story, Up)
    case DropFailed => Ends(s.story, Lost)
    case Destroy => Ends(s.story, Lost)
    case RetryCreate => s.tries <= 3 && Failures(s.story, s.tries)
    case RetryConnect => s.tries < 3 && Failures(s.story, s.tries)
    case NotifyFirst => Failures(s.story, 3)
    case NotifySecond => Ends(s.story, Notified(0))
    case Declare => Ends(s.story, Notified(1))
    case AwaitBack => Ends(s.story, Dead)
    case Consume => Ends(s.story, Dead)
  }

  predicate SlotInUse(p: Place) {
    p.Connect? || p.Publish? || p.Raise? || p.Poll? || p.Drop? || p.DropFailed? || p.Destroy? || p.RetryConnect?
  }

  predicate FlagsFit(s: State) {
    && (s.connected <==> s.place.Poll? || s.place.Drop?)
    && (s.place.AwaitBack? || s.place.Consume? ==> s.failed)
    && (s.failed ==>
          || s.place.AwaitBack? || s.place.Consume?
          || ((s.place.ClearConnected? || s.place.ClearFailed?) && Ends(s.story, Back)))
  }

  /** A declaration was told at this point of the story or behind it. */
  predicate DeadIn(story: seq<Note>, from: nat) {
    exists i | from <= i < |story| :: story[i] == Dead
  }

  /** The flag is up exactly if the VAS was declared dead since it was last written down. */
  predicate DeclarationFits(s: State) {
    s.lowered <= |s.story| && (s.failed <==> DeadIn(s.story, s.lowered))
  }

  ghost predicate SlotFits(s: State) {
    (s.slot <==> SlotInUse(s.place)) && Alternating(s.slotChanges) && (s.slot <==> |s.slotChanges| % 2 == 1)
  }

  ghost predicate RequestsFit(s: State) {
    && Asked(s.requests) && (s.changeBack ==> Ends(s.requests, Requested))
    && (s.place.Consume? ==> s.changeBack)
  }

  ghost predicate Inv(s: State) {
    WellTold(s.story) && Told(s) && FlagsFit(s) && DeclarationFits(s) && SlotFits(s) && RequestsFit(s)
  }

  lemma TellKeeps(story: seq<Note>, n: Note)
    requires WellTold(story) && MayFollow(story, n)
    ensures WellTold(story + [n]) && Ends(story + [n], n)
  {
    var more := story + [n];
    forall i | 0 <= i < |more|
      ensures MayFollow(more[..i], more[i])
    {
      assert more[..i] == story[..i];
    }
  }

  lemma FailuresEnd(story: seq<Note>, tries: nat)
    requires Failures(story, tries)
    ensures MayFollow(story, Up) && MayFollow(story, AttemptFailed)
  {
  }

  lemma AlternatingKeeps(slotChanges: seq<SlotChange>)
    requires Alternating(slotChanges)
    ensures Alternating(slotChanges + [if |slotChanges| % 2 == 0 then Filled else Emptied])
  {
  }

  predicate SlotStep(s: State, s': State) {
    && (s'.slot <==> SlotInUse(s'.place))
    && s'.slotChanges == if s'.slot == s.slot then s.slotChanges
                         else s.slotChanges + [if s.slot then Emptied else Filled]
  }

  lemma StartingKeepsSlot(s: State, ok: bool)
    requires Starting(s.place) && (s.slot <==> SlotInUse(s.place))
    ensures SlotStep(s, Starts(s, ok))
  {
  }

  lemma OnlineKeepsSlot(s: State, ok: bool)
    requires Online(s.place) && (s.slot <==> SlotInUse(s.place))
    ensures SlotStep(s, Serves(s, ok))
  {
  }

  lemma RetryKeepsSlot(s: State, ok: bool)
    requires Reconnecting(s.place) && (s.slot <==> SlotInUse(s.place))
    ensures SlotStep(s, Reconnects(s, ok))
  {
  }

  lemma EndingKeepsSlot(s: State)
    requires !Starting(s.place) && !Online(s.place) && !Reconnecting(s.place) && (s.slot <==> SlotInUse(s.place))
    ensures SlotStep(s, GivesUp(s))
  {
  }

  lemma MovedKeepsSlot(s: State, ok: bool)
    requires s.slot <==> SlotInUse(s.place)
    ensures SlotStep(s, Moved(s, ok))
  {
    if Starting(s.place) {
      StartingKeepsSlot(s, ok);
    } else if Online(s.place) {
      OnlineKeepsSlot(s, ok);
    } else if Reconnecting(s.place) {
      RetryKeepsSlot(s, ok);
    } else {
      EndingKeepsSlot(s);
    }
  }

  lemma SlotStepFits(s: State, s': State)
    requires SlotFits(s) && SlotStep(s, s')
    ensures SlotFits(s')
  {
    AlternatingKeeps(s.slotChanges);
  }

  lemma {:induction false} StepKeepsSlot(s: State, a: Action)
    requires SlotFits(s)
    ensures SlotFits(Next(s, a))
  {
    if a.Go? {
      MovedKeepsSlot(s, a.ok);
      SlotStepFits(s, Moved(s, a.ok));
    }
  }

  lemma RequestKeeps(requests: seq<Request>, r: Request)
    requires Asked(requests) && (r == Consumed ==> Ends(requests, Requested))
    ensures Asked(requests + [r]) && Ends(requests + [r], r)
  {
    assert Ends(requests, Requested) ==> requests[|requests| - 1] == Requested;
  }

  predicate SameRequests(s: State, s': State) {
    s'.changeBack == s.changeBack && s'.requests == s.requests && !s'.place.Consume?
  }

  lemma GivingUpHandlesRequests(s: State)
    requires !Starting(s.place) && !Online(s.place) && !Reconnecting(s.place)
    ensures var s' := GivesUp(s);
            if s.place.Consume? then !s'.changeBack && s'.requests == s.requests + [Consumed] && !s'.place.Consume?
            else s'.changeBack == s.changeBack && s'.requests == s.requests && (s'.place.Consume? ==> s.changeBack)
  {
  }

  lemma StartingIgnoresRequests(s: State, ok: bool)
    requires Starting(s.place)
    ensures SameRequests(s, Starts(s, ok))
  {
  }

  lemma OnlineIgnoresRequests(s: State, ok: bool)
    requires Online(s.place)
    ensures SameRequests(s, Serves(s, ok))
  {
  }

  lemma RetryIgnoresRequests(s: State, ok: bool)
    requires Reconnecting(s.place)
    ensures SameRequests(s, Reconnects(s, ok))
  {
  }

  lemma {:induction false} StepKeepsRequests(s: State, a: Action)
    requires RequestsFit(s)
    ensures RequestsFit(Next(s, a))
  {
    if a.RequestBack? {
      RequestKeeps(s.requests, Requested);
    } else if Starting(s.place) {
      StartingIgnoresRequests(s, a.ok);
    } else if Online(s.place) {
      OnlineIgnoresRequests(s, a.ok);
    } else if Reconnecting(s.place) {
      RetryIgnoresRequests(s, a.ok);
    } else {
      GivingUpHandlesRequests(s);
      if s.place.Consume? {
        RequestKeeps(s.requests, Consumed);
      }
    }
  }

  lemma StepKeepsFlags(s: State, a: Action)
    requires FlagsFit(s) && Told(s)
    ensures FlagsFit(Next(s, a))
  {
    assert Ends(s.story + [Back], Back);
  }

  lemma DeadInSnoc(story: seq<Note>, n: Note, from: nat)
    requires from <= |story|
    ensures DeadIn(story + [n], from) <==> n == Dead || DeadIn(story, from)
  {
    var more := story + [n];
    if n == Dead {
      assert more[|story|] == Dead;
    } else if DeadIn(story, from) {
      var i: nat :| from <= i < |story| && story[i] == Dead;
      assert more[i] == Dead;
    }
  }

  /** A step tells at most one thing, and writes `failed` up or down as it tells. */
  predicate TellingStep(s: State, s': State) {
    || (s'.story == s.story
        && ((s'.failed == s.failed && s'.lowered == s.lowered) || (!s'.failed && s'.lowered == |s.story|)))
    || (s'.story != [] && s'.story == s.story + [Last(s'.story)]
        && s'.lowered == s.lowered && s'.failed == (s.failed || Last(s'.story) == Dead))
  }

  lemma StartingTells(s: State, ok: bool)
    requires Starting(s.place)
    ensures TellingStep(s, Starts(s, ok))
  {
  }

  lemma OnlineTells(s: State, ok: bool)
    requires Online(s.place)
    ensures TellingStep(s, Serves(s, ok))
  {
  }

  lemma RetryTells(s: State, ok: bool)
    requires Reconnecting(s.place)
    ensures TellingStep(s, Reconnects(s, ok))
  {
  }

  lemma EndingTells(s: State)
    requires !Starting(s.place) && !Online(s.place) && !Reconnecting(s.place)
    ensures TellingStep(s, GivesUp(s))
  {
  }

  lemma StepTells(s: State, a: Action)
    ensures TellingStep(s, Next(s, a))
  {
    if a.Go? {
      if Starting(s.place) {
        StartingTells(s, a.ok);
      } else if Online(s.place) {
        OnlineTells(s, a.ok);
      } else if Reconnecting(s.place) {
        RetryTells(s, a.ok);
      } else {
        EndingTells(s);
      }
    }
  }

  lemma TellingKeepsDeclaration(s: State, s': State)
    requires DeclarationFits(s) && TellingStep(s, s')
    ensures DeclarationFits(s')
  {
    if s'.story != s.story {
      DeadInSnoc(s.story, Last(s'.story), s.lowered);
    }
  }

  /** The story only grows, and whoever sees the flag go up sees a declaration told. */
  lemma StepExtendsStory(s: State, a: Action, from: nat)
    requires from <= |s.story|
    ensures s.story <= Next(s, a).story
    ensures DeadIn(s.story, from) || (Next(s, a).failed && !s.failed) ==> DeadIn(Next(s, a).story, from)
  {
    var s' := Next(s, a);
    StepTells(s, a);
    if s'.story != s.story {
      DeadInSnoc(s.story, Last(s'.story), from);
    }
  }

  lemma {:induction false} FailedKeepsStory(s: State)
    requires WellTold(s.story) && s.tries < 3 && Failures(s.story, s.tries)
    ensures WellTold(Failed(s).story) && Told(Failed(s))
  {
    FailuresEnd(s.story, s.tries);
    TellKeeps(s.story, AttemptFailed);
    var more := s.story + [AttemptFailed];
    assert more[..|more| - 1] == s.story;
  }

  lemma {:induction false} RetryKeepsStory(s: State, ok: bool)
    requires WellTold(s.story) && Told(s) && Reconnecting(s.place)
    ensures WellTold(Reconnects(s, ok).story) && Told(Reconnects(s, ok))
  {
    FailuresEnd(s.story, s.tries);
    if s.place.RetryCreate? && s.tries < 3 {
      FailedKeepsStory(s);
    } else if s.place.RetryConnect? {
      FailedKeepsStory(Close(s, RetryCreate));
    }
  }

  lemma StartingKeepsStory(s: State, ok: bool)
    requires WellTold(s.story) && Told(s) && Starting(s.place)
    ensures WellTold(Starts(s, ok).story) && Told(Starts(s, ok))
  {
    assert Starts(s, ok).story == s.story;
  }

  lemma {:induction false} OnlineKeepsStory(s: State, ok: bool)
    requires WellTold(s.story) && Told(s) && Online(s.place)
    ensures WellTold(Serves(s, ok).story) && Told(Serves(s, ok))
  {
    if s.place.Raise? {
      TellKeeps(s.story, Up);
    } else if s.place.Drop? {
      TellKeeps(s.story, Lost);
    }
  }

  lemma {:induction false} NotifyingKeepsStory(s: State)
    requires WellTold(s.story) && Told(s) && (s.place.NotifyFirst? || s.place.NotifySecond?)
    ensures WellTold(GivesUp(s).story) && Told(GivesUp(s))
  {
    TellKeeps(s.story, Notified(if s.place.NotifyFirst? then 0 else 1));
  }

  lemma {:induction false} DeclaringKeepsStory(s: State)
    requires WellTold(s.story) && Told(s) && s.place.Declare?
    ensures WellTold(GivesUp(s).story) && Told(GivesUp(s))
  {
    TellKeeps(s.story, Dead);
  }

  lemma {:induction false} AwaitingKeepsStory(s: State)
    requires WellTold(s.story) && Told(s) && (s.place.AwaitBack? || s.place.Consume?)
    ensures WellTold(GivesUp(s).story) && Told(GivesUp(s))
  {
    if s.place.Consume? {
      TellKeeps(s.story, Back);
    }
  }

  lemma {:induction false} StepKeepsStory(s: State, a: Action)
    requires WellTold(s.story) && Told(s)
    ensures WellTold(Next(s, a).story) && Told(Next(s, a))
  {
    if a.Go? {
      if Starting(s.place) {
        StartingKeepsStory(s, a.ok);
      } else if Online(s.place) {
        OnlineKeepsStory(s, a.ok);
      } else if Reconnecting(s.place) {
        RetryKeepsStory(s, a.ok);
      } else if s.place.NotifyFirst? || s.place.NotifySecond? {
        NotifyingKeepsStory(s);
      } else if s.place.Declare? {
        DeclaringKeepsStory(s);
      } else {
        AwaitingKeepsStory(s);
      }
    }
  }

  lemma {:induction false} StepKeepsInv(s: State, a: Action)
    requires Inv(s)
    ensures Inv(Next(s, a))
  {
    StepKeepsStory(s, a);
    StepKeepsFlags(s, a);
    StepTells(s, a);
    TellingKeepsDeclaration(s, Next(s, a));
    StepKeepsSlot(s, a);
    StepKeepsRequests(s, a);
  }

  lemma {:induction false} RunKeepsInv(actions: seq<Action>)
    ensures Inv(After(actions))
  {
    if actions != [] {
      RunKeepsInv(Front(actions));
      StepKeepsInv(After(Front(actions)), Last(actions));
    }
  }

  // ---------------------------------------------------------------- main results

  /**
   In every run: the flags are never both up, a raised `connected` means an open socket, descriptors are
   opened and closed in turn, so at most one is open, and the socket is only created in an empty slot.
   */
  lemma {:induction false} FlagsAndSocket(actions: seq<Action>)
    ensures var s := After(actions);
            && !(s.connected && s.failed)
            && (s.connected ==> s.slot)
            && Alternating(s.slotChanges) && (s.slot <==> |s.slotChanges| % 2 == 1)
            && (s.place.Create? || s.place.RetryCreate? ==> !s.slot)
  {
    RunKeepsInv(actions);
  }

  /**
   The flags say what was told: `connected` that the connection came up last, `failed` that the VAS was
   declared dead since the flag was last written down.
   */
  predicate FlagsTell(s: State) {
    && (s.connected <==> Ends(s.story, Up))
    && (s.failed <==> DeadIn(s.story, s.lowered))
    && (s.failed ==> Ends(s.story, Dead) || Ends(s.story, Back))
    && (Ends(s.story, Dead) ==> s.failed)
  }

  lemma {:induction false} InvTells(s: State)
    requires Inv(s)
    ensures FlagsTell(s)
  {
    if Reconnecting(s.place) {
      FailuresEnd(s.story, s.tries);
    }
  }

  lemma {:induction false} FlagsTellTheStory(actions: seq<Action>)
    ensures FlagsTell(After(actions))
  {
    RunKeepsInv(actions);
    InvTells(After(actions));
  }

  const DEATH := [Lost, AttemptFailed, AttemptFailed, AttemptFailed, Notified(0), Notified(1), Dead]

  lemma ThreeFailures(told: seq<Note>)
    requires Failures(told, 3)
    ensures var n := |told|;
            && n >= 4 && told[n - 4] == Lost
            && told[n - 3] == AttemptFailed && told[n - 2] == AttemptFailed && told[n - 1] == AttemptFailed
  {
    var n := |told|;
    assert Failures(told[..n - 1], 2) && told[..n - 1][n - 2] == told[n - 2];
    assert Failures(told[..n - 2], 1) && told[..n - 2][n - 3] == told[n - 3] by {
      assert told[..n - 2] == told[..n - 1][..n - 2];
    }
    assert Failures(told[..n - 3], 0) by {
      assert told[..n - 3] == told[..n - 2][..n - 3];
    }
  }

  lemma DeathFollows(story: seq<Note>, i: nat)
    requires WellTold(story) && i < |story| && story[i] == Dead
    ensures i >= 2 && story[i - 2] == Notified(0) && story[i - 1] == Notified(1) && Failures(story[..i - 2], 3)
  {
    assert MayFollow(story[..i], story[i]);
    assert i > 0 && story[i - 1] == story[..i][i - 1];
    assert MayFollow(story[..i - 1], story[i - 1]);
    assert i > 1 && story[i - 2] == story[..i - 1][i - 2];
    assert MayFollow(story[..i - 2], story[i - 2]);
  }

  lemma StoryOfDeath(story: seq<Note>, i: nat)
    requires WellTold(story) && i < |story| && story[i] == Dead
    ensures i >= 6 && story[i - 6..i + 1] == DEATH
  {
    DeathFollows(story, i);
    ThreeFailures(story[..i - 2]);
    assert forall k | i - 6 <= k < i - 2 :: story[k] == story[..i - 2][k];
  }

  /** A VAS is declared dead only after three failed reconnects in a row and one notice to each PFS. */
  lemma {:induction false} DeadOnlyAfterThreeFailures(actions: seq<Action>, i: nat)
    requires var story := After(actions).story; i < |story| && story[i] == Dead
    ensures var story := After(actions).story; i >= 6 && story[i - 6..i + 1] == DEATH
  {
    RunKeepsInv(actions);
    StoryOfDeath(After(actions).story, i);
  }

  lemma BackFollowsDeath(story: seq<Note>, i: nat)
    requires WellTold(story) && 0 < i < |story| && story[i - 1] == Dead
    ensures story[i] == Back
  {
    assert MayFollow(story[..i], story[i]) && story[..i][i - 1] == Dead;
  }

  /**
   After a declaration the next thing told is a consumed change-back request, and each consumption was
   requested after the one before it; `failed` is lowered in no other way.
   */
  lemma {:induction false} DeadUntilChangeBack(actions: seq<Action>)
    ensures var s := After(actions);
            && (forall i | 0 <= i < |s.story| - 1 && s.story[i] == Dead :: s.story[i + 1] == Back)
            && Asked(s.requests)
            && (forall a :: s.failed && !Next(s, a).failed ==> Ends(s.story, Back))
  {
    RunKeepsInv(actions);
    var story := After(actions).story;
    forall i | 0 <= i < |story| - 1 && story[i] == Dead
      ensures story[i + 1] == Back
    {
      BackFollowsDeath(story, i + 1);
    }
  }
}
