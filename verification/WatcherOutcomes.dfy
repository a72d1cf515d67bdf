/**
 The watcher against what its system calls return. What it tells and how it counts is compared with a second
 description that knows nothing but the outcomes of its attempts to connect and of its polls.
 */
module WatcherOutcomes {
  import opened Streams
  import opened Watcher

  /** A connect succeeds; socket() or connect() fails; a poll finds the connection broken; a change-back is consumed. */
  datatype Outcome = Came | Refused | Broke | Asked

  /** What an action lets the watcher know: its place says which call it makes, the action whether that succeeds. */
  function OutcomeOf(s: State, a: Action): seq<Outcome> {
    if !a.Go? then []
    else
      match s.place
      case Create => if a.ok then [] else [Refused]
      case Connect => if a.ok then [Came] else [Refused]
      case RetryCreate => if a.ok || s.tries >= 3 then [] else [Refused]
      case RetryConnect => if a.ok then [Came] else [Refused]
      case Poll => if a.ok then [] else [Broke]
      case Consume => [Asked]
      case _ => []
  }

  function Outcomes(actions: seq<Action>): seq<Outcome> {
    if actions == [] then []
    else Outcomes(Front(actions)) + OutcomeOf(After(Front(actions)), Last(actions))
  }

  // ---------------------------------------------------------------- the second description

  /** The refused attempts in a row at the end. */
  function RefusedLast(os: seq<Outcome>): nat {
    if os == [] || Last(os) != Refused then 0 else RefusedLast(Front(os)) + 1
  }

  /** What was known before them. */
  function BeforeRefused(os: seq<Outcome>): seq<Outcome> {
    if os == [] || Last(os) != Refused then os else BeforeRefused(Front(os))
  }

  /** The connection broke, and that many attempts to get it back were refused. */
  predicate LostFor(os: seq<Outcome>, n: nat) {
    RefusedLast(os) == n && BeforeRefused(os) != [] && Last(BeforeRefused(os)) == Broke
  }

  /** What the last outcome gives to tell: the third refusal in a row after a loss declares the VAS dead. */
  function News(os: seq<Outcome>): seq<Note>
    requires os != []
  {
    match Last(os)
    case Came => [Up]
    case Broke => [Lost]
    case Asked => [Back]
    case Refused =>
      if LostFor(os, 1) || LostFor(os, 2) then [AttemptFailed]
      else if LostFor(os, 3) then [AttemptFailed, Notified(0), Notified(1), Dead]
      else []
  }

  function Story(os: seq<Outcome>): seq<Note> {
    if os == [] then [] else Story(Front(os)) + News(os)
  }

  // ---------------------------------------------------------------- the watcher agrees

  /** What the watcher is about to tell, by its place. */
  function Untold(s: State): seq<Note> {
    match s.place
    case Publish => [Up]
    case Raise => [Up]
    case Drop => [Lost]
    case RetryCreate => if s.tries >= 3 then [Notified(0), Notified(1), Dead] else []
    case NotifyFirst => [Notified(0), Notified(1), Dead]
    case NotifySecond => [Notified(1), Dead]
    case Declare => [Dead]
    case _ => []
  }

  /** What the outcomes say of the place. */
  predicate PlaceFits(s: State, os: seq<Outcome>) {
    match s.place
    case Publish => os != [] && Last(os) == Came
    case Raise => os != [] && Last(os) == Came
    case Poll => os != [] && Last(os) == Came
    case Drop => LostFor(os, 0)
    case DropFailed => LostFor(os, 0)
    case Destroy => LostFor(os, 0)
    case RetryCreate => s.tries <= 3 && LostFor(os, s.tries)
    case RetryConnect => s.tries < 3 && LostFor(os, s.tries)
    case NotifyFirst => LostFor(os, 3)
    case NotifySecond => LostFor(os, 3)
    case Declare => LostFor(os, 3)
    case AwaitBack => LostFor(os, 3)
    case Consume => LostFor(os, 3)
    case _ => BeforeRefused(os) == [] || Last(BeforeRefused(os)) == Asked
  }

  predicate Agrees(s: State, os: seq<Outcome>) {
    PlaceFits(s, os) && s.story + Untold(s) == Story(os)
  }

  lemma OutcomeSnoc(os: seq<Outcome>, o: Outcome)
    ensures Story(os + [o]) == Story(os) + News(os + [o])
    ensures o != Refused ==> RefusedLast(os + [o]) == 0 && BeforeRefused(os + [o]) == os + [o]
    ensures o == Refused ==>
              RefusedLast(os + [o]) == RefusedLast(os) + 1 && BeforeRefused(os + [o]) == BeforeRefused(os)
  {
    assert Front(os + [o]) == os;
  }

  /** A refusal before the first connection, or behind a change-back, is not told. */
  lemma {:induction false} RefusedAtStart(os: seq<Outcome>)
    requires BeforeRefused(os) == [] || Last(BeforeRefused(os)) == Asked
    ensures Story(os + [Refused]) == Story(os) && BeforeRefused(os + [Refused]) == BeforeRefused(os)
  {
    OutcomeSnoc(os, Refused);
    assert Story(os) + [] == Story(os);
  }

  lemma {:induction false} StartingAgrees(s: State, os: seq<Outcome>, ok: bool)
    requires Agrees(s, os) && Starting(s.place) && (s.slot <==> SlotInUse(s.place))
    ensures Agrees(Starts(s, ok), os + OutcomeOf(s, Go(ok)))
  {
    assert os + [] == os && s.story + [] == s.story;
    if s.place.Connect? && ok {
      CameAgrees(s, os);
    } else if !ok && (s.place.Create? || s.place.Connect?) {
      RefusedAtStart(os);
    }
  }

  lemma {:induction false} OnlineAgrees(s: State, os: seq<Outcome>, ok: bool)
    requires Agrees(s, os) && Online(s.place) && s.slot
    ensures Agrees(Serves(s, ok), os + OutcomeOf(s, Go(ok)))
  {
    OutcomeSnoc(os, Broke);
    assert os + [] == os && s.story + [] == s.story;
    assert s.story + [Up] + [] == s.story + [Up] && s.story + [Lost] + [] == s.story + [Lost];
  }

  lemma {:induction false} RefusedAgrees(s: State, os: seq<Outcome>)
    requires s.tries < 3 && LostFor(os, s.tries) && s.story == Story(os)
    ensures Agrees(Failed(s), os + [Refused])
  {
    OutcomeSnoc(os, Refused);
    assert LostFor(os + [Refused], s.tries + 1);
    var told := s.story + [AttemptFailed];
    assert told + [] == told;
    assert told + [Notified(0), Notified(1), Dead] == s.story + [AttemptFailed, Notified(0), Notified(1), Dead];
  }

  lemma {:induction false} CameAgrees(s: State, os: seq<Outcome>)
    requires s.story == Story(os)
    ensures Agrees(s.(place := Publish), os + [Came])
  {
    OutcomeSnoc(os, Came);
  }

  lemma {:induction false} RetryAgrees(s: State, os: seq<Outcome>, ok: bool)
    requires Agrees(s, os) && Reconnecting(s.place) && (s.slot <==> SlotInUse(s.place))
    ensures Agrees(Reconnects(s, ok), os + OutcomeOf(s, Go(ok)))
  {
    assert os + [] == os && s.story + [] == s.story;
    if s.place.RetryConnect? {
      if ok {
        CameAgrees(s, os);
      } else {
        RefusedAgrees(Close(s, RetryCreate), os);
      }
    } else if s.tries < 3 && !ok {
      RefusedAgrees(s, os);
    }
  }

  lemma {:induction false} NotifyingAgrees(s: State, os: seq<Outcome>)
    requires Agrees(s, os) && (s.place.NotifyFirst? || s.place.NotifySecond? || s.place.Declare?)
    ensures Agrees(GivesUp(s), os)
  {
    var n := Untold(s)[0];
    assert GivesUp(s).story == s.story + [n];
    assert Untold(s) == [n] + Untold(GivesUp(s));
    assert s.story + ([n] + Untold(GivesUp(s))) == s.story + [n] + Untold(GivesUp(s));
  }

  lemma {:induction false} AwaitingAgrees(s: State, os: seq<Outcome>)
    requires Agrees(s, os) && (s.place.AwaitBack? || s.place.Consume?)
    ensures Agrees(GivesUp(s), os + OutcomeOf(s, Go(true)))
  {
    assert os + [] == os && s.story + [] == s.story && s.story + [Back] + [] == s.story + [Back];
    OutcomeSnoc(os, Asked);
  }

  lemma {:induction false} EndingAgrees(s: State, os: seq<Outcome>)
    requires Agrees(s, os) && !Starting(s.place) && !Online(s.place) && !Reconnecting(s.place)
    ensures Agrees(GivesUp(s), os + OutcomeOf(s, Go(true)))
  {
    if s.place.AwaitBack? || s.place.Consume? {
      AwaitingAgrees(s, os);
    } else {
      assert os + [] == os;
      NotifyingAgrees(s, os);
    }
  }

  lemma {:induction false} StepAgrees(s: State, os: seq<Outcome>, a: Action)
    requires Inv(s) && Agrees(s, os)
    ensures Agrees(Next(s, a), os + OutcomeOf(s, a))
  {
    assert os + [] == os;
    if a.Go? {
      if Starting(s.place) {
        StartingAgrees(s, os, a.ok);
      } else if Online(s.place) {
        OnlineAgrees(s, os, a.ok);
      } else if Reconnecting(s.place) {
        RetryAgrees(s, os, a.ok);
      } else {
        EndingAgrees(s, os);
      }
    }
  }

  /** In every run the watcher tells what the outcomes of its calls give to tell, and counts as they do. */
  lemma {:induction false} StoryFollowsOutcomes(actions: seq<Action>)
    ensures Agrees(After(actions), Outcomes(actions))
  {
    if actions != [] {
      StoryFollowsOutcomes(Front(actions));
      RunKeepsInv(Front(actions));
      StepAgrees(After(Front(actions)), Outcomes(Front(actions)), Last(actions));
    }
  }

  // ---------------------------------------------------------------- main results

  /**
   A failed attempt is told upon a call that failed while reconnecting, always and only then; a connection is
   told to be up only if the last outcome is a connect that succeeded.
   */
  lemma {:induction false} ToldUponOutcome(actions: seq<Action>)
    requires actions != []
    ensures var s, s', a := After(Front(actions)), After(actions), Last(actions);
            && (s'.story == s.story + [AttemptFailed]
                <==> a == Go(false) && (s.place.RetryConnect? || (s.place.RetryCreate? && s.tries < 3)))
            && (s'.story == s.story + [Up] ==> Outcomes(actions) != [] && Last(Outcomes(actions)) == Came)
  {
    var s, a := After(Front(actions)), Last(actions);
    StoryFollowsOutcomes(Front(actions));
    RunKeepsInv(Front(actions));
    NotesOfStep(s, a);
    if a.Go? && s.place.Raise? {
      assert Outcomes(Front(actions)) + [] == Outcomes(Front(actions));
    }
  }

  /** A step tells a failed attempt or a connection if and only if it is said to, and at most one thing else. */
  predicate TellsOnly(s: State, s': State, failed: bool, up: bool) {
    && |s'.story| <= |s.story| + 1
    && (s'.story == s.story + [AttemptFailed] <==> failed)
    && (s'.story == s.story + [Up] <==> up)
  }

  lemma SilentStep(s: State, s': State)
    requires s'.story == s.story
    ensures TellsOnly(s, s', false, false)
  {
    assert |s.story + [AttemptFailed]| == |s.story + [Up]| == |s.story| + 1;
  }

  lemma TellingStep(s: State, s': State, n: Note)
    requires s'.story == s.story + [n]
    ensures TellsOnly(s, s', n == AttemptFailed, n == Up)
  {
    assert s'.story[|s.story|] == n;
    assert (s.story + [AttemptFailed])[|s.story|] == AttemptFailed && (s.story + [Up])[|s.story|] == Up;
  }

  lemma RetryNotes(s: State, ok: bool)
    requires Reconnecting(s.place) && (s.slot <==> SlotInUse(s.place))
    ensures TellsOnly(s, Reconnects(s, ok), !ok && (s.place.RetryConnect? || s.tries < 3), false)
  {
    var s' := Reconnects(s, ok);
    if !ok && (s.place.RetryConnect? || s.tries < 3) {
      TellingStep(s, s', AttemptFailed);
    } else {
      SilentStep(s, s');
    }
  }

  lemma OnlineNotes(s: State, ok: bool)
    requires Online(s.place)
    ensures TellsOnly(s, Serves(s, ok), false, s.place.Raise?)
  {
    var s' := Serves(s, ok);
    if s.place.Raise? {
      TellingStep(s, s', Up);
    } else if s.place.Drop? {
      TellingStep(s, s', Lost);
    } else {
      SilentStep(s, s');
    }
  }

  lemma EndingNotes(s: State)
    requires !Starting(s.place) && !Online(s.place) && !Reconnecting(s.place)
    ensures TellsOnly(s, GivesUp(s), false, false)
  {
    var s' := GivesUp(s);
    match s.place
    case NotifyFirst => TellingStep(s, s', Notified(0));
    case NotifySecond => TellingStep(s, s', Notified(1));
    case Declare => TellingStep(s, s', Dead);
    case Consume => TellingStep(s, s', Back);
    case _ => SilentStep(s, s');
  }

  lemma {:induction false} NotesOfStep(s: State, a: Action)
    requires s.slot <==> SlotInUse(s.place)
    ensures TellsOnly(s, Next(s, a),
                      a == Go(false) && (s.place.RetryConnect? || (s.place.RetryCreate? && s.tries < 3)),
                      a.Go? && s.place.Raise?)
  {
    if a.RequestBack? {
      SilentStep(s, Next(s, a));
    } else if Starting(s.place) {
      SilentStep(s, Starts(s, a.ok));
    } else if Online(s.place) {
      OnlineNotes(s, a.ok);
    } else if Reconnecting(s.place) {
      RetryNotes(s, a.ok);
    } else {
      EndingNotes(s);
    }
  }

  /** The outcome of the k-th action of a run. */
  function OutcomeAt(actions: seq<Action>, k: nat): seq<Outcome>
    requires k < |actions|
  {
    OutcomeOf(After(actions[..k]), actions[k])
  }

  /** The place of a call that creates or connects a socket. */
  predicate Attempts(s: State) {
    s.place.Create? || s.place.Connect? || s.place.RetryConnect? || (s.place.RetryCreate? && s.tries < 3)
  }

  /** The slot is in use after exactly those such calls that succeeded; Destroy empties it, all else leaves it. */
  lemma {:induction false} SlotFollowsCalls(actions: seq<Action>)
    requires actions != []
    ensures var s, s', a := After(Front(actions)), After(actions), Last(actions);
            s'.slot == if a.Go? && Attempts(s) then a.ok else s.slot && !(a.Go? && s.place.Destroy?)
  {
    RunKeepsInv(Front(actions));
    SlotAfterStep(After(Front(actions)), Last(actions));
  }

  lemma SlotAfterStep(s: State, a: Action)
    requires s.slot <==> SlotInUse(s.place)
    ensures Next(s, a).slot == if a.Go? && Attempts(s) then a.ok else s.slot && !(a.Go? && s.place.Destroy?)
  {
  }

  /** The actions that had an outcome, one for each. */
  ghost predicate CallsOf(actions: seq<Action>, os: seq<Outcome>, at: seq<nat>) {
    && |at| == |os|
    && (forall i | 0 <= i < |at| :: at[i] < |actions|)
    && (forall i | 0 <= i < |at| :: OutcomeAt(actions, at[i]) == [os[i]] && Outcomes(actions[..at[i]]) == os[..i])
    && (forall i, j | 0 <= i < j < |at| :: at[i] < at[j])
  }

  lemma {:induction false} OutcomesSnoc(actions: seq<Action>)
    requires actions != []
    ensures Outcomes(actions) == Outcomes(Front(actions)) + OutcomeAt(actions, |actions| - 1)
    ensures |OutcomeAt(actions, |actions| - 1)| <= 1
  {
    assert actions[..|actions| - 1] == Front(actions);
    OneOutcome(After(Front(actions)), Last(actions));
  }

  lemma OneOutcome(s: State, a: Action)
    ensures |OutcomeOf(s, a)| <= 1
  {
  }

  lemma {:induction false} EarlierCalls(actions: seq<Action>, os: seq<Outcome>, at: seq<nat>)
    requires actions != [] && CallsOf(Front(actions), os, at)
    ensures CallsOf(actions, os, at)
  {
    var front := Front(actions);
    assert forall i | 0 <= i < |at| :: actions[..at[i]] == front[..at[i]];
  }

  lemma {:induction false} NewCall(actions: seq<Action>, os: seq<Outcome>, at: seq<nat>, o: Outcome)
    requires actions != [] && CallsOf(actions, os, at) && forall i | 0 <= i < |at| :: at[i] < |actions| - 1
    requires OutcomeAt(actions, |actions| - 1) == [o] && os == Outcomes(Front(actions))
    ensures CallsOf(actions, os + [o], at + [|actions| - 1])
  {
    var n, more := |actions| - 1, at + [|actions| - 1];
    assert actions[..n] == Front(actions) && (os + [o])[..|os|] == os;
    assert forall i | 0 <= i < |at| :: more[i] == at[i] && (os + [o])[i] == os[i] && (os + [o])[..i] == os[..i];
  }

  lemma {:induction false} OutcomesHaveCalls(actions: seq<Action>) returns (at: seq<nat>)
    ensures CallsOf(actions, Outcomes(actions), at)
  {
    at := [];
    if actions != [] {
      var n := |actions| - 1;
      at := OutcomesHaveCalls(Front(actions));
      OutcomesSnoc(actions);
      EarlierCalls(actions, Outcomes(Front(actions)), at);
      AddCall(actions, Outcomes(Front(actions)), at, OutcomeAt(actions, n));
      if OutcomeAt(actions, n) != [] {
        at := at + [n];
      }
    }
  }

  lemma {:induction false} AddCall(actions: seq<Action>, os: seq<Outcome>, at: seq<nat>, o: seq<Outcome>)
    requires actions != [] && CallsOf(actions, os, at) && forall i | 0 <= i < |at| :: at[i] < |actions| - 1
    requires OutcomeAt(actions, |actions| - 1) == o && |o| <= 1 && os == Outcomes(Front(actions))
    ensures CallsOf(actions, os + o, if o == [] then at else at + [|actions| - 1])
  {
    if o == [] {
      assert os + o == os;
    } else {
      NewCall(actions, os, at, o[0]);
      assert o == [o[0]];
    }
  }

  lemma {:induction false} LostForMeans(os: seq<Outcome>, n: nat)
    requires LostFor(os, n)
    ensures n < |os| && os[|os| - n - 1] == Broke
    ensures forall i | |os| - n <= i < |os| :: os[i] == Refused
    decreases n
  {
    if n > 0 {
      LostForMeans(Front(os), n - 1);
    }
  }

  lemma {:induction false} LostForPrefix(os: seq<Outcome>, n: nat, k: nat)
    requires LostFor(os, n) && k <= n
    ensures n < |os| && LostFor(os[..|os| - n + k], k)
    decreases n
  {
    if k < n {
      LostForPrefix(Front(os), n - 1, k);
      assert Front(os)[..|os| - n + k] == os[..|os| - n + k];
    } else {
      LostForMeans(os, n);
      assert os[..|os|] == os;
    }
  }

  /** A poll that failed, or while reconnecting a call that failed. */
  predicate Fails(s: State, a: Action, o: Outcome) {
    a == Go(false) && if o == Broke then s.place.Poll? else Reconnecting(s.place)
  }

  lemma {:induction false} FailureOf(s: State, a: Action, os: seq<Outcome>, o: Outcome)
    requires Agrees(s, os) && OutcomeOf(s, a) == [o]
    requires o == Broke || (o == Refused && LostFor(os, RefusedLast(os)))
    ensures Fails(s, a, o)
  {
  }

  lemma {:induction false} CallFails(actions: seq<Action>, k: nat, os: seq<Outcome>, o: Outcome)
    requires k < |actions| && Outcomes(actions[..k]) == os && OutcomeAt(actions, k) == [o]
    requires o == Broke || (o == Refused && LostFor(os, RefusedLast(os)))
    ensures Fails(After(actions[..k]), actions[k], o)
  {
    StoryFollowsOutcomes(actions[..k]);
    FailureOf(After(actions[..k]), actions[k], os, o);
  }

  lemma {:induction false} FourthLast(os: seq<Outcome>, i: nat)
    requires LostFor(os, 3) && i < 4
    ensures |os| >= 4
    ensures var n := |os| - 4 + i; if i == 0 then os[n] == Broke else os[n] == Refused && LostFor(os[..n], i - 1)
  {
    LostForMeans(os, 3);
    if i > 0 {
      LostForPrefix(os, 3, i - 1);
    }
  }

  /** Of the last four outcomes before a declaration, the first is that of a poll, the others of calls to reconnect. */
  lemma {:induction false} FourthLastFails(actions: seq<Action>, os: seq<Outcome>, calls: seq<nat>, n: nat, i: nat)
    requires CallsOf(actions, os, calls) && LostFor(os, 3) && n + 4 == |os| && i < 4
    ensures var k := calls[n + i]; Fails(After(actions[..k]), actions[k], if i == 0 then Broke else Refused)
  {
    FourthLast(os, i);
    CallFails(actions, calls[n + i], os[..n + i], os[n + i]);
  }

  /** The last four calls with an outcome failed: the connection was found broken, and three attempts were refused. */
  ghost predicate LastFourFailed(actions: seq<Action>, os: seq<Outcome>, calls: seq<nat>, n: nat) {
    && CallsOf(actions, os, calls) && n + 4 == |calls|
    && os[n..] == [Broke, Refused, Refused, Refused]
    && (forall i | n <= i < |calls| :: actions[calls[i]] == Go(false))
  }

  lemma {:induction false} LastFour(os: seq<Outcome>)
    requires LostFor(os, 3)
    ensures |os| >= 4 && os[|os| - 4..] == [Broke, Refused, Refused, Refused]
  {
    LostForMeans(os, 3);
  }

  lemma FailedCall(actions: seq<Action>, k: nat)
    requires k < |actions| && (OutcomeAt(actions, k) == [Broke] || OutcomeAt(actions, k) == [Refused])
    ensures actions[k] == Go(false)
  {
  }

  lemma {:induction false} DeadMeansLost(actions: seq<Action>)
    requires Ends(After(actions).story, Dead)
    ensures LostFor(Outcomes(actions), 3)
  {
    StoryFollowsOutcomes(actions);
    RunKeepsInv(actions);
    DeadPlace(After(actions));
  }

  /**
   A VAS stands declared dead only upon three calls that failed, one in each of three attempts to reconnect,
   after a poll that found the connection broken: these are the last four outcomes the watcher got.
   */
  lemma {:induction false} DeathTakesThreeRefusals(actions: seq<Action>) returns (calls: seq<nat>, n: nat)
    requires Ends(After(actions).story, Dead)
    ensures LastFourFailed(actions, Outcomes(actions), calls, n)
  {
    var os := Outcomes(actions);
    DeadMeansLost(actions);
    LastFour(os);
    calls := OutcomesHaveCalls(actions);
    n := |os| - 4;
    forall i | n <= i < |calls|
      ensures actions[calls[i]] == Go(false)
    {
      assert os[i] == os[n..][i - n];
      FailedCall(actions, calls[i]);
    }
  }

  lemma DeadPlace(s: State)
    requires Told(s) && Ends(s.story, Dead)
    ensures s.place.AwaitBack? || s.place.Consume?
  {
    if Reconnecting(s.place) {
      FailuresEnd(s.story, s.tries);
    }
  }

  // ---------------------------------------------------------------- how soon

  /** The watcher's own steps among some actions. */
  function Own(actions: seq<Action>): nat
    decreases |actions|
  {
    if actions == [] then 0 else Own(actions[1..]) + if actions[0].Go? then 1 else 0
  }

  /** The own steps until everything to be told is told. */
  function StepsToTell(s: State): nat {
    match s.place
    case Publish => 2
    case Raise => 1
    case Drop => 1
    case RetryCreate => if s.tries >= 3 then 4 else 0
    case NotifyFirst => 3
    case NotifySecond => 2
    case Declare => 1
    case _ => 0
  }

  /** At some point of these actions the watcher has told that story, and its flags say so. */
  ghost predicate Tells(s: State, actions: seq<Action>, story: seq<Note>)
    decreases |actions|
  {
    || (s.story == story && (s.connected <==> Ends(story, Up)) && (Ends(story, Dead) ==> s.failed))
    || (actions != [] && Tells(Next(s, actions[0]), actions[1..], story))
  }

  predicate StepsTowards(s: State, s': State) {
    StepsToTell(s') == StepsToTell(s) - 1 && s'.story + Untold(s') == s.story + Untold(s)
  }

  lemma {:induction false} GivingUpTells(s: State)
    requires s.place.NotifyFirst? || s.place.NotifySecond? || s.place.Declare?
    ensures StepsTowards(s, GivesUp(s))
  {
    var n := Untold(s)[0];
    assert GivesUp(s).story == s.story + [n] && Untold(s) == [n] + Untold(GivesUp(s));
    assert s.story + ([n] + Untold(GivesUp(s))) == s.story + [n] + Untold(GivesUp(s));
  }

  lemma {:induction false} ServingTells(s: State, ok: bool)
    requires s.place.Raise? || s.place.Drop?
    ensures StepsTowards(s, Serves(s, ok))
  {
    var n := Untold(s)[0];
    assert Untold(s) == [n] && Untold(Serves(s, ok)) == [] && Serves(s, ok).story == s.story + [n];
    assert s.story + [n] + [] == s.story + [n];
  }

  lemma {:induction false} StepTowardsTelling(s: State, ok: bool)
    requires StepsToTell(s) > 0
    ensures StepsTowards(s, Moved(s, ok))
  {
    match s.place
    case RetryCreate =>
    case Publish =>
    case Raise => ServingTells(s, ok);
    case Drop => ServingTells(s, ok);
    case _ => GivingUpTells(s);
  }

  /**
   Whatever its calls return and whenever change-backs are requested, at most four of its own steps later the
   watcher has told all that its outcomes so far give to tell, and raised or lowered its flags accordingly.
   */
  lemma {:induction false} OutcomesAreToldSoon(s: State, more: seq<Action>)
    requires Inv(s) && Own(more) >= StepsToTell(s)
    ensures Tells(s, more, s.story + Untold(s))
    decreases |more|
  {
    if StepsToTell(s) == 0 {
      assert s.story + [] == s.story;
      InvTells(s);
    } else {
      var a := more[0];
      StepKeepsInv(s, a);
      if a.Go? {
        StepTowardsTelling(s, a.ok);
      } else {
        assert StepsToTell(Next(s, a)) == StepsToTell(s) && Untold(Next(s, a)) == Untold(s);
      }
      OutcomesAreToldSoon(Next(s, a), more[1..]);
    }
  }

  /** The own steps until a requested change-back has brought the flag down. */
  function StepsToLower(s: State): nat {
    match s.place
    case AwaitBack => 4
    case Consume => 3
    case ClearConnected => 2
    case ClearFailed => 1
    case _ => 0
  }

  ghost predicate Lowers(s: State, actions: seq<Action>)
    decreases |actions|
  {
    !s.failed || (actions != [] && Lowers(Next(s, actions[0]), actions[1..]))
  }

  lemma StepTowardsLowering(s: State, a: Action)
    requires FlagsFit(s) && s.failed && (s.place.AwaitBack? ==> s.changeBack)
    ensures var s' := Next(s, a);
            && (s'.place.AwaitBack? ==> s'.changeBack)
            && (s'.failed ==> StepsToLower(s') <= StepsToLower(s) - if a.Go? then 1 else 0)
  {
  }

  /** A requested change-back brings the flag of a dead VAS down within four of the watcher's own steps. */
  lemma {:induction false} ChangeBackLowersFlag(s: State, more: seq<Action>)
    requires Inv(s) && (s.failed && s.place.AwaitBack? ==> s.changeBack) && Own(more) >= StepsToLower(s)
    ensures Lowers(s, more)
    decreases |more|
  {
    if s.failed && more != [] {
      StepKeepsInv(s, more[0]);
      StepTowardsLowering(s, more[0]);
      if Next(s, more[0]).failed {
        ChangeBackLowersFlag(Next(s, more[0]), more[1..]);
      }
    }
  }
}
