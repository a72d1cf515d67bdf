/**
 What the call tracker does not depend on: other calls, its own RTP counters, and the message types
 the socket thread does not enqueue.
 */
module CallIndependence {
  import opened Streams
  import opened FloatingFields
  import opened IpIndex
  import opened CallTracking

  // ---------------------------------------------------------------- other calls

  /** The events about one call. */
  function Only(es: seq<Event>, c: nat): seq<Event> {
    if es == [] then [] else Only(Front(es), c) + if About(Last(es), c) then [Last(es)] else []
  }

  function OfCall(ns: seq<Notice>, c: nat): seq<Notice> {
    if ns == [] then []
    else OfCall(Front(ns), c) + if Last(ns).call == c then [Last(ns)] else []
  }

  lemma OfCallAppend(ns: seq<Notice>, more: seq<Notice>, c: nat)
    requires |more| <= 1
    ensures OfCall(ns + more, c) == OfCall(ns, c) + OfCall(more, c)
  {
    if more == [] {
      assert ns + more == ns;
    } else {
      assert (ns + more)[..|ns|] == ns;
    }
  }

  ghost predicate SameRecord(s: Tracker, s': Tracker, c: nat) {
    (c in s.cdr <==> c in s'.cdr) && (c in s.cdr ==> s.cdr[c] == s'.cdr[c])
  }

  lemma OfOneCall(sent: seq<Notice>, e: Event, c: nat)
    requires |sent| <= 1 && forall n | n in sent :: About(e, n.call)
    ensures OfCall(sent, c) == if About(e, c) then sent else []
  {
    if sent != [] {
      assert sent[0] in sent && Front(sent) == [];
    }
  }

  lemma StepElsewhere(t: Table, s: Tracker, e: Event, c: nat)
    requires !About(e, c)
    ensures SameRecord(Step(t, s, e).0, s, c)
  {
  }

  lemma StepHere(t: Table, s: Tracker, s': Tracker, e: Event, c: nat)
    requires SameRecord(s, s', c) && About(e, c)
    ensures SameRecord(Step(t, s, e).0, Step(t, s', e).0, c) && Step(t, s, e).1 == Step(t, s', e).1
  {
  }

  lemma {:induction false} StepOnOneCall(t: Table, s: Tracker, s': Tracker, e: Event, c: nat)
    requires SameRecord(s, s', c)
    ensures About(e, c) ==> SameRecord(Step(t, s, e).0, Step(t, s', e).0, c)
    ensures About(e, c) ==> Step(t, s, e).1 == Step(t, s', e).1 == OfCall(Step(t, s, e).1, c)
    ensures !About(e, c) ==> SameRecord(Step(t, s, e).0, s', c) && OfCall(Step(t, s, e).1, c) == []
    ensures |Step(t, s, e).1| <= 1
  {
    StepReportsOwn(t, s, e);
    OfOneCall(Step(t, s, e).1, e, c);
    if About(e, c) {
      StepHere(t, s, s', e, c);
    } else {
      StepElsewhere(t, s, e, c);
    }
  }

  /**
   For every run and every call: the notices about the call are the ones a run of its own events alone
   emits. Neither the shared map nor the direction flag of the last Begin leaks between calls.
   */
  lemma {:induction false} CallsAreIndependent(t: Table, es: seq<Event>, c: nat)
    ensures OfCall(Log(t, es), c) == Log(t, Only(es, c))
    ensures SameRecord(After(t, es), After(t, Only(es, c)), c)
  {
    if es != [] {
      var e, own := Last(es), Only(Front(es), c);
      CallsAreIndependent(t, Front(es), c);
      var s, s' := After(t, Front(es)), After(t, own);
      StepOnOneCall(t, s, s', e, c);
      OfCallAppend(Log(t, Front(es)), Step(t, s, e).1, c);
      if About(e, c) {
        RunSnoc(t, own, e);
      } else {
        assert own + [] == own && Log(t, own) + [] == Log(t, own);
      }
    }
  }

  // ---------------------------------------------------------------- the RTP counters

  /** The tracker without nTwoRtpStarted and nTwoRtpStopped. */
  datatype Lean = Lean(cid: string, callkey: string, agentId: string, agentExt: string, agentIp: string,
                       inbound: bool, awaiting: bool)

  function Erase(r: Record): Lean {
    Lean(r.cid, r.callkey, r.agentId, r.agentExt, r.agentIp, r.inbound, r.awaiting)
  }

  function LeanSend(t: Table, c: nat, r: Lean, kind: char): seq<Notice> {
    var vas := VasNo(t, r.agentIp);
    if vas == -1 then [] else [Notice(vas, kind, c, r.cid, r.callkey, r.agentExt, r.agentId, r.agentIp)]
  }

  function LeanHeard(r: Lean, direction: nat, fields: seq<Field>): Lean {
    if direction != 0 then r
    else
      var heard := r.(agentIp := LastText(fields, CLIENT_ADDRESS_TAG), agentId := LastText(fields, AGENT_ID_TAG));
      if r.inbound then heard.(awaiting := false) else heard.(agentExt := LastText(fields, AGENT_EXTENSION_TAG))
  }

  function LeanOnRecord(t: Table, r: Lean, e: Event): (Lean, seq<Notice>)
    requires e.Established? || e.RtpStarted? || e.RtpStopped?
  {
    match e
    case Established(c, fields) =>
      if r.inbound then (r, [])
      else if VasNo(t, r.agentIp) > 0 then
        var r1 := r.(cid := LastText(fields, CALLED_DEVID_TAG), awaiting := false);
        (r1, LeanSend(t, c, r1, 'S'))
      else (r.(awaiting := false), [])
    case RtpStarted(c, direction, fields) =>
      var r1 := LeanHeard(r, direction, fields);
      var ip := if direction == 0 then LastText(fields, CLIENT_ADDRESS_TAG) else "";
      (r1, if (r1.inbound || !r1.awaiting) && VasNo(t, ip) > 0 then LeanSend(t, c, r1, 'S') else [])
    case RtpStopped(c, fields) =>
      (r, if VasNo(t, LastText(fields, CLIENT_ADDRESS_TAG)) > 0 then LeanSend(t, c, r, 'E') else [])
  }

  function LeanStep(t: Table, s: map<nat, Lean>, e: Event): (map<nat, Lean>, seq<Notice>) {
    match e
    case Begin(c, fields, generated) => (if c in s then s else s[c := Erase(NewRecord(fields, generated))], [])
    case Cleared(c) => (s - {c}, [])
    case Other(_) => (s, [])
    case _ =>
      if e.call in s then var (r, sent) := LeanOnRecord(t, s[e.call], e); (s[e.call := r], sent) else (s, [])
  }

  function LeanAfter(t: Table, es: seq<Event>): map<nat, Lean> {
    if es == [] then map[] else LeanStep(t, LeanAfter(t, Front(es)), Last(es)).0
  }

  function LeanLog(t: Table, es: seq<Event>): seq<Notice> {
    if es == [] then []
    else LeanLog(t, Front(es)) + LeanStep(t, LeanAfter(t, Front(es)), Last(es)).1
  }

  ghost predicate Erased(s: map<nat, Record>, s': map<nat, Lean>) {
    && s.Keys == s'.Keys
    && (forall c | c in s :: s'[c] == Erase(s[c]) && Counted(s[c]))
  }

  predicate Counted(r: Record) {
    r.rtpStarted >= 0 && r.rtpStopped >= 0
  }

  lemma EraseOnRecord(t: Table, r: Record, e: Event)
    requires e.Established? || e.RtpStarted? || e.RtpStopped?
    requires Counted(r)
    ensures var (r', sent) := OnRecord(t, r, e);
            LeanOnRecord(t, Erase(r), e) == (Erase(r'), sent) && Counted(r')
  {
  }

  lemma EraseUpdate(s: map<nat, Record>, s': map<nat, Lean>, c: nat, r: Record)
    requires Erased(s, s') && Counted(r)
    ensures Erased(s[c := r], s'[c := Erase(r)])
  {
  }

  lemma {:induction false} EraseStep(t: Table, s: Tracker, s': map<nat, Lean>, e: Event)
    requires Erased(s.cdr, s')
    ensures Erased(Step(t, s, e).0.cdr, LeanStep(t, s', e).0)
    ensures Step(t, s, e).1 == LeanStep(t, s', e).1
  {
    match e
    case Begin(c, fields, generated) => EraseUpdate(s.cdr, s', c, NewRecord(fields, generated));
    case Cleared(_) =>
    case Other(_) =>
    case _ =>
      if e.call in s.cdr {
        EraseOnRecord(t, s.cdr[e.call], e);
        EraseUpdate(s.cdr, s', e.call, OnRecord(t, s.cdr[e.call], e).0);
      }
  }

  /** The counters decide nothing: without them every run emits the same notices. */
  lemma {:induction false} CountersDecideNothing(t: Table, es: seq<Event>)
    ensures Log(t, es) == LeanLog(t, es)
    ensures Erased(After(t, es).cdr, LeanAfter(t, es))
  {
    if es != [] {
      CountersDecideNothing(t, Front(es));
      EraseStep(t, After(t, Front(es)), LeanAfter(t, Front(es)), Last(es));
    }
  }

  // ---------------------------------------------------------------- message types

  const MT_CALL_ESTABLISHED_EVENT := 10
  const MT_CALL_CLEARED_EVENT := 13
  const MT_BEGIN_CALL_EVENT := 23
  const MT_RTP_STARTED_EVENT := 116
  const MT_RTP_STOPPED_EVENT := 117

  /** A CTI message with its floating part walked. */
  datatype Message = Message(messageType: nat, call: nat, direction: nat, fields: seq<Field>, generated: string)

  /** The types the socket thread puts into the CTI queue; it discards every other message. */
  predicate Queued(messageType: nat) {
    || messageType == MT_BEGIN_CALL_EVENT
    || messageType == MT_CALL_CLEARED_EVENT
    || messageType == MT_RTP_STARTED_EVENT
    || messageType == MT_RTP_STOPPED_EVENT
    || messageType == MT_CALL_ESTABLISHED_EVENT
  }

  /** Parse: the handlers of all other types only print. */
  function Parsed(m: Message): Event {
    if m.messageType == MT_BEGIN_CALL_EVENT then Begin(m.call, m.fields, m.generated)
    else if m.messageType == MT_CALL_ESTABLISHED_EVENT then Established(m.call, m.fields)
    else if m.messageType == MT_CALL_CLEARED_EVENT then Cleared(m.call)
    else if m.messageType == MT_RTP_STARTED_EVENT then RtpStarted(m.call, m.direction, m.fields)
    else if m.messageType == MT_RTP_STOPPED_EVENT then RtpStopped(m.call, m.fields)
    else Other(m.messageType)
  }

  function ParsedAll(ms: seq<Message>): seq<Event> {
    if ms == [] then [] else ParsedAll(Front(ms)) + [Parsed(Last(ms))]
  }

  function QueuedOnly(ms: seq<Message>): seq<Message> {
    if ms == [] then []
    else QueuedOnly(Front(ms)) + if Queued(Last(ms).messageType) then [Last(ms)] else []
  }

  /** The socket thread enqueues exactly these types, and Parse gives exactly these to a tracking handler. */
  lemma QueuedIffTracked(m: Message)
    ensures Queued(m.messageType) <==> m.messageType in {10, 13, 23, 116, 117}
    ensures Queued(m.messageType) <==> !Parsed(m).Other?
  {
  }

  /** A notice names the call of its message; a start comes of type 116 or 10 only, an end of type 117 only. */
  lemma {:induction false} NoticesByType(t: Table, s: Tracker, m: Message)
    ensures var sent := Step(t, s, Parsed(m)).1;
            && |sent| <= 1
            && forall n | n in sent :: n.call == m.call
                 && (if n.kind == 'S' then m.messageType in {10, 116} else n.kind == 'E' && m.messageType == 117)
  {
    StepReportsOwn(t, s, Parsed(m));
  }

  /** Type 23 opens a call, type 13 closes it, types 10, 116 and 117 do neither, and all others change nothing. */
  lemma {:induction false} CallsByType(t: Table, s: Tracker, m: Message)
    ensures var s' := Step(t, s, Parsed(m)).0;
            && s'.cdr.Keys == (if m.messageType == 23 then s.cdr.Keys + {m.call}
                               else if m.messageType == 13 then s.cdr.Keys - {m.call} else s.cdr.Keys)
            && (m.messageType == 23 && m.call in s.cdr ==> s'.cdr == s.cdr)
            && (m.messageType !in {10, 13, 23, 116, 117} ==> s' == s)
            && s'.lastInbound == (if m.messageType != 23 then s.lastInbound
                                  else LastText(m.fields, 25) != LastText(m.fields, 8) || |LastText(m.fields, 25)| != 5)
            && forall c | c in s.cdr && c != m.call :: c in s'.cdr && s'.cdr[c] == s.cdr[c]
  {
  }

  /**
   An RTP start (type 116) of a tracked inbound call: from the agent's side (direction 0) and a mapped address
   it sends exactly one 'S', with the address and agent id of the message; otherwise nothing.
   */
  lemma {:induction false} StartOfInbound(t: Table, s: Tracker, m: Message)
    requires m.messageType == 116 && m.call in s.cdr && s.cdr[m.call].inbound && Counted(s.cdr[m.call])
    ensures var r, ip := s.cdr[m.call], LastText(m.fields, 81);
            Step(t, s, Parsed(m)).1 ==
              if m.direction == 0 && VasNo(t, ip) > 0 then
                [Notice(VasNo(t, ip), 'S', m.call, r.cid, r.callkey, r.agentExt, LastText(m.fields, 5), ip)]
              else []
  {
    NoVasForEmptyText(t);
  }

  /** The same for an outbound call, once it was established; it takes the extension of the message, too. */
  lemma {:induction false} StartOfOutbound(t: Table, s: Tracker, m: Message)
    requires m.messageType == 116 && m.call in s.cdr && !s.cdr[m.call].inbound && Counted(s.cdr[m.call])
    ensures var r, ip := s.cdr[m.call], LastText(m.fields, 81);
            Step(t, s, Parsed(m)).1 ==
              if m.direction == 0 && VasNo(t, ip) > 0 && !r.awaiting then
                [Notice(VasNo(t, ip), 'S', m.call, r.cid, r.callkey, LastText(m.fields, 4), LastText(m.fields, 5), ip)]
              else []
  {
    NoVasForEmptyText(t);
  }

  /** An RTP stop (type 117) of a tracked call sends exactly one 'E' if both its and the record's address are mapped. */
  lemma {:induction false} StopOfCall(t: Table, s: Tracker, m: Message)
    requires m.messageType == 117 && m.call in s.cdr && Counted(s.cdr[m.call])
    ensures var r := s.cdr[m.call];
            var vas := VasNo(t, r.agentIp);
            Step(t, s, Parsed(m)).1 ==
              if VasNo(t, LastText(m.fields, 81)) > 0 && vas > 0 then
                [Notice(vas, 'E', m.call, r.cid, r.callkey, r.agentExt, r.agentId, r.agentIp)]
              else []
  {
    assert Parsed(m) == RtpStopped(m.call, m.fields);
    assert Step(t, s, Parsed(m)).1 == OnRtpStopped(t, m.call, s.cdr[m.call], LastText(m.fields, 81)).1;
  }

  /** Established (type 10) of a tracked outbound call with a mapped address sends one 'S' with the number called. */
  lemma {:induction false} EstablishedCall(t: Table, s: Tracker, m: Message)
    requires m.messageType == 10 && m.call in s.cdr
    ensures var r := s.cdr[m.call];
            var vas := VasNo(t, r.agentIp);
            Step(t, s, Parsed(m)).1 ==
              if !r.inbound && vas > 0 then
                [Notice(vas, 'S', m.call, LastText(m.fields, 28), r.callkey, r.agentExt, r.agentId, r.agentIp)]
              else []
  {
    assert Parsed(m) == Established(m.call, m.fields);
    assert Step(t, s, Parsed(m)).1 == OnEstablished(t, m.call, s.cdr[m.call], LastText(m.fields, 28)).1;
  }

  /** Parsing the whole stream or only what the socket thread enqueues comes to the same. */
  lemma {:induction false} DiscardedMessagesDoNotMatter(t: Table, ms: seq<Message>)
    ensures After(t, ParsedAll(ms)) == After(t, ParsedAll(QueuedOnly(ms)))
    ensures Log(t, ParsedAll(ms)) == Log(t, ParsedAll(QueuedOnly(ms)))
  {
    if ms != [] {
      var es, kept, m := ParsedAll(Front(ms)), QueuedOnly(Front(ms)), Last(ms);
      var e := Parsed(m);
      DiscardedMessagesDoNotMatter(t, Front(ms));
      RunSnoc(t, es, e);
      QueuedIffTracked(m);
      if Queued(m.messageType) {
        assert Front(kept + [m]) == kept;
        RunSnoc(t, ParsedAll(kept), e);
      } else {
        assert kept + [] == kept && Step(t, After(t, es), e) == (After(t, es), []);
      }
    }
  }

  predicate BeginsAt(es: seq<Event>, c: nat, i: nat)
    requires i < |es|
  {
    About(es[i], c) && es[i].Begin?
  }

  ghost predicate BegunAndNotCleared(es: seq<Event>, c: nat) {
    exists i: nat :: i < |es| && BeginsAt(es, c, i) && forall j | i < j < |es| :: es[j] != Cleared(c)
  }

  lemma BegunStep(es: seq<Event>, c: nat)
    requires es != []
    ensures var e := Last(es);
            BegunAndNotCleared(es, c)
            <==> e != Cleared(c) && (BegunAndNotCleared(Front(es), c) || (About(e, c) && e.Begin?))
  {
    var front, e, n := Front(es), Last(es), |es| - 1;
    if e != Cleared(c) && BegunAndNotCleared(front, c) {
      var i: nat :| i < n && BeginsAt(front, c, i) && forall j | i < j < n :: front[j] != Cleared(c);
      assert BeginsAt(es, c, i);
    } else if About(e, c) && e.Begin? {
      assert BeginsAt(es, c, n);
    }
    if i: nat :| i < n && BeginsAt(es, c, i) && forall j | i < j < |es| :: es[j] != Cleared(c) {
      assert es[n] != Cleared(c) && BeginsAt(front, c, i) && forall j | i < j < n :: front[j] == es[j];
    }
  }

  /** The map holds exactly the calls with a Begin that no Cleared followed. */
  lemma {:induction false} TrackedIffBegunAndNotCleared(t: Table, es: seq<Event>, c: nat)
    ensures c in After(t, es).cdr <==> BegunAndNotCleared(es, c)
  {
    if es != [] {
      TrackedIffBegunAndNotCleared(t, Front(es), c);
      BegunStep(es, c);
    }
  }
}
