/**
 The call tracker as a function: each event updates the record of one call and may emit a start ('S')
 or an end ('E') notice to the VAS that serves the agent's address.
 */
module CallTracking {
  import opened Streams
  import opened FloatingFields
  import opened IpIndex

  /** What is known of a call (INFO_FOR_VAS). An outbound call awaits its first Established event. */
  datatype Record = Record(cid: string, callkey: string, agentId: string, agentExt: string, agentIp: string,
                           rtpStarted: int, rtpStopped: int, inbound: bool, awaiting: bool)

  /** Events as the parser sees them; `generated` is the key the shared generator would yield now. */
  datatype Event =
    | Begin(call: nat, fields: seq<Field>, generated: string)
    | Established(call: nat, fields: seq<Field>)
    | RtpStarted(call: nat, direction: nat, fields: seq<Field>)
    | RtpStopped(call: nat, fields: seq<Field>)
    | Cleared(call: nat)
    | Other(messageType: nat)

  /** A notice handed to the queue of a VAS handler. */
  datatype Notice = Notice(vas: int, kind: char, call: nat, cid: string, callkey: string,
                           agentExt: string, agentId: string, agentIp: string)

  datatype Tracker = Tracker(cdr: map<nat, Record>, lastInbound: bool)

  predicate About(e: Event, c: nat) {
    !e.Other? && e.call == c
  }

  /** A call is outbound when its connection id and its caller number are one and the same extension. */
  predicate IsInbound(fields: seq<Field>) {
    var connection, ani := LastText(fields, CONNECTION_DEVID_TAG), LastText(fields, ANI_TAG);
    !(connection == ani && |connection| == 5)
  }

  /** An outbound call without a call key of its own gets the generated one. */
  predicate NeedsKey(fields: seq<Field>) {
    !IsInbound(fields) && LastText(fields, CALL_VAR_1_TAG) == ""
  }

  function NewRecord(fields: seq<Field>, generated: string): Record {
    Record(LastText(fields, CALL_VAR_3_TAG),
           if NeedsKey(fields) then generated else LastText(fields, CALL_VAR_1_TAG),
           "", LastText(fields, DNIS_TAG), "", 0, 0, IsInbound(fields), !IsInbound(fields))
  }

  /** SendScsEventToVasQueue: routed by the record's own agent address, or discarded. */
  function Send(t: Table, c: nat, r: Record, kind: char): seq<Notice> {
    var vas := VasNo(t, r.agentIp);
    if vas == -1 then [] else [Notice(vas, kind, c, r.cid, r.callkey, r.agentExt, r.agentId, r.agentIp)]
  }

  function OnEstablished(t: Table, c: nat, r: Record, called: string): (Record, seq<Notice>) {
    if r.inbound then (r, [])
    else if VasNo(t, r.agentIp) > 0 then
      var r1 := r.(cid := called);
      (r1.(awaiting := false), Send(t, c, r1, 'S'))
    else (r.(awaiting := false), [])
  }

  /** What an RTP start tells about the agent; only the agent's side of the media (direction 0) does. */
  function Heard(r: Record, direction: nat, ip: string, extension: string, id: string): Record {
    if direction != 0 then r
    else if r.inbound then Record(r.cid, r.callkey, id, r.agentExt, ip, r.rtpStarted, 0, true, false)
    else r.(agentIp := ip, agentId := id, agentExt := extension)
  }

  /** The start of a settled call is announced if the address of the event is mapped. */
  function Started(t: Table, c: nat, r: Record, ip: string): (Record, seq<Notice>) {
    if (r.inbound || !r.awaiting) && r.rtpStarted >= 1 && VasNo(t, ip) > 0 then
      (r.(rtpStarted := 0), Send(t, c, r, 'S'))
    else (r, [])
  }

  function OnRtpStarted(t: Table, c: nat, r: Record, direction: nat, ip: string, extension: string, id: string)
    : (Record, seq<Notice>)
  {
    Started(t, c, Heard(r.(rtpStarted := r.rtpStarted + 1), direction, ip, extension, id),
            if direction == 0 then ip else "")
  }

  /** The gate is the address of the event, the route is that of the record. */
  function Stopped(t: Table, c: nat, r: Record, ip: string): (Record, seq<Notice>) {
    if r.rtpStopped >= 1 && VasNo(t, ip) > 0 then (r.(rtpStopped := 0), Send(t, c, r, 'E')) else (r, [])
  }

  function OnRtpStopped(t: Table, c: nat, r: Record, ip: string): (Record, seq<Notice>) {
    Stopped(t, c, r.(rtpStopped := r.rtpStopped + 1), ip)
  }

  function OnRecord(t: Table, r: Record, e: Event): (Record, seq<Notice>)
    requires e.Established? || e.RtpStarted? || e.RtpStopped?
  {
    match e
    case Established(c, fields) => OnEstablished(t, c, r, LastText(fields, CALLED_DEVID_TAG))
    case RtpStarted(c, direction, fields) =>
      OnRtpStarted(t, c, r, direction, LastText(fields, CLIENT_ADDRESS_TAG), LastText(fields, AGENT_EXTENSION_TAG),
                   LastText(fields, AGENT_ID_TAG))
    case RtpStopped(c, fields) => OnRtpStopped(t, c, r, LastText(fields, CLIENT_ADDRESS_TAG))
  }

  function Step(t: Table, s: Tracker, e: Event): (Tracker, seq<Notice>) {
    match e
    case Begin(c, fields, generated) =>
      // map::insert keeps the record that is already there
      (Tracker(if c in s.cdr then s.cdr else s.cdr[c := NewRecord(fields, generated)], IsInbound(fields)), [])
    case Cleared(c) => (s.(cdr := s.cdr - {c}), [])
    case Other(_) => (s, [])
    case _ =>
      if e.call in s.cdr then
        var (r, sent) := OnRecord(t, s.cdr[e.call], e);
        (s.(cdr := s.cdr[e.call := r]), sent)
      else (s, [])
  }

  /** The state after a run; m_nInboundCall has no value before the first Begin, so any will do. */
  function After(t: Table, es: seq<Event>): Tracker {
    if es == [] then Tracker(map[], true) else Step(t, After(t, Front(es)), Last(es)).0
  }

  function Emitted(t: Table, es: seq<Event>): seq<Notice>
    requires es != []
  {
    Step(t, After(t, Front(es)), Last(es)).1
  }

  /** Everything a run emitted, in order. */
  function Log(t: Table, es: seq<Event>): seq<Notice> {
    if es == [] then [] else Log(t, Front(es)) + Emitted(t, es)
  }

  // ---------------------------------------------------------------- sessions, told by the events alone

  datatype Option<T> = None | Some(value: T)

  /** The events of call c since the Begin that opened it, if it is open. */
  function Session(es: seq<Event>, c: nat): Option<seq<Event>> {
    if es == [] then None
    else
      var before, e := Session(Front(es), c), Last(es);
      if !About(e, c) then before
      else if e.Cleared? then None
      else if before.Some? then Some(before.value + [e])
      else if e.Begin? then Some([e])
      else None
  }

  predicate Opens(s: seq<Event>) {
    s != [] && s[0].Begin?
  }

  predicate InboundSession(s: seq<Event>)
    requires Opens(s)
  {
    IsInbound(s[0].fields)
  }

  predicate EstablishedIn(s: seq<Event>) {
    exists e | e in s :: e.Established?
  }

  /** An inbound call is settled from the start, an outbound one from its first Established event. */
  predicate Settled(s: seq<Event>)
    requires Opens(s)
  {
    InboundSession(s) || EstablishedIn(s)
  }

  lemma {:induction false} SessionOpens(es: seq<Event>, c: nat)
    requires Session(es, c).Some?
    ensures Opens(Session(es, c).value)
  {
    if Session(Front(es), c).Some? {
      SessionOpens(Front(es), c);
    }
  }

  predicate IsStart(sent: seq<Notice>, c: nat) {
    sent != [] && sent[0].call == c && sent[0].kind == 'S'
  }

  /** The last start notice emitted for c since the Begin that opened it. */
  function LastStart(t: Table, es: seq<Event>, c: nat): Option<Notice> {
    if Session(es, c).None? then None
    else
      var sent := Emitted(t, es);
      if IsStart(sent, c) then Some(sent[0])
      else LastStart(t, Front(es), c)
  }

  // ---------------------------------------------------------------- what the record knows

  ghost predicate Knows(t: Table, es: seq<Event>, c: nat) {
    && (c in After(t, es).cdr <==> Session(es, c).Some?)
    && (c in After(t, es).cdr ==>
          var r, s := After(t, es).cdr[c], Session(es, c).value;
          && Opens(s)
          && r.rtpStarted >= 0 && r.rtpStopped >= 0
          && r.inbound == InboundSession(s) && r.awaiting == !Settled(s)
          && (Settled(s) && VasNo(t, r.agentIp) > 0 ==> LastStart(t, es, c) == Some(Send(t, c, r, 'S')[0]))
          && (!Settled(s) ==> LastStart(t, es, c) == None))
  }

  /** One event on one record: whatever a settled record could be routed by has been announced. */
  lemma OnRecordAnnounces(t: Table, r: Record, e: Event)
    requires e.Established? || e.RtpStarted? || e.RtpStopped?
    requires (r.inbound ==> !r.awaiting) && r.rtpStarted >= 0 && r.rtpStopped >= 0
    ensures var (r', sent) := OnRecord(t, r, e);
            && r'.inbound == r.inbound && r'.awaiting == (r.awaiting && !e.Established?)
            && r'.rtpStarted >= 0 && r'.rtpStopped >= 0
            && (IsStart(sent, e.call) ==> !r'.awaiting && sent == Send(t, e.call, r', 'S'))
            && (!IsStart(sent, e.call) && !r'.awaiting && VasNo(t, r'.agentIp) > 0 ==>
                  !r.awaiting && VasNo(t, r.agentIp) > 0 && Send(t, e.call, r', 'S') == Send(t, e.call, r, 'S'))
  {
    NoVasForEmptyText(t);
  }

  lemma SettledStep(s: seq<Event>, e: Event)
    requires Opens(s)
    ensures Opens(s + [e]) && InboundSession(s + [e]) == InboundSession(s)
    ensures Settled(s + [e]) == (Settled(s) || e.Established?)
  {
    assert forall x :: x in s + [e] <==> x in s || x == e;
  }

  lemma {:induction false} RecordKnows(t: Table, es: seq<Event>, c: nat)
    ensures Knows(t, es, c)
  {
    if es != [] {
      RecordKnows(t, Front(es), c);
      var e := Last(es);
      if !About(e, c) {
        KnowsElsewhere(t, es, c);
      } else if e.Cleared? {
      } else if e.Begin? {
        KnowsBegin(t, es, c);
      } else {
        KnowsUpdate(t, es, c);
      }
    }
  }

  lemma KnowsElsewhere(t: Table, es: seq<Event>, c: nat)
    requires es != [] && Knows(t, Front(es), c) && !About(Last(es), c)
    ensures Knows(t, es, c)
  {
    var s, s' := After(t, Front(es)), After(t, es);
    assert c in s'.cdr <==> c in s.cdr;
    assert c in s.cdr ==> s'.cdr[c] == s.cdr[c];
    assert !IsStart(Emitted(t, es), c);
  }

  lemma KnowsBegin(t: Table, es: seq<Event>, c: nat)
    requires es != [] && Knows(t, Front(es), c) && About(Last(es), c) && Last(es).Begin?
    ensures Knows(t, es, c)
  {
    assert Emitted(t, es) == [];
    if Session(Front(es), c).Some? {
      SettledStep(Session(Front(es), c).value, Last(es));
    } else {
      NoVasForEmptyText(t);
      assert LastStart(t, Front(es), c) == None;
    }
  }

  lemma KnowsUpdate(t: Table, es: seq<Event>, c: nat)
    requires es != [] && Knows(t, Front(es), c) && About(Last(es), c)
    requires Last(es).Established? || Last(es).RtpStarted? || Last(es).RtpStopped?
    ensures Knows(t, es, c)
  {
    if Session(Front(es), c).Some? {
      SettledStep(Session(Front(es), c).value, Last(es));
      OnRecordAnnounces(t, After(t, Front(es)).cdr[c], Last(es));
    }
  }

  // ---------------------------------------------------------------- main results

  lemma OnRecordReports(t: Table, r: Record, e: Event)
    requires e.Established? || e.RtpStarted? || e.RtpStopped?
    ensures var sent := OnRecord(t, r, e).1;
            |sent| <= 1 && forall n | n in sent :: n.call == e.call && (n.kind == 'S' || n.kind == 'E')
  {
  }

  lemma StepReportsOwn(t: Table, s: Tracker, e: Event)
    ensures var sent := Step(t, s, e).1;
            && |sent| <= 1
            && forall n | n in sent :: About(e, n.call) && n.call in s.cdr && (n.kind == 'S' || n.kind == 'E')
  {
    if (e.Established? || e.RtpStarted? || e.RtpStopped?) && e.call in s.cdr {
      OnRecordReports(t, s.cdr[e.call], e);
    }
  }

  lemma {:induction false} EmittedByOneCall(t: Table, es: seq<Event>)
    requires es != []
    ensures |Emitted(t, es)| <= 1
    ensures forall n | n in Emitted(t, es) ::
              About(Last(es), n.call) && n.call in After(t, Front(es)).cdr && (n.kind == 'S' || n.kind == 'E')
  {
    StepReportsOwn(t, After(t, Front(es)), Last(es));
  }

  /**
   Every end notice of a settled call repeats the last start notice sent since the call was opened: same
   VAS, caller, key, extension, agent and address. Before that no start notice was sent for the call at all.
   */
  ghost predicate RepeatsLastStart(t: Table, es: seq<Event>, n: Notice) {
    var s := Session(es, n.call);
    && s.Some? && Opens(s.value)
    && LastStart(t, es, n.call) == if Settled(s.value) then Some(n.(kind := 'S')) else None
  }

  lemma {:induction false} EndRepeatsLastStart(t: Table, es: seq<Event>, e: Event)
    ensures forall n | n in Step(t, After(t, es), e).1 && n.kind == 'E' :: RepeatsLastStart(t, es, n)
  {
    var run := es + [e];
    assert Front(run) == es;
    forall n | n in Step(t, After(t, es), e).1 && n.kind == 'E'
      ensures RepeatsLastStart(t, es, n)
    {
      EmittedByOneCall(t, run);
      RecordKnows(t, es, n.call);
    }
  }

  /** A start notice goes out for an open call only, and for an outbound one only once it was established. */
  ghost predicate Announces(t: Table, es: seq<Event>, n: Notice) {
    var s := Session(es, n.call);
    s.Some? && Opens(s.value) && Settled(s.value) && LastStart(t, es, n.call) == Some(n)
  }

  lemma {:induction false} StartAnnounces(t: Table, es: seq<Event>, n: Notice)
    requires es != [] && n in Emitted(t, es) && n.kind == 'S'
    ensures Announces(t, es, n)
  {
    EmittedByOneCall(t, es);
    RecordKnows(t, Front(es), n.call);
    RecordKnows(t, es, n.call);
  }

  lemma {:induction false} NoStartBeforeEstablished(t: Table, es: seq<Event>)
    requires es != []
    ensures forall n | n in Emitted(t, es) && n.kind == 'S' :: Announces(t, es, n)
  {
    forall n | n in Emitted(t, es) && n.kind == 'S'
      ensures Announces(t, es, n)
    {
      StartAnnounces(t, es, n);
    }
  }

  /** What one more event adds to the log keeps to this. */
  lemma {:induction false} NewEndsRepeatStarts(t: Table, es: seq<Event>, e: Event)
    ensures var before, after := Log(t, es), Log(t, es + [e]);
            before <= after && forall n | n in after[|before|..] && n.kind == 'E' :: RepeatsLastStart(t, es, n)
  {
    RunSnoc(t, es, e);
    EndRepeatsLastStart(t, es, e);
    assert Log(t, es + [e])[|Log(t, es)|..] == Step(t, After(t, es), e).1;
  }

  /** Throughout a run, every start notice is one of a settled call, and every end notice repeats the last of them. */
  ghost predicate WellReported(t: Table, es: seq<Event>) {
    es == [] ||
    (&& WellReported(t, Front(es))
     && (forall n | n in Emitted(t, es) && n.kind == 'S' :: Announces(t, es, n))
     && (forall n | n in Emitted(t, es) && n.kind == 'E' :: RepeatsLastStart(t, Front(es), n)))
  }

  lemma {:induction false} EveryRunIsWellReported(t: Table, es: seq<Event>)
    ensures WellReported(t, es)
  {
    if es != [] {
      EveryRunIsWellReported(t, Front(es));
      NoStartBeforeEstablished(t, es);
      EndRepeatsLastStart(t, Front(es), Last(es));
    }
  }

  lemma StepKeepsDirection(t: Table, s: Tracker, e: Event, c: nat)
    requires c in s.cdr && c in Step(t, s, e).0.cdr
    ensures Step(t, s, e).0.cdr[c].inbound == s.cdr[c].inbound
  {
  }

  /** The direction of a call never changes while its record lives. */
  lemma {:induction false} DirectionIsFixed(t: Table, es: seq<Event>, c: nat)
    requires es != [] && c in After(t, Front(es)).cdr && c in After(t, es).cdr
    ensures After(t, es).cdr[c].inbound == After(t, Front(es)).cdr[c].inbound
  {
    StepKeepsDirection(t, After(t, Front(es)), Last(es), c);
  }

  /** A teardown that Established never reached: the agent's media start and stop, from a mapped address. */
  function AbandonedOutbound(c: nat, extension: seq<Octet>, ip: seq<Octet>): seq<Event> {
    [Begin(c, [Field(CONNECTION_DEVID_TAG, extension), Field(ANI_TAG, extension)], ""),
     RtpStarted(c, 0, [Field(CLIENT_ADDRESS_TAG, ip)]),
     RtpStopped(c, [Field(CLIENT_ADDRESS_TAG, ip)])]
  }

  lemma TextOf(data: seq<Octet>, tag: nat)
    requires '\0' !in data
    ensures LastText([Field(tag, data)], tag) == data
  {
  }

  lemma RunSnoc(t: Table, es: seq<Event>, e: Event)
    ensures After(t, es + [e]) == Step(t, After(t, es), e).0
    ensures Log(t, es + [e]) == Log(t, es) + Step(t, After(t, es), e).1
  {
    assert Front(es + [e]) == es;
  }

  lemma RunOfThree(t: Table, e1: Event, e2: Event, e3: Event)
    ensures var (s1, sent1) := Step(t, After(t, []), e1);
            var (s2, sent2) := Step(t, s1, e2);
            Log(t, [e1, e2, e3]) == sent1 + sent2 + Step(t, s2, e3).1
  {
    RunSnoc(t, [], e1);
    RunSnoc(t, [e1], e2);
    RunSnoc(t, [e1, e2], e3);
    assert [] + [e1] == [e1] && [e1] + [e2] == [e1, e2] && [e1, e2] + [e3] == [e1, e2, e3];
  }

  lemma ExtensionIsOutbound(extension: seq<Octet>)
    requires |extension| == 5 && '\0' !in extension
    ensures !IsInbound([Field(CONNECTION_DEVID_TAG, extension), Field(ANI_TAG, extension)])
  {
    var f, g := Field(CONNECTION_DEVID_TAG, extension), Field(ANI_TAG, extension);
    assert [f] + [g] == [f, g];
    LastTextSnoc([f], g, CONNECTION_DEVID_TAG);
    LastTextSnoc([f], g, ANI_TAG);
    TextOf(extension, CONNECTION_DEVID_TAG);
    TextOf(extension, ANI_TAG);
  }

  /** So an outbound call never established is reported as ended, but not as started, if its address is mapped. */
  lemma {:induction false} EndWithoutStart(t: Table, c: nat, extension: seq<Octet>, ip: seq<Octet>)
    requires |extension| == 5 && '\0' !in extension && '\0' !in ip
    ensures var log := Log(t, AbandonedOutbound(c, extension, ip));
            if VasNo(t, ip) > 0 then |log| == 1 && log[0].kind == 'E' && log[0].call == c else log == []
  {
    var es := AbandonedOutbound(c, extension, ip);
    ExtensionIsOutbound(extension);
    TextOf(ip, CLIENT_ADDRESS_TAG);
    RunOfThree(t, es[0], es[1], es[2]);
    var (s1, sent1) := Step(t, After(t, []), es[0]);
    var (s2, sent2) := Step(t, s1, es[1]);
    assert sent1 == [] && sent2 == [] && s2.cdr[c].agentIp == ip;
  }
}
