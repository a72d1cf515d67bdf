/**
 Where the texts of a notice come from, told by the positions of the events alone: a second description of
 everything the tracker sends, with neither records nor steps, in the tag numbers of the wire.
 */
module NoticeSources {
  import opened Streams
  import opened FloatingFields
  import opened IpIndex
  import opened CallTracking
  import opened KeyedCalls

  /** A call is outbound exactly when connection device and ANI are one and the same five characters. */
  predicate Outbound(begin: seq<Field>) {
    LastText(begin, 25) == LastText(begin, 8) && |LastText(begin, 25)| == 5
  }

  lemma {:induction false} DirectionOfBegin(begin: seq<Field>)
    ensures IsInbound(begin) <==> !Outbound(begin)
  {
  }

  /** The agent's side of the media of a call starts. */
  predicate IsMedia(e: Event, c: nat) {
    e.RtpStarted? && e.call == c && e.direction == 0
  }

  /** The last such event at or behind a position. */
  function LastMedia(es: seq<Event>, c: nat, from: nat): (k: Option<nat>)
    ensures k.Some? ==> from <= k.value < |es| && IsMedia(es[k.value], c)
  {
    if |es| <= from then None
    else if IsMedia(Last(es), c) then Some(|es| - 1)
    else LastMedia(Front(es), c, from)
  }

  lemma {:induction false} LastMediaIsLast(es: seq<Event>, c: nat, from: nat, k: nat)
    requires from <= k < |es| && IsMedia(es[k], c)
    ensures LastMedia(es, c, from).Some? && k <= LastMedia(es, c, from).value
  {
    if !IsMedia(Last(es), c) {
      LastMediaIsLast(Front(es), c, from, k);
    }
  }

  /** What the last media start told under a tag, or else another text. */
  function Heard(es: seq<Event>, c: nat, from: nat, tag: nat, otherwise: string): string {
    var k := LastMedia(es, c, from);
    if k.None? then otherwise else LastText(es[k.value].fields, tag)
  }

  /** The last Established event at or behind a position that found the agent's address mapped. */
  function LastNaming(t: Table, es: seq<Event>, c: nat, from: nat): (k: Option<nat>)
    ensures k.Some? ==> from <= k.value < |es| && es[k.value].Established? && es[k.value].call == c
  {
    if |es| <= from then None
    else
      var e, before := Last(es), Front(es);
      if e.Established? && e.call == c && VasNo(t, Heard(before, c, from, 81, "")) > 0 then Some(|es| - 1)
      else LastNaming(t, before, c, from)
  }

  function Caller(t: Table, es: seq<Event>, c: nat, from: nat, begin: seq<Field>): string {
    var k := if Outbound(begin) then LastNaming(t, es, c, from) else None;
    if k.None? then LastText(begin, 15) else LastText(es[k.value].fields, 28)
  }

  function KeyText(begin: seq<Field>, generated: string): string {
    if Outbound(begin) && LastText(begin, 13) == "" then generated else LastText(begin, 13)
  }

  function Extension(es: seq<Event>, c: nat, from: nat, begin: seq<Field>): string {
    if Outbound(begin) then Heard(es, c, from, 4, LastText(begin, 10)) else LastText(begin, 10)
  }

  /** The call is open, and its Begin is where Opening says. */
  predicate IsOpen(es: seq<Event>, c: nat) {
    Session(es, c).Some? && Opening(es, c) < |es| && es[Opening(es, c)].Begin?
  }

  predicate EstablishedSince(es: seq<Event>, c: nat, from: nat) {
    exists j | from <= j < |es| :: es[j].Established? && es[j].call == c
  }

  lemma {:induction false} EstablishedByPosition(es: seq<Event>, c: nat)
    requires Session(es, c).Some?
    ensures EstablishedIn(Session(es, c).value) <==> EstablishedSince(es, c, Opening(es, c))
  {
    var e, before, from := Last(es), Front(es), Opening(es, c);
    if Session(before, c).Some? {
      EstablishedByPosition(before, c);
      OpeningBegins(before, c);
      assert es[|es| - 1] == e && forall j | 0 <= j < |before| :: es[j] == before[j];
      assert EstablishedSince(es, c, from)
        <==> EstablishedSince(before, c, from) || (e.Established? && e.call == c);
      var s, s' := Session(before, c).value, Session(es, c).value;
      assert s' == s || s' == s + [e];
      assert forall x | x in s :: x in s';
    }
  }

  /** Every text of the record of an open call, by the positions of the events that told it. */
  ghost predicate RecordTold(t: Table, es: seq<Event>, c: nat, from: nat, r: Record)
    requires from < |es| && es[from].Begin?
  {
    var begin := es[from].fields;
    && r.cid == Caller(t, es, c, from, begin)
    && r.callkey == KeyText(begin, es[from].generated)
    && r.agentExt == Extension(es, c, from, begin)
    && r.agentId == Heard(es, c, from, 5, "")
    && r.agentIp == Heard(es, c, from, 81, "")
    && r.inbound == !Outbound(begin)
  }

  lemma TextsElsewhere(t: Table, es: seq<Event>, c: nat, from: nat)
    requires from < |es| - 1 && !IsMedia(Last(es), c) && es[from].Begin?
    ensures LastMedia(es, c, from) == LastMedia(Front(es), c, from)
    ensures forall tag: nat, otherwise: string ::
              Heard(es, c, from, tag, otherwise) == Heard(Front(es), c, from, tag, otherwise)
    ensures var begin := es[from].fields;
            !(Last(es).Established? && Last(es).call == c) ==>
              Caller(t, es, c, from, begin) == Caller(t, Front(es), c, from, begin)
  {
  }

  lemma {:induction false} BeginTold(t: Table, es: seq<Event>, c: nat)
    requires es != [] && About(Last(es), c) && Last(es).Begin?
    ensures RecordTold(t, es, c, |es| - 1, NewRecord(Last(es).fields, Last(es).generated))
  {
    var from := |es| - 1;
    assert |Front(es)| <= from;
    assert LastMedia(es, c, from) == LastMedia(Front(es), c, from) == None;
    assert LastNaming(t, es, c, from) == LastNaming(t, Front(es), c, from) == None;
  }

  lemma {:induction false} NamingOfEstablished(t: Table, es: seq<Event>, c: nat, from: nat)
    requires from < |es| && Last(es).Established? && Last(es).call == c
    ensures LastNaming(t, es, c, from) ==
              if VasNo(t, Heard(Front(es), c, from, 81, "")) > 0 then Some(|es| - 1)
              else LastNaming(t, Front(es), c, from)
  {
  }

  lemma {:induction false} CallerNamed(t: Table, es: seq<Event>, c: nat, from: nat, begin: seq<Field>)
    requires es != [] && LastNaming(t, es, c, from) == Some(|es| - 1) && Outbound(begin)
    ensures Caller(t, es, c, from, begin) == LastText(Last(es).fields, 28)
  {
  }

  lemma {:induction false} CallerKept(t: Table, es: seq<Event>, c: nat, from: nat, begin: seq<Field>)
    requires es != [] && (Outbound(begin) ==> LastNaming(t, es, c, from) == LastNaming(t, Front(es), c, from))
    ensures Caller(t, es, c, from, begin) == Caller(t, Front(es), c, from, begin)
  {
    var k := LastNaming(t, Front(es), c, from);
    assert k.Some? ==> es[k.value] == Front(es)[k.value];
  }

  lemma {:induction false} EstablishedTold(t: Table, es: seq<Event>, c: nat, from: nat, r: Record)
    requires from < |es| - 1 && es[from].Begin? && About(Last(es), c) && RecordTold(t, Front(es), c, from, r)
    requires Last(es).Established?
    ensures RecordTold(t, es, c, from, OnEstablished(t, c, r, LastText(Last(es).fields, 28)).0)
  {
    TextsElsewhere(t, es, c, from);
    NamingOfEstablished(t, es, c, from);
    var r', begin := OnEstablished(t, c, r, LastText(Last(es).fields, 28)).0, es[from].fields;
    if Outbound(begin) && VasNo(t, r.agentIp) > 0 {
      CallerNamed(t, es, c, from, begin);
    } else {
      CallerKept(t, es, c, from, begin);
    }
    assert r'.cid == Caller(t, es, c, from, begin);
    assert r' == r.(cid := r'.cid, awaiting := r'.awaiting);
  }

  lemma {:induction false} StartTold(t: Table, es: seq<Event>, c: nat, from: nat, r: Record)
    requires from < |es| - 1 && es[from].Begin? && About(Last(es), c) && RecordTold(t, Front(es), c, from, r)
    requires Last(es).RtpStarted?
    ensures var fields := Last(es).fields;
            RecordTold(t, es, c, from, OnRtpStarted(t, c, r, Last(es).direction, LastText(fields, 81),
                                                    LastText(fields, 4), LastText(fields, 5)).0)
  {
    if !IsMedia(Last(es), c) {
      TextsElsewhere(t, es, c, from);
    }
  }

  lemma {:induction false} UpdateTold(t: Table, es: seq<Event>, c: nat, from: nat, r: Record)
    requires from < |es| - 1 && es[from].Begin? && About(Last(es), c) && RecordTold(t, Front(es), c, from, r)
    requires Last(es).Established? || Last(es).RtpStarted? || Last(es).RtpStopped?
    ensures RecordTold(t, es, c, from, OnRecord(t, r, Last(es)).0)
  {
    match Last(es)
    case Established(_, _) => EstablishedTold(t, es, c, from, r);
    case RtpStarted(_, _, _) => StartTold(t, es, c, from, r);
    case _ => TextsElsewhere(t, es, c, from);
  }

  lemma {:induction false} NextTold(t: Table, es: seq<Event>, c: nat, from: nat)
    requires es != [] && from < |es| - 1 && es[from].Begin?
    requires c in After(t, Front(es)).cdr && RecordTold(t, Front(es), c, from, After(t, Front(es)).cdr[c])
    requires c in After(t, es).cdr
    ensures RecordTold(t, es, c, from, After(t, es).cdr[c])
  {
    var e := Last(es);
    if About(e, c) && !e.Begin? {
      UpdateTold(t, es, c, from, After(t, Front(es)).cdr[c]);
    } else {
      TextsElsewhere(t, es, c, from);
      assert After(t, es).cdr[c] == After(t, Front(es)).cdr[c];
    }
  }

  /** After every run the record of an open call says what the events at these positions told. */
  lemma {:induction false} RecordsAreTold(t: Table, es: seq<Event>, c: nat)
    requires Session(es, c).Some?
    ensures IsOpen(es, c) && c in After(t, es).cdr
    ensures RecordTold(t, es, c, Opening(es, c), After(t, es).cdr[c])
  {
    OpeningBegins(es, c);
    RecordKnows(t, es, c);
    if Session(Front(es), c).None? {
      RecordKnows(t, Front(es), c);
      BeginTold(t, es, c);
    } else {
      OpeningBegins(Front(es), c);
      RecordsAreTold(t, Front(es), c);
      NextTold(t, es, c, Opening(es, c));
    }
  }

  // ---------------------------------------------------------------- the notices

  /** A notice on an open call, sent at the end of these events. */
  function Told(t: Table, es: seq<Event>, c: nat, kind: char): Notice
    requires IsOpen(es, c)
  {
    var from := Opening(es, c);
    var begin := es[from].fields;
    var address := Heard(es, c, from, 81, "");
    Notice(VasNo(t, address), kind, c, Caller(t, es, c, from, begin), KeyText(begin, es[from].generated),
           Extension(es, c, from, begin), Heard(es, c, from, 5, ""), address)
  }

  /** The call is open before the last event and still open after it. */
  predicate StaysOpen(es: seq<Event>, c: nat) {
    es != [] && IsOpen(Front(es), c) && IsOpen(es, c)
  }

  /**
   When the last event makes the program send a notice, and of which kind. A start: when the agent's media
   starts at a mapped address, on an inbound call or one that was established; or when an outbound call is
   established whose agent was heard at a mapped address. An end: when media stops at a mapped address, on a
   call whose agent was heard at one.
   */
  predicate Reports(t: Table, es: seq<Event>, kind: char)
    requires es != [] && !Last(es).Other? && StaysOpen(es, Last(es).call)
  {
    var e, before := Last(es), Front(es);
    var from := Opening(before, e.call);
    var outbound, address := Outbound(before[from].fields), Heard(before, e.call, from, 81, "");
    match e
    case RtpStarted(c, direction, fields) =>
      && kind == 'S' && direction == 0 && VasNo(t, LastText(fields, 81)) > 0
      && (!outbound || EstablishedSince(before, c, from))
    case Established(_, _) => kind == 'S' && outbound && VasNo(t, address) > 0
    case RtpStopped(_, fields) => kind == 'E' && VasNo(t, LastText(fields, 81)) > 0 && VasNo(t, address) > 0
    case _ => false
  }

  /** What the last event of a run makes the program send. */
  function Reported(t: Table, es: seq<Event>): seq<Notice>
    requires es != []
  {
    var e := Last(es);
    if e.Other? || !StaysOpen(es, e.call) then []
    else if Reports(t, es, 'S') then [Told(t, es, e.call, 'S')]
    else if Reports(t, es, 'E') then [Told(t, es, e.call, 'E')]
    else []
  }

  function ReportedLog(t: Table, es: seq<Event>): seq<Notice> {
    if es == [] then [] else ReportedLog(t, Front(es)) + Reported(t, es)
  }

  lemma {:induction false} ToldIsSent(t: Table, es: seq<Event>, c: nat, r: Record, kind: char)
    requires IsOpen(es, c) && RecordTold(t, es, c, Opening(es, c), r)
    ensures Send(t, c, r, kind) == if VasNo(t, r.agentIp) > 0 then [Told(t, es, c, kind)] else []
  {
  }

  lemma {:induction false} OpenStepReports(t: Table, es: seq<Event>)
    requires es != [] && !Last(es).Other? && StaysOpen(es, Last(es).call)
    ensures Emitted(t, es) == Reported(t, es)
  {
    var e, before := Last(es), Front(es);
    var c := e.call;
    RecordKnows(t, before, c);
    EstablishedByPosition(before, c);
    RecordsAreTold(t, before, c);
    RecordsAreTold(t, es, c);
    NoVasForEmptyText(t);
    ToldIsSent(t, es, c, After(t, es).cdr[c], 'S');
    ToldIsSent(t, es, c, After(t, es).cdr[c], 'E');
  }

  lemma {:induction false} StepReports(t: Table, es: seq<Event>)
    requires es != []
    ensures Emitted(t, es) == Reported(t, es)
  {
    var e := Last(es);
    if !e.Other? {
      RecordKnows(t, Front(es), e.call);
      if Session(Front(es), e.call).Some? && !e.Cleared? {
        OpeningBegins(Front(es), e.call);
        OpeningBegins(es, e.call);
        OpenStepReports(t, es);
      }
    }
  }

  /** The notices of every run are exactly those the positions of its events call for. */
  lemma {:induction false} EveryNoticeHasItsSources(t: Table, es: seq<Event>)
    ensures Log(t, es) == ReportedLog(t, es)
  {
    if es != [] {
      EveryNoticeHasItsSources(t, Front(es));
      StepReports(t, es);
    }
  }
}
