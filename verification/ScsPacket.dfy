/**
 The 119-character notice sent to a VAS. MakeScsEvent fills it front to back with text writes that each run
 past their field: the terminating NUL, and the excess of a text longer than its field, land on the fields
 behind and are overwritten by the writes that follow.
 */
module ScsPacket {
  import opened IpIndex
  import opened CallTracking

  const PKT_INTERFACE_ID_LEN := 4
  const PKT_BODY_LEN := 5
  const TIMESTAMP_LEN := 17
  const CID_LEN := 12
  const CALLKEY_LEN := 20
  const AGENT_EXT_LEN := 5
  const AGENT_ID_LEN := 10
  const AGENT_IP_LEN := 15
  const RESERVED_LEN := 30

  const SCS_EVENT_VALUE := "1000"
  const SCS_EVENT_BODY_SIZE_VALUE := "110"

  /** sizeof(PKT_SCS_EVT_MSG); the last write puts its NUL one character behind. */
  const PACKET := 119

  function Repeat(c: char, n: nat): (s: string)
    ensures |s| == n && forall i | 0 <= i < n :: s[i] == c
  {
    seq(n, i => c)
  }

  /** `%-*s`: padded on the right, never cut. */
  function PadRight(s: string, w: nat): (t: string)
    ensures |t| == if |s| < w then w else |s|
  {
    if |s| < w then s + Repeat(' ', w - |s|) else s
  }

  /** `%*s`: padded on the left, never cut. */
  function PadLeft(s: string, w: nat): (t: string)
    ensures |t| == if |s| < w then w else |s|
  {
    if |s| < w then Repeat(' ', w - |s|) + s else s
  }

  /** What a field of a fixed width shows of a text. */
  function Fit(s: string, w: nat): (t: string)
    ensures |t| == w
  {
    PadRight(s, w)[..w]
  }

  // ---------------------------------------------------------------- the caller number

  /** Make444: the caller number as twelve characters. */
  function Cid444(org: string): (t: string)
    ensures |t| == CID_LEN
  {
    if |org| >= 12 then org[..12]
    else
      var local := if org == "" || org[0] != '0' then "0" + org else org;
      if |local| >= 12 then local[..12]
      else if |local| == 11 then "0" + local
      else if |local| == 10 then
        if local[0] == '0' && local[1] != '2' then "0" + local[..3] + "0" + local[3..] else "00" + local
      else if |local| == 9 then "00" + local[..2] + "0" + local[2..]
      else Repeat('0', CID_LEN - |local|) + local
  }

  /** A national number: area code, exchange and line; Seoul's area code 02 is the short one. */
  datatype Number = Number(area: string, exchange: string, line: string)

  predicate IsNumber(n: Number) {
    && |n.line| == 4 && 3 <= |n.exchange| <= 4 && 2 <= |n.area| <= 3
    && n.area[0] == '0' && n.area[1] != '0'
    && (|n.area| == 2 <==> n.area == "02")
    && (|n.area| == 3 ==> n.area[1] != '2')
  }

  function Zero4(s: string): string
    requires |s| <= 4
  {
    Repeat('0', 4 - |s|) + s
  }

  /** The leading 0 of a number may be dialled or not. */
  lemma LeadingZeroIsOptional(dialled: string)
    requires 2 <= |dialled| <= 11 && dialled[0] == '0' && dialled[1] != '0'
    ensures Cid444(dialled[1..]) == Cid444(dialled)
  {
    assert "0" + dialled[1..] == dialled;
  }

  /** A national number comes out as area code, exchange and line of four digits each. */
  lemma {:induction false} NumbersAreGroupedByFour(n: Number)
    requires IsNumber(n)
    ensures var dialled := n.area + n.exchange + n.line;
            && Cid444(dialled) == Zero4(n.area) + Zero4(n.exchange) + Zero4(n.line)
            && Cid444(dialled[1..]) == Cid444(dialled)
  {
    var dialled := n.area + n.exchange + n.line;
    if |n.area| == 3 {
      assert dialled[..3] == n.area && dialled[3..] == n.exchange + n.line;
    } else {
      assert dialled[..2] == n.area && dialled[2..] == n.exchange + n.line;
    }
    LeadingZeroIsOptional(dialled);
  }

  /**
   The numbers that are no national ones: up to seven characters (extensions) get zeros in front, eleven get
   one, and of twelve or more the first twelve are kept.
   */
  lemma {:induction false} OtherNumbers(org: string)
    ensures |org| <= 7 ==> Cid444(org) == Repeat('0', 12 - |org|) + org
    ensures |org| == 11 ==> Cid444(org) == "0" + org
    ensures |org| >= 12 ==> Cid444(org) == org[..12]
  {
    if |org| <= 7 && (org == "" || org[0] != '0') {
      assert Repeat('0', 12 - |org|) == Repeat('0', 11 - |org|) + "0";
      assert Repeat('0', 11 - |org|) + ("0" + org) == Repeat('0', 12 - |org|) + org;
    } else if |org| == 11 && org[0] != '0' {
      assert ("0" + org)[..12] == "0" + org;
    }
  }

  /** strncpy of a text that has at least as many characters as are copied: no NUL is written. */
  method Copy(buf: array<char>, at: nat, text: string)
    requires at + |text| <= buf.Length
    modifies buf
    ensures buf[..] == old(buf[..at]) + text + old(buf[at + |text|..])
  {
    for i := 0 to |text|
      invariant buf[..at] == old(buf[..at]) && buf[at..at + i] == text[..i]
      invariant buf[at + i..] == old(buf[at + i..])
    {
      buf[at + i] := text[i];
      assert buf[at..at + (i + 1)] == buf[at..at + i] + [text[i]];
      assert buf[at + (i + 1)..] == old(buf[at + i..])[1..];
    }
    assert buf[..] == buf[..at] + buf[at..at + |text|] + buf[at + |text|..];
  }

  method CopyTwo(target: array<char>, zeros: string, rest: string)
    requires target.Length == CID_LEN && |zeros| + |rest| == CID_LEN
    modifies target
    ensures target[..] == zeros + rest
  {
    Copy(target, 0, zeros);
    Copy(target, |zeros|, rest);
  }

  /** An area code behind its zeros, then a three-digit exchange behind its zero, and the line. */
  method CopyParts(target: array<char>, zeros: string, area: string, rest: string)
    requires target.Length == CID_LEN && |zeros| + |area| == 4 && |rest| == 7
    modifies target
    ensures target[..] == zeros + area + "0" + rest
  {
    Copy(target, 0, zeros);
    Copy(target, |zeros|, area);
    assert target[..4] == zeros + area;
    Copy(target, 4, "0");
    Copy(target, 5, rest);
  }

  /** The text writes of Make444, on a target of exactly twelve characters. */
  method Make444(org: string, target: array<char>)
    requires target.Length == CID_LEN
    modifies target
    ensures target[..] == Cid444(org)
  {
    if |org| >= 12 {
      CopyTwo(target, "", org[..12]);
      return;
    }
    var local := if org == "" || org[0] != '0' then "0" + org else org;
    if |local| >= 12 {
      CopyTwo(target, "", local[..12]);
    } else if |local| == 11 {
      CopyTwo(target, "0", local);
    } else if |local| == 10 {
      if local[0] == '0' && local[1] != '2' {
        CopyParts(target, "0", local[..3], local[3..]);
      } else {
        CopyTwo(target, "00", local);
      }
    } else if |local| == 9 {
      CopyParts(target, "00", local[..2], local[2..]);
    } else {
      CopyTwo(target, Repeat('0', CID_LEN - |local|), local);
    }
  }

  // ---------------------------------------------------------------- the packet as a text

  datatype Texts = Texts(kind: char, cid: string, callkey: string, agentExt: string, agentId: string, agentIp: string)

  function Agent(t: Texts): (s: string)
    ensures |s| == 60
  {
    Fit(t.agentExt, AGENT_EXT_LEN) + Fit(t.agentId, AGENT_ID_LEN) + Fit(t.agentIp, AGENT_IP_LEN)
    + Repeat(' ', RESERVED_LEN)
  }

  /** The packet behind the event type: what the notice says of the call and its agent. */
  function Fields(t: Texts): (s: string)
    ensures |s| == 92
  {
    Cid444(t.cid) + Fit(t.callkey, CALLKEY_LEN) + Agent(t)
  }

  function Header(timestamp: string, kind: char): (s: string)
    requires |timestamp| == TIMESTAMP_LEN
    ensures |s| == 27
  {
    SCS_EVENT_VALUE + PadLeft(SCS_EVENT_BODY_SIZE_VALUE, PKT_BODY_LEN) + timestamp + [kind]
  }

  /** The packet the program means to send. */
  function Layout(timestamp: string, t: Texts): string
    requires |timestamp| == TIMESTAMP_LEN
  {
    Header(timestamp, t.kind) + Fields(t)
  }

  /** The header declares the size of what follows it. */
  lemma LayoutSizes(timestamp: string, t: Texts)
    requires |timestamp| == TIMESTAMP_LEN
    ensures |Layout(timestamp, t)| == PACKET
    ensures |Layout(timestamp, t)| - PKT_INTERFACE_ID_LEN - PKT_BODY_LEN == 110
    ensures Layout(timestamp, t)[4..9] == "  110"
  {
    assert PadLeft("110", 5) == "  110";
  }

  function TrimRight(s: string): string {
    if s == "" || s[|s| - 1] != ' ' then s else TrimRight(s[..|s| - 1])
  }

  predicate NoTrailingBlank(s: string) {
    s == "" || s[|s| - 1] != ' '
  }

  lemma {:induction false} TrimPadded(s: string, n: nat)
    requires NoTrailingBlank(s)
    ensures TrimRight(s + Repeat(' ', n)) == s
  {
    var t := s + Repeat(' ', n);
    if n == 0 {
      assert t == s;
    } else {
      assert t[|t| - 1] == ' ' && t[..|t| - 1] == s + Repeat(' ', n - 1);
      TrimPadded(s, n - 1);
    }
  }

  /** A field read back from its slice is the text exactly when the text fits and does not end in a blank. */
  lemma FieldReadsBack(s: string, w: nat)
    ensures TrimRight(Fit(s, w)) == s <==> |s| <= w && NoTrailingBlank(s)
  {
    TrimRightShrinks(Fit(s, w));
    if |s| <= w {
      assert Fit(s, w) == s + Repeat(' ', w - |s|);
      if NoTrailingBlank(s) {
        TrimPadded(s, w - |s|);
      }
    }
  }

  lemma {:induction false} TrimRightShrinks(s: string)
    ensures |TrimRight(s)| <= |s| && NoTrailingBlank(TrimRight(s))
  {
    if s != "" && s[|s| - 1] == ' ' {
      TrimRightShrinks(s[..|s| - 1]);
    }
  }

  lemma AgentSlices(t: Texts)
    ensures var a := Agent(t);
            && a[..5] == Fit(t.agentExt, AGENT_EXT_LEN) && a[5..15] == Fit(t.agentId, AGENT_ID_LEN)
            && a[15..30] == Fit(t.agentIp, AGENT_IP_LEN) && a[30..] == Repeat(' ', RESERVED_LEN)
  {
  }

  /** Where the fields of the packet are. */
  lemma FieldSlices(timestamp: string, t: Texts)
    requires |timestamp| == TIMESTAMP_LEN
    ensures var p := Layout(timestamp, t);
            && |p| == PACKET && p[..4] == SCS_EVENT_VALUE && p[4..9] == "  110"
            && p[9..26] == timestamp && p[26] == t.kind && p[27..39] == Cid444(t.cid)
            && p[39..59] == Fit(t.callkey, CALLKEY_LEN) && p[59..64] == Fit(t.agentExt, AGENT_EXT_LEN)
            && p[64..74] == Fit(t.agentId, AGENT_ID_LEN) && p[74..89] == Fit(t.agentIp, AGENT_IP_LEN)
            && p[89..] == Repeat(' ', RESERVED_LEN)
  {
    var p, h, f := Layout(timestamp, t), Header(timestamp, t.kind), Fields(t);
    LayoutSizes(timestamp, t);
    assert h[..4] == SCS_EVENT_VALUE && f[62..] == Repeat(' ', RESERVED_LEN);
    assert h[9..26] == timestamp && h[26] == t.kind && f[..12] == Cid444(t.cid);
    AgentSlices(t);
    assert f[32..] == Agent(t);
    assert f[12..32] == Fit(t.callkey, CALLKEY_LEN) && f[32..37] == Fit(t.agentExt, AGENT_EXT_LEN);
    assert f[37..47] == Fit(t.agentId, AGENT_ID_LEN) && f[47..62] == Fit(t.agentIp, AGENT_IP_LEN);
    assert p[..27] == h && p[27..] == f;
  }

  // ---------------------------------------------------------------- the writer

  /** A buffer after a text and its NUL were written at a position. */
  function Overlay(b: string, at: nat, text: string): (r: string)
    requires at + |text| < |b|
    ensures |r| == |b|
  {
    b[..at] + text + ['\0'] + b[at + |text| + 1..]
  }

  /** A write right behind a finished prefix finishes the next field, whatever it spills behind it. */
  lemma OverlayExtendsPrefix(b: string, prefix: string, text: string, w: nat)
    requires |prefix| + |text| < |b| && b[..|prefix|] == prefix && w <= |text|
    ensures Overlay(b, |prefix|, text)[..|prefix| + w] == prefix + text[..w]
  {
  }

  /** sprintf of a formatted text: its characters and a NUL. */
  method WriteText(buf: array<char>, at: nat, text: string)
    requires at + |text| < buf.Length
    modifies buf
    ensures buf[..] == Overlay(old(buf[..]), at, text)
  {
    Copy(buf, at, text + ['\0']);
  }

  /** The part of a field write that counts for the packet. */
  method WriteField(buf: array<char>, ghost prefix: string, at: nat, text: string, ghost w: nat)
    requires at == |prefix| && at + |text| < buf.Length && buf[..at] == prefix && w <= |text|
    modifies buf
    ensures buf[..at + w] == prefix + text[..w]
  {
    OverlayExtendsPrefix(buf[..], prefix, text, w);
    assert buf[..][..at] == prefix;
    WriteText(buf, at, text);
    assert buf[..][..at + w] == buf[..at + w];
  }

  /** Every text of a record fits its 30-byte member. */
  predicate FitsRecord(t: Texts) {
    |t.callkey| <= 29 && |t.agentExt| <= 29 && |t.agentId| <= 29 && |t.agentIp| <= 29
  }

  method MakeHeader(buf: array<char>, timestamp: string, kind: char)
    requires buf.Length == PACKET + 1 && |timestamp| == TIMESTAMP_LEN
    modifies buf
    ensures buf[..27] == Header(timestamp, kind)
  {
    Copy(buf, 0, SCS_EVENT_VALUE);
    ghost var done := SCS_EVENT_VALUE;
    assert buf[..4] == done;
    WriteField(buf, done, 4, PadLeft(SCS_EVENT_BODY_SIZE_VALUE, PKT_BODY_LEN), 5);
    done := done + PadLeft(SCS_EVENT_BODY_SIZE_VALUE, PKT_BODY_LEN);
    WriteField(buf, done, 9, timestamp, 17);
    buf[26] := kind;
    assert buf[..27] == buf[..26] + [kind];
  }

  method MakeCall(buf: array<char>, ghost header: string, t: Texts)
    requires buf.Length == PACKET + 1 && |header| == 27 && buf[..27] == header && FitsRecord(t)
    modifies buf
    ensures buf[..59] == header + Cid444(t.cid) + Fit(t.callkey, CALLKEY_LEN)
  {
    var target := new char[CID_LEN];
    Make444(t.cid, target);
    ghost var done := header;
    WriteField(buf, done, 27, PadLeft(target[..], CID_LEN), 12);
    done := done + Cid444(t.cid);
    WriteField(buf, done, 39, PadRight(t.callkey, CALLKEY_LEN), 20);
  }

  method MakeAgent(buf: array<char>, ghost call: string, t: Texts)
    requires buf.Length == PACKET + 1 && |call| == 59 && buf[..59] == call && FitsRecord(t)
    modifies buf
    ensures buf[..PACKET] == call + Agent(t)
  {
    ghost var done := call;
    WriteField(buf, done, 59, PadRight(t.agentExt, AGENT_EXT_LEN), 5);
    done := done + Fit(t.agentExt, AGENT_EXT_LEN);
    WriteField(buf, done, 64, PadRight(t.agentId, AGENT_ID_LEN), 10);
    done := done + Fit(t.agentId, AGENT_ID_LEN);
    WriteField(buf, done, 74, PadRight(t.agentIp, AGENT_IP_LEN), 15);
    done := done + Fit(t.agentIp, AGENT_IP_LEN);
    WriteField(buf, done, 89, PadLeft(" ", RESERVED_LEN), 30);
    assert PadLeft(" ", RESERVED_LEN) == Repeat(' ', RESERVED_LEN);
    assert done + Repeat(' ', RESERVED_LEN) == call + Agent(t);
  }

  method MakeFields(buf: array<char>, ghost header: string, t: Texts)
    requires buf.Length == PACKET + 1 && |header| == 27 && buf[..27] == header && FitsRecord(t)
    modifies buf
    ensures buf[..PACKET] == header + Fields(t)
  {
    MakeCall(buf, header, t);
    MakeAgent(buf, header + Cid444(t.cid) + Fit(t.callkey, CALLKEY_LEN), t);
  }

  /** For all such texts the spilling writes leave the packet exactly as it is meant to be. */
  method MakeScsEvent(buf: array<char>, timestamp: string, t: Texts)
    requires buf.Length == PACKET + 1 && |timestamp| == TIMESTAMP_LEN && FitsRecord(t)
    modifies buf
    ensures buf[..PACKET] == Layout(timestamp, t)
  {
    MakeHeader(buf, timestamp, t.kind);
    MakeFields(buf, Header(timestamp, t.kind), t);
  }

  // ---------------------------------------------------------------- start and end of a call

  function TextsOf(n: Notice): Texts {
    Texts(n.kind, n.cid, n.callkey, n.agentExt, n.agentId, n.agentIp)
  }

  /** Each text of a notice is where the packet has its field: caller, key, extension, agent and address. */
  lemma {:induction false} PacketOfNotice(n: Notice, timestamp: string)
    requires |timestamp| == TIMESTAMP_LEN
    ensures var p := Layout(timestamp, TextsOf(n));
            && |p| == 119 && p[..9] == "1000  110" && p[9..26] == timestamp && p[26] == n.kind
            && p[27..39] == Cid444(n.cid) && p[39..59] == Fit(n.callkey, 20) && p[59..64] == Fit(n.agentExt, 5)
            && p[64..74] == Fit(n.agentId, 10) && p[74..89] == Fit(n.agentIp, 15)
  {
    FieldSlices(timestamp, TextsOf(n));
    var p := Layout(timestamp, TextsOf(n));
    assert p[..9] == p[..4] + p[4..9];
  }

  /** Two packets that differ in nothing but time and type. */
  predicate SameStretch(start: string, end: string) {
    && |start| == |end| == PACKET && start[26] == 'S' && end[26] == 'E'
    && start[..9] == end[..9] && start[27..] == end[27..]
  }

  lemma RepeatedNoticeRepeatsPacket(start: Notice, end: Notice, ts: string, te: string)
    requires end.kind == 'E' && start == end.(kind := 'S') && |ts| == |te| == TIMESTAMP_LEN
    ensures SameStretch(Layout(ts, TextsOf(start)), Layout(te, TextsOf(end)))
  {
    assert Fields(TextsOf(start)) == Fields(TextsOf(end));
  }

  /** The packet of an end notice against that of the last start notice, after a run of the tracker. */
  ghost predicate RepeatsLastPacket(t: Table, es: seq<Event>, n: Notice, ts: string, te: string)
    requires |ts| == |te| == TIMESTAMP_LEN
  {
    var s, start := Session(es, n.call), LastStart(t, es, n.call);
    && s.Some? && Opens(s.value)
    && (Settled(s.value) <==> start.Some?)
    && (start.Some? ==> start.value.vas == n.vas
                        && SameStretch(Layout(ts, TextsOf(start.value)), Layout(te, TextsOf(n))))
  }

  /**
   On the wire, too: after every run, the packet of each end notice of a settled call goes to the VAS of the
   last start packet of that call and differs from it in nothing but time and type.
   */
  lemma {:induction false} EndPacketRepeatsStartPacket(t: Table, es: seq<Event>, e: Event, ts: string, te: string)
    requires |ts| == |te| == TIMESTAMP_LEN
    ensures forall n | n in Step(t, After(t, es), e).1 && n.kind == 'E' :: RepeatsLastPacket(t, es, n, ts, te)
  {
    EndRepeatsLastStart(t, es, e);
    forall n | n in Step(t, After(t, es), e).1 && n.kind == 'E'
      ensures RepeatsLastPacket(t, es, n, ts, te)
    {
      assert RepeatsLastStart(t, es, n);
      RepeatedNoticeRepeatsPacket(n.(kind := 'S'), n, ts, te);
    }
  }
}
