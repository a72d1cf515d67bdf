/**
 The IP index: range files assign agent addresses to VAS servers (SetRange), and an agent's address
 text is looked up by GetVasNo. Two levels of fixed tables stand for one map from address to VAS number.
 */
module IpIndex {
  import opened Decimal

  // ---------------------------------------------------------------- tokenize

  /** `find_first_not_of(".", i)`, with the length of the text for npos. */
  function FirstNotOf(s: string, i: nat): (k: nat)
    requires i <= |s|
    ensures i <= k <= |s| && (k < |s| ==> s[k] != '.')
    decreases |s| - i
  {
    if i < |s| && s[i] == '.' then FirstNotOf(s, i + 1) else i
  }

  /** `find_first_of(".", i)`, with the length of the text for npos. */
  function FirstOf(s: string, i: nat): (k: nat)
    requires i <= |s|
    ensures i <= k <= |s| && (k < |s| ==> s[k] == '.')
    decreases |s| - i
  {
    if i < |s| && s[i] != '.' then FirstOf(s, i + 1) else i
  }

  lemma {:induction false} FirstOfIs(s: string, i: nat, k: nat)
    requires i <= k <= |s| && (k == |s| || s[k] == '.') && forall j | i <= j < k :: s[j] != '.'
    ensures FirstOf(s, i) == k
    decreases k - i
  {
    if i < k {
      FirstOfIs(s, i + 1, k);
    }
  }

  function TrimEnd(s: string): (t: string)
    ensures |t| <= |s|
  {
    if s == "" || !IsSpace(s[|s| - 1]) then s else TrimEnd(s[..|s| - 1])
  }

  function Trim(s: string): string {
    SkipSpaces(TrimEnd(s))
  }

  /** The trimmed runs of characters between dots, from position i on. */
  function Tokens(s: string, i: nat): (ts: seq<string>)
    requires i <= |s|
    decreases |s| - i
  {
    var a := FirstNotOf(s, i);
    if a == |s| then [] else var b := FirstOf(s, a); [Trim(s[a..b])] + Tokens(s, b)
  }

  lemma TokensStep(s: string, i: nat, tokens: seq<string>)
    requires i <= |s| && FirstNotOf(s, i) < |s|
    ensures var a := FirstNotOf(s, i);
            var b := FirstOf(s, a);
            i < b && tokens + Tokens(s, i) == tokens + [Trim(s[a..b])] + Tokens(s, b)
  {
  }

  method Tokenize(s: string) returns (tokens: seq<string>)
    ensures tokens == Tokens(s, 0)
  {
    tokens := [];
    var lastPos := FirstNotOf(s, 0);
    var pos := FirstOf(s, lastPos);
    ghost var from := 0;
    while pos != |s| || lastPos != |s|
      invariant 0 <= from <= |s| && lastPos == FirstNotOf(s, from) && pos == FirstOf(s, lastPos)
      invariant Tokens(s, 0) == tokens + Tokens(s, from)
      decreases |s| - from
    {
      assert lastPos < |s|;
      TokensStep(s, from, tokens);
      from := pos;
      tokens := tokens + [Trim(s[lastPos..pos])];
      lastPos := FirstNotOf(s, pos);
      pos := FirstOf(s, lastPos);
    }
  }

  function Join(ts: seq<string>): string {
    if ts == [] then "" else if |ts| == 1 then ts[0] else ts[0] + "." + Join(ts[1..])
  }

  predicate Clean(t: string) {
    t != "" && '.' !in t && !IsSpace(t[0]) && !IsSpace(t[|t| - 1])
  }

  lemma TrimClean(t: string)
    requires Clean(t)
    ensures Trim(t) == t
  {
  }

  lemma TokenFirst(s: string, i: nat, t: string)
    requires Clean(t) && i + |t| <= |s| && s[i..i + |t|] == t
    requires i + |t| == |s| || s[i + |t|] == '.'
    ensures Tokens(s, i) == [t] + Tokens(s, i + |t|)
  {
    assert forall j | i <= j < i + |t| :: s[j] == s[i..i + |t|][j - i];
    FirstOfIs(s, i, i + |t|);
    TrimClean(t);
  }

  lemma TokensAtDot(s: string, i: nat)
    requires i < |s| && s[i] == '.'
    ensures Tokens(s, i) == Tokens(s, i + 1)
  {
  }

  lemma TokenThenDot(s: string, i: nat, t: string)
    requires Clean(t) && i + |t| < |s| && s[i..i + |t|] == t && s[i + |t|] == '.'
    ensures Tokens(s, i) == [t] + Tokens(s, i + |t| + 1)
  {
    TokenFirst(s, i, t);
    TokensAtDot(s, i + |t|);
  }

  lemma JoinMore(pre: string, ts: seq<string>)
    requires |ts| > 1
    ensures var s, i, t := pre + Join(ts), |pre|, ts[0];
            i + |t| < |s| && s[i..i + |t|] == t && s[i + |t|] == '.' && s == pre + t + "." + Join(ts[1..])
  {
  }

  lemma TokensOfMore(pre: string, ts: seq<string>)
    requires |ts| > 1 && Clean(ts[0])
    ensures var next := pre + ts[0] + ".";
            Tokens(pre + Join(ts), |pre|) == [ts[0]] + Tokens(next + Join(ts[1..]), |next|)
  {
    var s, next := pre + Join(ts), pre + ts[0] + ".";
    JoinMore(pre, ts);
    assert s == next + Join(ts[1..]) && |next| == |pre| + |ts[0]| + 1;
    TokenThenDot(s, |pre|, ts[0]);
  }

  lemma {:induction false} TokensOfOne(pre: string, t: string)
    requires Clean(t)
    ensures Tokens(pre + t, |pre|) == [t]
  {
    assert (pre + t)[|pre|..|pre| + |t|] == t;
    TokenFirst(pre + t, |pre|, t);
  }

  lemma {:induction false} TokensOfJoinedAfter(pre: string, ts: seq<string>)
    requires forall k | 0 <= k < |ts| :: Clean(ts[k])
    ensures Tokens(pre + Join(ts), |pre|) == ts
    decreases |ts|
  {
    if ts == [] {
      assert pre + "" == pre;
    } else if |ts| == 1 {
      TokensOfOne(pre, ts[0]);
    } else {
      var first, rest := ts[0], ts[1..];
      TokensOfJoinedAfter(pre + first + ".", rest);
      TokensOfMore(pre, ts);
      assert [first] + rest == ts;
    }
  }

  /** Splitting a dotted text of clean parts gives the parts back. */
  lemma TokensOfJoined(ts: seq<string>)
    requires forall k | 0 <= k < |ts| :: Clean(ts[k])
    ensures Tokens(Join(ts), 0) == ts
  {
    TokensOfJoinedAfter("", ts);
    assert "" + Join(ts) == Join(ts);
  }

  // ---------------------------------------------------------------- addresses

  datatype Address = Address(a: int, b: int, c: int, d: int)

  predicate IsOctet(n: int) {
    0 <= n <= 255
  }

  predicate IsAddress(x: Address) {
    IsOctet(x.a) && IsOctet(x.b) && IsOctet(x.c) && IsOctet(x.d)
  }

  type VasNumber = n: int | 1 <= n <= 8 witness 1

  predicate IsTable(t: map<Address, VasNumber>) {
    forall x | x in t :: IsAddress(x)
  }

  /** What the range files say: a VAS number for some of the IPv4 addresses. */
  type Table = t: map<Address, VasNumber> | IsTable(t) witness map[]

  function Lookup(t: Table, x: Address): (r: int)
    ensures r == -1 || (x in t && 1 <= r <= 8)
  {
    if x in t then t[x] else -1
  }

  function Read(ts: seq<string>): Address
    requires |ts| == 4
  {
    Address(Atoi(ts[0]), Atoi(ts[1]), Atoi(ts[2]), Atoi(ts[3]))
  }

  /** The first two numbers only count through 256 * a + b. */
  function Prefix(x: Address): int {
    256 * x.a + x.b
  }

  function Resolved(x: Address): Address {
    x.(a := Prefix(x) / 256, b := Prefix(x) % 256)
  }

  /** The VAS number of an address text, -1 when it has none. */
  function VasNo(t: Table, ip: string): (r: int)
    ensures r == -1 || 1 <= r <= 8
  {
    var ts := Tokens(ip, 0);
    if |ts| != 4 then -1 else Lookup(t, Resolved(Read(ts)))
  }

  function Dotted(x: Address): string
    requires IsAddress(x)
  {
    Join([Print(x.a), Print(x.b), Print(x.c), Print(x.d)])
  }

  lemma NoVasForEmptyText(t: Table)
    ensures VasNo(t, "") == -1
  {
  }

  lemma PrintIsClean(n: nat)
    ensures Clean(Print(n))
  {
    var s := Print(n);
    assert IsDigit(s[0]) && IsDigit(s[|s| - 1]);
  }

  lemma DottedReadsBack(x: Address)
    requires IsAddress(x)
    ensures var ts := Tokens(Dotted(x), 0); |ts| == 4 && Read(ts) == x
  {
    NumbersAreRead(x.a, x.b, x.c, x.d);
  }

  lemma OctetKeepsAddress(x: Address)
    requires IsOctet(x.b)
    ensures Resolved(x) == x
  {
  }

  /** A printed IPv4 address is looked up as itself. */
  lemma {:induction false} DottedAddressIsLookedUp(t: Table, x: Address)
    requires IsAddress(x)
    ensures VasNo(t, Dotted(x)) == Lookup(t, x)
  {
    DottedReadsBack(x);
    OctetKeepsAddress(x);
  }

  /**
   Whatever the numbers are, the lookup is the one of the written address exactly in the tables
   that do not tell the two apart; with a second number in 0..255 that is every table.
   */
  lemma SecondNumberDecidesAliasing(x: Address)
    ensures (forall t: Table :: Lookup(t, Resolved(x)) == Lookup(t, x))
       <==> IsOctet(x.b) || !IsAddress(Resolved(x))
  {
    if !IsOctet(x.b) && IsAddress(Resolved(x)) {
      var t: Table := map[Resolved(x) := 1];
      assert Lookup(t, Resolved(x)) != Lookup(t, x);
    } else if IsOctet(x.b) {
      OctetKeepsAddress(x);
    } else {
      assert !IsAddress(x);
    }
  }

  predicate Blank(s: string) {
    forall i | 0 <= i < |s| :: IsSpace(s[i])
  }

  lemma {:induction false} TrimEndDrops(t: string, blanks: string)
    requires Clean(t) && Blank(blanks)
    ensures TrimEnd(t + blanks) == t
  {
    if blanks == "" {
      assert t + blanks == t;
    } else {
      var s := t + blanks;
      assert s[|s| - 1] == blanks[|blanks| - 1] && s[..|s| - 1] == t + blanks[..|blanks| - 1];
      TrimEndDrops(t, blanks[..|blanks| - 1]);
    }
  }

  lemma {:induction false} SkipSpacesDrops(blanks: string, t: string)
    requires Blank(blanks) && t != "" && !IsSpace(t[0])
    ensures SkipSpaces(blanks + t) == t
  {
    if blanks == "" {
      assert blanks + t == t;
    } else {
      assert (blanks + t)[0] == blanks[0] && (blanks + t)[1..] == blanks[1..] + t;
      SkipSpacesDrops(blanks[1..], t);
    }
  }

  lemma {:induction false} TrimEndKeepsFront(front: string, s: string)
    requires s != "" && TrimEnd(s) != ""
    ensures TrimEnd(front + s) == front + TrimEnd(s)
  {
    var all := front + s;
    assert all[|all| - 1] == s[|s| - 1];
    if IsSpace(s[|s| - 1]) {
      assert all[..|all| - 1] == front + s[..|s| - 1];
      assert s[..|s| - 1] != "";
      TrimEndKeepsFront(front, s[..|s| - 1]);
    }
  }

  /** Blanks around a part do not count. */
  lemma {:induction false} TrimDropsBlanks(before: string, t: string, behind: string)
    requires Clean(t) && Blank(before) && Blank(behind)
    ensures Trim(before + (t + behind)) == t
  {
    TrimEndDrops(t, behind);
    TrimEndKeepsFront(before, t + behind);
    SkipSpacesDrops(before, t);
  }

  /** A text of other than four parts has no VAS, one of four that of the address they read. */
  lemma {:induction false} PartsAreLookedUp(t: Table, ts: seq<string>)
    requires forall k | 0 <= k < |ts| :: Clean(ts[k])
    ensures VasNo(t, Join(ts)) == if |ts| != 4 then -1 else Lookup(t, Resolved(Read(ts)))
  {
    TokensOfJoined(ts);
  }

  /** A text of four parts is looked up as the address it spells in every table, or aliases another one. */
  lemma {:induction false} TextAliasesAddress(ip: string)
    requires |Tokens(ip, 0)| == 4
    ensures var x := Read(Tokens(ip, 0));
            (forall t: Table :: VasNo(t, ip) == Lookup(t, x)) <==> IsOctet(x.b) || !IsAddress(Resolved(x))
  {
    var x := Read(Tokens(ip, 0));
    SecondNumberDecidesAliasing(x);
    assert forall t: Table :: VasNo(t, ip) == Lookup(t, Resolved(x));
  }

  lemma NineAndTwoFiftySix()
    ensures Print(9) == "9" && Print(256) == "256"
  {
    assert Print(25) == "25";
  }

  lemma FourPartsAreLookedUp(t: Table, ip: string, x: Address)
    requires |Tokens(ip, 0)| == 4 && Read(Tokens(ip, 0)) == x
    ensures VasNo(t, ip) == Lookup(t, Resolved(x))
  {
  }

  /** An instance: 9.256.c.d is taken for 10.0.c.d. */
  lemma {:induction false} SecondNumberCarriesOver(t: Table, c: nat, d: nat)
    requires IsOctet(c) && IsOctet(d)
    ensures VasNo(t, Join(["9", "256", Print(c), Print(d)])) == Lookup(t, Address(10, 0, c, d))
  {
    NineAndTwoFiftySix();
    NumbersAreRead(9, 256, c, d);
    FourPartsAreLookedUp(t, Join([Print(9), Print(256), Print(c), Print(d)]), Address(9, 256, c, d));
    assert Resolved(Address(9, 256, c, d)) == Address(10, 0, c, d);
  }

  // ---------------------------------------------------------------- range files

  const MAX_IP_01 := 10

  datatype File = File(vas: VasNumber, lines: seq<string>)

  datatype Verdict = Skipped | Accepted(x: Address) | Rejected

  /** The different A.B prefixes of the index, in slot order, and the map the tables stand for. */
  datatype Index = Index(prefixes: seq<int>, table: Table)

  function Judge(prefixes: seq<int>, line: string): Verdict {
    var ts := Tokens(line, 0);
    if |line| < 3 then Skipped
    else if |ts| != 4 || !IsAddress(Read(ts)) then Rejected
    else if Prefix(Read(ts)) !in prefixes && |prefixes| >= MAX_IP_01 then Rejected
    else Accepted(Read(ts))
  }

  /** A line claims a slot for its prefix before its last two numbers are checked. */
  function Claim(prefixes: seq<int>, line: string): seq<int> {
    var ts := Tokens(line, 0);
    if |line| < 3 || |ts| != 4 || !IsOctet(Atoi(ts[0])) || !IsOctet(Atoi(ts[1])) then prefixes
    else if Prefix(Read(ts)) in prefixes || |prefixes| >= MAX_IP_01 then prefixes
    else prefixes + [Prefix(Read(ts))]
  }

  /** Four numbers on a line: the first two are checked, then the slot, then the last two. */
  function LoadNumbers(ix: Index, vas: VasNumber, x: Address): (Index, bool) {
    if !IsOctet(x.a) || !IsOctet(x.b) || (Prefix(x) !in ix.prefixes && |ix.prefixes| >= MAX_IP_01) then (ix, false)
    else
      var claimed := if Prefix(x) in ix.prefixes then ix else ix.(prefixes := ix.prefixes + [Prefix(x)]);
      if !IsOctet(x.c) || !IsOctet(x.d) then (claimed, false)
      else (claimed.(table := ix.table[x := vas]), true)
  }

  function LoadLine(ix: Index, vas: VasNumber, line: string): (Index, bool) {
    var ts := Tokens(line, 0);
    if |line| < 3 then (ix, true) else if |ts| != 4 then (ix, false) else LoadNumbers(ix, vas, Read(ts))
  }

  /** A line takes effect exactly as it is judged, and claims its slot even if it is rejected. */
  lemma LineFollowsVerdict(ix: Index, vas: VasNumber, line: string)
    ensures var verdict, (next, ok) := Judge(ix.prefixes, line), LoadLine(ix, vas, line);
            && ok == !verdict.Rejected?
            && next.prefixes == Claim(ix.prefixes, line)
            && next.table == if verdict.Accepted? then ix.table[verdict.x := vas] else ix.table
  {
  }

  /** One file: lines take effect in order until the first rejected one aborts the file. */
  function LoadFile(ix: Index, vas: VasNumber, lines: seq<string>): (Index, bool)
    decreases |lines|
  {
    if lines == [] then (ix, true)
    else
      var (next, ok) := LoadLine(ix, vas, lines[0]);
      if ok then LoadFile(next, vas, lines[1..]) else (next, false)
  }

  function LoadAll(files: seq<File>): Index
  {
    if files == [] then Index([], map[])
    else
      var last := files[|files| - 1];
      LoadFile(LoadAll(files[..|files| - 1]), last.vas, last.lines).0
  }

  datatype Entry = Entry(x: Address, vas: VasNumber)

  function LineEntry(prefixes: seq<int>, vas: VasNumber, line: string): seq<Entry> {
    match Judge(prefixes, line)
    case Accepted(x) => [Entry(x, vas)]
    case _ => []
  }

  /** The accepted lines of one file. */
  function Entries(prefixes: seq<int>, vas: VasNumber, lines: seq<string>): seq<Entry>
    decreases |lines|
  {
    if lines == [] || Judge(prefixes, lines[0]).Rejected? then []
    else LineEntry(prefixes, vas, lines[0]) + Entries(Claim(prefixes, lines[0]), vas, lines[1..])
  }

  function AllEntries(files: seq<File>): seq<Entry>
  {
    if files == [] then []
    else
      var last := files[|files| - 1];
      AllEntries(files[..|files| - 1]) + Entries(LoadAll(files[..|files| - 1]).prefixes, last.vas, last.lines)
  }

  /** The VAS of the last entry for an address, -1 when there is none. */
  function LastEntry(es: seq<Entry>, x: Address): int {
    if es == [] then -1
    else if es[|es| - 1].x == x then es[|es| - 1].vas
    else LastEntry(es[..|es| - 1], x)
  }

  lemma LoadLineWrites(ix: Index, before: seq<Entry>, vas: VasNumber, line: string, x: Address)
    requires Lookup(ix.table, x) == LastEntry(before, x)
    ensures Lookup(LoadLine(ix, vas, line).0.table, x) == LastEntry(before + LineEntry(ix.prefixes, vas, line), x)
  {
    LineFollowsVerdict(ix, vas, line);
    match Judge(ix.prefixes, line)
    case Accepted(y) =>
      assert (before + [Entry(y, vas)])[..|before|] == before;
    case _ =>
      assert before + [] == before;
  }

  lemma {:induction false} EntriesStep(ix: Index, before: seq<Entry>, vas: VasNumber, lines: seq<string>)
    requires lines != []
    ensures var (next, ok) := LoadLine(ix, vas, lines[0]);
            var upTo := before + LineEntry(ix.prefixes, vas, lines[0]);
            (before + Entries(ix.prefixes, vas, lines)
             == if ok then upTo + Entries(next.prefixes, vas, lines[1..]) else upTo)
  {
    var next, entry := LoadLine(ix, vas, lines[0]).0, LineEntry(ix.prefixes, vas, lines[0]);
    LineFollowsVerdict(ix, vas, lines[0]);
    if Judge(ix.prefixes, lines[0]).Rejected? {
      assert entry == [] && Entries(ix.prefixes, vas, lines) == [];
    } else {
      Associative(before, entry, Entries(next.prefixes, vas, lines[1..]));
    }
  }

  lemma Associative<T>(a: seq<T>, b: seq<T>, c: seq<T>)
    ensures a + (b + c) == a + b + c
  {
  }

  lemma {:induction false} LoadFileWrites(ix: Index, before: seq<Entry>, vas: VasNumber, lines: seq<string>, x: Address)
    requires Lookup(ix.table, x) == LastEntry(before, x)
    ensures Lookup(LoadFile(ix, vas, lines).0.table, x) == LastEntry(before + Entries(ix.prefixes, vas, lines), x)
    decreases |lines|
  {
    if lines == [] {
      assert before + [] == before;
    } else {
      var (next, ok) := LoadLine(ix, vas, lines[0]);
      EntriesStep(ix, before, vas, lines);
      LoadLineWrites(ix, before, vas, lines[0], x);
      if ok {
        LoadFileWrites(next, before + LineEntry(ix.prefixes, vas, lines[0]), vas, lines[1..], x);
      }
    }
  }

  lemma {:induction false} LoadAllWrites(files: seq<File>, x: Address)
    ensures Lookup(LoadAll(files).table, x) == LastEntry(AllEntries(files), x)
  {
    if files != [] {
      var front, last := files[..|files| - 1], files[|files| - 1];
      LoadAllWrites(front, x);
      LoadFileWrites(LoadAll(front), AllEntries(front), last.vas, last.lines, x);
    }
  }

  /** After any sequence of range files, an address goes to the VAS of the last accepted line that names it. */
  lemma {:induction false} LastAcceptedLineWins(files: seq<File>, x: Address)
    requires IsAddress(x)
    ensures VasNo(LoadAll(files).table, Dotted(x)) == LastEntry(AllEntries(files), x)
  {
    DottedAddressIsLookedUp(LoadAll(files).table, x);
    LoadAllWrites(files, x);
  }

  // ---------------------------------------------------------------- lines as they are written

  lemma JoinOfFour(a: string, b: string, c: string, d: string)
    ensures |Join([a, b, c, d])| == |a| + |b| + |c| + |d| + 3
  {
    assert [a, b, c, d][1..] == [b, c, d] && [b, c, d][1..] == [c, d] && [c, d][1..] == [d];
    assert Join([d]) == d;
    assert Join([c, d]) == c + "." + Join([d]);
    assert Join([b, c, d]) == b + "." + Join([c, d]);
  }

  lemma {:induction false} NumbersAreRead(a: nat, b: nat, c: nat, d: nat)
    ensures var line := Join([Print(a), Print(b), Print(c), Print(d)]);
            |line| >= 3 && |Tokens(line, 0)| == 4 && Read(Tokens(line, 0)) == Address(a, b, c, d)
  {
    var ts := [Print(a), Print(b), Print(c), Print(d)];
    PrintIsClean(a);
    PrintIsClean(b);
    PrintIsClean(c);
    PrintIsClean(d);
    TokensOfJoined(ts);
    JoinOfFour(ts[0], ts[1], ts[2], ts[3]);
    AtoiPrint(a);
    AtoiPrint(b);
    AtoiPrint(c);
    AtoiPrint(d);
  }

  lemma {:induction false} ReadIsJudged(prefixes: seq<int>, line: string, x: Address)
    requires |line| >= 3 && |Tokens(line, 0)| == 4 && Read(Tokens(line, 0)) == x
    ensures Judge(prefixes, line) ==
              if 0 <= x.a <= 255 && 0 <= x.b <= 255 && 0 <= x.c <= 255 && 0 <= x.d <= 255
                 && (256 * x.a + x.b in prefixes || |prefixes| < 10)
              then Accepted(x) else Rejected
  {
  }

  /** A line of four numbers is accepted exactly if all are in 0..255 and its prefix has or gets one of ten slots. */
  lemma {:induction false} NumbersAreJudged(prefixes: seq<int>, a: nat, b: nat, c: nat, d: nat)
    ensures Judge(prefixes, Join([Print(a), Print(b), Print(c), Print(d)])) ==
              if a <= 255 && b <= 255 && c <= 255 && d <= 255 && (256 * a + b in prefixes || |prefixes| < 10)
              then Accepted(Address(a, b, c, d)) else Rejected
  {
    NumbersAreRead(a, b, c, d);
    ReadIsJudged(prefixes, Join([Print(a), Print(b), Print(c), Print(d)]), Address(a, b, c, d));
  }

  /** A line of another number of parts is rejected, unless it is too short to be looked at. */
  lemma {:induction false} OtherLinesAreRejected(prefixes: seq<int>, ts: seq<string>)
    requires |ts| != 4 && forall k | 0 <= k < |ts| :: Clean(ts[k])
    ensures Judge(prefixes, Join(ts)) == if |Join(ts)| < 3 then Skipped else Rejected
  {
    TokensOfJoined(ts);
  }

  /** The first rejected line ends its file: what follows it does not matter. */
  lemma {:induction false} RejectedLineEndsFile(ix: Index, vas: VasNumber, lines: seq<string>, k: nat)
    requires k < |lines| && LoadFile(ix, vas, lines[..k]).1
    requires Judge(LoadFile(ix, vas, lines[..k]).0.prefixes, lines[k]).Rejected?
    ensures LoadFile(ix, vas, lines) == LoadFile(ix, vas, lines[..k + 1]) && !LoadFile(ix, vas, lines).1
    decreases k
  {
    if k == 0 {
      LineFollowsVerdict(ix, vas, lines[0]);
      assert lines[..0] == [];
    } else {
      var next := LoadLine(ix, vas, lines[0]).0;
      assert lines[..k][1..] == lines[1..][..k - 1] && lines[..k + 1][1..] == lines[1..][..k];
      RejectedLineEndsFile(next, vas, lines[1..], k - 1);
    }
  }

  lemma {:induction false} FileOfOneLine(ix: Index, vas: VasNumber, line: string)
    ensures LoadFile(ix, vas, [line]) == LoadLine(ix, vas, line)
  {
    assert [line][1..] == [];
    var (next, ok) := LoadLine(ix, vas, line);
    assert LoadFile(next, vas, []) == (next, true);
  }

  lemma {:induction false} AddressIsJudged(prefixes: seq<int>, x: Address)
    requires IsAddress(x)
    ensures Judge(prefixes, Dotted(x)) ==
              if 256 * x.a + x.b in prefixes || |prefixes| < 10 then Accepted(x) else Rejected
  {
    NumbersAreRead(x.a, x.b, x.c, x.d);
    ReadIsJudged(prefixes, Dotted(x), x);
  }

  lemma {:induction false} VerdictWrites(ix: Index, vas: VasNumber, line: string, x: Address)
    requires Judge(ix.prefixes, line) == Accepted(x) || Judge(ix.prefixes, line) == Rejected
    ensures LoadFile(ix, vas, [line]).0.table ==
              if Judge(ix.prefixes, line) == Accepted(x) then ix.table[x := vas] else ix.table
  {
    LineFollowsVerdict(ix, vas, line);
    FileOfOneLine(ix, vas, line);
  }

  lemma {:induction false} PrintedLineWrites(ix: Index, vas: VasNumber, x: Address)
    requires IsAddress(x)
    ensures LoadFile(ix, vas, [Dotted(x)]).0.table ==
              if 256 * x.a + x.b in ix.prefixes || |ix.prefixes| < 10 then ix.table[x := vas] else ix.table
  {
    AddressIsJudged(ix.prefixes, x);
    VerdictWrites(ix, vas, Dotted(x), x);
  }

  lemma {:induction false} LoadAllSnoc(files: seq<File>, file: File)
    ensures LoadAll(files + [file]) == LoadFile(LoadAll(files), file.vas, file.lines).0
  {
    var more := files + [file];
    assert more[..|more| - 1] == files;
  }

  /**
   A file of one printed address takes effect exactly if there is a slot: then the address goes to its VAS, and
   every other address goes where it went before.
   */
  lemma {:induction false} PrintedLineTakesEffect(files: seq<File>, vas: VasNumber, x: Address, y: Address)
    requires IsAddress(x) && IsAddress(y)
    ensures var before, after := LoadAll(files), LoadAll(files + [File(vas, [Dotted(x)])]);
            var slot := 256 * x.a + x.b in before.prefixes || |before.prefixes| < 10;
            VasNo(after.table, Dotted(y)) == if slot && y == x then vas else VasNo(before.table, Dotted(y))
  {
    var before := LoadAll(files);
    LoadAllSnoc(files, File(vas, [Dotted(x)]));
    PrintedLineWrites(before, vas, x);
    var after := LoadAll(files + [File(vas, [Dotted(x)])]);
    DottedAddressIsLookedUp(before.table, y);
    DottedAddressIsLookedUp(after.table, y);
  }

  // ---------------------------------------------------------------- the two-level tables

  /** Slots in use form a prefix, hold distinct A.B values, and cover every address of the table. */
  ghost predicate WellFormed(ix: Index) {
    && |ix.prefixes| <= MAX_IP_01
    && (forall i | 0 <= i < |ix.prefixes| :: 0 <= ix.prefixes[i] <= 65535)
    && (forall i, j | 0 <= i < j < |ix.prefixes| :: ix.prefixes[i] != ix.prefixes[j])
    && (forall x | x in ix.table :: Prefix(x) in ix.prefixes)
  }

  /** The number a cell of the second level holds. */
  ghost function Cell(ix: Index, i: int, c: int, d: int): int {
    if 0 <= i < |ix.prefixes| then Lookup(ix.table, Address(ix.prefixes[i] / 256, ix.prefixes[i] % 256, c, d)) else -1
  }

  lemma CellAfterClaim(ix: Index, value: int, i: nat, c: int, d: int)
    requires WellFormed(ix) && value !in ix.prefixes
    ensures Cell(ix.(prefixes := ix.prefixes + [value]), i, c, d) == Cell(ix, i, c, d)
  {
    if i == |ix.prefixes| {
      assert Prefix(Address(value / 256, value % 256, c, d)) == value;
    }
  }

  lemma CellAfterWrite(ix: Index, slot: nat, x: Address, vas: VasNumber, i: nat, c: int, d: int)
    requires WellFormed(ix) && IsAddress(x) && slot < |ix.prefixes| && ix.prefixes[slot] == Prefix(x)
    ensures var next := ix.(table := ix.table[x := vas]);
            Cell(next, i, c, d) == if (i, c, d) == (slot, x.c, x.d) then vas else Cell(ix, i, c, d)
  {
    if i < |ix.prefixes| && i != slot {
      assert ix.prefixes[i] != ix.prefixes[slot];
    }
  }

  lemma NoSlotNoVas(ix: Index, x: Address)
    requires WellFormed(ix) && Prefix(x) !in ix.prefixes
    ensures Lookup(ix.table, Resolved(x)) == -1
  {
    assert Prefix(Resolved(x)) == Prefix(x);
  }

  lemma CellOfSlot(ix: Index, slot: nat, x: Address)
    requires WellFormed(ix) && Prefix(x) == if slot < |ix.prefixes| then ix.prefixes[slot] else -1
    ensures Cell(ix, slot, x.c, x.d) == Lookup(ix.table, Resolved(x))
  {
    if slot >= |ix.prefixes| {
      NoSlotNoVas(ix, x);
    }
  }

  class VasIndex {
    const ip01: array<int>
    const range: array3<int>
    ghost var index: Index

    ghost predicate Valid()
      reads this, ip01, range
    {
      && ip01.Length == MAX_IP_01 && range.Length0 == MAX_IP_01 && range.Length1 == 256 && range.Length2 == 256
      && WellFormed(index)
      && (forall i | 0 <= i < MAX_IP_01 :: ip01[i] == if i < |index.prefixes| then index.prefixes[i] else -1)
      && (forall i, c, d | 0 <= i < MAX_IP_01 && 0 <= c < 256 && 0 <= d < 256 :: range[i, c, d] == Cell(index, i, c, d))
    }

    /** The tables after LoadParameters filled them with -1. */
    constructor ()
      ensures Valid() && fresh(ip01) && fresh(range)
      ensures index == Index([], map[])
    {
      ip01 := new int[MAX_IP_01](_ => -1);
      range := new int[MAX_IP_01, 256, 256]((_, _, _) => -1);
      index := Index([], map[]);
    }

    /** Finds or claims the slot of a prefix; -1 when ten other prefixes hold all of them. */
    method ClaimSlot(value: int) returns (slot: int)
      requires Valid() && 0 <= value <= 65535
      modifies this`index, ip01
      ensures Valid() && index.table == old(index.table)
      ensures slot == -1 <==> value !in old(index.prefixes) && |old(index.prefixes)| == MAX_IP_01
      ensures index.prefixes == if slot == -1 || value in old(index.prefixes) then old(index.prefixes)
                                else old(index.prefixes) + [value]
      ensures slot != -1 ==> 0 <= slot < |index.prefixes| && index.prefixes[slot] == value
    {
      slot := -1;
      var i := 0;
      while i < MAX_IP_01
        invariant 0 <= i <= MAX_IP_01 && slot == -1
        invariant index == old(index) && Valid() && ip01[..] == old(ip01[..])
        invariant i <= |index.prefixes| && forall j | 0 <= j < i :: index.prefixes[j] != value
      {
        if ip01[i] == -1 {
          assert i == |index.prefixes|;
          forall j, c, d | 0 <= j < MAX_IP_01 && IsOctet(c) && IsOctet(d) {
            CellAfterClaim(index, value, j, c, d);
          }
          ip01[i] := value;
          index := index.(prefixes := index.prefixes + [value]);
          slot := i;
          break;
        } else if ip01[i] == value {
          slot := i;
          break;
        }
        i := i + 1;
      }
    }

    /** Writes one cell: the address takes the VAS number, every other address keeps its own. */
    method Assign(slot: int, x: Address, vas: VasNumber)
      requires Valid() && IsAddress(x)
      requires 0 <= slot < |index.prefixes| && index.prefixes[slot] == Prefix(x)
      modifies this`index, range
      ensures Valid() && index == old(index).(table := old(index).table[x := vas])
    {
      forall i, c, d | 0 <= i < MAX_IP_01 && IsOctet(c) && IsOctet(d) {
        CellAfterWrite(index, slot, x, vas, i, c, d);
      }
      range[slot, x.c, x.d] := vas;
      index := index.(table := index.table[x := vas]);
    }

    method SetNumbers(vas: VasNumber, x: Address) returns (ok: bool)
      requires Valid()
      modifies this`index, ip01, range
      ensures Valid()
      ensures (index, ok) == LoadNumbers(old(index), vas, x)
    {
      if x.a < 0 || x.a > 255 || x.b < 0 || x.b > 255 {
        return false;
      }
      var slot := ClaimSlot(x.a * 256 + x.b);
      if slot == -1 {
        return false;
      }
      if x.c < 0 || x.c > 255 || x.d < 0 || x.d > 255 {
        return false;
      }
      Assign(slot, x, vas);
      ok := true;
    }

    method SetLine(vas: VasNumber, buf: string) returns (ok: bool)
      requires Valid()
      modifies this`index, ip01, range
      ensures Valid()
      ensures (index, ok) == LoadLine(old(index), vas, buf)
    {
      if |buf| < 3 {
        return true;
      }
      var tokens := Tokenize(buf);
      if |tokens| != 4 {
        return false;
      }
      ok := SetNumbers(vas, Address(Atoi(tokens[0]), Atoi(tokens[1]), Atoi(tokens[2]), Atoi(tokens[3])));
    }

    /** Loads one range file, its lines given without comments and line ends. */
    method SetRange(vas: VasNumber, lines: seq<string>) returns (r: int)
      requires Valid()
      modifies this`index, ip01, range
      ensures Valid()
      ensures (index, r == 0) == LoadFile(old(index), vas, lines)
      ensures r == 0 || r == -1
    {
      for n := 0 to |lines|
        invariant Valid()
        invariant LoadFile(old(index), vas, lines) == LoadFile(index, vas, lines[n..])
      {
        assert lines[n..][1..] == lines[n + 1..];
        var ok := SetLine(vas, lines[n]);
        if !ok {
          return -1;
        }
      }
      r := 0;
    }

    /** The linear search of the first level; a free slot holds -1. */
    method FindSlot(value: int) returns (slot: int)
      requires Valid()
      ensures slot == -1 ==> value !in index.prefixes
      ensures slot != -1 ==>
                0 <= slot < MAX_IP_01 && value == if slot < |index.prefixes| then index.prefixes[slot] else -1
    {
      for i := 0 to MAX_IP_01
        invariant forall j | 0 <= j < i :: ip01[j] != value
      {
        if value == ip01[i] {
          return i;
        }
      }
      slot := -1;
      forall j | 0 <= j < |index.prefixes|
        ensures index.prefixes[j] != value
      {
        assert ip01[j] == index.prefixes[j];
      }
    }

    /** The lookup: the slot of the first two numbers, then one cell of the second level. */
    method GetVasNo(ip: string) returns (vas: int)
      requires Valid()
      ensures vas == VasNo(index.table, ip)
    {
      var tokens := Tokenize(ip);
      if |tokens| != 4 {
        return -1;
      }
      var ip0, ip1, ip2, ip3 := Atoi(tokens[0]), Atoi(tokens[1]), Atoi(tokens[2]), Atoi(tokens[3]);
      ghost var x := Address(ip0, ip1, ip2, ip3);
      var slot := FindSlot(ip0 * 256 + ip1);
      if slot == -1 {
        NoSlotNoVas(index, x);
        return -1;
      }
      assert Resolved(x) in index.table ==> IsAddress(Resolved(x));
      if ip2 < 0 || ip2 > 255 {
        return -1;
      }
      if ip3 < 0 || ip3 > 255 {
        return -1;
      }
      vas := range[slot, ip2, ip3];
      CellOfSlot(index, slot, x);
    }
  }
}
