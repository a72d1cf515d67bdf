/**
 Call keys generated for outbound calls that arrive without one: area prefix, day of month, time of day
 and a sequence number that runs modulo 10000.
 */
module CallKeys {
  import opened Decimal

  /** A reading of the local clock; a leap second reads 60. */
  datatype Reading = Reading(day: nat, hour: nat, minute: nat, second: nat)

  predicate IsReading(r: Reading) {
    1 <= r.day <= 31 && r.hour <= 23 && r.minute <= 59 && r.second <= 60
  }

  type Clock = r: Reading | IsReading(r) witness Reading(1, 0, 0, 0)

  const SEQUENCE := 10000

  /** What a generation reads: the configured area prefix and the clock. */
  datatype Request = Request(prefix: string, clock: Clock)

  function Stamp(clock: Clock): (s: string)
    ensures |s| == 8
  {
    Fixed(clock.day, 2) + Fixed(clock.hour, 2) + Fixed(clock.minute, 2) + Fixed(clock.second, 2)
  }

  /** The key text for a sequence number below 10000. */
  function Key(prefix: string, clock: Clock, sequence: nat): (key: string)
    ensures |key| == |prefix| + 12
  {
    prefix + Stamp(clock) + Fixed(sequence, 4)
  }

  /** Keys of a run of generations; the prefix and the clock are read anew each time. */
  function Generated(requests: seq<Request>, first: nat): (keys: seq<string>)
    ensures |keys| == |requests|
  {
    if requests == [] then []
    else [Key(requests[0].prefix, requests[0].clock, first)] + Generated(requests[1..], (first + 1) % SEQUENCE)
  }

  lemma NextSequence(first: nat, i: nat)
    requires first < SEQUENCE && i > 0
    ensures ((first + 1) % SEQUENCE + (i - 1)) % SEQUENCE == (first + i) % SEQUENCE
  {
    if first + 1 == SEQUENCE {
      assert first + i == SEQUENCE + (i - 1);
    }
  }

  lemma SameSequence(a: nat, b: nat)
    requires a <= b
    ensures a % SEQUENCE == b % SEQUENCE <==> (b - a) % SEQUENCE == 0
  {
    var d := b - a;
    assert a == SEQUENCE * (a / SEQUENCE) + a % SEQUENCE;
    assert d == SEQUENCE * (d / SEQUENCE) + d % SEQUENCE;
    assert b == SEQUENCE * (a / SEQUENCE + d / SEQUENCE) + a % SEQUENCE + d % SEQUENCE;
  }

  lemma {:induction false} GeneratedAt(requests: seq<Request>, first: nat, i: nat)
    requires i < |requests| && first < SEQUENCE
    ensures Generated(requests, first)[i] == Key(requests[i].prefix, requests[i].clock, (first + i) % SEQUENCE)
  {
    var next, tail := (first + 1) % SEQUENCE, requests[1..];
    if i == 0 {
      assert (first + i) % SEQUENCE == first;
    } else {
      GeneratedAt(tail, next, i - 1);
      NextSequence(first, i);
      assert tail[i - 1] == requests[i];
      assert Generated(requests, first)[i] == Generated(tail, next)[i - 1];
    }
  }

  lemma EqualKeysShareSequence(p: string, c: Clock, m: nat, q: string, d: Clock, n: nat)
    requires m < SEQUENCE && n < SEQUENCE && Key(p, c, m) == Key(q, d, n)
    ensures m == n && p + Stamp(c) == q + Stamp(d)
  {
    var a, b := p + Stamp(c), q + Stamp(d);
    assert |a| == |b|;
    assert (a + Fixed(m, 4))[|a|..] == Fixed(m, 4) && (b + Fixed(n, 4))[|b|..] == Fixed(n, 4);
    assert (a + Fixed(m, 4))[..|a|] == a && (b + Fixed(n, 4))[..|b|] == b;
    assert Power10(4) == SEQUENCE;
    FixedInjective(m, n, 4);
  }

  lemma StampSlices(c: Clock)
    ensures var s := Stamp(c);
            && s[0..2] == Fixed(c.day, 2) && s[2..4] == Fixed(c.hour, 2)
            && s[4..6] == Fixed(c.minute, 2) && s[6..8] == Fixed(c.second, 2)
  {
  }

  lemma KeySlices(p: string, stamp: string, last: string)
    requires |stamp| == 8
    ensures var key, k := p + stamp + last, |p|;
            && key[..k] == p && key[k..k + 2] == stamp[0..2] && key[k + 2..k + 4] == stamp[2..4]
            && key[k + 4..k + 6] == stamp[4..6] && key[k + 6..k + 8] == stamp[6..8] && key[k + 8..] == last
  {
  }

  /** What a key reads: its prefix, then day, hour, minute and second in two digits each, then the sequence number. */
  lemma {:induction false} KeyReadsBack(p: string, c: Clock, n: nat)
    requires n < SEQUENCE
    ensures var key, k := Key(p, c, n), |p|;
            && |key| == k + 12 && key[..k] == p
            && Atoi(key[k..k + 2]) == c.day && Atoi(key[k + 2..k + 4]) == c.hour
            && Atoi(key[k + 4..k + 6]) == c.minute && Atoi(key[k + 6..k + 8]) == c.second
            && Atoi(key[k + 8..]) == n
  {
    assert Power10(2) == 100 && Power10(4) == SEQUENCE;
    AtoiFixed(c.day, 2);
    AtoiFixed(c.hour, 2);
    AtoiFixed(c.minute, 2);
    AtoiFixed(c.second, 2);
    AtoiFixed(n, 4);
    StampSlices(c);
    KeySlices(p, Stamp(c), Fixed(n, 4));
  }

  lemma StampInjective(c: Clock, d: Clock)
    requires Stamp(c) == Stamp(d)
    ensures c == d
  {
    StampSlices(c);
    StampSlices(d);
    assert Power10(2) == 100;
    FixedInjective(c.day, d.day, 2);
    FixedInjective(c.hour, d.hour, 2);
    FixedInjective(c.minute, d.minute, 2);
    FixedInjective(c.second, d.second, 2);
  }

  lemma EqualKeysUnderOnePrefix(p: string, c: Clock, m: nat, d: Clock, n: nat)
    requires m < SEQUENCE && n < SEQUENCE
    ensures Key(p, c, m) == Key(p, d, n) <==> m == n && c == d
  {
    if Key(p, c, m) == Key(p, d, n) {
      EqualKeysShareSequence(p, c, m, p, d, n);
      assert (p + Stamp(c))[|p|..] == Stamp(c) && (p + Stamp(d))[|p|..] == Stamp(d);
      StampInjective(c, d);
    }
  }

  lemma SequenceGap(first: nat, i: nat, j: nat)
    requires i < j
    ensures (first + i) % SEQUENCE == (first + j) % SEQUENCE <==> (j - i) % SEQUENCE == 0
    ensures j - i < SEQUENCE ==> (j - i) % SEQUENCE != 0
  {
    SameSequence(first + i, first + j);
  }

  lemma {:induction false} KeysOfSequence(p: Request, m: nat, q: Request, n: nat)
    requires m < SEQUENCE && n < SEQUENCE
    ensures var k, l := Key(p.prefix, p.clock, m), Key(q.prefix, q.clock, n);
            && (k == l ==> m == n)
            && (p.prefix == q.prefix ==> (k == l <==> m == n && p.clock == q.clock))
  {
    if Key(p.prefix, p.clock, m) == Key(q.prefix, q.clock, n) {
      EqualKeysShareSequence(p.prefix, p.clock, m, q.prefix, q.clock, n);
    }
    EqualKeysUnderOnePrefix(p.prefix, p.clock, m, q.clock, n);
  }

  /**
   Two generations can only yield the same key a multiple of 10000 generations apart, whatever the clock
   and the configured prefix did; under an unchanged prefix they do so exactly when, besides, the clock
   read the same day of month and time of day.
   */
  lemma {:induction false} KeysCollideOnlyAcrossWraps(requests: seq<Request>, first: nat, i: nat, j: nat)
    requires i < j < |requests| && first < SEQUENCE
    ensures var keys := Generated(requests, first);
            && (keys[i] == keys[j] ==> (j - i) % SEQUENCE == 0)
            && (j - i < SEQUENCE ==> keys[i] != keys[j])
            && (requests[i].prefix == requests[j].prefix ==>
                  (keys[i] == keys[j] <==> (j - i) % SEQUENCE == 0 && requests[i].clock == requests[j].clock))
  {
    GeneratedAt(requests, first, i);
    GeneratedAt(requests, first, j);
    SequenceGap(first, i, j);
    KeysOfSequence(requests[i], (first + i) % SEQUENCE, requests[j], (first + j) % SEQUENCE);
  }

  lemma {:induction false} NextKey(requests: seq<Request>, r: Request)
    ensures Generated(requests + [r], 0)[|requests|] == Key(r.prefix, r.clock, |requests| % SEQUENCE)
  {
    GeneratedAt(requests + [r], 0, |requests|);
  }

  lemma NextRemainder(n: nat)
    ensures (n % SEQUENCE + 1) % SEQUENCE == (n + 1) % SEQUENCE
  {
    var q, r := n / SEQUENCE, n % SEQUENCE;
    assert n + 1 == q * SEQUENCE + (r + 1);
    if r + 1 == SEQUENCE {
      assert n + 1 == (q + 1) * SEQUENCE;
    }
  }

  /** The generator all call handlers share; its lock makes a generation one atomic step. */
  class CallKeyGenerator {
    var sequence: nat
    /** What all generations so far have read. */
    ghost var requests: seq<Request>

    ghost predicate Valid()
      reads this
    {
      sequence == |requests| % SEQUENCE
    }

    constructor ()
      ensures Valid() && sequence == 0 && requests == []
    {
      sequence, requests := 0, [];
    }

    /** The key made is the next one of all keys this generator makes. */
    method Generate(prefix: string, clock: Clock) returns (key: string)
      requires Valid()
      modifies this
      ensures Valid() && requests == old(requests) + [Request(prefix, clock)]
      ensures key == Key(prefix, clock, old(sequence)) == Generated(requests, 0)[|old(requests)|]
      ensures sequence == (old(sequence) + 1) % SEQUENCE
    {
      key := prefix + Fixed(clock.day, 2) + Fixed(clock.hour, 2) + Fixed(clock.minute, 2) + Fixed(clock.second, 2)
           + Fixed(sequence, 4);
      assert key == Key(prefix, clock, sequence);
      NextKey(requests, Request(prefix, clock));
      NextRemainder(|requests|);
      sequence := sequence + 1;
      sequence := sequence % SEQUENCE;
      requests := requests + [Request(prefix, clock)];
    }
  }
}
