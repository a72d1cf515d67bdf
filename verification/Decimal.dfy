/**
 Decimal texts as the C library prints and reads them: `%d`, `%0wd` and `atoi`.
 Shared by the call keys (fixed width) and the IP index (dotted quads).
 */
module Decimal {

  predicate IsDigit(c: char) {
    '0' <= c <= '9'
  }

  function Digit(d: nat): (c: char)
    requires d < 10
    ensures IsDigit(c) && c as int - '0' as int == d
  {
    ('0' as int + d) as char
  }

  ghost predicate AllDigits(s: string) {
    forall i | 0 <= i < |s| :: IsDigit(s[i])
  }

  /** `%0wd` for a number that has at most w digits. */
  function Fixed(n: nat, w: nat): (s: string)
    ensures |s| == w
  {
    if w == 0 then "" else Fixed(n / 10, w - 1) + [Digit(n % 10)]
  }

  function Power10(w: nat): nat {
    if w == 0 then 1 else 10 * Power10(w - 1)
  }

  /** Printing at a fixed width loses nothing as long as the number fits. */
  lemma {:induction false} FixedInjective(m: nat, n: nat, w: nat)
    requires m < Power10(w) && n < Power10(w)
    requires Fixed(m, w) == Fixed(n, w)
    ensures m == n
  {
    if w == 0 {
    } else {
      var a, b := Fixed(m / 10, w - 1), Fixed(n / 10, w - 1);
      assert (a + [Digit(m % 10)])[..w - 1] == a && (b + [Digit(n % 10)])[..w - 1] == b;
      assert (a + [Digit(m % 10)])[w - 1] == (b + [Digit(n % 10)])[w - 1];
      FixedInjective(m / 10, n / 10, w - 1);
    }
  }

  /** `%d` for a number that is not negative. */
  function Print(n: nat): (s: string)
    ensures |s| > 0 && AllDigits(s)
  {
    if n < 10 then [Digit(n)] else Print(n / 10) + [Digit(n % 10)]
  }

  predicate IsSpace(c: char) {
    c == ' ' || '\t' as int <= c as int <= '\r' as int
  }

  function SkipSpaces(s: string): (t: string)
    ensures |t| <= |s|
    ensures t == "" || !IsSpace(t[0])
  {
    if s == "" || !IsSpace(s[0]) then s else SkipSpaces(s[1..])
  }

  /** The value of the longest run of digits at the front of s, after the digits already read. */
  function Scan(s: string, acc: nat): nat {
    if s == "" || !IsDigit(s[0]) then acc else Scan(s[1..], 10 * acc + (s[0] as int - '0' as int))
  }

  /** `atoi`, over unbounded integers. */
  function Atoi(s: string): int {
    var t := SkipSpaces(s);
    if t != "" && t[0] == '-' then 0 - Scan(t[1..], 0)
    else if t != "" && t[0] == '+' then Scan(t[1..], 0)
    else Scan(t, 0)
  }

  lemma {:induction false} ScanSnoc(s: string, c: char, acc: nat)
    requires AllDigits(s) && IsDigit(c)
    ensures Scan(s + [c], acc) == 10 * Scan(s, acc) + (c as int - '0' as int)
  {
    if s == "" {
      assert ([c])[1..] == "";
    } else {
      assert (s + [c])[1..] == s[1..] + [c];
      ScanSnoc(s[1..], c, 10 * acc + (s[0] as int - '0' as int));
    }
  }

  lemma {:induction false} ScanPrint(n: nat)
    ensures Scan(Print(n), 0) == n
  {
    if n < 10 {
      assert Print(n)[1..] == "";
    } else {
      ScanPrint(n / 10);
      ScanSnoc(Print(n / 10), Digit(n % 10), 0);
    }
  }

  /** Reading a printed number gives the number back. */
  lemma AtoiPrint(n: nat)
    ensures Atoi(Print(n)) == n
  {
    ScanPrint(n);
  }

  lemma {:induction false} FixedIsDigits(n: nat, w: nat)
    ensures AllDigits(Fixed(n, w))
  {
    if w > 0 {
      FixedIsDigits(n / 10, w - 1);
    }
  }

  lemma {:induction false} ScanFixed(n: nat, w: nat)
    requires n < Power10(w)
    ensures Scan(Fixed(n, w), 0) == n
  {
    if w > 0 {
      ScanFixed(n / 10, w - 1);
      FixedIsDigits(n / 10, w - 1);
      ScanSnoc(Fixed(n / 10, w - 1), Digit(n % 10), 0);
    }
  }

  /** Reading a number printed at a fixed width gives the number back, if it fits. */
  lemma {:induction false} AtoiFixed(n: nat, w: nat)
    requires n < Power10(w)
    ensures Atoi(Fixed(n, w)) == n
  {
    ScanFixed(n, w);
    FixedIsDigits(n, w);
    if w > 0 {
      assert IsDigit(Fixed(n, w)[0]);
    }
  }

  lemma {:induction false} ScanStops(s: string, rest: string, acc: nat)
    requires rest == "" || !IsDigit(rest[0])
    ensures Scan(s + rest, acc) == if AllDigits(s) then Scan(s, acc) else Scan(s + rest, acc)
  {
    if s == "" {
      assert s + rest == rest;
    } else if IsDigit(s[0]) {
      assert (s + rest)[1..] == s[1..] + rest;
      ScanStops(s[1..], rest, 10 * acc + (s[0] as int - '0' as int));
      assert AllDigits(s) ==> AllDigits(s[1..]);
    }
  }

  /** A sign in front counts, and whatever follows the digits does not. */
  lemma {:induction false} AtoiSigned(n: nat, rest: string)
    requires rest == "" || !IsDigit(rest[0])
    ensures Atoi(Print(n) + rest) == n && Atoi("-" + Print(n) + rest) == 0 - n && Atoi("+" + Print(n) + rest) == n
  {
    var p := Print(n);
    ScanPrint(n);
    ScanStops(p, rest, 0);
    assert (p + rest)[0] == p[0] && IsDigit(p[0]);
    assert ("-" + p + rest)[1..] == p + rest && ("+" + p + rest)[1..] == p + rest;
  }
}
