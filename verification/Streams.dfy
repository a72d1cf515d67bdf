/** Selections from a sequence of messages, and the order they keep. */
module Streams {

  function Front<T>(s: seq<T>): seq<T>
    requires s != []
  {
    s[..|s| - 1]
  }

  function Last<T>(s: seq<T>): T
    requires s != []
  {
    s[|s| - 1]
  }

  /** The messages marked r, in order. */
  function Picked<M, R(==)>(ms: seq<M>, marks: seq<R>, r: R): seq<M>
    requires |marks| == |ms|
  {
    if ms == [] then [] else Picked(Front(ms), Front(marks), r) + if Last(marks) == r then [Last(ms)] else []
  }

  lemma PickedSnoc<M, R>(ms: seq<M>, marks: seq<R>, m: M, mark: R, r: R)
    requires |marks| == |ms|
    ensures Picked(ms + [m], marks + [mark], r) == Picked(ms, marks, r) + if mark == r then [m] else []
  {
    assert Front(ms + [m]) == ms && Front(marks + [mark]) == marks;
  }

  /** With two marks, every message is picked under exactly one of them. */
  lemma {:induction false} PickedSplit<M, R>(ms: seq<M>, marks: seq<R>, a: R, b: R)
    requires |marks| == |ms| && a != b && forall i | 0 <= i < |marks| :: marks[i] == a || marks[i] == b
    ensures |Picked(ms, marks, a)| + |Picked(ms, marks, b)| == |ms|
  {
    if ms != [] {
      PickedSplit(Front(ms), Front(marks), a, b);
    }
  }

  lemma {:induction false} PickedNone<M, R>(ms: seq<M>, marks: seq<R>, r: R)
    requires |marks| == |ms| && r !in marks
    ensures Picked(ms, marks, r) == []
  {
    if ms != [] {
      assert Last(marks) in marks && forall x | x in Front(marks) :: x in marks;
      PickedNone(Front(ms), Front(marks), r);
    }
  }

  /** The messages one source contributed to a mixed stream. */
  function FromSource<M>(parcels: seq<(nat, M)>, source: nat): seq<M> {
    if parcels == [] then []
    else FromSource(Front(parcels), source) + if Last(parcels).0 == source then [Last(parcels).1] else []
  }

  lemma FromSourceSnoc<M>(parcels: seq<(nat, M)>, p: (nat, M), source: nat)
    ensures FromSource(parcels + [p], source) == FromSource(parcels, source) + if p.0 == source then [p.1] else []
  {
    assert Front(parcels + [p]) == parcels;
  }

  /** a is b with some elements left out. */
  predicate Sub<M(==)>(a: seq<M>, b: seq<M>)
    decreases |b|
  {
    a == [] || (b != [] && ((Last(a) == Last(b) && Sub(Front(a), Front(b))) || Sub(a, Front(b))))
  }

  /** Positions in b, one behind the other, at which the elements of a stand. */
  ghost predicate Places<M>(a: seq<M>, b: seq<M>, at: seq<nat>) {
    && |at| == |a|
    && (forall i | 0 <= i < |a| :: at[i] < |b| && b[at[i]] == a[i])
    && (forall i, j | 0 <= i < j < |a| :: at[i] < at[j])
  }

  lemma {:induction false} SubHasPlaces<M>(a: seq<M>, b: seq<M>) returns (at: seq<nat>)
    requires Sub(a, b)
    ensures Places(a, b, at)
    decreases |b|
  {
    if a == [] {
      at := [];
    } else if Last(a) == Last(b) && Sub(Front(a), Front(b)) {
      at := SubHasPlaces(Front(a), Front(b));
      at := at + [|b| - 1];
    } else {
      at := SubHasPlaces(a, Front(b));
    }
  }

  lemma SubSnoc<M>(a: seq<M>, b: seq<M>, x: M)
    requires Sub(a, b)
    ensures Sub(a, b + [x]) && Sub(a + [x], b + [x])
  {
    assert Front(b + [x]) == b && Front(a + [x]) == a;
  }

  lemma {:induction false} SubTransitive<M>(a: seq<M>, b: seq<M>, c: seq<M>)
    requires Sub(a, b) && Sub(b, c)
    ensures Sub(a, c)
    decreases |c|
  {
    if a != [] {
      if Last(b) == Last(c) && Sub(Front(b), Front(c)) {
        if Last(a) == Last(b) && Sub(Front(a), Front(b)) {
          SubTransitive(Front(a), Front(b), Front(c));
        } else {
          SubTransitive(a, Front(b), Front(c));
        }
      } else {
        SubTransitive(a, b, Front(c));
      }
    }
  }

  lemma {:induction false} PrefixIsSub<M>(a: seq<M>, b: seq<M>)
    requires a <= b
    ensures Sub(a, b)
    decreases |b|
  {
    if a == [] {
    } else if |a| == |b| {
      assert a == b;
      PrefixIsSub(Front(a), Front(b));
    } else {
      assert a <= Front(b);
      PrefixIsSub(a, Front(b));
    }
  }

  lemma {:induction false} PickedIsSub<M, R>(ms: seq<M>, marks: seq<R>, r: R)
    requires |marks| == |ms|
    ensures Sub(Picked(ms, marks, r), ms)
  {
    if ms != [] {
      var picked := Picked(Front(ms), Front(marks), r);
      PickedIsSub(Front(ms), Front(marks), r);
      SubSnoc(picked, Front(ms), Last(ms));
      assert Front(ms) + [Last(ms)] == ms && picked + [] == picked;
    }
  }

  lemma {:induction false} SubFromSource<M>(a: seq<(nat, M)>, b: seq<(nat, M)>, source: nat)
    requires Sub(a, b)
    ensures Sub(FromSource(a, source), FromSource(b, source))
    decreases |b|
  {
    if a != [] {
      var p, before := Last(b), FromSource(Front(b), source);
      if Last(a) == p && Sub(Front(a), Front(b)) {
        var kept := FromSource(Front(a), source);
        SubFromSource(Front(a), Front(b), source);
        SubSnoc(kept, before, p.1);
        assert kept + [] == kept && before + [] == before;
      } else {
        SubFromSource(a, Front(b), source);
        SubSnoc(FromSource(a, source), before, p.1);
        assert before + [] == before;
      }
    }
  }
}
