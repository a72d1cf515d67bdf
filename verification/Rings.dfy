/**
 The fixed ring every queue of the program keeps its messages in: 200 slots between the CTI socket and the
 CTI handler, 100 before each VAS handler, 700 before the extra VAS. It refines a bounded FIFO sequence.
 */
module Rings {

  const MAX_CTI_QUEUE_SIZE := 200
  const MAX_VAS_QUEUE_SIZE := 100
  const MAX_VAS_EXTRA_QUEUE_SIZE := 700

  /** What a bounded queue does with one more message: take it, or refuse it when it is full. */
  function Push<T>(q: seq<T>, x: T, capacity: nat): seq<T> {
    if |q| < capacity then q + [x] else q
  }

  /** The slots in queue order, starting from the tail. */
  function Rotated<T>(s: seq<T>, k: nat): (r: seq<T>)
    requires k <= |s|
    ensures |r| == |s|
  {
    s[k..] + s[..k]
  }

  function Wrap(k: nat, n: nat): nat {
    if k < n then k else k - n
  }

  lemma RotatedUpdate<T>(s: seq<T>, k: nat, i: nat, x: T)
    requires k < |s| && i < |s|
    ensures Rotated(s[Wrap(k + i, |s|) := x], k) == Rotated(s, k)[i := x]
  {
  }

  lemma RotatedAdvance<T>(s: seq<T>, k: nat, blank: T)
    requires k < |s|
    ensures Rotated(s[k := blank], Wrap(k + 1, |s|)) == Rotated(s, k)[1..] + [blank]
  {
  }

  lemma ShiftedContents<T>(was: seq<T>, size: nat, blank: T)
    requires 0 < size <= |was|
    ensures [was[0]] + (was[1..] + [blank])[..size - 1] == was[..size]
  {
  }

  /** The size the program once derived from head and tail; it could not tell a full ring from an empty one. */
  lemma DerivedSizeFailsOnlyWhenFull(head: nat, tail: nat, size: nat, n: nat)
    requires 0 < n && tail < n && size <= n && head == Wrap(tail + size, n)
    ensures (head - tail + n) % n == size <==> size < n
  {
  }

  class Ring<T> {
    const slots: array<T>
    const blank: T
    var head: int
    var tail: int
    var size: int

    ghost predicate Valid()
      reads this, slots
    {
      && 0 < slots.Length && 0 <= tail < slots.Length && 0 <= size <= slots.Length
      && head == Wrap(tail + size, slots.Length)
      && (forall i | size <= i < slots.Length :: Rotated(slots[..], tail)[i] == blank)
    }

    ghost function Contents(): (q: seq<T>)
      requires Valid()
      reads this, slots
      ensures |q| == size
    {
      Rotated(slots[..], tail)[..size]
    }

    constructor (capacity: nat, blank: T)
      requires capacity > 0
      ensures Valid() && fresh(slots) && slots.Length == capacity && this.blank == blank && Contents() == []
    {
      this.blank := blank;
      slots := new T[capacity](_ => blank);
      head, tail, size := 0, 0, 0;
    }

    /** The part of an enqueue that runs under the lock; the caller posts the semaphore on success. */
    method Enqueue(x: T) returns (ok: bool)
      requires Valid()
      modifies this, slots
      ensures Valid() && ok == (|old(Contents())| < slots.Length)
      ensures Contents() == Push(old(Contents()), x, slots.Length)
    {
      ok := size < slots.Length;
      if ok {
        ghost var was := Rotated(slots[..], tail);
        RotatedUpdate(slots[..], tail, size, x);
        slots[head] := x;
        assert Rotated(slots[..], tail) == was[size := x];
        head := head + 1;
        if head == slots.Length {
          head := 0;
        }
        size := size + 1;
      }
    }

    /** Takes the oldest message and blanks its slot; the final clamp of the size never fires. */
    method Dequeue() returns (ok: bool, x: T)
      requires Valid()
      modifies this, slots
      ensures Valid() && ok == (old(Contents()) != [])
      ensures ok ==> [x] + Contents() == old(Contents()) && slots[old(tail)] == blank && size == old(size) - 1
      ensures !ok ==> Contents() == [] && x == blank
    {
      ok, x := size > 0, blank;
      if ok {
        ghost var was := Rotated(slots[..], tail);
        RotatedAdvance(slots[..], tail, blank);
        ShiftedContents(was, size, blank);
        x := slots[tail];
        slots[tail] := blank;
        tail := tail + 1;
        if tail == slots.Length {
          tail := 0;
        }
        size := size - 1;
        size := if size < 0 then 0 else size;
        assert Rotated(slots[..], tail) == was[1..] + [blank];
      }
    }
  }
}
