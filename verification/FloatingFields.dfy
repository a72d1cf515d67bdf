/**
 The floating part of a GED-188 message: a run of (tag, length, data) fields.
 A walker is a loop over an offset; it trusts the length byte, so it may read up to 255 octets past
 `size`, which the receive buffers of the program (8000 octets for messages of at most 5000) allow.
 */
module FloatingFields {

  type Octet = c: char | (c as int) < 256 witness '\0'

  datatype Field = Field(tag: nat, data: seq<Octet>)

  const CLIENT_ID_TAG := 1
  const AGENT_EXTENSION_TAG := 4
  const AGENT_ID_TAG := 5
  const ANI_TAG := 8
  const DNIS_TAG := 10
  const CALL_VAR_1_TAG := 13
  const CALL_VAR_3_TAG := 15
  const CONNECTION_DEVID_TAG := 25
  const CALLED_DEVID_TAG := 28
  const CLIENT_ADDRESS_TAG := 81

  /** Every octet a walker can touch lies inside the buffer. */
  predicate Readable(p: seq<Octet>, size: nat) {
    size + 256 <= |p|
  }

  function FieldAt(p: seq<Octet>, offset: nat, size: nat): Field
    requires Readable(p, size) && offset < size
  {
    Field(p[offset] as int, p[offset + 2..offset + 2 + p[offset + 1] as int])
  }

  function NextOffset(p: seq<Octet>, offset: nat, size: nat): (next: nat)
    requires Readable(p, size) && offset < size
    ensures offset + 2 <= next <= |p|
  {
    offset + 2 + p[offset + 1] as int
  }

  /** The fields a walker visits from an offset on, in order. */
  function Fields(p: seq<Octet>, offset: nat, size: nat): seq<Field>
    requires Readable(p, size)
    decreases size - offset
  {
    if offset >= size then []
    else [FieldAt(p, offset, size)] + Fields(p, NextOffset(p, offset, size), size)
  }

  /** The offset at which a walker stops. */
  function End(p: seq<Octet>, offset: nat, size: nat): (end: nat)
    requires Readable(p, size)
    ensures offset <= size ==> size <= end <= |p|
    decreases size - offset
  {
    if offset >= size then offset else End(p, NextOffset(p, offset, size), size)
  }

  predicate Sendable(f: Field) {
    f.tag < 256 && |f.data| < 256
  }

  function AsOctet(n: nat): (c: Octet)
    requires n < 256
    ensures c as int == n
  {
    n as char
  }

  function EncodeField(f: Field): seq<Octet>
    requires Sendable(f)
  {
    [AsOctet(f.tag), AsOctet(|f.data|)] + f.data
  }

  function Encode(fs: seq<Field>): seq<Octet>
    requires forall f | f in fs :: Sendable(f)
  {
    if fs == [] then [] else EncodeField(fs[0]) + Encode(fs[1..])
  }

  /** One octet for the tag, one for the length, and the data. */
  lemma FieldLayout(f: Field)
    requires Sendable(f)
    ensures var s := EncodeField(f);
            |s| == 2 + |f.data| && s[0] as int == f.tag && s[1] as int == |f.data| && s[2..] == f.data
  {
  }

  lemma {:induction false} VisitedFieldsAreSendable(p: seq<Octet>, offset: nat, size: nat)
    requires Readable(p, size)
    ensures forall f | f in Fields(p, offset, size) :: Sendable(f)
    decreases size - offset
  {
    if offset < size {
      VisitedFieldsAreSendable(p, NextOffset(p, offset, size), size);
    }
  }

  lemma SliceOfSlice<T>(s: seq<T>, a: nat, b: nat, i: nat, j: nat)
    requires a <= b <= |s| && i <= j <= b - a
    ensures s[a + i..a + j] == s[a..b][i..j]
  {
    var u, v := s[a + i..a + j], s[a..b][i..j];
    forall k | 0 <= k < |u|
      ensures u[k] == v[k]
    {
      assert v[k] == s[a..b][i + k] == s[a + (i + k)];
    }
  }

  lemma EncodedField(p: seq<Octet>, offset: nat, size: nat, f: Field, rest: seq<Octet>)
    requires Readable(p, size) && offset <= size && Sendable(f)
    requires p[offset..size] == EncodeField(f) + rest
    ensures offset < size && FieldAt(p, offset, size) == f
    ensures NextOffset(p, offset, size) <= size && p[NextOffset(p, offset, size)..size] == rest
  {
    var n, s := |f.data|, EncodeField(f) + rest;
    assert s[0] == AsOctet(f.tag) && s[1] == AsOctet(n) && s[2..2 + n] == f.data && s[2 + n..] == rest;
    assert p[offset] == p[offset..size][0] && p[offset + 1] == p[offset..size][1];
    SliceOfSlice(p, offset, size, 2, 2 + n);
    SliceOfSlice(p, offset, size, 2 + n, size - offset);
  }

  /** A walk over an encoded list visits exactly that list and stops exactly at its end. */
  lemma {:induction false} WalkVisitsEncodedFields(p: seq<Octet>, offset: nat, size: nat, fs: seq<Field>)
    requires Readable(p, size) && offset <= size
    requires forall f | f in fs :: Sendable(f)
    requires p[offset..size] == Encode(fs)
    ensures Fields(p, offset, size) == fs && End(p, offset, size) == size
    decreases |fs|
  {
    if fs != [] {
      EncodedField(p, offset, size, fs[0], Encode(fs[1..]));
      WalkVisitsEncodedFields(p, NextOffset(p, offset, size), size, fs[1..]);
      assert fs == [fs[0]] + fs[1..];
    }
  }

  lemma {:induction false} WalkedOctets(p: seq<Octet>, offset: nat, size: nat)
    requires Readable(p, size) && offset <= size
    requires forall f | f in Fields(p, offset, size) :: Sendable(f)
    ensures p[offset..End(p, offset, size)] == Encode(Fields(p, offset, size))
    decreases size - offset
  {
    if offset < size {
      var next, end := NextOffset(p, offset, size), End(p, offset, size);
      if next <= size {
        WalkedOctets(p, next, size);
      }
      assert end == End(p, next, size);
      assert Fields(p, offset, size)[1..] == Fields(p, next, size);
      assert p[offset..end] == [p[offset], p[offset + 1]] + p[offset + 2..next] + p[next..end];
    }
  }

  /** The walk stops at `size`, not past it, for exactly the buffers that hold whole fields. */
  lemma WalkStopsAtSizeIffWellFormed(p: seq<Octet>, size: nat)
    requires Readable(p, size)
    ensures End(p, 0, size) == size
       <==> exists fs: seq<Field> :: (forall f | f in fs :: Sendable(f)) && p[..size] == Encode(fs)
  {
    VisitedFieldsAreSendable(p, 0, size);
    WalkedOctets(p, 0, size);
    assert p[0..size] == p[..size];
    forall fs: seq<Field> | (forall f | f in fs :: Sendable(f)) && p[..size] == Encode(fs)
      ensures End(p, 0, size) == size
    {
      WalkVisitsEncodedFields(p, 0, size, fs);
    }
  }

  /** The C text held by a zeroed buffer after the data is copied to its front. */
  function CText(data: seq<Octet>): (s: string)
    ensures |s| <= |data| && s == data[..|s|] && '\0' !in s
    ensures |s| < |data| ==> data[|s|] == '\0'
  {
    if data == [] || data[0] == '\0' then "" else [data[0]] + CText(data[1..])
  }

  /** What a text filled by `strcpy` on every field with this tag holds at the end of the walk. */
  function LastText(fs: seq<Field>, tag: nat): string {
    if fs == [] then ""
    else if fs[|fs| - 1].tag == tag then CText(fs[|fs| - 1].data)
    else LastText(fs[..|fs| - 1], tag)
  }

  /** LastText is the text of the last field with that tag, and empty when there is none. */
  lemma {:induction false} LastTextIsLastOccurrence(fs: seq<Field>, tag: nat, i: nat)
    requires i < |fs| && fs[i].tag == tag
    requires forall j | i < j < |fs| :: fs[j].tag != tag
    ensures LastText(fs, tag) == CText(fs[i].data)
  {
    if i < |fs| - 1 {
      LastTextIsLastOccurrence(fs[..|fs| - 1], tag, i);
    }
  }

  lemma {:induction false} LastTextOfAbsentTag(fs: seq<Field>, tag: nat)
    requires forall i | 0 <= i < |fs| :: fs[i].tag != tag
    ensures LastText(fs, tag) == ""
  {
    if fs != [] {
      LastTextOfAbsentTag(fs[..|fs| - 1], tag);
    }
  }

  lemma LastTextSnoc(fs: seq<Field>, f: Field, tag: nat)
    ensures LastText(fs + [f], tag) == if f.tag == tag then CText(f.data) else LastText(fs, tag)
  {
    assert (fs + [f])[..|fs|] == fs;
  }

  lemma FieldsStep(seen: seq<Field>, p: seq<Octet>, offset: nat, size: nat)
    requires Readable(p, size) && offset < size
    ensures seen + Fields(p, offset, size)
         == seen + [FieldAt(p, offset, size)] + Fields(p, NextOffset(p, offset, size), size)
    ensures End(p, offset, size) == End(p, NextOffset(p, offset, size), size)
  {
  }

  datatype BeginTexts = BeginTexts(connection: string, ani: string, dnis: string, variable1: string, variable3: string)

  function BeginTextsOf(fs: seq<Field>): BeginTexts {
    BeginTexts(LastText(fs, CONNECTION_DEVID_TAG), LastText(fs, ANI_TAG), LastText(fs, DNIS_TAG),
               LastText(fs, CALL_VAR_1_TAG), LastText(fs, CALL_VAR_3_TAG))
  }

  function Taken(t: BeginTexts, f: Field): BeginTexts {
    var buf := CText(f.data);
    if f.tag == CONNECTION_DEVID_TAG then t.(connection := buf)
    else if f.tag == ANI_TAG then t.(ani := buf)
    else if f.tag == DNIS_TAG then t.(dnis := buf)
    else if f.tag == CALL_VAR_1_TAG then t.(variable1 := buf)
    else if f.tag == CALL_VAR_3_TAG then t.(variable3 := buf)
    else t
  }

  lemma BeginTextsSnoc(fs: seq<Field>, f: Field)
    ensures BeginTextsOf(fs + [f]) == Taken(BeginTextsOf(fs), f)
  {
    LastTextSnoc(fs, f, CONNECTION_DEVID_TAG);
    LastTextSnoc(fs, f, ANI_TAG);
    LastTextSnoc(fs, f, DNIS_TAG);
    LastTextSnoc(fs, f, CALL_VAR_1_TAG);
    LastTextSnoc(fs, f, CALL_VAR_3_TAG);
  }

  /** The switch on the tag: the data is copied to a zeroed buffer, and its text from there. */
  method TakeField(t: BeginTexts, tag: nat, data: seq<Octet>) returns (taken: BeginTexts)
    ensures taken == Taken(t, Field(tag, data))
  {
    var buf := CText(data);
    taken := t;
    if tag == CONNECTION_DEVID_TAG {
      taken := t.(connection := buf);
    } else if tag == ANI_TAG {
      taken := t.(ani := buf);
    } else if tag == DNIS_TAG {
      taken := t.(dnis := buf);
    } else if tag == CALL_VAR_1_TAG {
      taken := t.(variable1 := buf);
    } else if tag == CALL_VAR_3_TAG {
      taken := t.(variable3 := buf);
    }
  }

  /** The walker of a BEGIN_CALL event. */
  method WalkBeginCall(p: seq<Octet>, size: nat) returns (t: BeginTexts, offset: nat)
    requires Readable(p, size)
    ensures t == BeginTextsOf(Fields(p, 0, size))
    ensures offset == End(p, 0, size)
  {
    t, offset := BeginTexts("", "", "", "", ""), 0;
    ghost var seen: seq<Field> := [];
    while offset < size
      invariant offset <= |p| && Fields(p, 0, size) == seen + Fields(p, offset, size)
      invariant End(p, 0, size) == End(p, offset, size)
      invariant t == BeginTextsOf(seen)
      decreases size - offset
    {
      ghost var f, next := FieldAt(p, offset, size), NextOffset(p, offset, size);
      ghost var upTo := seen + [f];
      FieldsStep(seen, p, offset, size);
      BeginTextsSnoc(seen, f);
      var tag := p[offset] as int;
      var length := p[offset + 1] as int;
      offset := offset + 2;
      assert f == Field(tag, p[offset..offset + length]);
      t := TakeField(t, tag, p[offset..offset + length]);
      assert t == BeginTextsOf(upTo);
      offset := offset + length;
      assert offset == next;
      seen := upTo;
    }
    assert Fields(p, offset, size) == [] && seen + [] == seen;
  }

  /** The walkers of the other events keep at most one text each per tag; this one keeps three. */
  method WalkTexts(p: seq<Octet>, size: nat, tag1: nat, tag2: nat, tag3: nat)
    returns (text1: string, text2: string, text3: string, offset: nat)
    requires Readable(p, size)
    requires tag1 != tag2 && tag1 != tag3 && tag2 != tag3
    ensures text1 == LastText(Fields(p, 0, size), tag1)
    ensures text2 == LastText(Fields(p, 0, size), tag2)
    ensures text3 == LastText(Fields(p, 0, size), tag3)
    ensures offset == End(p, 0, size)
  {
    text1, text2, text3, offset := "", "", "", 0;
    ghost var seen: seq<Field> := [];
    while offset < size
      invariant offset <= |p| && Fields(p, 0, size) == seen + Fields(p, offset, size)
      invariant End(p, 0, size) == End(p, offset, size)
      invariant text1 == LastText(seen, tag1) && text2 == LastText(seen, tag2) && text3 == LastText(seen, tag3)
      decreases size - offset
    {
      ghost var f, next := FieldAt(p, offset, size), NextOffset(p, offset, size);
      FieldsStep(seen, p, offset, size);
      var tag := p[offset] as int;
      var length := p[offset + 1] as int;
      offset := offset + 2;
      var buf := CText(p[offset..offset + length]);
      if tag == tag1 {
        text1 := buf;
      } else if tag == tag2 {
        text2 := buf;
      } else if tag == tag3 {
        text3 := buf;
      }
      assert f == Field(tag, p[offset..offset + length]) && buf == CText(f.data);
      offset := offset + length;
      assert offset == next;
      LastTextSnoc(seen, f, tag1);
      LastTextSnoc(seen, f, tag2);
      LastTextSnoc(seen, f, tag3);
      seen := seen + [f];
    }
    assert Fields(p, offset, size) == [] && seen + [] == seen;
  }

  /** The octets ClientID writes: the length byte counts the text and its NUL, modulo 256. */
  function ClientIdOctets(id: seq<Octet>): seq<Octet>
  {
    [AsOctet(CLIENT_ID_TAG), AsOctet((|id| + 1) % 256)] + id + ['\0']
  }

  /** Writes a client id field to the front of a buffer; the reported size is an unsigned char. */
  method ClientId(buf: array<Octet>, id: seq<Octet>) returns (total: nat)
    requires |id| < 256 && |id| + 3 <= buf.Length
    modifies buf
    ensures buf[..|id| + 3] == ClientIdOctets(id)
    ensures buf[|id| + 3..] == old(buf[|id| + 3..])
    ensures total == (|id| + 3) % 256
  {
    buf[0] := AsOctet(CLIENT_ID_TAG);
    if |id| > 0 {
      buf[1] := AsOctet((|id| + 1) % 256);
      for i := 0 to |id|
        invariant buf[0] == AsOctet(CLIENT_ID_TAG) && buf[1] == AsOctet((|id| + 1) % 256)
        invariant forall k | 0 <= k < i :: buf[2 + k] == id[k]
        invariant forall k | |id| + 2 <= k < buf.Length :: buf[k] == old(buf[k])
      {
        buf[2 + i] := id[i];
      }
      buf[2 + |id|] := '\0';
      total := (2 + |id| + 1) % 256;
    } else {
      buf[1] := AsOctet(1);
      buf[2] := '\0';
      total := 3;
    }
    assert buf[2..2 + |id|] == id;
    assert buf[..|id| + 3] == [buf[0], buf[1]] + buf[2..2 + |id|] + [buf[2 + |id|]];
  }

  /** The walk over `total` octets finds the client id, whole and alone. */
  ghost predicate HoldsClientId(p: seq<Octet>, total: nat, id: seq<Octet>)
    requires Readable(p, total)
  {
    Fields(p, 0, total) == [Field(1, id + ['\0'])] && End(p, 0, total) == total
  }

  lemma ClientIdTooLong(p: seq<Octet>, id: seq<Octet>, total: nat)
    requires 252 < |id| < 256 && |id| + 3 + 256 <= |p| && total == |id| - 253
    requires p[..|id| + 3] == ClientIdOctets(id)
    ensures !HoldsClientId(p, total, id)
  {
    assert p[1] == p[..|id| + 3][1];
    if total > 0 {
      assert Fields(p, 0, total)[0] == FieldAt(p, 0, total);
      assert |FieldAt(p, 0, total).data| == (|id| + 1) % 256;
      if total == 1 {
        assert NextOffset(p, 0, 1) == 257;
      }
    }
  }

  lemma {:induction false} CTextOfTerminated(id: seq<Octet>)
    requires '\0' !in id
    ensures CText(id + ['\0']) == id
  {
    var s := id + ['\0'];
    assert s[|id|] == '\0' && s[..|id|] == id;
  }

  lemma ClientIdFits(p: seq<Octet>, id: seq<Octet>)
    requires |id| <= 252 && |id| + 3 + 256 <= |p|
    requires p[..|id| + 3] == ClientIdOctets(id)
    ensures HoldsClientId(p, |id| + 3, id)
  {
    var total := |id| + 3;
    assert p[0] == p[..total][0] && p[1] == p[..total][1];
    assert p[2..total] == p[..total][2..] == id + ['\0'];
    assert NextOffset(p, 0, total) == total;
  }

  /**
   A client id field reads back, with nothing left over, exactly when the text has at most 252 octets:
   from 253 on the reported size wraps, and at 255 the length byte does too.
   */
  lemma ClientIdReadsBack(p: seq<Octet>, id: seq<Octet>)
    requires |id| < 256 && |id| + 3 + 256 <= |p|
    requires p[..|id| + 3] == ClientIdOctets(id)
    ensures HoldsClientId(p, (|id| + 3) % 256, id) <==> |id| <= 252
  {
    if |id| <= 252 {
      ClientIdFits(p, id);
    } else {
      ClientIdTooLong(p, id, |id| - 253);
    }
  }
}
