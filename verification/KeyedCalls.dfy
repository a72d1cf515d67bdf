/**
 The generated call keys in the records: which generation gave an outbound call its key, and which calls can
 therefore share one.
 */
module KeyedCalls {
  import opened Streams
  import opened CallKeys
  import opened FloatingFields
  import opened IpIndex
  import opened CallTracking

  /** The Begin of an outbound call without a key of its own, whether or not the call is open already. */
  predicate TakesKey(e: Event) {
    e.Begin? && NeedsKey(e.fields)
  }

  /** The key of a generation, by its number among all generations. */
  function KeyOf(requests: seq<Request>, k: nat): string
    requires k < |requests|
  {
    Key(requests[k].prefix, requests[k].clock, k % SEQUENCE)
  }

  /** The generations before each event; an event that takes a key takes the next one. */
  ghost predicate Keyed(es: seq<Event>, requests: seq<Request>, at: seq<nat>) {
    && |at| == |es|
    && (forall i | 0 <= i < |es| :: at[i] <= |requests|)
    && (forall i | 0 <= i < |es| && TakesKey(es[i]) ::
          at[i] < |requests| && es[i].generated == KeyOf(requests, at[i]))
    && (forall i, j | 0 <= i < j < |es| && TakesKey(es[i]) :: at[i] < at[j])
  }

  /** An event is keyed if no key was needed or the generator made it one; others may have made some before. */
  lemma KeyedSnoc(es: seq<Event>, requests: seq<Request>, at: seq<nat>, e: Event, more: seq<Request>)
    requires Keyed(es, requests, at) && requests <= more
    requires TakesKey(e) ==> |requests| < |more| && e.generated == KeyOf(more, |requests|)
    ensures Keyed(es + [e], more, at + [|requests|])
  {
  }

  /** The position of the Begin that opened a call. */
  function Opening(es: seq<Event>, c: nat): (i: nat)
    requires Session(es, c).Some?
  {
    if Session(Front(es), c).Some? then Opening(Front(es), c) else |es| - 1
  }

  lemma {:induction false} OpeningBegins(es: seq<Event>, c: nat)
    requires Session(es, c).Some?
    ensures var i := Opening(es, c);
            && i < |es| && About(es[i], c) && es[i].Begin?
            && Session(es, c).value != [] && Session(es, c).value[0] == es[i]
  {
    if Session(Front(es), c).Some? {
      OpeningBegins(Front(es), c);
    }
  }

  /** It is the first Begin of the call behind its last Cleared. */
  lemma {:induction false} OpeningIsFirst(es: seq<Event>, c: nat)
    requires Session(es, c).Some?
    ensures var i := Opening(es, c);
            && i < |es| && Session(es[..i], c).None?
            && forall j | i < j < |es| :: es[j] != Cleared(c)
  {
    if Session(Front(es), c).Some? {
      OpeningIsFirst(Front(es), c);
      assert Front(es)[..Opening(Front(es), c)] == es[..Opening(es, c)];
    }
  }

  lemma StepKeepsKey(t: Table, s: Tracker, e: Event, c: nat)
    requires c in s.cdr && c in Step(t, s, e).0.cdr
    ensures Step(t, s, e).0.cdr[c].callkey == s.cdr[c].callkey
  {
  }

  /** A record has the key its opening Begin gave it, for as long as it lives. */
  lemma {:induction false} RecordKeepsKey(t: Table, es: seq<Event>, c: nat)
    requires Session(es, c).Some?
    ensures c in After(t, es).cdr
    ensures var i := Opening(es, c);
            && i < |es| && es[i].Begin?
            && After(t, es).cdr[c].callkey == NewRecord(es[i].fields, es[i].generated).callkey
  {
    RecordKnows(t, es, c);
    OpeningBegins(es, c);
    if Session(Front(es), c).Some? {
      RecordKeepsKey(t, Front(es), c);
      StepKeepsKey(t, After(t, Front(es)), Last(es), c);
    } else {
      RecordKnows(t, Front(es), c);
    }
  }

  /** An open outbound call whose opening Begin took a generated key. */
  ghost predicate HasGeneratedKey(es: seq<Event>, c: nat) {
    Session(es, c).Some? && Opening(es, c) < |es| && TakesKey(es[Opening(es, c)])
  }

  /** What the distance of the generations of two calls says of their keys. */
  ghost predicate KeysApart(t: Table, es: seq<Event>, at: seq<nat>, c: nat, d: nat)
    requires HasGeneratedKey(es, c) && HasGeneratedKey(es, d) && |at| == |es|
  {
    var k, l, calls := at[Opening(es, c)], at[Opening(es, d)], After(t, es).cdr;
    && k < l && c in calls && d in calls
    && (calls[c].callkey == calls[d].callkey ==> (l - k) % SEQUENCE == 0)
    && (l - k < SEQUENCE ==> calls[c].callkey != calls[d].callkey)
  }

  lemma {:induction false} TwoKeysApart(t: Table, es: seq<Event>, requests: seq<Request>, at: seq<nat>, c: nat, d: nat)
    requires Keyed(es, requests, at)
    requires HasGeneratedKey(es, c) && HasGeneratedKey(es, d) && Opening(es, c) < Opening(es, d)
    ensures KeysApart(t, es, at, c, d)
  {
    var k, l := at[Opening(es, c)], at[Opening(es, d)];
    RecordKeepsKey(t, es, c);
    RecordKeepsKey(t, es, d);
    SequenceGap(0, k, l);
    KeysOfSequence(requests[k], k % SEQUENCE, requests[l], l % SEQUENCE);
  }

  /**
   Two open outbound calls with generated keys share their key only if they took it a multiple of 10000
   generations apart; so they never do within 10000 generations.
   */
  lemma {:induction false} OutboundKeysDiffer(t: Table, es: seq<Event>, requests: seq<Request>, at: seq<nat>)
    requires Keyed(es, requests, at)
    ensures forall c: nat, d: nat | c != d && HasGeneratedKey(es, c) && HasGeneratedKey(es, d) ::
              if Opening(es, c) < Opening(es, d) then KeysApart(t, es, at, c, d) else KeysApart(t, es, at, d, c)
  {
    forall c: nat, d: nat | c != d && HasGeneratedKey(es, c) && HasGeneratedKey(es, d)
      ensures if Opening(es, c) < Opening(es, d) then KeysApart(t, es, at, c, d) else KeysApart(t, es, at, d, c)
    {
      OpeningBegins(es, c);
      OpeningBegins(es, d);
      if Opening(es, c) < Opening(es, d) {
        TwoKeysApart(t, es, requests, at, c, d);
      } else {
        TwoKeysApart(t, es, requests, at, d, c);
      }
    }
  }
}
