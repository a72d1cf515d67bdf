/**
 The CTI interface handler: the object whose methods update the call map in place, walk the floating
 part of each message and hand notices to the VAS queues. Each handler refines one step of the tracker
 in CallTracking, and Parse keeps the object equal to the tracker's run over all events so far.
 */
module CtiHandling {
  import opened FloatingFields
  import IpIndex
  import CallKeys
  import opened CallTracking
  import opened CallIndependence
  import opened KeyedCalls

  /** The state is the tracker's after these events, and the keys in them come from the generator. */
  ghost predicate Follows(t: IpIndex.Table, es: seq<Event>, s: Tracker, outbox: seq<Notice>,
                          requests: seq<CallKeys.Request>, generations: seq<nat>) {
    s == After(t, es) && outbox == Log(t, es) && Keyed(es, requests, generations)
  }

  lemma {:induction false} FollowsSnoc(t: IpIndex.Table, es: seq<Event>, s: Tracker, outbox: seq<Notice>,
                                       requests: seq<CallKeys.Request>, generations: seq<nat>,
                                       e: Event, more: seq<CallKeys.Request>)
    requires Follows(t, es, s, outbox, requests, generations) && requests <= more
    requires TakesKey(e) ==> |requests| < |more| && e.generated == KeyOf(more, |requests|)
    ensures var (next, sent) := Step(t, s, e);
            && Follows(t, es + [e], next, outbox + sent, more, generations + [|requests|])
            && outbox <= outbox + sent
            && (forall n | n in (outbox + sent)[|outbox|..] && n.kind == 'E' :: RepeatsLastStart(t, es, n))
  {
    RunSnoc(t, es, e);
    NewEndsRepeatStarts(t, es, e);
    KeyedSnoc(es, requests, generations, e, more);
  }

  lemma UpdateTwice<K, V>(m: map<K, V>, k: K, a: V, b: V)
    ensures m[k := a][k := b] == m[k := b]
  {
  }

  class CtiIfHandler {
    const ranges: IpIndex.VasIndex
    const keys: CallKeys.CallKeyGenerator
    const prefix: string
    var cdr: map<nat, Record>
    var lastInbound: bool
    /** The notices given to EnqueueMessage of the VAS handlers so far. */
    var outbox: seq<Notice>
    /** The events parsed so far, and how many keys had been generated before each of them. */
    ghost var history: seq<Event>
    ghost var generations: seq<nat>

    ghost function Table(): IpIndex.Table
      reads ranges
    {
      ranges.index.table
    }

    ghost function State(): Tracker
      reads this
    {
      Tracker(cdr, lastInbound)
    }

    ghost predicate Ready()
      reads ranges, ranges.ip01, ranges.range, keys
    {
      ranges.Valid() && keys.Valid()
    }

    /** The call map and the notices are those of the tracker after the events parsed so far, its keys generated. */
    ghost predicate Valid()
      reads this, ranges, ranges.ip01, ranges.range, keys
    {
      Ready() && Follows(Table(), history, State(), outbox, keys.requests, generations)
    }

    constructor (ranges: IpIndex.VasIndex, keys: CallKeys.CallKeyGenerator, prefix: string)
      requires ranges.Valid() && keys.Valid()
      ensures Valid() && history == [] && this.ranges == ranges && this.keys == keys && this.prefix == prefix
    {
      this.ranges, this.keys, this.prefix := ranges, keys, prefix;
      cdr, lastInbound, outbox, history, generations := map[], true, [], [], [];
    }

    method SendScsEventToVasQueue(call: nat, kind: char)
      requires Ready() && call in cdr
      modifies this`outbox
      ensures outbox == old(outbox) + Send(Table(), call, cdr[call], kind)
    {
      var it := cdr[call];
      var vas := ranges.GetVasNo(it.agentIp);
      if vas != -1 {
        outbox := outbox + [Notice(vas, kind, call, it.cid, it.callkey, it.agentExt, it.agentId, it.agentIp)];
      }
    }

    method OnBeginCallEvent(call: nat, p: seq<Octet>, size: nat, clock: CallKeys.Clock)
      requires Ready() && Readable(p, size)
      modifies this`cdr, this`lastInbound, keys
      ensures Ready()
      ensures var e := Begin(call, Fields(p, 0, size), CallKeys.Key(prefix, clock, old(keys.sequence)));
              (State(), []) == Step(Table(), old(State()), e)
      ensures keys.requests == if NeedsKey(Fields(p, 0, size))
                               then old(keys.requests) + [CallKeys.Request(prefix, clock)] else old(keys.requests)
    {
      var texts, _ := WalkBeginCall(p, size);
      lastInbound := true;
      if |texts.connection| > 0 && |texts.ani| > 0 {
        if texts.connection == texts.ani {
          if |texts.connection| == 5 && |texts.ani| == 5 {
            lastInbound := false;
          }
        }
      }
      var ifv := Record(texts.variable3, texts.variable1, "", texts.dnis, "", 0, 0, lastInbound, false);
      if !lastInbound {
        if ifv.callkey == "" {
          var key := keys.Generate(prefix, clock);
          ifv := ifv.(callkey := key);
        }
        ifv := ifv.(awaiting := true);
      }
      if call !in cdr {
        cdr := cdr[call := ifv];
      }
    }

    /** The record part of Established. */
    method EstablishRecord(call: nat, called: string)
      requires Ready() && call in cdr
      modifies this`cdr, this`outbox
      ensures var (r, sent) := OnEstablished(Table(), call, old(cdr)[call], called);
              cdr == old(cdr)[call := r] && outbox == old(outbox) + sent
    {
      var it := cdr[call];
      if !it.inbound {
        var vas := ranges.GetVasNo(it.agentIp);
        if vas > 0 {
          it := it.(cid := called);
          cdr := cdr[call := it];
          SendScsEventToVasQueue(call, 'S');
        }
        cdr := cdr[call := it.(awaiting := false)];
      }
    }

    method OnCallEstablishedEvent(call: nat, p: seq<Octet>, size: nat)
      requires Ready() && Readable(p, size)
      modifies this`cdr, this`outbox
      ensures call !in old(cdr) ==> cdr == old(cdr) && outbox == old(outbox)
      ensures call in old(cdr) ==>
                var called := LastText(Fields(p, 0, size), CALLED_DEVID_TAG);
                var (r, sent) := OnEstablished(Table(), call, old(cdr)[call], called);
                cdr == old(cdr)[call := r] && outbox == old(outbox) + sent
    {
      var called, _, _, _ := WalkTexts(p, size, CALLED_DEVID_TAG, CONNECTION_DEVID_TAG, ANI_TAG);
      if call in cdr {
        EstablishRecord(call, called);
      }
    }

    /** The tail both directions of a call share: announce the start when the agent's address is mapped. */
    method StartIfMapped(call: nat, ip: string)
      requires Ready() && call in cdr
      modifies this`cdr, this`outbox
      ensures var (r, sent) := Started(Table(), call, old(cdr)[call], ip);
              cdr == old(cdr)[call := r] && outbox == old(outbox) + sent
    {
      var it := cdr[call];
      if it.inbound || !it.awaiting {
        if it.rtpStarted >= 1 {
          var vas := ranges.GetVasNo(ip);
          if vas > 0 {
            SendScsEventToVasQueue(call, 'S');
            cdr := cdr[call := it.(rtpStarted := 0)];
          }
        }
      }
    }

    /** The record part of an RTP start. */
    method Hear(call: nat, direction: nat, ip: string, extension: string, id: string)
      requires call in cdr
      modifies this`cdr
      ensures var it := old(cdr)[call];
              cdr == old(cdr)[call := Heard(it.(rtpStarted := it.rtpStarted + 1), direction, ip, extension, id)]
    {
      var it := cdr[call].(rtpStarted := cdr[call].rtpStarted + 1);
      if direction == 0 {
        if it.inbound {
          it := Record(it.cid, it.callkey, id, it.agentExt, ip, it.rtpStarted, 0, true, false);
        } else {
          it := it.(agentIp := ip, agentId := id, agentExt := extension);
        }
      }
      cdr := cdr[call := it];
    }

    method StartRecord(call: nat, direction: nat, ip: string, extension: string, id: string)
      requires Ready() && call in cdr
      modifies this`cdr, this`outbox
      ensures var (r, sent) := OnRtpStarted(Table(), call, old(cdr)[call], direction, ip, extension, id);
              cdr == old(cdr)[call := r] && outbox == old(outbox) + sent
    {
      var address := if direction == 0 then ip else "";
      ghost var it := cdr[call];
      ghost var heard := Heard(it.(rtpStarted := it.rtpStarted + 1), direction, ip, extension, id);
      UpdateTwice(cdr, call, heard, Started(Table(), call, heard, address).0);
      Hear(call, direction, ip, extension, id);
      StartIfMapped(call, address);
    }

    method OnRTPStartedEvent(call: nat, direction: nat, p: seq<Octet>, size: nat)
      requires Ready() && Readable(p, size)
      modifies this`cdr, this`outbox
      ensures call !in old(cdr) ==> cdr == old(cdr) && outbox == old(outbox)
      ensures call in old(cdr) ==>
                var fs := Fields(p, 0, size);
                var (r, sent) := OnRtpStarted(Table(), call, old(cdr)[call], direction,
                                              LastText(fs, CLIENT_ADDRESS_TAG), LastText(fs, AGENT_EXTENSION_TAG),
                                              LastText(fs, AGENT_ID_TAG));
                cdr == old(cdr)[call := r] && outbox == old(outbox) + sent
    {
      var ip, extension, id, _ := WalkTexts(p, size, CLIENT_ADDRESS_TAG, AGENT_EXTENSION_TAG, AGENT_ID_TAG);
      if call in cdr {
        StartRecord(call, direction, ip, extension, id);
      }
    }

    method StopIfMapped(call: nat, ip: string)
      requires Ready() && call in cdr
      modifies this`cdr, this`outbox
      ensures var (r, sent) := Stopped(Table(), call, old(cdr)[call], ip);
              cdr == old(cdr)[call := r] && outbox == old(outbox) + sent
    {
      var it := cdr[call];
      if it.rtpStopped >= 1 {
        var vas := ranges.GetVasNo(ip);
        if vas > 0 {
          SendScsEventToVasQueue(call, 'E');
          cdr := cdr[call := it.(rtpStopped := 0)];
        }
      }
    }

    method OnRTPStoppedEvent(call: nat, p: seq<Octet>, size: nat)
      requires Ready() && Readable(p, size)
      modifies this`cdr, this`outbox
      ensures call !in old(cdr) ==> cdr == old(cdr) && outbox == old(outbox)
      ensures call in old(cdr) ==>
                var ip := LastText(Fields(p, 0, size), CLIENT_ADDRESS_TAG);
                var (r, sent) := OnRtpStopped(Table(), call, old(cdr)[call], ip);
                cdr == old(cdr)[call := r] && outbox == old(outbox) + sent
    {
      var ip, _, _, _ := WalkTexts(p, size, CLIENT_ADDRESS_TAG, AGENT_EXTENSION_TAG, AGENT_ID_TAG);
      if call in cdr {
        var it := cdr[call].(rtpStopped := cdr[call].rtpStopped + 1);
        UpdateTwice(cdr, call, it, Stopped(Table(), call, it, ip).0);
        cdr := cdr[call := it];
        StopIfMapped(call, ip);
      }
    }

    method OnCallClearedEvent(call: nat)
      modifies this`cdr
      ensures (State(), []) == Step(Table(), old(State()), Cleared(call))
    {
      if call in cdr {
        cdr := cdr - {call};
      } else {
        assert cdr == cdr - {call};
      }
    }

    /** The switch on the message type; the handlers of all other types only print. */
    method Dispatch(messageType: nat, call: nat, direction: nat, p: seq<Octet>, size: nat, clock: CallKeys.Clock)
      requires Ready() && Readable(p, size)
      modifies this`cdr, this`lastInbound, this`outbox, keys
      ensures Ready()
      ensures var m := Message(messageType, call, direction, Fields(p, 0, size),
                               CallKeys.Key(prefix, clock, old(keys.sequence)));
              var (next, sent) := Step(Table(), old(State()), Parsed(m));
              && State() == next && outbox == old(outbox) + sent
              && keys.requests == if TakesKey(Parsed(m)) then old(keys.requests) + [CallKeys.Request(prefix, clock)]
                                  else old(keys.requests)
    {
      if messageType == MT_BEGIN_CALL_EVENT {
        OnBeginCallEvent(call, p, size, clock);
      } else if messageType == MT_CALL_ESTABLISHED_EVENT {
        OnCallEstablishedEvent(call, p, size);
      } else if messageType == MT_CALL_CLEARED_EVENT {
        OnCallClearedEvent(call);
      } else if messageType == MT_RTP_STARTED_EVENT {
        OnRTPStartedEvent(call, direction, p, size);
      } else if messageType == MT_RTP_STOPPED_EVENT {
        OnRTPStoppedEvent(call, p, size);
      }
    }

    /**
     Handles one message of the CTI queue. Every end notice it sends for a settled call repeats the last
     start notice of that call.
     */
    method Parse(messageType: nat, call: nat, direction: nat, p: seq<Octet>, size: nat, clock: CallKeys.Clock)
      requires Valid() && Readable(p, size)
      modifies this, keys
      ensures Valid()
      ensures var m := Message(messageType, call, direction, Fields(p, 0, size),
                               CallKeys.Key(prefix, clock, old(keys.sequence)));
              history == old(history) + [Parsed(m)]
      ensures old(outbox) <= outbox
      ensures forall n | n in outbox[|old(outbox)|..] && n.kind == 'E' :: RepeatsLastStart(Table(), old(history), n)
    {
      ghost var e := Parsed(Message(messageType, call, direction, Fields(p, 0, size),
                                    CallKeys.Key(prefix, clock, keys.sequence)));
      ghost var before := keys.requests;
      Dispatch(messageType, call, direction, p, size, clock);
      FollowsSnoc(Table(), history, old(State()), old(outbox), before, generations, e, keys.requests);
      history, generations := history + [e], generations + [|before|];
    }
  }
}
