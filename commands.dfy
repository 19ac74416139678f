/**
 * The two server-side commands of lib/commands.js, `publish` and `subscribe`,
 * with the per-subscription listener that filters what reaches the
 * requester's stream, and the round boundary (`tick`) that clears the set of
 * origins already served.
 *
 * The hash ring's `allocatedToMe` is a parameter of each call that consults
 * it; the local message bus, the stream transport and the tracker are
 * represented by the logs they leave: listeners registered, messages
 * emitted, stream writes, stream teardowns and live trackers.
 */
module Commands {
  import opened Wrappers
  import ExtractBase

  /** A peer's identity, the `from` of a subscribe request. */
  type Peer = string

  datatype Message = Message(topic: string, payload: string)

  /** The requester's `messages` stream; `hasDestroy` says whether it has a `destroy` method. */
  datatype Stream = Stream(id: nat, hasDestroy: bool)

  /** How a stream was torn down: `stream.destroy()` or `stream.end()`. */
  datatype Teardown = Destroyed(stream: nat) | Ended(stream: nat)

  /**
   * The handler's answer. `Thrown`: the handler raised an exception before
   * replying (calling a `destroy` the stream does not have), so no reply is sent.
   */
  datatype Reply = Ack | Error(reason: string) | Thrown

  /** What the `publish` handler did: replied itself, or handed the message to the bus, whose completion replies. */
  datatype PublishOutcome = Replied(reply: Reply) | Emitted

  datatype SubscribeRequest = SubscribeRequest(
    topic: string,
    key: Option<string>,
    from: Peer,
    messages: Option<Stream>)

  /** One subscription accepted by the `subscribe` handler. */
  datatype Subscription = Subscription(topic: string, dest: Peer, stream: Stream, tracked: bool)

  const InstanceClosing: string := "instance closing"
  const MissingStream: string := "missing messages stream"
  const Closing: string := "closing"

  /** `req.key` is truthy: present and not the empty string. */
  predicate Keyed(key: Option<string>)
  {
    key.Some? && key.value != ""
  }

  /** The teardown of a stream: `destroy()` when it has one, `end()` otherwise. */
  function TeardownOf(s: Stream): (t: Teardown)
    ensures t.stream == s.id
    ensures t.Destroyed? <==> s.hasDestroy
  {
    if s.hasDestroy then Destroyed(s.id) else Ended(s.id)
  }

  /**
   * The decisions of the `subscribe` handler for one request: its reply,
   * whether a listener is registered on the bus, whether a tracker follows
   * the key, and which teardown (if any) the requester's stream gets.
   */
  datatype Admission = Admission(reply: Reply, register: bool, track: bool, teardown: Option<Teardown>)

  function Admit(req: SubscribeRequest, closed: bool, allocatedToMe: string -> bool): (a: Admission)
    ensures req.messages.None? ==> a == Admission(Error(MissingStream), false, false, None)
    ensures req.messages.Some? && closed && req.messages.value.hasDestroy ==>
      a == Admission(Error(Closing), false, false, Some(Destroyed(req.messages.value.id)))
    ensures req.messages.Some? && closed && !req.messages.value.hasDestroy ==>
      a == Admission(Thrown, false, false, None)
    ensures a.register <==> req.messages.Some? && !closed
    ensures a.reply == Ack <==> a.register
    ensures a.track <==> a.register && Keyed(req.key) && allocatedToMe(req.key.value)
    ensures a.register ==>
      a.teardown == (if Keyed(req.key) && !allocatedToMe(req.key.value)
                     then Some(TeardownOf(req.messages.value)) else None)
  {
    match req.messages
    case None => Admission(Error(MissingStream), false, false, None)
    case Some(stream) =>
      if closed then
        if stream.hasDestroy then Admission(Error(Closing), false, false, Some(Destroyed(stream.id)))
        else Admission(Thrown, false, false, None)
      else if Keyed(req.key) then
        if allocatedToMe(req.key.value) then Admission(Ack, true, true, None)
        else Admission(Ack, true, false, Some(TeardownOf(stream)))
      else
        Admission(Ack, true, false, None)
  }

  /** The listener's verdict on one message. */
  datatype Decision = Duplicate | NotAllocated | Write

  /**
   * The listener of a subscription from `dest`: a duplicate when `dest` was
   * already served this round, dropped when the topic's key is not owned
   * here, written otherwise.
   */
  function Decide(destSet: set<Peer>, dest: Peer, topic: string, allocatedToMe: string -> bool): (d: Decision)
    ensures d == Duplicate <==> dest in destSet
    ensures d == NotAllocated <==> dest !in destSet && !allocatedToMe(ExtractBase.ExtractBase(topic))
    ensures d == Write <==> dest !in destSet && allocatedToMe(ExtractBase.ExtractBase(topic))
  {
    if dest in destSet then Duplicate
    else if !allocatedToMe(ExtractBase.ExtractBase(topic)) then NotAllocated
    else Write
  }

  /**
   * One listener invocation: the subscription's origin, the message, and the
   * ring's answer at that moment on whether the message's key is owned here.
   */
  datatype Delivery = Delivery(dest: Peer, msg: Message, owned: bool)

  /**
   * The origins written, in order, when the listeners are invoked for
   * `deliveries` within one round, starting from the origins in `seen`.
   */
  function RoundWrites(seen: set<Peer>, deliveries: seq<Delivery>): (r: seq<Peer>)
    ensures |r| <= |deliveries|
    ensures forall i :: 0 <= i < |r| ==> r[i] !in seen
    decreases |deliveries|
  {
    if deliveries == [] then []
    else
      var d := deliveries[0];
      if d.dest !in seen && d.owned then [d.dest] + RoundWrites(seen + {d.dest}, deliveries[1..])
      else RoundWrites(seen, deliveries[1..])
  }

  predicate Distinct(s: seq<Peer>)
  {
    forall i, j :: 0 <= i < j < |s| ==> s[i] != s[j]
  }

  /** The set of elements of a sequence. */
  function Elements(s: seq<Peer>): set<Peer>
  {
    set i | 0 <= i < |s| :: s[i]
  }

  lemma ElementsOne(p: Peer)
    ensures Elements([p]) == {p}
  {
    assert [p][0] == p;
  }

  lemma ElementsConcat(a: seq<Peer>, b: seq<Peer>)
    ensures Elements(a + b) == Elements(a) + Elements(b)
  {
    forall p | p in Elements(a + b) ensures p in Elements(a) + Elements(b) {
      var i :| 0 <= i < |a + b| && (a + b)[i] == p;
      if i >= |a| {
        assert b[i - |a|] == p;
      }
    }
    forall p | p in Elements(a) + Elements(b) ensures p in Elements(a + b) {
      if p in Elements(a) {
        var i :| 0 <= i < |a| && a[i] == p;
        assert (a + b)[i] == p;
      } else {
        var i :| 0 <= i < |b| && b[i] == p;
        assert (a + b)[|a| + i] == p;
      }
    }
  }

  /** Within one round, each origin is written at most once, and never one already seen. */
  lemma {:induction false} AtMostOneWritePerOrigin(seen: set<Peer>, deliveries: seq<Delivery>)
    ensures Distinct(RoundWrites(seen, deliveries))
    ensures forall p :: p in RoundWrites(seen, deliveries) ==> p !in seen
    decreases |deliveries|
  {
    if deliveries != [] {
      var d := deliveries[0];
      if d.dest !in seen && d.owned {
        AtMostOneWritePerOrigin(seen + {d.dest}, deliveries[1..]);
      } else {
        AtMostOneWritePerOrigin(seen, deliveries[1..]);
      }
    }
  }

  /**
   * One more listener invocation extends the round: its origin is written
   * when it was neither seen before nor written yet this round, and the key
   * is owned here.
   */
  lemma {:induction false} RoundWritesSnoc(seen: set<Peer>, deliveries: seq<Delivery>, d: Delivery)
    ensures RoundWrites(seen, deliveries + [d]) ==
      RoundWrites(seen, deliveries) +
      (if d.dest !in seen + Elements(RoundWrites(seen, deliveries)) && d.owned then [d.dest] else [])
    decreases |deliveries|
  {
    if deliveries == [] {
      assert deliveries + [d] == [d];
      assert Elements([]) == {};
    } else {
      var e := deliveries[0];
      var rest := deliveries[1..];
      assert (deliveries + [d])[0] == e;
      assert (deliveries + [d])[1..] == rest + [d];
      if e.dest !in seen && e.owned {
        RoundWritesSnoc(seen + {e.dest}, rest, d);
        ElementsConcat([e.dest], RoundWrites(seen + {e.dest}, rest));
        ElementsOne(e.dest);
      } else {
        RoundWritesSnoc(seen, rest, d);
      }
    }
  }

  /**
   * An origin is written in a round exactly when it was not seen before and
   * at least one of its deliveries has a topic whose key was owned here.
   */
  lemma {:induction false} WrittenIffOwnedDelivery(seen: set<Peer>, deliveries: seq<Delivery>, p: Peer)
    ensures p in RoundWrites(seen, deliveries) <==>
      p !in seen &&
      exists i :: 0 <= i < |deliveries| && deliveries[i].dest == p && deliveries[i].owned
    decreases |deliveries|
  {
    if deliveries != [] {
      var d := deliveries[0];
      var rest := deliveries[1..];
      if d.dest !in seen && d.owned {
        WrittenIffOwnedDelivery(seen + {d.dest}, rest, p);
        if p != d.dest && p !in seen && p in RoundWrites(seen, deliveries) {
          var i :| 0 <= i < |rest| && rest[i].dest == p && rest[i].owned;
          assert deliveries[i + 1] == rest[i];
        }
        if p != d.dest && p !in seen && p !in RoundWrites(seen, deliveries) {
          forall i | 0 <= i < |deliveries| && deliveries[i].dest == p
            ensures !deliveries[i].owned
          {
            assert i > 0;
            assert rest[i - 1] == deliveries[i];
          }
        }
        if p == d.dest {
          assert deliveries[0].dest == p && deliveries[0].owned;
        }
      } else {
        WrittenIffOwnedDelivery(seen, rest, p);
        if p !in seen && p in RoundWrites(seen, deliveries) {
          var i :| 0 <= i < |rest| && rest[i].dest == p && rest[i].owned;
          assert deliveries[i + 1] == rest[i];
        }
        if p !in seen && p !in RoundWrites(seen, deliveries) {
          forall i | 0 <= i < |deliveries| && deliveries[i].dest == p
            ensures !deliveries[i].owned
          {
            if i > 0 {
              assert rest[i - 1] == deliveries[i];
            }
          }
        }
      }
    }
  }

  /** The state `load(pubsub)` keeps for one instance. */
  class Server {
    /** `pubsub.closed`, set by the instance when it shuts down. */
    var closed: bool
    /** Origins already written to during the current round. */
    var destSet: set<Peer>
    /** Subscriptions accepted so far, by id. */
    var subs: map<nat, Subscription>
    var nextSub: nat

    /** Subscriptions whose listener is registered on the local bus. */
    ghost var listeners: set<nat>
    /** Subscriptions whose tracker has not been ended. */
    ghost var trackers: set<nat>
    /** Messages handed to the local bus by `publish`. */
    ghost var emitted: seq<Message>
    /** `stream.write(data)` calls, in order. */
    ghost var writes: seq<(Stream, Message)>
    /** Streams destroyed or ended, in order. */
    ghost var teardowns: seq<Teardown>
    /** Origins written to since the last tick, in order. */
    ghost var round: seq<Peer>
    /** Listener invocations since the last tick, in order. */
    ghost var calls: seq<Delivery>

    ghost predicate Valid()
      reads this
    {
      && (forall id :: id in subs ==> id < nextSub)
      && listeners <= subs.Keys
      && trackers <= subs.Keys
      && (forall id :: id in trackers ==> subs[id].tracked)
      && round == RoundWrites({}, calls)
      && Distinct(round)
      && destSet == Elements(round)
    }

    /** `load(pubsub)` on an open instance: an empty set of origins, nothing registered. */
    constructor ()
      ensures Valid()
      ensures !closed && destSet == {} && subs == map[] && nextSub == 0
      ensures listeners == {} && trackers == {}
      ensures emitted == [] && writes == [] && teardowns == [] && round == [] && calls == []
    {
      closed := false;
      destSet := {};
      subs := map[];
      nextSub := 0;
      listeners := {};
      trackers := {};
      emitted := [];
      writes := [];
      teardowns := [];
      round := [];
      calls := [];
    }

    /** The instance starts closing. */
    method Close()
      modifies this
      ensures closed
      ensures destSet == old(destSet) && subs == old(subs) && nextSub == old(nextSub)
      ensures listeners == old(listeners) && trackers == old(trackers)
      ensures emitted == old(emitted) && writes == old(writes) && teardowns == old(teardowns)
      ensures round == old(round) && calls == old(calls)
    {
      closed := true;
    }

    /** The `publish` command: refused while closing, otherwise the message goes to the local bus. */
    method Publish(msg: Message) returns (outcome: PublishOutcome)
      requires Valid()
      modifies this`emitted
      ensures Valid()
      ensures old(closed) ==> outcome == Replied(Error(InstanceClosing)) && emitted == old(emitted)
      ensures !old(closed) ==> outcome == Emitted && emitted == old(emitted) + [msg]
    {
      if closed {
        outcome := Replied(Error(InstanceClosing));
        return;
      }
      emitted := emitted + [msg];
      outcome := Emitted;
    }

    /**
     * The `subscribe` command. An accepted request gets the next subscription
     * id; its listener is registered before the reply is sent.
     */
    method Subscribe(req: SubscribeRequest, allocatedToMe: string -> bool) returns (reply: Reply, id: Option<nat>)
      requires Valid()
      modifies this
      ensures Valid()
      ensures closed == old(closed) && destSet == old(destSet) && round == old(round) && calls == old(calls)
      ensures emitted == old(emitted) && writes == old(writes)
      ensures var a := Admit(req, old(closed), allocatedToMe);
        && reply == a.reply
        && teardowns == old(teardowns) + (if a.teardown.Some? then [a.teardown.value] else [])
        && (!a.register ==>
              id == None && subs == old(subs) && nextSub == old(nextSub) &&
              listeners == old(listeners) && trackers == old(trackers))
        && (a.register ==>
              && id == Some(old(nextSub))
              && nextSub == old(nextSub) + 1
              && subs == old(subs)[old(nextSub) := Subscription(req.topic, req.from, req.messages.value, a.track)]
              && listeners == old(listeners) + {old(nextSub)}
              && trackers == old(trackers) + (if a.track then {old(nextSub)} else {}))
    {
      if req.messages.None? {
        reply, id := Error(MissingStream), None;
        return;
      }
      var stream := req.messages.value;
      if closed {
        if stream.hasDestroy {
          teardowns := teardowns + [Destroyed(stream.id)];
          reply := Error(Closing);
        } else {
          // `stream.destroy` is not a function: the handler throws before replying
          reply := Thrown;
        }
        id := None;
        return;
      }
      var sub := nextSub;
      nextSub := nextSub + 1;
      var tracked := false;
      if Keyed(req.key) {
        if allocatedToMe(req.key.value) {
          // the tracker's `move` event is handled by OnMove
          tracked := true;
          trackers := trackers + {sub};
        } else {
          // removeListener runs before the listener is registered below, so it removes nothing
          listeners := listeners - {sub};
          teardowns := teardowns + [TeardownOf(stream)];
        }
      }
      subs := subs[sub := Subscription(req.topic, req.from, stream, tracked)];
      // end-of-stream is handled by StreamClosed
      listeners := listeners + {sub};
      reply, id := Ack, Some(sub);
    }

    /**
     * The listener of subscription `id` invoked by the bus with `data`; the
     * ring is asked whether the key of `data.topic` is owned here.
     */
    method Listener(id: nat, data: Message, allocatedToMe: string -> bool) returns (d: Decision)
      requires Valid() && id in listeners
      modifies this`destSet, this`writes, this`round, this`calls
      ensures Valid()
      ensures d == Decide(old(destSet), subs[id].dest, data.topic, allocatedToMe)
      ensures calls == old(calls) + [Delivery(subs[id].dest, data, allocatedToMe(ExtractBase.ExtractBase(data.topic)))]
      ensures d != Write ==> destSet == old(destSet) && writes == old(writes) && round == old(round)
      ensures d == Write ==>
        && writes == old(writes) + [(subs[id].stream, data)]
        && destSet == old(destSet) + {subs[id].dest}
        && round == old(round) + [subs[id].dest]
    {
      var sub := subs[id];
      var owned := allocatedToMe(ExtractBase.ExtractBase(data.topic));
      var delivery := Delivery(sub.dest, data, owned);
      RoundWritesSnoc({}, calls, delivery);
      calls := calls + [delivery];
      if sub.dest in destSet {
        d := Duplicate;
      } else if !owned {
        d := NotAllocated;
      } else {
        writes := writes + [(sub.stream, data)];
        destSet := destSet + {sub.dest};
        ElementsConcat(round, [sub.dest]);
        ElementsOne(sub.dest);
        round := round + [sub.dest];
        AtMostOneWritePerOrigin({}, calls);
        d := Write;
      }
    }

    /** `tick`, run at the round boundary: every origin may be written to again. */
    method Tick()
      requires Valid()
      modifies this`destSet, this`round, this`calls
      ensures Valid()
      ensures destSet == {} && round == [] && calls == []
    {
      destSet := {};
      round := [];
      calls := [];
      assert Elements(round) == {};
    }

    /** The tracker's `move` event: the key moved away, so the subscription is torn down. */
    method OnMove(id: nat)
      requires Valid() && id in trackers
      modifies this`listeners, this`teardowns
      ensures Valid()
      ensures listeners == old(listeners) - {id}
      ensures teardowns == old(teardowns) + [TeardownOf(subs[id].stream)]
    {
      listeners := listeners - {id};
      teardowns := teardowns + [TeardownOf(subs[id].stream)];
    }

    /** End of the requester's stream: the tracker (if any) is ended and the listener removed. */
    method StreamClosed(id: nat)
      requires Valid() && id in subs
      modifies this`listeners, this`trackers
      ensures Valid()
      ensures listeners == old(listeners) - {id}
      ensures trackers == old(trackers) - {id}
    {
      if subs[id].tracked {
        trackers := trackers - {id};
      }
      listeners := listeners - {id};
    }
  }
}
