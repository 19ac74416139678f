/**
 * The client side of a subscription (lib/receiver.js): a Receiver issues
 * subscribe requests, either through the hash ring (keyed topics) or to
 * each listed peer (wildcard fan-out), keeps the set of ReceiverStreams it
 * created, and resubscribes when the source piped into one of them closes.
 *
 * A ReceiverStream is identified by the id it got when it was created; its
 * state (the peer it stores, the attempt count captured by its `pipe`
 * handler, the source piped into it) is a record in `records`. Requests
 * issued and sources destroyed are logged in `requests` and
 * `destroyedSources`.
 */
module Receiver {
  import opened Wrappers

  type Peer = string

  /** `_sendPeer` gives up once its attempt count is above this. */
  const MaxAttempts: int := 5

  datatype Request =
    | RingRequest(key: Option<string>, topic: string, stream: nat)
    | PeerRequest(peer: Peer, topic: string, stream: nat)

  /**
   * The second argument of `_sendPeer`: a number, or the callback that
   * `steed.each` passes in that position.
   */
  datatype CountArg = Count(n: int) | Callback

  /** The attempt count `_sendPeer` works with: a callback in place of the count means 1. */
  function Attempt(c: CountArg): (n: int)
    ensures c.Callback? ==> n == 1
    ensures c.Count? ==> n == c.n
  {
    match c
    case Count(n) => n
    case Callback => 1
  }

  /** A ReceiverStream: the peer it stores, the count its `pipe` handler captured, the source piped in. */
  datatype StreamRecord = StreamRecord(peer: Option<Peer>, count: int, source: Option<nat>)

  datatype SendResult = Sent | AlreadyDestroyed

  /** The ids `lo`, ..., `hi - 1`. */
  function Ids(lo: nat, hi: nat): (ids: set<nat>)
    ensures forall i :: i in ids <==> lo <= i < hi
    decreases hi - lo
  {
    if lo >= hi then {} else Ids(lo, hi - 1) + {hi - 1}
  }

  /** `m` with the ids `lo`, ..., `hi - 1` that it lacks mapped to `r`. */
  function Extend(m: map<nat, StreamRecord>, lo: nat, hi: nat, r: StreamRecord): (m': map<nat, StreamRecord>)
    ensures m'.Keys == m.Keys + Ids(lo, hi)
    ensures forall i :: i in m ==> m'[i] == m[i]
    ensures forall i :: lo <= i < hi && i !in m ==> m'[i] == r
  {
    map i | i in m.Keys + Ids(lo, hi) :: if i in m then m[i] else r
  }

  /** One subscribe request per listed peer, in order, on streams numbered from `first`. */
  function PeerRequests(peers: seq<Peer>, topic: string, first: nat): (rs: seq<Request>)
    ensures |rs| == |peers|
    ensures forall i :: 0 <= i < |peers| ==> rs[i] == PeerRequest(peers[i], topic, first + i)
  {
    seq(|peers|, i requires 0 <= i < |peers| => PeerRequest(peers[i], topic, first + i))
  }

  /**
   * The requests `send` issues on a receiver that is not destroyed: one per
   * listed peer when it has a peer list (an empty list is still a list),
   * otherwise one keyed request through the ring.
   */
  function SendRequests(topic: string, key: Option<string>, peers: Option<seq<Peer>>, first: nat): (rs: seq<Request>)
    ensures peers.Some? ==> rs == PeerRequests(peers.value, topic, first)
    ensures peers.None? ==> rs == [RingRequest(key, topic, first)]
  {
    match peers
    case Some(ps) => PeerRequests(ps, topic, first)
    case None => [RingRequest(key, topic, first)]
  }

  /** The count the streams made by `send` capture: 1 through `_sendPeer`, 0 through the ring. */
  function SendAttempt(peers: Option<seq<Peer>>): int
  {
    if peers.Some? then 1 else 0
  }

  /** The sources piped into the streams `ids`. */
  function PipedSources(ids: set<nat>, records: map<nat, StreamRecord>): set<nat>
  {
    set id | id in ids && id in records && records[id].source.Some? :: records[id].source.value
  }

  class Receiver {
    const topic: string
    const key: Option<string>
    const peers: Option<seq<Peer>>
    /** How many local listeners share this receiver. */
    var count: int
    /** The streams currently held. */
    var streams: set<nat>
    var destroyed: bool
    /** Every stream created so far, by id. */
    var records: map<nat, StreamRecord>
    var nextId: nat
    /** Subscribe requests issued, in order. */
    var requests: seq<Request>
    /** Sources destroyed by this receiver. */
    var destroyedSources: set<nat>

    ghost predicate Valid()
      reads this
    {
      && streams <= records.Keys
      && (forall id :: id in records ==> id < nextId)
    }

    /** No stream remembers a peer: the ReceiverStream constructor drops its `peer` argument. */
    ghost predicate PeersNeverStored()
      reads this
    {
      forall id :: id in records ==> records[id].peer.None?
    }

    /** `new Receiver(mq, topic, key, peers)`. With a peer list, `PeerUp` subscribes to joining peers. */
    constructor (topic: string, key: Option<string>, peers: Option<seq<Peer>>)
      ensures Valid() && PeersNeverStored()
      ensures this.topic == topic && this.key == key && this.peers == peers
      ensures count == 1 && !destroyed && streams == {}
      ensures records == map[] && nextId == 0 && requests == [] && destroyedSources == {}
    {
      this.topic := topic;
      this.key := key;
      this.peers := peers;
      count := 1;
      streams := {};
      destroyed := false;
      records := map[];
      nextId := 0;
      requests := [];
      destroyedSources := {};
    }

    /** `stream(peer, count)`: a new ReceiverStream, added to `streams`. */
    method Stream(peer: Option<Peer>, attempt: int) returns (id: nat)
      requires Valid()
      modifies this`streams, this`records, this`nextId
      ensures Valid()
      ensures old(PeersNeverStored()) ==> PeersNeverStored()
      ensures id == old(nextId) && nextId == id + 1
      ensures streams == old(streams) + {id}
      ensures records == old(records)[id := StreamRecord(None, attempt, None)]
    {
      id := nextId;
      nextId := nextId + 1;
      // the ReceiverStream constructor never stores `peer`
      records := records[id := StreamRecord(None, attempt, None)];
      streams := streams + {id};
    }

    /** `_sendPeer(peer, count, cb)`: one subscribe request to `peer`, unless the count is above 5. */
    method SendPeer(peer: Peer, c: CountArg) returns (issued: bool)
      requires Valid()
      modifies this`streams, this`records, this`nextId, this`requests
      ensures Valid()
      ensures old(PeersNeverStored()) ==> PeersNeverStored()
      ensures issued <==> Attempt(c) <= MaxAttempts
      ensures !issued ==>
        streams == old(streams) && records == old(records) && nextId == old(nextId) && requests == old(requests)
      ensures issued ==>
        && nextId == old(nextId) + 1
        && requests == old(requests) + [PeerRequest(peer, topic, old(nextId))]
        && streams == old(streams) + {old(nextId)}
        && records == old(records)[old(nextId) := StreamRecord(None, Attempt(c), None)]
    {
      var attempt := Attempt(c);
      if attempt > MaxAttempts {
        issued := false;
        return;
      }
      var id := Stream(Some(peer), attempt);
      requests := requests + [PeerRequest(peer, topic, id)];
      issued := true;
    }

    /** `send(done)`: subscribe through every listed peer or through the ring; refused once destroyed. */
    method Send() returns (r: SendResult)
      requires Valid()
      modifies this`streams, this`records, this`nextId, this`requests
      ensures Valid()
      ensures old(PeersNeverStored()) ==> PeersNeverStored()
      ensures r == AlreadyDestroyed <==> destroyed
      ensures destroyed ==>
        streams == old(streams) && records == old(records) && nextId == old(nextId) && requests == old(requests)
      ensures !destroyed ==>
        var sent := SendRequests(topic, key, peers, old(nextId));
        && requests == old(requests) + sent
        && nextId == old(nextId) + |sent|
        && streams == old(streams) + Ids(old(nextId), nextId)
        && records == Extend(old(records), old(nextId), nextId, StreamRecord(None, SendAttempt(peers), None))
    {
      if destroyed {
        r := AlreadyDestroyed;
        return;
      }
      if peers.Some? {
        var ps := peers.value;
        var i := 0;
        while i < |ps|
          invariant 0 <= i <= |ps|
          invariant Valid()
          invariant old(PeersNeverStored()) ==> PeersNeverStored()
          invariant nextId == old(nextId) + i
          invariant requests == old(requests) + PeerRequests(ps[..i], topic, old(nextId))
          invariant streams == old(streams) + Ids(old(nextId), nextId)
          invariant records == Extend(old(records), old(nextId), nextId, StreamRecord(None, 1, None))
        {
          var issued := SendPeer(ps[i], Callback);
          assert PeerRequests(ps[..i + 1], topic, old(nextId))
              == PeerRequests(ps[..i], topic, old(nextId)) + [PeerRequest(ps[i], topic, old(nextId) + i)];
          i := i + 1;
        }
        assert ps[..i] == ps;
      } else {
        var id := Stream(None, 0);
        requests := requests + [RingRequest(key, topic, id)];
      }
      r := Sent;
    }

    /** The `peerUp` handler, registered only when the receiver has a peer list. */
    method PeerUp(peer: Peer)
      requires Valid()
      modifies this`streams, this`records, this`nextId, this`requests
      ensures Valid()
      ensures old(PeersNeverStored()) ==> PeersNeverStored()
      ensures peers.None? ==>
        streams == old(streams) && records == old(records) && nextId == old(nextId) && requests == old(requests)
      ensures peers.Some? ==>
        && nextId == old(nextId) + 1
        && requests == old(requests) + [PeerRequest(peer, topic, old(nextId))]
        && streams == old(streams) + {old(nextId)}
        && records == old(records)[old(nextId) := StreamRecord(None, 1, None)]
    {
      if peers.Some? {
        var issued := SendPeer(peer, Count(1));
      }
    }

    /**
     * `unsubscribe()`: marks the receiver destroyed. Its `for...in` loop
     * enumerates the properties of a `Set` object, of which there are none,
     * so no stream is touched.
     */
    method Unsubscribe()
      modifies this`destroyed
      ensures destroyed
      ensures destroyedSources == old(destroyedSources) && streams == old(streams)
    {
      if destroyed {
        return;
      }
      destroyed := true;
    }

    /** `unsubscribe()` as evidently intended: the source of every piped stream is destroyed. */
    method UnsubscribeIntended()
      requires Valid()
      modifies this`destroyed, this`destroyedSources
      ensures destroyed && streams == old(streams)
      ensures old(destroyed) ==> destroyedSources == old(destroyedSources)
      ensures !old(destroyed) ==> destroyedSources == old(destroyedSources) + PipedSources(streams, records)
    {
      if destroyed {
        return;
      }
      destroyed := true;
      var todo := streams;
      while todo != {}
        invariant destroyed && todo <= streams
        invariant destroyedSources == old(destroyedSources) + PipedSources(streams - todo, records)
        decreases todo
      {
        var id :| id in todo;
        var done := streams - todo;
        if records[id].source.Some? {
          destroyedSources := destroyedSources + {records[id].source.value};
          assert PipedSources(done + {id}, records) == PipedSources(done, records) + {records[id].source.value};
        } else {
          assert PipedSources(done + {id}, records) == PipedSources(done, records);
        }
        todo := todo - {id};
        assert streams - todo == done + {id};
      }
    }

    /**
     * The `pipe` event of stream `id`: the source is recorded, and destroyed
     * when the receiver is already destroyed.
     */
    method Piped(id: nat, source: nat)
      requires Valid() && id in records
      modifies this`records, this`destroyedSources
      ensures Valid()
      ensures old(PeersNeverStored()) ==> PeersNeverStored()
      ensures records == old(records)[id := old(records)[id].(source := Some(source))]
      ensures destroyedSources == old(destroyedSources) + (if destroyed then {source} else {})
    {
      records := records[id := records[id].(source := Some(source))];
      if destroyed {
        destroyedSources := destroyedSources + {source};
      }
    }

    /**
     * End of the source piped into stream `id`: the stream leaves `streams`
     * and, unless the receiver is destroyed, a new subscription is issued,
     * through `_sendPeer` when the stream stores a peer and through `send`
     * otherwise.
     */
    method SourceClosed(id: nat)
      requires Valid() && id in records && records[id].source.Some?
      modifies this`streams, this`records, this`nextId, this`requests
      ensures Valid()
      ensures old(PeersNeverStored()) ==> PeersNeverStored()
      ensures id !in streams && old(streams) - {id} <= streams
      ensures destroyed ==>
        streams == old(streams) - {id} && records == old(records) && nextId == old(nextId) && requests == old(requests)
      ensures !destroyed && old(records)[id].peer.None? ==>
        var sent := SendRequests(topic, key, peers, old(nextId));
        && requests == old(requests) + sent
        && nextId == old(nextId) + |sent|
        && streams == (old(streams) - {id}) + Ids(old(nextId), nextId)
        && records == Extend(old(records), old(nextId), nextId, StreamRecord(None, SendAttempt(peers), None))
      ensures !destroyed && old(records)[id].peer.Some? ==>
        var attempt := old(records)[id].count + 1;
        && (attempt <= MaxAttempts ==>
              requests == old(requests) + [PeerRequest(old(records)[id].peer.value, topic, old(nextId))])
        && (attempt > MaxAttempts ==> requests == old(requests))
      ensures old(PeersNeverStored()) && !destroyed ==>
        requests == old(requests) + SendRequests(topic, key, peers, old(nextId))
    {
      var rec := records[id];
      streams := streams - {id};
      if !destroyed {
        if rec.peer.Some? {
          var issued := SendPeer(rec.peer.value, Count(rec.count + 1));
        } else {
          var r := Send();
        }
      }
    }
  }

  /**
   * `unsubscribe` leaves a piped source open: after subscribing through the
   * ring, piping source 7 into the stream and unsubscribing, the source is
   * not destroyed and the stream is still held.
   */
  method UnsubscribeLeavesSourceOpen() returns (open: bool)
    ensures open
  {
    var r := new Receiver("hello/0", Some("hello/0"), None);
    var sent := r.Send();
    r.Piped(0, 7);
    r.Unsubscribe();
    open := 7 !in r.destroyedSources && 0 in r.streams;
  }

  /** The intended `unsubscribe` destroys that source. */
  method UnsubscribeIntendedClosesSource() returns (closed: bool)
    ensures closed
  {
    var r := new Receiver("hello/0", Some("hello/0"), None);
    var sent := r.Send();
    r.Piped(0, 7);
    r.UnsubscribeIntended();
    assert PipedSources(r.streams, r.records) == {7};
    closed := 7 in r.destroyedSources;
  }

  /**
   * With a peer list `[a, b]`, the close of the stream from `a` resubscribes
   * through `send`: two new requests, one to each peer, on streams whose
   * captured count is again 1.
   */
  method PeerStreamResubscribesToAll() returns (issued: int, attempts: int)
    ensures issued == 2 && attempts == 1
  {
    var r := new Receiver("+/x", None, Some(["a", "b"]));
    var sent := r.Send();
    r.Piped(0, 7);
    var before := |r.requests|;
    r.SourceClosed(0);
    issued := |r.requests| - before;
    attempts := r.records[2].count;
  }
}
