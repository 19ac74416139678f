# upring-pubsub routing core in Dafny

A model of the parts of upring-pubsub that make decisions. upring-pubsub is a topic-based publish/subscribe overlay over a consistent-hashing ring of peers. The model covers five pieces:

- **Topic levels** (`Levels`). JavaScript's `topic.split('/')`, defined through the index of the first separator, with its inverse `Join`. Both extractBase.js and hasLowWildcard.js start from it. Empty levels are kept, and a topic without `/` is one level.
- **Routing key** (`ExtractBase`, lib/extractBase.js). A topic is cut down to its first level, or its first two levels, and that prefix chooses the owning peer.
- **Low-level wildcard** (`LowWildcard`, lib/hasLowWildcard.js). Is `#` or `+` the first or second level? A missing second level is `undefined` in JavaScript and matches neither marker, so it is modelled as `None`.
- **Wrapping counter** (`Counter`, lib/counter.js). A class with the closure's `current` field and a ghost count of calls. `Next` returns the old value and wraps to 0 after `max` = 2^31 - 1.
- **Server commands** (`Commands`, lib/commands.js). A `Server` class holds:
  - the instance's `closed` flag and the shared `destSet`;
  - the accepted subscriptions;
  - ghost logs of registered listeners, live trackers, emitted messages, stream writes, stream teardowns, and the listener calls and origins written since the last tick.

  Three pure functions hold the decisions: `Admit` (what `subscribe` does with a request), `Decide` (the listener's filter) and `RoundWrites` (a whole round of listener calls). `tick` is the explicit `Tick` method.
- **Client receiver** (`Receiver`, lib/receiver.js). A `Receiver` class holds `destroyed`, `count` and the `streams` set. Each ReceiverStream is an id, and its state is a record:
  - the peer it stores;
  - the attempt count captured by its `pipe` handler;
  - the source piped into it.

  Issued requests and destroyed sources are logged.

`allocatedToMe` comes from the ring and may change between calls. It is a `string -> bool` parameter of each operation that consults it.

The model follows the code in these places, where it does something unexpected:
- `ReceiverStream` never stores its `peer` argument (lib/receiver.js:119-125). So every stream record has no peer (`PeersNeverStored`), and a closed source always resubscribes through `send`.
  - In peer mode that sends a new request to every listed peer, not just the one whose stream closed.
  - The new streams capture attempt count 1 again, so the `count > 5` bound of `_sendPeer` is never reached through resubscription (`PeerStreamResubscribesToAll`).
- A keyed subscribe whose key is not owned here calls `removeListener` before the listener is registered (lib/commands.js:93 and 111). That removal does nothing.
  - The stream is torn down, but the listener is still registered and the reply is still `Ack`.
  - The end-of-stream handler (`StreamClosed`) removes the listener later.
- `_sendPeer` and the `peerUp` handler do not check `destroyed`. After `unsubscribe`, a joining peer still gets a subscribe request.

lib/commands.js has no replication to the ring successor, no replica flag, no replica-specific duplicate rule and no replica registration; the model has none either.

## Model

| member | source | states |
|---|---|---|
| `Levels.Split` | lib/extractBase.js:5 | `split('/')` yields at least one level, and no level contains the separator |
| `Levels.JoinSplit` | lib/extractBase.js:5 | joining the levels with `/` gives the topic back, so nothing is lost, empty levels included |
| `Levels.SplitJoin` | lib/hasLowWildcard.js:5 | splitting joined separator-free levels gives exactly those levels, so `Join` is the inverse of `Split` |
| `Levels.SplitCount` | lib/extractBase.js:5-7 | a topic has one more level than it has `/`, so `levels.length < 2` exactly when there is no separator |
| `Levels.SplitCons` | lib/hasLowWildcard.js:5 | the levels of `a/rest`, for a separator-free `a`, are `a` followed by the levels of `rest` |
| `ExtractBase.ExtractBase` | lib/extractBase.js:4-14 | the key is a prefix of the topic with at most one `/`; a one-level topic is its own key; second level `#` gives the first level; otherwise the key is the first two levels joined |
| `ExtractBase.KeyShape` | lib/extractBase.js:5-13 | the first level, and for two or more levels `first/second`, is a prefix of the topic with 0 and 1 separators |
| `ExtractBase.Idempotent` | lib/extractBase.js:4-14 | deriving the key of a key gives the same key |
| `ExtractBase.SameFirstTwoSameKey` | lib/extractBase.js:5-13 | topics with the same first two levels have the same key, hence the same owner |
| `ExtractBase.SingleLevelUnchanged` | lib/extractBase.js:7-8 | a topic without `/` is returned unchanged |
| `ExtractBase.WildcardSecondLevel` | lib/extractBase.js:9-10 | `a/#` and `a/#/rest` both have key `a` |
| `ExtractBase.DeepLevelsDropped` | lib/extractBase.js:11-12 | for a second level other than `#`, `a/b/rest` has key `a/b`: deeper levels are dropped |
| `ExtractBase.HelloExample` | lib/extractBase.js:11-12 | `hello/0/something` has key `hello/0` |
| `LowWildcard.Level` | lib/hasLowWildcard.js:7-8 | indexing past the last level gives `undefined` (`None`), which equals no marker |
| `LowWildcard.HasLowWildcard` | lib/hasLowWildcard.js:4-9 | the classification holds exactly when one of the first two levels is `#` or `+`; a missing second level matches neither |
| `LowWildcard.SameFirstTwoSameClass` | lib/hasLowWildcard.js:5-8 | the classification depends only on the first two levels |
| `LowWildcard.FirstLevelWildcard` | lib/hasLowWildcard.js:7-8 | `#`, `+`, `#/rest` and `+/rest` are low-level wildcards |
| `LowWildcard.SecondLevelWildcard` | lib/hasLowWildcard.js:7-8 | `a/#`, `a/+`, `a/#/rest` and `a/+/rest` are low-level wildcards |
| `LowWildcard.SingleLevelNoWildcard` | lib/hasLowWildcard.js:5-8 | a one-level topic other than `#` and `+` is not, because the absent second level never matches |
| `LowWildcard.DeepWildcardIgnored` | lib/hasLowWildcard.js:5-8 | wildcards at the third level or deeper do not count: `a/b/rest` is not one when neither `a` nor `b` is a marker |
| `Counter.Step` | lib/counter.js:12-16 | the value after `n` is `(n + 1) mod 2^31` and stays in `[0, max]` |
| `Counter.Drawn` | lib/counter.js:10-18 | every value a fresh counter hands out lies in `[0, 2^31 - 1]` |
| `Counter.DrawnIsModular` | lib/counter.js:5-18 | the k-th call on a fresh counter returns k mod 2^31 |
| `Counter.WrapsAfterMax` | lib/counter.js:12-13 | the k-th value is `max` if and only if k is congruent to 2^31 - 1, and the call after `max` returns 0 |
| `Counter.Counter.constructor` | lib/counter.js:5-8 | a fresh counter holds 0 and has not been called |
| `Counter.Counter.Next` | lib/counter.js:10-18 | returns the value held before the call, which is the value for the call number; then wraps to 0 after `max` or adds one, keeping `current = k mod 2^31` |
| `Counter.IndependentCounters` | lib/counter.js:5-8 | two counters have separate state: two draws from one and one from the other give 0, 1 and 0 |
| `Commands.TeardownOf` | lib/commands.js:85-89 | a stream is destroyed when it has `destroy`, and ended otherwise |
| `Commands.Admit` | lib/commands.js:39-114 | no stream: "missing messages stream", nothing registered; closing with a stream that has `destroy`: the stream is destroyed, "closing", nothing registered; closing with a stream that has no `destroy`: the handler throws, no reply and no teardown; otherwise the reply is `Ack` exactly when a listener is registered; a tracker exactly for a truthy key owned here; a teardown exactly for a truthy key not owned here |
| `Commands.Decide` | lib/commands.js:53-70 | duplicate exactly when the origin is in `destSet`; not allocated exactly when it is not and the key of the topic is not owned; written exactly when neither |
| `Commands.RoundWrites` | lib/commands.js:53-68 | a round of listener calls writes at most one origin per call and never an origin already in `destSet` |
| `Commands.RoundWritesSnoc` | lib/commands.js:53-68 | one more listener call extends the round's writes by its origin exactly when that origin was not seen or written yet and its key was owned at that call |
| `Commands.AtMostOneWritePerOrigin` | lib/commands.js:54-68 | within one round, each origin is written to at most once, and never one already in `destSet` |
| `Commands.WrittenIffOwnedDelivery` | lib/commands.js:53-68 | an origin is written in a round exactly when it was not already seen and at least one of its calls found its key owned at that moment |
| `Commands.Server.constructor` | lib/commands.js:7-13 | a loaded instance starts with an empty `destSet` and nothing registered |
| `Commands.Server.Close` | lib/commands.js:17-20 | the instance's closing flag is set and nothing else changes |
| `Commands.Server.Publish` | lib/commands.js:16-24 | closing: replies "instance closing" and emits nothing; otherwise hands the message to the local bus |
| `Commands.Server.Subscribe` | lib/commands.js:27-115 | carries out `Admit`: reply (or the throw on a closing instance when the stream has no `destroy`), teardown, new subscription, listener registered (before the `Ack`), and a tracker when the key is owned; `destSet` and the write log are untouched |
| `Commands.Server.Listener` | lib/commands.js:53-70 | follows `Decide` on the current `destSet`; records the call with the ring's ownership answer at that moment; on a write, one stream write and the origin added to `destSet`; keeps the origins written since the last tick equal to `RoundWrites` of the calls since the last tick, so no origin is written twice in a round |
| `Commands.Server.Tick` | lib/commands.js:11-13 | empties `destSet` and starts a new round with no calls recorded |
| `Commands.Server.OnMove` | lib/commands.js:81-90 | a key moving away removes the listener and tears down the stream (destroy, or end) |
| `Commands.Server.StreamClosed` | lib/commands.js:102-109 | end of stream ends the tracker, if any, and removes the listener |
| `Receiver.Attempt` | lib/receiver.js:73-76 | a function passed in place of the count means attempt 1 |
| `Receiver.PeerRequests` | lib/receiver.js:84-94 | one subscribe request per listed peer, in order, each on its own new stream |
| `Receiver.SendRequests` | lib/receiver.js:47-65 | with a peer list, one request per peer; otherwise exactly one keyed request through the ring |
| `Receiver.Receiver.constructor` | lib/receiver.js:12-43 | a new receiver has `count = 1`, is not destroyed, holds no streams and has issued nothing |
| `Receiver.Receiver.Stream` | lib/receiver.js:97-101 | a new stream with a fresh id is added to `streams`; its record drops the peer and keeps the count |
| `Receiver.Receiver.SendPeer` | lib/receiver.js:72-95 | a request is issued exactly when the attempt count is at most 5; above 5 nothing changes |
| `Receiver.Receiver.Send` | lib/receiver.js:45-70 | destroyed: `AlreadyDestroyed`, nothing issued; otherwise the `SendRequests` requests, each with a new stream added to `streams` |
| `Receiver.Receiver.PeerUp` | lib/receiver.js:38-42 | with a peer list, a joining peer gets one request at attempt 1; without one, nothing happens |
| `Receiver.Receiver.Unsubscribe` | lib/receiver.js:103-117 | sets `destroyed` (a second call changes nothing), and destroys no source |
| `Receiver.Receiver.UnsubscribeIntended` | lib/receiver.js:103-117 | sets `destroyed`, and on the first call destroys exactly the sources of the piped streams held |
| `Receiver.Receiver.Piped` | lib/receiver.js:127-136 | records the source, and destroys it when the receiver is already destroyed |
| `Receiver.Receiver.SourceClosed` | lib/receiver.js:138-152 | removes the stream from `streams`; when not destroyed, resubscribes through `_sendPeer` when the stream stores a peer and through `send` otherwise, so always through `send` |
| `Receiver.UnsubscribeLeavesSourceOpen` | lib/receiver.js:110-116 | after subscribing, piping source 7 and unsubscribing, source 7 is not destroyed and the stream is still held |
| `Receiver.UnsubscribeIntendedClosesSource` | lib/receiver.js:110-116 | the same sequence with the corrected unsubscribe destroys source 7 |
| `Receiver.PeerStreamResubscribesToAll` | lib/receiver.js:139-150 | with peers `[a, b]`, closing the stream from `a` issues two new requests, and the new streams capture attempt 1 again |

## Left out

- The network transport is not modelled: `upring.request`, `peerConn(...).request`, tentacoli/pump streams and `end-of-stream`. Requests are logged as issued. Stream closure and `pipe` are the methods `SourceClosed`, `StreamClosed` and `Piped`.
- The callbacks that a completed request invokes (`done`, `cb`) are not modelled. `send` on a destroyed receiver returns `AlreadyDestroyed`; the source reports this through `done` on the next tick.
- Message delivery into the local bus (`_write`, `_writev`, lib/receiver.js:158-170) is not modelled. It is stream-library machinery driven by asynchronous callbacks.
- The local bus (mqemitter) is an opaque collaborator. Topic matching and its listener table are not modelled. The `publish` reply, which the bus produces from its listeners' results, is represented only by `Emitted`.
- Hash-ring ownership is not modelled. `allocatedToMe` is a parameter. Trackers are reduced to "live or ended", and their `move` event is the `OnMove` method.
- Scheduling is not modelled. `process.nextTick(tick)` becomes the explicit `Tick`, and the deferred `source.destroy` after a late `pipe` happens at once. `steed.each` runs its calls in list order.
- A handler that throws is the `Thrown` reply. On a closing instance, `subscribe` calls `stream.destroy()` whether or not the stream has one (lib/commands.js:46), so a stream without it makes the handler throw before replying. What upring then does with the exception is not modelled.
- Logging (pino child loggers) and `hyperid` ids are not modelled. They have no behaviour to verify.
- pubsub.js, example.js and the tests are wiring and test code, not behaviour to model.

## Findings

| source | as written | input that shows it | evidently intended | confidence | as-written member | corrected member |
|---|---|---|---|---|---|---|
| lib/receiver.js:110-116 | `for (let stream in this.streams)` enumerates the properties of a `Set`, of which there are none, so `unsubscribe` destroys no source | a receiver subscribes through the ring, source 7 is piped into its stream, then `unsubscribe()` runs: source 7 is still open and the stream is still held | iterate the set's elements and destroy the source of each piped stream; streams piped later are handled by the `pipe` handler | high; not executed | `Receiver.UnsubscribeLeavesSourceOpen` | `Receiver.Receiver.UnsubscribeIntended` |
