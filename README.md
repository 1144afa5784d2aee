# Message distribution core of chat-app

The chat backend stores chat messages and pushes them to connected clients in
real time. A producer publishes each posted message to a broker topic.
One consumer pipeline then reads that topic record by record (src/consumer.rs):

1. It decodes the record: it checks that a payload is present, that it is UTF-8 and that it is a JSON `PandaMessage`.
2. It persists the message to storage.
3. It resolves the chat's members through a read-through cache. A cached entry is used while it is less than one second old.
4. It fans the message out. For every member, it makes one non-blocking enqueue into that member's mailbox, if the member is registered. The enqueue fails quietly when the mailbox is full or its channel is closed.

Any failure of one record is logged and swallowed, and the stream goes on.
A lag monitor on the same consumer adds up, per partition, how far the high
watermark is ahead of the consumer's position.

On the connection side (src/websocket.rs), a websocket session does four things:

- It registers a fresh 128-slot mailbox under its user id. A reconnect replaces the previous mailbox.
- It drains that mailbox onto the socket in FIFO order. An item that does not serialize is skipped, and the drain stops at the first failed write. The drain then ends and drops the channel's receiver: the channel is closed, what was still queued is discarded, and every later enqueue is refused. The user's registry entry stays until the reader loop ends.
- It reads client frames until a Close frame, a receive error or the end of the stream.
- It removes the user's registry entry, whichever connection installed it.

The model has four modules:

- `Base` (base.dfy): identifiers, `PandaMessage`, and the `Option`/`Result` wrappers.
- `Connections` (connections.dfy):
  - the `Mailbox` class, a bounded FIFO that can be closed;
  - the `Registry` class, a map from user to mailbox;
  - the reader loop, the session, and the drain loop.
  - The drain has a value-level specification, `DrainFrom`. The imperative `SendTask` is proved against it.
- `Pipeline` (pipeline.dfy):
  - a value-level specification of the per-record path (`Decode`, `Resolve`, `Fanout`, `Step`, `Run`, `Outcomes`) and its lemmas;
  - the `Consumer` class, which keeps storage and the members cache as fields, shares the connection `Registry`, and runs the same path in place. Its methods are proved against `Step` and `Run` through an abstraction function `Abs`.
- `LagMonitor` (lag.dfy): the lag sum as a function, and the imperative tick proved against it.

External collaborators are parameters given as total functions, so that every branch of the source is reachable in the model:

- UTF-8 validation and JSON decoding (`Env.utf8`, `Env.fromJson`);
- whether the storage insert succeeds (`Env.insertOk`);
- the storage's answer to "members of chat c" at time t (`Env.membersOf`);
- JSON encoding of an outgoing message (`toJson`);
- the outcome of the k-th socket write (`sendOk`);
- the broker's watermark and position queries (`Broker`).

Time is an integer number of milliseconds. The cache TTL is 1000, and an entry is fresh while `now - fetchedAt < 1000`.

## Model

| member | source | states |
|---|---|---|
| Connections.Mailbox.constructor | src/websocket.rs:15 | a new channel is open, empty and within its bound |
| Connections.Mailbox.TrySend | src/websocket.rs:15 | non-blocking enqueue: succeeds iff the channel is open and fewer than 128 items are queued, then appends at the back; on a full or closed mailbox the contents are unchanged and nothing is raised |
| Connections.Mailbox.Close | src/websocket.rs:23-37 | dropping the receiver closes the channel and discards its buffer |
| Connections.Mailbox.Recv | src/websocket.rs:24 | FIFO receive: yields the oldest item and removes exactly it; None only on an empty mailbox |
| Connections.Registry.Connect | src/websocket.rs:15-20 | a fresh, empty mailbox is installed under the user, replacing any previous one; every other user's entry is unchanged; the registry stays well formed (bounded, no shared mailboxes) |
| Connections.Registry.TryDeliver | src/consumer.rs:160-162 | one send attempt: delivered iff the user is registered, their channel is open and their mailbox has room; the mailboxes become `Attempt` of the old ones; no channel opens or closes, and neither another mailbox nor the map itself changes |
| Connections.Registry.Disconnect | src/websocket.rs:48 | the user's entry is removed whoever installed it, every other entry stays, and an absent user is a no-op |
| Connections.ReadUntilClosed | src/websocket.rs:40-44 | the reader stops at the first Close frame or receive error, or at the end of the stream; every frame before the stop point is one that does not end the session |
| Connections.HandleSocket | src/websocket.rs:11-49 | a session registers a fresh empty mailbox, reads until the client goes away, closes the mailbox by aborting its send task, and leaves the registry exactly as before minus the user's entry |
| Connections.ReconnectThenStaleDisconnect | src/websocket.rs:16-48 | two overlapping sessions of one user get distinct mailboxes, and the older session's disconnect also removes the newer, live session's entry |
| Connections.DrainFrom | src/websocket.rs:24-36 | a drain never takes off more items than are queued |
| Connections.DrainWritesUntilFirstFailure | src/websocket.rs:28-34 | every write the drain made succeeded, and a broken drain ended on a failed write |
| Connections.DrainWithoutFailureForwardsAll | src/websocket.rs:24-36 | a drain with no failed write empties the mailbox and forwards exactly the serializable items, in enqueue order |
| Connections.DrainStopsAtFailedWrite | src/websocket.rs:26-34 | a drain that breaks has forwarded exactly the serializable items before the failing one, that item did serialize, and nothing after it was dequeued |
| Connections.SendTask | src/websocket.rs:23-37 | the send task forwards what `DrainFrom` says and reports a broken socket as it does; on a failed write it ends with the channel closed and the rest of the queue discarded, otherwise with the mailbox emptied and still open |
| Connections.ForwardQueued | src/websocket.rs:24-36 | the receive loop takes off exactly the items `DrainFrom` consumes, leaving the not-yet-received suffix |
| Connections.FailedWriteClosesMailbox | src/websocket.rs:28-34 | after a failed write the mailbox is closed and empty, and a later enqueue is refused whatever the room |
| Pipeline.Decode | src/consumer.rs:104-119 | a record decodes iff it is not a consumer error, has a payload, is UTF-8 and parses as JSON; the message is the parsed one; the first failing stage names the error (consumer error, no payload, invalid UTF-8, bad JSON), never a storage or membership failure |
| Pipeline.ResolveTouchesOnlyItsChat | src/consumer.rs:141-155 | a resolution is under one TTL old, and the cache afterwards holds exactly it for the chat while every other chat keeps its entry (whole-entry replacement only) |
| Pipeline.ResolveKeepsCacheFromSource | src/consumer.rs:151-155 | if every cached entry is what storage answered at its fetch time, that stays true, and the resolved members are storage's answer at their fetch time |
| Pipeline.Fanout | src/consumer.rs:157-165 | fanout never adds or removes a registered user |
| Pipeline.FanoutOnlyAppends | src/consumer.rs:159-164 | fanout only appends: queued messages are never lost or reordered, users outside the member list and users whose channel is closed are untouched, and no mailbox exceeds 128 |
| Pipeline.FanoutAppendsPerListing | src/consumer.rs:159-164 | a registered user with an open channel listed k times ends with min(k, free room) copies of the message appended to what was queued |
| Pipeline.ListedOnceGetsOneAttempt | src/consumer.rs:159-163 | a registered member with an open channel listed once, the sender included, gets exactly one attempt: appended when there is room, unchanged when the mailbox is full |
| Pipeline.StepOnDecodeFailure | src/consumer.rs:104-119 | a record that does not decode changes nothing and reports its decode error |
| Pipeline.StepOnInsertFailure | src/consumer.rs:121-130 | a record storage rejects is counted but not stored, and neither the cache nor any mailbox changes |
| Pipeline.StepStorage | src/consumer.rs:121-130 | storage grows by exactly the decoded message iff it decodes and the insert succeeds; the counter goes up iff it decodes; a failed record leaves the cache and mailboxes alone |
| Pipeline.StepPreservesInv | src/consumer.rs:97-187 | every record keeps the registered users and which channels are closed, the mailbox bound, empty closed channels, and a cache that mirrors storage answers |
| Pipeline.CacheHitUsesCachedMembers | src/consumer.rs:141-146 | with a fresh entry the cached members are fanned out to, the cache is unchanged, and the result does not depend on storage's membership answers |
| Pipeline.CacheMissRefetches | src/consumer.rs:151-155 | on a miss or an aged entry the members are fetched; on success the entry becomes (fetched members, now) and they are fanned out to; on failure the message stays stored and nothing else changes |
| Pipeline.FanoutMembersAtMostTtlStale | src/consumer.rs:141-165 | the members a message is fanned out to are storage's answer from less than one TTL before the record was processed |
| Pipeline.ThreeMemberChat | src/consumer.rs:97-187 | a chat with members A, B and sender S, where B is offline: "hi" is stored, appended to A's and S's mailboxes, B gets nothing, and the record completes |
| Pipeline.Outcomes | src/consumer.rs:181-185 | one logged outcome per record of the stream |
| Pipeline.OutcomesAreStepOutcomes | src/consumer.rs:97-185 | each record's outcome is what its own step reports in the state the earlier records left, whatever failed before it |
| Pipeline.RunPersistsEveryStorableRecord | src/consumer.rs:97-187 | after a stream, storage holds exactly the messages of the records that decode and are accepted, in stream order, regardless of earlier failures |
| Pipeline.RunCountsDecodedRecords | src/consumer.rs:118-121 | the processed counter rises once for every record that decodes, including those storage then rejects |
| Pipeline.RunPreservesInv | src/consumer.rs:97-187 | over a whole stream the registered users and closed channels stay the same, mailboxes stay bounded, closed channels stay empty, and the cache keeps mirroring storage |
| Pipeline.Consumer.constructor | src/consumer.rs:94 | consumption starts with an empty members cache |
| Pipeline.Consumer.ResolveMembers | src/consumer.rs:138-155 | the in-place cache lookup returns and stores what `Resolve` specifies |
| Pipeline.Consumer.FanoutTo | src/consumer.rs:157-165 | the member loop leaves the mailboxes as `Fanout` specifies, opens or closes no channel, and keeps the registry well formed |
| Pipeline.Consumer.Broadcast | src/consumer.rs:137-169 | succeeds iff the members resolve; then the cache and mailboxes are what `Publish` specifies; on failure neither changes; the registry map is never modified |
| Pipeline.Consumer.ProcessRecord | src/consumer.rs:103-179 | one record changes the consumer's state and reports the outcome exactly as `Step` specifies |
| Pipeline.Consumer.ProcessMessage | src/consumer.rs:121-169 | a decoded message is counted, stored and broadcast as `Accept` specifies |
| Pipeline.Consumer.ConsumeAll | src/consumer.rs:97-187 | the stream loop ends in the state `Run` specifies and logs the outcome sequence `Outcomes` specifies |
| LagMonitor.FindPartition | src/consumer.rs:71-74 | None iff no position element has the partition; otherwise an element of the list that has it |
| LagMonitor.FindPartitionIsFirst | src/consumer.rs:71-74 | the element found is the first of its partition: every element before it belongs to another partition |
| LagMonitor.TotalLagAdditive | src/consumer.rs:61-81 | the lag total over a concatenation of partition lists is the sum of the totals |
| LagMonitor.UnavailablePartitionIgnored | src/consumer.rs:68-79 | a partition without watermarks, position or a concrete offset contributes nothing |
| LagMonitor.TotalLagNonNegative | src/consumer.rs:77-78 | when no available partition's position is past its high watermark, the total is not negative |
| LagMonitor.TwoPartitionExample | src/consumer.rs:61-81 | partitions at (high 100, offset 80) and (high 30, offset 25) give a total of 25 |
| LagMonitor.LagTick | src/consumer.rs:53-83 | a failed metadata fetch sets no gauge value; otherwise the gauge is the total lag over the first topic's partitions, and 0 when no topic is listed |

## Left out

- Concurrency is modelled as sequential steps. This covers the 100-way `for_each_concurrent`, the DashMap cache, the `RwLock` around the registry, `tokio::spawn` and `abort` of the send task, and the 5-second monitor interval. An aborted send task is modelled by simply not running the drain again.
- The model does not capture interleavings: records whose steps overlap, or a drain that runs while the consumer enqueues.
- Each record's processing time is a single `now`. In the source, a cache miss stamps the entry with `Instant::now()` after the storage query returns. In the model, the query and the timestamp share one reading.
- `Instant` is replaced by an integer clock. `Instant::elapsed` saturates at zero, so an entry whose timestamp is in the future counts as fresh, as it does here.
- Metrics and tracing are left out: counters, histograms, the lag gauge's sink and spans. Only a ghost processed counter is kept.
- UTF-8 validation, serde JSON decoding and encoding, the storage calls and the socket writes are abstract function parameters. Their internals are not modelled.
- Storage is modelled only as the sequence of inserted messages; membership answers come from `Env.membersOf`. src/db.rs is not part of this model.
- LagMonitor.LagTick: does not model 64-bit overflow of `total_lag` or the conversion to `f64`, because the sum is taken over unbounded integers.
- LagMonitor.LagTick: the position list is the answer obtained when a partition is visited. The query's own failure modes are not distinguished.
- Connections.SendTask: drains only what is queued when it runs. When no write fails, the messages that arrive later are covered by running it again on the still-open channel. Blocking on an empty channel is not modelled.
- The producer is not modelled: src/producer.rs is not part of this model. The record key being the sender id plays no role in the consumer's behaviour.
- Also not part of this model: HTTP handlers (src/handler.rs), server wiring (src/main.rs), the schema types other than `PandaMessage` (src/schema.rs), and the load-test script.
- The code has no reconnect loop with backoff and no shutdown coordinator around the pipeline, and `PandaMessage` carries no message identifier; none of these is modelled. One consumption run ends only when the stream ends.
