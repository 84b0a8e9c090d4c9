# Message pipeline, service discovery, connection hub and linked lists

A Dafny 4.11 model of an instant-messaging backend (websocket, chat, consumer, database, pusher and
discovery services) and of two linked lists, with proofs. `dafny verify dfyconfig.toml` checks all of it.

## What is modelled

**The message pipeline.** `Front` is the sending half: any number of websocket nodes, each with a bounded
queue and a manager loop, the chat calls they make, and the one-partition topic. `Consumer` is the receiving
half: the receive / number / save and push / join / commit loop, the broker's committed offset, the per-user
counters, the table and the push calls. `Fanout` is one push call: the instances at work, the clients each one
found, whom it wrote to. `Hub` is one node's user -> platform -> client map. `Pipeline` runs them together: a
state, labelled steps, and `Run(nodes, steps)` for a schedule. A label that is not enabled does nothing, so
every sequence of labels is a run and each theorem holds for every schedule. Faults are labels of their own:
failed and lost chat calls, producer errors whose record appears later or never, failed and lost increments,
failed saves and pushes whose work may still happen, instance calls that fail while the instance writes on,
broken sockets, dead dispatch tasks, lost and reordered commits, crashes and restarts. A push may go to any
non-empty set of nodes, since the pusher's list may lag.

`Guarantees`, `Numbers`, `Audience`, `SocketOrder`, `Overtaking`, `Delivery` and `Refinement` hold the theorems
about runs, `Scenarios` concrete runs in which a promise of the design is broken. `Reach` says which pushes may
still reach a connection, `Continuations` how a run can go on from any reachable state.

**The services in their own form.** `ConsumerService`, `Gateway` (manager loop, hub, sockets, receive loop),
`Chat`, `Cache`, `Store`, `Discovery.DynamicServiceDiscovery` and `Pusher.PusherRpcService` are classes whose
methods update fields in loops as the services do. `ConsumerService`, `Gateway.Manager` and
`Pusher.PusherRpcService` carry a ghost trace: their state is always their machine's state after that trace
(`Valid`), so the theorems about the machine apply to them (`StateIsSound`, `ListIsSound`). The manager has a
second trace for its hub (`HubValid`, `HubIsSound`, `HubHoldsTheLive`).

**Discovery and the live list.** `Discovery` is the diff-and-send loop with its channel; set walking order is
arbitrary. `Pusher` adds the live list written by both the applying loop and evictions, and the fan-out with
its drain loop under every scheduling order.

**The linked lists.** `OwnedList` and `RawList` are heap structures with a ghost spine.

### Assumptions

- Generated server ids are fresh. The clock is any number; nothing relies on it.
- One chat call makes at most one topic record. A failed call's record may appear later, or never.
- The texts of a producer error and of a failed call are not empty.
- One consumer at a time reads the single partition; a group without a committed offset starts at the first record.
- Encoding a message and decoding it gives the message back; every topic record came from chat.
- A channel's send fails only when the receiver is gone, and then for good.
- Whether an endpoint can be built from an address does not change (`builds`).

### Where the code and its documentation differ

- doc/3-构建ws模块.md:187 says a user's entry disappears with the last client; the code keeps the empty inner map.
- doc/10-pusher服务.md says connecting to a new instance is not given up after a failure; the code logs the
  failure and does not try that instance again until discovery has removed and re-inserted it
  (`Pusher.EvictedStaysOut`).
- doc/1-后端架构详解.md promises that a message is never lost once sending succeeded. The consumer commits past
  failed increments, dead dispatch tasks and failed saves: `Scenarios.FailedIncrementIsSteppedOver`,
  `Scenarios.DeadTaskIsSteppedOver` and `Scenarios.FailedSaveIsCommitted` give the runs;
  `Delivery.CommittedIsDoneOrSkipped` and `Delivery.CommittedRecordsAreInTheTable` say for every run exactly
  which committed records that can happen to.

### When pushed messages can come out of order

doc/1-后端架构详解.md:55 promises that messages are received in the order they were sent. The push call drains
its fan-out before it returns and the consumer awaits it, so frames come in order except those of handlings
that are left while an instance may still write (`SocketOrder.PushedNumbersIncrease`,
`SocketOrder.ReceivedInSentOrder`). From which states the order on a connection can break, without anything more
being left so, is settled for every reachable state, connection and consumer life by
`Overtaking.OrderCanBreakIff`: exactly when such a handling may still reach the connection and a later one of its
life and receiver is there, may reach it too, or can still be made. `Scenarios.FailedPushIsOvertaken` is a run in
which it does break.

## Model

| member | source | states |
|---|---|---|
| Guarantees.QueueConservation | sandcat_prectice/ws/src/manager.rs:57-93 | In every run, what a node accepted is exactly answered, then in flight, then queued messages, in acceptance order; the queue never exceeds 1024 |
| Guarantees.PositiveAnswerIsDurable | sandcat_prectice/ws/src/manager.rs:70-91 | A reply with empty content has exactly one topic record for its message, with the message's local id and the reply's server id, already there when the reply is sent |
| Guarantees.TopicOnlyGrows | sandcat_prectice/chat/src/main.rs:139-151 | The topic at any moment of a run is a prefix of the topic later |
| Guarantees.RecordCarriesItsMessage | sandcat_prectice/chat/src/main.rs:132-141 | In every run a topic record has each field of the accepted message it came from, but for the id and the time chat gave it |
| Guarantees.EndToEndOrder | sandcat_prectice/consumer/src/main.rs:117-125 | Two messages of one node (so of one connection) to one receiver, both positively answered and handled in one consumer life, are numbered in acceptance order under every interleaving |
| Guarantees.CommitSafety | sandcat_prectice/consumer/src/main.rs:86-103 | Every offset below the committed one was received; the record just below it was numbered and both its tasks ended |
| Guarantees.RestartSkipsNothingUnseen | sandcat_prectice/consumer/src/main.rs:24-45 | A restarted consumer begins at the committed offset, past no offset that was never received |
| Guarantees.TableHoldsSavedRecordsOnce | sandcat_prectice/db/src/database/postgres/mod.rs:23-42 | In every run, redeliveries and renumberings included, the table is exactly the rows of the saved records, one row per record |
| Audience.PushesReachTheReceiverOnce | sandcat_prectice/ws/src/rpc.rs:80-92 | Whatever the faults, a connection is pushed only messages to its own user, and each handling at most once |
| Audience.AnsweredPushTriesTheHub | sandcat_prectice/ws/src/manager.rs:104-122 | An instance that answered has the message, once, on exactly the clients its hub held for the receiver when it looked, those with a broken socket apart, and on no other connection of that node |
| Audience.PushServesEveryLiveConnection | sandcat_prectice/ws/src/manager.rs:94-122 | As long as no connection of the node has opened a busy key, an answered push is exactly once on every connection of the receiver that was live when the instance looked, unless its socket was broken |
| Guarantees.NumbersNeverReused | sandcat_prectice/cache/src/redis/mod.rs:33-42 | Across lives and redeliveries a receiver's numbers strictly increase in assignment order and lie between 1 and the counter |
| Numbers.NumbersExactIffNoneLost | sandcat_prectice/consumer/src/main.rs:106-125 | A receiver's numbers are exactly 1..counter if and only if none of its increment replies was lost |
| Numbers.NumberIsRank | sandcat_prectice/consumer/src/main.rs:106-125 | A number is the handling's rank among the receiver's handlings, off by at most the receiver's lost increments |
| SocketOrder.PushedNumbersIncrease | sandcat_prectice/pusher/src/main.rs:114-134 | In every run, frames pushed to one connection in one consumer life carry strictly increasing numbers; only a frame of a handling that was left while an instance could still write for it may come late |
| SocketOrder.ReceivedInSentOrder | sandcat_prectice/consumer/src/main.rs:117-148 | From sent to received: of two positively answered messages of one node to one receiver, pushed to one connection in one consumer life, the one accepted first arrives first, unless its handling was abandoned |
| Overtaking.OrderCanBreakIff | sandcat_prectice/consumer/src/main.rs:136-147 | For every reachable state, connection and consumer life: the order can break without anything more being abandoned if and only if an abandoned handling of that life may still reach the connection and a later one of the same receiver is on it, may reach it, or can be made |
| Overtaking.OrderHoldsFromHere | sandcat_prectice/consumer/src/main.rs:136-147 | Where no abandoned handling of the life is in that position, everything pushed to the connection from then on comes in order until another one is abandoned |
| Overtaking.BreaksOnlySo | sandcat_prectice/pusher/src/main.rs:114-134 | A frame that comes out of order belongs to a handling that was in that position before |
| Reach.SinceThen | sandcat_prectice/pusher/src/main.rs:103-134 | Over any stretch of a run, what is written to a connection or may reach it could reach it before, or was numbered since, for a user the connection could be filed under, by a consumer that was up |
| Overtaking.AbandonedPushIsOvertaken | sandcat_prectice/consumer/src/main.rs:136-147 | From any reachable state with a handling in that position, whatever the consumer and the nodes are at, the run can go on, abandoning nothing more, so that a later message arrives first |
| Continuations.NumbersAnother | sandcat_prectice/consumer/src/main.rs:86-148 | From any reachable state with the consumer up, a further message to a user whose counter has room can be sent, published and numbered without abandoning anything |
| SocketOrder.LeftIsAbandoned | sandcat_prectice/consumer/src/main.rs:136-147 | A handling of the current life whose push is not over and which the consumer does not wait for was abandoned |
| Scenarios.FailedPushIsOvertaken | sandcat_prectice/consumer/src/main.rs:136-141 | A run of the whole pipeline, for any two messages to one receiver: the first one's push call fails at the consumer and the second one arrives first |
| Delivery.CommittedIsDoneOrSkipped | sandcat_prectice/consumer/src/main.rs:86-103 | In every run, a committed record was handled to the end, or one of its own deliveries was skipped, whatever happened to other records |
| Delivery.DoneIffFinished | sandcat_prectice/consumer/src/main.rs:117-148 | A record was handled to the end if and only if a delivery of it finished; if all were skipped, it never was |
| Delivery.CommittedRecordsAreInTheTable | sandcat_prectice/consumer/src/main.rs:86-148 | In every run, a committed record is in the table, as in the topic, if and only if an insert of it ran; it is missing only if a delivery of it was skipped or finished with a failed save, and then no delivery of it finished with a good save |
| Scenarios.FailedIncrementIsSteppedOver | sandcat_prectice/consumer/src/main.rs:92-98 | A run of the whole pipeline, for any two messages, in which the record of a failed increment is committed, never handled to the end, and its key is not in the table |
| Scenarios.DeadTaskIsSteppedOver | sandcat_prectice/consumer/src/main.rs:143-146 | The same when the save task dies |
| Scenarios.FailedSaveIsCommitted | sandcat_prectice/consumer/src/main.rs:129-133 | A run of the whole pipeline in which a record is committed and the table is empty |
| Refinement.RefinesService | sandcat_prectice/consumer/src/main.rs:86-148 | Each step of a fault-free run is one move of an atomic service (post, send the next accepted message, number by rank, store a row) or none |
| Refinement.RunRefinesService | sandcat_prectice/ws/src/manager.rs:57-93 | A whole fault-free run of any number of nodes and connections is a run of that service |
| Refinement.NumberIsRecordRank | sandcat_prectice/cache/src/redis/mod.rs:33-42 | In fault-free runs handling h is of offset h and its number is the record's rank among records to the same receiver |
| Refinement.DrainedRunIsComplete | sandcat_prectice/chat/src/main.rs:118-159 | Once drained, every accepted message has exactly one record, numbers are ranks, and the table has one row per record, each column the record's field of that name |
| Refinement.AcceptedIsStored | sandcat_prectice/db/src/database/postgres/mod.rs:23-42 | Once drained, every accepted message is in the table with its own sender, receiver, local id, types and content, under its record's id and time, and was numbered with its rank |
| Pipeline.RunInv | sandcat_prectice/ws/src/rpc.rs:80-92 | Every reachable state keeps the invariants of both halves and of the hubs; every client a push found belongs to the receiver, and a connection's frames are exactly the handlings written to it, once each |
| Front.KeepsInv | sandcat_prectice/ws/src/manager.rs:57-93 | Each sending step keeps: conservation, one record per accepted message at most, fresh ids, per-node topic order, durability of positive answers; the topic only grows |
| Front.ReplyFields | sandcat_prectice/ws/src/manager.rs:70-88 | Field by field: after a response the reply is marked as one, carries chat's id and error, and is of error type exactly if there was an error; after a failed call only the content is new |
| Consumer.KeepsInv | sandcat_prectice/consumer/src/main.rs:86-148 | Each receiving step, faults included, keeps commit safety, phase facts, number bounds, handling order and the exact table |
| Consumer.PlayGrows | sandcat_prectice/consumer/src/main.rs:86-103 | Records appended later change nothing about what the consumer did before |
| Store.RedeliveryIsIdempotent | sandcat_prectice/db/src/database/postgres/mod.rs:23-42 | Any two sequences of saves mentioning the same records, in any order, number and repetition, leave the same table, with one row per record |
| Store.InsertRecord | sandcat_prectice/migrations/20240509030031_messages.sql:1-12 | Saving a record under any number adds exactly its row, or nothing when it is there |
| Store.PostgresMessage.SaveMessage | sandcat_prectice/db/src/database/postgres/mod.rs:23-42 | If the statement ran and the key was free, its row has each of the eight columns equal to the message's field of that name; a taken key keeps its row, and so does every other key; an error may hide a save |
| Cache.Bumped | sandcat_prectice/cache/src/redis/mod.rs:40 | Every counter reads as before except the user's, which reads one more |
| Cache.RedisCache.IncreaseSeq | sandcat_prectice/cache/src/redis/mod.rs:33-42 | The answer is the counter's new value; an error may hide an increment; an increment past 64 bits is refused |
| Cache.RedisCache.GetSeq | sandcat_prectice/cache/src/redis/mod.rs:22-31 | Reads the counter, zero for a missing key or a failed read, an error only without a connection |
| Chat.ChatRpcService.SendMsg | sandcat_prectice/chat/src/main.rs:118-159 | No message is an error and appends nothing; otherwise the answer carries the local id, the new id, the time and the producer's error, and the record appended has that id and time and every other field of the message |
| ConsumerService.ConsumerService.HandleMsg | sandcat_prectice/consumer/src/main.rs:117-148 | Save and push run side by side in any order; it succeeds exactly if the increment was answered and both tasks ended; the counter, the pushed message with its new number and the stored row are as the calls' fates say; the steps taken are a run of the machine |
| ConsumerService.ConsumerService.IncreaseSeq | sandcat_prectice/consumer/src/main.rs:106-114 | Success records the handling of this offset under the number answered; failure leaves the loop ready |
| ConsumerService.ConsumerService.Consume | sandcat_prectice/consumer/src/main.rs:86-103 | Over a growing topic: each turn delivers the next record if there is one, and hands over the offset after it as a commit exactly if the increment was answered, both tasks ended and the commit was taken; every answered increment's message is pushed once under its number; the loop is a run of the machine |
| ConsumerService.ConsumerService.CommitMessage | sandcat_prectice/consumer/src/main.rs:96-98 | The commit handed over is the offset after the handled record |
| ConsumerService.ConsumerService.StateIsSound | sandcat_prectice/consumer/src/main.rs:86-148 | Whatever its calls answered, the service is in a state satisfying the machine's invariant |
| Gateway.Manager.Run | sandcat_prectice/ws/src/manager.rs:57-93 | While connections send, messages are answered in acceptance order, none left out, each with what its own chat call gave, and every socket has been written exactly the replies to its user |
| Gateway.Manager.Turn | sandcat_prectice/ws/src/manager.rs:60-92 | One turn: publish the head of the queue and write the reply, with what chat's call gave, once to every client of its sender |
| Gateway.Manager.SendBack | sandcat_prectice/ws/src/manager.rs:70-91 | What every open client of the sender is written, field by field: response mark, chat's id and error, error type exactly on an error; after a failed call only the content is new |
| Gateway.Manager.CallChat | sandcat_prectice/ws/src/manager.rs:63-88 | The outcome the manager sees has chat's id, time and error, or the failed call's text, and the topic gets the stamped message or nothing, in every way the call can end |
| Gateway.Manager.Broadcast | sandcat_prectice/ws/src/manager.rs:124-126 | A send into the queue fails exactly when the receiver is gone, completes exactly when there is room and then is the last one in, and waits otherwise |
| Gateway.Manager.SendSingleMsg | sandcat_prectice/ws/src/manager.rs:118-122 | Every client of the user on the node, on every platform, is written the message once |
| Gateway.SendMsgToClients | sandcat_prectice/ws/src/manager.rs:104-117 | Each client's socket gets the message exactly once; a broken socket stops none of the others |
| Gateway.Manager.Register | sandcat_prectice/ws/src/manager.rs:94-97 | Afterwards the user's platform holds this client, every other lookup is unchanged, and the hub is still its machine's hub |
| Gateway.Manager.Unregister | sandcat_prectice/ws/src/manager.rs:98-102 | The key is free afterwards whoever held it, every other lookup is unchanged, the user's inner map stays, and the hub is still its machine's hub |
| Gateway.Manager.HubIsSound | sandcat_prectice/ws/src/manager.rs:94-102 | The manager's hub holds on a key exactly the client registered last unless a connection of the key ended since, and only clients of live connections |
| Gateway.Manager.HubHoldsTheLive | sandcat_prectice/ws/src/ws_server.rs:87-177 | If no connection opened a busy key, the manager's hub holds every live connection's client |
| Gateway.Manager.StateIsSound | sandcat_prectice/ws/src/manager.rs:57-93 | Whatever its calls answered, the manager is in a state satisfying the machine's invariant |
| Gateway.ReceiveTask | sandcat_prectice/ws/src/ws_server.rs:130-169 | Queued are exactly the messages of the readable texts before the first close, broken frame or unanswered ping, in order and once each, up to a gone receiver; pongs, binaries, answered pings and unreadable texts never stop the task |
| Hub.EntriesAreLive | sandcat_prectice/ws/src/manager.rs:94-102 | Over all interleavings, overlapping reconnects included, every client in the hub is registered, not yet unregistered, and under its own ids |
| Hub.AllEndedMeansEmpty | sandcat_prectice/ws/src/ws_server.rs:171-177 | When every connection has ended every inner map is empty |
| Hub.HubHoldsLastRegistered | sandcat_prectice/ws/src/manager.rs:94-102 | In every run a key holds the connection registered last on it unless a connection of that key ended since |
| Hub.ExactIffNoOverlap | sandcat_prectice/ws/src/ws_server.rs:87-177 | The hub is exactly the live connections throughout a run if and only if no connection opens a key that is busy |
| Hub.StepKeepsExact | sandcat_prectice/ws/src/manager.rs:94-102 | A step loses a live connection exactly when it opens a busy key |
| Hub.OverlapLosesNewClient | sandcat_prectice/ws/src/ws_server.rs:176-177 | An old connection's teardown after a reconnect: the new connection is live and not in the hub |
| Hub.TeardownRestoresIffKeyWasFree | sandcat_prectice/ws/src/manager.rs:94-102 | Register then unregister restores every lookup if and only if the key was free; the inner map stays |
| Discovery.ReplicaAgreement | sandcat_prectice/utils/src/tonic_service_discovery.rs:86-127 | While the receiver is there, replaying taken, queued and unsent changes gives exactly the usable addresses of the snapshot being published, for every walking order and any registry errors |
| Discovery.ChangesAlternate | sandcat_prectice/utils/src/tonic_service_discovery.rs:118-125 | The changes sent for a usable address alternate from an Insert; an unusable address is never inserted; also after the receiver left |
| Discovery.DiffIsLegal | sandcat_prectice/utils/src/tonic_service_discovery.rs:113-127 | One round's changes, in any order, lead from one snapshot's usable addresses to the next's and are legal all the way |
| Discovery.LegalAlternates | sandcat_prectice/utils/src/tonic_service_discovery.rs:118-125 | A legal change stream alternates per usable address, which is in exactly after an odd number of changes |
| Discovery.DynamicServiceDiscovery.ChangeSet | sandcat_prectice/utils/src/tonic_service_discovery.rs:113-127 | An Insert for exactly the new usable addresses, then a Remove for exactly the gone ones, each once, in some order |
| Discovery.DynamicServiceDiscovery.Discovery | sandcat_prectice/utils/src/tonic_service_discovery.rs:86-111 | Success publishes the snapshot and what was sent replays to its usable addresses; a registry error changes nothing; a gone receiver keeps the old snapshot |
| Discovery.DynamicServiceDiscovery.RunRounds | sandcat_prectice/utils/src/tonic_service_discovery.rs:136-144 | After any rounds the service holds the snapshot of the last successful one, or the old one if there was none; while the receiver is there the successful rounds are those whose registry call was; agreement and alternation are kept |
| Discovery.GetChannel | sandcat_prectice/utils/src/tonic_service_discovery.rs:179-186 | A failed first registry call sends nothing and hands out no channel; otherwise, after any further rounds, what was sent replays to the usable addresses of the last good snapshot |
| Pusher.ListIsContained | sandcat_prectice/pusher/src/main.rs:31-47 | Under every interleaving of applying and evicting, the list is within the replay of the changes taken |
| Pusher.EvictedStaysOut | sandcat_prectice/pusher/src/main.rs:129-132 | An address that discovery has put in but the list does not hold comes back only after a Remove and then an Insert for it were taken |
| Pusher.DroppedStaysOut | sandcat_prectice/pusher/src/main.rs:34-42 | A push's eviction and a failed connect each put the address out until such a Remove and Insert |
| Pusher.ListIsExact | sandcat_prectice/pusher/src/main.rs:31-47 | Under every interleaving, an address is listed if and only if connecting to it succeeded and since then no push evicted it and no Remove for it was taken |
| Pusher.UndisturbedListFollowsRegistry | sandcat_prectice/pusher/src/main.rs:23-62 | Without evictions and failed connects, once everything is taken the list is exactly the registry's usable addresses |
| Pusher.PusherRpcService.TakeChange | sandcat_prectice/pusher/src/main.rs:31-47 | The next change is taken: a Remove takes its address off the list, an Insert always finds it out and begins to connect |
| Pusher.PusherRpcService.EndConnect | sandcat_prectice/pusher/src/main.rs:34-42 | Whatever was evicted meanwhile, the address is listed exactly if connecting succeeded; all others keep their clients |
| Pusher.PusherRpcService.ApplyChange | sandcat_prectice/pusher/src/main.rs:31-47 | A turn of the loop with nothing in between: afterwards the address is listed exactly if it was inserted and connected to; all others keep their clients |
| Pusher.PusherRpcService.FollowRound | sandcat_prectice/pusher/src/main.rs:23-62 | When a discovery round has gone through, only usable addresses of its snapshot are listed, and all of them if every connect succeeded and none was missing before |
| Pusher.PusherRpcService.ListIsSound | sandcat_prectice/pusher/src/main.rs:23-134 | After any turns and pushes, exactly the connected and not dropped addresses are listed, all of them in by the changes taken |
| Pusher.PusherRpcService.PushSingleMsg | sandcat_prectice/pusher/src/main.rs:103-134 | While the applying loop goes on, every listed instance is tried once and every failure reported and evicted once; outside the failed addresses the list is what that loop alone makes of it; an empty list makes the call fail |
| Pusher.PusherRpcService.FanOut | sandcat_prectice/pusher/src/main.rs:114-133 | The same for every scheduling order of sends, drain loop and applying task and every positive channel capacity; the drain loop ends |
| OwnedList.LinkedList.Push | list/examples/linked_list.rs:46-55 | The value is put in front; the chain stays sound |
| OwnedList.LinkedList.Append | list/examples/linked_list.rs:64-78 | The value is put at the end after a walk that ends; the chain stays sound |
| OwnedList.LinkedList.Len | list/examples/linked_list.rs:80-82 | The number of values |
| OwnedList.LinkedList.Pop | list/examples/linked_list.rs:85-91 | The first value leaves, or nothing |
| OwnedList.LinkedList.PopBack | list/examples/linked_list.rs:94-114 | The last value leaves, or nothing; no unwrap fails and the walk ends |
| OwnedList.LinkedList.Execute | list/examples/linked_list.rs:46-114 | Every mix of calls follows the sequence operations and returns what they return |
| OwnedList.LinkedList.SizeIsChainLength | list/examples/linked_list.rs:23-26 | Following the links meets exactly `size` distinct nodes and then the end |
| RawList.LinkedList.Push | list/examples/linked_list_unsafe.rs:61-77 | The value is put in front; nodes stay distinct and chained |
| RawList.LinkedList.FormatNode | list/examples/linked_list_unsafe.rs:27-35 | The recursion ends and yields the values from this node on with single spaces between |
| RawList.LinkedList.Format | list/examples/linked_list_unsafe.rs:43-51 | The list's text, empty for an empty list |
| RawList.PiecesOfSpaced | list/examples/linked_list_unsafe.rs:27-35 | Cutting the text at its spaces gives each value's text back, once and in order |
| RawList.PushAll | list/examples/linked_list_unsafe.rs:27-77 | The same pushes give both lists the same contents and size, and the text's pieces are the pushes in reverse |
| Channels.Channel.Send | sandcat_prectice/utils/src/tonic_service_discovery.rs:104-108 | A send appends once there is room and fails for good when the receiver is gone |

## Left out

- Guarantees.EndToEndOrder: nothing is claimed across consumer lives, where a redelivery gets a new number.
- Gateway.Manager.Broadcast: is one poll of a waiting send; other senders' polls may come between.
- Gateway.Manager.Run: connections' sends come between turns, which leaves the same queue as sends during a chat call; the hub does not change meanwhile (in the pipeline machine it does).
- Pusher.PusherRpcService.PushSingleMsg: walks the list at one moment, and changes arrive in the channel before the call; `FanOut` leaves open which instances the walk met.
- Audience.PushServesEveryLiveConnection: the clients are those the instance found; the map's lock keeps a user's connections from changing while it writes.
- Gateway.ReceiveTask: a ping that ends the other half of the connection appears as the end of the frames.
- Crash of a websocket node: a node may stop for ever at any step; a restarted one is a new node.
- Several active consumers, rebalancing, broker replication and retention, the stores' own internals.
- Message text encoding, id generation, the clock, configuration, registration, tracing, heartbeats and close reasons.
- A record that is not text or does not decode: never written by chat.
- `LbWithServiceDiscovery` and the load balancing behind it; HTTP calls to the registry beyond "a snapshot or an error".
- Address parsing and endpoint building beyond which addresses parse (`Snapshot`) and are usable (`builds`).
- The client's gap detection and catch-up and the MongoDB inbox: described in the documentation, not in this code.
- Overflow of a list's `usize` length; freeing the raw list's nodes, which the code never does.
- `list/examples/list.rs` and topic creation: would add only easy members.
