# ws-fanout: a verified model of the fan-out engine

A Dafny model of the in-process core of ws-fanout: the registry, the connection life cycle and
session loop, snapshots, and the thread that drains the shared-memory queue. What the crate
promises is mostly about interleavings and whole runs, so the centre of the project is a
concurrent state machine whose runs cover every interleaving the locks allow, and the main results
are statements about every run.

`dafny verify dfyconfig.toml` checks the whole project.

## How the model is built

- `Protocol`, `Delivery`, `Subscriptions`, `Requests`: frames, one bounded queue with its drop
  streak, the arithmetic of one subscribe or unsubscribe, the relation between the two registry
  maps, and what one `subscribe` request is answered with.
- `Registry`: the registry object with the source's in-place loops, each method proved against
  those functions. `Handler` (in `Requests.dfy`) is the Subscribe arm of `handle` run on it, the
  last-value snapshot store, and the gateway's record-and-publish.
- `Machine`: the concurrent machine. A label is one atomic step of one thread, and `Legal` runs are
  all sequences of enabled labels. A write-lock section is one step and needs that no read lock is
  held. `publish`, `broadcast` and `send` hold the read lock over many steps: each delivery is a
  queue step, a metric step and a streak step, in any order of recipients. A connection's own task
  runs the session loop arm by arm, with the slow check after each arm. The gateway thread records
  each value before it publishes it.
- `Invariant`, `Tracking`, `Feed`, `Isolation`, `Output`, `Dialogue`, `Turns`, `SnapshotOrder`,
  `Convergence`, `Restoring`, `Accounting`: what holds in every run of the machine.
- `Sequential`: what one thread does with nobody in between. Its fine steps then amount to one call on
  the registry object, and they can always be finished. `Arms`: the arms of a session and its checks.
- `Lifecycle`: connection tasks around the machine, from permit to release. Each registry step of a
  task is a machine step, so its runs are machine runs (`FanRunIsLegal`).
- `SessionClock`: the session loop against the clock. `Source`: the drain loop, and the exit test of
  source threads; the loop's steps are steps of the machine's gateway thread
  (`LoopRunsInTheMachine`). `Examples`: runs where the prose promises more than the code keeps.

History kept in the machine (`log`, `socket`, `discarded`, `joins`, `born`, `tape`, `recorded`)
influences no step. A connection's `log` lists its requests, lookups, offers with their outcome,
dequeues and slow checks in order; the `tape` lists publications in the order they took the read
lock; `Heard`, `Aired`, `Accepted` and `Taken` read off the log and the tape what was offered,
published, enqueued and dequeued.

Channels, payloads and tokens are byte strings, because the length limit counts bytes. The
validator and the authorizer are arbitrary functions, the outcomes of socket writes and queue polls
and all times are inputs.

## Where the code and its documentation differ

- README.md line 75 says a new subscriber gets current state before its first delta. Two things can
  go wrong. The lock is released between the registry update and the first reply, so Data can be
  queued first (`DataOvertakesSnapshot`). And the snapshot is dropped when the queue is full, which
  with a queue of one frame the acknowledgement alone achieves (`SnapshotDropped`,
  `DeltaWithoutSnapshot`). `SnapshotFirstIff` gives the exact condition, `SnapshotFirstIfUndisturbed`
  a form to check beforehand, and `NoLostUpdate` what is guaranteed in any case.
- src/snapshot.rs line 28 recommends the last-value store where the latest message is the state. A
  subscriber that receives everything may still be left with an older value: one published between
  the lookup and the snapshot is queued first (`StaleSnapshot`). `SnapshotGoesBackIff` and
  `CurrentIff` say exactly when the client ends with the latest value.
- docs/protocol.md line 31 says `subscribed` lists what is active. It lists what was newly added;
  the two agree exactly when nothing asked for was already held (`AckListsActiveIff`).
- src/lib.rs line 85 says dropping every clone stops the server. With source threads that holds
  exactly when at most one is live (`DropStopsIffAtMostOneSource`).
- src/registry.rs line 26 says the streak is reset by the first delivery that succeeds. Queue and
  counter are updated separately, so overlapping deliveries can leave it wrong
  (`OverlapMiscounts`). It comes out right, however the deliveries under way finish, exactly when
  never a success and a drop are under way to the connection together (`StreakIsExactIff`), and it
  never exceeds the drops that happened (`StreakNeverExceedsDrops`). Even then a check between a
  success and the update that clears the counter closes a client it should keep (`ClosedTooSoon`,
  `TooSlowIsExactIff`).
- src/protocol.rs line 82 says a fresh snapshot follows a resync. No code sends one: a fresh snapshot
  follows exactly when a `subscribe` newly adds the channel and finds a value
  (`SnapshotFollowsJoin`, `RestoredIffRequested`).
- docs/protocol.md line 35 says that after a resync a re-subscribe restores the state. For a channel
  that is still held it does not (`ResubscribeRestoresNothing`, `ResubscribeExample`): the client has
  to unsubscribe it first (`HeldIsRestoredIffLeft`).
- The final `close` of a socket has no deadline, so the timing results end where the session
  decides to end. Liveness counts inbound items when they are consumed, not when they arrive.

## Model

| member | source | states |
|---|---|---|
| `Delivery.DeliverEachIsPrefix` | src/registry.rs:233-248 | Frames delivered in a row with nobody reading enter the queue as the longest prefix that fits, and the streak counts the rest. |
| `RegistryObject.Registry.constructor` | src/registry.rs:70-76 | An empty registry is consistent and its first id is 1. |
| `RegistryObject.Registry.Add` | src/registry.rs:91-105 | A fresh id gets an empty open connection; the index is untouched; both connection counters advance. |
| `RegistryObject.Registry.Remove` | src/registry.rs:107-122 | The connection is gone, everything else is as before, and index and active counter agree again; an unknown id changes nothing. |
| `RegistryObject.Registry.DelistSet` | src/registry.rs:110-117 | The loop, in any set order, delists the id under every channel it held and keeps no empty set. |
| `RegistryObject.Registry.Len` | src/registry.rs:125-127 | The number of connections, equal to the active counter. |
| `RegistryObject.Registry.Subscribers` | src/registry.rs:135-137 | The size of the set a scan of every connection finds. |
| `RegistryObject.Registry.Subscribe` | src/registry.rs:141-169 | Results and new set are those of the one-by-one admission; other connections are untouched; index and sets agree again at the end; an unknown id is answered with nothing. |
| `RegistryObject.Registry.AdmitInPlace` | src/registry.rs:149-164 | The first loop computes the admission and leaves the index behind. |
| `RegistryObject.Registry.EnlistInPlace` | src/registry.rs:165-167 | The second loop enlists the id under each added channel. |
| `RegistryObject.Registry.Unsubscribe` | src/registry.rs:171-195 | Removes what was held of the request, reports it, and index and sets agree again. |
| `RegistryObject.Registry.WithdrawInPlace` | src/registry.rs:181-185 | The first loop computes the withdrawal. |
| `RegistryObject.Registry.DelistInPlace` | src/registry.rs:186-193 | The second loop delists the id and drops emptied sets. |
| `RegistryObject.Registry.DeliverOne` | src/registry.rs:233-248 | Queue, streak and the two frame metrics after one delivery, for room, full and closed. |
| `RegistryObject.Registry.Fan` | src/registry.rs:203-211 | In any set order every addressed connection gets exactly one delivery, and count and metrics are the numbers of successes and drops. |
| `RegistryObject.Registry.Publish` | src/registry.rs:198-212 | Same queues, streaks, counters and count as scanning every connection for the channel. |
| `RegistryObject.Registry.Broadcast` | src/registry.rs:215-222 | One delivery to every connection, with its count and metrics. |
| `RegistryObject.Registry.Send` | src/registry.rs:225-231 | One delivery to one connection with its metrics, or false and no change. |
| `RegistryObject.Registry.Resync` | src/lib.rs:158-168 | The same frame published once per listed channel, with the total count and both frame metrics. |
| `RegistryObject.ResyncReachesEachHolder` | src/lib.rs:158-168 | A connection gets one copy of a scoped resync per mention of a channel it holds. |
| `RegistryObject.LookupIsScan` | src/registry.rs:64-66 | Under the index invariant one lookup finds what a scan of all connections finds. |
| `Subscriptions.AdmitGrows` | src/registry.rs:154-164 | The set held grows by exactly `added`, which is new. |
| `Subscriptions.AdmitRefusesAtLimit` | src/registry.rs:158-161 | Below the limit nothing was refused and everything asked for is held. |
| `Subscriptions.AdmitRefusesTheRest` | src/registry.rs:154-164 | The refused names are exactly the mentions of names not held afterwards. |
| `Subscriptions.AdmitIsGreedy` | src/registry.rs:139-169 | `added` is the longest prefix of the distinct new names that fits under the limit. |
| `Subscriptions.AdmitAccounts` | src/registry.rs:154-164 | Every mention of a name is added once, refused, or a repeat of a held name. |
| `Subscriptions.AdmitBatches` | src/registry.rs:141-169 | Two subscribes in a row equal one with the names concatenated and the results concatenated. |
| `Subscriptions.WithdrawMeaning` | src/registry.rs:181-185 | Exactly the requested names that were held go, each reported once. |
| `Subscriptions.WithdrawBatches` | src/registry.rs:181-185 | Two unsubscribes in a row equal one with the names concatenated and the results concatenated. |
| `Subscriptions.WithdrawUndoesAdmit` | src/registry.rs:141-195 | Unsubscribing exactly `added` gives back the set before the subscribe. |
| `Subscriptions.UnsubscribeRestores` | src/registry.rs:141-195 | Unsubscribing exactly `added` restores both maps. |
| `Subscriptions.CoupledIsUnique` | src/registry.rs:62-67 | The index is determined by the connections' own sets. |
| `Subscriptions.EnlistCouples` | src/registry.rs:162-167 | Growing a set and then the index re-establishes their agreement. |
| `Subscriptions.DelistCouples` | src/registry.rs:182-193 | Shrinking a set and then the index re-establishes it. |
| `Subscriptions.RemoveCouples` | src/registry.rs:109-117 | So does dropping a connection and delisting what it held. |
| `Requests.JudgeAccounts` | src/server.rs:324-361 | Every mention of every name in a request is answered once: rejected for length, else authority, else limit, or added once, or already held. |
| `Requests.RejectedInOrder` | src/server.rs:337-354 | Rejections are listed by reason: invalid, unauthorized, limit. |
| `Requests.RejectedKeepsOrder` | src/server.rs:337-354 | The names listed with a reason are exactly the mentions in the request with that fate, in the order of the request. |
| `Requests.SnapshotsMean` | src/server.rs:365-374 | There is one snapshot for each added channel that has a value; it carries that channel and that value and stands behind those of the channels added before. |
| `Requests.KeepAppend` | src/server.rs:326-331 | Partitioning keeps the order of the request. |
| `Requests.JudgeIsLawful` | src/server.rs:326-335 | From a set that is authorised, short enough and within the limit a request reaches such a set. |
| `Requests.RejectedIsInactive` | src/server.rs:337-361 | With a fixed authorizer nothing rejected is active afterwards. |
| `Requests.AckListsActiveIff` | src/server.rs:356-361 | The acknowledgement names every requested channel that is active iff none of them was already held. |
| `Requests.AckOmitsActiveExample` | src/registry.rs:155-157 | Subscribing again to a held channel: it is active and not in the acknowledgement. |
| `Handler.RecordAndPublish` | examples/gateway.rs:48-57 | The store holds the value, and every holder of the channel was offered it once. |
| `Handler.CollectRejected` | src/server.rs:337-354 | The three loops list the refused names with their reasons. |
| `Handler.HandleSubscribe` | src/server.rs:324-376 | The client ends with the judged subscriptions, and its queue with the longest prefix of acknowledgement then snapshots that fits; nobody else changes. |
| `Sequential.SubscribeAlone` | src/server.rs:324-376 | From any state of any run, a `subscribe` with nobody in between leads the machine to the state in which `HandleSubscribe` leaves the registry object. |
| `Sequential.UnsubscribeAlone` | src/server.rs:378-381 | The same for `unsubscribe`: exactly the requested names that were held go, and one answer names them. |
| `Sequential.RequestAlone` | src/server.rs:250-258 | The same for a request that is answered with a single frame. |
| `Sequential.PublishAlone` | src/registry.rs:198-222 | In whatever order its recipients come, a publication or broadcast with nobody in between gives the queues, streaks and metrics of the registry object's method. |
| `Sequential.PublishersNeverWait` | src/registry.rs:198-222 | Whoever else holds the read lock, a publisher not in the middle of a call can start any publication, scoped resync or broadcast. |
| `Sequential.ReaderFinishes` | src/registry.rs:198-231 | From any state of any run, whoever holds the read lock can finish and release it by its own steps. |
| `Sequential.LocksAreReleased` | src/registry.rs:141-231 | From any state of any run all read locks can be released, so that a writer gets its turn. |
| `Sequential.TurnFinishes` | src/server.rs:243-296 | A session can finish its turn by its own steps and comes to the slow check. |
| `Handler.SendSnapshots` | src/server.rs:365-374 | The loop sends one snapshot per added channel that has one, in order. |
| `Machine.Untouched` | src/registry.rs:107-248 | A step touches no connection but the one it acts on. |
| `Invariant.Always` | src/registry.rs:91-257 | In every reachable state index and sets agree with no empty set, ids are used once, queues stay within `send_queue`, every subscription is authorised, short enough and within the limit, and read-lock holders address registered connections that hold the channel. |
| `Tracking.Histories` | src/registry.rs:198-248 | What each step adds to a connection's log and to the tape. |
| `Tracking.Balance` | src/registry.rs:198-222 | In one step, what is newly offered or owed to a listener is what was owed or newly published. |
| `Tracking.ExactSinceBirth` | src/registry.rs:215-222 | For every publisher and interleaving a connection is offered exactly the broadcasts since it registered, in order. |
| `Tracking.ExactWhileSubscribed` | src/registry.rs:141-212 | For every publisher and interleaving, what a connection was offered on a channel since it subscribed, plus the frame on its way, is what was published since then, in order and without gaps. |
| `Feed.FeedAlways` | examples/gateway.rs:48-57 | The gateway publishes what it recorded, in order and at most one behind; the snapshot store holds the latest recorded values; an overrun waits for its resync. |
| `Feed.LookupIsLatest` | src/snapshot.rs:43-56 | In every run a lookup returns the latest value recorded before it, or none if there was none. |
| `Feed.LookupIsLate` | src/server.rs:332-373 | A lookup made for a subscription comes after everything published before the subscription began was recorded. |
| `Feed.NoLostUpdate` | src/server.rs:332-373 | For every interleaving, the snapshot read is the latest of the first k recorded values and the subscriber is offered, in order, every value on the channel published from a point no later than k. |
| `Feed.EachUpdateArrives` | src/outcry_source.rs:63-68 | Each published value was recorded before the lookup, and the snapshot is that value or a later one, or it is offered to the subscriber at its place behind the values published since the subscription began. |
| `Feed.HistoryGrows` | src/registry.rs:233-248 | Along a run a connection's log and the tape only grow. |
| `Feed.OverrunIsSignalled` | src/outcry_source.rs:90-94 | Between an overrun and the next value the gateway publishes, every connection registered throughout was offered a Resync. |
| `Isolation.OthersUnseen` | src/registry.rs:3-8 | A step of another connection leaves everything this one can see unchanged. |
| `Isolation.KeptSeen` | src/registry.rs:107-248 | A step of this connection or of a publisher is possible with the others erased and has the same effect on this connection. |
| `Isolation.OthersDoNotMatter` | src/registry.rs:3-8 | Erasing all other connections and their steps from any run leaves a legal run with the same view for this connection. |
| `Isolation.SlowClientsPayAlone` | src/registry.rs:3-8 | In it the connection's queue, streak, subscriptions, offers with outcomes and socket are the same. |
| `Output.QueueIsFifo` | src/server.rs:245-248 | What entered a queue was taken, still waits, or was discarded with the receiver, in that order. |
| `Output.SocketAlways` | src/server.rs:245-248 | A session writes to the socket the frames it took, in order, short of at most the one whose write failed. |
| `Output.OrderedOutput` | src/server.rs:245-248 | The text frames a session writes are a prefix of the enqueue order; the queue never exceeds `send_queue`. |
| `Output.OffersFollowTheQueue` | src/registry.rs:233-248 | An offer succeeds only with fewer than `send_queue` frames waiting and is dropped only with exactly that many. |
| `Output.FullStaysFull` | src/registry.rs:225-248 | After an offer finds the queue full, none by any thread succeeds until the session takes a frame. |
| `Output.EnqueuedIsPublishedMinusDrops` | src/registry.rs:198-248 | Per publisher and channel, the enqueued frames are the published sequence during the subscription minus exactly the deliveries that found no room. |
| `Dialogue.FenceAlways` | src/server.rs:378-381 | The log's account of subscriptions is the set held, and pending answers speak about it correctly. |
| `Dialogue.OffersFit` | src/registry.rs:171-212 | Data and snapshots are offered only for channels held at that moment, `unsubscribed` only for channels not held. |
| `Dialogue.UnsubscribeIsAFence` | src/server.rs:378-381 | No Data or snapshot for a channel is offered after an `unsubscribed` naming it until the client re-adds it, whatever publishers run. |
| `Dialogue.FenceOnTheSocket` | src/server.rs:378-381 | The same in socket order. |
| `Dialogue.ScriptAlways` | src/server.rs:356-375 | What a request was answered with so far, is being answered and comes next is what it calls for, with lookups in `added` order. |
| `Dialogue.RepliesEnterAsPrefix` | src/server.rs:250-258 | Under any concurrent publishing the replies to one request that enter the queue are a prefix of acknowledgement then snapshots, and the other ones offered found it full. |
| `Dialogue.CompletedTurn` | src/server.rs:356-375 | When the request is done everything due was offered and every added channel looked up. |
| `Turns.LogTells` | src/server.rs:332-376 | Every added name was not held, every lookup is for the next added channel of its turn, Data is offered by publishers of its channel only, and snapshots by the session only. |
| `Turns.SnapshotFollowsJoin` | src/protocol.rs:82-83 | Every snapshot offered was looked up earlier in the same turn, for a channel the turn's `subscribe` newly added. |
| `Turns.LookupsAreServed` | src/server.rs:365-374 | Whatever a lookup finds is offered to the client before its turn ends. |
| `SnapshotOrder.SnapshotFirstIff` | src/server.rs:332-375 | At every snapshot of every run: it enters the queue with no Data of its channel ahead of it since the subscription began iff what waited at the request plus everything offered since leaves room, and whoever published Data on the channel since has yet to come to this client. |
| `SnapshotOrder.SnapshotFirstIfUndisturbed` | src/server.rs:356-375 | With room for the acknowledgement and one snapshot per added channel, and no publisher at work meanwhile, every snapshot comes first. |
| `Convergence.SnapshotIsLastLook` | src/server.rs:365-374 | Every snapshot offered is what the latest lookup before it found. |
| `Convergence.CurrentIff` | src/snapshot.rs:26-57 | In every run, once nothing of the gateway's is on its way: the client's state is a recorded value, found by position, and it is the latest one iff the last state that entered its queue is the last Data offered, or a snapshot no value was recorded after. |
| `Convergence.SnapshotGoesBackIff` | src/server.rs:363-374 | If every state offered entered: the client ends with the latest value iff Data came behind the snapshot or no value was recorded after its lookup; otherwise it ends with the snapshot, all later values having entered before it. |
| `Restoring.RestoredIffRequested` | src/protocol.rs:82-83 | From any moment on, in particular a resync, a fresh snapshot of a channel is offered iff a `subscribe` newly adds the channel and its lookup finds a value. |
| `Restoring.HeldIsRestoredIffLeft` | docs/protocol.md:35 | For a channel held at that moment, with no lookup for it still to come: iff it is unsubscribed, then newly added, and a value is found. |
| `Accounting.StreakMeaning` | src/registry.rs:26-28 | A streak of n means that the last n counted outcomes were all drops. |
| `Accounting.StreakIsExact` | src/registry.rs:233-257 | As long as no success and drop are under way to a connection together, its counter is the number of drops since the last success, up to the deliveries under way. |
| `Accounting.ComesOutRightIff` | src/registry.rs:233-248 | At any moment of any run: the counter comes out as the streak in every order of finishing the deliveries under way iff no success and drop are among them together and it is right so far. |
| `Accounting.StreakIsExactIff` | src/registry.rs:26-28 | The counter comes out as the streak at every moment of a run iff at no moment a success and a drop are under way to the connection together. |
| `Accounting.TooSlowIsExactIff` | src/server.rs:289-295 | As long as no success and drop are under way together, a check takes the too-slow branch exactly when the last `max_consecutive_drops` finished outcomes were all drops, unless it finds the counter at the threshold with a success under way about to clear it, and then it does not. |
| `Accounting.StreakNeverExceedsDrops` | src/registry.rs:233-248 | Under any overlap the counter is at most the drops that happened. |
| `Accounting.MetricsAreExact` | src/registry.rs:233-248 | Each frame metric plus the deliveries yet to count themselves is the number of offers with that outcome over all connections ever. |
| `Accounting.SentIsConserved` | src/registry.rs:42-45 | `frames_sent` is frames taken plus still queued plus discarded at close, up to deliveries in flight. |
| `Lifecycle.FanRunIsLegal` | src/server.rs:132-179 | Every life-cycle run is a run of the machine. |
| `Lifecycle.HouseAlways` | src/server.rs:96-130 | Tasks, permits, counters and registry entries agree in every reachable state. |
| `Lifecycle.CapacityHolds` | src/server.rs:108-130 | Registered connections <= live tasks = permits out <= `max_connections`. |
| `Lifecycle.ActiveIsConserved` | src/registry.rs:91-122 | `connections_active` plus adds not yet counted is the number of connections, and never negative. |
| `Lifecycle.TotalIsExact` | src/registry.rs:91-105 | `connections_total` plus adds not yet counted is the number of connections ever registered. |
| `Lifecycle.RefusedIsExact` | src/server.rs:108-118 | `refused_full` is the number of refusals, each with as many tasks as permits. |
| `Lifecycle.PresentDecides` | src/server.rs:146-160 | After a token is presented the task is ending iff the validator refuses it, and otherwise carries the token and its claims. |
| `Lifecycle.ValidTokenComesIn` | src/server.rs:132-179 | From any reachable state with a permit free and no read lock held, a client with a valid token can come to a running session, registered under the next id, greeted and counted. |
| `Lifecycle.Departs` | src/server.rs:101-105 | A session not in the middle of a delivery can end whoever holds the read lock; what was queued goes with its receiver. |
| `Lifecycle.RunningCanLeave` | src/server.rs:101-105 | From a running session the task can go: its entry is removed, its permit released, the active counter lowered. |
| `Lifecycle.EarlyTaskCanLeave` | src/server.rs:122-144 | A task not yet acknowledged can give up, which releases its permit and changes nothing else. |
| `Lifecycle.SessionStepsHaveMoves` | src/server.rs:229-298 | Every step the machine allows a running session is possible in the life cycle, with the same effect. |
| `Lifecycle.OutsideStepsHaveMoves` | src/registry.rs:198-248 | So is every step of a publisher, of the feed and of a delivery. |
| `Lifecycle.OrderedWire` | src/server.rs:162-176 | The text frames on the socket of every client ever accepted are `authenticated` and then a prefix of the enqueue order. |
| `Lifecycle.RegisteredMeansAuthenticated` | src/server.rs:146-179 | Every entry belongs to a task whose token was accepted and which wrote `authenticated`, the first frame on its socket, before it registered. |
| `Lifecycle.SessionKeepsItsEntry` | src/server.rs:245-246 | During a session the sender stays registered, so the queue never reports its end. |
| `SessionClock.Session` | src/server.rs:229-298 | The loop ends as, and last saw the client when, the turn-by-turn account says, and counts a heartbeat timeout iff it ends with one. |
| `SessionClock.EndIsFinal` | src/server.rs:243-297 | Once the loop has decided to end, later turns change nothing. |
| `SessionClock.EndsForTheFirstReason` | src/server.rs:243-296 | The loop ends with the reason of the first turn that gives one, and runs on iff none does: timed out before failed, too slow only after an arm that completed, at a streak at or above the threshold. |
| `SessionClock.LastSeenAtTheEnd` | src/server.rs:250-252 | The client was last seen when an item was last consumed, the ending turn included. |
| `Arms.OverIff` | src/server.rs:243-296 | In every run of the machine a session is over iff a write failed, an arm ended it, a check found the counter at the threshold, or its receiver was dropped. |
| `Arms.EveryTurnIsChecked` | src/server.rs:289-295 | Between any two arms of a session there is a slow check. |
| `Arms.TurnIsTheMachine` | src/server.rs:243-296 | A turn of the clocked loop is an arm and a check of the machine, with the same outcome when both read the same counter. |
| `SessionClock.SilenceIsBounded` | src/server.rs:250-286 | While it runs, the last tick is within g per unanswered tick of the last consumed item. |
| `SessionClock.ResponsiveIsKept` | src/server.rs:237-286 | Ticks at most g apart, every Ping answered within m ticks and m·g <= `heartbeat_timeout`: never timed out. |
| `SessionClock.SilentIsDetected` | src/server.rs:276-286 | With nothing consumed after t and the heartbeat never more than g late, no turn is taken after t + `heartbeat_timeout` + g. |
| `Source.Consume` | src/outcry_source.rs:56-104 | The loop over passes leaves position, buffer, counters and effects as the pass-by-pass account says. |
| `Source.EffectsAreTrue` | src/outcry_source.rs:62-68 | What is published for a position is the decoding of the frame there, a frame is given up only if the decoder rejects it, and it fits the buffer. |
| `Source.IssuedInOrder` | src/outcry_source.rs:62-79 | Without an overrun, the published values are exactly the decodable frames from the first position to the reader's, in order. |
| `Source.BooksAreKept` | src/outcry_source.rs:56-94 | The reader stands at its start plus frames handled plus what resyncs skipped; rejected frames are counted; the loop sleeps only after a thousand empty polls in a row. |
| `Source.StoppedIff` | src/outcry_source.rs:60-102 | The loop has ended iff a pass found no other holder of the server or a broken queue. |
| `Source.CursorFollows` | src/outcry_source.rs:61-103 | Positions are handled one after the other; only a resync jumps. |
| `Source.GapsAreNoticed` | src/outcry_source.rs:90-94 | Between frames handled in a row that are not neighbours in the queue an overrun was noticed. |
| `Source.TooSmallIsRetried` | src/outcry_source.rs:95-97 | A frame larger than the buffer is handed over by the next ready poll. |
| `Source.FollowIsTheMachine` | src/outcry_source.rs:62-94 | The loop's automaton allows a gateway step exactly when the machine does. |
| `Source.LoopFollowsGateway` | examples/gateway.rs:48-57 | Every run of the loop records each value right before publishing it and tells each overrun at once, as the machine's gateway must. |
| `Source.GatewayFollows` | src/outcry_source.rs:62-94 | In every run of the machine, whatever is interleaved, the gateway's own steps take the loop's automaton to the gateway's state. |
| `Source.LoopRunsInTheMachine` | src/outcry_source.rs:61-103 | In any run whose gateway steps are a prefix of a loop's effects and whose gateway holds no read lock, the step of the loop's next effect is enabled and keeps the two in step. |
| `Shutdown.CallersAreCounted` | src/lib.rs:85-95 | The callers' clones are those at the start plus the clones made minus the clones dropped. |
| `Shutdown.SourcesAreThoseThatStay` | src/outcry_source.rs:40-104 | The live sources are those at the start and those spawned that have neither left at an exit test nor failed since. |
| `Shutdown.NobodyLeavesACaller` | src/outcry_source.rs:60-61 | In no run does a source leave at its exit test while a caller holds a clone. |
| `Shutdown.WholeLife` | src/lib.rs:85-104 | A run in which sources start, one fails, a clone comes and goes, and the other leaves only after the caller is gone. |
| `Shutdown.LeavesIffAlone` | src/outcry_source.rs:60-61 | A source leaves at its exit test iff it holds the last clone. |
| `Shutdown.LoneSourceLeaves` | src/outcry_source.rs:51-61 | A lone source leaves at its first exit test after the last caller's clone is dropped. |
| `Shutdown.TwoSourcesNeverLeave` | src/outcry_source.rs:51-61 | Two or more sources keep each other alive for ever unless a queue fails. |
| `Shutdown.DropStopsIffAtMostOneSource` | src/lib.rs:85-104 | Dropping every clone lets go of the server iff at most one source was live. |
| `Shutdown.TwoSourcesExample` | src/lib.rs:90-94 | Two sources and no caller: both pass their exit test and stay. |
| `Examples.DataOvertakesSnapshot` | src/server.rs:332-361 | A run in which Data is queued before the acknowledgement and the snapshot. |
| `Examples.SnapshotDropped` | src/server.rs:363-374 | A run with nobody publishing in which the acknowledgement fills a one-frame queue and the snapshot is dropped. |
| `Examples.DeltaWithoutSnapshot` | src/server.rs:356-374 | That run continued: the client's first frame on the channel is Data. |
| `Examples.StaleSnapshot` | src/server.rs:363-374 | A run in which a newer value and then the older snapshot enter the queue, and nothing is left under way. |
| `Examples.ResubscribeRestoresNothing` | src/registry.rs:154-157 | In any state of any run, subscribing again to a held channel is answered with an empty acknowledgement and no snapshot, whatever value is there. |
| `Examples.ResubscribeExample` | docs/protocol.md:35 | A run in which a client is told to resync, subscribes again to the channel it holds, and gets no snapshot although a value is there. |
| `Examples.OverlapMiscounts` | src/registry.rs:233-248 | A run in which two overlapping deliveries leave the streak at one after a success. |
| `Examples.ClosedTooSoon` | src/server.rs:289-295 | A run without any such overlap in which the check closes a client whose last outcome was a success. |

## Left out

- JSON encoding and parsing, WebSocket framing and TCP: frames are values and the socket is the list of frames written.
- Token validation and authorisation policies (`src/auth.rs`): arbitrary functions of the model's environment.
- The queue's shared memory: positions advance by one per read and skip only through a resync.
- Wrap-around of 64-bit ids and counters: they are unbounded numbers; `idle_polls` does saturate at 32 bits.
- The reasons a handshake or authentication fails and the error frame sent then: a failed task just ends.
- `Config::validate`, builder setters, `Config::default`, error display and tracing: they carry no hard property.
- Lock poisoning, buffer sharing, allocation cost and that publishing never blocks: not functional properties.
- Memory ordering: the metrics and the drop counter are `Relaxed` atomics (src/registry.rs:50, 237, 242, 256), while every read and update in the machine takes effect at once and is seen by all.
- Fairness of `select!` and the tick gap g: hypotheses of the timing results.
- RegistryObject.Registry.AdmitInPlace: the mutable borrow of the map entry is a local copy written back after the loop, as is the one in WithdrawInPlace.
