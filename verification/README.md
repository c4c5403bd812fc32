# A verified model of the STOMP server and client

The repository is a publish/subscribe server in Java that speaks STOMP 1.2 over a reactor or a
thread per client, and a C++ client. This project models the parts in which its correctness is
decided and proves what they promise.

* **Wire format.** `Text` gives Java's `split`, C++'s `getline`, `parseInt` and `stoi`;
  `StompFrame` the two printers and two parsers; `FrameRoundTrip` what survives a round trip, and
  exactly when. `Framing`, `FrameStream` and `StompMessageEncoderDecoder` take this to byte streams cut
  anywhere, with the real growing array and Java's int overflow.
* **Actor pool and read path.** `ActorPool` is a transition system of selector threads, pool
  threads, connections, pooled buffers and decoders. `PoolLocks` has the same pool with a program counter for every
  monitor, read-lock and write-lock operation; `PoolRefinement` and `PoolProgress` prove that it
  refines the first, cannot deadlock and drains. `ActorThreadPool` is the class.
* **Write path.** `WritePath` interleaves senders, selector tasks, wakeups and partial writes;
  `NonBlockingConnectionHandler` holds the classes.
* **Server protocol.** `Connections` is the shared registry, `StompMessagingProtocol` the
  per-connection handlers, `Verdicts` what their decisions mean, `ServerRuns` and
  `LoginEvents` and `MessageIds` whole runs of any number of connections sending anything, `Undisciplined` the inputs that split
  the subscription indexes.
* **Client and sessions.** `StompClient` has the commands and handlers, `Keyboard`, `Event` and
  `EventRelay` the event text and its journey. `Session`, `SessionServe` and `SessionRuns` join any number of
  clients to the server by FIFO channels that carry printed text; `SessionHistory` and `ClientHistory`
  are about whole runs of them.
* **Composition.** `IngestRuns` joins the read path to the server, from the bytes a client writes to the handlers
  of its connection, and `Downstream` the write path to the client, from `send` to the client's handlers.
* **Length-prefixed objects.** `ObjectEncoderDecoder`.

Code that works step by step is a class or a method with a loop, proved equal to a function; the
transition systems and theorems are about those functions. `dafny verify dfyconfig.toml` checks everything.

The main results, hardest first: `PoolRefinement.StepRefines` with `PoolProgress.NeverStuck` and `BoundedDrain`;
`IngestRuns.RequestsReachHandlers` over `ActorPool.IngestPrefix` and `QuiescentIsDone`; `SessionRuns.SubscriptionMirror`,
`ReceiptsMatch` and `RequestsAccepted`; `SessionHistory.AcknowledgedOnce`,
`ClientHistory.StoredInOrder` and `StoppedIff`;
`Downstream.FramesReachClient`; `WritePath.NoStrandedWrite`, `WriteConservation` and `TerminatedIff`;
`StompFrames.TwoParsersAgree` and `FrameRoundTrip.ServerRoundTrip`; `EventRelay.EventArrives`; `ServerRuns.IndexesAgree`,
`LoginHistory`, `LoginEvents.ActiveIffStanding` and `MessageIds.SameIdIffSameSend`; `Verdicts.AcceptedIff` and `RejectedIff`; `ObjectCodec.StreamRoundTrip`.

What to know when reading the statements:

* A thrown exception is a value: `ServerParse` is `None` for the one message on which
  `fromString` indexes an empty array, and the rest of that read is dropped, as the read task's
  `finally` does.
* A header map's iteration order is open: printing relates a frame to every text it may have.
* `IndexInv` speaks of registered connections only: `connected` is never reset, so a task that
  runs after `disconnect` can add entries again.
* A returning user is not put back among the active users, so "one session per user" is stated
  with the history of logins.
* The channels of `Session` carry whole messages; `RequestsReachHandlers` and `FramesReachClient` say why the
  byte streams do, however they are cut.
* A client session is followed until its connection is closed under it (`lost`), or to the receipt of
  its log-out. An ERROR leads to a close exactly when the selector has not finished
  with it before the flag is set (`TerminatedIff`).

Where the code departs from STOMP 1.2 or from its own comments, the model follows the code: an
accepted SEND sends no RECEIPT ("Standard Headers" of STOMP 1.2 asks for one), a repeated header
keeps its last value (the specification keeps the first), the printer adds a newline to a body and
the parser does not remove it, and the event parser stores a stray entry `"escription"`.

## Model

| member | source | states |
|---|---|---|
| StompFrames.ToString | server/src/main/java/bgu/spl/net/impl/stomp/StompFrame.java:47-68 | the printed text is the layout of the frame in some enumeration order of its headers, with a newline after a non-empty body and a final NUL |
| StompFrames.ClientText | client/src/StompProtocol.cpp:84-113 | the client prints the same layout without the extra newline, up to the terminator its connection adds |
| StompFrames.FromString | server/src/main/java/bgu/spl/net/impl/stomp/StompFrame.java:71-97 | the split-based loop computes ServerParse, including the exception on the message that is a bare newline |
| StompFrames.ParseFrame | client/src/StompProtocol.cpp:116-132 | the getline loop computes ClientParse |
| StompFrames.ServerParseIsLineParse | server/src/main/java/bgu/spl/net/impl/stomp/StompFrame.java:71-97 | splitting at the first blank line and then at newlines, with Java's dropped trailing empties, equals reading line by line; a bare newline is the only message that throws |
| StompFrames.TwoParsersAgree | client/src/StompProtocol.cpp:116-132 | on every NUL-free message but the bare newline the two structurally different parsers give the same command, headers and body |
| FrameRoundTrip.ServerRoundTrip | server/src/main/java/bgu/spl/net/impl/stomp/StompFrame.java:47-97 | for every header order, parsing what was printed gives the frame with exactly one newline added to a non-empty body, if and only if command, keys and values are one-line and keys have no colon |
| FrameRoundTrip.ClientToServer | client/src/StompProtocol.cpp:84-113 | a frame printed by the client parses back exactly on the server, under the same exact condition |
| FrameRoundTrip.ServerToClient | client/src/StompProtocol.cpp:116-132 | a server frame printed in any header order reaches the client's parser unchanged but for the body's newline |
| FrameRoundTrip.TextHasNoInnerNul | server/src/main/java/bgu/spl/net/impl/stomp/StompFrame.java:47-68 | the only NUL of a NUL-free frame's text is the terminator |
| FrameRoundTrip.ParsedIsPrintable | server/src/main/java/bgu/spl/net/impl/stomp/StompFrame.java:71-97 | whatever the message, a parsed frame has one-line command and values and colon-free one-line keys |
| Framing.OnlyBadIsRejected | server/src/main/java/bgu/spl/net/impl/stomp/StompFrame.java:83-84 | the indexed access to the first line fails on exactly one message |
| Framing.IngestMeaning | server/src/main/java/bgu/spl/net/srv/NonBlockingConnectionHandler.java:64-79 | feeding chunk by chunk hands over exactly the NUL-terminated pieces of the stream, however it was cut, if and only if each is deliverable: not the bare newline and at most 2^30 bytes; the buffer then holds the bytes since the last NUL, or the first 2^30 of them |
| Framing.BareNewlineIsLost | server/src/main/java/bgu/spl/net/impl/stomp/StompFrame.java:83-84 | the first failing input |
| Framing.TooLongIsCut | server/src/main/java/bgu/spl/net/impl/stomp/StompMessageEncoderDecoder.java:28-33 | the second: of a message one byte too long the decoder keeps 2^30 bytes, drops the rest of the chunk, and hands the torso over at the next NUL |
| Framing.GetFrameAscii | client/src/ConnectionHandler.cpp:76-93 | one call consumes up to and including the delimiter and returns the next piece, or fails when the stream ends first |
| FrameStreams.ClientStream | server/src/main/java/bgu/spl/net/impl/stomp/StompMessageEncoderDecoder.java:13-40 | client frames written one after the other arrive in order, however cut, if and only if their texts fit 2^30 bytes, and parse back exactly if and only if all are printable |
| FrameStreams.ServerStream | server/src/main/java/bgu/spl/net/impl/stomp/StompMessageEncoderDecoder.java:13-40 | the server's encoder and decoder undo each other over whole streams, if and only if the texts fit, and up to the body newline if and only if all frames are printable |
| StompCodec.StompMessageEncoderDecoder.DecodeNextByte | server/src/main/java/bgu/spl/net/impl/stomp/StompMessageEncoderDecoder.java:14-21 | each byte moves the buffer as the stream specification says; capacity stays 1024 times a power of two and at most max(1024, 2(L - 1)) for the longest message L, total copied bytes equal capacity less 1024, and only a message of 2^30 bytes overflows |
| StompCodec.StompMessageEncoderDecoder.PushByte | server/src/main/java/bgu/spl/net/impl/stomp/StompMessageEncoderDecoder.java:28-33 | appends one byte, doubling a full array; fails exactly when doubling overflows an int |
| StompCodec.StompMessageEncoderDecoder.PopFrame | server/src/main/java/bgu/spl/net/impl/stomp/StompMessageEncoderDecoder.java:35-40 | empties the buffer and parses what it held; throws exactly on the bare newline |
| StompCodec.RunReadTask | server/src/main/java/bgu/spl/net/srv/NonBlockingConnectionHandler.java:64-79 | the read task's loop hands over the frames of its chunk in order and leaves the decoder as the stream specification says, also when a parser or array exception drops the rest of the chunk |
| ActorThreadPools.ActorThreadPool.Submit | server/src/main/java/bgu/spl/net/srv/ActorThreadPool.java:28-37 | submit on the maps and sets equals the atomic submit step for any number of actors |
| ActorThreadPools.ActorThreadPool.PendingRunnablesOf | server/src/main/java/bgu/spl/net/srv/ActorThreadPool.java:43-55 | returns the actor's queue, creating it on first use and never replacing one |
| ActorThreadPools.ActorThreadPool.Complete | server/src/main/java/bgu/spl/net/srv/ActorThreadPool.java:67-76 | complete equals the atomic complete step |
| ActorPool.HolderIsAlone | server/src/main/java/bgu/spl/net/srv/ActorThreadPool.java:28-76 | an actor with a running or completing thread has no other such thread and no job in the executor |
| ActorPool.JobIsAlone | server/src/main/java/bgu/spl/net/srv/ActorThreadPool.java:28-76 | an actor with a job in the executor has no second job and no thread running for it |
| ActorPool.PoolIsSafe | server/src/main/java/bgu/spl/net/srv/ActorThreadPool.java:28-76 | in every reachable state each actor has at most one task in the executor or running, pending tasks only while playing, and the tasks submitted are those begun, then those in the executor, then those pending, in order, each once |
| ActorPool.IngestPrefix | server/src/main/java/bgu/spl/net/srv/NonBlockingConnectionHandler.java:52-86 | over every interleaving and every cutting into reads, the messages processed on a connection are a prefix of the pieces of its submitted bytes, and with one selector thread of its received bytes, as long as each is deliverable |
| ActorPool.QuiescentIsDone | server/src/main/java/bgu/spl/net/srv/NonBlockingConnectionHandler.java:52-86 | with nothing left to run, every task has run once, no actor is playing, all buffers are free, and the messages processed are all pieces, if and only if each is deliverable; with one selector thread the submitted bytes are the received bytes |
| ActorPool.LeasedIsPrivate | server/src/main/java/bgu/spl/net/srv/NonBlockingConnectionHandler.java:126-138 | a leased buffer is in no task, queue or free list, so a read never overwrites an unfinished task's bytes |
| ActorPool.BuffersHaveOneOwner | server/src/main/java/bgu/spl/net/srv/NonBlockingConnectionHandler.java:126-138 | in every reachable state each buffer is in exactly one place: free, in one read, or in one unfinished task |
| PoolRefinement.StepRefines | server/src/main/java/bgu/spl/net/srv/ActorThreadPool.java:28-76 | every step at monitor, read-lock and write-lock granularity is a step of the atomic pool or invisible |
| PoolProgress.RunRefines | server/src/main/java/bgu/spl/net/srv/ActorThreadPool.java:28-76 | every fine-grained run is, seen through the abstraction, a run of the atomic pool |
| PoolProgress.PutNeverReplaces | server/src/main/java/bgu/spl/net/srv/ActorThreadPool.java:45-54 | the get-null-then-put under two different locks never replaces a queue |
| PoolProgress.NeverStuck | server/src/main/java/bgu/spl/net/srv/ActorThreadPool.java:28-76 | while work remains and the executor has a thread, some step other than a new read is enabled: the locks cannot deadlock |
| PoolProgress.StepWork | server/src/main/java/bgu/spl/net/srv/ActorThreadPool.java:28-76 | every step but the start of a read lowers a well-founded measure |
| PoolProgress.BoundedDrain | server/src/main/java/bgu/spl/net/srv/ActorThreadPool.java:28-76 | without new reads a run is at most as long as the work it starts with, however scheduled |
| PoolProgress.DrainedIsDone | server/src/main/java/bgu/spl/net/srv/ActorThreadPool.java:28-76 | where such a run ends every queue is empty, playingNow is empty, every task has run once and the messages are the pieces of the bytes, if and only if each is deliverable |
| WritePath.NoStrandedWrite | server/src/main/java/bgu/spl/net/srv/NonBlockingConnectionHandler.java:102-159 | on an open channel with a non-empty write queue the write interest is set, or a pending task or a sender between its two adds will set it; pending tasks meet a blocked select only if a wakeup is still to come |
| WritePath.BlockedMeansWritten | server/src/main/java/bgu/spl/net/srv/Reactor.java:61-102 | when the selector blocks with no wakeup and senders are idle, no task waits and a channel without write interest has had everything written |
| WritePath.WriteConservation | server/src/main/java/bgu/spl/net/srv/NonBlockingConnectionHandler.java:102-116 | bytes written followed by the unsent rest of the queue are always all messages in enqueue order |
| WritePath.TerminatedIff | server/src/main/java/bgu/spl/net/srv/NonBlockingConnectionHandler.java:102-124 | exactly when a connection told to terminate is closed: when the selector blocks without waiting to write on it and its read side has not ended it, it is closed if and only if the selector was still to write on it when the flag was set, or a message was enqueued after that |
| WritePath.TerminatedIsClosed | server/src/main/java/bgu/spl/net/impl/stomp/StompMessagingProtocolImpl.java:118-131 | a log-out that asks for a receipt sets the flag before it enqueues it, so its connection is always closed |
| WritePath.NeverClosed | server/src/main/java/bgu/spl/net/impl/stomp/StompMessagingProtocolImpl.java:298-302 | sendError enqueues its ERROR before it sets the flag: a run in which the whole frame is written in between, nothing is due, and the connection stays open for good |
| WritePath.ContinueWriteEnds | server/src/main/java/bgu/spl/net/srv/NonBlockingConnectionHandler.java:102-124 | each step of continueWrite lowers a measure that only enqueuing on its channel raises, by three a message |
| WritePath.ContinueWriteBounded | server/src/main/java/bgu/spl/net/srv/NonBlockingConnectionHandler.java:102-124 | over any interleaving, one call takes at most three steps for each message queued at its start or enqueued meanwhile, and six more |
| NonBlockingHandlers.Reactor.UpdateInterestedOps | server/src/main/java/bgu/spl/net/srv/Reactor.java:92-102 | on the selector thread the interest changes at once; elsewhere a task is appended and a wakeup set |
| NonBlockingHandlers.Reactor.RunSelectionThreadTasks | server/src/main/java/bgu/spl/net/srv/Reactor.java:139-143 | the drain loop empties the queue and applies the tasks in order |
| NonBlockingHandlers.TasksGrantWrite | server/src/main/java/bgu/spl/net/srv/Reactor.java:92-143 | after draining senders' tasks exactly the mentioned channels have gained write interest |
| NonBlockingHandlers.LastTaskDecides | server/src/main/java/bgu/spl/net/srv/Reactor.java:139-143 | of several tasks for one channel the last one posted decides its interest |
| NonBlockingHandlers.BufferPool.LeaseBuffer | server/src/main/java/bgu/spl/net/srv/NonBlockingConnectionHandler.java:126-134 | hands out the oldest pooled buffer, or a new one, which is then in the pool no more |
| NonBlockingHandlers.BufferPool.ReleaseBuffer | server/src/main/java/bgu/spl/net/srv/NonBlockingConnectionHandler.java:136-138 | appends the buffer; the pool stays free of duplicates exactly when it was not in it |
| NonBlockingHandlers.NonBlockingConnectionHandler.Send | server/src/main/java/bgu/spl/net/srv/NonBlockingConnectionHandler.java:146-159 | the encoded message joins the end of the queue and a write-interest task with a wakeup is posted; a closed connection drops it |
| NonBlockingHandlers.NonBlockingConnectionHandler.ContinueWrite | server/src/main/java/bgu/spl/net/srv/NonBlockingConnectionHandler.java:102-124 | no byte is lost or reordered over any partial writes; the call returns with a rest at the head and the interest kept, or all written and the interest dropped or the channel closed |
| Connections.FlatAdd | server/src/main/java/bgu/spl/net/srv/ConnectionsImpl.java:82-85 | the nested map stands for a set of (topic, connection, id) triples, in which subscribing replaces the connection's entry for the topic and touches no other |
| Connections.FlatRemove | server/src/main/java/bgu/spl/net/srv/ConnectionsImpl.java:88-95 | unsubscribing removes that entry alone, whether or not the inner map disappears |
| Connections.RemoveDropsEmpty | server/src/main/java/bgu/spl/net/srv/ConnectionsImpl.java:88-95 | a topic stays in the map after an unsubscribe if and only if another connection subscribes to it, and every other topic is untouched |
| Connections.FlatDisconnect | server/src/main/java/bgu/spl/net/srv/ConnectionsImpl.java:39-51 | disconnecting removes all entries of the connection and no other |
| Connections.ConnectionsImpl.SendTo | server/src/main/java/bgu/spl/net/srv/ConnectionsImpl.java:29-36 | a registered connection's handler gets the frame; otherwise nothing changes and the result is false |
| Connections.ConnectionsImpl.DisconnectClient | server/src/main/java/bgu/spl/net/srv/ConnectionsImpl.java:39-51 | the loop over all topics unregisters the connection and removes its subscriptions and its active user |
| Connections.ConnectionsImpl.AuthenticateUser | server/src/main/java/bgu/spl/net/srv/ConnectionsImpl.java:59-70 | accepts a new user, who is stored and active, or the stored password, which changes nothing |
| Connections.ConnectionsImpl.GetNextMessageId | server/src/main/java/bgu/spl/net/srv/ConnectionsImpl.java:77-79 | increments the counter with int wrap-around |
| Connections.ConnectionsImpl.AddClientSubscription | server/src/main/java/bgu/spl/net/srv/ConnectionsImpl.java:82-85 | put-if-absent then put equals the value-level add |
| Connections.ConnectionsImpl.RemoveClientSubscription | server/src/main/java/bgu/spl/net/srv/ConnectionsImpl.java:88-95 | remove, then drop an empty inner map, equals the value-level remove |
| StompProtocols.OpenConnection | server/src/main/java/bgu/spl/net/srv/NonBlockingConnectionHandler.java:29-50 | opening a connection registers it and starts a session with nothing in it |
| StompProtocols.StompMessagingProtocolImpl.ProcessFrame | server/src/main/java/bgu/spl/net/impl/stomp/StompMessagingProtocolImpl.java:25-48 | dispatch and handlers together compute Process: a verdict justified by session and registry, and its effect on both |
| StompProtocols.StompMessagingProtocolImpl.HandleConnectFrame | server/src/main/java/bgu/spl/net/impl/stomp/StompMessagingProtocolImpl.java:59-104 | every check in order, with its error, or the login |
| StompProtocols.StompMessagingProtocolImpl.HandleDisconnectFrame | server/src/main/java/bgu/spl/net/impl/stomp/StompMessagingProtocolImpl.java:112-131 | removes the session's subscriptions, sends the receipt before unregistering, and terminates |
| StompProtocols.StompMessagingProtocolImpl.HandleSubscribeFrame | server/src/main/java/bgu/spl/net/impl/stomp/StompMessagingProtocolImpl.java:141-173 | updates both indexes and sends the receipt, or the matching error |
| StompProtocols.StompMessagingProtocolImpl.HandleUnsubscribeFrame | server/src/main/java/bgu/spl/net/impl/stomp/StompMessagingProtocolImpl.java:184-217 | removes from both indexes and sends the receipt, or the matching error |
| StompProtocols.StompMessagingProtocolImpl.HandleSendFrame | server/src/main/java/bgu/spl/net/impl/stomp/StompMessagingProtocolImpl.java:230-269 | requires a subscription to the topic, takes the next message id and fans out, each subscriber getting the frame of `FanOutExact` |
| StompProtocols.StompMessagingProtocolImpl.SendToAll | server/src/main/java/bgu/spl/net/impl/stomp/StompMessagingProtocolImpl.java:254-268 | the loop over the subscribers, in any iteration order, equals the fan-out function, whose frames are those of `FanOutExact` |
| StompProtocols.StompMessagingProtocolImpl.SendErrorFrame | server/src/main/java/bgu/spl/net/impl/stomp/StompMessagingProtocolImpl.java:278-303 | sends the ERROR and marks the session for termination; its headers and body are pinned in `RejectedChangesNothing` |
| Verdicts.RejectedChangesNothing | server/src/main/java/bgu/spl/net/impl/stomp/StompMessagingProtocolImpl.java:278-303 | any other frame leaves session and registry as they were, except that the session is marked to end and a registered sender gets exactly one ERROR: its headers are `message`, a blank and the true reason, and the receipt id if one was asked for, and its body shows the offending frame and ends with the reason |
| Verdicts.RejectedIff | server/src/main/java/bgu/spl/net/impl/stomp/StompMessagingProtocolImpl.java:25-249 | a frame is rejected with a reason if and only if its cause holds of frame, session and registry: already logged in, header missing, user active, another password stored, id no int, id unknown, not subscribed, unknown command, or no CONNECT yet |
| Verdicts.OwnRequestsIff | client/src/StompClient.cpp:112-124 | the CONNECT of a client is a login if and only if nobody is active as the user and no other password is stored, and its report is relayed if and only if it is subscribed to the channel |
| SessionServe.AcceptedAnswers | server/src/main/java/bgu/spl/net/impl/stomp/StompMessagingProtocolImpl.java:59-217 | an accepted login is answered by CONNECTED with version 1.2, and every accepted request that asks for a receipt by that RECEIPT, to a registered sender and in that order; nobody else is sent anything, and only a log-out ends the session |
| Verdicts.LogOutLeavesNothing | server/src/main/java/bgu/spl/net/impl/stomp/StompMessagingProtocolImpl.java:112-131 | after a DISCONNECT the connection is in no index of the registry, and its receipt was sent first |
| StompProtocols.FanOutAt | server/src/main/java/bgu/spl/net/impl/stomp/StompMessagingProtocolImpl.java:254-268 | what each connection is sent by a fan-out: its own MESSAGE if subscribed and registered, else nothing |
| ServerRuns.FanOutExact | server/src/main/java/bgu/spl/net/impl/stomp/StompMessagingProtocolImpl.java:230-269 | an accepted SEND gives every registered subscriber exactly one MESSAGE, whose three headers are the topic, the decimal of its own subscription id and the decimal of the new counter, and whose body is the sent one, and nobody anything else |
| MessageIds.SameIdIffSameSend | server/src/main/java/bgu/spl/net/impl/stomp/StompMessagingProtocolImpl.java:251-268 | over every run, two MESSAGEs of accepted SENDs fewer than 2^32 apart, to whichever connections, carry the same `message-id` if and only if they come from the same SEND, and below 2^31 SENDs a later one carries a greater id |
| ServerRuns.SenderIncluded | server/src/main/java/bgu/spl/net/impl/stomp/StompMessagingProtocolImpl.java:230-269 | a registered sender whose indexes agree receives its own message |
| ServerRuns.MessageIdsNeverRepeat | server/src/main/java/bgu/spl/net/srv/ConnectionsImpl.java:77-79 | over every run the message counter grows with the accepted SENDs until it wraps, and states less than 2^32 messages apart have different ids |
| ServerRuns.RunInv | server/src/main/java/bgu/spl/net/srv/ConnectionsImpl.java:26-79 | over every run the counter is the id of the number of accepted SENDs, and the login invariant holds |
| ServerRuns.SubscribeAgreesIff | server/src/main/java/bgu/spl/net/impl/stomp/StompMessagingProtocolImpl.java:165-169 | an accepted SUBSCRIBE keeps the two subscription indexes in agreement if and only if its id is not in use for another topic and its topic has no other id |
| Undisciplined.ReusedIdDisagrees | server/src/main/java/bgu/spl/net/impl/stomp/StompMessagingProtocolImpl.java:165-169 | CONNECT, then two SUBSCRIBEs with one id for two topics: the server relays a topic the session has forgotten |
| Undisciplined.SubscribedTwiceDisagrees | server/src/main/java/bgu/spl/net/impl/stomp/StompMessagingProtocolImpl.java:165-169 | CONNECT, then two SUBSCRIBEs to one topic: the session lists both ids, the server relays under the second |
| ServerRuns.OthersKeepEntries | server/src/main/java/bgu/spl/net/impl/stomp/StompMessagingProtocolImpl.java:112-217 | whatever one connection sends, every other connection's entries stay |
| ServerRuns.IndexesAgree | server/src/main/java/bgu/spl/net/impl/stomp/StompMessagingProtocolImpl.java:112-217 | over every run of any number of clients that keep the fresh-id discipline, both indexes of every registered connection list the same subscriptions |
| ServerRuns.LoginHistory | server/src/main/java/bgu/spl/net/srv/ConnectionsImpl.java:39-74 | over every run stored passwords never change, every connected session presented the stored password, no user is active twice, and while a connection is active as a user nobody else has ever logged in as that user |
| Verdicts.AcceptedIff | server/src/main/java/bgu/spl/net/impl/stomp/StompMessagingProtocolImpl.java:25-249 | a frame is acted on as a login, subscription, unsubscription, relay or log-out if and only if command, headers, session and registry meet that request's conditions, in whatever order they are checked |
| LoginEvents.ActiveIffStanding | server/src/main/java/bgu/spl/net/srv/ConnectionsImpl.java:39-74 | over every run a connection is active as a user if and only if it made the user's first login ever and has neither logged out nor been closed since |
| LoginEvents.SessionGrantedIff | server/src/main/java/bgu/spl/net/impl/stomp/StompMessagingProtocolImpl.java:59-104 | a CONNECT gets a session if and only if its connection has none, the password is the one stored by an earlier login if any, and nobody stands as that user |
| LoginEvents.TwoSessionsOfOneUser | server/src/main/java/bgu/spl/net/srv/ConnectionsImpl.java:59-70 | a run in which two connections hold a session of one user at once, after the first session has logged out |
| IngestRuns.Induces | server/src/main/java/bgu/spl/net/srv/NonBlockingConnectionHandler.java:52-99 | every run of the pool and read path induces a run of the server in which each connection's frames are the parsed messages its decoder handed over, in order, and a failed read closes its connection |
| IngestRuns.FromTheWire | server/src/main/java/bgu/spl/net/srv/NonBlockingConnectionHandler.java:52-86 | if the received bytes are a first part of a connection's messages, the server has processed a first part of its frames, in order and each once; all of them once everything has arrived and run |
| IngestRuns.RequestsReachHandlers | client/src/StompProtocol.cpp:84-113 | the same for a client's requests: what it writes reaches the handlers as its own frames, over every interleaving and cutting into reads; only a report on a channel name with a newline is just some SEND |
| Downstream.FramesReachClient | server/src/main/java/bgu/spl/net/srv/NonBlockingConnectionHandler.java:102-159 | over every interleaving of senders, selector and partial writes the client reads the frames given to send, in order and each once, up to an ERROR, and all of them once the queue is empty |
| Downstream.Communicate | client/src/StompClient.cpp:12-25 | the communication thread handles the pieces of what arrives in order until one stops it or the stream ends |
| Downstream.ReadsUntilStopped | client/src/StompClient.cpp:12-25 | the pieces it handles are a first part of them: none after one that stops the client, all of them if none does; in the end it has stopped |
| Clients.StompProtocol.JoinChannel | client/src/StompClient.cpp:134-164 | without a session nothing happens; a new channel takes a fresh id and receipt number, is remembered under both, and sends one SUBSCRIBE; a known one sends nothing |
| Clients.StompProtocol.ExitChannel | client/src/StompClient.cpp:175-210 | without a session nothing happens; otherwise forgets the channel and sends one UNSUBSCRIBE with its id; an unknown channel only spends a receipt number |
| Clients.StompProtocol.ReportEvents | client/src/StompClient.cpp:221-254 | with a session, sends one SEND for each event, in order, each with that event's body |
| Clients.StompProtocol.LogOut | client/src/StompClient.cpp:283-304 | with a session, sends one DISCONNECT under a fresh receipt number and stops taking commands |
| Clients.Refused | client/src/StompClient.cpp:127-211 | without a session the commands do nothing, nor does a join of a joined channel; an exit from an unknown one spends a receipt number |
| Clients.StompProtocol.Receive | client/src/StompProtocol.cpp:116-144 | parses a message and dispatches on its command; what that does is pinned by the next three |
| Clients.HandleAppends | client/src/StompProtocol.cpp:153-160 | a MESSAGE whose body is an event appends it at the end of its destination's list and changes no other; no other frame changes any list |
| Clients.StopsIff | client/src/StompProtocol.cpp:153-211 | a RECEIPT stops the client if and only if the entry it names is the log-out's; an ERROR, a MESSAGE without destination or event and a RECEIPT without a number stop it as a failure; nothing else stops it |
| Clients.Retires | client/src/StompProtocol.cpp:185-211 | a RECEIPT removes the entry it names, and nothing else removes any |
| Clients.StompProtocol.ReceiveReceipt | client/src/StompProtocol.cpp:185-211 | a known receipt is removed, a Logout one stops the session, an unknown one changes nothing, a malformed one ends the program; `StopsIff` says so without it |
| Keyboard.SplitStr | client/src/keyboardInput.cpp:13-22 | the loop returns the tokens, which `TokensAreThePieces` pins |
| Keyboard.TokensAreThePieces | client/src/keyboardInput.cpp:13-22 | the tokens of every string are the non-empty pieces between its delimiters, all of them, in order |
| Keyboard.TokensOfJoin | client/src/keyboardInput.cpp:13-22 | non-empty tokens joined by delimiters come back exactly |
| Keyboard.BlanksDoNotMatter | client/src/keyboardInput.cpp:13-22 | however many delimiters stand before, between or after them |
| Keyboard.TokensOfPair | client/src/event.cpp:76-82 | key and value come back from one "key:value" line, an empty value as a missing token |
| Events.PrintReport | client/src/StompClient.cpp:236-250 | the printed body is the heading, the information lines in some order and the description |
| Events.EventFromBody | client/src/event.cpp:65-115 | the getline loop with its mode flag computes ParseEvent, including both ways it throws |
| Events.LineMeaning | client/src/event.cpp:76-82 | a line without a colon is skipped, one of colons only throws, two pieces are a key and its value, and one or three or more a key with the empty value |
| Events.ValueWithColonIsLost | client/src/event.cpp:76-82 | a value with a colon in it is read as the empty value |
| Events.FieldsByName | client/src/event.cpp:83-110 | which key sets which field of the event, the others staying as they are; a time that is no number throws, and a description takes all the rest |
| Events.InfoMeaning | client/src/event.cpp:83-110 | after "general information" every key is also noted without its first character, a later value replacing an earlier |
| Text.ParseIntMeaning | server/src/main/java/bgu/spl/net/impl/stomp/StompMessagingProtocolImpl.java:157-163 | a subscription id parses as an optional sign and digits, in range, and `ParseIntOnlyDigits` says nothing else does |
| Text.StoiMeaning | client/src/StompProtocol.cpp:187 | a receipt id is read after blanks and an optional sign up to the first other character, and throws without digits or out of range |
| EventRelay.ParseReport | client/src/event.cpp:65-115 | a relayed report parses to the same user, city, name and time, the same information plus the stray entry "escription", and the description plus two newlines |
| EventRelay.EventArrives | client/src/StompClient.cpp:230-254 | the same across both wires, for any header orders, subscription id and message id |
| EventRelay.SomeJourney | client/src/StompProtocol.cpp:84-160 | every NUL-free body makes such a journey: neither parser rejects what the other side printed |
| EventRelay.EventArrivesIff | client/src/event.cpp:65-115 | and only events whose short fields, keys and values are one-line and colon-free, with an int time, arrive that way |
| SessionServe.ServedVerdict | server/src/main/java/bgu/spl/net/impl/stomp/StompMessagingProtocolImpl.java:25-217 | the text of a client's next request is judged as that request: a SUBSCRIBE, UNSUBSCRIBE or DISCONNECT that finds what it needs is never rejected |
| SessionServe.ServedReportExact | client/src/StompClient.cpp:230-254 | a report reaches the server exactly as it was built if and only if its channel name is one-line |
| SessionServe.OthersOut | server/src/main/java/bgu/spl/net/impl/stomp/StompMessagingProtocolImpl.java:25-319 | whatever one connection sends, another is sent nothing but its share of a relayed SEND |
| SessionServe.ServedLink | server/src/main/java/bgu/spl/net/impl/stomp/StompMessagingProtocolImpl.java:25-319 | serving a request keeps its session's mirror, receipts, phase and issued-subscription invariants |
| SessionRuns.StepInv | client/src/StompClient.cpp:69-305 | every command, processing, delivery, login and close keeps all session invariants of all sessions |
| SessionRuns.SubscriptionMirror | client/src/StompClient.cpp:127-211 | in every state of every run, replaying a session's requests in flight on the server's subscriptions gives exactly the inverse of the client's, until logout |
| SessionRuns.RequestsAccepted | server/src/main/java/bgu/spl/net/impl/stomp/StompMessagingProtocolImpl.java:141-217 | no SUBSCRIBE, UNSUBSCRIBE or DISCONNECT of a client is ever rejected, and while the connection stands each is answered by its own receipt alone |
| SessionRuns.ReceiptsMatch | client/src/StompProtocol.cpp:46-49 | receipt ids in flight, as requests or as RECEIPTs, have no duplicates and are exactly the keys of the receipt map |
| SessionHistory.AcknowledgedOnce | client/src/StompProtocol.cpp:185-211 | over every run each receipt number is acknowledged to a client at most once, in the order of its requests, and is then in flight no more |
| SessionRuns.NoUnknownReceipt | client/src/StompProtocol.cpp:185-211 | the branch for an unknown receipt id is unreachable |
| SessionRuns.CanServe | server/src/main/java/bgu/spl/net/srv/NonBlockingConnectionHandler.java:64-79 | the next request of any session always has a text, which parses, and is served unless it is longer than 2^30 bytes |
| SessionRuns.CanDeliver | client/src/StompClient.cpp:12-25 | nor is delivering the next frame while the client still reads |
| SessionRuns.ClientsKeepIndexes | client/src/StompClient.cpp:140-211 | clients keep the discipline, so with them the two server indexes of every registered connection always agree |
| SessionRuns.MessagesWereAskedFor | server/src/main/java/bgu/spl/net/impl/stomp/StompMessagingProtocolImpl.java:254-268 | every MESSAGE in flight names a subscription and a topic its receiver asked for together, and arrives with those headers and the relayed body |
| SessionHistory.MessagesWereReported | server/src/main/java/bgu/spl/net/impl/stomp/StompMessagingProtocolImpl.java:254-268 | over every run the body of each MESSAGE in flight was reported by some client to the channel it is relayed on, channel names being one-line |
| SessionHistory.StoredWasReported | client/src/StompProtocol.cpp:153-160 | and every event a client has stored is a reported one as received, when the reports are of events the format can carry; that none is missing is `StoredInOrder` |
| ClientHistory.StoredInOrder | client/src/StompProtocol.cpp:153-160 | over every run what a client has stored under a channel is exactly the events delivered to it there, in order and each once, and followed by those still in its outbox exactly those the server relayed to it there |
| ClientHistory.StoppedIff | client/src/StompProtocol.cpp:162-211 | over every run a client has sent at most one DISCONNECT, its reader has stopped if and only if that was acknowledged or an ERROR or a MESSAGE that is no event was handed over, and it has failed if and only if the latter |
| ObjectCodec.BigEndian | server/src/main/java/bgu/spl/net/impl/rci/ObjectEncoderDecoder.java:56-77 | the four bytes written read back as the length |
| ObjectCodec.StuckOnNegative | server/src/main/java/bgu/spl/net/impl/rci/ObjectEncoderDecoder.java:18-53 | a negative length throws, and every byte after it |
| ObjectCodec.StreamRoundTrip | server/src/main/java/bgu/spl/net/impl/rci/ObjectEncoderDecoder.java:15-33 | decoding the concatenation of encoded payloads returns exactly those payloads and the initial state, if and only if no payload is empty |
| ObjectCodec.ObjectEncoderDecoder.DecodeNextByte | server/src/main/java/bgu/spl/net/impl/rci/ObjectEncoderDecoder.java:15-33 | the buffer and array updates follow the byte-level specification, including the exceptions of a negative or zero length; every index is in bounds |
| ObjectCodec.ObjectEncoderDecoder.Encode | server/src/main/java/bgu/spl/net/impl/rci/ObjectEncoderDecoder.java:56-72 | placeholder, payload and the length written over the placeholder give length plus payload |

## Left out

- Sockets, accept loops, blocking handlers and `asio` calls: nondeterministic reads, partial writes and FIFO channels stand for them.
- IOException, cancelled keys and shutdown: channels work or are closed; `continueWrite` does not terminate when a write keeps failing.
- A selector task for a channel closed meanwhile: `interestOps` on its cancelled key throws out of `serve`, which ends the server; `WritePath` follows such a run as if the task did nothing.
- The Java memory model and races inside `ConnectionsImpl`: one `process` call or client command is one step; `addSubscription` and `removeSubscription` are check-then-act in the code.
- `WeakHashMap` collection: an actor's queue stays in the map while it matters.
- UTF-8: strings are ASCII characters, one per byte.
- The reactor's connection counter: a connection id is a natural number not used before.
- The client's counters beyond 2^31 - 1: commands need counters that can still be incremented.
- Console, login host parsing, thread lifetime, JSON files, sorting, dates and the summary file: library calls and user interface.
- Java object serialization: payloads are opaque bytes that deserialize.
- Memory exhaustion: arrays and queues can be allocated; the overflow of the decoder's doubled length is modelled.
- Echo, newsfeed and RCI programs: thin wrappers.
- The text inside an ERROR body: a parameter (`shown`), since it depends on the map's order and contains a NUL; the client reads the frame up to that NUL, and only its command is used.
- EventRelay.EventArrivesIff: "only if" leaves out events that have their own entry `"escription"`, which the stray entry overwrites.
- Clients.StompProtocol.ReportEvents: the channel name comes from a file; in `SessionRuns` it may hold anything but NUL.
- SessionHistory.MessagesWereReported: for one-line channel names; of a report on any other name the server makes another frame (`ServedReportExact`).
- SessionHistory.StoredWasReported: likewise.
- NonBlockingHandlers.NonBlockingConnectionHandler.ContinueWrite: states one call without concurrent senders; `WritePath` has them.
