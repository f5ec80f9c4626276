# NightNetwork and NightServer: a verified model

The repository holds a small TCP message transport (NightNetwork) and a chat server built on it (NightServer). This project
models both, and the joint between them, and proves what they promise over whole runs.

**Transport.** Frames have an 8-byte header (`Codec`, `Frames`, `BufferPools`); a reader takes them off a byte stream (`Stream`).
`Endpoint` is the automaton that a server session and a client both run: a header/body reader, a bounded write queue with one
outstanding write, keepalives, the idle timeout and the close path. `Network` composes any number of connections with the server
strand, the session table, the hand-off queue and the game thread; at the far end of a connection is either a client of this library or
a foreign peer, which may send any bytes in any chunks. Every completion handler, every posted closure, every
call of the public API and every move of the kernel is one atomic step; a run is any sequence of steps, a step that is not
possible where it stands changing nothing. The assumptions on sockets are these: the bytes delivered are a prefix of the bytes written,
in chunks of any size; an operation started on a closed socket completes with an error; an operation that was complete when the
socket closed may still report success, and a timer that had expired before it was cancelled likewise.

**Chat.** `Chat` holds the nine event handlers as functions from the two tables to new tables and messages. `ChatViews`, `Reconstruction`
and `ChatResponses` relate the whole message history to the state. The order in which an unordered container is iterated is an explicit
argument, and every statement holds for every order. The assumptions on the encoding concern only messages the server can build
(`Buildable`), and every message of every run is one: an encoding is not empty and takes at most 1024 bytes more than its strings
(`EncodingBounded`), has the size that is tested (`Sized`), and is read back as a message that makes no difference to a client
(`Readable`): same request id, same kind of response, same effect on a view. System messages are only shown, and two of them may
well have the same text. `Encodings.AssumptionsAreConsistent` shows an encoding that meets all assumptions and, like the program's,
carries no more of a system message than its room and text.

**Form.** The objects that the source updates in place are classes here (`Session`, `Client`, `Server`, `ServerCore`, `Buffer`,
`ThreadPool`, `BufferPool`, `RoomSystem`, `GameLogicSystem`, `NetworkSystem`, `NightServer`), with the source's fields and methods.
Each method is proved to move its object exactly as the pure transition functions move the abstract state: a `Session` as `Endpoint.Apply`,
a `Client` as `Network.StepClient`, a `Server` as `Network.Next` (the predicate `Refines`), the chat classes as `Chat.Handle`. The theorems
about all runs are proved once, about the transition functions. `NightServer.Tick` ties both halves together, with the other threads going
on before every call of the transport; its invariant gives, by `NightServer.ClientSeesTheServer`, what a client has seen of the server's tables.

**Where the code and a natural reading of it differ.**

- A session that is closed may still deliver one payload, because the read handlers do not test the closed flag: exactly if a body read
  was complete when the socket closed. `LatePackets.DataAfterDisconnectExactly` says so of the packet stream, and
  `LatePackets.DataCanFollowDisconnect` is a run where a Data packet follows its session's Disconnect.
- Interval, latency and network delay adding up to less than the idle timeout is not enough to keep a live peer. What counts too is how long
  after an end's idle stamp the peer starts; a client stamps before it connects, so its connect time is part of that.
  `Heartbeat.LivePeerIsKeptExactly` has the exact condition, `Heartbeat.SlowConnectTimesOut` a client that is closed by its first timer.
- Session ids are distinct for exactly the first 2^32 accepts (`Lifecycle.IdsDistinctExactlyUpToWrap`). Theorems that identify a session by
  its id ask for no more accepts than that.
- Names are compared as stored but sent only up to the first NUL byte (`ChatResponses.WireNamesCollideExactly`), and a second login renames
  a user silently; views are keyed by user id.
- The frame builder cuts the payload size to 32 bits; the callers' size checks are exactly what keeps it right
  (`Frames.BuilderIsFaithfulExactlyInBounds`).

## Model

| member | source | states |
|---|---|---|
| Codec.WriteHeader | NightNetwork/src/TransportDetail.h:36-46 | stores the eight header bytes in place and leaves the rest of the buffer alone |
| Codec.WriteThenRead | NightNetwork/src/TransportDetail.h:23-46 | the big-endian readers give back the magic and any 32-bit size the writer stored |
| Codec.DecodeAcceptsExactlyWrittenHeaders | NightNetwork/src/TransportDetail.h:92-126 | a header is accepted if and only if it is the written form of a legal (flags, size) pair, and that pair is what is decoded |
| Codec.ErrorsExactly | NightNetwork/src/TransportDetail.h:92-126 | a refused header is refused with the first error of magic, version, flags and size |
| Codec.LegalFramesAreEncodings | NightNetwork/src/TransportDetail.h:48-72 | the frames a reader accepts are the keepalive frame and the data frames of 1 to 2048 bytes, no others |
| Codec.FramesArePrefixFree | NightNetwork/src/TransportDetail.h:36-72 | no frame is a proper prefix of another, so a stream can be cut into frames in one way only |
| Stream.ParseIsCanonical | NightNetwork/src/Session.cpp:87-142 | whatever bytes arrive, re-encoding what was read gives back the identical bytes |
| Stream.RoundTrip | NightNetwork/src/Session.cpp:87-142 | reading the concatenation of any frames returns exactly these frames and consumes every byte |
| Stream.ParseOfCutStream | NightNetwork/src/Session.cpp:87-142 | a stream cut anywhere is read as an initial part of the frames, and never refused |
| Stream.PayloadsRoundTrip | NightNetwork/src/Session.cpp:87-142 | the data payloads come out in order with the keepalives left out, all of them if the stream is complete |
| Stream.FlattenReflectsPrefix | NightNetwork/src/TransportDetail.h:36-72 | byte streams that are prefixes of each other come from frame sequences that are |
| Endpoint.OutAfter | NightNetwork/src/Session.cpp:67-85 | the only ways any handler can change the sending half: put a frame, pop, pop and write on, send bytes |
| Endpoint.PumpKept | NightNetwork/src/Session.cpp:144-170 | over all interleavings: at most one write is outstanding and it writes the queue front, no pop of an empty queue, an open idle session has an empty queue, at most 1024 frames wait, every frame is queued or released once, accepted frames only grow |
| Endpoint.PumpEnqueue | NightNetwork/src/TransportDetail.h:133-149 | the queue step keeps the pump's invariant and accepts the frame exactly when neither closed nor full |
| Endpoint.SentIsPrefixOfAccepted | NightNetwork/src/Session.cpp:144-170 | the bytes on the wire are always a prefix of the accepted frames, one after another |
| Endpoint.ReaderKept | NightNetwork/src/Session.cpp:87-142 | every handler keeps the reader's account of the incoming bytes: complete frames, then the frame in progress |
| Endpoint.ReaderRefinesParse | NightNetwork/src/Session.cpp:87-142 | the handler-driven reader has read exactly what the one-pass parser reads from the same bytes, whatever the chunks |
| Endpoint.HeardIsPrefixOfAccepted | NightNetwork/src/Client.cpp:149-213 | what one end has read is a prefix of what the other end's queue accepted, as frames and as payloads |
| Endpoint.HonestHeadersAreAccepted | NightNetwork/src/Session.cpp:101-107 | between two such ends no header is ever refused |
| Closing.ClosesExactly | NightNetwork/src/Session.cpp:67-210 | an open end closes in exactly these steps: a close asked for, a failed or stopped handler, a header nobody writes, 15 s of idleness at a tick, a frame for a full queue; and the timer's wait is cancelled |
| Closing.ActivityIsLastHeard | NightNetwork/src/Session.cpp:101-109 | over runs the idle clock shows when a valid header was last read, and nothing else moves it |
| Closing.SessionStepIsTold | NightNetwork/src/Server.cpp:155-172 | in every run, a step that closes an open session offers its Disconnect and posts its erasure, once; a complete body is offered as Data; nothing else is |
| Closing.ClientBodyExactly | NightNetwork/src/Client.cpp:194-211 | a body read by a running client is queued while fewer than 4096 wait and the queue takes it, otherwise counted as dropped |
| Drain.WorkDecreases | NightNetwork/src/Session.cpp:87-192 | after the close every handler lowers a measure over the pending read, write and timer, and nothing raises it |
| Drain.WorkBounded | NightNetwork/src/Session.cpp:87-192 | the measure is at most 12, zero exactly when nothing is pending, and while it is positive some handler can run |
| Drain.ClosedEndpointDrains | NightNetwork/src/Session.cpp:199-210 | at most twelve handlers run after the close, in every run, even with completions already queued |
| Drain.ClosedEndpointIsQuiet | NightNetwork/src/Session.cpp:122-142 | after the close nothing is accepted, sent or taken off the wire, and at most one payload is still delivered |
| Drain.LateDeliveryExactly | NightNetwork/src/Session.cpp:122-142 | a closed end delivers a payload in some run if and only if a body read was complete when the socket closed |
| Drain.DrainedExactly | NightNetwork/src/Session.cpp:87-192 | nothing is left to do if and only if no handler can run: the maximal runs are the drained ones |
| Drain.EveryRunCanDrain | NightNetwork/src/Session.cpp:87-192 | every closed end has a run that drains it |
| Drain.UnreleasedAfterDrain | NightNetwork/src/Session.cpp:144-170 | once drained, the frames not given back are exactly those left in the queue, and these are the frames that waited at the close but for the one or two whose writes had begun or were begun by a late success |
| Heartbeat.SilentPeerIsDroppedInTime | NightNetwork/src/Session.cpp:172-192 | with handler latency below d, an end that is open heard a valid header less than 20 s + d ago, or its first timer is still to come |
| Heartbeat.IdleCloseWindow | NightNetwork/src/Session.cpp:172-192 | the timer closes an idle end no earlier than 15 s and before 20 s + d after the last valid header or the idle stamp; only a client that took long to connect may be closed later, by its first timer |
| Heartbeat.AFreshAlways | NightNetwork/src/Client.cpp:262-286 | while both ends are open, the other side's keepalives keep an end's last activity recent, through every timely run |
| Heartbeat.LivePeerIsKeptExactly | NightNetwork/src/Client.cpp:262-281 | a live peer is never given up, in any run, if and only if 5 s, the latency, the network delay and how long after this end's idle stamp the peer starts add up to at most 15 s |
| Heartbeat.BothAreKeptExactly | NightNetwork/src/Client.cpp:262-281 | the same for both ends at once: neither ever gives the other up if and only if the sum stays within 15 s on each side |
| Heartbeat.SlowConnectTimesOut | NightNetwork/src/Client.cpp:52-56 | a client that took ten seconds or more to connect is closed by its first timer although the network has no delay and every handler is in time |
| Heartbeat.NeitherSideTimesOut | NightNetwork/src/Protocol.h:40-41 | if 5 s, latency, network delay, connect time and the difference of the starts add up to at most 15 s, no timer handler of client or session is ever a timeout |
| Heartbeat.SumIsNotNecessary | NightNetwork/src/Client.cpp:262-281 | that this sum of connect time and difference of starts is not necessary: with 4999 ms to connect, equal starts, no lateness and a delay of 5001 ms it exceeds 15 s and still no run gives the peer up |
| Heartbeat.TooLate | NightNetwork/src/Session.cpp:182-190 | beyond the exact bound there always is a run in which a live peer is given up |
| PacketQueue.PushConserves | NightNetwork/src/Server.cpp:79-91 | a push keeps the balance of offered, polled, queued, dropped and refused packets and adds at the end or not at all |
| PacketQueue.PushExactly | NightNetwork/src/Server.cpp:79-91 | a packet is queued exactly while the server runs and fewer than 8192 wait and the queue takes it; otherwise it is counted as dropped, or refused by shutdown |
| PacketQueue.PollConserves | NightNetwork/src/Server.cpp:218-227 | a poll keeps the balance and the order |
| PacketQueue.OfSubsequence | NightNetwork/src/Server.cpp:79-91 | losing packets keeps each session's packets in order |
| Channel.BothDirections | NightNetwork/src/Client.cpp:182-213 | on one connection: what either side reads is a prefix of what the other was handed, and what the client polls is selected from it in order |
| Delivery.NetOkAlways | NightNetwork/src/Server.cpp:234-291 | every run keeps the whole transport's invariant: strand, table, and every connection |
| Delivery.ClientsReceiveInOrder | NightNetwork/src/Server.cpp:234-261 | end-to-end order: the payloads a client polls are an in-order, byte-identical selection of those sent to its session since it joined, and a prefix while the client dropped none |
| Delivery.QuietMeansDelivered | NightNetwork/src/Server.cpp:234-261 | when nothing is under way on an open connection, the client has polled every payload sent to it |
| Delivery.ClientDropsAreCounted | NightNetwork/src/Client.cpp:182-213 | every payload a client has read was polled, waits in its receive queue, or was dropped and counted |
| Delivery.NoHeaderIsRefused | NightNetwork/src/Client.cpp:149-180 | no client ever meets a header it refuses, and no session does unless its peer is foreign |
| Lifecycle.IdsDistinctExactlyUpToWrap | NightNetwork/src/Server.cpp:155 | ids are pairwise distinct if and only if there were at most 2^32 accepts |
| Lifecycle.HandOffConserved | NightNetwork/src/Server.cpp:79-91 | whatever the peers send: offered packets are polled, queued, dropped or refused by shutdown; each session's polled packets are an in-order selection of those offered |
| Lifecycle.SessionLifecycle | NightNetwork/src/Server.cpp:144-184 | whatever the peers send, per id: Connect first and once, Disconnect at most once, at most one Data after it; an id without a connection emits nothing |
| Lifecycle.ServerReceivesInOrder | NightNetwork/src/Client.cpp:336-362 | the payloads the game thread polls from a session are an in-order selection of those its client sent, and a prefix while the hand-off queue lost nothing |
| Lifecycle.QuietMeansReceived | NightNetwork/src/Client.cpp:336-362 | when nothing is under way from a running client, the game thread has polled every payload it sent |
| Lifecycle.ClosedIffGone | NightNetwork/src/Session.cpp:199-210 | while nothing was dropped, a session is closed if and only if its Disconnect is in the packet stream |
| Lifecycle.PoliteSendsArriveInOrder | NightNetwork/src/Server.cpp:234-261 | for a game thread that sends only to sessions it was told about, the order guarantee covers all payloads ever sent to the session |
| Strand.TasksExactly | NightNetwork/src/Server.cpp:234-308 | which closure each call of the game thread and each closing session posts to the server strand, and that they run in order |
| Strand.PostsExactly | NightNetwork/src/Server.cpp:246-307 | what running a closure posts to each listed session: the frame of a send to it or of a broadcast, the close of a disconnect, the close a shutdown asks of all; and nothing while shutting down but that |
| Strand.ListedExactlyOpen | NightNetwork/src/Server.cpp:160-177 | open sessions are listed, and once the server strand has run only they are |
| Strand.EveryDisconnectCloses | NightNetwork/src/Server.cpp:293-308 | a disconnect asked for while the server runs closes its session, in every continuation, once the strand and the session's closures have run |
| Strand.ShutdownClosesAll | NightNetwork/src/Server.cpp:93-112 | after a shutdown every session closes, once the strand and its closures have run |
| Upward.IssuedExactly | NightNetwork/src/Client.cpp:336-362 | in every run, what a client has issued is the payloads of its sends of 1 to 2048 bytes made while connected and not shutting down, in order |
| Upward.SendExactly | NightNetwork/src/Client.cpp:336-362 | such a send posts one frame, header and payload; any other send changes nothing |
| Upward.SessionsAlwaysRead | NightNetwork/src/Session.cpp:87-142 | an open session always has a read pending |
| Upward.SendCanArrive | NightNetwork/src/Client.cpp:336-362 | a payload so sent can reach the game thread: while session and server are open, some continuation polls it as Data of that session |
| LatePackets.DataAfterDisconnectExactly | NightNetwork/src/Session.cpp:129-140 | while the server runs, some continuation puts a Data packet after a session's Disconnect if and only if a body read was complete when the session closed |
| LatePackets.NothingMoreArrives | NightNetwork/src/Session.cpp:199-210 | otherwise no continuation of the run adds anything to the session's packets |
| LatePackets.DataCanFollowDisconnect | NightNetwork/src/Session.cpp:129-140 | a run in which the game thread polls Connect, Disconnect and then Data of one session |
| LastWords.ClientsAlwaysRead | NightNetwork/src/Client.cpp:149-213 | an open client that is not shutting down always has a read pending |
| LastWords.LastWordsExactly | NightServer/GameLogicSystem.cpp:264-274 | a payload sent to a session that has closed since, such as the response to a disconnect request, can still be polled by its client if and only if its frame was wholly on the wire at the close; and all that were can be polled in one continuation |
| FrameAccounts.EveryFrameIsInOnePlace | NightNetwork/src/Session.cpp:67-85 | at every point of every run each frame acquired for a session is in exactly one of a posted closure, the write queue, the released frames |
| FrameAccounts.EveryCallIsAccountedFor | NightNetwork/src/Server.cpp:246-290 | every frame built by send or broadcast waits on the server strand, was passed on to its session, or was given back; a broadcast's template is never passed on |
| BufferPools.Buffer.Resize | NightNetwork/src/BufferPool.h:42-57 | keeps what fits and fills up with zeros, whatever the storage held before |
| BufferPools.BufferPool.Acquire | NightNetwork/src/BufferPool.h:37-55 | an empty buffer beyond the block size; otherwise the most recently released buffer, or a new one, all zeros; its storage is apart from everything still pooled |
| BufferPools.BufferPool.Release | NightNetwork/src/BufferPool.h:61-72 | only buffers of exactly the block capacity are pooled, emptied, while the limit allows; no two pooled buffers share storage |
| BufferPools.PoolStaysWithinLimits | NightNetwork/src/BufferPool.h:77-81 | over any history of calls through any pools of a thread, its buffers never outnumber the largest limit |
| Frames.BuildFrame | NightNetwork/src/TransportDetail.h:48-63 | a frame built in a recycled buffer has the bytes of an encoder that allocates nothing, and is apart from the pool |
| Frames.CloneFrame | NightNetwork/src/TransportDetail.h:74-90 | a clone has the template's bytes and shares nothing with it, and the template is left alone |
| Frames.BroadcastFrames | NightNetwork/src/Server.cpp:263-291 | building a template, cloning it per session and giving it back: the clones have the encoder's bytes and share nothing with each other or the pool |
| Frames.BuildKeepaliveFrame | NightNetwork/src/TransportDetail.h:128-131 | the keepalive frame, whatever the pool holds |
| Frames.BuilderIsFaithfulExactlyInBounds | NightNetwork/src/TransportDetail.h:65-72 | the builder yields a legal frame with this payload if and only if it has 1 to 2048 bytes; and when it yields a broken or a cut frame instead |
| ServerCores.ServerCore.PushPacket | NightNetwork/src/Server.cpp:79-91 | the new queue, counters and history, and whether the packet was taken |
| ServerCores.ServerCore.PollPacket | NightNetwork/src/Server.cpp:218-227 | the oldest packet leaves the queue, if there is one |
| Sessions.Session.constructor | NightNetwork/src/Session.cpp:13-31 | a started session has a header read and the heartbeat timer pending |
| Sessions.Session.EnqueueWrite | NightNetwork/src/Session.cpp:67-85 | the session takes the frame, or releases it, and closes when the queue is full |
| Sessions.Session.HeaderRead | NightNetwork/src/Session.cpp:94-119 | moves the session as the automaton's header handler, and calls back exactly when it closes |
| Sessions.Session.BodyRead | NightNetwork/src/Session.cpp:129-141 | moves the session as the automaton's body handler; the payload goes to the packet queue, closed or not |
| Sessions.Session.Written | NightNetwork/src/Session.cpp:159-169 | the front is released and popped whatever the outcome; on an error the writing flag stays set |
| Sessions.Session.TimerExpired | NightNetwork/src/Session.cpp:177-191 | a timeout closes; otherwise a keepalive is queued and the timer armed again, even if queueing closed the session |
| Sessions.Session.HandleClose | NightNetwork/src/Session.cpp:199-210 | closes once: a Disconnect packet is pushed and the erase posted on the first call only |
| Sessions.Session.Step | NightNetwork/src/Session.cpp:67-210 | every handler moves the session as the automaton moves, with exactly the packets and closures its callbacks produce |
| Clients.Client.Send | NightNetwork/src/Client.cpp:336-362 | a frame is posted exactly for a legal size on a connected client that is not shutting down |
| Clients.Client.RunPosted | NightNetwork/src/Client.cpp:351-361 | the posted closure queues or releases its frame as the automaton does |
| Clients.Client.BodyRead | NightNetwork/src/Client.cpp:182-213 | both tests of the shutdown flag, the receive queue and the dropped counter, and the next header read |
| Clients.Client.Step | NightNetwork/src/Client.cpp:102-286 | every handler moves the client as the transition system moves it |
| Clients.Client.PollPacket | NightNetwork/src/Client.cpp:320-329 | the oldest payload leaves the receive queue, if there is one |
| Clients.Client.constructor | NightNetwork/src/Client.cpp:52-56 | a client's idle stamp is taken before it connects and its reads start |
| Servers.Server.Send | NightNetwork/src/Server.cpp:234-261 | refines the transition system's send |
| Servers.Server.Broadcast | NightNetwork/src/Server.cpp:263-291 | refines the transition system's broadcast |
| Servers.Server.Disconnect | NightNetwork/src/Server.cpp:293-308 | refines the transition system's disconnect |
| Servers.Server.DoAccept | NightNetwork/src/Server.cpp:144-184 | refines an accept: the id counter wraps, a session joins only if its Connect was pushed, a listed id keeps its old session; the shutdown flag may turn between its two tests |
| Servers.Server.RunTask | NightNetwork/src/Server.cpp:246-307 | every closure of the server strand refines the corresponding task of the transition system |
| Servers.Server.PostToEverySession | NightNetwork/src/Server.cpp:284-288 | the loop over the session map reaches each mapped session once and no other |
| Servers.Server.RunSessionIo | NightNetwork/src/Session.cpp:87-192 | a session's handlers refine the transition system's moves |
| Servers.Server.Shutdown | NightNetwork/src/Server.cpp:93-110 | the first call sets the flag and posts the closing of all sessions, later calls do nothing |
| Servers.Server.ClientMovesKeepServer | NightNetwork/src/Client.cpp:149-286 | what the clients do leaves the server's half of the state alone |
| Servers.Server.OtherThreads | NightNetwork/src/Server.cpp:131-142 | what the I/O threads may do between two calls of the game thread: any moves of theirs, as the transition system has them |
| RoomSystems.RoomSystem.RemoveSessionFromCurrentRoom | NightServer/RoomSystem.cpp:27-38 | both tables after the call |
| RoomSystems.RoomSystem.MoveSessionToRoom | NightServer/RoomSystem.cpp:40-52 | both tables after the call, for any arguments |
| RoomSystems.RoomSystem.IsDisplayNameTaken | NightServer/RoomSystem.cpp:88-100 | true exactly if another logged-in session holds the name |
| RoomSystems.RoomSystem.GetRoomMembers | NightServer/RoomSystem.cpp:102-122 | exactly the current states of the room's known members, the excluded one left out, in an order of the member set |
| RoomSystems.IndexAlwaysAgrees | NightServer/RoomSystem.cpp:6-62 | after any calls with any arguments, a room's members are exactly the sessions whose room it is |
| RoomSystems.MembersAreFilteredTable | NightServer/RoomSystem.cpp:102-122 | the query's result has no duplicates and consists of the listed sessions' current states |
| RoomSystems.RoomMembersAreFilteredTable | NightServer/RoomSystem.cpp:102-122 | querying a room is filtering the session table by room |
| RoomSystems.MemberCountsAddUp | NightServer/RoomSystem.cpp:40-52 | each session is in at most one room, and the member counts sum to the sessions in a room |
| Chat.GameAlwaysOk | NightServer/GameLogicSystem.cpp:124-196 | over all runs: the index is exact, no two logged-in sessions share a stored name, logged-in names have 1 to 32 bytes, room members are logged in |
| ChatViews.SentFits | NightServer/GameLogicSystem.cpp:300-309 | handlers send only messages the server can build, and nothing they queue is dropped for its size, except system messages |
| Reconstruction.StepView | NightServer/GameLogicSystem.cpp:43-86 | one event: a known session's view, updated by the messages it gets, is its room and companions afterwards |
| Reconstruction.ViewIsTruth | NightServer/GameLogicSystem.cpp:160-211 | view reconstruction: after every run, folding the messages sent to a session since it was added gives exactly its room and the ids of the others there |
| Reconstruction.EveryMessageIsSensible | NightServer/GameLogicSystem.cpp:213-284 | chat isolation at every point of a recipient's stream: broadcasts, joins and departures are of the room its view shows, about users it shows |
| ChatResponses.EveryRequestIsAnsweredOnce | NightServer/GameLogicSystem.cpp:124-274 | the responses of a run are exactly one per request, of its kind, to its sender, with its request id, in order; all other messages carry id 0 |
| ChatResponses.ResponsesTellTheTruth | NightServer/GameLogicSystem.cpp:124-274 | a success names the state that now holds, a failure with its error code means that nothing changed; room lists are complete |
| ChatEffects.RoomListShowsAllRooms | NightServer/GameLogicSystem.cpp:291-297 | in every run a room list shows Lobby, Dev and Chat, each once, with its id and the number of sessions in it |
| ChatEffects.JoinShowsRoom | NightServer/GameLogicSystem.cpp:345-362 | in every run a successful join is answered with the room as it is then, the newcomer counted |
| ChatEffects.NoticesExactly | NightServer/GameLogicSystem.cpp:118-122 | the system messages of each event: who gets which, for which room, and that nobody else gets any |
| ChatEffects.UsersAreNamed | NightServer/GameLogicSystem.cpp:286-289 | whoever joins, leaves or speaks is shown under the stored name, and a login is answered with the name just given |
| ChatEffects.OnlyOwnEntry | NightServer/GameLogicSystem.cpp:102-274 | an event changes its own session's entry only: the name by a login, the room by joining or leaving, nothing else ever |
| ChatEffects.LoginExactly | NightServer/GameLogicSystem.cpp:124-153 | a known session's login succeeds exactly for a name of 1 to 32 bytes under which no other session is logged in, and fails with the matching error otherwise |
| ChatEffects.SiftExactly | NightServer/GameLogicSystem.cpp:300-309 | exactly the messages whose encodings have 1 to 2048 bytes are kept, in order |
| ChatEffects.JoinerIsToldInOrder | NightServer/GameLogicSystem.cpp:160-211 | whoever joins gets the response, then the notice, then the introductions |
| ChatEffects.LeaverIsToldInOrder | NightServer/GameLogicSystem.cpp:244-262 | whoever leaves gets the response, then the notice, and no departure notice of its own |
| ChatEffects.CutsAreLeavers | NightServer/GameLogicSystem.cpp:264-274 | in every run the sessions to be disconnected are those of the disconnect requests, in order, known or not, and no others |
| ChatResponses.ChatReachesTheRoom | NightServer/GameLogicSystem.cpp:213-242 | an accepted chat request yields one broadcast for each member of the sender's room, the sender included, and nothing else; a refused one yields none |
| ChatResponses.NulFreeNamesStayDistinct | NightServer/GameLogicSystem.cpp:286-289 | while stored names hold no NUL byte, the names clients see are distinct |
| ChatResponses.LookAlikesExactly | NightServer/GameLogicSystem.cpp:286-289 | in every run, two logged-in users look alike to clients exactly when their names agree up to the first NUL byte of each |
| ChatResponses.WireNamesCollideExactly | NightServer/GameLogicSystem.cpp:286-289 | two accepted names look alike on the wire exactly when they agree up to the first NUL byte of each |
| GameLogicSystems.GameLogicSystem.Update | NightServer/GameLogicSystem.cpp:43-86 | every event is handled, in order; tables, message log and disconnect list are those of the pure run |
| GameLogicSystems.GameLogicSystem.TakeOutgoingMessages | NightServer/GameLogicSystem.cpp:88-93 | hands over all queued messages once |
| GameLogicSystems.GameLogicSystem.HandleLoginRequest | NightServer/GameLogicSystem.cpp:124-153 | tables and messages after a login, with all refusals |
| GameLogicSystems.GameLogicSystem.HandleJoinRoomRequest | NightServer/GameLogicSystem.cpp:160-211 | tables and messages after a join: departure from the old room, response, notice, introductions |
| GameLogicSystems.GameLogicSystem.HandleChatSendRequest | NightServer/GameLogicSystem.cpp:213-242 | the messages of a chat request, with all refusals |
| GameLogicSystems.GameLogicSystem.HandleLeaveRoomRequest | NightServer/GameLogicSystem.cpp:244-262 | tables and messages after a leave |
| GameLogicSystems.GameLogicSystem.HandleDisconnectRequest | NightServer/GameLogicSystem.cpp:264-274 | the response comes first, then the departure; the session is removed and listed for disconnecting, known or not |
| GameLogicSystems.GameLogicSystem.NotifyRoomLeave | NightServer/GameLogicSystem.cpp:276-284 | one departure notice for each other member, none without a room or a login |
| GameLogicSystems.GameLogicSystem.QueueMessage | NightServer/GameLogicSystem.cpp:300-309 | empty and oversized encodings are dropped, all others appended |
| NetworkSystems.NetworkSystem.Receive | NightServer/NetworkSystem.cpp:12-37 | packets are polled until the queue is found empty and translated one by one, in order, while other threads go on between the polls |
| NetworkSystems.NetworkSystem.Flush | NightServer/NetworkSystem.cpp:39-46 | all messages are sent in order, then the disconnects requested, while other threads go on in between |
| NetworkSystems.Polling | NightServer/NetworkSystem.cpp:12-37 | polls only add to the packets polled; other threads and disconnects leave what was polled and issued alone |
| NetworkSystems.PollsTakeTheOldest | NightNetwork/src/Server.cpp:218-227 | n undisturbed polls take the n oldest packets in order and touch nothing else |
| NetworkSystems.SendsAreIssued | NightNetwork/src/Server.cpp:234-261 | while the server runs, every send of a legal payload is issued, in order, whatever other threads do in between |
| NetworkSystems.DisconnectsAreRequested | NightNetwork/src/Server.cpp:293-308 | every disconnect is requested, in order, whatever other threads do in between |
| NetworkSystems.StreamOnlyGrows | NightNetwork/src/Server.cpp:79-91 | packets that got through stay in the stream of polled and waiting packets, whatever anybody does |
| Integration.TableFollowsLife | NightServer/GameLogicSystem.cpp:102-116 | a session is in the table exactly while its packets show it alive and it has not asked to leave |
| Integration.SessionTableIsPolledStream | NightServer/NetworkSystem.cpp:12-37 | after Receive and Update the table holds exactly the ids with a polled Connect and neither a polled Disconnect nor a handled request to leave, and no other id is in any room |
| Integration.SessionTableIsOpenConnections | NightNetwork/src/Server.cpp:155-177 | while nothing was dropped or waits, the table is exactly the open connections that did not ask to leave |
| Integration.StrangersGetNothing | NightServer/GameLogicSystem.cpp:102-106 | no message is addressed to an id before its Connect was handled |
| Integration.GameIsPolite | NightServer/NetworkSystem.cpp:39-46 | the game logic only ever sends to sessions whose Connect was polled |
| Integration.ReplayFoldsEverything | NightServer/GameLogicSystem.cpp:160-211 | a session's view is the fold of every message ever addressed to its id |
| Integration.LogIsBuildable | NightServer/GameLogicSystem.cpp:300-309 | every message of every run is one the assumptions on the encoding speak of |
| Encodings.AssumptionsAreConsistent | NightServer/GameLogicSystem.cpp:311-442 | some encoding, which writes a system message as room and text only, meets all assumptions made on sizes, encoding and reading |
| Integration.ClientSeesItsRoom | NightServer/NightServer.cpp:29-36 | over the network: a client that dropped nothing has polled an initial part of the messages to it, and once it has polled all, folding the payloads gives its room and companions on the server |
| RequestPath.RequestsOfSession | NightServer/GameLogicSystem.cpp:124-274 | the requests of a session that were handled are those its polled payloads make; only one that arrived after the Disconnect may have gone unanswered |
| RequestPath.TicketsAreAnswers | NightServer/NetworkSystem.cpp:39-46 | the responses found in the payloads sent to a session are the responses of the log addressed to it, in order |
| RequestPath.ResponsesReachTheirClient | NightServer/NightServer.cpp:29-36 | end to end: the responses a client has polled are, in order, the answers due for the payloads polled from it, with a lossless hand-off queue for an initial part of the requests it sent, and all of them once everything has arrived |
| NightServers.RoundStaysInStep | NightServer/NightServer.cpp:31-35 | a round leaves every polled packet handled, every message of the log sent and every disconnect asked for requested, in order, and does nothing else, whatever moves of other threads fall inside it |
| NightServers.OtherMovesKeepStep | NightServer/NightServer.cpp:29-39 | what the I/O threads do between rounds does not disturb this |
| NightServers.DisconnectsAreThoseAskedFor | NightServer/NightServer.cpp:31-35 | between rounds, the disconnects requested from the transport are those of the disconnect requests among the events of the polled packets, in order, and no others |
| NightServers.NightServer.Tick | NightServer/NightServer.cpp:31-35 | one round of the main loop, on the objects, with other threads going on before every call: every packet that waited is polled and handled, its messages sent and its disconnects requested |
| NightServers.NightServer.ClientSeesTheServer | NightServer/NightServer.cpp:29-36 | between rounds, a client that dropped nothing and has polled all messages for it shows exactly its room and companions in the server's own tables |

## Left out

- Encoding and decoding of messages by FlatBuffers: messages are values; decoding is a given function from a payload to at most one event of its session, encoding a given function, undone by the client's reading as far as it makes a difference to a client.
- The request decoders and builders, `DecodeProtocolPacket` and `ChatProtocolClient`: one-branch translations behind the decoding function.
- asio, the lock-free queues, memory orderings and threads: handlers are atomic steps, strands are first-in first-out, a push may fail at any time and always fails at capacity. A flag read twice in one handler may change between the reads only where the model has the parameter `late`.
- Frames in `Session`, `Client` and `Server` are byte values with a multiset of released frames; that pooled buffers carry these bytes is proved separately in `Frames`, and who owns which pooled buffer is a precondition there.
- `Session::send`: not called by the server, which builds the frame itself.
- Name resolution, listening, connecting, socket options, joining threads, and freeing what is left in the queues at destruction.
- `Receive` on a queue that other threads never let run empty: it polls forever, and its model bounds how long they go on.
- Wrap-around of the 64-bit dropped-packet counters.
- Console output, chat timestamps, the tick sleep and the empty `update` methods.
- `ChatClientFrame` and everything of the user interface.
- Error codes that the server logic never produces (room full, invalid message, internal error).
- NulFreeNamesStayDistinct: one direction only; `LookAlikesExactly` has the exact condition.
- NeitherSideTimesOut: for runs in which nothing else closes either side, and sufficient only, because ticks are 5 s apart (`SumIsNotNecessary`); `BothAreKeptExactly` is exact, in the time from each side's idle stamp to the other's start.
- ClientsReceiveInOrder: counts sends from the moment the session joined; broadcasts are included, as sends to every session.
- HandleJoinRoomRequest: needs an exact room index, which every run keeps (`GameAlwaysOk`).
