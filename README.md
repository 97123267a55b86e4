# TestUDPChat session layer, in Dafny

This project models the session layer of TestUDPChat (`src/main.cpp`): a UDP
server that hands out numbered sessions (`ClientHandler`) from a pool, routes
each inbound datagram either to its Connect handling or to the session whose
uid the datagram names, and a client that sends one Connect request and
adopts the uid of the first Accept it receives. Both ends hand application
packets to a dispatch table (`PacketHandler<T>`), a map from an unsigned
message tag to a callback.

The state the source updates in place is modelled by classes with the same
fields: `PacketHandlers.PacketHandler` (the callback map),
`Sessions.UidCounter` (the global `lastUid`), `Sessions.ClientHandler`,
`Pool.Server` (the pool and the datagrams sent) and `Peer.Client`. Each
method is proved against a function on values: `SessionView`s for the
sessions, `ConnectViews`, `Replies` and `GrowViews` for the pool, and
`ClientReceive` for one step of the client. `ClientRun` (the client's
receive loop over a sequence of packets) and the properties are stated as
lemmas about those functions.

Modelling decisions:

- Unsigned arithmetic is modulo 2^32 (`Words.Add32`, `Inc32`, `Dec32`). This
  covers the uid counter and the timeout countdown.
- A `Packet` is the sequence of its unsigned fields. `>>` on an exhausted
  packet leaves the target as it was, as SFML's `Packet` does. The source
  reads into uninitialised locals (`type`, `chUid`) and into the client's
  uninitialised `uid`. Their unknown prior values are parameters
  (`unsetType`, `unsetUid`, `initialUid`). In the source `type` is a new
  uninitialised local on every turn of the loop; `Peer.ClientRun` assumes one
  unset value for the whole run.
- A callback is a total function from the caller (as a value) and the rest of
  the packet to `Ok` or `Fail`, where `Fail` stands for a thrown exception. A
  slot created by `operator[]` without an assignment holds an empty
  `std::function`, and calling it throws.
- Sockets are replaced by the datagrams given to `receive` (a `Received` value)
  and an `outbox` of datagrams handed to `send`. Whether the bind succeeds is
  a constructor parameter.

The model follows the code in its behaviours that a session layer of this
kind would not be expected to have:

- Packets carry no origin tag.
- The client does not check who sent a packet.
- One Connect request accepts every free session, not only the first.
- The receive loop never calls `growIfNeeded`.
- A timeout is reported but never frees its session.
- The countdown starts when a session is constructed, not when it is accepted, so a free session that was never accepted also counts down and reports a timeout five ticks after its creation; `Sessions.ClientHandler.Tick` has no busy requirement for this reason.
- A routed uid is used as a vector index without a bounds check, so that
  check is a precondition of `Pool.Server.Receive`.
- A routed packet is handed to the session at its index whether or not that
  session is busy.
- Routing by index reaches the session holding that uid only because uids
  start at 0 and sessions are appended in uid order; `Pool.UidsAreIndices`
  states this relation, `Pool.Server.GrowIfNeeded` keeps it, and
  `Handshake.HandshakeRoutesHome` uses it.

## Model

| member | source | states |
|---|---|---|
| Words.Add32 | src/main.cpp:97 | k runs of `lastUid++`: the plain sum below 2^32, the sum minus 2^32 after one wrap |
| Words.Inc32 | src/main.cpp:97 | `lastUid++` adds one, and the largest value wraps to zero |
| Words.Dec32 | src/main.cpp:106 | `--untilTimeout` subtracts one, and zero wraps to the largest value |
| Words.Add32Injective | src/main.cpp:97 | within 2^32 consecutive increments the counter never gives the same value twice |
| Words.Add32Step | src/main.cpp:97 | incrementing k+1 times is one more increment than incrementing k times |
| Packets.Write | src/main.cpp:239 | `p << x` appends x after the fields already written |
| Packets.Read | src/main.cpp:168 | `p >> x` takes the front field; on an empty packet x keeps its prior value |
| Packets.Build | src/main.cpp:238-239 | a fresh packet followed by chained `<<`; `BuildHoldsFields` states that it holds exactly the fields written, in order |
| Packets.ReadN | src/main.cpp:168-172 | successive `>>` into targets that start at one prior value; `RoundTrip` and `ReadPastEnd` state what they yield |
| Packets.BuildHoldsFields | src/main.cpp:238-239 | a packet built by successive `<<` holds exactly the fields written, in order |
| Packets.RoundTrip | src/main.cpp:238-239 | reading back as many fields as were written yields those fields in order |
| Packets.ReadPastEnd | src/main.cpp:247 | reads past the last field yield the targets' prior values |
| PacketHandlers.Dispatch | src/main.cpp:63-85 | a missing tag calls nothing (NoHandler); a present tag runs its callback, Handled exactly when it returns and Caught exactly when it throws or the slot is empty |
| PacketHandlers.PacketHandler.constructor | src/main.cpp:60 | a new table has no entries |
| PacketHandlers.PacketHandler.Handle | src/main.cpp:63 | `handle` on the table's current entries; what it reports is stated by `Dispatch`'s contract |
| PacketHandlers.PacketHandler.Index | src/main.cpp:87 | `operator[]` on a missing tag inserts an empty slot; on a present tag it changes nothing |
| PacketHandlers.PacketHandler.Assign | src/main.cpp:87 | `table[tag] = f` binds exactly tag to f and leaves every other entry alone |
| PacketHandlers.DispatchAfterAssign | src/main.cpp:63-87 | after `table[tag] = f`, dispatching tag reports f's outcome and other tags dispatch as before |
| PacketHandlers.DispatchAfterIndex | src/main.cpp:63-87 | a tag missing from the table is not handled; after merely reading `table[tag]`, dispatching it throws inside `handle` and is caught |
| Sessions.UidCounter.constructor | src/main.cpp:90 | `lastUid` starts at zero |
| Sessions.UidCounter.Take | src/main.cpp:97 | a session takes the current `lastUid` and the counter moves one on, modulo 2^32 |
| Sessions.ClientHandler.View | src/main.cpp:96-98 | the session's busy flag, uid, countdown and address as a value |
| Sessions.ClientHandler.constructor | src/main.cpp:96-100 | a new session is free, has the next uid, a countdown of 5 and no address |
| Sessions.ClientHandler.Tick | src/main.cpp:104-107 | one countdown step: decrement with wrap-around, a timeout reported exactly at zero, and busy, uid and address unchanged |
| Sessions.ClientHandler.Accept | src/main.cpp:111 | `accept(ip)` records the address and marks the session busy, leaving uid and countdown |
| Sessions.ClientHandler.RefreshTimeout | src/main.cpp:112 | `refreshTimeout()` resets the countdown to 5 and nothing else |
| Sessions.ClientHandler.Handle | src/main.cpp:113 | `handle` dispatches with the session as caller and then refreshes the countdown, whatever the dispatch reported |
| Sessions.Admitted | src/main.cpp:235-236 | an accepted and refreshed session is busy, serves the sender, has countdown 5 and keeps its uid |
| Sessions.Refreshed | src/main.cpp:112 | a refresh changes only the countdown, to 5 |
| Sessions.Countdown | src/main.cpp:104-107 | n turns of the countdown loop; `CountdownWraps`, `TimeoutOncePerPeriod` and `TimeoutAfterFiveTicks` state what it yields |
| Sessions.CountdownWraps | src/main.cpp:104-107 | after n ticks the countdown is the start minus n, modulo 2^32 |
| Sessions.Dec32Residue | src/main.cpp:106 | one decrement is subtraction of one modulo 2^32 |
| Sessions.TimeoutOncePerPeriod | src/main.cpp:104-107 | over 2^32 ticks a timeout is reported exactly once: after t ticks, or after 2^32 ticks from 0 |
| Sessions.TimeoutAfterFiveTicks | src/main.cpp:104-112 | a session with a fresh countdown reports its timeout on the fifth tick and on no tick before |
| Pool.CountFreeZero | src/main.cpp:206 | no free session among the first n exactly when all of them are busy |
| Pool.HasFree | src/main.cpp:206 | the `containsAnyIf(..., !busy)` test: some session in the pool is not busy; `Server.AnyFree` is proved to compute it and `GrowGivesFree` states it holds after a growth |
| Pool.ConnectViews | src/main.cpp:231-243 | after a Connect every session is busy and keeps its uid; busy ones are unchanged, free ones are admitted for the sender |
| Pool.ConnectOne | src/main.cpp:233-236 | one pass of the Connect loop: a busy session is skipped, a free one admitted |
| Pool.AcceptFor | src/main.cpp:238-240 | the `[Accept, uid]` packet sent to the requesting address and port; `RepliesAreAccepts` states every reply has this form |
| Pool.ReplyOf | src/main.cpp:233-240 | what one pass of the Connect loop sends: nothing for a busy session, one Accept for a free one; `AcceptIfFree` is proved to send it |
| Pool.RepliesUpTo | src/main.cpp:231-240 | the Accepts sent for the first n sessions; `RepliesCount`, `ReplyPosition` and `RepliesAreAccepts` state their number, order and form |
| Pool.Replies | src/main.cpp:231-240 | the Accepts sent for a whole Connect; `RepliesOnePerFree`, `NoFreeNoReplies` and `RepliesWhenAllFree` state what they are |
| Pool.RepliesCount | src/main.cpp:231-240 | a Connect sends exactly one reply per free session |
| Pool.ReplyPosition | src/main.cpp:231-240 | the reply for a free session comes after the replies for the free sessions before it |
| Pool.RepliesOnePerFree | src/main.cpp:231-240 | the replies are the free sessions' Accepts, one each, in pool order |
| Pool.RepliesWhenAllFree | src/main.cpp:231-240 | on an all-free pool the k-th reply carries the k-th session's uid |
| Pool.AllFreeCount | src/main.cpp:233 | in an all-free pool every session counts as free |
| Pool.RepliesAreAccepts | src/main.cpp:238-240 | every reply goes to the requesting address and port and is `[Accept, uid]` |
| Pool.NoFreeNoReplies | src/main.cpp:231-243 | without a free session a Connect sends nothing |
| Pool.SecondConnectUnanswered | src/main.cpp:229-244 | after one Connect no session is free, so a second Connect from anyone changes nothing and gets no reply |
| Pool.RepliesAppend | src/main.cpp:231-240 | the replies for two pools side by side are the replies of each, in order |
| Pool.RepliesPrefixOf | src/main.cpp:231-240 | the replies for the first n sessions depend only on those sessions |
| Pool.GrowViews | src/main.cpp:204-209 | `growIfNeeded` on values; `GrowGivesFree`, `GrowKeepsUidOrder` and `GrowKeepsUidIndices` state what it yields, and `Server.GrowIfNeeded` is proved equal to it |
| Pool.FreshViews | src/main.cpp:208 | the batch of new sessions; `FreshUidsDistinct` and `GrowKeepsUidOrder` state their uids |
| Pool.GrowGivesFree | src/main.cpp:204-209 | after `growIfNeeded` some session is free |
| Pool.FreshUidsDistinct | src/main.cpp:208 | the uids of a batch of new sessions are pairwise distinct, across a wrap-around too |
| Pool.GrowKeepsUidOrder | src/main.cpp:208 | growing keeps uids strictly increasing in pool order, provided the counter does not wrap during the batch |
| Pool.ConnectKeepsUidOrder | src/main.cpp:231-243 | a Connect keeps every uid, so uid order is kept |
| Pool.GrowKeepsUidIndices | src/main.cpp:90-97 | with the counter equal to the pool size, a growth keeps every uid equal to its position and the counter equal to the new size |
| Pool.ConnectKeepsUidIndices | src/main.cpp:231-243 | a Connect keeps every uid at its position |
| Pool.RefreshKeepsUidIndices | src/main.cpp:245-249 | a routed packet keeps every uid at its position |
| Pool.GrowThenConnect | src/main.cpp:204-243 | when a Connect has taken every session, a growth and a second Connect give all 10 new sessions to the second sender, one Accept each with consecutive uids |
| Pool.Decode | src/main.cpp:228-247 | the first field (or the unset type) decides Connect; otherwise the second field (or the unset uid) is the session index and the rest is the payload |
| Pool.ViewsOf | src/main.cpp:189 | the pool's sessions as values, one per handler, in vector order |
| Pool.Server.constructor | src/main.cpp:193-202 | a new server has an empty pool and has sent nothing; its loop runs only if the bind succeeded |
| Pool.Server.AnyFree | src/main.cpp:206 | the scan reports true exactly when some session is not busy |
| Pool.Server.GrowIfNeeded | src/main.cpp:204-209 | nothing changes while a session is free; otherwise 10 fresh sessions with the next 10 uids are appended, the old ones are untouched, uid order is kept without wrap-around, and uids stay equal to positions when the counter equals the pool size |
| Pool.NewSessions | src/main.cpp:208 | the growth loop creates n distinct fresh sessions with consecutive uids from the counter |
| Pool.Server.AcceptAllFree | src/main.cpp:229-244 | the Connect branch: the pool becomes ConnectViews of itself and the replies are appended to what was sent |
| Pool.AcceptEach | src/main.cpp:231-243 | the loop over all handlers, with no break: each free session is admitted and answered, in order |
| Pool.AcceptIfFree | src/main.cpp:233-240 | one iteration: a busy session is skipped; a free one is accepted, refreshed and answered with `[Accept, uid]` |
| Pool.Server.Receive | src/main.cpp:215-250 | one receive step: nothing received changes nothing; a Connect runs the Connect branch; any other type goes to the session at the uid index, which is refreshed, and nothing is sent |
| Pool.ConnectToNewServer | src/main.cpp:193-250 | since the loop never grows the pool, a Connect to a freshly started server gets no reply |
| Peer.Client.View | src/main.cpp:127-128 | the client's acceptance flag and uid as a value |
| Peer.ClientReceive | src/main.cpp:168-178 | before acceptance only an Accept matters, and it sets the uid from the second field; once accepted every packet is dispatched and the state stays the same |
| Peer.IsAccept | src/main.cpp:168-170 | the test `type == Accept` on the first field, or on the unset `type` when the packet is empty; `FirstAcceptWins` and `NoAcceptNoChange` use it |
| Peer.OfferedUid | src/main.cpp:172 | `packet >> uid`: the second field, or the uid kept when the packet holds no second field; `FirstAcceptWins` states it is the uid adopted |
| Peer.ClientRun | src/main.cpp:155-182 | successive turns of the client's receive loop; `AcceptedIsFinal`, `FirstAcceptWins` and `NoAcceptNoChange` state what it yields |
| Peer.AcceptedIsFinal | src/main.cpp:170-178 | once accepted, no sequence of packets changes the client's state |
| Peer.FirstAcceptWins | src/main.cpp:168-178 | a client takes the uid of the first Accept it receives and ignores everything before it |
| Peer.NoAcceptNoChange | src/main.cpp:168-178 | without any Accept a client that is not accepted stays as it was |
| Peer.Client.constructor | src/main.cpp:127-139 | a new client is not accepted, its uid is the unset value, and nothing has been sent |
| Peer.Client.Start | src/main.cpp:152-153 | the loop starts by sending one Connect packet to the server's address and port |
| Peer.Client.Receive | src/main.cpp:158-178 | one receive step is ClientReceive on the client's state; nothing is sent |
| Handshake.FirstFree | src/main.cpp:231-233 | the first session in pool order that the Connect loop finds free |
| Handshake.PacketsOf | src/main.cpp:161 | the packets of the datagrams, in order |
| Handshake.FirstReply | src/main.cpp:231-240 | the first reply to a Connect carries the uid of the first free session |
| Handshake.HandshakeOutcome | src/main.cpp:168-178 | a client that receives the replies to its Connect ends up accepted exactly when a session was free, and then with the first free session's uid; otherwise it is unchanged |
| Handshake.HandshakeRoutesHome | src/main.cpp:245-249 | when uids equal positions, the uid a client adopts indexes, within bounds, the session admitted for that client |
| Handshake.SecondClientStaysOut | src/main.cpp:229-244 | a second client connecting after the first request exhausted the pool is never accepted |

## Left out

- Threads, `sleep_for` and the races between the countdown threads and the receive loop. A countdown step is the separate method `Tick`.
- The SFML socket and its byte format. Fields are unsigned 32-bit values, as the source writes them.
- Logging, including the timeout message, which is the only thing a timeout does.
- `choice`, `strEnter` and `main`, including its unreachable menu code. In `main`, the server and client are temporaries that are destroyed at once; the model does not cover this.
- `ClientHandler::send`, which nothing calls.
- Failed sends: `Client::send` only logs them, and the Connect branch (line 240 of `src/main.cpp`) ignores the send status. Every send is appended to the outbox.
- Callbacks that change their caller. A callback sees its caller as a value, and the source registers none.
- The `static_cast<PTFromClient>` in routing, because it does not change the value passed to `handle`.
- Reclaiming timed-out sessions, broadcast and ping handling, because the source does none of them.
- Pool.Server.Receive: it requires the routed uid to be a valid index; out of range, the source indexes past the end of the vector, which is undefined behaviour.
- Pool.GrowKeepsUidOrder: it assumes the counter does not wrap during a batch. `Pool.FreshUidsDistinct` covers the wrapping case, where only distinctness holds within the batch.
