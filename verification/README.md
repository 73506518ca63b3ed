# The game server engine, modelled and proved

The engine is a set of actors. A session manager, a room manager, a matchmaker and one task per
room each own private maps and answer commands one at a time; a logical client is shared by all of
them behind a mutex, and two kinds of lock in the engine order what is done to one session. The
same facts are kept in several places: who is in a room is known to the room, to the manager's
record of it and to the manager's index of sessions; who is connected is known to the client, to
the session manager's tables, to the rooms' games and to the routing table of the connection. The
project models these actors and proves that the copies stay in step, whatever order commands are
taken in, wherever a room crashes, and whenever a connection is cancelled, dropped, taken over or
closed for good.

| file | what it models |
|---|---|
| `types.dfy` | errors, identifiers, the accepted configurations |
| `client.dfy` | the generation-numbered client, the bounded channel, the inbox |
| `delivery.dfy` | from the sender of an event to the reader of one connection |
| `room.dfy` | one room actor and the order in which its game hears of things |
| `room_manager.dfy` | rooms, records, the index of sessions, creation and its undoing |
| `matchmaker.dfy` | the queue, its inverse index, the matching loop |
| `session_manager.dfy` | sessions, tokens, suspended sessions, accounts, expiry |
| `connection.dfy` | the routing table, the first drain, the rate limit |
| `browser.dfy` | request ids, pending requests, timers and promises of the browser client |
| `matching.dfy` | matchmaker and room manager together: the matching loop with the manager's own answers |
| `room_system.dfy` | room manager, rooms and clients interleaved from await to await |
| `room_copies.dfy`, `room_routes.dfy`, `room_notices.dfy`, `room_runs.dfy`, `room_losses.dfy` | what that interleaving keeps: members, routes, what games hear; every run; losses and returns |
| `room_commands.dfy` | what each of the room manager's commands does to its record in that interleaving |
| `room_moves.dfy` | how the room manager carries a command through |
| `engine_system.dfy` | the whole engine: locks, suspension, resumption, disconnection, expiry, gated commands |
| `engine_locks.dfy`, `engine_core.dfy`, `engine_duties.dfy`, `engine_notices.dfy`, `engine_ghosts.dfy`, `engine_routes.dfy`, `engine_beliefs.dfy`, `engine_runs.dfy` | what it keeps: locks, tables, what is owed, reports of losses, closed sessions, snapshots, what rooms believe; every run |
| `engine_expiry.dfy`, `engine_commands.dfy`, `engine_losses.dfy` | what a finished expiry pass and a finished transport command have done; when two losses have a return between them |
| `engine_moves.dfy`, `engine_witnesses.dfy`, `engine_scenario.dfy` | runs: operations carried through, what follows a leave that comes too late, and one such run from the start |

Each actor is there twice: as a value with the functions that its commands compute, and as an
object (`ClientHandle`, `ClientInbox`, `Room`, `RoomManager`, `Matchmaker`, `SessionManager`,
`Connection`, `RateLimiter`, `GameClient`) whose methods change its fields in the source's order and
are proved to compute those functions. The two systems interleave the same functions. What the
outside decides (whether a game admits a player, asks to close or panics, whether a requester still
waits for its reply, what the clock says, which order a hash map is walked in) is a parameter.

The main results, all for every run:

* a recorded room that runs has exactly the members recorded for it, a dead one at least those, and
  no record exceeds its room (`RoomRuns.TwoCopiesAgree`, and for the whole engine
  `EngineRuns.CopiesAgree`);
* a session whose disconnection or expiry is complete is nowhere, and never comes back
  (`EngineRuns.DisconnectedForEver`, `EngineRuns.ExpiredForEver`), and an expiry pass that has run
  to its end has removed everybody who was overdue at its scan
  (`EngineExpiry.ExpiryRemovesTheOverdue`) and nobody else (`EngineExpiry.ExpirySparesTheOthers`);
* while a transport command is being carried out its generation is the session's
  (`EngineRuns.GateHolds`), and when it is over without a refusal it has done what it is for, once,
  a create or a join only after the session has left the match queue
  (`EngineCommands.CommandsAreCarriedOut`);
* each command of the room manager changes its record as if it were alone, however rooms and clients
  interleave and wherever they crash (`RoomCommands.CommandsAreAtomic`);
* what is acknowledged as delivered to one connection is exactly, in order, what its inbox hands over
  and still holds (`Deliveries.RepliesArrive`);
* a resumed connection's routing table becomes the session's membership
  (`EngineRuns.ResumedTablesConverge`);
* a suspended session is not in the match queue (`EngineRuns.SuspendedIsNotQueued`); whenever nothing
  is owed, a running room believes in a member's loss if and only if the session is suspended
  (`EngineRuns.RoomsKnowWhoIsLost`); and between two reports of one player's loss there is one of
  its return, if nobody is made to leave a room that believes it lost
  (`EngineLosses.ReturnsInEveryRun`);
* nobody who stays in the match queue is overtaken (`Matchmakers.NeverOvertaken`), and with the
  manager's own answers the matching loop ends and its matches are exact (`Matching.LoopEnds`,
  `Matching.MatchesAreExact`), of players who were all called eligible since they were popped
  (`Matchmakers.SubmittedAreVouchedFor`);
* the session tables agree, expiry respects the grace period exactly, a session is resumed by exactly
  those who present its current token in time and the principal it was registered with, and a spent
  token stays spent (`SessionManagers.SessionRun`, `SessionManagers.TokensStaySpent`);
* no stretch of time lets through more than the rate limit's exact bound
  (`Connections.RateIsBounded`, `Connections.BoundIsReached`);
* every request of the browser client ends exactly once (`Browsers.EachRequestEndsOnce`).

Two things one might expect of the code hold only under a condition, which is stated exactly.

A game may hear twice that a player's connection was lost without hearing of its return. That takes
a player who leaves a room while the room believes it lost, and then comes back, joins again and is
lost again; `State::leave` does not look whether its session is connected. No server code is needed:
a Leave of the player's own, past its check, keeps only the control gate, and an expiry pass, which
takes only the lifecycle lock, may report the loss to the room manager before that Leave is sent
(`EngineScenario.LossesMayRepeat`, a run from the start of the engine). In every run in which each
request to leave is taken up while the room does not believe the player lost, the return is always
heard (`EngineLosses.ReturnsInEveryRun`); that is so of every player who is connected and whose
return is not still to be told (`EngineLosses.ConnectedLeaveInTime`). And whenever no suspension,
resumption, disconnection or expiry pass has something left to send, one request to leave a room
keeps the rule for ever if and only if the session is not a suspended member of the room or nobody
else is in it (`EngineWitnesses.LeaveDecides`).

`next_room` may hand over a room that was left and joined again before the event that it was left
(`Clients.NextRoomOvertakesALeave`). A mix of calls sees the exact order of delivery if and only if
no `next_room` among them finds a route, within its buffer, behind something else
(`Clients.TotalOrderIsExact`); so a reader that uses only `recv` and `try_recv`, as the connection
loop does, always sees it (`Clients.ReceivingKeepsTotalOrder`).

## Model

| member | source | states |
|---|---|---|
| `Clients.RunEvolves` | src/actors/client.rs:70-166 | over any run of attaching, cancelling, suspending, closing and delivering, generations never go back, closing is for ever, and a connection only gains events, is cancelled for good and never returns |
| `Clients.RepliesNeverCrossGenerations` | src/actors/client.rs:173-200 | a reply addressed to one generation is never delivered to the connection that replaced it, however much happened in between |
| `Clients.ChannelStaysBounded` | src/actors/client.rs:183-200 | the channel never holds more than its capacity |
| `Clients.DeliveryIsExact` | src/actors/client.rs:183-200 | an event, addressed or not, is accepted exactly if the client is open, its connection live, the generation the one addressed and the channel not full; then exactly this event is queued, and otherwise nothing is, a full or abandoned channel being cancelled |
| `Clients.ClientHandle.Attach` | src/actors/client.rs:70-102 | the new generation, a channel of its own, the replaced connection cancelled; the three refusals change nothing |
| `Clients.ClientHandle.IsClosed` | src/actors/client.rs:118-125 | closed, without a connection, or with a cancelled or abandoned one |
| `Clients.ClientHandle.IsCurrent` | src/actors/client.rs:109-117 | current exactly if the generation matches a live connection of an open client |
| `Clients.ClientHandle.Close` | src/actors/client.rs:127-131 | the connection is cancelled but left for its owner to suspend |
| `Clients.ClientHandle.CloseFinal` | src/actors/client.rs:132-138 | closed for good, and the connection's reader is told |
| `Clients.ClientHandle.Suspend` | src/actors/client.rs:139-150 | only the generation that reports a loss can suspend |
| `Clients.ClientHandle.SuspendClosed` | src/actors/client.rs:152-166 | an abandoned connection is taken away, a live one is not |
| `Clients.ClientHandle.DeliverAt` | src/actors/client.rs:183-200 | the event is queued behind the others, or the answer says why not; what that amounts to is `Clients.DeliveryIsExact` |
| `Clients.ClientInbox.RestoreRoutes` | src/actors/client.rs:203-206 | restored routes go behind what is already pending and before what the channel holds |
| `Clients.ClientInbox.Recv` | src/actors/client.rs:207-230 | pending events first, then the channel's; a cancelled inbox yields nothing and loses nothing |
| `Clients.ClientInbox.Take` | src/actors/client.rs:214-219 | the oldest event of the channel |
| `Clients.ClientInbox.NextRoom` | src/actors/client.rs:231-251 | the earliest pending route, or the next one to arrive; what is passed over is kept in order |
| `Clients.InboxIsLossless` | src/actors/client.rs:207-251 | any mix of the three ways to read hands over all routes, and all other events, each in delivery order without a gap |
| `Clients.CallKeepsOrder` | src/actors/client.rs:207-251 | one call keeps the exact order of delivery if and only if it is not a `next_room` that finds its route behind something else |
| `Clients.TotalOrderIsExact` | src/actors/client.rs:207-251 | any mix of calls sees the exact order, at every moment, if and only if no `next_room` among them does |
| `Clients.ReceivingKeepsTotalOrder` | src/actors/client.rs:207-230 | without `next_room` the order is always the exact order of delivery |
| `Clients.NextRoomOvertakesALeave` | src/actors/client.rs:231-251 | whatever the room, the buffer and what came before, leaving and rejoining is read as joining first |
| `Deliveries.RepliesArrive` | src/actors/client.rs:173-251 | over any mix of deliveries, other events and reads, the events acknowledged for one connection are exactly, in order, what its inbox has handed over followed by what it holds; routes and the rest each by itself if `next_room` is used |
| `Deliveries.AcknowledgedArrives` | src/actors/client.rs:203-251 | the same from any moment of a connection on |
| `Rooms.RoomRun` | src/actors/room.rs:152-218 | in every run the members are those who entered and have not exited, every message and notice is about a member, the capacity holds, and the host stays or becomes nobody |
| `Rooms.TurnKeepsTrace` | src/actors/room.rs:165-216 | each command keeps the trace truthful, including a join whose reply is lost and a game that panics |
| `Rooms.TurnExtends` | src/actors/room.rs:142-218 | no event is unsaid, no host appointed |
| `Rooms.TurnIsExact` | src/actors/room.rs:165-193 | a command brings in exactly an open client that fits, can be told and is admitted by the game, takes out exactly who leaves, and the host stays the host unless it is the one who leaves |
| `Rooms.RunIsWanted` | src/actors/room.rs:152-218 | over every run whoever came in was admitted, whoever is gone has left, and so has a host that is not the host any more |
| `Rooms.TurnIsHeard` | src/actors/room.rs:142-218 | of each command the game of a running room hears exactly the events spelled out, and of the end last; the room ends exactly if it is stopped, crashes, is broken or given up by its game, or is left by its last player |
| `Rooms.Room.constructor` | src/actors/room.rs:110-141 | a new room has nobody in it |
| `Rooms.Room.Dispatch` | src/actors/room.rs:142-151 | the game hears one event, may ask to close, may panic |
| `Rooms.Room.Admit` | src/actors/room.rs:167-182 | the join up to its reply: the refusals in their order, the route announced before the game hears of it |
| `Rooms.Room.Join` | src/actors/room.rs:167-184 | the whole join; when nobody hears the reply a new member is taken out again, an old one stays |
| `Rooms.Room.Retract` | src/actors/room.rs:182-184 | taking out again is heard by the game |
| `Rooms.Room.Leave` | src/actors/room.rs:185-193 | the route withdrawn, the host forgotten, the game told, an empty room closed |
| `Rooms.Room.Connection` | src/actors/room.rs:194-200 | loss and return are told about members only |
| `Rooms.Room.Packet` | src/actors/room.rs:201-205 | a message is passed on only for a member whose connection is still the one it was sent on |
| `RoomManagers.IndexIsInverse` | src/actors/room_manager.rs:122-123 | a session's entry lists a room exactly if the room's record lists the session |
| `RoomManagers.OneReading` | src/actors/room_manager.rs:50-60 | the two copies are determined by what they agree on |
| `RoomManagers.GrantKeeps` | src/actors/room_manager.rs:104-125 | a join keeps the limits, the index and the numbering |
| `RoomManagers.RevokeKeeps` | src/actors/room_manager.rs:207-222 | a leave keeps them and leaves no empty game room |
| `RoomManagers.RevokeAllKeeps` | src/actors/room_manager.rs:280-284 | so does leaving every room |
| `RoomManagers.ReapKeeps` | src/actors/room_manager.rs:253-259 | so does removing the room of a task that ended, which is no other task's |
| `RoomManagers.CreationKeeps` | src/actors/room_manager.rs:163-189 | so does a creation, kept or taken back |
| `RoomManagers.CreationRollsBack` | src/actors/room_manager.rs:175-180 | taking a creation back after any number of joins is exact |
| `RoomManagers.GrantRollsBack` | src/actors/room_manager.rs:273-274 | taking back a join nobody waits for is exact |
| `RoomManagers.Evicted` | src/actors/room_manager.rs:280-284 | after a disconnect the session is in no room and nobody else has moved |
| `RoomManagers.MatchIsExact` | src/actors/room_manager.rs:133-162 | a match takes its group from the global room alone to the global and one fresh room, and nobody else anywhere |
| `RoomManagers.EligibleGroup` | src/actors/room_manager.rs:126-132 | an eligible client cannot fail on the limit of rooms per session |
| `RoomManagers.RoomManager.Join` | src/actors/room_manager.rs:104-125 | the checks in their order; a failure changes nothing |
| `RoomManagers.RoomManager.RemoveRoom` | src/actors/room_manager.rs:190-206 | exactly the recorded members are told, those of the global room are closed as well, and the room is gone from both copies |
| `RoomManagers.RoomManager.Leave` | src/actors/room_manager.rs:207-222 | both copies lose the link, the last one out closes the room |
| `RoomManagers.RoomManager.Spawn` | src/actors/room_manager.rs:81-103 | a new empty record, or none if the factory panics |
| `RoomManagers.RoomManager.Create` | src/actors/room_manager.rs:163-189 | a fresh room with the whole group, or both copies as they were; the first exactly if the limits allow it, the factory works and everybody agrees |
| `RoomManagers.RoomManager.Fill` | src/actors/room_manager.rs:176-181 | the joins of a creation up to the first that fails |
| `RoomManagers.RoomManager.Eligible` | src/actors/room_manager.rs:126-132 | open, and in the global room and no other |
| `RoomManagers.RoomManager.Ineligible` | src/actors/room_manager.rs:137-141 | exactly those of the group that are not eligible |
| `RoomManagers.RoomManager.MatchCreate` | src/actors/room_manager.rs:133-162 | the match goes through exactly if all are eligible, the limits allow a room and it lets everybody in; otherwise nothing changes, and exactly those of the group are disqualified who are not eligible, or, after a failed creation, not eligible any more |
| `RoomManagers.RoomManager.OnCreate` | src/actors/room_manager.rs:261-264 | a creation goes through exactly under the conditions spelled out, with the next id; if its requester has gone both copies are as they were |
| `RoomManagers.RoomManager.OnJoin` | src/actors/room_manager.rs:265-274 | the result in full: the refusals in their order, then the room's own answer; a new join whose requester has gone is taken back, a repeated one leaves the old membership alone |
| `RoomManagers.RoomManager.OnLeave` | src/actors/room_manager.rs:275-279 | the global room cannot be left |
| `RoomManagers.RoomManager.OnDisconnect` | src/actors/room_manager.rs:280-284 | the session is in no record and no index entry afterwards, in whatever order its rooms are left |
| `RoomManagers.RoomManager.Reap` | src/actors/room_manager.rs:253-259 | a task's end removes its own room and no other |
| `Matchmakers.StepKeeps` | src/actors/matchmaker.rs:24-108 | at every await the index is the exact inverse of the queue, and the popped entries are the oldest, in order |
| `Matchmakers.NeverOvertaken` | src/actors/matchmaker.rs:66-108 | over every run, whoever still waits arrived after every member of every group that left for good |
| `Matchmakers.LossHasAReason` | src/actors/matchmaker.rs:57-98 | an entry goes only by leaving, by ineligibility, by disqualification, by closing or with its group |
| `Matchmakers.LoopDescends` | src/actors/matchmaker.rs:66-108 | each statement of the loop comes closer to its end, given answers that only disqualify members of the group; the manager's are such (`Matching.OutcomeIsFair`) |
| `Matching.OutcomeIsFair` | src/actors/room_manager.rs:133-162 | whatever the manager answers to a submitted group, it disqualifies only members of it |
| `Matching.LoopEnds` | src/actors/matchmaker.rs:66-108 | with the manager's own answers, and whatever it does for others meanwhile, the loop makes no more statements than a bound given by the entries in play |
| `Matching.LoopGoesOn` | src/actors/matchmaker.rs:66-108 | it never stops before it rests, and then less than a group is left |
| `Matching.MatchesAreExact` | src/actors/matchmaker.rs:84-107 | a match takes the `size` oldest out of the queue and from the global room to the global and one fresh room, and moves nobody else in either; a failure moves nobody, and of its group exactly those keep their entry and their key who are open and in the global room alone |
| `Matchmakers.FootprintGrows` | src/actors/matchmaker.rs:37-60 | only the join of an open client brings a session near the queue, and a leave takes it away |
| `Matchmakers.SubmittedGroupsFit` | src/actors/matchmaker.rs:84-86 | a submitted group is `size` different sessions, and a room for them breaks no limit |
| `Matchmakers.SubmittedAreVouchedFor` | src/actors/matchmaker.rs:67-86 | in every run each player of a submitted group was called eligible since it was popped |
| `Matchmakers.AnswerIsExact` | src/actors/matchmaker.rs:44-56 | whoever the matchmaker asks about is queued afterwards exactly if it was before or is eligible and there is room, and a new entry is the last |
| `Matchmakers.Matchmaker.Join` | src/actors/matchmaker.rs:37-56 | the result in full: the refusals in their order, or a new entry, which is the last one |
| `Matchmakers.Matchmaker.Leave` | src/actors/matchmaker.rs:57-60 | exactly the session's entry goes |
| `Matchmakers.Matchmaker.PopGroup` | src/actors/matchmaker.rs:67-75 | of the oldest entries, popped and asked about one after the other, exactly those called eligible are in the group, and exactly the others are dropped |
| `Matchmakers.Matchmaker.Restore` | src/actors/matchmaker.rs:77-80 | a short group goes back under its own keys |
| `Matchmakers.Matchmaker.Requeue` | src/actors/matchmaker.rs:89-97 | exactly those go back, under their own keys, who are neither disqualified nor closed when looked at |
| `Matchmakers.Matchmaker.Decide` | src/actors/matchmaker.rs:84-107 | a submitted group leaves with a notice exactly if nobody of it is disqualified; otherwise at least one is gone and exactly who is spared is back |
| `Matchmakers.Matchmaker.Round` | src/actors/matchmaker.rs:66-108 | a pass that goes on has made the queue smaller, the last one leaves less than a group; whoever is in a group was called eligible during it |
| `Matchmakers.Matchmaker.Match` | src/actors/matchmaker.rs:66-108 | the loop ends with less than a group, nobody renumbered, nobody overtaken, nobody lost without a reason, nobody matched without having been called eligible |
| `SessionManagers.OpKeeps` | src/actors/session_manager.rs:49-113 | every command keeps tokens and sessions of one domain, accounts the exact inverse of account sessions, the capacity, and suspended exactly those without a connection, under their generation |
| `SessionManagers.SessionRun` | src/actors/session_manager.rs:49-105 | after any run: expiry detaches exactly those whose connection is cancelled or abandoned, and removes exactly those without one for the grace period without a break and none it has just detached; resuming succeeds, with the next generation, exactly for the current token, in time, with the very principal that registered the session, none for a guest; registering succeeds exactly if there is room, the account is free and the client open |
| `SessionManagers.TokensStaySpent` | src/actors/session_manager.rs:71-86 | a token that has resumed its session is refused for ever after |
| `SessionManagers.OpReparks` | src/actors/session_manager.rs:66-96 | a deadline is set when a connection is lost and not moved while it stays lost |
| `SessionManagers.ResumeSpends` | src/actors/session_manager.rs:71-86 | a successful resume replaces the token it was made with |
| `SessionManagers.OneScanMore` | src/actors/session_manager.rs:90-95 | a pass over the sessions does not depend on their order |
| `SessionManagers.OneRemovalMore` | src/actors/session_manager.rs:97-103 | nor does removing the overdue ones |
| `SessionManagers.SessionManager.Register` | src/actors/session_manager.rs:49-65 | the refusals in their order; a registration nobody hears of leaves only a closed client |
| `SessionManagers.SessionManager.Suspend` | src/actors/session_manager.rs:66-70 | the reporting generation is parked until the grace period is over |
| `SessionManagers.SessionManager.Resume` | src/actors/session_manager.rs:71-86 | the checks in their order; a resumption nobody hears of is parked again under its new generation |
| `SessionManagers.SessionManager.Expire` | src/actors/session_manager.rs:87-105 | one pass computes the same state and the same two disjoint lists in any order |
| `SessionManagers.SessionManager.Remove` | src/actors/session_manager.rs:106-113 | the session is closed for good and forgotten by every map |
| `Connections.TableIsLastWord` | src/server.rs:237-249 | a room is in the table exactly if the last word about it was that it was joined, or nothing was said and it was there |
| `Connections.RestoredTable` | src/actors/client.rs:203-206 | the restored routes alone give the table of exactly those rooms |
| `Connections.Connection.Routing` | src/server.rs:237-249 | the table is the fold of all events read |
| `Connections.Connection.Drain` | src/server.rs:259-270 | the bounded drain loses nothing and keeps the order; unless the connection is cancelled meanwhile it reads everything that was queued when it began, whatever arrives |
| `Connections.RateIsBounded` | src/server.rs:311-314 | any consecutive nanoseconds let through at most one allowance, and one more for every second begun after the first of them |
| `Connections.RateBound` | src/server.rs:311-314 | so any half-open interval lets through at most one allowance for every second begun and one more |
| `Connections.BoundIsReached` | src/server.rs:311-314 | for every limit and every length some arrivals reach the first of these bounds |
| `Connections.RateLimiter.Input` | src/server.rs:311-314 | the fixed window, and the end of reading when it overflows |
| `Browsers.FreeIdExists` | client/index.mjs:162-164 | the search has an id to find exactly if fewer than all are taken |
| `Browsers.EachRequestEndsOnce` | client/index.mjs:134-149 | in every run each promise is settled once or has the one running timer that will settle it; without a socket all are settled |
| `Browsers.HangupSettlesAll` | client/index.mjs:134-149 | after a disconnect nothing is pending, no timer runs, and whatever was still owed has been rejected |
| `Browsers.GameClient.Connect` | client/index.mjs:103-112 | one connection attempt at a time, with its timer |
| `Browsers.GameClient.FreeId` | client/index.mjs:162-164 | the wrap-around search ends, with fewer than all ids pending, on the first unused id |
| `Browsers.GameClient.Request` | client/index.mjs:158-172 | a request is filed under the first unused id from `nextId` on, which moves past it, or leaves no trace, or is settled at once when it cannot be sent |
| `Browsers.GameClient.Fire` | client/index.mjs:167 | a timeout hits the very request it was armed for, never a later one with the same id |
| `Browsers.GameClient.Disconnect` | client/index.mjs:134-145 | everything pending is rejected, every timer cleared |
| `Browsers.GameClient.RejectRequests` | client/index.mjs:146-149 | all pending requests are rejected and their timers cleared |
| `Browsers.GameClient.Reply` | client/index.mjs:216-223 | a reply settles the request it names if the tag is the expected one, else nothing |
| `Browsers.GameClient.ErrorFrame` | client/index.mjs:192-198 | no request stays pending |
| `Browsers.GameClient.Welcome` | client/index.mjs:199-207 | a session begins only for a connection attempt that is waiting |
| `RoomCopies.StepKeepsCast` | src/actors/room_manager.rs:190-206 | rooms that run are recorded, recorded ones are not told to stop, ids are not reused, traces are truthful |
| `RoomCopies.StepKeepsJobOk` | src/actors/room_manager.rs:104-125 | whoever is on the way into a room has room to spare there, whoever is on the way out is recorded |
| `RoomCopies.StepKeepsCopies` | src/actors/room_manager.rs:117-124 | at every step a room knows the recorded members up to the one on its way; a dead one no fewer |
| `RoomCopies.StepKeepsLedger` | src/actors/room_manager.rs:163-222 | the manager's limits and numbering hold at every step, but for the room being filled |
| `RoomRoutes.StepKeepsTold` | src/actors/room.rs:175-188 | for every uncancelled connection and running room the last word delivered, or else the snapshot, tells whether the session is a member |
| `RoomRoutes.RemovalIsTold` | src/actors/room_manager.rs:190-206 | of a removed room each recorded member is told, in this order, that it has left and that the room is closed, or its connection is cancelled; nobody else is told |
| `RoomNotices.StepKeepsSpoken` | src/actors/room.rs:201-205 | messages reach a game in the order of their generations |
| `RoomNotices.StepPaces` | src/actors/room_manager.rs:296-302 | a notice of return has reached every room already visited, a notice of loss none still to be |
| `RoomNotices.StepKeepsAlternating` | src/actors/room.rs:194-200 | no game hears of a loss it already believes in |
| `RoomNotices.StepKeepsCalm` | src/actors/room.rs:165-205 | only a notice of loss makes a room believe in one |
| `RoomNotices.StepKeepsDoubt` | src/actors/room.rs:165-205 | of someone not connected, only a notice of return changes what a room believes |
| `RoomNotices.StepSpreads` | src/actors/room_manager.rs:296-302 | a notice of loss has reached every room already visited |
| `RoomRuns.StepKeepsSound` | src/actors/room_manager.rs:249-306 | every step, whatever is asked of the manager, keeps cast, places, copies, limits, routes and messages in order |
| `RoomRuns.HallRun` | src/actors/room_manager.rs:249-306 | so they hold in every run |
| `RoomRuns.TwoCopiesAgree` | src/actors/room_manager.rs:104-125 | in every run, at command boundaries, record and running room have the same members, and no record exceeds its room's capacity, dead rooms included |
| `RoomCommands.CommandsAreAtomic` | src/actors/room_manager.rs:249-306 | in every run, from taking a command to taking the next the record changes exactly as if nothing happened beside it: a join or creation counts if its requester hears of it and is undone if not, a leave, disconnect or reap has its whole effect |
| `RoomRuns.SnapshotFits` | src/actors/room_manager.rs:290-295 | a snapshot of routes is never larger than the drain allows for |
| `RoomRuns.RoutesConverge` | src/server.rs:237-249 | snapshot and events together give the membership among running rooms |
| `RoomRuns.EveryRunConverges` | src/actors/room_manager.rs:290-295 | they do after every run of the manager, its rooms and the clients |
| `RoomRuns.MessagesKeepOrder` | src/actors/room.rs:201-205 | in every run, of two messages of one player the later has no older generation, and none is ahead of the session |
| `RoomLosses.BetweenTwoLosses` | src/actors/room_manager.rs:296-302 | between two losses there is a return, or the player was taken out while its loss was believed in |
| `RoomLosses.ReturnsExactly` | src/actors/room.rs:185-200 | every two losses have a return between them if and only if whoever is taken out like that is reported back before the next loss |
| `RoomLosses.StepKeepsFaithful` | src/actors/room.rs:165-205 | every step keeps that rule but one by which a room takes out a player it believes lost and who is not closed for good |
| `RoomLosses.StepKeepsGentle` | src/actors/room_manager.rs:207-222 | while every request to leave is taken up in time, nobody believed lost is on the way out but by an eviction |
| `RoomRuns.ClosedStaysOut` | src/actors/room_manager.rs:105-107 | whoever is closed and in no room gets into none |
| `RoomRuns.EvictionIsOver` | src/actors/room_manager.rs:280-284 | a finished disconnect has taken the session out of every room |
| `EngineLocks.StepKeepsLocks` | src/engine.rs:240-241 | gates and the lifecycle lock are held by those who should hold them and by nobody else |
| `EngineLocks.LocksExclude` | src/actors/client.rs:67-69 | two operations never hold one gate, or the lifecycle lock, at once |
| `EngineLocks.StepGenerations` | src/engine.rs:252-275 | only resuming a session changes a generation, and only that session's |
| `EngineLocks.StepKeepsGates` | src/engine.rs:296-327 | a command being carried out keeps its session at its generation |
| `EngineRuns.GateHolds` | src/engine.rs:293-327 | in every run, a command being carried out is of its session's generation, even after its caller is gone, and nobody else has the gate; what the command then does is `EngineCommands.CommandsAreCarriedOut` |
| `EngineCommands.CommandsAreCarriedOut` | src/engine.rs:296-356 | in every run: if a transport command commits while its generation is current and is over without a refusal, a create or a join had the session out of the match queue and then had the manager take exactly that create or join, a leave had it take the leave of exactly that room, which the session was then out of, a queue request had the matchmaker take and decide its join, a cancellation had the session out of the queue, each once and nothing else; whatever happens no create or join comes before the queue is left, and a replaced generation's command does nothing |
| `EngineCommands.AllTaken` | src/engine.rs:296-356 | whatever interleaves, the managers take an operation's commands one after the other, in order, each once, and all of them if it is over without a refusal |
| `EngineCommands.LeaveEnds` | src/actors/room_manager.rs:207-222 | a leave that the manager has taken has its session out of the record and the running room before it is answered |
| `EngineLocks.StepKeepsServing` | src/engine.rs:165-178 | each manager is busy with the command of the operation that waits for it |
| `EngineCore.StepKeepsCore` | src/engine.rs:232-292 | the session manager's tables agree with the clients the rooms share, in every state |
| `EngineDuties.StepOwes` | src/engine.rs:168-177 | what a suspension, disconnection or expiry still has to send is for sessions without a connection or closed, and evictions follow leaving the queue |
| `EngineNotices.StepKeepsCalms` | src/engine.rs:246-248 | no room believes in the loss of a session whose connection has not been reported lost |
| `EngineNotices.AsksInOrder` | src/engine.rs:242-248 | so a loss is reported only where none is believed in |
| `EngineGhosts.StepPurges` | src/engine.rs:289-291 | every closed session is out of everything, or its eviction is still owed |
| `EngineRuns.DisconnectedForEver` | src/engine.rs:276-292 | no ghosts: once a disconnection is over its session is in no session map, queue entry, record or running room, then and in every continuation |
| `EngineRuns.ExpiredForEver` | src/engine.rs:165-178 | the same of every session that is closed when nothing is owed any more, as after an expiry pass |
| `EngineExpiry.ExpiryRemovesTheOverdue` | src/engine.rs:165-178 | whatever interleaves, when an expiry pass is over everybody overdue at its scan is closed and gone, then and ever after |
| `EngineExpiry.ExpirySparesTheOthers` | src/actors/session_manager.rs:97-103 | in every run a pass closes nobody whose time was not up when its scan was over |
| `EngineExpiry.ExpiryDetachesTheSevered` | src/actors/session_manager.rs:90-95 | in every run everybody whose connection had been cancelled or abandoned when a pass began is parked when its scan is over, whatever happens meanwhile |
| `EngineRuns.StepKeepsInv` | src/engine.rs:232-327 | every step of every operation, and everything beside them, keeps all of the engine's invariants |
| `EngineRuns.SuspendedIsNotQueued` | src/engine.rs:168-171 | a suspended session is not in the match queue nor on its way there once its suspension is past the matchmaker |
| `EngineRuns.CopiesAgree` | src/actors/room_manager.rs:104-125 | in every run of the engine record and running room agree, and messages reach games in the order of their generations |
| `EngineLosses.LossesAlternate` | src/engine.rs:246-248 | in every room's trace in every run two losses of one player have its return, or its being taken out while believed lost, between them; and always the return exactly if nobody is lost again after that without being reported back |
| `EngineLosses.ReturnsInEveryRun` | src/engine.rs:242-248 | in every run in which every request that a player leave a room is taken up while the room does not believe it lost, two losses always have the return between them |
| `EngineLosses.ConnectedLeaveInTime` | src/actors/room_manager.rs:207-222 | a request is in time if the session is connected and no notice of its return is still owed |
| `EngineWitnesses.LosesAgain` | src/engine.rs:252-275 | whatever the matchmaker and transport commands are at, a player taken out while believed lost can come back, join and be lost again, all at the same instant, and then the return is missing |
| `EngineWitnesses.LeaveDecides` | src/actors/room_manager.rs:207-222 | whenever nothing is owed, whatever the matchmaker and transport commands are at, a request to leave keeps the rule for ever, however the engine continues, if and only if the session is not a suspended member of a room where somebody else stays |
| `EngineScenario.LossesMayRepeat` | src/engine.rs:165-178 | a run from the start of the engine, with no leave but by command of the player itself, in which a return is missing |
| `EngineRoutes.StepKeepsSnapped` | src/engine.rs:270-271 | every connection has its snapshot restored, or a resumption still owes it |
| `EngineBeliefs.StepReturns` | src/engine.rs:270-273 | a notice of return is owed only for a session that is connected again |
| `EngineBeliefs.StepDoubts` | src/engine.rs:246-248 | every room of a session without a connection believes it lost, or is still to be told |
| `EngineRuns.RoomsKnowWhoIsLost` | src/engine.rs:232-275 | in every run, when nothing is owed, a running room believes a member's connection lost exactly if the session is suspended |
| `EngineRuns.ResumedTablesConverge` | src/engine.rs:252-275 | after a resumption the table read from snapshot and events is the membership among running rooms |
| `EngineMoves.DisconnectionCanRun` | src/engine.rs:276-292 | from every quiet state, whatever rooms the session is in, a disconnection can be carried through, and the session is gone |
| `EngineMoves.SuspensionCanRun` | src/engine.rs:232-249 | so can a suspension; what it leaves is stated in full |
| `EngineMoves.ResumptionCanRun` | src/engine.rs:252-275 | so can a resumption or takeover with the current token before the deadline: a new generation, its routes restored, every room told |
| `EngineMoves.ExpiryCanRun` | src/engine.rs:154-178 | so can an expiry pass, after which everybody overdue is gone |
| `EngineRuns.OpeningHolds` | src/engine.rs:105-184 | an engine that has just started satisfies all of it |

## Left out

- `SessionManagers.SessionManager.Expire`: keeps ids where the source keeps handles; the clients they stand for are in one shared store, so that this class does not show two handles of one client to be the same object (`Clients.ClientHandle` does).
- `Browsers.GameClient.FreeId`: requires fewer than 2^32 - 1 pending requests, because with all ids pending the source's search does not end.
- `Connections.RateLimiter.Input`: counts without the 32-bit limit of the counter, which a configured limit of 2^32 - 1 messages in a second would be needed to reach.
- `RoomRuns.RoutesConverge`: says nothing of rooms that have died; leaving one before it is reaped sends no event, so a table may still list it.
- `RoomManagers.RoomManager.Leave`: takes the link out of both copies after the room has answered, where the source takes it out of the record before; the manager is busy with this one command meanwhile and shows its maps to nobody.
- `EngineWitnesses.LeaveDecides`: says nothing of the moments at which the holder of the lifecycle lock has something left to do; it may be about to remove the session, or everybody else in the room, and then a late leave does no harm.
- Engine methods as objects: the lock-taking methods of src/engine.rs are sequences of steps of a transition system, not methods, because what is proved of them is how they interleave.
- Fairness: that an actor takes a waiting command at last, and that a lock is handed on, is not modelled; what is proved of termination is the matching loop's.
- Mailboxes: commands to one actor may be taken in any order, which includes the source's order of arrival; their bounds are not modelled.
- The answers between matchmaker and room manager: in the whole engine the matchmaker may be given any answer to its questions and any outcome for a group, which includes the manager's; `matching.dfy` has the manager's own answers.
- Engine calls dropped halfway: a suspend, resume, connect or disconnect call whose future is dropped before it is done is not modelled in the whole engine, since the connection loop and the expiry task never drop one; only the callers of transport commands give up. Lost replies are in the session manager.
- Inside one command of a room: a room handles a command as one step with its client as it then is; what may happen to the client between the room's check and its delivery is not interleaved there.
- Dropped `Queue` checks: the eligibility question before a session is sent to the matchmaker only reads and is left out of the whole engine.
- Shutdown, and the death of the global room: a run ends there.
- Worker events of applications other than system messages: a trusted worker could forge entries and exits.
- Fresh session ids and tokens are assumed; the sequence number of the match queue does not overflow.
- Encounters, statistics, counts, presence and resolution of sessions: they only read.
- WebSocket and HTTP handling, pings, JSON and GAME frames, origin checks, authentication and configuration files.
- Listeners and argument checks of the browser client.
