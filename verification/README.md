# Rooms and players of the realtime server, modelled and verified

The server keeps *rooms* and *players*. Every connection is served by a player task that logs in
over a global set of ids and then waits for three things at once: a client message, a room event, the
end of the connection. Every room is served by a room task that owns a bounded member table, handles
the events queued on its channel, tells the members, and deregisters itself from a global registry
when nobody is left. Ids of rooms are reused, so one room id names a sequence of *incarnations*, and a
task may still hold the channel of one that is gone. What a player task knows of its memberships, the
`joined` cache, lags behind: it changes only when the player's own join or leave comes back.

The project models this twice.

*Imperatively*, as classes whose methods change the same fields as the source does: `Channels`
(unbounded channels), `RoomEntity` (the member table and its sends), `RoomTask` (the registry, the
handlers and the event loop) and `PlayerTask` (the login set, the login loop, the handlers of client
messages and room events, the disconnect). Each method is proved against functions of the old state,
which live in `RoomCore`, `Logs` and `PlayerCore`.

*Concurrently*, as a transition system (`Protocol`) in which a step is what one task does between two
points where another can interfere: registering a room and sending it the join are two steps, so are a
lookup and the send or the cache update that follows it, each send of a broadcast, settling as empty,
deregistering and dropping the receiver, each leave of a disconnect and the unregistration after them.
`Valid(bearer, steps)` says that a sequence of steps is a run; the main results quantify over every
run. Both models are built from the same functions, and `Refinement` shows that steps taken without
interruption do what the methods promise.

Where to look:

- `Rooms`, `Streams`, `Membership`, `Cache`: the invariants. The central one is a fold (`Follow`): the
  events a session was ever sent by a room id, counting what is still on its way, folded, give exactly
  the session's standing in the registered incarnation, with the member table as a set of names.
- `Coherence`: the cache, the client's picture of a room, bracketing of own joins and leaves.
- `Projection`: what an incarnation sends a session as a pure function of the events it handled.
- `Ordering`, `Accounting`, `Replies`: order across incarnations; requests, answers, copies, authorship,
  capacity, crashes; which joins get a reply.
- `ClientLog`, `Requests`, `ClientHears`, `ClientTruth`: from what clients send to what rooms are sent,
  and from what happens to a session to what its client is told.
- `Login`, `EpochSafety`, `Disconnecting`, `Quiescence`: credentials, exclusivity of ids, leaves of
  earlier sessions, orphans, termination and the state at rest.
- `Scenarios`, `Examples`: stretches of runs possible in any state, and concrete runs for the guarantees
  that the server does not give.

Fields marked as history (logs, send counts, login stamps, tags on deliveries) record the past so that
properties can speak of it; no step depends on them.

## Behaviour that differs from what one might expect

- Refusing a duplicate login unregisters the id (src/actor/player.rs:113-122, 206), so the live session
  that owns it loses its registration. Exclusivity holds in a run exactly if this never hits a
  registered id (`Login.ExclusiveIffHarmless`); one refused login suffices to break it. An
  earlier session's leave can come to remove a later session's membership exactly if a refusal
  unregisters the id of a session that still serves a client
  (`EpochSafety.SparingIffNeverCanViolate`).
- A join refused because the room is full is not answered: it panics the player task
  (src/actor/player.rs:456-458). `protobuf/app.proto` and `entity::RoomError` have an error for it; the
  code never sends it, and the model follows the code.
- A disconnect does not look at events still waiting for the session, nor at its joins still queued
  in rooms (src/actor/player.rs:61-80), so it can leave a member behind for good. A room *forgets* the
  session at the disconnect if the room, left to handle what is queued, ends up with the session in
  it, and the session does not cache the room. `Disconnecting.NobodyLeftIffNoneForgotten`: no
  continuation of the run leaves the session behind if and only if no room forgets it;
  `Disconnecting.OrphanIffForgotten` says the same of each room of each run. Two runs show the two
  ways it happens: an own join not handled yet, and a join still queued.
- Events queued when a room stops are discarded unanswered (src/actor/room.rs:79-86), so not every join
  gets a reply. A join is lost exactly if, when it is sent, the room is on its way out or something
  queued will leave the room empty (`Replies.JoinRepliedIff`); a run shows one that is lost.
- `LeaveResponse` for the last member can reach the client before the room is deregistered, because the
  deregistration is a later step than the broadcast. `Accounting.RegisteredUntilDeregistered` says
  exactly how long a room is registered, and a run shows a client told of its leave before.

## Model

| member | source | states |
|---|---|---|
| Channels.Channel.Send | src/entity/player.rs:7-24 | a send fails exactly when the receiver is gone, and appends otherwise |
| RoomEntity.Room.constructor | src/entity/room.rs:43-49 | a new room has its id, its configuration and no members |
| RoomEntity.Room.AddPlayer | src/entity/room.rs:51-75 | the new table is the pure admission of the old one; each refusal, in the order of the checks, leaves everything as it was |
| RoomEntity.Room.RemovePlayer | src/entity/room.rs:77-79 | removes that entry only and says whether there was one |
| RoomEntity.Room.Broadcast | src/entity/room.rs:85-100 | every member's channel gets exactly what the pure broadcast in iteration order sends to it; closed channels get nothing |
| RoomEntity.Room.Send | src/entity/room.rs:102-114 | one event on the named member's channel, no channel touched for anyone else |
| RoomEntity.ToAppend | src/entity/room.rs:85-100 | one more name in a list of receivers adds one event on that member's channel and on no other |
| RoomCore.BroadcastTo | src/entity/room.rs:85-114 | for any list of names, with repetitions and strangers, a channel gets one copy per mention of its member and nothing otherwise |
| RoomCore.HandleTo | src/actor/room.rs:90-150 | what handling any event puts on any channel is the account `Owed` of who hears what, the same for every iteration order apart from the order of the player list that a successful join carries |
| RoomTask.Registry.GetOrCreate | src/actor/room.rs:18-41 | the registered channel unchanged, or that of a fresh empty room with the given configuration registered at once |
| RoomTask.Registry.Remove | src/actor/room.rs:43-46 | removes the id only |
| RoomTask.Task.HandleJoin | src/actor/room.rs:90-112 | table and every channel end up as the pure handling of the join says: a broadcast to all including the joiner, or one refusal to the joiner |
| RoomTask.Task.HandleLeave | src/actor/room.rs:114-128 | as the pure handling of the leave says: everyone including the leaver hears, then the entry is gone; strangers change nothing |
| RoomTask.Task.HandleMessage | src/actor/room.rs:130-150 | as the pure handling of the message says, on every channel |
| RoomTask.Task.SendToTargets | src/actor/room.rs:139-149 | the loop over targets equals the pure broadcast over the list of names |
| RoomTask.Task.HandleEvent | src/actor/room.rs:64-77 | whatever the event, table and channels are those of the pure handling in some iteration order of the table |
| RoomTask.Task.Round | src/actor/room.rs:63-87 | takes the oldest event, handles it, and stops exactly if that leaves no member |
| RoomTask.Task.Stop | src/actor/room.rs:79-88 | the id is deregistered and the receiver dropped |
| RoomTask.Task.HandleAll | src/actor/room.rs:61-88 | the loop handles a prefix of the queue in order, the table is the fold of that prefix, and each channel got the projection of the prefix to it; it ends early only when the room is empty |
| RoomTask.Task.Run | src/actor/room.rs:61-88 | the same for the whole task: queue = handled then discarded, members after every event but the last, stopped exactly if no member is left, and then deregistered with the receiver dropped |
| RoomTask.LogsCompose | src/actor/room.rs:61-88 | going on from where the loop waited, when more has been queued, comes to the same table and the same events on every channel as handling all of it in one go |
| RoomTask.OnlyMembersHear | src/actor/room.rs:90-150 | a broadcast, over whatever names, reaches no channel but members' |
| PlayerTask.PlayerSet.Register | src/actor/player.rs:17-20 | adds the id and says whether it was unused |
| PlayerTask.PlayerSet.Unregister | src/actor/player.rs:22-25 | removes the id only |
| PlayerTask.Session.WaitLogin | src/actor/player.rs:103-162 | the first queued message with data decides, those before it are skipped and those after it left queued: logged in iff it is a login request for an unused id with the expected token; told success iff so, already-logged-in iff the id was in use, unauthorized iff it was unused and the token missing or different, nothing if the payload is no login request; a denied attempt leaves no trace in the set and a duplicate removes the id |
| PlayerTask.Session.TryLogin | src/actor/player.rs:111-154 | logged in iff the id was unused and the token is the expected one; each of the three outcomes with its answer and with what becomes of the set |
| PlayerTask.Session.RejectLogin | src/actor/player.rs:183-207 | every refusal is told to the client and unregisters the id |
| PlayerTask.Session.OnClientMessage | src/actor/player.rs:209-334 | at most one channel gets one event, the channel registered for the room addressed or that of the room just created; the event has the session's id and the configuration, or the targets and the body, that the message names; a created room has the configuration named, or two places; the reply depends only on whether there was a channel and whether it was open |
| PlayerTask.Session.RequestJoin | src/actor/player.rs:234-271 | the join is queued in the registered or a new room, with the configuration named or two places, or refused as room-not-found if the receiver is gone |
| PlayerTask.Session.RequestLeave | src/actor/player.rs:272-306 | the leave is queued in the registered room, member or not; without one the client is told of a failed precondition |
| PlayerTask.Session.RequestMessage | src/actor/player.rs:307-330 | the message is queued in the registered room, member or not; the client hears nothing |
| PlayerTask.Session.OnOutputEvent | src/actor/player.rs:336-516 | the cache gains the looked-up channel on an own join and loses it on an own leave, and changes on nothing else; what the client hears; which events panic |
| PlayerTask.Session.Disconnect | src/actor/player.rs:61-80 | every cached room gets exactly one leave, then the id is unregistered |
| Refinement.SendsAgree | src/actor/room.rs:61-150 | what an incarnation posts to a session over its life is what the imperative event loop sends for the same events |
| Refinement.RoundAtOnce | src/actor/room.rs:61-88 | taking an event, delivering its sends one by one and settling amount to one call of the event handler |
| Refinement.RequestAtOnce | src/actor/player.rs:209-334 | lookup and send without interruption amount to the method: one event for the addressee and the same reply |
| Refinement.DisconnectAtOnce | src/actor/player.rs:61-80 | the steps of a disconnect, in whatever order the cached rooms are visited, amount to the method: one leave for each cached room that is still there, nothing for any other, then the unregistration |
| Rooms.InvHolds | src/actor/room.rs:10-46 | in every reachable state registry, tables, queues, outboxes, logs and sessions fit together |
| Rooms.HandleKeepsCapacity | src/entity/room.rs:51-83 | no event takes a room over its limit, although the check uses the truncated count |
| Rooms.FirstEventDueStep | src/actor/player.rs:242-250 | an empty room waiting for its first event keeps having it queued or about to be sent by its creator, whatever step is taken |
| Streams.OriginHolds | src/actor/room.rs:90-150 | every event on its way to a session, or received, is one of the sends of one handled event of one incarnation |
| Membership.HandleAdvances | src/actor/room.rs:90-128 | what a session receives from one handled event takes its standing before that event to its standing after it |
| Membership.ViewHolds | src/actor/room.rs:90-128 | in every reachable state each live session's events under a room id fold to its standing in the registered incarnation, across deregistration and recreation |
| Cache.CacheHolds | src/actor/player.rs:345-398 | in every reachable state the cache of each live session, disconnecting ones included, and the client's picture lag behind the truth by exactly the events not yet handled |
| Coherence.CacheCoherence | src/actor/player.rs:345-465 | for every live session: with no own event pending it caches, or has looked up and is about to cache, a room id iff it is in the running incarnation, with that incarnation's channel; otherwise the last pending own event says whether it is in |
| Coherence.RoomNotFoundMeansLeft | src/actor/player.rs:375-397 | when the lookup after an own join fails, the session's own leave is queued behind that join and the membership is already gone |
| Coherence.ReplicatedView | src/entity/room.rs:85-100 | a live member that folds its events from its own join knows exactly the member table |
| Coherence.ClientSeesTruth | src/actor/player.rs:345-495 | end to end: the player list a connected client builds from the messages it was sent, counting a join answer about to be given, is the member table once nothing about the room is on its way |
| Coherence.WellBracketed | src/actor/player.rs:345-465 | own joins and own leaves of a room id strictly alternate, starting with a join, across all incarnations |
| Projection.StreamIsProjection | src/actor/room.rs:61-150 | what an incarnation put on a live session's channel is a pure projection of its log, in every interleaving, and its table the fold of the same log |
| Projection.ProjectFollows | src/actor/room.rs:90-128 | folding the projection of any prefix of a log gives the player's standing after that prefix |
| Projection.IncarnationStanding | src/actor/room.rs:90-128 | what one incarnation told a session, folded, is the session's standing in that very incarnation, even after it was replaced |
| Projection.FarewellsSent | src/actor/room.rs:79-128 | an incarnation that stopped has sent an own leave to every live session it ever admitted, after the join |
| ClientLog.InputIsFifo | src/actor/player.rs:34-97 | in every run, what a client sent is what its session has taken, in the same order, followed by what waits in its input |
| ClientLog.TraceHolds | src/actor/player.rs:51-83 | in every run a session's requests are numbered in the order in which it took the messages they are about, one message for each, and a request in progress is about the message taken last |
| ClientLog.CarriesHolds | src/actor/player.rs:209-334 | everything ever sent to a room carries what one message of the sender's client asks of that very room; only the farewells of a departing session are not asked for |
| Requests.RequestIsSentAsAsked | src/actor/player.rs:234-317 | a request puts on the queue of the room its client named an event with the session's id and exactly the targets and body, or the configuration, of that client message, two places if none was named |
| Requests.TakingOpensRequest | src/actor/player.rs:234-317 | taking a message leads to a send iff it asks to join, or to leave or message a registered room; it goes to the registered room or to the one just made |
| Requests.HeardInClientOrder | src/actor/player.rs:34-97 | if a client sends one message before another to the same room id, every receiver of both hears the earlier one first, even when the room was recreated in between |
| Requests.MessageStemsFromClient | src/actor/player.rs:307-317 | every message heard was sent by a client in these words to this room, under the id of its session, and its hearer was a member and among the client's targets, if it gave any |
| Requests.MessageHeardAsAsked | src/actor/room.rs:130-150 | a handled message is heard by each live member once if its client named no targets, otherwise once per mention in the client's own list, by nobody else, with the client's body |
| Requests.RoomMadeAsRequested | src/actor/player.rs:235-243 | every room was made for a client's join request for a room id not registered, with the configuration it named, or for two players if it named none |
| Requests.JoinAnsweredAsRequested | src/actor/room.rs:90-112 | a handled join is answered with a mismatch iff its client asked for another number of places than the room's maker, as joined already iff for the same and its id is in, for lack of space iff as many members are in as the maker asked for, two if it named no number, and else with success |
| ClientHears.ToldAsOccasioned | src/actor/player.rs:103-516 | in every run the messages told to a client are, one by one and in order, those that what happened to its session calls for: login outcomes, refused requests and handled events, each with its own code and fields |
| ClientHears.EveryEventTold | src/actor/player.rs:336-516 | every event a session handles is told to its client exactly once and in order, but for a join it is still answering and the event it crashed on |
| ClientHears.ToldAllMessagesAndRefusals | src/actor/player.rs:415-513 | a connected client has been told of exactly the messages and the join refusals its session handled, in order, each message with its room, sender and body, each refusal with its room and reason |
| ClientTruth.NotificationIsTrue | src/actor/player.rs:500-513 | a notification told to a client shows the id of a session whose client sent this body to this room, to all or to a list with the hearer in it |
| ClientTruth.RefusalIsTrue | src/actor/player.rs:415-455 | a client told that it has joined already had its id in the room and had asked for as many places as the room's maker; one told of a mismatch had asked for another number |
| ClientTruth.GrantIsTrue | src/actor/player.rs:352-374 | a client told that it has joined is told the room's configuration and exactly its members after that join, each once |
| ClientTruth.LoginEndsAsAsked | src/actor/player.rs:103-162 | in every run the first client message with data decides the login: logged in iff it asks for an unused id with the token, and the first thing told is success iff so, already-logged-in iff the id was registered, unauthorized iff it was unused and the token missing or wrong; nothing is told if it asks for anything else |
| Ordering.MessagesInSendingOrder | src/actor/player.rs:307-330 | two messages of one session to one room id reach any receiver in sending order, even when the room was recreated in between |
| Ordering.ReceiversAgree | src/actor/room.rs:130-150 | any two receivers see any two events of a room id in the same order, across incarnations |
| Ordering.SortedHolds | src/actor/room.rs:61-88 | every stream shows the events of a room id by incarnation and then by position in its log |
| Ordering.SendOrderHolds | src/actor/player.rs:234-330 | within a queue a session's sends are in the order it made them, and so they are across incarnations, joins, leave requests and messages alike; the only exception are the farewells of a disconnect, which go to cached channels |
| Ordering.RequestsInSendingOrder | src/actor/player.rs:234-330 | what any receiver hears of one session's requests to one room id is in the order of the requests, even when the room was recreated in between |
| Ordering.DeliveriesAreCaused | src/actor/room.rs:130-150 | every event received answers one event that was sent to the room, a message event a message |
| Accounting.RequestsConserved | src/actor/room.rs:61-88 | what was sent to a room is handled, queued or discarded with a dropped receiver, exactly one of these, the handled ones being a prefix in sending order |
| Accounting.AnsweredAsOwed | src/actor/room.rs:61-150 | every handled event is answered to every live session exactly as owed, nothing lost or repeated |
| Accounting.RequestsAnswered | src/actor/room.rs:90-128 | a handled join is answered to its sender, alive or not, by exactly one event: mismatch iff the configurations differ, already-joined iff they agree and the id is in, full iff they agree, the id is not in and there are exactly max_players members, success otherwise; a member's leave by exactly one own leave; a live sender's channel has got just that, or is about to |
| Replies.JoinRepliedIff | src/actor/player.rs:242-269 | a join about to be sent is refused at once as room-not-found if the receiver is gone; otherwise, in every later state in which the room has nothing queued, its live sender has one reply if at the send the room was not on its way out and nothing queued would leave it empty, and none if not |
| Replies.JoinRepliedIffWillHandle | src/actor/room.rs:61-88 | the same judged at any time after the send: one reply iff the join was handled, or the room goes on and nothing queued ahead of the join leaves it empty |
| Replies.FateOfSend | src/actor/room.rs:61-88 | whether a room will handle an event is settled once it is queued: no later step of any run changes it |
| Accounting.DroppedIsFinal | src/actor/room.rs:79-88 | an incarnation whose receiver is gone never changes again |
| Accounting.RegisteredUntilDeregistered | src/actor/room.rs:43-46 | in every run a room is the registered one of its id until its task's deregistration and not after |
| Accounting.MessageCopies | src/actor/room.rs:130-150 | one copy for each live member without targets, one per mention with targets, none for non-members |
| Accounting.CapacityKept | src/entity/room.rs:51-83 | at most max_players members, hence an exact 32-bit count; keys are the players' ids and no two entries share a channel |
| Accounting.ConfigFixed | src/entity/room.rs:35-49 | id and configuration of a room never change after its creation |
| Accounting.NoLeakedRoom | src/actor/room.rs:18-88 | a registered room without members has an event or its creator's join coming, or is in a handler or stopping; a room waiting past its first event is non-empty, and that event was a join of its configuration with room for a player |
| Accounting.RegistryUnique | src/actor/room.rs:18-46 | at most one registered incarnation per id, every entry naming one of its id, the entry of each registered incarnation's id naming that incarnation |
| Accounting.CrashMeansRoomIsFull | src/actor/player.rs:415-498 | a session has crashed iff it handled a refusal for lack of space, which a room at full capacity with the requested configuration gave to its own join; leave errors never occur |
| Accounting.RefusalAtCapacity | src/entity/room.rs:67-69 | a refusal for lack of space was given by a room with exactly max_players members to a newcomer |
| Accounting.MessagesAreGenuine | src/actor/player.rs:307-317 | a message notice shows the id and the body of the session that sent it, to that room id, and reaches only players who were members when it was handled and were targeted, if anyone was |
| Login.LoginsPresentToken | src/actor/player.rs:103-162 | in every run, whoever is or was logged in under an id was admitted at a step where the id was unused and the token was presented |
| Login.NoPhantomHolds | src/actor/player.rs:17-25 | in every run each registered id has a login being refused, a live session or a crashed session behind it |
| Login.ExclusiveIffHarmless | src/actor/player.rs:103-207 | a run keeps every owner registered and every id owned once iff no refused duplicate unregisters a registered id |
| Login.HarmlessIsSparing | src/actor/player.rs:183-207 | a run without harm to registered ids spares every session that serves a client |
| Login.EpochHolds | src/actor/player.rs:61-80 | in runs whose refusals unregister no id of a session that serves a client, the sends made under one id are queued in every room in the order of the logins |
| Login.LeavesSpareLaterSessions | src/actor/room.rs:114-121 | in such runs a leave that removes another session's membership comes from a later login and hits a session that serves no client any more (a finished one, if crashed sessions are spared too), never a later one |
| EpochSafety.CanViolateIffHarmed | src/actor/player.rs:183-207 | as long as a run has spared those who serve, a step makes it possible for an earlier session's leave to remove a later session's membership iff it refuses a login and thereby unregisters the id of a serving session |
| EpochSafety.SparingIffNeverCanViolate | src/actor/player.rs:183-207 | a run spares those who serve iff none of its prefixes can be continued, without further refusals, to such a removal |
| EpochSafety.UnregisteredCanViolate | src/actor/player.rs:61-80 | from any state in which a serving session's id is not registered, the server can be driven to such a removal |
| Disconnecting.NobodyLeftIffNoneForgotten | src/actor/player.rs:61-80 | however a run goes on after a disconnect, no room that has handled all it was sent holds the finished session, iff at the disconnect every room that would keep it after what is queued is cached |
| Disconnecting.LeftBehindIffForgotten | src/actor/player.rs:61-80 | along every run after a disconnect, that a room will keep the session with no leave of its own to come is settled at the disconnect; only another session's leave for the id undoes it, and nothing brings it about |
| Disconnecting.OrphanIffForgotten | src/actor/player.rs:61-80 | in every run, once the session has finished and the room's queue is empty, the session is a member iff the room forgot it at the disconnect, unless another session sent a leave for its id |
| Disconnecting.NoOrphan | src/actor/player.rs:61-80 | a room that does not forget the session and still holds it keeps running and has its leave queued or due; once the queue is drained the session is gone |
| Disconnecting.Settles | src/actor/player.rs:61-80 | from any point of a departure the session can finish and the room work off its queue without any other session taking part |
| Disconnecting.StaysWhen | src/actor/room.rs:61-128 | a room does not keep a session whose leave is queued behind its last join; with no join queued it keeps it iff it is in and no leave for it is queued |
| Disconnecting.CoveredIsNotForgotten | src/actor/player.rs:61-80 | a room that has the session, or a join of it queued, does not forget it if the session caches the room or has its leave queued behind the last join |
| Disconnecting.NoJoinPendingIsNotForgotten | src/actor/player.rs:61-80 | a session with no join queued in a room or on its way back is forgotten nowhere |
| Disconnecting.LeavesReachAllRooms | src/actor/player.rs:61-80 | a disconnecting session caches every room it is in at that moment iff each room id whose last pending own event is a join is already cached with the registered channel |
| Disconnecting.OrphanStays | src/actor/room.rs:114-128 | in every run, a finished session that is in a room with no leave for it queued remains there, and the room remains, until another session of the same id sends a leave |
| Quiescence.InternalProgress | src/actor/player.rs:51-83 | every step of the server itself decreases a lexicographic measure |
| Quiescence.InternalRunsEnd | src/actor/player.rs:51-83 | without new input no run goes on forever, however the tasks are scheduled |
| Quiescence.ComesToRest | src/actor/player.rs:51-83 | every reachable state leads by the server's own steps to one at rest |
| Quiescence.TruthAtRest | src/actor/player.rs:345-465 | at rest a surviving session caches exactly the rooms it is in, and its client's player lists are the member tables |
| Quiescence.RoomsAtRest | src/actor/room.rs:61-88 | at rest every room is gone or waiting with members and an empty queue, and no task is half-way through anything |
| Examples.OneRejectionBreaksExclusion | src/actor/player.rs:113-122 | a run with one refused login after which a live session is unregistered |
| Examples.EarlierLeaveHitsLaterSession | src/actor/player.rs:183-207 | a run after such a refusal in which an earlier session's leave removes a later, live session's membership |
| Examples.UnhandledJoinLeavesOrphan | src/actor/player.rs:61-80 | a run in which a disconnect leaves a member behind with no leave queued |
| Examples.QueuedJoinLeavesOrphan | src/actor/player.rs:61-80 | a run in which the disconnecting session is in no room and has no event coming, and a continuation that leaves it in the room its queued join was sent to |
| Examples.LeaveToldBeforeDeregistration | src/actor/room.rs:79-86 | a run in which the last member is told of its leave while the empty room is still registered |
| Examples.QueuedJoinIsNeverAnswered | src/actor/room.rs:79-86 | a run in which a live session's join is lost with the room that it was queued in |
| Examples.FullRoomCrashesSession | src/actor/player.rs:456-458 | a run in which one join request crashes its session, whose id stays registered |

## Left out

- Sockets, TLS, gRPC, WebSocket, signals, the command line and the configuration file: a client message arrives, the client disconnects, and there is one expected token.
- Protobuf encoding: requests and responses are datatypes; unknown oneof cases and error texts are not modelled.
- The runtime: lock sections are atomic, channels are unbounded and first-in-first-out with sends that fail only once the receiver is dropped, and the select is a free choice. Fairness is not modelled.
- Steps that change nothing, such as a select woken by a closed input channel, are not steps.
- Taking a message from a channel that only its task reads is one step with the lookup or registration that follows it.
- Logging, cloning and process shutdown.
- Threads of the imperative model: its methods describe one task without interference; interference is the subject of the concurrent model.
- PlayerTask.Session.WaitLogin: reads the messages already queued; waiting for more of them is the subject of the concurrent model.
- RoomTask.Task.Run: reads the events already queued, and returns where the task would wait for more; calls compose (`RoomTask.LogsCompose`).
- RoomTask.Task.HandleAll: the same.
