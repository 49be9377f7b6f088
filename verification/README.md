# Spectrum 2 core: a verified model

Spectrum 2 is an XMPP gateway. One server spreads its users over a pool of backend
processes, one per legacy network connection or shared by several users, and talks to each
of them over a length-framed socket. This project models the parts where a mistake loses
users, messages or stored data:

- **The backend pool** (`PoolModel`, `PoolLinks`, `PoolHistory`, `PoolEvolution`,
  `PoolTheorems`, `PoolEffects`, `PoolEvents`, `PoolQueue`, `PoolServer`, `LogSlots`,
  `UserManager`). Every handler of the server that
  touches the pool is a function on snapshots and, in `PoolServer`, a method on the objects
  themselves that is proved equal to it. `PoolLinks` is the invariant in its in-progress
  form: while a session ends, the users of the dying backend are orphaned one by one and
  each may be created anew in the middle of the loop. `PoolEffects` and `PoolEvents` say what
  each handler does in the tests and fields of the source, apart from the functions that
  compute it. `PoolTheorems` and `PoolQueue` state what holds over whole runs.
- **The sockets** (`Streams`, `Framing`, `WebSocket`). Readers that put messages together
  from arbitrary chunks, at both ends, and the WebSocket frames.
- **The roster** (`RosterModel`, `RosterTheorems`, `RosterEffects`, `RosterManager`,
  `RosterMerge`). The
  subscription machine, the write-back queue and the tables, with the fate of every Buddy
  object; and the one-pass load of settings against the nested loops.
- **The thread pool** (`ThreadPoolModel`, `ThreadPool`) and the **presence store**
  (`PresenceOracle`).
- **Strings** (`Base64`, `StorageBackend`, `Trimming`, `MediaSplit`). Passwords, group
  lists, and messages that show images.

Where the source updates objects in place there is a class whose methods are proved against
a specification function, and the properties are lemmas about that function and runs of it.

What the environment decides is a parameter: clock ticks, pids of spawned processes, the
parsing of wrapper messages, the image expression, lower-casing, the ids of new database
rows, `atoi`, and what a thread's `finalize()` hands in.

Findings that the lemmas state exactly:

- The ping timer removes every backend it reaches before that backend's first PONG, because
  it has no users yet (`NewcomersRemoved`), and pings it once more because -1 is non-zero;
  comments at both places say it is left alone. After a check exactly the backends that had
  answered and had users stay (`PingTimeoutKeeps`).
- A backend that is both silent and empty is put on the removal list twice (`RemovedOnce`),
  and a run reaches such a state (`SilentAndEmpty`).
- Both ends stop reading at a frame of a type they do not have and leave later ones buffered
  until the next read (`ServerStallsIff`, `PluginStallsIff`, `ServerBacklog`,
  `PluginBacklog`); three types that the server can send are not in the plugin's switch
  (`UnknownToTheOtherEnd`).
- An empty WebSocket frame in the long form is misread (`LongFormReadIff`), and frames over
  65535 bytes are written wrongly (`WrittenFrameIff`).
- A password whose last byte the key wraps to NUL is stored incompletely
  (`PasswordSurvivesIff`); groups with a newline or an empty last group are changed
  (`GroupsSurviveIff`).
- One setting without its buddy keeps later buddies from their settings in the one-pass
  load, and a setting of an unknown type that was read ahead is attached (`MergeAgreesOnIff`).
- A stored buddy whose name makes no valid JID stays in the tables for ever (`LoadGoodIff`).

`dafny verify dfyconfig.toml` checks everything.

## Model

| member | source | states |
|---|---|---|
| `PoolTheorems.OnePlacePerUser` | libtransport/NetworkPluginServer.cpp:1343-1405 | In every state reachable from start-up: every client's list has no repetition and is within users_per_backend, a long-running backend never accepts users by itself, a listed user's data is that backend, it has its handlers connected exactly once, it is in no other list and not in the queue; the queue has no repetition and a waiting user has no handlers connected |
| `PoolTheorems.PongBeforeUsers` | libtransport/NetworkPluginServer.cpp:405-433 | Over every run each assignment of a user to a backend comes after that backend's PONG, and a client with users has had one |
| `PoolTheorems.OneUserPerBackendLifetime` | libtransport/NetworkPluginServer.cpp:1564-1571 | With users_per_backend 1 and idle_reconnect_time 0, no run assigns two users to one backend |
| `PoolTheorems.AssignmentsSpan` | libtransport/NetworkPluginServer.cpp:2126-2139 | k assignments after one at time t end no earlier than t + k * login_delay, over every run with a clock that does not go back |
| `PoolTheorems.ClosedBackendsDrain` | libtransport/NetworkPluginServer.cpp:1321-1405 | Once a backend is closed (not long-running and not accepting, or dying after its first PONG or second PING) it stays so and its users are a subset of what they were, across every later event |
| `PoolTheorems.NewcomersIdle` | libtransport/NetworkPluginServer.cpp:405-433 | In every state reachable from start-up a client still waiting for its first PONG is set to die and has no users |
| `PoolTheorems.NewcomersRemoved` | libtransport/NetworkPluginServer.cpp:1277-1312 | In every reachable state the ping check names such a client for removal, having sent it another PING: the -1 that is meant to make the first check ignore it does not |
| `PoolTheorems.PingTimeoutKeeps` | libtransport/NetworkPluginServer.cpp:1277-1316 | After a ping check and its removals the clients left are exactly those that had answered and had users, over every run, when none is named twice |
| `PoolTheorems.RemovalsLeave` | libtransport/NetworkPluginServer.cpp:1314-1316 | The removals take exactly the listed clients out, although users are moved on to others of the list meanwhile |
| `PoolTheorems.PongRevivesIff` | libtransport/NetworkPluginServer.cpp:862-878 | A PONG makes a dying backend usable if and only if pongReceived is still -1 |
| `PoolTheorems.EarlyPingStrands` | libtransport/NetworkPluginServer.cpp:1277-1316 | A client that the ping check reaches before its first PONG never gets a user in any continuation |
| `PoolTheorems.QueueServedInOrder` | libtransport/NetworkPluginServer.cpp:839-860 | connectWaitingUsers assigns exactly the first k users of the queue in order and stops only when the queue is empty, nobody is free or the login has to be postponed |
| `PoolTheorems.OneLoginPerReadyEvent` | libtransport/User.cpp:395-400 | In every sound state a user that becomes ready is logged in exactly once when listed, on its own backend, and not when waiting; one that was ready, or connected and joins no room, fires nothing |
| `PoolTheorems.LogIdsFromStart` | libtransport/NetworkPluginServer.cpp:2163-2178 | Over every run running backends have distinct log ids and the slot table never exceeds the most processes alive at once (pids non-zero and not in use when spawned) |
| `PoolTheorems.LogIdsDistinctAndFew` | libtransport/NetworkPluginServer.cpp:2072-2078 | The same from any state with distinct slots |
| `PoolTheorems.RemovedOnce` | libtransport/NetworkPluginServer.cpp:1277-1312 | pingTimeout names each backend to remove once if and only if no client is both silent and without users; such a client is named twice |
| `PoolTheorems.SilentAndEmpty` | libtransport/NetworkPluginServer.cpp:1292-1311 | A silent client without users, named twice, does come about: a run from start-up reaches one when its only user leaves between a ping check and the answer |
| `PoolTheorems.RemovalListMembers` | libtransport/NetworkPluginServer.cpp:1279-1312 | A backend is to be removed exactly when it is a client that is silent or without users |
| `PoolTheorems.ServedTrace` | libtransport/NetworkPluginServer.cpp:844-858 | After a successful check, serving the head adds one assignment to the very backend the check found, and one LOGIN exactly when the user is ready |
| `PoolTheorems.RunKeeps` | libtransport/NetworkPluginServer.cpp:400-467 | Every run keeps the links between users and backends and the history of PONGs, times and assignments |
| `PoolEffects.GrantFinds` | libtransport/NetworkPluginServer.cpp:2123-2154 | getFreeClient finds the first client that is not dying, takes users as asked, has room and is of the kind asked for; none exactly when the login comes too early or no client is such |
| `PoolEffects.GrantChanges` | libtransport/NetworkPluginServer.cpp:2126-2154 | It turns acceptUsers off exactly when it fills a backend, is no mere check and old ones are not reused; stamps the login time exactly when the login is due and it is no mere check; and leaves all else but the desk |
| `PoolEffects.GrantSpawns` | libtransport/NetworkPluginServer.cpp:2156-2182 | A process is started exactly when none is found, the login is due and none is starting: of the kind asked for, its pid in the first free slot; in every other case the starting flag, the kind and the pids stay |
| `PoolEffects.TookSlotLive` | libtransport/NetworkPluginServer.cpp:2163-2178 | With it one more process is alive |
| `PoolEffects.CreatedMeans` | libtransport/NetworkPluginServer.cpp:1381-1405 | A new user goes to the end of the first fitting client's list, with its data and one handler set and one assignment noted, when there is one and the login is due; otherwise to the end of the queue, all lists unchanged |
| `PoolEffects.DestroyedMeans` | libtransport/NetworkPluginServer.cpp:1537-1572 | A destroyed user leaves the queue and its handlers go; with a backend, one LOGOUT is sent and it leaves the list there; a list left empty sets the backend to die with users_per_backend 1; nothing else changes |
| `PoolEffects.DisconnectedMeans` | libtransport/User.cpp:414-454 | A user stays managed exactly when it ignores disconnects, or the error is one of the network and reconnects is below the limit or there is none; an ignored disconnect changes nothing, a retried one counts one more and creates the user anew, any other removes it; other users are not touched |
| `PoolEffects.StaysIff` | libtransport/User.cpp:414-454 | In any state whatever, who stays managed after a disconnect, and with how many attempts counted, is decided by those tests alone |
| `PoolEffects.RetriedPlaces` | libtransport/User.cpp:420-431 | A retried user ends in exactly one client's list, a LOGIN there being the last thing sent, or last in the queue and in no list, also in the middle of a session's end |
| `PoolEffects.OrphanAllMeans` | libtransport/NetworkPluginServer.cpp:447-451 | The loop over a lost backend's users treats each of them so, whatever the others do, and leaves users not on its list as they are |
| `PoolEffects.SessionFinishedMeans` | libtransport/NetworkPluginServer.cpp:435-467 | A finished session keeps, of its users, exactly those that ignore disconnects or may try again; those that try again are queued or on another client with one more attempt counted; every other user is unchanged, and the client is gone |
| `PoolEvents.ServeFirstMeans` | libtransport/NetworkPluginServer.cpp:844-858 | The head of the queue goes to the first fitting client's list, and one LOGIN follows exactly when it is ready |
| `PoolEvents.MoveMeans` | libtransport/NetworkPluginServer.cpp:1343-1379 | A move leaves users without a backend or on a long-running one alone; another goes from its list to the end of the first long-running client's with room, with one LOGIN and its next disconnect ignored, or the move fails, for want of room or of time, and changes the desk only |
| `PoolEvents.UsersToMoveMeans` | libtransport/NetworkPluginServer.cpp:1250-1263 | The users to move are exactly those inactive for longer than idle_reconnect_time on clients that are not long-running |
| `PoolEvents.UsersToMoveInOrder` | libtransport/NetworkPluginServer.cpp:1250-1263 | They are moved client by client and on one client in the order of its list |
| `PoolEvents.MoveAllMeans` | libtransport/NetworkPluginServer.cpp:1265-1271 | For some k the first k users of the list end on long-running backends or without one, the others are untouched, and k falls short only when no long-running client has room or the login comes too early |
| `PoolEvents.MoveIdleMeans` | libtransport/NetworkPluginServer.cpp:1247-1271 | In every sound state: nobody moves when idle_reconnect_time is 0; otherwise each overdue user ends settled unless there was no room, and no other user is touched |
| `PoolEvents.CheckPingsMeans` | libtransport/NetworkPluginServer.cpp:1273-1290 | After the check every client owes a PONG and another process may be started; nothing else changes |
| `PoolEvents.NewClientMeans` | libtransport/NetworkPluginServer.cpp:405-433 | A newcomer joins at the front, dying, of the kind last asked for, taking users exactly when not long-running |
| `PoolEvents.CollectMeans` | libtransport/NetworkPluginServer.cpp:1321-1341 | Exactly the first client with the most memory stops accepting, none when all report zero |
| `PoolEvents.AddUserMeans` | libtransport/UserManager.cpp:72-78 | A new user starts without a backend, with no retry used and active now, and is then created |
| `PoolEvents.BecomeReadyMeans` | libtransport/User.cpp:395-400 | One LOGIN is sent exactly for a user that becomes ready with its handler connected and a backend |
| `PoolEvents.FrameMeans` | libtransport/NetworkPluginServer.cpp:1153-1159 | A parsed frame makes a missing PONG a received one, and does nothing else |
| `PoolEvents.LaterPongMeans` | libtransport/NetworkPluginServer.cpp:862-878 | A PONG after the first serves nobody and only sets pongReceived |
| `PoolEvents.SetConnectedMeans` | libtransport/User.cpp:126-130 | The retry count is 0, the next disconnect counts again and activity is now; nothing else but the clock changes |
| `PoolEvents.ActivityMeans` | libtransport/User.cpp:126-130 | Activity is now; nothing else but the clock changes |
| `PoolEvents.StatsMeans` | libtransport/NetworkPluginServer.cpp:826-837 | The backend keeps the figure; nothing else changes |
| `PoolQueue.StepKeepsOrder` | libtransport/NetworkPluginServer.cpp:839-860 | While two users both wait, no event swaps them, except that one disconnected and created anew goes behind |
| `PoolQueue.FirstComeFirstServed` | libtransport/NetworkPluginServer.cpp:1385-1390 | From every reachable state, of two users that keep waiting through any events the one in front stays in front |
| `PoolQueue.SessionQueuesInOrder` | libtransport/NetworkPluginServer.cpp:447-451 | Users of a lost backend that end in the queue come there in the order of its list |
| `PoolQueue.FirstPongServes` | libtransport/NetworkPluginServer.cpp:862-878 | The first PONG assigns the first k users of the queue in order, and leaves others waiting only when no client can take one or the login comes too early |
| `PoolQueue.NextClientTakesUsers` | libtransport/NetworkPluginServer.cpp:2156-2158 | Over runs: when an event queues a user and starts a process, the backend that connects next, unless the ping timer gives it up before, takes users and is not long-running |
| `PoolTheorems.RemovalsInOrder` | libtransport/NetworkPluginServer.cpp:1277-1312 | Clients are listed for removal in the order of the client list |
| `PoolModel.CheckedServeShrinks` | libtransport/NetworkPluginServer.cpp:841-853 | A successful check forces the next call to return the same backend, so a round of connectWaitingUsers takes the head off the queue and puts nobody back |
| `PoolLinks.StepLinks` | libtransport/NetworkPluginServer.cpp:1343-1405 | Every event keeps the links invariant |
| `PoolLinks.CreatedLinks` | libtransport/NetworkPluginServer.cpp:1381-1405 | handleUserCreated keeps the invariant, also in the middle of a session's end (backend x, users rest still to be orphaned), for a user in no list |
| `PoolLinks.DestroyedLinks` | libtransport/NetworkPluginServer.cpp:1537-1572 | handleUserDestroyed keeps the invariant in the same in-progress form and leaves the user in no list |
| `PoolLinks.DisconnectedLinks` | libtransport/User.cpp:414-454 | A reported disconnect, which re-enters the scheduler as a destruction and a creation, keeps the invariant in progress |
| `PoolLinks.OrphanAllLinks` | libtransport/NetworkPluginServer.cpp:447-451 | The loop of handleSessionFinished, re-entering the scheduler for every user of the dying backend, ends with none of them left to orphan |
| `PoolLinks.SessionFinishedLinks` | libtransport/NetworkPluginServer.cpp:435-467 | A finished session keeps the invariant and the backend is out of the pool |
| `PoolLinks.MoveLinks` | libtransport/NetworkPluginServer.cpp:1343-1379 | Moving a user to a long-running backend keeps the invariant |
| `PoolLinks.MoveAllLinks` | libtransport/NetworkPluginServer.cpp:1265-1271 | Moving all idle users, until one move fails, keeps the invariant |
| `PoolLinks.PongLinks` | libtransport/NetworkPluginServer.cpp:862-878 | A PONG, with the queue served on the first one, keeps the invariant |
| `PoolLinks.BiggestIsLargest` | libtransport/NetworkPluginServer.cpp:1325-1332 | collectBackend picks the first client with the most memory, none if all report zero |
| `PoolHistory.StepHistory` | libtransport/NetworkPluginServer.cpp:1381-1405 | Every event keeps the history: PONG before assignment, assignments login_delay apart, one assignment a backend in the one-user configuration |
| `PoolHistory.GrantTimes` | libtransport/NetworkPluginServer.cpp:2126-2139 | A backend is granted only login_delay or more after the last login was stamped, and the stamp is the present time |
| `PoolHistory.MoveHistory` | libtransport/NetworkPluginServer.cpp:1343-1379 | A move keeps the history |
| `PoolHistory.PongHistory` | libtransport/NetworkPluginServer.cpp:862-878 | A PONG keeps the history; the backend it revives was never used |
| `PoolEvolution.StepEvolves` | libtransport/NetworkPluginServer.cpp:1321-1405 | No event takes back an observation, reopens a closed backend or adds to its users |
| `PoolEvolution.StepSlots` | libtransport/NetworkPluginServer.cpp:2156-2178 | An event spawns at most one process, and only when none is starting |
| `LogSlots.SpawnTakesOwnSlot` | libtransport/NetworkPluginServer.cpp:2163-2178 | A new process gets a slot of its own, the running ones keep theirs, and the table grows only when full |
| `LogSlots.TerminateFreesOneSlot` | libtransport/NetworkPluginServer.cpp:2072-2078 | A terminated process frees its own slot and no other |
| `PoolServer.NetworkPluginServer.GetFreeClient` | libtransport/NetworkPluginServer.cpp:2123-2185 | getFreeClient in place equals its specification, which GrantFinds, GrantChanges and GrantSpawns describe in plain tests; nothing but the desk and the found backend is written |
| `PoolServer.NetworkPluginServer.HandleUserCreated` | libtransport/NetworkPluginServer.cpp:1381-1405 | In place as CreatedMeans says: last in the list of a fitting backend with its handlers connected once, or last in the queue; all other objects unchanged |
| `PoolServer.NetworkPluginServer.HandleUserDestroyed` | libtransport/NetworkPluginServer.cpp:1537-1572 | The user leaves queue, handlers and list; a one-user backend left empty is set to die; the data field stays |
| `PoolServer.NetworkPluginServer.HandleDisconnected` | libtransport/User.cpp:414-454 | In place as DisconnectedMeans says: ignored, retried as destruction and creation while the limit allows, or removed |
| `PoolServer.NetworkPluginServer.ConnectWaitingUsers` | libtransport/NetworkPluginServer.cpp:839-860 | The loop equals its specification and keeps the invariant |
| `PoolServer.NetworkPluginServer.LoginDelayFinished` | libtransport/NetworkPluginServer.cpp:400-403 | The timer serves the queue |
| `PoolServer.NetworkPluginServer.HandleNewClientConnection` | libtransport/NetworkPluginServer.cpp:405-433 | A new backend goes to the front, dying until its first PONG, accepting unless long-running |
| `PoolServer.NetworkPluginServer.HandleFrame` | libtransport/NetworkPluginServer.cpp:1153-1159 | Any parsed frame counts as the missing PONG, but not as the first |
| `PoolServer.NetworkPluginServer.HandlePongReceived` | libtransport/NetworkPluginServer.cpp:862-878 | The first PONG revives the backend and serves the queue; each sets pongReceived |
| `PoolServer.NetworkPluginServer.HandleSessionFinished` | libtransport/NetworkPluginServer.cpp:435-467 | Users are orphaned one by one with re-entry, then the backend leaves the pool |
| `PoolServer.NetworkPluginServer.MoveToLongRunBackend` | libtransport/NetworkPluginServer.cpp:1343-1379 | The move in place, its result as the source returns it |
| `PoolServer.NetworkPluginServer.MoveIdleUsers` | libtransport/NetworkPluginServer.cpp:1247-1271 | Idle users are collected first and then moved until a move fails |
| `PoolServer.NetworkPluginServer.CheckPings` | libtransport/NetworkPluginServer.cpp:1273-1312 | The loop over the clients: every client not silent is pinged again, and the removal list is as the two tests give it |
| `PoolServer.NetworkPluginServer.PingTimeout` | libtransport/NetworkPluginServer.cpp:1241-1316 | The whole timer in place: idle moves, pings, and the sessions of the listed backends finished one by one with re-entry |
| `PoolServer.NetworkPluginServer.CollectBackend` | libtransport/NetworkPluginServer.cpp:1321-1341 | The biggest backend stops accepting users |
| `PoolServer.NetworkPluginServer.AddUser` | libtransport/UserManager.cpp:72-78 | A user comes under management and is created in the pool |
| `PoolServer.NetworkPluginServer.RemoveUser` | libtransport/UserManager.cpp:106-138 | A user is destroyed in the pool and forgotten |
| `PoolServer.NetworkPluginServer.SetReady` | libtransport/User.cpp:395-400 | Becoming ready fires the ready signal once for each connected handler; a user that is ready, or connected and joins no room, is passed over |
| `PoolServer.NetworkPluginServer.SetConnected` | libtransport/User.cpp:126-130 | The retry count and the ignore flag are cleared and activity is noted |
| `PoolServer.NetworkPluginServer.HandlePIDTerminated` | libtransport/NetworkPluginServer.cpp:2072-2078 | The pid's slot is freed |
| `PoolServer.NetworkPluginServer.HandleStatsPayload` | libtransport/NetworkPluginServer.cpp:826-837 | The backend's memory figure is stored |
| `PoolServer.NetworkPluginServer.UpdateLastActivity` | libtransport/User.cpp:126-130 | Activity is the present time |
| `UserManager.UserManager.GetUser` | libtransport/UserManager.cpp:80-95 | With or without a hit in the cache the answer is the map's, and the cache stays right |
| `UserManager.UserManager.AddUser` | libtransport/UserManager.cpp:72-78 | The map gains the user, replacing any other under its JID, one created event fires, and the cache stays right exactly when no other cached user is replaced |
| `UserManager.UserManager.RemoveUser` | libtransport/UserManager.cpp:106-138 | The map loses whoever is under the JID, the cache never keeps the user, one destroyed event fires, and the cache stays right exactly when no other cached user was under the JID |
| `UserManager.UserManager.RemoveAllUsers` | libtransport/UserManager.cpp:140-144 | Every user is destroyed exactly once and the map ends empty |
| `UserManager.AddCoherentIff` | libtransport/UserManager.cpp:72-74 | The cache stays right after an add exactly when no other cached user is replaced under the same JID |
| `UserManager.RemoveCoherentIff` | libtransport/UserManager.cpp:106-109 | The cache stays right after a removal exactly when the removed user is the cached one or has another JID |
| `Streams.FeedLosesNothing` | libtransport/NetworkPluginServer.cpp:1121-1151 | For any reader of this shape, what was emitted and what is buffered always make up what was read |
| `Streams.FeedIsChunkIndependent` | libtransport/NetworkPluginServer.cpp:1121-1151 | A reader that never gives up emits and buffers the same however the stream is cut |
| `Streams.FramesArrive` | libtransport/NetworkPluginServer.cpp:1121-1230 | Whole frames cut anyhow are dealt with one by one in order and leave nothing |
| `Streams.ItemsOfPrefix` | libtransport/NetworkPluginServer.cpp:1132-1142 | The items of any prefix of a stream of frames are those of its first k frames, with a strict prefix of the next left over |
| `Streams.FeedBacklog` | libtransport/NetworkPluginServer.cpp:1121-1230 | For any frames and any reads of a prefix of them: the first j are dealt with, the buffer holds frames j to k whole and a strict prefix of the next, and whole frames wait only behind one that stopped the loop |
| `Streams.PrefixArrives` | libtransport/NetworkPluginServer.cpp:1121-1230 | So when no frame stops the loop the buffer is a strict prefix of one frame |
| `Streams.DrainEmptiesIff` | plugin/cpp/networkplugin.cpp:492-570 | A read that brings whole frames leaves some behind exactly when a frame before the last stops the loop |
| `Framing.HeaderRoundTrip` | libtransport/NetworkPluginServer.cpp:1233-1235 | The four header bytes read back as the size modulo 2^32 |
| `Framing.HeaderIsSize` | libtransport/NetworkPluginServer.cpp:1233-1235 | The four header bytes are the size modulo 2^32, most significant first |
| `Framing.HeaderIsBig` | libtransport/NetworkPluginServer.cpp:1126-1131 | The reader takes the first four bytes for a number, most significant first |
| `Framing.EncodedFrame` | libtransport/NetworkPluginServer.cpp:1232-1239 | An encoded message is taken whole exactly when it is shorter than 2^32 bytes, and no shorter prefix is taken |
| `Framing.ServerReceivesAll` | libtransport/NetworkPluginServer.cpp:1121-1230 | Any chunking of encoded messages whose types the server handles, with unparseable frames between them: exactly the parseable ones are dispatched in order and the buffer ends empty |
| `Framing.PluginReceivesAll` | plugin/cpp/networkplugin.cpp:492-570 | The same for the plugin when every message parses and is of a type it handles |
| `Framing.ServerPartialStream` | libtransport/NetworkPluginServer.cpp:1121-1151 | For any part of a stream of encoded messages that the server takes, cut into reads anyhow: the parseable ones of the first k are dispatched and the buffer is a strict prefix of the next frame |
| `Framing.ServerBacklog` | libtransport/NetworkPluginServer.cpp:1121-1230 | With other types among them, whole frames may wait in the buffer, but only behind a frame of a type the switch does not have |
| `Framing.ServerStallsIff` | libtransport/NetworkPluginServer.cpp:1144-1228 | When one read brings whole frames, the server leaves some unread exactly when one before the last is of a type its switch does not have |
| `Framing.UnknownToTheOtherEnd` | libtransport/NetworkPluginServer.cpp:1162-1228 | The server's switch has every type the plugin sends; the plugin's lacks exactly the query, buddies and version types of those the server can send |
| `Framing.UnknownTypes` | libtransport/NetworkPluginServer.cpp:1162-1228 | Exactly these types stop the server's loop, and exactly those the plugin's |
| `Framing.PluginPartialStream` | plugin/cpp/networkplugin.cpp:492-570 | The same for the plugin's reader and messages that it takes |
| `Framing.PluginBacklog` | plugin/cpp/networkplugin.cpp:492-570 | With others among them, whole frames wait only behind one that is unparseable or of a type the switch does not have |
| `Framing.PluginStallsIff` | plugin/cpp/networkplugin.cpp:508-568 | When one read brings whole frames, the plugin leaves some unread exactly when one before the last is unparseable or of a type it does not handle |
| `Framing.Receiver.ServerHandleDataRead` | libtransport/NetworkPluginServer.cpp:1121-1230 | The server's loop dispatches and buffers what the specification says |
| `Framing.Receiver.PluginHandleDataRead` | plugin/cpp/networkplugin.cpp:492-570 | The plugin's loop dispatches and buffers what the specification says |
| `WebSocket.ReadingIsChunkIndependent` | libtransport/WebSocketClient.cpp:126-186 | For every byte stream, deliveries and the buffer depend only on the concatenation of the reads |
| `WebSocket.WellFormedStreamIsDelivered` | libtransport/WebSocketClient.cpp:126-186 | An HTTP answer up to its first blank line, then unmasked frames in the shortest encoding up to 65535 bytes: exactly the payloads, in order, and an empty buffer |
| `WebSocket.LongFormReadIff` | libtransport/WebSocketClient.cpp:148-180 | A frame with the two-byte length is read whole exactly when it is not empty |
| `WebSocket.ShortFrameIff` | libtransport/WebSocketClient.cpp:141-180 | With a length code other than 126, 127 included, a frame is taken whole exactly when as many bytes follow as the code says, whatever the mask bit, and no shorter part is taken |
| `WebSocket.LongFrameIff` | libtransport/WebSocketClient.cpp:148-180 | With code 126 the two bytes after it count the payload, most significant first, and 0 counts as 126 |
| `WebSocket.StrayPing` | libtransport/WebSocketClient.cpp:160-166 | A masked one-byte ping costs one byte and delivers nothing, whatever follows |
| `WebSocket.WrittenFrameIff` | libtransport/WebSocketClient.cpp:88-124 | The written frame is a valid masked frame by sections 5.2 and 5.3 of RFC 6455 that unmasks to the data exactly for at most 65535 bytes |
| `WebSocket.MaskedTwice` | libtransport/WebSocketClient.cpp:98-103 | Masking twice with one key gives the data back |
| `WebSocket.MaskedBits` | libtransport/WebSocketClient.cpp:98-103 | Bit k of written byte i is set exactly when the bits of the data byte and of key byte i modulo 4 differ (section 5.3 of RFC 6455) |
| `WebSocket.BlankEndIsFirst` | libtransport/WebSocketClient.cpp:130-139 | The header ends at the first blank line |
| `WebSocket.WebSocketClient.HandleDataRead` | libtransport/WebSocketClient.cpp:126-186 | One read in place equals one read of the specification; the connected signal fires on the upgrading read only |
| `WebSocket.WebSocketClient.ParseFrames` | libtransport/WebSocketClient.cpp:141-186 | The frame loop in place drains what the specification drains |
| `WebSocket.WebSocketClient.Write` | libtransport/WebSocketClient.cpp:88-124 | The bytes on the wire, masked byte by byte |
| `RosterMerge.GetBuddiesMerged` | libtransport/SQLite3Backend.cpp:379-469 | For rows of any types: the one pass gives every buddy its rows of a known type before the first row whose buddy is missing, later ones winning, and also the row that was read ahead for it, even of an unknown type |
| `RosterMerge.MergeAgreesOnIff` | libtransport/SQLite3Backend.cpp:404-435 | The two loads agree on a buddy exactly when no known-type row of it sorts after a row whose buddy is missing, and its first row does not show with an unknown type (unless it is the first buddy) |
| `RosterMerge.SameSettingsIff` | libtransport/SQLite3Backend.cpp:428-435 | On the same rows the one pass differs from the nested loops exactly when the buddy is not the first and its first row, of an unknown type, is not covered by a known one with its key |
| `RosterMerge.LastRowWins` | libtransport/SQLite3Backend.cpp:410-435 | Among a buddy's boolean and string rows for a key the last one gives its value: whether the number is not 0, or the text |
| `RosterMerge.AttachedKeys` | libtransport/SQLite3Backend.cpp:410-435 | A key is attached exactly when such a row has it |
| `RosterMerge.LaterBuddy` | libtransport/SQLite3Backend.cpp:428-435 | What a first row of an unknown type adds: its key with that type, unless a known row has the key |
| `RosterMerge.GetBuddiesNested` | libtransport/PQXXBackend.cpp:325-378 | The nested loops give the first buddy of each id exactly the known-type rows of that id, later rows winning |
| `RosterMerge.MergeAgreesIff` | libtransport/SQLite3Backend.cpp:404-435 | With known types only they agree on every buddy exactly when no buddy's setting sorts after a setting whose buddy is missing |
| `RosterMerge.MergeAgrees` | libtransport/SQLite3Backend.cpp:404-435 | With known types and every setting's buddy present they always agree |
| `ThreadPoolModel.StartsInOrder` | libtransport/ThreadPool.cpp:87-117 | Over every interleaving of submissions and completions threads start in the order handed in; while one waits every slot is busy; starts equal ends plus busy slots |
| `ThreadPoolModel.EndsOnce` | libtransport/ThreadPool.cpp:78-85 | Each thread handed in once is finalized and deleted at most once, never while in a slot or queued, and only after it started |
| `ThreadPoolModel.QuietMeansDone` | libtransport/ThreadPool.cpp:64-123 | When every slot is empty again, everything handed in has ended |
| `ThreadPoolModel.SlotKept` | libtransport/ThreadPool.cpp:64-76 | A busy slot keeps its thread until that thread's own clean-up |
| `ThreadPoolModel.StepKeeps` | libtransport/ThreadPool.cpp:51-123 | Every event keeps the partition of slots into free and busy, the accounts of threads, and that nobody waits beside a free slot |
| `ThreadPoolModel.CleanUpKeeps` | libtransport/ThreadPool.cpp:78-85 | A clean-up ends exactly its own thread and leaves other busy slots alone, whatever finalize() hands in |
| `ThreadPoolModel.SubmitMeans` | libtransport/ThreadPool.cpp:104-117 | A thread handed in starts in the slot that has been free longest, or waits behind the others when none is free |
| `ThreadPoolModel.CleanUpMeans` | libtransport/ThreadPool.cpp:64-101 | The slot of an ended thread goes to the first that waits, or behind the other free ones |
| `ThreadPoolModel.RunKeeps` | libtransport/ThreadPool.cpp:51-123 | The same over runs; ends are never taken back |
| `ThreadPool.ThreadPool.constructor` | libtransport/ThreadPool.cpp:8-18 | All slots free, in order |
| `ThreadPool.ThreadPool.GetFreeThread` | libtransport/ThreadPool.cpp:51-62 | The front of the free queue, or -1 |
| `ThreadPool.ThreadPool.RunAsThread` | libtransport/ThreadPool.cpp:104-117 | The thread starts at once in a free slot carrying its number, or is queued |
| `ThreadPool.ThreadPool.ScheduleFromQueue` | libtransport/ThreadPool.cpp:87-101 | Queued threads start while slots are free |
| `ThreadPool.ThreadPool.ReleaseThread` | libtransport/ThreadPool.cpp:64-76 | A held slot is emptied and goes to the back of the free queue; a number out of range changes nothing |
| `ThreadPool.ThreadPool.WorkerReturns` | libtransport/ThreadPool.cpp:119-123 | A returning run() posts the clean-up |
| `ThreadPool.ThreadPool.CleandUp` | libtransport/ThreadPool.cpp:78-85 | Finalize, delete, release, schedule |
| `PresenceOracle.StoreIsLastWord` | libtransport/PresenceOracle.cpp:42-88 | After any events the stored available presence of every JID is what its last relevant event said, read per presence type from the event alone, entries lie under their own bare JID, and a bare JID has at most two offline entries |
| `PresenceOracle.ApplySays` | libtransport/PresenceOracle.cpp:54-88 | One event changes each JID's online presence exactly as it says: available sets it and drops the bare one, full unavailable, error and probe remove it, bare unavailable removes all, an ended subscription the bare one |
| `PresenceOracle.TwoTombstones` | libtransport/PresenceOracle.cpp:81-85 | Two offline entries do occur |
| `PresenceOracle.AvailableIsOnline` | libtransport/PresenceOracle.cpp:54-88 | For every store: an available presence sent to the gateway makes its sender online with that very presence, and is signalled once |
| `PresenceOracle.OthersPassBy` | libtransport/PresenceOracle.cpp:57-63 | Subscription requests and grants, and whatever goes to a contact, change and signal nothing |
| `PresenceOracle.OfflineStoredIff` | libtransport/PresenceOracle.cpp:74-85 | When an offline presence is kept as an entry and when it takes the entry away |
| `PresenceOracle.PresenceOracle.HandleIncomingPresence` | libtransport/PresenceOracle.cpp:54-88 | The handler in place; signals itself for an available, unavailable, error or probe presence to the gateway, the simulated one for an ended subscription, and nothing for the rest |
| `PresenceOracle.PresenceOracle.ClearPresences` | libtransport/PresenceOracle.cpp:48-52 | All entries of the JID go |
| `PresenceOracle.PresenceOracle.HandleStanzaChannelAvailableChanged` | libtransport/PresenceOracle.cpp:42-46 | A channel that comes up forgets everything |
| `PresenceOracle.PresenceOracle.GetLastPresence` | libtransport/PresenceOracle.cpp:90-103 | An available answer is exactly the JID's last word; any answer is from that JID and was received, or simulated for an ended subscription |
| `PresenceOracle.StoredWasTold` | libtransport/PresenceOracle.cpp:54-88 | Every stored entry, offline ones included, was received or simulated |
| `PresenceOracle.PresenceOracle.GetHighestPriorityPresence` | libtransport/PresenceOracle.cpp:120-141 | The first entry that none outranks by priority and then availability; offline entries take part |
| `RosterTheorems.FlushedRunMirrors` | libtransport/RosterStorage.cpp:112-154 | From a loaded roster, after any events and then a flush, the tables hold exactly one row per buddy with its present alias, groups, subscription and icon hash, and no other; every object made is in the roster or deleted once; each is inserted at most once |
| `RosterTheorems.FlushMirrors` | libtransport/RosterStorage.cpp:112-154 | The same for one flush of a sound roster; nothing but ids changes in the roster |
| `RosterTheorems.FlushTouchesLiving` | libtransport/RosterStorage.cpp:119-121 | A flush walks only buddies that are in the roster and not deleted |
| `RosterTheorems.StoredKeeps` | libtransport/RosterStorage.cpp:119-139 | One turn of the flush keeps the roster sound and takes the buddy off what is left to do |
| `RosterTheorems.StoredRow` | libtransport/RosterStorage.cpp:119-139 | One turn of the flush inserts the buddy exactly when it has no id, keeps the id of one that has, and leaves its row with its present values |
| `RosterTheorems.StoreAllKeeps` | libtransport/RosterStorage.cpp:119-152 | The flush in progress keeps the invariant, with the buddies still to be walked as its queue |
| `RosterTheorems.RunKeeps` | libtransport/RosterManager.cpp:155-322 | Over every run the roster stays sound and every contact stands where the absent, ask, both machine ends, fed with the events about it |
| `RosterTheorems.StepStanding` | libtransport/RosterManager.cpp:244-301 | Each event moves each contact as the machine says and no other contact |
| `RosterTheorems.SubscriptionStatus` | libtransport/RosterManager.cpp:244-301 | subscribe and subscribed lead to both, unsubscribe to absent, unsubscribed to absent only from ask, for the contact the name stands for; all others stay |
| `RosterEffects.SubscriptionMeans` | libtransport/RosterManager.cpp:196-301 | Each type of presence, for a contact the roster has and one it has not: which object changes and which of its fields, what is queued, what goes with its row, and what is made and deleted |
| `RosterEffects.AnswersMean` | libtransport/RosterManager.cpp:196-322 | A request is granted and asked back, its end confirmed and ended too, in that order; a contact's own end is asked back exactly when it stood at ask; nothing else is answered |
| `RosterEffects.NamelessMeans` | libtransport/RosterManager.cpp:176-188 | A presence without a name changes and answers nothing |
| `RosterEffects.ChangedMeans` | libtransport/NetworkPluginServer.cpp:255-275 | A reported buddy of the roster: a given alias and given groups replace the old, empty ones do not, the icon hash always does; subscription, id and rows stay; it is queued exactly when something changed |
| `RosterEffects.ReportedMeans` | libtransport/NetworkPluginServer.cpp:605-621 | A reported buddy that is new enters roster and queue with all its fields, unsubscribed; under the user's own name it is ignored, with an unusable JID made and deleted |
| `RosterEffects.UpdatedMeans` | libtransport/NetworkPluginServer.cpp:1912-1916 | The client's edit sets alias and groups, empty ones too, and nothing else |
| `RosterEffects.PushedMeans` | spectrum/src/frontends/xmpp/XMPPRosterManager.cpp:141-144 | A push sets the subscription of the one buddy and nothing else |
| `RosterEffects.RemovedMeans` | libtransport/RosterManager.cpp:77-94 | A removal takes exactly the named buddy out of roster, queue and tables, and deletes its object |
| `RosterEffects.LoadMeans` | libtransport/RosterManager.cpp:324-345 | A load makes one object for each row, queues nothing and leaves the tables alone |
| `RosterEffects.LoadedObject` | libtransport/RosterManager.cpp:329-343 | Each object carries its row, and is deleted exactly when its name makes no valid JID |
| `RosterEffects.LoadedUnder` | libtransport/RosterManager.cpp:329-343 | A usable name leads to its object, the last of those that differ in case only |
| `RosterTheorems.SubscriptionKeeps` | libtransport/RosterManager.cpp:176-322 | A subscription presence keeps the roster sound: the temporary buddy enters the roster or is deleted, once |
| `RosterTheorems.ChangedKeeps` | libtransport/NetworkPluginServer.cpp:581-621 | A buddy reported by a backend keeps the roster sound |
| `RosterTheorems.UpdatedKeeps` | libtransport/NetworkPluginServer.cpp:1912-1916 | An edit of alias and groups by the client, empty ones too, keeps the roster sound |
| `RosterTheorems.PushedKeeps` | spectrum/src/frontends/xmpp/XMPPRosterManager.cpp:141-144 | A roster push makes the buddy mutual and keeps the roster sound |
| `RosterTheorems.RemoveKeeps` | libtransport/RosterManager.cpp:77-94 | A removed buddy leaves roster, queue and tables together |
| `RosterTheorems.EditKeeps` | libtransport/LocalBuddy.cpp:76-102 | A changed field of a buddy is queued for the tables; name and row stay |
| `RosterTheorems.SetBuddyKeeps` | libtransport/RosterManager.cpp:133-144 | A new buddy enters roster and queue |
| `RosterTheorems.LoadGood` | libtransport/RosterManager.cpp:324-345 | Loading rows whose names differ in more than case gives a sound roster |
| `RosterTheorems.LoadGoodIff` | libtransport/RosterManager.cpp:324-345 | Such a load gives a sound roster exactly when every stored name makes a valid buddy: the row of another stays and belongs to nobody |
| `RosterTheorems.LegacyNameKey` | libtransport/Buddy.cpp:204-215 | The roster's spelling of a contact lies under the same key as the name its JID gives |
| `RosterModel.SameContact` | libtransport/RosterManager.cpp:176-188 | A contact is handled alike under the name its JID gives and the roster's spelling |
| `RosterManager.RosterManager.HandleSubscription` | libtransport/RosterManager.cpp:176-322 | The handler in place with the presences it answers; a new object only for an unknown contact |
| `RosterManager.RosterManager.RemoveBuddy` | libtransport/RosterManager.cpp:77-94 | Removal in place |
| `RosterManager.RosterManager.SetBuddy` | libtransport/RosterManager.cpp:133-144 | The buddy is put under its lower-case name and queued |
| `RosterManager.RosterManager.StoreBuddies` | libtransport/RosterStorage.cpp:112-154 | The flush in place; the tables mirror the roster afterwards; true exactly when something was queued |
| `RosterManager.RosterManager.StoreBuddy` | libtransport/RosterStorage.cpp:100-110 | A buddy with a name is queued under it |
| `RosterManager.RosterManager.SetAlias` | libtransport/LocalBuddy.cpp:76-84 | A new alias is set and queued, an equal one changes nothing |
| `RosterManager.RosterManager.SetGroups` | libtransport/LocalBuddy.cpp:86-102 | New groups, compared size first and then one by one, are set and queued; equal ones change nothing |
| `RosterManager.RosterManager.SetIconHash` | libtransport/LocalBuddy.cpp:52-59 | A new icon hash is set and queued, an equal one changes nothing |
| `RosterManager.RosterManager.HandleBuddyChanged` | libtransport/NetworkPluginServer.cpp:581-621 | A backend's buddy in place: known, own name, invalid or new |
| `RosterManager.RosterManager.HandleBuddyUpdated` | libtransport/NetworkPluginServer.cpp:1912-1916 | The client's edit in place |
| `RosterManager.RosterManager.SendBuddyRosterPush` | spectrum/src/frontends/xmpp/XMPPRosterManager.cpp:141-144 | A pushed buddy becomes mutual and is queued, unless it was mutual |
| `RosterManager.RosterManager.SetStorageBackend` | libtransport/RosterManager.cpp:324-345 | The load in place; a row that makes no valid buddy is passed over |
| `Base64.RoundTrip` | protocol/Util.cpp:180-193 | decode(encode(s)) is s without its trailing NULs, for all byte strings |
| `Base64.RawRoundTrip` | protocol/Util.cpp:180-193 | Before the cut, it is s and one NUL for each '=' |
| `Base64.EncodedForm` | protocol/Util.cpp:180-185 | '=' stands exactly in the last places, as many as bytes are missing; all else is in the alphabet of section 4 of RFC 4648 |
| `Base64.AlphabetIsStandard` | protocol/Util.cpp:180-185 | The letters are those of table 1 of section 4 of RFC 4648, by code |
| `Base64.EncodedGroup` | protocol/Util.cpp:180-185 | Letters 4i to 4i+3 are the 24 bits of bytes 3i to 3i+2, most significant first, filled with zero bits, with '=' for filling only |
| `Base64.EncodedLength` | protocol/Util.cpp:180-185 | Four characters for every three bytes begun |
| `Base64.EncodeInjective` | protocol/Util.cpp:180-185 | Different byte strings have different texts |
| `Base64.TrimNulsMeans` | protocol/Util.cpp:190-192 | The cut leaves the longest prefix that does not end in NUL |
| `StorageBackend.PasswordReadBack` | libtransport/StorageBackend.cpp:51-77 | decrypt(encrypt(p)) is the prefix of p as long as the shifted bytes without trailing NULs, for every password and non-empty key |
| `StorageBackend.PasswordSurvivesIff` | libtransport/StorageBackend.cpp:51-77 | It is p exactly when p is empty or its last byte and the key's there do not add up to 0 or 256 |
| `StorageBackend.PasswordLost` | libtransport/StorageBackend.cpp:51-77 | Under every key some one-byte password comes back empty |
| `StorageBackend.EncryptPassword` | libtransport/StorageBackend.cpp:51-63 | The loop adds the repeated key byte by byte, wrapping, and encodes |
| `StorageBackend.DecryptPassword` | libtransport/StorageBackend.cpp:65-77 | The loop decodes texts of any length and takes the key off again, or fails on a character outside the alphabet |
| `StorageBackend.GroupsReadBack` | libtransport/StorageBackend.cpp:79-101 | Any groups come back cut at their newlines and without one empty group at the very end |
| `StorageBackend.GroupsSurviveIff` | libtransport/StorageBackend.cpp:79-101 | They come back unchanged exactly when none has a newline and the last is not empty |
| `StorageBackend.GroupsWrittenBack` | libtransport/StorageBackend.cpp:79-101 | Every string read as groups and written again loses one trailing newline if it has one, and nothing else |
| `StorageBackend.SerializeGroups` | libtransport/StorageBackend.cpp:79-88 | The loop joins the groups with one newline between them |
| `MediaSplit.PiecesPartition` | libtransport/NetworkPluginServer.cpp:1838-1894 | The text and image pieces glued together are the message text |
| `MediaSplit.PiecesAlternate` | libtransport/NetworkPluginServer.cpp:1838-1894 | Text pieces are not empty and never adjacent |
| `MediaSplit.SplitDelivers` | libtransport/NetworkPluginServer.cpp:1838-1894 | In split mode the messages with one more payload are, in order, one for each image piece: its address as body, its tag as XHTML, the old payloads and the address out of band; the others have the old payloads, the trimmed text pieces in order as XHTML and as body the trimmed stretch of plain text up to the next mention of the following image, and none of them is empty |
| `MediaSplit.DeliversInTurn` | libtransport/NetworkPluginServer.cpp:1838-1894 | Split mode piece by piece, in the order of the text: an image's message as above, a text's with the stretch of plain text up to the next mention of the image after it, and all that is left behind the last one |
| `MediaSplit.ShownInOrder` | libtransport/NetworkPluginServer.cpp:1838-1894 | The XHTML of the messages is, in order, the image tags and the trimmed texts of the original that are not empty |
| `MediaSplit.BodyUsedInOrder` | libtransport/NetworkPluginServer.cpp:1853-1859 | The plain text that goes with a text piece runs up to the first mention of the image's address, which is skipped; without a mention none is used |
| `MediaSplit.PiecesAreMatches` | libtransport/NetworkPluginServer.cpp:1838-1883 | The pieces are the matches of the image expression, one after the other, each with its text and address, and the texts between them |
| `MediaSplit.PassesThrough` | libtransport/NetworkPluginServer.cpp:1799-1810 | A message without XHTML or without an image passes unchanged in every mode |
| `MediaSplit.WrapAllMeans` | libtransport/NetworkPluginServer.cpp:1866-1900 | In wrap-all mode one message results, with its body and XHTML and one more payload for each address, in order |
| `MediaSplit.ExclusiveMeans` | libtransport/NetworkPluginServer.cpp:1866-1908 | In exclusive mode the first address becomes the body and the one added payload |
| `MediaSplit.NeverEmpty` | libtransport/NetworkPluginServer.cpp:1795-1910 | Every mode returns at least one message |
| `MediaSplit.WrapIncomingMedia` | libtransport/NetworkPluginServer.cpp:1795-1910 | The loop over matches in all three modes returns what the specification on pieces says, with plain-text positions in range |
| `Trimming.XhtmlTrimMeans` | libtransport/NetworkPluginServer.cpp:1721-1742 | The trimmed text is the middle of the text between token characters only, has no token at either end, and trimming it again changes nothing |
| `Trimming.TrimXhtml` | libtransport/NetworkPluginServer.cpp:1721-1742 | The nested sweeps compute it |
| `Trimming.TokensAre` | libtransport/NetworkPluginServer.cpp:1721-1742 | What is trimmed: a space, a newline, a tab, or a line break tag in either form and any case |
| `Trimming.TokensGo` | libtransport/NetworkPluginServer.cpp:1721-1742 | Text that starts or ends with one of them loses it |
| `Trimming.PlaintextTrimMeans` | libtransport/NetworkPluginServer.cpp:1744-1749 | Blanks at both ends are lost, and only they |

## Left out

- Process spawning, signals, waitpid, sockets, timers, logging and memory statistics are not modelled: spawned pids, clock reads and which event comes next are inputs, and a spawned pid is taken to be non-zero and not in use.
- SIGCHLD arrives asynchronously in the source; here a terminated pid is an event between handlers.
- `PoolServer.NetworkPluginServer.PingTimeout`: does not model what happens when a backend is named twice; the source then uses an object it has deleted. In runs, the end of a session is a step on one of the clients.
- A removed backend stays readable here, since `handleUserDestroyed` leaves the user's `data` pointing at it; in the source it is freed memory.
- `PoolServer.NetworkPluginServer.GetFreeClient`: does not model the restart of the login timer, which may fire at any time here, nor the test for a live connection, which a backend has here as long as it is in the pool.
- `PoolServer.NetworkPluginServer.HandlePongReceived`: does not model `m_firstPong` and the start of the component.
- `PoolServer.NetworkPluginServer.HandleStatsPayload`: does not model the three figures that nothing in the pool reads.
- The list of crashed backends is not modelled.
- Liveness of waiting users is not claimed: a freed slot does not wake the queue. Nor is "exactly one place" for a user: one whose disconnect was ignored may be in no list.
- `PoolServer.NetworkPluginServer.SetConnected`: does not model the replay of joined rooms nor the presence sent.
- `PoolServer.NetworkPluginServer.HandleDisconnected`: does not model the error message to the user, and takes the two retried error kinds as one flag.
- `PoolServer.NetworkPluginServer.RemoveUser`: does not model the database flag, the presence store and the server-mode disconnect.
- Protocol buffer parsing is an abstract partial function with a type tag; payload handlers are not modelled.
- `Framing.UnknownToTheOtherEnd`: does not model when each type is sent; the version type is in a member that nothing calls.
- `WebSocket.WellFormedStreamIsDelivered`: does not model 64-bit lengths, which the reader does not know.
- `RosterMerge.GetBuddiesMerged`: does not model statements that fail.
- Database operations succeed and the unique index on name holds; MySQL, SQL text, schema and transactions are not modelled.
- `RosterManager.RosterManager.SetStorageBackend`: comes before the first buddy; a buddy set before the storage is attached would not be queued.
- `RosterTheorems.LoadGood`: does not model stored names that differ in case only, where the source keeps the last one and loses the other object.
- The `NULL` entry that `getBuddy` leaves for an unknown name reads as absent and is modelled as absent; the fields of RosterStorage are fields of the manager.
- `RosterManager.RosterManager.HandleSubscription`: does not model server mode, flags, the signals to the backend and the presences of the buddy itself; buddy creation is taken to succeed.
- `RosterManager.RosterManager.HandleBuddyPayload`: does not model the replacement of invalid UTF-8 in group names, nor status and blocking, which are not stored.
- The tables hold groups as a list; `StorageBackend` says what the stored string keeps of it.
- `ThreadPool.ThreadPool.ReleaseThread`: does not model the number MAX_THREADS, which its guard lets through to memory behind the slots, nor the release of a slot nobody holds; no caller does either.
- `ThreadPool.ThreadPool.CleandUp`: does not model `activeThreads`, which each start decrements twice, nor the destructor; submissions come from the loop thread.
- `PresenceOracle.PresenceOracle.GetHighestPriorityPresence`: takes the map's key order as a parameter.
- `StorageBackend.DecryptPassword`: takes a lone last character, for which the decoder reads beyond the text, as an error.
- `MediaSplit.WrapIncomingMedia`: does not model the sharing of payloads between copies by reference, nor updating the given message in place; the empty description is dropped as in the source.
- `Trimming.TrimXhtml`: compares ASCII letters without case; locale-dependent folding of other characters is not modelled.
- HTTPRequestQueue, OAuth, vCards, admin commands, Config parsing, XML, XEP-0106 escaping, the network plugins and all user-interface code are not modelled.
