# Go engine, replication and seats: a verified model

This project models the Go server of the repository in Dafny and proves properties of it: the rules engine (flood fill,
capture, suicide, superko, incremental hashing), the game loop and its stream of deltas, the copy of the game that every
client builds from those deltas, the chat that clients put back in order, the JSON event codec, and the sessions, seats
and players of the server.

Code of the repository that works step by step is modelled as methods, loops and classes and proved against functions on
values. The main results are lemmas about those functions, for every board size, every table of hash keys, every
sequence of events and every order of delivery.

| file | models |
|---|---|
| `Model.dfy`, `Board.dfy` | the value types and the board, a flat vector behind two coordinates |
| `Topology.dfy`, `Rules.dfy` | groups as path-connected sets, liberties, captures, suicide: the reference definitions and their theorems |
| `FloodFill.dfy`, `MoveChecker.dfy` | the searches and the simulation of a move |
| `Scans.dfy`, `Zobrist.dfy`, `Position.dfy` | the scan order, the incremental hash, the position |
| `GameSpec.dfy`, `Game.dfy`, `GameTheorems.dfy` | the game as a state machine, as an object, and what every game satisfies |
| `SendTwoReturnOne.dfy` | a game in which superko drops a pass |
| `Wire.dfy`, `Replica.dfy`, `Chat.dfy` | JSON trees, the client's replica, chat |
| `Sessions.dfy`, `Seating.dfy` | the session index, seats, players and the start of the game |
| `ServerGame.dfy` | the whole server: from the messages of seated sessions to the deltas of the game and the lines of the chat |
| `ServerPlay.dfy` | whole runs: the game's thread, the queue, the stop, and two clients that play a game |
| `seeded_keys.py` | the seeded Zobrist keys that `SendTwoReturnOne.dfy` names |

How things are represented:

- A board's abstract value is a map from points to colours (`Boards.Board.Contents`). Groups are defined by paths
  (`Topology.Group`), not by the search that finds them.
- Zobrist keys are an arbitrary function and an arbitrary toggle key (`Zobrist.Keys`). Only
  `SendTwoReturnOne.SeededTablesDoNotCollide` is about the seeded tables: its constants are what mt19937_64 draws from the
  source's seed when the uniform distribution over all 64-bit values passes draws on as they are, which the C++ standard
  leaves to the library. They are premises, not derived in Dafny; `seeded_keys.py` shows how they come about.
  Board sizes are arbitrary; the source creates games of size 9, 13 and 19 only.
- Move and message ids are unbounded naturals. Session ids wrap at 32 bits. The wire reads numbers modulo 2^32 and
  enumerations modulo 2^8, as the source's casts do. Statements that cross the wire therefore ask for numbers below 2^32.
  A number of 2^64 or more is read as a floating-point number, so it is not an unsigned one (`Wire.IsUnsigned`).
- Points are pairs of unbounded naturals. The search for neighbours reckons in 32-bit signed integers, so what the
  contracts of `FloodFill.NeighbourAt`, `MoveChecker.WouldCapture` and `MoveChecker.IsSuicide` say of points off the board
  is about the code for coordinates below 2^31. The engine calls them with points of the board only.
- The counters of session and connection ids belong to the process, so a server finds them where earlier servers left
  them: statements over runs hold from any start, for runs of any length in which the transport's counter does not wrap
  around (`Seating.CountersLast`).
- `Games.Game.emitted` is what the state listeners receive. `Seating.GameServer.configs` counts announced games.
- A game thread is not there, started, in its loop, or finished (`Seating.GameThread`). "The game is active" is "in its
  loop", and entering and leaving it are steps of their own, so the time between starting the thread and its first
  event is covered.
- A delivery is any sequence of messages of the server: reordered, repeated and incomplete deliveries are all covered.

Where the source is less than one might expect, the model follows it:

- A pass counts before superko may drop it, so the two passes that end a game can come from one player.
  `GameTheorems.TwoPassesEndTheGame` says exactly when; `SendTwoReturnOne.OnePlayerCanPassTwice` gives a game with ordinary
  captures on every board of at least 6 by 6 in which White makes both, for every key table that does not collide on its
  ten situations. Nine keys decide whether it does (`SendTwoReturnOne.NineKeysDecide`), and the seeded ones do not.
- Superko compares hashes. A legal put is judged by situational superko exactly when no different situation of the game
  shares the new hash (`GameTheorems.LegalityIsExactWithoutCollision`).
- `GamePosition::putStone` folds the key in even when the point is taken (`Positions.GamePosition.PutStone`).
- The client logs that it applies the latest update when updates are missing (`src/apps/runtime/position.cpp:76-80`); it
  rejects it, and so does the model.
- A second connect on a known connection id seats its session anew. The players then still sit where they play exactly
  when that session played no colour (`Seating.ReconnectIsSafeExactly`); the only player of a waiting server would become
  both (`Seating.ReconnectSeatsOneSessionTwice`). These two are about the handler alone: the transport reuses no id before
  its counter wraps around (`src/net/core/tcpServer.cpp:18`), so the statements over runs accept every client under a new id.
- A resignation does not say who resigns: its delta names the player to move, whichever seated session sent it
  (`ServerGame.AsksFor`).
- A message on the connection of an inactive session is still passed on for its colour; `Seating.OneVoicePerColour` is
  about active sessions. When no message follows the loss of its connection, as in the transport
  (`src/net/core/connection.cpp:93-147`), every sender is the one active session in its seat
  (`ServerGame.EverySenderHolds`).
- A stop unsubscribes the server from the game before the game has taken what is queued
  (`src/apps/runtime/gameServer.cpp:35-40`). Statements about the deltas of a run are about what the game emits; what it
  emits during a stop reaches no client.

## Model

| member | source | states |
|---|---|---|
| `Boards.FlatIndexInjective` | src/game/model/board.cpp:14-38 | two points of the board never share a slot of the flat vector |
| `Boards.Board.constructor` | src/game/model/board.cpp:7-8 | a new board is empty |
| `Boards.Board.Place` | src/game/model/board.cpp:14-23 | succeeds exactly on a free point and changes that point only |
| `Boards.Board.Remove` | src/game/model/board.cpp:25-33 | succeeds exactly on a stone and changes that point only |
| `Boards.Board.Get` | src/game/model/board.cpp:35-38 | reads what was last placed or removed at that point, through the flat index |
| `Boards.Board.IsEmpty` | src/game/model/board.cpp:40-43 | true exactly when no stone is there |
| `FloodFill.NeighbourAt` | src/game/core/moveChecker.cpp:11-12 | every direction gives an adjacent point of the board or nothing |
| `FloodFill.FourDirectionsSuffice` | src/game/core/moveChecker.cpp:48-54 | the four directions give every neighbour |
| `FloodFill.IsPlayerStone` | src/game/core/moveChecker.cpp:22-26 | the stones of the player and the pretend stone |
| `FloodFill.Look` | src/game/core/moveChecker.cpp:54-67 | one neighbour is stacked exactly when an unvisited stone of the player, and marked and counted exactly when a new liberty |
| `FloodFill.Expand` | src/game/core/moveChecker.cpp:48-67 | one visit stacks exactly the unvisited neighbouring stones and marks and counts exactly the new liberties |
| `FloodFill.GroupAnalysis` | src/game/core/moveChecker.cpp:18-71 | terminates; the collected group is, as a set, the path-connected group counting the pretend stone; the result is the number of distinct liberties without the blocked and pretend points |
| `Topology.GroupIsLeast` | src/game/core/moveChecker.cpp:40-68 | a group is contained in every closed set around its start, which makes an exhausted search complete |
| `Topology.SameGroup` | src/game/core/moveChecker.cpp:91-99 | groups partition the stones of a colour, so skipping visited neighbours is safe |
| `MoveChecker.ComputeGroupLiberties` | src/game/core/moveChecker.cpp:73-78 | the number of liberties the group would have if the player placed a stone there, 0 off the board |
| `MoveChecker.PretendIsPlacing` | src/game/core/moveChecker.cpp:22-26 | analysing with a pretend stone is analysing the board with the stone placed |
| `MoveChecker.WouldCapture` | src/game/core/moveChecker.cpp:80-108 | true exactly when some enemy group touching the point has no liberty but it |
| `MoveChecker.AllNeighboursMet` | src/game/core/moveChecker.cpp:87-105 | the four neighbours meet every enemy group that touches the point |
| `MoveChecker.SkipOther` | src/game/core/moveChecker.cpp:94-95 | a skipped neighbour adds no group and loses none |
| `MoveChecker.MeetGroup` | src/game/core/moveChecker.cpp:97-104 | a new neighbour adds its whole group, to the captures exactly when it is surrounded |
| `MoveChecker.EarlyExitAgrees` | src/game/core/moveChecker.cpp:80-152 | the search with early exit answers true exactly when the simulation lists a capture |
| `MoveChecker.IsSuicide` | src/game/core/moveChecker.cpp:110-118 | for any point: no direct liberty and nothing surrounded |
| `MoveChecker.IsValidMove` | src/game/core/moveChecker.cpp:193-198 | true exactly for a free point of the board whose group has a liberty on the board after the move |
| `MoveChecker.FindCaptures` | src/game/core/moveChecker.cpp:122-152 | marks exactly the stones of the surrounded enemy groups |
| `MoveChecker.Rebuild` | src/game/core/moveChecker.cpp:154-167 | the new board is the old one without the marked stones and with the move |
| `MoveChecker.ListCaptures` | src/game/core/moveChecker.cpp:169-176 | lists exactly the marked points, strictly ordered by column and row |
| `MoveChecker.FoldCaptures` | src/game/core/moveChecker.cpp:178-182 | folds the keys of the captures into the hash |
| `MoveChecker.SimulatePosition` | src/game/core/moveChecker.cpp:122-191 | board, player, move number, capture list and hash of the position after a move |
| `MoveChecker.IsNextPositionLegal` | src/game/core/moveChecker.cpp:200-211 | accepts exactly the moves that are legal and lead to an unseen hash, with the position they lead to |
| `Rules.SurroundedIsCaptured` | src/game/core/moveChecker.cpp:138-147 | blocking a liberty on the old board finds the groups without a liberty on the new one |
| `Rules.LocalCaptureIsGlobal` | src/game/core/moveChecker.cpp:122-176 | when every group has a liberty, the captures are exactly the enemy stones anywhere left without one |
| `Rules.SuicideTestIsExact` | src/game/core/moveChecker.cpp:110-118 | the mover's group has no liberty after the move exactly when the test on the old board says suicide |
| `Rules.LegalMoveKeepsAllAlive` | src/game/core/moveChecker.cpp:110-191 | a legal move leaves every group of either colour a liberty |
| `Zobrist.HashOneChange` | src/game/core/position.cpp:8-14 | changing one point changes the recomputed hash by the old and the new key of that point |
| `Zobrist.HashAfterRemoval` | src/game/core/moveChecker.cpp:180-182 | taking off a list of stones without repeats folds out their keys |
| `Zobrist.HashOfMove` | src/game/core/moveChecker.cpp:178-183 | the incremental hash of a move is the hash of the new situation computed from scratch |
| `Zobrist.HashOfPass` | src/game/core/position.cpp:18-23 | the toggle key turns the hash of a situation into that of the other player to move |
| `Positions.GamePosition.constructor` | src/game/core/position.cpp:5-6 | an empty board, Black to move, hash 0, move 0 |
| `Positions.GamePosition.Copy` | src/game/core/game.cpp:99-100 | a copy has the same contents on a board of its own |
| `Positions.GamePosition.PutStone` | src/game/core/position.cpp:8-16 | places for the current player; the hash stays as exact as it was if and only if the point was free or its key is 0 |
| `Positions.GamePosition.Pass` | src/game/core/position.cpp:18-23 | changes player, hash and move number only and keeps the hash as exact as it was |
| `Games.Game.constructor` | src/game/core/game.cpp:7-23 | a new game is the start of the state machine, not yet active |
| `Games.Game.RunLoop` | src/game/core/game.cpp:29-37 | the loop computes the run of the state machine and leaves events unhandled only when the game has ended |
| `Games.Game.Adopt` | src/game/core/game.cpp:59-72 | the next position replaces the old one, its hash is remembered and its delta sent |
| `Games.Game.HandlePut` | src/game/core/game.cpp:47-74 | one put is one step of the state machine |
| `Games.Game.HandlePass` | src/game/core/game.cpp:76-119 | one pass is one step of the state machine |
| `Games.Game.HandleResign` | src/game/core/game.cpp:121-134 | one resignation is one step of the state machine |
| `Games.Game.HandleEvent` | src/game/core/game.cpp:29-37 | every event is one step of the state machine, on state and deltas |
| `Games.PlayGame` | src/apps/runtime/gameServer.cpp:62 | a game set up and run is the run of the state machine from the empty board |
| `GameSpec.StepIsGood` | src/game/core/game.cpp:47-138 | every event keeps position, history and delta stream good |
| `GameSpec.RunIsGood` | src/game/core/game.cpp:29-37 | so does every run |
| `GameTheorems.EveryGroupHasALiberty` | src/game/core/game.cpp:47-74 | no situation of any game has a group without a liberty |
| `GameTheorems.EveryCaptureIsGlobal` | src/game/core/moveChecker.cpp:122-176 | in every game a put captures exactly the enemy stones, anywhere, without a liberty once the stone is placed |
| `GameTheorems.HashIsAlwaysExact` | src/game/core/game.cpp:99-107 | in every game the kept hash is the hash computed from scratch |
| `GameTheorems.NoSituationRepeats` | src/game/core/game.cpp:56-60 | no game is twice in the same situation, without any assumption on collisions |
| `GameTheorems.StreamOfEveryRun` | src/game/core/game.cpp:64-134 | move ids 1, 2, 3, ..., Black on odd ids, the opponent next, each delta linked to the move behind it, only the last can end the game |
| `GameTheorems.PutVerdict` | src/game/core/game.cpp:47-74 | a put changes the game exactly when it is the mover's, legal and leads to an unseen hash, and then extends history and stream by one |
| `GameTheorems.PassVerdict` | src/game/core/game.cpp:76-119 | a pass out of turn changes nothing; a pass by the player to move ends the game when one was taken since the last stone, else is taken and turns the situation over unless its hash was seen |
| `GameTheorems.SeenSituationsDoNotCollide` | src/game/core/game.cpp:56-60 | two different situations of a game never share a hash |
| `GameTheorems.LegalityIsExactWithoutCollision` | src/game/core/moveChecker.cpp:193-211 | any put by anyone anywhere is judged as situational superko judges it (accepted exactly when it is the mover's, legal and leads to a new situation; otherwise nothing changes) if and only if, when it is the mover's and legal, no different situation of the game shares the new hash |
| `GameTheorems.NothingHappensAfterTheEnd` | src/game/core/game.cpp:33-36 | after the end no event changes anything; a game ends without a delta exactly by shutdown, and with a resign delta exactly by resigning |
| `GameTheorems.ResigningEndsTheGame` | src/game/core/game.cpp:121-134 | in every game a resignation ends it at once: same situation and history, one more delta that names the player to move |
| `GameTheorems.ShutdownEndsTheGame` | src/game/core/game.cpp:136-138 | in every game a shutdown ends it at once and sends nothing |
| `GameTheorems.TwoPassesEndTheGame` | src/game/core/game.cpp:83-104 | which pass ends the game, and whose it is when superko dropped the first |
| `GameTheorems.LineIsPlayed` | src/game/core/game.cpp:47-74 | a line of legal moves whose situations do not collide is played as it stands |
| `SendTwoReturnOne.TheLine` | src/game/core/moveChecker.cpp:110-191 | nine legal moves, with a capture of two stones and one of one, after which the board of the sixth is back |
| `SendTwoReturnOne.OnePlayerCanPassTwice` | src/game/core/game.cpp:83-104 | on every board of at least 6 by 6, with every table that does not collide on that line: White's first pass is dropped and White's second ends the game |
| `SendTwoReturnOne.NineKeysDecide` | src/game/core/game.cpp:99-104 | a table collides on that line if and only if two of ten XORs of nine of its keys are equal, whatever the size of the board |
| `SendTwoReturnOne.SeededTablesDoNotCollide` | src/game/core/zobristHash.hpp:48-58 | tables with the seeded keys of the game's stones do not collide on that line, on the boards of size 9, 13 and 19 |
| `GameTheorems.StonesAreConserved` | src/game/core/moveChecker.cpp:154-176 | a legal put adds one stone, removes exactly the listed captures, each once and in order, and changes no other point |
| `GameTheorems.EveryGameIsBounded` | src/game/core/game.cpp:22-60 | seen hashes number moves plus one, at most 2 * 3^(N*N) |
| `Wire.DeltaToMessage` | src/net/network/nwEvents.cpp:108-135 | the fields and captures written for a delta; a place without a point has no message |
| `Wire.FromServerDeltaMessage` | src/net/network/nwEvents.cpp:149-213 | the loop that reads a delta computes the decoding function, rejections included |
| `Wire.DeltaRoundTrip` | src/net/network/nwEvents.cpp:108-213 | a delta comes back unchanged if and only if it is canonical |
| `Wire.AcceptedDeltaIsCanonical` | src/net/network/nwEvents.cpp:149-213 | every accepted delta message decodes to a canonical delta that survives being sent again |
| `Wire.ServerEventRoundTrip` | src/net/network/nwEvents.cpp:94-254 | the other server events come back unchanged exactly when their numbers have 32 bits |
| `Wire.ClientEventRoundTrip` | src/net/network/nwEvents.cpp:36-92 | client events come back unchanged exactly when their coordinates have 32 bits |
| `Wire.ClientMessagesMean` | src/net/network/nwEvents.cpp:63-92 | the client events accepted are exactly those the message says, by its type and fields, numbers taken modulo 2^32 |
| `Wire.ServerMessagesMean` | src/net/network/nwEvents.cpp:149-254 | the server events accepted are exactly those the message tells, by its type, fields, enumeration numbers and list of captures |
| `Replica.EveryDeltaIsReported` | src/apps/runtime/gameServer.cpp:98-124 | the message for a delta says what was played: turn, seat, action, point, captures, next player and status, by their numbers |
| `Replica.EveryDeltaCrossesTheWire` | src/apps/runtime/gameServer.cpp:98-124 | every delta of every game is sent as a message that reports it, and decodes to what was sent |
| `Replica.Position.Reset` | src/apps/runtime/position.cpp:8-13 | an idle replica with an empty board of the given size |
| `Replica.Position.Init` | src/apps/runtime/position.cpp:15-26 | a configuration starts a fresh game unless one is active |
| `Replica.Position.Apply` | src/apps/runtime/position.cpp:28-48 | applies exactly the next delta: place, then remove the captures; any other delta changes nothing |
| `Replica.Position.IsDeltaApplicable` | src/apps/runtime/position.cpp:65-90 | exactly the next turn of an active game between player seats |
| `Replica.PlaceShows` | src/apps/runtime/position.cpp:37-42 | placing and then removing gives the board the server rebuilds |
| `Replica.GameDeltasStayOnTheBoard` | src/apps/runtime/position.cpp:37-42 | the deltas of a game never name a point off the replica's board |
| `Replica.ActiveReplicaKeepsItsGame` | src/apps/runtime/position.cpp:15-18 | a configuration leaves an active replica as it is and starts any other on an empty board of its size |
| `Replica.ReplicaNeverGoesBack` | src/apps/runtime/position.cpp:15-90 | whatever arrives, an active replica stays or goes on by one move |
| `Replica.ReplicaIsSafe` | src/apps/runtime/position.cpp:15-90 | under loss, repetition and reordering the replica shows the server's board, player and status after exactly the moves it counts |
| `Replica.ReplicaTakesAllItCan` | src/apps/runtime/position.cpp:65-90 | it has taken m moves for the largest m such that deltas 1 to m came in this order |
| `Replica.InOrderDeliveryIsComplete` | src/apps/runtime/position.cpp:72-81 | in-order delivery is never rejected and ends on the server's board |
| `ChatLog.ServerChatLog.Say` | src/apps/runtime/gameServer.cpp:158-161 | lines are sent under ids 1, 2, 3, ... in log order |
| `ChatLog.ClientChatLog.OnChatMessage` | src/apps/runtime/sessionManager.cpp:184-210 | files the message and drains the buffer; the drain loop terminates |
| `ChatLog.ClientChatLog.Reset` | src/apps/runtime/sessionManager.cpp:29-36 | an empty history that expects message 1 |
| `ChatLog.ReassemblyIsExact` | src/apps/runtime/sessionManager.cpp:184-210 | after any deliveries the history is the log up to the first line not delivered |
| `ChatLog.NothingIsReplaced` | src/apps/runtime/sessionManager.cpp:184-210 | whatever arrives, the history is only appended to and a waiting entry stays as it is until it comes into the history |
| `ChatLog.FirstAfter` | src/apps/runtime/sessionManager.cpp:130-132 | the first entry with a larger id |
| `ChatLog.ClientChatLog.GetChatSince` | src/apps/runtime/sessionManager.cpp:127-135 | on a history in order of ids the binary search returns the entries from the first with a larger id |
| `ChatLog.SinceIsExact` | src/apps/runtime/sessionManager.cpp:127-135 | every client's history is in order of ids, and what came after message m is exactly lines m + 1, m + 2, ... to its end |
| `ChatLog.ChatCrossesTheWire` | src/net/network/nwEvents.cpp:137-144 | every chat line is decoded as it was sent |
| `Sessions.SessionManager.GenerateSessionId` | src/net/network/sessionManager.cpp:98-115 | terminates across the wraparound with a fresh id other than 0 |
| `Sessions.FirstFreeIsFree` | src/net/network/sessionManager.cpp:98-115 | with fewer than 2^32 - 1 sessions the search finds a free id |
| `Sessions.NewSession` | src/net/network/sessionManager.cpp:19-30 | a connection without a session gets the first free id from the counter on, across the wraparound; the counter moves behind it and nothing else changes |
| `Sessions.KnownSession` | src/net/network/sessionManager.cpp:10-16 | the session of a known connection becomes active with the seat it had, and nothing else changes |
| `Sessions.RemovedIsGone` | src/net/network/sessionManager.cpp:32-39 | a removed session takes its connection with it, and nothing else |
| `Sessions.SeatedAndLost` | src/net/network/sessionManager.cpp:76-90 | who holds which seat after a session is seated or lost |
| `Sessions.SessionManager.Add` | src/net/network/sessionManager.cpp:9-30 | a known connection is reactivated; any other gets a new session, a dangling entry being replaced |
| `Sessions.SessionManager.Remove` | src/net/network/sessionManager.cpp:32-39 | removes a session from both maps |
| `Sessions.SessionManager.GetConnectionIdBySeat` | src/net/network/sessionManager.cpp:57-66 | the connection of an active session in the seat, 0 when there is none |
| `Sessions.SessionManager.SetSeat` | src/net/network/sessionManager.cpp:76-82 | changes the seat of a known session only |
| `Sessions.SessionManager.SetDisconnected` | src/net/network/sessionManager.cpp:84-90 | deactivates a known session only |
| `Sessions.OperationKeepsInverse` | src/net/network/sessionManager.cpp:9-90 | every operation keeps the two maps inverse |
| `Sessions.MapsStayInverse` | src/net/network/sessionManager.cpp:9-115 | so does every sequence of operations that always leaves an id to give, from any first id and however often the ids go round |
| `Seating.NetworkServer.ProcessClientConnect` | src/net/network/server.cpp:182-194 | session, seat and player of a connecting client |
| `Seating.NetworkServer.ProcessClientDisconnect` | src/net/network/server.cpp:219-232 | the session goes inactive and its player leaves |
| `Seating.NetworkServer.FindFreeSeat` | src/net/network/server.cpp:238-246 | Black if no active session has it, else White likewise, else observer |
| `Seating.GameServer.OnClientConnected` | src/apps/runtime/gameServer.cpp:44-70 | who joins the game and when it is started and announced |
| `Seating.GameServer.OnClientDisconnected` | src/apps/runtime/gameServer.cpp:72-81 | erases one entry of the session and nothing else |
| `Seating.AcceptedClient` | src/net/network/server.cpp:182-194 | an accepted client gets a session of its own in the first colour's seat that no active session holds, Black before White, else observes; it plays that colour unless a game is played, and the second player starts the game |
| `Seating.LostClient` | src/net/network/server.cpp:219-232 | a lost connection leaves its session inactive, its seat free and the colour it played without a player, and all others as they were |
| `Seating.PlayersAreDistinct` | src/apps/runtime/gameServer.cpp:75-80 | where every player is seated no session plays both colours, so the order of the erasing loop makes no difference |
| `Seating.EveryServerRunIsGood` | src/net/network/server.cpp:182-246 | in every run of any length, wherever the id counters start: one active session per colour, every player seated, maps inverse, at most one announcement |
| `Seating.GameStartsWithTwoPlayers` | src/apps/runtime/gameServer.cpp:61-69 | the game is announced at most once, with its thread, and only with two distinct active sessions in the two seats |
| `Seating.NoGameIsWithheld` | src/apps/runtime/gameServer.cpp:44-70 | while a running server has no game, whoever holds a colour's seat plays it and the two seats are never both held |
| `Seating.NetworkServer.ProcessClientMessage` | src/net/network/server.cpp:196-217 | what a message becomes: nothing unless it decodes and the session has a colour, an event if the game is active, a line in the chat at any time |
| `Seating.MovesReachTheGame` | src/apps/runtime/gameServer.cpp:83-156 | the game is given an event exactly when it is played and a message from the seat of that colour asks for it |
| `Seating.GameServer.OnNetworkEvent` | src/apps/runtime/gameServer.cpp:83-156 | puts, passes and resignations of a seated player reach an active game under that player's colour, and chat the log |
| `Seating.OneVoicePerColour` | src/net/network/server.cpp:196-217 | at most one active connection can put, pass or resign for a colour |
| `Seating.ReconnectIsSafeExactly` | src/net/network/server.cpp:182-194 | after a repeated connect the seats stay single, and the players still sit in them if and only if the session played no colour |
| `Seating.ReconnectSeatsOneSessionTwice` | src/net/network/server.cpp:182-194 | the handler, called again for the connection of a waiting server's only player, makes its session both players and starts the game |
| `ServerGame.DeltasAnswerEvents` | src/game/core/game.cpp:47-134 | the deltas of a game answer events of its queue, in order |
| `ServerGame.EveryEventComesFromAMessage` | src/apps/runtime/gameServer.cpp:83-156 | the queue holds, in order and once each, exactly the puts, passes and resignations that messages of seated sessions ask of a game being played, and the shutdowns of its stops |
| `ServerGame.SystemServerIsGood` | src/apps/runtime/gameServer.cpp:30-70 | with messages and the game running along, seats, sessions and players stay good |
| `ServerGame.EveryLossIsKnown` | src/net/network/server.cpp:219-232 | in every run a session is inactive if and only if its connection was lost |
| `ServerGame.EverySenderHolds` | src/net/network/server.cpp:196-217 | when no message follows the loss of its connection, whoever speaks for a colour is the one active session in its seat |
| `ServerGame.EveryDeltaAnswersAMessage` | src/apps/runtime/gameServer.cpp:83-156 | in every run of the whole server each delta answers a message, in order; the sender of a put or pass then held the seat of the colour the delta names, and in an orderly run alone |
| `ServerGame.EveryLineIsAMessage` | src/apps/runtime/gameServer.cpp:83-96 | in every run the chat holds, in order and once each, exactly the chat messages that reach a running server from seated sessions |
| `ServerGame.EveryChatLineAnswersAMessage` | src/apps/runtime/gameServer.cpp:158-161 | in every run the broadcast chat has the ids 1, 2, 3, ... and answers exactly those messages, in order and under the colour of the sender's seat, held alone in an orderly run |
| `ServerPlay.ThreadKeepsStep` | src/game/core/game.cpp:29-41 | in every run the game is active while its thread is in the loop and over when the thread has left it |
| `ServerPlay.TheQueueIsPlayed` | src/game/core/game.cpp:29-37 | once the thread has taken as many events as are queued, the game is the one the whole queue gives |
| `ServerPlay.NothingHappensAfterTheStop` | src/apps/runtime/gameServer.cpp:30-42 | a stop ends the game after all that is queued and clears the players, and no later step changes anything |
| `ServerPlay.OpeningSeatsTwo` | src/apps/runtime/gameServer.cpp:20-70 | a server that starts gives its first two clients Black and White, announces the game once and plays it |
| `ServerPlay.TwoClientsPlayAnyGame` | src/apps/runtime/gameServer.cpp:44-156 | any game of puts, passes and resignations is played over the server by two clients, message by message |

## Left out

- `src/vision` and `tools/visionTuner`: floating-point image processing.
- The Qt interface, the terminal program and the server's entry point: presentation and input only.
- Sockets and the transport (`src/net/core`, the read thread of `src/net/network/client.cpp`): replaced by arbitrary delivery.
- JSON text: the model starts from JSON trees; `komi` is an opaque number.
- Threads, mutexes, queues and joins: every handler is one atomic step over a sequence of events.
- Signals, listener lists and logging: no state of the game depends on them.
- SGF coordinates: not part of this model. The loop of `initRandomTable` and its generator: the key table is arbitrary, the
  drawn keys of one line are premises.
- `Server::broadcast` and `send`: who receives a message is replaced by arbitrary delivery.
- GameServer::start and stop: steps of the state machine (`Seating.Next`, `ServerGame.SystemNext`), without methods of
  their own.
- The wrap-around of connection ids, move ids and message ids: statements over runs ask that the next connection id is
  still below 2^32; move and message ids are naturals.
- NeighbourAt: does not model the cast of coordinates of 2^31 and more, which no point of a board has.
