# Bomberrobots: a verified model

A Dafny model of the Bomberrobots server and client, with proofs about whole games. The server is a
state machine over its own loop; its turn log, the bytes it sends and the client that replays them are
modelled beside it, and the main results say how the four agree.

The project has two layers. The value layer (`GameSpec.dfy`, `Wire.dfy`, `Replica.dfy`,
`ClientMessages.dfy`) states each operation as a function, and everything about whole runs is proved of
those functions. The object layer (`GameEngine.dfy`, `TcpHandler.dfy`, `ByteParser.dfy`,
`RobotsClient.dfy`, `ChunkedReads.dfy`) is the program in its own form: classes whose fields are updated
in place, loops over containers, cursors over buffers. Each of its methods is proved to compute the
function of the value layer, and what these functions do is proved in terms of the rules, the draws and
the bytes themselves (`Effects.dfy`, `Seeding.dfy`, `Layout.dfy`). So `Engine.ManageConnections` never
leaves the reachable states of the machine and goes exactly where the reported rounds lead, and
`RobotsClient.MirrorServer` carries the end-to-end result to the objects.

| file | content |
|---|---|
| `Types.dfy` | values with their widths; iteration order of maps and sets |
| `Blast.dfy` | what one explosion reaches: the four arms, and the same thing as plane geometry |
| `GameSpec.dfy` | the engine's operations and the steps of its loop |
| `Invariant.dfy` | the domain invariant, kept by every step |
| `TurnLog.dfy` | what each operation writes to the log, loops in closed form |
| `Replay.dfy` | the meaning of events, and the log reproducing the state |
| `BombLife.dfy`, `Grammar.dfy`, `Scoring.dfy` | bombs, the shape of turns, scores and random draws, read off the log |
| `Effects.dfy`, `Seeding.dfy` | what each client message does, and which draw gives which cell, in terms of the rules alone |
| `Protocol.dfy`, `Listening.dfy` | message order, and observers and listeners of the message stream |
| `Runs.dfy`, `LaterGames.dfy` | all of these for every reachable state; later games as first games |
| `Wire.dfy`, `ClientMessages.dfy`, `Layout.dfy` | the byte format both ways, and every byte of it in numerals |
| `Replica.dfy`, `Sizes.dfy`, `Mirror.dfy` | the client as written, the sizes of what it is sent, and exactly when it survives and mirrors the server |
| `Positions.dfy` | where the client shows the robots |
| `Scripts.dfy`, `Failures.dfy` | rounds in which one thing happens; the failures do occur, each in rounds of a new server |
| `EngineLoops.dfy`, `Rounds.dfy`, `GameEngine.dfy`, `TcpHandler.dfy` | the server objects, their loops, and one round of the main loop |
| `ByteParser.dfy`, `RobotsClient.dfy`, `ChunkedReads.dfy` | the encoders, the client object, its buffered reads |
| `PositionOrder.dfy` | the ordering given to sets of positions, and the trees it keeps as sets |

Modelling choices. The random generator is any stream of 32-bit values with a cursor. What `poll`
reported in a round is an input: whether a client waits, and for each slot a failed read or the bytes of
one read. A sent message is an entry of an outgoing log, addressed to every slot or to one. Integers have
the source's widths and wrap where it wraps. An uncaught `std::out_of_range` is a crash outcome. An
uninitialised value is an arbitrary input. The ghost history of a server state (draws before the current
game, the turn each bomb was placed in, each turn's effective actions) is read by no step.
`Params.Valid` asks for what the code relies on: sides of at least 1 (game-engine.cpp:540), a radius below
65535 (`RadiusLoopEnds` shows why) and at least one player. A bomb timer of 0 is allowed: it wraps, and the
fuse is then 65536 turns.

Where the code does something other than its own rules or types suggest, the code is what is modelled:

- A new client is greeted in slot 1 whichever slot it was given, because game-engine.cpp:52 assigns the
  comparison: `GreetingMissesOtherSlots`, `NewcomerIsGreeted`, `GreetedInLobby`, `GreetedMidGame`. A client
  that was not greeted misses the players who joined before it, one greeted in mid-game has no scores at all,
  and both die when such a player is hit: `ClientSurvivesExactly`, `UngreetedCanDie`, `GreetingCanKill`.
- An action from a slot that joined before the game starts crashes the server (game-engine.cpp:423, 451,
  476), and nothing else does: `DiesOnlyInLobby`, `LobbyCrashIsReal`.
- The client never overwrites a robot's position (game-messages.h:185): `PositionsRight`, `StepIsLost`,
  `ShowsWhereSeeded`.
- A direction byte above 3 moves the robot to an uninitialised position (game-engine.cpp:492-496).
- The client's 16-bit and string reads go wrong when a value is split between buffers
  (robots-client.cpp:98, 143): `Reader.ReadUint16` and `Reader.ReadStr` state exactly when.
- Strings of 256 bytes or more are cut to the low byte of their length (byte-parser.cpp:32): `StringTrip`. Only
  the server's own name can be that long, so only greetings can go wrong: `SentBytesReadBack`.

In one place the model is simpler than the code. The ordering of positions compares x with y
(game-messages.cpp:4), and the sets of blocks, which the source keeps by that ordering, are mathematical
sets here. `SetsExactlyBands` says when the two agree: a `std::set` of positions, through any insertions,
erasures and lookups of cells of a set `z`, answers as the mathematical set if and only if `z` is `Banded`.
Only a board of one cell is (`BoardsAreNotOrdered`); on a board of one row such a set holds one block at
most, so that with two initial blocks on a board of 2x1 the log holds both and the server one
(`TwoBlocksAreOne`). The machine's steps look blocks up, so a run of the machine is a run of the program under
the condition that the block cells placed, destroyed and looked up in each game are banded, and every
result about runs is about such runs. The rows that speak of blocks themselves, or of blasts and steps
through them, are listed under "Left out".

## Model

| member | source | states |
|---|---|---|
| Blast.ArmsNeverWrap | game-engine.cpp:128-207 | a uint16_t arm never reaches the opposite edge: every cell it visits is at the plain integer displacement, because it stops at its first off-board cell |
| Blast.VisitedIsBlast | game-engine.cpp:113-209 | the cells the flag-driven loop visits are exactly those of the rules: the bomb's own, and unless that holds a block the on-board cells in its row or column within the radius with no block strictly between |
| Blast.ExplosionIsExact | game-engine.cpp:103-213 | a robot (or block) is in the emitted list if and only if it is in the blast |
| Blast.ExplosionLists | game-engine.cpp:113-211 | both lists are free of duplicates; at most four blocks, and exactly the bomb's own cell when that holds one |
| Blast.ExplosionOrder | game-engine.cpp:113-208 | both lists are in one order: nearest cells first, of equally near ones the one below, above, left, right of the bomb, and robots of one cell by id |
| Blast.RadiusLoopEnds | game-engine.cpp:128 | the uint16_t counter of the radius loop, started at 1 and incremented with wrap-around, leaves the loop if and only if the radius is not 65535, and then after exactly `radius` turns |
| TurnLog.ExplosionOrderIrrelevant | game-engine.cpp:80-87 | expiring bombs processed in any two orders destroy the same robots and the same blocks |
| TurnLog.BeginTurnIsExact | game-engine.cpp:76-101 | after begin_turn exactly the blocks outside every expiring bomb's blast on the earlier board remain, exactly the robots inside one are to be destroyed, and exactly the expiring bombs are gone |
| TurnLog.BeginTurnLog | game-engine.cpp:76-101 | begin_turn adds one turn whose events are the expiring bombs' explosions in ascending id, all computed on the board before it, and changes nothing else |
| TurnLog.StartGameplayLog | game-engine.cpp:515-569 | turn 0 in closed form: one move per player in ascending id and then the initial blocks, with nothing else of the state changed but the draws and the announcement (the cells are the subject of `StartIsDealt`) |
| TurnLog.CloseTurnLog | game-engine.cpp:215-227 | the loop over the destroyed players in closed form: one move each in ascending id, one point each, both pending collections emptied, the turn sent, nothing else changed (the cells are the subject of `CloseIsDealt`) |
| Seeding.StartIsDealt | game-engine.cpp:515-569 | turn 0 is one move per player in ascending id and then the initial blocks; the k-th of these cells has x from draw 2k and y from draw 2k+1 of the rest of the stream, and the robots and blocks are there |
| Seeding.CloseIsDealt | game-engine.cpp:215-220 | a turn ends with one move per robot hit in ascending id; the k-th cell has x from draw 2k and y from draw 2k+1, these robots are there and the others stay |
| Seeding.EveryCellIsDealt | game-engine.cpp:539-569 | in every run the cells dealt out in a game, in the order of the log, are the pairs of draws since the game before it, in order and without a gap |
| TurnLog.HandleLog | game-engine.cpp:403-505 | during play a message either changes nothing at all, history included, or writes exactly one event (which of the two is the subject of `EveryActionIsRuled`) |
| Invariant.InvNext | game-engine.cpp:30-74 | every step keeps the domain invariant: dense player ids, scores of exactly the players, injective slots, all positions known during play, turns numbered from 0, everything on the board, the idle state outside a game; and the only failing lookup is an action sent to a lobby |
| Effects.EveryJoinEnters | game-engine.cpp:378-401 | in every run a Join sent to the lobby makes the next id a player with the name sent and the address recorded for the slot, and the slot its own, score 0; all others are kept; this player is announced to everybody, and the game starts, and is announced, exactly with the last one |
| Effects.EveryPlayerJoined | game-engine.cpp:386-396 | every player of every run is there by a Join of that run, with the name it carried, the address of its slot, and no other slot |
| Effects.MoveTakesEffect | game-engine.cpp:459-513 | a Move takes a live robot to the cell beside it, up, right, down or left as numbered 0 to 3, if that is on the board and holds no block, and logs this; otherwise, and for a slot without a player or with a robot hit this turn, nothing changes; a direction above 3 goes to the uninitialised cell |
| Effects.BombTakesEffect | game-engine.cpp:403-432 | a Place_bomb takes effect if and only if the slot has a player whose robot was not hit this turn: a bomb under the robot with the next id and the whole timer, and its event |
| Effects.BlockTakesEffect | game-engine.cpp:434-457 | a Place_block takes effect under the same condition: a block under the robot, and its event |
| Effects.EveryActionIsRuled | game-engine.cpp:403-513 | in every run a message in play writes exactly the event the rules give it and does to the board what that event means, or, if they give it none, changes nothing |
| Replay.ExplosionsTwice | game-engine.cpp:347-351 | replaying a turn's explosions and then the whole turn that starts with them is replaying the turn once |
| Replay.BeginTurnMirrors | game-engine.cpp:76-101 | the log still reproduces the live state after begin_turn, although destruction is deferred and destroyed robots keep stale positions |
| Replay.HandleMirrors | game-engine.cpp:378-505 | the log still reproduces the live state after any client message |
| Replay.CloseTurnMirrors | game-engine.cpp:215-227 | after the respawns the log reproduces positions, blocks and bombs exactly |
| Runs.EverythingHolds | game-engine.cpp:30-74 | every reachable state satisfies all the invariants at once: domains, board, log, bombs, grammar, tallies and conversation |
| Runs.DiesOnlyInLobby | game-engine.cpp:378-505 | in every reachable state the loop can go on, and a step kills the server if and only if it is an action, before the game has started, from a slot that has joined |
| Runs.LogReproducesState | game-engine.cpp:215-231 | in every run, at the end of every turn, folding the whole log by the protocol's meaning of each event gives exactly the server's positions, blocks and bombs |
| Runs.EveryTurnHasItsShape | game-engine.cpp:57-71 | every finished turn is its opening (explosions in ascending id of bombs live before the turn, each listing exactly the robots and blocks in its blast on the board before the turn, nearest first, none twice, at most four blocks and only the bomb's own cell when that holds one), then actions by distinct players none of whom was hit, each explained by its message and the board it acted on (a step goes one cell onto a free cell of the board), then one respawn per destroyed player in ascending id |
| Grammar.BlastIsDetermined | game-engine.cpp:103-213 | so the board before a turn determines each of its explosions, to the order of the lists |
| Runs.BombStory | game-engine.cpp:80-95 | a placed bomb has one placement, exactly one explosion, one fuse later, if the game gets there, is live exactly until then, and its timer counts the turns since |
| Runs.BombBounds | game-engine.cpp:420-430 | every explosion has one placement one fuse earlier; at most 25 ids per turn so the 32-bit id never wraps; at most 25 live bombs per turn played and per turn of fuse |
| Runs.ScoresInEveryRun | game-engine.cpp:217-220 | a score is the number of turns that hit the player, at most the current turn; a client counting explosions counts at least as many, equal if and only if no turn hit the player twice |
| Runs.DrawsAreConserved | game-engine.cpp:539-569 | the draws of the current game are two per player, per initial block and per point scored |
| Runs.BroadcastsFollowProtocol | game-engine.cpp:215-241 | everything broadcast in any run is accepted by an independent checker of the conversation: consecutive ids, a start with exactly the joined players, turns numbered 0 to game_length, then the final scores |
| Runs.EmptyLobbyIsFresh | game-engine.cpp:240-251 | with nobody joined, every field equals its fresh value, the generator and the sent messages apart |
| Runs.ObserversMirror | game-engine.cpp:222-224 | applying the events of what any slot is sent, from any lobby on, gives the server's positions, blocks and bombs after every turn |
| Runs.LateJoinerMirrors | game-engine.cpp:35-55 | a greeting in mid-round (past turns and the explosions of the current one) followed by anything later gives the server's board at the end of every turn |
| LaterGames.LaterGamesAreFirstGames | game-engine.cpp:233-254 | from an empty lobby after any number of games the same steps lead to exactly the states a fresh server on the rest of the random stream is led to, moved along the stream, and kill the server exactly when they kill the fresh one |
| Protocol.GreetingBringsIntoStep | game-engine.cpp:317-351 | whatever the greeted client knew, it is in step with the server at once |
| Protocol.GreetingMissesOtherSlots | game-engine.cpp:51-55 | a greeting sends nothing to any slot but the first |
| Listening.GreetingTells | game-engine.cpp:297-376 | a greeting is the server's parameters field by field and then the players joined in order of id, or the players of the game and its log so far |
| Listening.GreetedHearsEverything | game-engine.cpp:35-71 | from a greeting on, whatever it knew, a listener in the greeted slot is never told anything out of order, and after every finished turn has the server's players and its whole log, in a lobby exactly who has joined |
| Listening.FirstComersHearEverything | game-engine.cpp:35-71 | so has a listener in any slot that is there from the start of the server |
| TcpHandling.NewcomerIsGreeted | game-engine.cpp:52 | the client just accepted is the one greeted if and only if slot 1 was free |
| TcpHandling.FreeFromIsLowest | server-tcp-handler.cpp:90-101 | the search returns the lowest free slot, or fails if and only if all are taken |
| Scripts.TwentyFiveAreAdmitted | server-tcp-handler.cpp:85-121 | of clients that connect one after another to a new server the first 25 get slots 1 to 25, and no later one any |
| Wire.StringTrip | byte-parser.cpp:29-37 | a string survives encoding and decoding if and only if it is shorter than 256 bytes |
| Wire.ListTrip | byte-parser.cpp:151-173 | lists of any decodable elements below 2^32 round-trip and consume exactly their bytes |
| Wire.MapTrip | byte-parser.cpp:103-149 | maps keyed by player id round-trip and consume exactly their bytes |
| Wire.EventTrip | event.cpp:3-42 | an event round-trips, whatever follows it, if and only if its lists are shorter than 2^32 |
| Wire.MessageTrip | robots-client.cpp:292-336 | a server message round-trips, whatever follows it, if and only if the length fields can carry it |
| Wire.StreamTrip | robots-client.cpp:375-404 | any list of messages, concatenated, decodes to the same list with nothing left over if and only if the length fields can carry every one of them |
| Layout.EventLayout | event.cpp:3-42 | the bytes of every event in numerals: codes 0 to 3, ids and lengths most significant byte first, x before y |
| Layout.MessageLayout | game-engine.cpp:297-362 | the bytes of every server message in numerals: codes 0 to 4, the fields of Hello and AcceptedPlayer in order, a turn's number, count and events, map sizes and entries in ascending id |
| Layout.ClientLayout | robots-client.cpp:559-594 | the bytes of every client message: codes 0 to 3, the name's length and bytes, the direction |
| Layout.EventDecoder | robots-client.cpp:256-282 | an event is read exactly where its bytes stand, and nothing from an empty stream or a first byte above 3 |
| Layout.MessageDecoder | robots-client.cpp:375-404 | nothing is read from an empty stream or a first byte above 4, every encoding is read, and a message without a map is read only where its bytes stand |
| Layout.FirstEntryCounts | robots-client.cpp:167-195 | of two entries of a map for one player the first counts |
| ClientMessages.ParseOneIsExact | game-engine.cpp:264-287 | one turn of the parsing loop recognises a message if and only if its encoding stands there, and always uses up some bytes |
| ClientMessages.BufferMeaning | game-engine.cpp:256-295 | a buffer is accepted, and `m` applied, if and only if it is a nonempty sequence of whole messages ending in `m` |
| Replica.TurnApplies | robots-client.cpp:221-290 | a client gets through a turn if and only if every robot destroyed in it has a score, and then has the turn's blocks and bombs, every bomb with the whole timer if all had it before, and one point more per explosion listing the player, and nothing else changed |
| Replica.BombIsStored | game-messages.h:161-164 | a bomb placed under a new id is stored with its cell and the game's timer |
| Replica.PositionsRight | game-messages.h:183-186 | an event leaves the client's positions right if and only if it moves no robot that already stands elsewhere |
| Replica.StepIsLost | game-messages.h:183-186 | two moves of one robot after which the client holds the first cell |
| Positions.ShowsWhereSeeded | game-messages.h:183-186 | after every finished turn of a run it survives from a lobby on, a client in any slot shows exactly the server's robots, each on the cell where it last started or respawned, and so shows them right if and only if all of them stand there |
| Positions.ShownExactly | robots-client.cpp:233-248 | in any log of finished turns, what the client makes of the moves and explosions is each robot's first move of turn 0, or where the last turn that hit it left it |
| Sizes.SentBytesReadBack | robots-client.cpp:375-404 | what a reachable server has sent to a slot since any point decodes from its bytes to the same messages with nothing left over if and only if it holds no Hello whose server name has 256 bytes or more; no other message is ever too long |
| Mirror.HearsExactly | robots-client.cpp:221-373 | any client survives any messages if and only if every turn among them hits only players that the messages before it gave it a score for, and then has the board the messages describe |
| Mirror.ClientSurvivesExactly | robots-client.cpp:221-373 | any client in any slot survives any run of a reachable server if and only if the run destroys, at the end of a turn, no player the client misses at that point and greets its slot in mid-game only when nobody has been hit |
| Mirror.SurvivorMirrors | robots-client.cpp:221-373 | a client that survives a run from any lobby has the server's blocks and bombs after every finished turn, scores that count explosions and are never below the server's, and lacks the scores of exactly the players it misses |
| Mirror.ClientMirrorsServer | robots-client.cpp:221-373 | in particular a client that knows everyone in its lobby, and whose slot is not greeted in mid-game, survives any number of games with the server's blocks and bombs and a score for exactly the server's players |
| Mirror.SurvivorIsCurrent | robots-client.cpp:221-373 | a client that survives a run from any lobby is in no lobby in a game, at the last finished turn, and has exactly the server's bombs, each with its cell and the timer its game began with; if it had the server's parameters and knew the players rightly, it still does |
| Mirror.GreetedKnowsTheServer | robots-client.cpp:292-373 | a greeted client, whatever it held, has as long as it lives the server's parameters, knows players only by their names and addresses, and is in its lobby exactly when the server is |
| Mirror.GreetedHoldsTheGame | robots-client.cpp:221-373 | and after every finished turn it has the turn's number, the server's blocks and exactly its bombs, each with its cell and the server's bomb timer |
| Failures.UngreetedSurvivesExactly | game-engine.cpp:51-55 | a client in any slot but the first survives its first game if and only if no finished turn of that game hits a player who had joined before it came and whom it does not know |
| Failures.UngreetedCanDie | game-engine.cpp:51-55 | rounds of a new server in which a second client connects and then every client in its slot that knows no players is killed by the first player's being hit |
| Failures.GreetingCanKill | game-engine.cpp:317-351 | rounds of a new server after which a third client's connecting in mid-game kills whatever client is in slot 1 |
| Failures.LobbyCrashIsReal | game-engine.cpp:403-505 | some rounds of a new server, from all slots closed, crash it if and only if the game needs at least two players |
| Mirror.GreetedInLobby | game-engine.cpp:317-326 | a client greeted in the lobby, whatever it held, ends up with the server's parameters and exactly the joined players |
| Mirror.GreetedMidGame | robots-client.cpp:292-326 | a client greeted in mid-game survives if and only if no explosion so far hit a robot, and then has the blocks and bombs of the log |
| PositionOrder.OrdersExactlyBands | game-messages.cpp:3-5 | the comparison orders a set of positions if and only if no cell is above the diagonal and the columns do not overlap read as intervals y..x |
| PositionOrder.TwoRowsAreNotOrdered | game-messages.cpp:3-5 | it orders no set that contains the cell (0, 1) |
| PositionOrder.HoldsTheSet | game-messages.cpp:3-5 | while each cell inserted, erased or looked up is banded with those in the set, the search tree by this comparison, however it is rebalanced, holds exactly the mathematical set |
| PositionOrder.SetsExactlyBands | game-messages.cpp:3-5 | the tree answers every lookup as the mathematical set in all histories over the cells of `z` if and only if `z` is banded |
| PositionOrder.BoardsAreNotOrdered | game-messages.cpp:3-5 | so it does over all cells of a board if and only if the board has one cell |
| PositionOrder.OneRowKeepsOneBlock | game-engine.cpp:557-569 | on a board of one row a second block is not inserted, is found, and takes the first away when it is destroyed |
| PositionOrder.TwoBlocksAreOne | game-engine.cpp:557-569 | two initial blocks on a board of 2x1, both logged, of which the server's set keeps the first |
| Rounds.StartStep | game-engine.cpp:35-39 | the head of the loop is the StartRound step: begin_turn if a game is on, with room in the turn counter |
| Rounds.ReceiveStep | game-engine.cpp:57-64 | handling a message is a Receive step, or kills the server with it |
| Rounds.WholeMessagesStay | server-tcp-handler.cpp:127-150 | after a round a client still holds its slot if and only if it sent nothing or whole messages only |
| Rounds.EndStep | game-engine.cpp:69-71 | the end of the loop body is EndRound, and Continue after a summarised turn |
| Rounds.DeathIsProvoked | game-engine.cpp:403-505 | steps taken from a reachable server kill it if and only if the run itself comes to a step that is an action, before the game has started, from a slot that has joined |
| Rounds.RoundsAreAlive | game-engine.cpp:31-71 | rounds that lead somewhere come to no lobby action on the way |
| GameEngine.Engine.constructor | game-engine.h:164-171 | a new engine is the initial state |
| GameEngine.Engine.HitCell | game-engine.cpp:113-118 | appends the robots on a cell in ascending id and marks exactly them |
| GameEngine.Engine.ProbeArm | game-engine.cpp:129-147 | one step of an arm: its flag stays set if and only if the arm is still open; lists and marks are those of the cell it reached |
| GameEngine.Engine.ProbeRing | game-engine.cpp:128-208 | one round of the four arms in the source's order |
| GameEngine.Engine.ProbeArms | game-engine.cpp:124-209 | the whole loop over the radius lists and marks exactly what stands on the visited cells |
| GameEngine.Engine.HandleExplosion | game-engine.cpp:103-213 | marks what the explosion reaches and logs it in the current turn, removing nothing |
| GameEngine.Engine.TickBombs | game-engine.cpp:80-87 | ticking and exploding in one pass is ticking all bombs and exploding the expired ones in ascending id |
| GameEngine.Engine.EraseBombs | game-engine.cpp:89-95 | the erasing iteration removes exactly the bombs at zero |
| GameEngine.Engine.EraseBlocks | game-engine.cpp:97-100 | removes exactly the listed blocks |
| GameEngine.Engine.BeginTurn | game-engine.cpp:76-101 | the object's whole new state is that of the begin_turn function |
| GameEngine.Engine.SeedPlayer | game-engine.cpp:539-549 | draws x, then y, logs the move and places the robot |
| GameEngine.Engine.SeedPlayers | game-engine.cpp:551-555 | seeds every player in ascending id |
| GameEngine.Engine.SeedBlocks | game-engine.cpp:557-569 | draws, logs in turn 0 and places each initial block |
| GameEngine.Engine.StartGameplay | game-engine.cpp:515-527 | opens turn 0, announces the game, seeds robots and then blocks |
| GameEngine.Engine.HandleJoin | game-engine.cpp:378-401 | ignored during a game; otherwise adds the player and starts the game when the last one joins |
| GameEngine.Engine.HandlePlaceBomb | game-engine.cpp:403-432 | new state of a Place_bomb; false exactly when a lookup throws |
| GameEngine.Engine.HandlePlaceBlock | game-engine.cpp:434-457 | new state of a Place_block; false exactly when a lookup throws |
| GameEngine.Engine.HandleMove | game-engine.cpp:459-505 | new state of a Move; false exactly when a lookup throws |
| GameEngine.Engine.RespawnDestroyed | game-engine.cpp:216-220 | scores and reseeds each destroyed player in ascending id |
| GameEngine.Engine.SummariseTurn | game-engine.cpp:215-231 | closes the turn, and ends the game after turn game_length |
| GameEngine.Engine.EndGameplay | game-engine.cpp:233-254 | sends the scores and resets every field but the pending collections, the generator and the messages |
| GameEngine.Engine.GreetSlot | game-engine.cpp:297-376 | sends Hello and then the lobby's players, or the game so far |
| GameEngine.Engine.HandleMsg | game-engine.cpp:256-295 | the status tells failed, ended, malformed and handled reads apart; only a fully parsed buffer changes the game, by its last message |
| GameEngine.Engine.SendGreeting | game-engine.cpp:51-55 | a waiting client gets the lowest free slot, if any, and then slot 1 is greeted |
| GameEngine.Engine.ReceiveAll | game-engine.cpp:57-64 | the loop over the slots takes exactly the Receive steps the reads call for, in slot order, and disconnects exactly the clients whose bytes were no message |
| GameEngine.Engine.PlayRound | game-engine.cpp:31-71 | one iteration of the loop leads the object exactly where the machine's steps for what poll reported lead, with exactly the slots open that the round leaves open; it survives if and only if none of those steps kills the machine |
| GameEngine.Engine.ManageConnections | game-engine.cpp:30-74 | over any rounds the object ends in the state and with the slot table that these rounds, one after another, lead to; it survives if and only if no round, reached through those before it, comes to a lobby action |
| TcpHandling.TcpHandler.AcceptClient | server-tcp-handler.cpp:85-121 | takes the lowest free slot, or none if all are taken; afterwards slot 1 is open |
| TcpHandling.TcpHandler.ReportMsgStatus | server-tcp-handler.cpp:127-150 | frees the slot unless the message was handled |
| TcpHandling.TcpHandler.ReadFrom | server-tcp-handler.cpp:152-164 | the cursor stands before exactly the bytes read, and the status says which kind of read it was |
| TcpHandling.TcpHandler.ReadUint8 | server-tcp-handler.cpp:172-180 | agrees with the decoder of a byte, failing when none is left |
| TcpHandling.TcpHandler.ReadStr | server-tcp-handler.cpp:182-194 | agrees with the decoder of a string, failing when it is cut short |
| TcpHandling.TcpHandler.ReadMessage | game-engine.cpp:264-287 | agrees with one turn of the parsing loop |
| ByteParser.Uint32ToBytes | byte-parser.cpp:19-27 | four truncated shifts give the big-endian bytes |
| ByteParser.StringToBytes | byte-parser.cpp:29-37 | the low byte of the length, then the bytes |
| ByteParser.PlayerMapToBytes | byte-parser.cpp:103-117 | size and then entries in ascending id |
| ByteParser.ScoreMapToBytes | byte-parser.cpp:135-149 | size and then entries in ascending id |
| ByteParser.Uint8ListToBytes | byte-parser.cpp:151-161 | length and then the elements in order |
| ByteParser.PositionListToBytes | byte-parser.cpp:163-173 | length and then the elements in order |
| ByteParser.EventToBytes | event.cpp:3-42 | each event's code and fields |
| ByteParser.TurnToBytes | event.cpp:44-57 | the Turn message of the protocol, its events in order |
| ByteParser.MessageToBytes | game-engine.cpp:297-376 | a server message's bytes, which its decoder reads back to the same message if and only if the length fields can carry it |
| ByteParser.ClientMessageToBytes | robots-client.cpp:559-594 | a client message's bytes, which the server accepts as that message |
| RobotsClient.ForgetStrangers | game-messages.cpp:22-26 | erases while iterating, so it is defined if and only if every score given is a player's, and then erases nothing |
| RobotsClient.StartMissing | game-messages.cpp:28-32 | exactly the players have scores, those without one 0 |
| RobotsClient.GameRecord.Renew | game-messages.cpp:15-33 | the record of a new game, if no stranger's score is given; undefined otherwise |
| RobotsClient.GameRecord.DestroyPlayers | robots-client.cpp:233-235 | takes each robot off the board and adds one point; fails if and only if some robot has no score |
| RobotsClient.GameRecord.RemoveBlocks | robots-client.cpp:238-240 | removes exactly the listed blocks, in any order |
| RobotsClient.RobotsClient.ReadPlayersMap | robots-client.cpp:167-180 | agrees with the map decoder |
| RobotsClient.RobotsClient.ReadScoresMap | robots-client.cpp:182-195 | agrees with the map decoder |
| RobotsClient.RobotsClient.ReadPlayerIdList | robots-client.cpp:197-206 | the set of the elements of the decoded list |
| RobotsClient.RobotsClient.ReadPositionList | robots-client.cpp:208-219 | the set of the elements of the decoded list |
| RobotsClient.RobotsClient.BombExplodedRead | robots-client.cpp:228-241 | reading and applying piece by piece is decoding the event and then applying it |
| RobotsClient.RobotsClient.EventRead | robots-client.cpp:256-282 | the same for every event; fails on an unknown code |
| RobotsClient.RobotsClient.EventListRead | robots-client.cpp:284-290 | the same for a whole list, each event taking effect as soon as it is read |
| RobotsClient.RobotsClient.HandleServerMessage | robots-client.cpp:375-404 | reading and applying one message is decoding it and then hearing it; fails exactly when one of the two does |
| RobotsClient.RobotsClient.HandleServerMessages | robots-client.cpp:606-610 | the same for any number of messages, using exactly their bytes |
| RobotsClient.RobotsClient.MirrorServer | robots-client.cpp:606-610 | the client object, fed the bytes of what a server sends its slot in any run, survives, unless that holds a greeting with a name of 256 bytes or more, if and only if the run destroys no player it misses, then uses all the bytes, and from a lobby on holds, after every finished turn, the turn's number, the server's blocks and bombs, these with the timer its game began with, scores no lower than the server's and every robot on the cell where it last started or respawned |
| ChunkedReads.StringReadRight | robots-client.cpp:140-147 | the loop takes exactly the next `n` bytes if and only if the string ends inside its first buffer or where some buffer ends |
| ChunkedReads.Reader.ReadUint8 | robots-client.cpp:76-82 | agrees with the contiguous stream however it is split |
| ChunkedReads.Reader.ReadUint16 | robots-client.cpp:84-109 | agrees with the contiguous stream if and only if the value is not split |
| ChunkedReads.Reader.ReadUint32 | robots-client.cpp:111-133 | agrees with the contiguous stream however it is split |
| ChunkedReads.Reader.ReadStr | robots-client.cpp:135-150 | agrees with the contiguous stream if and only if the buffers held before the call, less the length byte, are aligned with the string, or the stream is too short for it |

## Left out

- Sockets, `poll`, `accept`, `send`, signals, sleeping, printing and shutdown: foreign calls; their results are inputs, and a failing `accept` or `send` is not modelled.
- Command-line and address parsing (server-parser.cpp, client-parser.cpp): the parsed values are parameters.
- The arithmetic of the random generator (random.h): any stream stands for it.
- Client threads, the race on `is_lobby_status`, the GUI socket and the choice of what to send on a GUI message (robots-client.cpp:518-556).
- The draw-message encoders (robots-client.cpp:420-490) and the encoders only they use: more instances of the same encoders, with no decoder in the repository.
- The table of client addresses (server-tcp-handler.cpp:107-118): the address recorded for a slot is an input of its Join.
- Sets of positions are mathematical sets: what a `std::set` does with cells that are not banded is stated in `PositionOrder` and not carried through the other modules. The rows that turn on blocks hold of the program while the block cells used since the game began are banded:
- Blast.VisitedIsBlast: the lookups in the set of blocks are memberships.
- Blast.ExplosionIsExact: the same lookups.
- TurnLog.BeginTurnIsExact: the blocks that remain are those of a mathematical set.
- TurnLog.ExplosionOrderIrrelevant: the blasts are those of a mathematical set of blocks.
- Replay.BeginTurnMirrors: the live blocks are a mathematical set.
- Replay.HandleMirrors: the live blocks are a mathematical set.
- Replay.CloseTurnMirrors: the live blocks are a mathematical set.
- Runs.LogReproducesState: the server's blocks are those of a mathematical set.
- Runs.EveryTurnHasItsShape: blasts, blocks listed and free cells are those of a mathematical set.
- Runs.ObserversMirror: the server's blocks are a mathematical set.
- Runs.LateJoinerMirrors: the server's blocks are a mathematical set, and it speaks of an observer applying events by the protocol's meaning; for the client as written the answer is `GreetedMidGame` and `ClientSurvivesExactly`, with their conditions.
- Effects.MoveTakesEffect: whether the cell is free is looked up in a mathematical set.
- Effects.BlockTakesEffect: inserts into a mathematical set.
- Effects.EveryActionIsRuled: the same lookups and insertions.
- Seeding.StartIsDealt: the blocks are a mathematical set.
- Mirror.SurvivorIsCurrent: rests on the server's blasts, which look blocks up.
- Mirror.GreetedHoldsTheGame: blocks on both sides are mathematical sets.
- Replica.TurnApplies: the client's blocks are a mathematical set.
- Mirror.HearsExactly: its board is a mathematical set; survival does not depend on it.
- Mirror.SurvivorMirrors: blocks on both sides are mathematical sets; positions are the subject of `ShowsWhereSeeded`.
- Mirror.ClientMirrorsServer: blocks on both sides are mathematical sets.
- Mirror.GreetedMidGame: the blocks it has are a mathematical set.
- GameEngine.Engine.EraseBlocks: erases from a mathematical set.
- GameEngine.Engine.SeedBlocks: inserts into a mathematical set.
- GameEngine.Engine.HandlePlaceBlock: inserts into a mathematical set.
- GameEngine.Engine.HandleMove: looks its cell up in a mathematical set.
- GameEngine.Engine.ProbeArm: looks its cell up in a mathematical set.
- GameEngine.Engine.ManageConnections: its engine holds the blocks in a mathematical set.
- RobotsClient.GameRecord.RemoveBlocks: erases from a mathematical set.
- RobotsClient.RobotsClient.ReadPositionList: the set it returns is a mathematical set, where the source's drops a cell its comparison takes for another.
- RobotsClient.RobotsClient.MirrorServer: blocks on both sides are mathematical sets.
- Scores of strangers passed to the Game_info constructor: erasing while iterating is undefined, and `ForgetStrangers` says when that happens. The client only ever passes an empty map.
- The value of the client's `turn` before the first Turn message is uninitialised in the source; 0 stands for it and nothing depends on it.
- `Turn_info` and the events are values, not shared objects: the log is only ever appended to.
- RobotsClient.RobotsClient.HandleServerMessages: reads one contiguous stream, because a split value can already be misread by the primitives; `ChunkedReads` says when the primitives agree with that stream.
