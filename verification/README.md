# Verification of the Hnefatafl server

The server lets pairs of players play Hnefatafl over a line protocol. This project models its
three cores in Dafny and proves how they behave together.

**The game** (`Rules`, `RulesTheory`, `MoveTheory`, `Room`). `Rules` says declaratively what a legal move is,
what it captures and when it ends the game. `Room` is the game room on an 11 by 11 array updated
in place; each method is proved equal to the rules. `RulesTheory` proves what holds over whole
games: the board invariant, captures that do not depend on the order of directions, at most three
captures, the exact end of the game, and that a king already surrounded cannot be captured.

**The messages** (`Codec`, `MoveText`, `TextTheory`). The three patterns of the protocol are written as a
grammar, a recogniser and a leftmost, greedy scanner. Parsing and printing are inverses, the
format check accepts exactly the prints of lists of messages, and the router always finds the
value it takes from the queue.

**The session** (`Session`, `Passes`, `Protocol` and the theories above them; `Clients`,
`Lobbies`, `Manager` and `Servers` for the classes). `Session` gives the effect of every request,
ping, closing, reconnection, erasure and game start as a function on the whole server.
`Passes` composes them into one update pass and one ping round, each of which holds the mutex and
is one step. The classes, which update clients, rooms and vectors in place, are proved equal to
these functions, loop for loop. `Protocol` is the server seen from outside: the map from nick to
logical state and room, the tables, and the six kinds of events that change them. The logical
state of a client is its last state while it is pinged, lost or disconnected, and its state
otherwise. `RunTheory.SeenStep` says which events a step may bring about, by its kind and its
client; runs are proved to show the events of their steps and nothing else.

The main results:

- `RulesTheory.EveryGame`, `GameOverExactly`, `MaterialBalance`, `HemmedKingIsSafe`,
  `CapturesInAnyOrder`: the game. `MoveTheory.LegalExactly`, `CapturedExactly`, `BlackWinsExactly`,
  `KingReturns`: the same in terms of what stands on the squares.
- `Codec.PrintParse`, `ParsePrint`, `ValidExactly`, `MoveText.PlayfieldRoundTrip`,
  `TextTheory.ItemExactly`, `RequestExactly`: the messages.
- `RunTheory.EveryRun`: safety for every interleaving of ping rounds and update passes, and an
  exact account of what can be seen of them. `RunTheory.HiddenExactly` and `RoundHidden`: which
  steps nobody sees. `RequestTheory.HandleExactly` and `RequestEffect`: which requests are
  harmless, in both directions, and what they do. `TurnExactly` and `WinnerExactly`: whose move
  it is and who is told that he has won.
- `AlwaysTheory.AlwaysTidy`, `RoomsBalance`, `PassResult` and `VisitTheory.LoopVisits`: what
  holds however clients behave.
- `AcceptTheory.AcceptedExactly`, `NamedExactly`, `UsedNickExactly`: which requests are accepted
  in which state. `VisitTheory.LoopFair`: who loses the connection.
- `FailureTheory.RoundsDecide`, `FiveRounds`, `AnsweringIsSafe`: failure detection.
  `NamelessTheory.NamelessIsRemoved`: connections that never take a name.
- `PairTheory.PairingExactly`: who plays whom.

## Assumptions on the environment

`RunTheory.Polite` is the only assumption behind the session theorems. It is a condition on the
server before a step, and by `RunTheory.StepExactly` it is exact: a step that is not polite
follows an iterator to nothing or leaves the server in disorder.

- Ready, move and leave requests come when the logical state is in the lobby, on turn (or on
  stand, with a connected opponent), or playing. The router also lets them through in every
  pinged state.
- A pong comes when a ping is pending, or when restoring the last state does no harm.
- A connect request that names an existing nick does not name a ready client; if it names a
  disconnected one, the connection that sends it is not itself in a game; and if the owner of the
  nick is pinged or lost, the sender may be given its own last state back.
- A client evicted for lack of space is not in a game.

`AlwaysTheory`, `VisitTheory` and `PairTheory` do not need these assumptions; they only assume
that no step follows an iterator to nothing (`Session.Defined` and its companions).

The results on failure detection watch one client. `FailureTheory.Spares` adds that nobody else
takes over its name or evicts it, that its opponent does not move in its turn, that it does not
itself take another name, and that its connection is closed only if it was marked for that: it
does not hang up, its socket does not fail, and it sends nothing that is refused. Between two
ping rounds there is at least one update pass, and there may be any number.

The result on connections without a name (`NamelessTheory`) is for polite runs in which nothing
comes from the socket and the system does not hand out again a socket that is in use.

What a pass finds is an input: perhaps a new connection, and for each socket nothing, an error, a
hang-up, or one complete message.

## Where the code differs from what its comments say

Each case is a run from the empty server; `Scripts` has its turns, and `Duel` the game that is
played in some of them.

- `requestPong` is unconditional although the comment speaks of pongs after short inaccessibility:
  `Deviations.StrayPong`.
- The router's test for a pinged client accepts ready, move and leave whatever the client was
  doing before: `Deviations.ReadyWhilePlaying`, `MoveOutOfTurn`, `LeaveFromTheLobby`.
- The comment in `requestMove` that the winner made the last move is true of the player whose turn
  it was, not of the client that sent the move (`RequestTheory.WinnerExactly`,
  `Deviations.WinningForTheOther`).
- The last branch of `handleReconnection` is commented as the disconnected case, but a ready
  client also ends there: `Deviations.NameOfAReadyClient`. The comment that both instances are
  the same in the other branches holds exactly when the sender has the nick: otherwise the
  sender's own state is restored and not the owner's (`RequestTheory.OwnerRestoredExactly`,
  `Deviations.NickOfAPingedClient`).
- `eraseLongestDisconnectedClient` erases without destroying the room:
  `Deviations.EvictedFromAGame`. The comment in `sendToOpponentOf` that an opponent is always
  found relies on it.
- Most lookups are dereferenced without a test for the end of the vector. `Session.Defined` and
  its companions say when that is harmless.

## Model

| member | source | states |
|---|---|---|
| `RulesTheory.EveryGame` | src/game/RoomHnefatafl.cpp:25-35 | every position reachable from the start by any list of requested moves is, while the game is on, a board in order: exactly one king, throne on the centre exactly when the king is elsewhere, the corners exactly the escape squares, no warrior on a special square, a king without a free neighbour only beside the throne; at most 24 black and 12 white stones always |
| `RulesTheory.RunKeepsGameOk` | src/game/RoomHnefatafl.cpp:330-350 | the invariant holds over any run of moves from any game in order until the game is over, and neither side ever gains a stone |
| `RulesTheory.PlayKeepsOrder` | src/game/RoomHnefatafl.cpp:171-192 | one accepted move that does not end the game keeps every part of the board invariant |
| `RulesTheory.StartOk` | src/game/RoomHnefatafl.cpp:11-38 | the start position between two different players satisfies the invariant |
| `RulesTheory.StartBlack` | src/game/RoomHnefatafl.cpp:25-35 | black starts with exactly 24 stones |
| `RulesTheory.StartWhite` | src/game/RoomHnefatafl.cpp:25-35 | white starts with exactly 12 stones |
| `RulesTheory.HemmedKingIsSafe` | src/game/RoomHnefatafl.cpp:238-310 | a king that is already surrounded stands beside the throne, and no black move from such a position ends the game |
| `RulesTheory.ArrivingKing` | src/game/RoomHnefatafl.cpp:66-106 | a king that moves to a square where it is surrounded is beside the throne: the square behind it is empty or the throne |
| `RulesTheory.StayingKing` | src/game/RoomHnefatafl.cpp:273-310 | a king that did not move becomes surrounded only by a black stone landing next to it; captures never close a side |
| `RulesTheory.GameOverExactly` | src/game/RoomHnefatafl.cpp:171-192 | after a white move the game is over if and only if the king is on a corner; after a black move if and only if the moved stone is next to the king and the king, after captures, has no empty or white neighbour |
| `RulesTheory.OnlyKingDecides` | src/game/RoomHnefatafl.cpp:238-270 | with one king on the board the four overwriting assignments compute "some neighbour of the moved stone is a surrounded king", in both directions |
| `MoveTheory.LegalExactly` | src/game/RoomHnefatafl.cpp:66-153 | a move is legal if and only if it goes one or more squares in one direction over empty squares and the throne only, and is that of a warrior of the player on turn to an empty square, or in white's turn of the king to an empty square, the throne or an escape square |
| `MoveTheory.CapturedExactly` | src/game/RoomHnefatafl.cpp:195-235 | after a legal move of a warrior each neighbour of its square is empty if it held an enemy warrior with a stone of the mover's colour, the throne or an escape square behind it on the board before the move, and otherwise as it was |
| `MoveTheory.OthersStay` | src/game/RoomHnefatafl.cpp:195-235 | no other square changes in a move, and a king captures nothing |
| `MoveTheory.BlackWinsExactly` | src/game/RoomHnefatafl.cpp:238-310 | a black move ends the game if and only if the stone lands next to the king and then every neighbour of the king on the board is black, the throne or an escape square |
| `MoveTheory.StoneMayReturn` | src/game/RoomHnefatafl.cpp:121-153 | unless a king took a corner, the move straight back is legal for the same player |
| `MoveTheory.KingReturns` | src/game/RoomHnefatafl.cpp:121-168 | a king move that does not end the game can be taken back, onto the throne too, and that restores the whole board |
| `RulesTheory.KingMoves` | src/game/RoomHnefatafl.cpp:156-168 | after any legal move there is exactly one king, on the square it moved to or stayed on |
| `RulesTheory.SpecialFields` | src/game/RoomHnefatafl.cpp:156-168 | after a legal move throne shows on the centre exactly when the king is elsewhere, and escape squares are exactly the corners, unless the king has just taken one |
| `RequestTheory.TurnExactly` | src/network/ClientManager.cpp:66-71 | for every accepted move of a connected client: it is the one on turn in its room if and only if its own logical state says so, and otherwise it is the pinged player standing by |
| `RequestTheory.WinnerExactly` | src/network/ClientManager.cpp:288-291 | when an accepted move ends the game, the client told that it has won is the one that sent the move if and only if its logical state was on turn; it is the one told that it has lost if and only if it was standing by; the two are different stored clients |
| `RulesTheory.MaterialBalance` | src/game/RoomHnefatafl.cpp:195-220 | an accepted move captures at most three stones although four directions are checked; the mover keeps all stones and the opponent loses exactly the captured ones |
| `RulesTheory.NothingBehind` | src/game/RoomHnefatafl.cpp:66-106 | next to the square a stone landed on, towards its origin, there is always an empty square or the throne |
| `RulesTheory.CapturesInAnyOrder` | src/game/RoomHnefatafl.cpp:195-220 | checking directions one after the other on the changing board, in any order and with repetitions, removes exactly the warriors sandwiched on the board right after the move, and changes no other square |
| `RulesTheory.AllDirections` | src/game/RoomHnefatafl.cpp:195-220 | any enumeration of the four directions computes the simultaneous capture rule |
| `RulesTheory.StepsDoNotMeet` | src/game/RoomHnefatafl.cpp:195-220 | a capture in one direction never changes the verdict of another direction |
| `RulesTheory.PlaySquareBySquare` | src/game/RoomHnefatafl.cpp:156-220 | which field every single square holds after a legal move: target, vacated square, captured squares, all others unchanged; a legal move has different origin and destination |
| `RulesTheory.TurnsAlternate` | src/game/RoomHnefatafl.cpp:316-350 | over any list of requests black is on turn exactly after an even number of accepted moves |
| `RulesTheory.SwapKeepsTwo` | src/game/RoomHnefatafl.cpp:316-318 | the two players stay the same two players, and the turn stays if and only if the move was rejected |
| `RulesTheory.ClearOneMore` | src/game/RoomHnefatafl.cpp:66-106 | one step of the path scan: the path to the next square is clear if and only if it was clear so far and this square is passable, and an impassable square settles the whole path |
| `Room.StartRowsMatch` | src/game/RoomHnefatafl.cpp:25-35 | the start table of the source is, row by row, the position the rules describe symmetrically |
| `Room.RoomHnefatafl.constructor` | src/game/RoomHnefatafl.cpp:11-38 | a new room holds the start position with black on turn |
| `Room.RoomHnefatafl.IsFreePath` | src/game/RoomHnefatafl.cpp:66-106 | the mutating scan ends, stays on the board, and returns true if and only if every square strictly between is empty or throne |
| `Room.RoomHnefatafl.ParseMove` | src/game/RoomHnefatafl.cpp:112-118 | the four coordinate fields are those the text denotes |
| `Room.RoomHnefatafl.IsValidMove` | src/game/RoomHnefatafl.cpp:121-153 | true if and only if the coordinates are a legal move of the declarative rules, for any coordinates |
| `Room.RoomHnefatafl.Move` | src/game/RoomHnefatafl.cpp:156-168 | the array afterwards is the board with the stone relocated and throne or empty left behind |
| `Room.RoomHnefatafl.CaptureTowards` | src/game/RoomHnefatafl.cpp:195-220 | one in-place check equals one capture step of the rules |
| `Room.RoomHnefatafl.CheckCaptureWarrior` | src/game/RoomHnefatafl.cpp:195-220 | four sequential in-place checks equal the simultaneous removal of all sandwiched enemies |
| `Room.RoomHnefatafl.IsSurroundedKing` | src/game/RoomHnefatafl.cpp:273-310 | true if and only if no in-board neighbour is empty or white |
| `Room.RoomHnefatafl.IsCapturedKing` | src/game/RoomHnefatafl.cpp:238-270 | the overwriting assignments return the verdict of the last neighbour that holds a king |
| `Room.RoomHnefatafl.CheckCaptures` | src/game/RoomHnefatafl.cpp:171-192 | board and game state after captures and end-of-game test, by the colour of the moved stone |
| `Room.RoomHnefatafl.SwapPlayers` | src/game/RoomHnefatafl.cpp:316-318 | the two nicks are exchanged |
| `Room.RoomHnefatafl.ProcessMove` | src/game/RoomHnefatafl.cpp:330-350 | accepted if and only if legal; the room afterwards is the rules' successor game, and a rejected move changes nothing in it |
| `Room.RoomHnefatafl.GetPlayfieldString` | src/game/RoomHnefatafl.cpp:372-382 | the text is the encoding of the current board, row by row |
| `MoveText.MoveRoundTrip` | src/game/RoomHnefatafl.cpp:112-118 | reading four two-digit numbers inverts printing them, in both directions |
| `MoveText.MoveDigits` | src/game/RoomHnefatafl.cpp:112-118 | which digit of the eight stands for tens and units of which coordinate |
| `MoveText.PlayfieldRoundTrip` | src/game/RoomHnefatafl.cpp:372-382 | the board is recovered from its 121-digit text, so two boards never share one |
| `MoveText.PlayfieldDigits` | src/game/RoomHnefatafl.cpp:372-382 | the digit of the square in column x and row y is at place 11y + x, and it is the code of the field |
| `RequestTheory.ReplyExactly` | src/network/ClientManager.cpp:371-378 | a client that reconnects into a game is told its opponent, whether it is on turn, and a text from which exactly the current board of its room is recovered; one without a room is told that it is in the lobby; one told that the nick is in use changes nothing |
| `Codec.ParsePrint` | src/network/packet_handler.hpp:25-33 | parsing the bracketed print of any list of well-formed messages returns the list |
| `Codec.PrintParse` | src/network/packet_handler.hpp:25-33 | for every accepted buffer, bracketing and concatenating the parsed messages gives the buffer back |
| `Codec.ValidExactly` | src/network/packet_handler.hpp:14-17 | the format check accepts exactly the prints of non-empty lists of well-formed messages |
| `Codec.AlternativesDisjoint` | src/network/protocol.hpp:71-74 | no two alternatives of the grammar match at the same place, so leftmost-first matching has no choice |
| `Codec.ItemMatches` | src/network/protocol.hpp:74 | a message followed by its closing bracket is matched from its first character exactly up to the bracket |
| `TextTheory.ItemExactly` | src/network/protocol.hpp:71-74 | letter by letter, which messages are accepted: the five words, a nick of 3 to 20 letters, digits or underscores, eight digits, or 1 to 100 chat characters, and nothing else |
| `TextTheory.RequestExactly` | src/network/ClientManager.cpp:55-95 | which request each accepted message is |
| `Codec.KeysAndValues` | src/network/protocol.hpp:77 | a well-formed message splits into its key alone, or into a key and the value that goes with it: 3 to 20 word characters, 8 digits, or a chat text |
| `Codec.ParseMsg` | src/network/packet_handler.hpp:25-33 | the loop that shrinks the message and fills the queue yields all leftmost greedy matches in order |
| `Codec.KeyValues` | src/network/ClientManager.cpp:411-421 | the loop over one message yields its maximal runs without a colon |
| `Passes.RequestsWellFormed` | src/network/ClientManager.cpp:46-99 | every message of a valid buffer stands for a well-formed request: the router always finds the value it takes from the queue for connect, move and chat |
| `Clients.Client.SetState` | src/network/Client.cpp:65-70 | the last state is kept while the client is pinged, lost or disconnected, and otherwise becomes the state left |
| `Clients.Client.SetStateLast` | src/network/Client.cpp:72-74 | only the last state changes |
| `Lobbies.Lobby.GetRoomById` | src/game/Lobby.cpp:30-41 | the position of the first room with the id, or the end |
| `Lobbies.Lobby.CreateRoom` | src/game/Lobby.cpp:53-58 | one more room in its start position, at the end, under the next id |
| `Lobbies.Lobby.DestroyRoom` | src/game/Lobby.cpp:61-92 | both clients are sent to the lobby, an unreachable one only in its last state, and exactly the one room disappears |
| `Lobbies.Lobby.MoveInRoom` | src/game/Lobby.cpp:95-100 | the room's game becomes the rules' successor, other rooms stay |
| `Lobbies.Lobby.GetOpponentOf` | src/game/Lobby.cpp:121-129 | the nick of the other player at the table |
| `Lobbies.Lobby.GetPlayfieldString` | src/game/Lobby.cpp:147-149 | the text of the board of the room with the id |
| `Manager.ClientManager.FindClientByNick` | src/network/ClientManager.cpp:575-586 | the position of the first client with the nick, or the end |
| `Manager.ClientManager.FindClientByNickAndIp` | src/network/ClientManager.cpp:603-614 | the position of the first client with nick and address, or the end |
| `Manager.ClientManager.IsDisconnectedClient` | src/network/ClientManager.cpp:617-628 | true if and only if some client is disconnected |
| `Manager.ClientManager.SendToOpponentOf` | src/network/ClientManager.cpp:554-572 | who receives a message to the opponent: nobody if the opponent is disconnected |
| `Manager.ClientManager.CreateClient` | src/network/ClientManager.cpp:437-441 | one more nameless client at the end |
| `Manager.ClientManager.EraseClient` | src/network/ClientManager.cpp:444-468 | the client disappears; if it was in a game, its room is destroyed and the opponent is sent to the lobby first |
| `Manager.ClientManager.EraseLongestDisconnectedClient` | src/network/ClientManager.cpp:471-496 | the first disconnected client with the smallest counter disappears, the others keep their order |
| `Manager.ClientManager.HandleReconnection` | src/network/ClientManager.cpp:114-177 | the three ways of reconnecting as functions on the whole server, and what the client is told; the lookups of room, opponent and playfield for the messages are performed and proved to find what they look for |
| `Manager.ClientManager.ComposeMsgInGameRecn` | src/network/ClientManager.cpp:371-378 | the content of the message: on turn or not, the nick of the opponent, the text of the current board |
| `Manager.ClientManager.RequestConnect` | src/network/ClientManager.cpp:192-242 | new nick, used nick or reconnection, and -1 exactly for a client that may not name itself |
| `Manager.ClientManager.RequestReady` | src/network/ClientManager.cpp:245-249 | the client is ready |
| `Manager.ClientManager.RequestMove` | src/network/ClientManager.cpp:252-301 | the move is made in the room, states follow the turn, a finished game sends both to the lobby; 0 exactly if the move was legal; and who is told that he has won and lost |
| `Manager.ClientManager.RequestLeave` | src/network/ClientManager.cpp:304-314 | both players are sent to the lobby and their room disappears |
| `Manager.ClientManager.RequestPing` | src/network/ClientManager.cpp:317-326 | a pinged or lost client gets its last state back, any other stays |
| `Manager.ClientManager.RequestPong` | src/network/ClientManager.cpp:329-335 | the client gets its last state back, unconditionally |
| `Manager.ClientManager.RouteRequest` | src/network/ClientManager.cpp:40-102 | the whole server after one request, and 0 exactly if the request was accepted |
| `Manager.ClientManager.Process` | src/network/ClientManager.cpp:404-434 | requests are handled in order until one is refused; 0 exactly if none was |
| `Manager.ClientManager.StartGame` | src/network/ClientManager.cpp:346-358 | the first client begins, the second stands by, both in the new room |
| `Manager.ClientManager.PairWithNext` | src/network/ClientManager.cpp:642-656 | the inner loop: the next ready client is found and the two start a game, or there is none and nothing changes; how many clients are looked at |
| `Manager.ClientManager.MoveReadyClientsToPlay` | src/network/ClientManager.cpp:636-658 | the nested loops equal the pairing of consecutive ready clients, and look at no more than twice as many clients as there are |
| `Servers.Server.constructor` | src/network/Server.cpp:34-37 | one place more than configured, so that the newest client can be told that the server is full |
| `Servers.Server.CloseConnection` | src/network/Server.cpp:298-325 | the client is disconnected, its socket invalid; nothing happens on an invalid socket |
| `Servers.Server.RefuseConnection` | src/network/Server.cpp:281-295 | the newest client is closed and erased |
| `Servers.Server.CheckCapacity` | src/network/Server.cpp:154-169 | a full server evicts the longest disconnected client, or else refuses the newest |
| `Servers.Server.ServeClient` | src/network/Server.cpp:389-410 | a valid buffer is parsed and processed, anything else is refused and changes nothing |
| `Servers.Server.UpdateLoop` | src/network/Server.cpp:171-241 | the loop whose continues do not advance ends, by the measure clients left, disconnect flag, open socket, and equals the steps of the pass |
| `Servers.Server.UpdateClients` | src/network/Server.cpp:149-245 | one update pass on the objects equals the pass on the abstract world |
| `Servers.Server.PingClients` | src/network/Server.cpp:418-496 | one ping round on the objects equals the round on the abstract world |
| `RunTheory.EveryRun` | src/network/Server.cpp:149-245 | every run of ping rounds and update passes from the empty server, with polite clients, follows no dangling iterator and ends in order, and the players and tables afterwards are exactly what the events of its steps, in order, make of the empty ones |
| `RunTheory.RunKeeps` | src/network/Server.cpp:418-496 | the same from any server in order, with any interleaving of the two threads; a run whose steps have no events leaves players and tables unchanged |
| `RunTheory.StepExactly` | src/network/Server.cpp:172-241 | each small step the server takes follows no dangling lookup and keeps the server in order if and only if it is polite, and is then seen as exactly the events its kind allows: none for connections, flags and closing, the departure and ended game of the one client for erasing, one opening for a start, those of the request for serving |
| `RunTheory.PassKeeps` | src/network/Server.cpp:149-245 | a pass in which every request and eviction is polite runs to its end, keeps the server in order, and is seen as exactly the events of its steps in order, whatever the sockets report |
| `RunTheory.RoundHidden` | src/network/Server.cpp:418-496 | a ping round never follows a dangling lookup, keeps the server in order, and leaves the map from nick to logical state and room, and the tables, unchanged |
| `RunTheory.HiddenExactly` | src/network/ClientManager.cpp:114-177 | ping, pong, chat and both kinds of reconnection leave what is seen from outside unchanged if and only if the client was steady, or takes over without having a name of its own |
| `RunTheory.SteadyExactly` | src/network/ClientManager.cpp:329-335 | giving a client its last state back is invisible if and only if it was unreachable, nameless, or its last state is its state |
| `RunTheory.StartKeeps` | src/network/ClientManager.cpp:346-358 | starting a game between two ready clients keeps the server in order |
| `SessionTheory.CloseHidden` | src/network/Server.cpp:298-325 | closing a connection finds the opponent it informs and is invisible from outside |
| `SessionTheory.PingHidden` | src/network/Server.cpp:446-489 | pinging, losing, flagging and counting down one client finds whom it informs and is invisible from outside |
| `SessionTheory.DestroyEnds` | src/game/Lobby.cpp:61-92 | destroying a room is, from outside, exactly the end of that game |
| `SessionTheory.EraseKeeps` | src/network/ClientManager.cpp:444-468 | erasing a disconnected or nameless client ends its game if it has one, removes its nick, and keeps the server in order |
| `SessionTheory.EvictExactly` | src/network/ClientManager.cpp:471-496 | evicting a client keeps the server in order if and only if the client has no name or no game |
| `SessionTheory.RestoreExactly` | src/network/ClientManager.cpp:329-335 | giving a client its last state back keeps the server in order if and only if it was unreachable or nameless, or playing is not involved in the same way before and after |
| `SessionTheory.AtTable` | src/game/Lobby.cpp:121-129 | a client in a room finds its room, its opponent is another stored client in the same room, and the logical states of the two are the roles the room gives them |
| `RequestTheory.HandleExactly` | src/network/ClientManager.cpp:40-102 | handling any request of a connected client is memory-safe and keeps the server in order if and only if the request is safe, a condition on the state before the call; it is then seen as exactly the events of this request |
| `RequestTheory.RequestEffect` | src/network/ClientManager.cpp:40-102 | what a safe request is from outside: a nick enters, a player gets ready, the turn passes and the game perhaps ends, an illegal move changes nothing, leaving ends the game |
| `RequestTheory.MoveEffect` | src/network/ClientManager.cpp:252-301 | after a safe move request the room holds exactly the game after the move, or is gone if the game is over, and all other rooms are unchanged |
| `RequestTheory.MoveExactly` | src/network/ClientManager.cpp:252-301 | a routed move request is well-defined and harmless if and only if it comes from the player on turn, or from the player on stand whose move is illegal or whose opponent is connected |
| `AcceptTheory.AcceptedExactly` | src/network/ClientManager.cpp:40-102 | for any request of a connected client of a server in order: a lookup finds nothing if and only if the request is about a game and comes from a pinged client without one; otherwise it is accepted if and only if its key is admitted in the state the client is in: chat and leave while playing or pinged in a game, a move when on turn or pinged and legal in the room, ready when waiting or pinged, ping and pong always, connect when the nick is in use or the client has none |
| `AcceptTheory.NamedExactly` | src/network/ClientManager.cpp:202-226 | a free nick is given to a connected client if and only if it has none yet; it is then waiting under that nick and nothing else has changed |
| `AcceptTheory.UsedNickExactly` | src/network/ClientManager.cpp:114-177 | a request for a used nick changes nothing if it comes from another address or the owner is active, restores the sender if the owner is pinged or lost, and hands nick, room and activity over if the owner is disconnected or ready, who is left nameless and marked |
| `RequestTheory.LeaveExactly` | src/network/ClientManager.cpp:304-314 | a leave request finds the room if and only if the client is logically playing |
| `RequestTheory.ReadyExactly` | src/network/ClientManager.cpp:245-249 | getting ready keeps the server in order if and only if the client is logically in the lobby |
| `RequestTheory.ConnectExactly` | src/network/ClientManager.cpp:192-242 | a connect request keeps the server in order if and only if the owner of the nick is not ready and the two instances meet the stated condition |
| `RequestTheory.OwnerRestoredExactly` | src/network/ClientManager.cpp:128-129 | a request for the nick of a pinged or lost client gives the sender its own last state back, and the client that has the nick is given its last state back if and only if it is the sender |
| `RequestTheory.TakeOverHidden` | src/network/ClientManager.cpp:149-176 | a nameless instance that takes over a disconnected one continues it invisibly |
| `Protocol.EventConsistent` | src/game/Lobby.cpp:53-92 | every protocol event keeps tables and players consistent |
| `Protocol.FollowsUnique` | src/network/ClientManager.cpp:40-102 | a list of events leads to one result only, so what a run is seen to do determines the players and tables afterwards |
| `Protocol.TwoAtEachTable` | src/game/Lobby.cpp:53-92 | exactly the two players a table names sit at it, and they are different |
| `Abstraction.LookupsAgree` | src/network/ClientManager.cpp:575-614 | the lookup by nick and the lookup by nick and address never point at different clients |
| `Abstraction.RoomLookup` | src/game/Lobby.cpp:30-41 | with increasing ids every stored room is found exactly where it is |
| `AlwaysTheory.AlwaysTidy` | src/network/ClientManager.cpp:192-242 | in every run, with no assumption on clients: nicks distinct, room ids increasing and within those given out, no stored game over, and room for one more client |
| `AlwaysTheory.StepTidy` | src/network/ClientManager.cpp:444-468 | each defined step keeps nicks distinct, ids increasing and no finished game stored |
| `AlwaysTheory.RoomsBalance` | src/game/Lobby.cpp:53-92 | over every run, with no assumption on clients, the number of rooms given out grows by the games that started, and the number stored by those that started less those that ended: created equals stored plus destroyed |
| `AlwaysTheory.StepCounts` | src/game/Lobby.cpp:53-92 | each defined step gives out one room for each game it starts and takes away one stored room for each game it ends |
| `AlwaysTheory.LoopResult` | src/network/Server.cpp:172-241 | the loop over the clients leaves nobody with a pending disconnect flag and adds nobody |
| `VisitTheory.LoopVisits` | src/network/Server.cpp:172-241 | with no assumption on clients: everybody with an open connection on which something happened is served, closed or erased in the one sweep, and nobody the loop has passed is looked at again |
| `VisitTheory.LoopFair` | src/network/Server.cpp:171-241 | with no assumption on clients: the loop serves only requests from a valid message of the client, closes a client only when it is flagged, its socket fails, hangs up or sends no valid message, or its last request was refused, and closes it at once in the last case |
| `AlwaysTheory.PassResult` | src/network/Server.cpp:154-169 | after every pass there are fewer clients than the maximum, so the equality test is enough, and no disconnect flag is pending |
| `AlwaysTheory.CapacityKept` | src/network/Server.cpp:154-169 | the capacity check leaves fewer clients than the maximum |
| `AlwaysTheory.RefusedIsNewest` | src/network/Server.cpp:281-295 | on a full server with nobody disconnected, refusing leaves the server exactly as it was before the newest client came |
| `AlwaysTheory.ArrivalExactly` | src/network/ClientManager.cpp:437-441 | a connection becomes one more nameless client at the end, with a full count and no flag, if and only if its socket is positive |
| `AlwaysTheory.CapacityExactly` | src/network/Server.cpp:154-169 | nobody goes while there is room; on a full server the first of the disconnected clients with the fewest pings left, or else the newest |
| `AlwaysTheory.LongerGoneGoesFirst` | src/network/ClientManager.cpp:471-496 | a client that was still connected at a ping round is not evicted before one that was disconnected by then |
| `Passes.Longest` | src/network/ClientManager.cpp:471-496 | the first among the disconnected clients with the smallest counter, or the end if there is none |
| `PairTheory.PairingExactly` | src/network/ClientManager.cpp:636-658 | consecutive ready clients in vector order are paired, each pair in a fresh room of its own, half as many rooms as ready clients; everybody else, at most one of them ready, is unchanged |
| `FailureTheory.FiveRounds` | src/network/Server.cpp:428-489 | over rounds of one ping and one or more update passes, a connected, named client that sends nothing that restores it, whatever else it sends, is pinged, lost, closed with count 2, has count 1, and is erased with its room after exactly five rounds, and stays away |
| `FailureTheory.AnsweringIsSafe` | src/network/Server.cpp:428-489 | a client that sends at least one restoring request (a pong, a ping, getting ready, a legal move in its turn, a reconnection) between one ping and the next, among any others, has no flag and its full count after any number of rounds |
| `FailureTheory.RoundsDecide` | src/network/Server.cpp:172-241 | over any number of rounds, each of one ping and one or more passes, whatever the others do and whatever it asks for, what becomes of a client is a function of the rounds in which it sent a restoring request |
| `FailureTheory.SilenceIsNever` | src/network/Server.cpp:205-241 | a client from whose socket nothing comes sends no restoring request in any round |
| `FailureTheory.PassTracks` | src/network/Server.cpp:172-241 | what one update pass makes of a client, by its flags and by whether it sent a restoring request |
| `NamelessTheory.RoundExactly` | src/network/Server.cpp:430-489 | what a ping round does to each client: a client with an open socket and no name that is not new is marked for closing and erasing, and the others go from pinged to lost, from lost to marked for closing, one down in their count when disconnected, and to pinged |
| `NamelessTheory.StepUntouched` | src/network/Server.cpp:172-241 | no step about somebody else changes a nameless connected client |
| `NamelessTheory.NamelessIsRemoved` | src/network/Server.cpp:437-443 | a new connection without a name from which nothing comes is, after one ping round and any number of passes, pinged and otherwise unchanged; the next ping round marks it; and the next pass closes and erases it and leaves nobody with its socket |
| `FailureTheory.PongUndoesPing` | src/network/Client.cpp:65-70 | answering a ping gives back the client as it was before, except that the last state is now the state |
| `Deviations.StrayPong` | src/network/ClientManager.cpp:329-335 | a run from the empty server in which a pong nobody asked for takes a player out of the game it is still seated in |
| `Deviations.ReadyWhilePlaying` | src/network/ClientManager.cpp:62-64 | a run from the empty server, with a ping round, in which a pinged player declares itself ready in the middle of a game and leaves the server in disorder |
| `Deviations.MoveOutOfTurn` | src/network/ClientManager.cpp:66-71 | for each of the first eleven plies of a game played from the empty server: after a ping round the player on stand sends the ply of the opponent, it is accepted, the turn passes to the sender, and the server stays in order |
| `Deviations.WinningForTheOther` | src/network/ClientManager.cpp:288-291 | a run from the empty server through a whole game, with a ping round before its last ply: the pinged player on stand sends the winning move of the opponent, the opponent is told that it has won and the sender that it has lost, and both are in the lobby |
| `Deviations.PliesPlayed` | src/network/ClientManager.cpp:252-301 | two clients play the first eleven plies of a game by messages in their turns, and after each the server is in order with the game at that ply |
| `Duel.LastPlyWins` | src/game/RoomHnefatafl.cpp:330-350 | a game of twelve legal plies, of which the last and no other ends the game |
| `Deviations.LeaveFromTheLobby` | src/network/ClientManager.cpp:73-75 | a run from the empty server, with a ping round, in which a pinged client in the lobby asks to leave, the room lookup finds nothing, and the run does not go on |
| `Deviations.NameOfAReadyClient` | src/network/ClientManager.cpp:147-160 | a run from the empty server in which a connection from the same address takes the name of a ready client and leaves a nameless ready instance |
| `Deviations.NickOfAPingedClient` | src/network/ClientManager.cpp:128-129 | a run from the empty server in which a second connection names a pinged client: the sender gets its own last state back and the owner of the nick stays pinged |
| `Deviations.EvictedFromAGame` | src/network/ClientManager.cpp:493-495 | a run from the empty server with room for two, in which a player hangs up, a third client comes, the capacity check evicts exactly that player, and the other is left at a table alone |
| `Deviations.InPlayReached` | src/network/ClientManager.cpp:636-658 | the starting point of these cases: six passes in which two clients connect, name themselves and get ready put them in a game, and the server is in order |

## Left out

- Sockets: `accept`, `select`, `recv`, `close`, descriptor sets and signals are foreign; a pass takes what they report as input. Only positive sockets make clients, as in `acceptConnection`.
- Buffers: `readClient` and `insertToBuffer` are not modelled; a message starts as a complete buffer, and nothing is claimed about messages cut in two.
- A read that fails after `ioctl` reported data: `received` keeps the value of the last call in the source; here it is the event `Hangup`.
- Outgoing messages: the separators and keywords of `composeMsg*` and the bytes sent are not modelled; who is informed is (`SendToOpponentOf`), and so is what a reconnected client is told. Sending has no effect on the session.
- Threads: the mutex is not modelled; each ping round and each update pass is one atomic step, and `cv.wait_for` only decides how they alternate.
- `maxRooms` is stored and never tested by the source; no bound on rooms is claimed.
- Statistics counters, the logger, the argument parser, `main`, `shutdown`, `closeSockets` and the `toString` functions.
- General regular expressions: only the three patterns of the protocol, with ASCII classes for words, digits and white space.
- Integer width: coordinates have two digits and counters stay small; the counter of rooms is unbounded here.
- Manager.ClientManager.RequestChat: only that the opponent is found; the text sent is an outgoing message.
- Manager.ClientManager.RouteRequest: one message at a time; the queue holds exactly one key and at most one value, as `Codec.KeysAndValues` proves.
