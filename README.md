# Tic-tac-toe: rooms, relay, game object and bot, in Dafny

This project models the core of a browser tic-tac-toe game with an online
two-player mode and a computer opponent:

- `game_utils.dfy` (module `GameUtils`): the board evaluator. It holds the
  eight lines, `checkWinner` and the `predictDraw` heuristic. A board is an
  array of nine strings: `""` for an empty cell, `"X"` or `"O"` for a mark.
- `protocol.dfy` (module `Protocol`): the JSON messages exchanged with the
  relay, each as a datatype with one constructor per `type`.
- `server.dfy` (module `Server`): the WebSocket relay of `server.js`.
  - It holds the `rooms` map and the `roomId` each connection remembers.
  - It covers the six `message` cases, the `close` handler and the server's
    own `checkWinner`.
  - Each handler is a pure step from the old state to the new state plus the
    ordered list of `ws.send` calls. The class `Server.Relay` performs the
    same steps by assignment and is proved to agree with them.
- `bot.dfy` (module `Bot`): the computer opponent, which plays O.
  - `findWinningMove`, the noob move and the pro move are functions.
  - `minimax` and `makeMasterMove` write into the game's board array and
    restore it afterwards, so they are methods. They are proved against the
    game-tree value `Bot.Score`.
- `game.dfy` (module `Game`): the game object of `src/js/game.js`.
  - It keeps the board array, the turn, the history, the statistics and the
    bot-mode flags.
  - It covers moves, the end-of-game tally, cell clicks, restart and reset,
    and undo.
  - The pure functions `Game.Played` and `Game.Rewound` give the meaning of a
    move and an undo.
- `session.dfy` (module `Session`): the `WebSocketService` of
  `src/js/services/websocket.js`.
  - It covers reconnection with linear back-off and the dispatch of incoming
    messages onto the game object.
  - It also covers the three senders, and what that client sees of the
    messages `server.js` really sends.
- `legacy_client.dfy` (module `Client`): the older top-level `game.js`
  client. It mirrors whatever board and turn the relay sends, and its click
  guard decides when a click becomes a `move` message.

## Randomness and the environment

- `Math.random()` becomes a parameter. For the bot's picks it is a real `rnd`
  with `0 <= rnd < 1`, and the pick is `Math.floor(rnd * n)`. For the random
  starting mark it is a boolean `startsWithX`.
- Sockets become connection numbers (`ConnId`). A message that would be sent
  is returned instead.
- A reconnect delay that would go to `setTimeout` is returned instead.
- Work deferred with `setTimeout` or `requestAnimationFrame` happens at once.
  For example, `makeMove` reports whether it schedules the bot's reply.

## Where the code and the design description differ

The model follows the code in each case below.

- **No room states.** `server.js` has no waiting, active or finished state.
  - A room holding only X already accepts X's move
    (`Server.MoveAcceptedWhileWaiting`).
  - A room whose board has a complete line still accepts moves
    (`Server.MovesAcceptedAfterWin`).
  - Leaving a room does not mark it inactive.
- **Detached requests.** A move, restart, undo or chat from a connection that
  is not in a live room is ignored without any reply
  (`Server.DetachedIsIgnored`).
- **No server history.** The server never appends to `moveHistory`. Only
  restart empties it.
- **Marks are not checked.** The server never compares a connection's
  assigned mark with the mark carried by its move
  (`Server.MoveIgnoresAssignedMark`).
- **The second joiner is always O.** If X leaves and someone else joins, the
  room holds two O players (`Server.RejoinAfterXLeavesGivesTwoOs`).
- **Refused joiners.** A connection refused with "Room is full" keeps that
  room as its `roomId`. When it closes, both real players are told their
  opponent left (`Server.RefusedJoinerCloseNotifiesBoth`).
- **The empty room code.** The join handler has no truthiness test, so a
  room can be created under the code `""`, and a second connection can join
  it and is told the game starts. Every other handler tests the code for
  truthiness, and `""` is falsy. So moves in that room are ignored, and the
  room is never deleted (`Server.EmptyCodeRoomIsJoinableButStuck`,
  `Server.EmptyCodeRoomIsNeverRemoved`).
- **`websocket.js` and the server do not agree.**
  - It never sends `join`.
  - It expects `game_start` and `undo` messages, which the server never sends
    (`Session.FromServer`).
  - Its undo request carries no mark, so the server always refuses it
    (`Session.ClientUndoIsNeverAccepted`).
  - The server answers an accepted undo with a `move` message. That
    client's `handleMove` then writes the removed mark back
    (`Session.UndoEchoRestoresMark`).
  - `sendMove` sends the game's current mark, not the client's own mark.
- **A joiner gets the board in play.** The `start` message carries the
  room's current board, not an empty one. A connection that joins a room
  after O has left receives the game in progress (`Server.JoinWaitingRoom`).
- **A method that does not exist.** `bot.js` and `websocket.js` call
  `this.game.checkWinner`, but the game class has no such method. The model
  reads it as the `checkWinner` of `gameUtils.js`.
- **Undo in bot mode** drops two history entries but leaves their marks on
  the board, unless the history becomes empty (`Game.UndoLeavesUndoneMarks`).
- **A stuck bot game.** In the model, where deferred work runs at once, a
  bot game restarted with O to move cannot go on
  (`Game.BotGameStartingWithOIsStuck`). In the browser, a bot reply
  scheduled with `setTimeout` before the restart may still fire and unblock
  it.

## Model

| member | source | states |
|---|---|---|
| GameUtils.Other | server.js:128 | the turn flip always yields a mark, and it yields the other mark when given a mark |
| GameUtils.OtherTwice | server.js:128 | flipping the turn twice gives the original mark back |
| GameUtils.FirstComplete | src/js/utils/gameUtils.js:17-23 | the scan returns the first index at or after k whose line is complete; when it finds none, no line from k on is complete |
| GameUtils.Complete | src/js/utils/gameUtils.js:20 | the win test of one line: three equal cells that are not empty (used by FirstComplete and CheckWinner) |
| GameUtils.Filled | src/js/utils/gameUtils.js:26 | `every(cell !== "")`: no cell is empty (the draw test of CheckWinner; the same test at server.js:158 in OutcomeSends) |
| GameUtils.CheckWinner | src/js/utils/gameUtils.js:5-32 | a winning line is reported iff some line is complete; it is then the first complete line in scan order, and its mark is the winner; "draw" iff no line is complete and the board is full; null/null iff no line is complete and a cell is empty |
| GameUtils.EmptyBoardInProgress | src/js/utils/gameUtils.js:30-31 | the empty board has neither a winner nor a draw |
| GameUtils.Count | src/js/utils/gameUtils.js:36-37 | the filter count never exceeds the board length |
| GameUtils.CountIsMultiplicity | src/js/utils/gameUtils.js:36-37 | the filter count equals the multiplicity of the value in the board's multiset |
| GameUtils.CountAfterWrite | src/js/utils/gameUtils.js:36-37 | writing a cell changes a value's count by exactly the removed and written cells |
| GameUtils.ThreatFrom | src/js/utils/gameUtils.js:56-66 | true iff some line from k on has two equal non-empty cells and an empty third |
| GameUtils.Threat | src/js/utils/gameUtils.js:59-63 | one line has two equal non-empty cells and an empty third (the per-line test ThreatFrom scans for) |
| GameUtils.PredictDraw | src/js/utils/gameUtils.js:34-70 | true iff the X and O counts differ by at most one and no line is a threat; false whenever the counts differ by more than one |
| GameUtils.NewLineNeedsThreat | src/js/utils/gameUtils.js:56-66 | a line that one new mark completes was a threat before |
| GameUtils.PredictDrawMeansNoWinningMove | src/js/utils/gameUtils.js:44-69 | when predictDraw holds, no mark written into an empty cell completes a line that was not already complete |
| Server.ServerCheckWinner | server.js:262-281 | a winner is reported iff a winning line is; the result equals gameUtils' checkWinner when a line is complete, and null/null otherwise (never a draw) |
| Server.MapSet | server.js:86-88 | Map.set appends a new key last; for an existing key the length stays and the entry with the new mark is present; no other entry appears, and keys stay unique |
| Server.MapSetInPlace | server.js:86-88 | with unique keys, Map.set replaces in place: the key's entry takes the new mark at its old position, and every other entry stays where it was |
| Server.MapDelete | server.js:241-242 | Map.delete keeps exactly the entries of other connections, changes nothing for an absent key, and keeps keys unique |
| Server.Fanout | server.js:97-105 | the forEach send produces one send per player, to that player, in Map order |
| Server.Attached | server.js:120 | `roomId && rooms.has(roomId)`: the connection has a non-empty room code that names a live room |
| Server.JoinStep | server.js:62-116 | the join handler: a new room with the joiner as X, or the joiner added as O with joined and start, or "Room is full"; roomId is set in every case (properties in JoinUnknownRoom, JoinWaitingRoom, JoinFullRoom) |
| Server.NewRoom | server.js:70-76 | the room a first joiner creates: the joiner as X, an empty board, X to move, no history, no last move (stated by JoinUnknownRoom) |
| Server.MoveAccepted | server.js:126 | the move validation: the cell is empty and the move's mark is the room's current player; an index off the board reads undefined and fails |
| Server.ApplyMove | server.js:127-129 | the three writes of an accepted move: the cell, the flipped turn, lastMove |
| Server.OutcomeSends | server.js:145-169 | the gameOver broadcast with the winner and line, or the draw broadcast on a full board, or nothing (property in OutcomeOfMove) |
| Server.MoveSends | server.js:132-169 | the move broadcast followed by the outcome broadcast |
| Server.MoveStep | server.js:118-171 | the move handler: an attached, accepted move updates its room and sends MoveSends; anything else changes nothing (properties in AcceptedMove, RejectedMoveIsSilent) |
| Server.RestartRoom | server.js:179-182 | the four resets of a restart |
| Server.RestartStep | server.js:174-192 | the restart handler: the sender's room is reset and restart is broadcast (property in RestartResets) |
| Server.UndoAccepted | server.js:199 | the undo check: a last move exists and the request carries its mark |
| Server.UndoRoom | server.js:200-203 | the writes of an accepted undo: the cell cleared, the turn to the undone mark, lastMove cleared |
| Server.UndoStep | server.js:195-217 | the undo handler: an accepted undo updates the room and broadcasts a move message for the cleared cell (properties in UndoAfterMoveRestores, SecondUndoRefused, UndoByOtherRefused) |
| Server.ChatStep | server.js:220-234 | the chat handler: relay to the sender's room, or nothing (property in ChatOnlyRelays) |
| Server.Dispatch | server.js:57-235 | the switch on the message type; an unknown type changes nothing and sends nothing |
| Server.CloseStep | server.js:238-258 | the close handler: the connection leaves its room, and the room is deleted when empty, otherwise opponentLeft goes to the rest (properties in CloseLastMember, CloseWithOpponent) |
| Server.RoomOk | server.js:68-116 | one room of the registry: one or two members with distinct connections and marks X/O, the turn a mark, a board of marks and empty cells, an empty moveHistory |
| Server.Invariant | server.js:34-35 | every room of the registry satisfies RoomOk (kept by DispatchPreservesValid and ClosePreservesValid) |
| Server.EmptyCodeRoomIsJoinableButStuck | server.js:62-126 | a second connection can join the room under the empty code: the members are X and O and both get start, but every move in that room is ignored |
| Server.RejoinOwnRoomTurnsXIntoO | server.js:86-105 | a second join by the creator of a one-member room replaces its mark X with O in place, and sends it joined and start |
| Server.Broadcast | server.js:132-142 | the send loop produces exactly the fan-out of the message over the players |
| Server.InitialStateValid | server.js:34-35 | the server starts with no rooms, and the room invariant holds |
| Server.DispatchPreservesValid | server.js:57-235 | every message handler keeps each room at one or two members with marks X/O, a board of marks and empty cells, and an empty moveHistory |
| Server.ClosePreservesValid | server.js:238-258 | the close handler keeps the same room invariant |
| Server.JoinUnknownRoom | server.js:62-83 | a join with a new code creates an empty room with the joiner as X to move; only the joiner hears "Waiting for opponent..." |
| Server.JoinWaitingRoom | server.js:84-105 | a join to a one-member room adds the joiner as O; the joiner hears joined, then both hear start with the room's board and turn, first player first |
| Server.JoinFullRoom | server.js:62-116 | a join to a room of two leaves every room unchanged, sends "Room is full" to the joiner alone, and still records the room as the joiner's roomId |
| Server.RejectedMoveIsSilent | server.js:118-126 | a move to a non-empty or off-board cell, or out of turn, or from a detached connection changes nothing and sends nothing |
| Server.AcceptedMove | server.js:126-143 | an accepted move writes the cell, flips the turn, sets lastMove, leaves the other rooms, players and history alone, and sends move to each player before any outcome message |
| Server.OutcomeOfMove | server.js:145-169 | after a move, an outcome is broadcast iff a line is complete or the board is full; gameOver carries checkWinner's winner and line, or "draw" with no line |
| Server.MoveIgnoresAssignedMark | server.js:118-126 | any two members of a room get the same result for the same move |
| Server.MovesAcceptedAfterWin | server.js:126-129 | a board with a complete line still accepts a move into an empty cell from the player to move |
| Server.MoveAcceptedWhileWaiting | server.js:118-143 | right after creating a room, its only member X can move, and the move is broadcast |
| Server.RestartResets | server.js:174-192 | restart clears the board, gives the turn to X, empties history and lastMove, and broadcasts restart; the new board is in progress |
| Server.UndoAfterMoveRestores | server.js:195-217 | an undo right after an accepted move is accepted and restores the board and turn exactly |
| Server.SecondUndoRefused | server.js:195-217 | an accepted undo clears the last cell and gives the turn to its mark; a second undo is refused silently |
| Server.UndoByOtherRefused | server.js:197-199 | an undo without the last move's mark changes nothing and sends nothing |
| Server.ChatOnlyRelays | server.js:220-234 | chat never changes state; it reaches every player of an attached sender's room, and nobody otherwise |
| Server.DetachedIsIgnored | server.js:118-234 | non-join messages from a connection with no live, non-empty room code do nothing |
| Server.CloseLastMember | server.js:238-246 | when the last member closes, the room is deleted and no message is sent |
| Server.CloseWithOpponent | server.js:246-257 | when one of two players closes, the room keeps the other player, who alone gets opponentLeft |
| Server.RejoinAfterEmptyIsFresh | server.js:68-83 | after a room empties, a join with its code creates a fresh room with the joiner as X |
| Server.RefusedJoinerCloseNotifiesBoth | server.js:62-116 | a refused joiner's close tells both players of the full room that their opponent left, and it leaves the rooms unchanged |
| Server.RejoinAfterXLeavesGivesTwoOs | server.js:86-88 | when X leaves and a newcomer joins, both remaining members have mark O |
| Server.EmptyCodeRoomIsNeverRemoved | server.js:238-240 | a room made under the empty code survives its creator's close, unchanged and unannounced |
| Server.Relay.constructor | server.js:34-35 | the relay starts with no rooms and no room codes |
| Server.Relay.OnMessage | server.js:57-235 | the new rooms, room codes and sends are exactly the dispatch step for the message, and the invariant is kept |
| Server.Relay.HandleJoin | server.js:62-116 | the new state and sends are exactly the join step |
| Server.Relay.HandleMove | server.js:118-171 | the new state and sends are exactly the move step |
| Server.Relay.HandleRestart | server.js:174-192 | the new state and sends are exactly the restart step |
| Server.Relay.HandleUndo | server.js:195-217 | the new state and sends are exactly the undo step |
| Server.Relay.HandleChat | server.js:220-234 | the state is unchanged and the sends are exactly the chat step |
| Server.Relay.OnClose | server.js:238-258 | the new state and sends are exactly the close step, and the invariant is kept |
| Bot.RandomPosition | src/js/services/bot.js:31-36 | Math.floor(Math.random() * n) is a valid position in a list of length n |
| Bot.LineCompletion | src/js/services/bot.js:130-150 | a returned cell completes the line for the player; none is returned iff no cell of the line does |
| Bot.CompletionFrom | src/js/services/bot.js:128-153 | the loop returns the completion of the first line from k on that has one; it returns none iff no line does |
| Bot.FindWinningMove | src/js/services/bot.js:115-154 | the move is an empty cell whose line already holds two of the player's marks, from the first line in order that has one; none iff there is no such cell |
| Bot.CompletingCellWins | src/js/services/bot.js:130-150 | playing a completing cell makes that line complete for the player |
| Bot.WinningMoveWins | src/js/services/bot.js:115-154 | playing the found move completes a line for the player |
| Bot.PredictDrawMeansNoCompletion | src/js/services/bot.js:115-154 | when predictDraw holds, neither player has a winning move |
| Bot.EmptyFrom | src/js/services/bot.js:30-33 | exactly the empty cells from k on, in increasing order |
| Bot.EmptyCells | src/js/services/bot.js:30-33 | exactly the empty cells in increasing order; the list is empty iff the board is full |
| Bot.NoobMove | src/js/services/bot.js:29-37 | none iff the board is full; otherwise an empty cell |
| Bot.NoobMoveCanPickAnyEmptyCell | src/js/services/bot.js:29-37 | every empty cell is the noob move for some random value |
| Bot.PositionSeed | src/js/services/bot.js:34-36 | every position j < n is picked by some random value in [0, 1) |
| Bot.EmptyCorners | src/js/services/bot.js:51-54 | exactly the empty corners among 0, 2, 6 and 8, in increasing order and without repeats |
| Bot.ProMove | src/js/services/bot.js:39-61 | none iff the board is full; otherwise an empty cell. O's win comes first, then blocking X, then the centre, then a corner when one is empty |
| Bot.ProMoveTakesTheWin | src/js/services/bot.js:40-43 | when O can complete a line, the pro move wins for O |
| Bot.Score | src/js/services/bot.js:84-113 | the value minimax returns: an O win is 10 - depth, an X win depth - 10, a draw 0, otherwise the best child value from the sentinel (properties in ScoreInRange, ScoreIsBestChild) |
| Bot.BestFrom | src/js/services/bot.js:90-112 | the minimax loop from cell i on, with Math.max when maximizing and Math.min otherwise (property in BestFromIsExtremum) |
| Bot.Better | src/js/services/bot.js:97-108 | `Math.max(score, bestScore)` when maximizing, `Math.min` otherwise (its effect is stated in BestFromIsExtremum) |
| Bot.ChildScore | src/js/services/bot.js:92-108 | the recursive call after the side to move writes O (maximizing) or X into an empty cell |
| Bot.MoveScore | src/js/services/bot.js:69-71 | the score of a master candidate: minimax(0, false) with O in the cell |
| Bot.IsMasterChoice | src/js/services/bot.js:63-82 | the result of makeMasterMove: the lowest-index empty cell with the greatest score above -Infinity, or null when none scores above it (determined uniquely, by MasterChoiceIsUnique) |
| Bot.ScoreInRange | src/js/services/bot.js:84-113 | on a board of marks and empty cells searched at most ten plies deep, the minimax value lies within [-10, 10] |
| Bot.BestFromInRange | src/js/services/bot.js:90-112 | the loop's best score stays within [-10, 10] once a child has been scored |
| Bot.ChildInRange | src/js/services/bot.js:92-108 | the score of each child position lies within [-10, 10] |
| Bot.BestFromIsExtremum | src/js/services/bot.js:90-112 | the loop's result bounds the start value and every child score from i on; it equals the start value or one of those scores |
| Bot.ScoreIsBestChild | src/js/services/bot.js:84-113 | without a result, the value is the maximum over O's placements or the minimum over X's, and some empty cell attains it |
| Bot.Minimax | src/js/services/bot.js:84-113 | the method returns the game-tree value of the board and leaves every cell as it found it |
| Bot.MakeMasterMove | src/js/services/bot.js:63-82 | the board is unchanged, and the move is the lowest-index empty cell with the highest minimax score, or none when no cell scores above -Infinity |
| Bot.MasterChoiceNoneIffFull | src/js/services/bot.js:63-82 | on a board of marks and empty cells, the master move is none iff the board is full, and otherwise an empty cell |
| Bot.MoveScoreInRange | src/js/services/bot.js:69-72 | the score of each master candidate lies within [-10, 10] |
| Bot.MasterChoiceIsUnique | src/js/services/bot.js:63-82 | the master-move specification determines the move |
| Bot.ChooseMove | src/js/services/bot.js:6-27 | no move unless the game is active with O to move; otherwise the master, pro or noob pick as the difficulty names, with unknown values picking at random; the board is unchanged |
| Game.Tally | src/js/game.js:273-285 | exactly one counter goes up: draws iff "draw"; wins iff the winner is the client's mark; losses otherwise |
| Game.Record | src/js/game.js:221-241 | the body of the deferred frame: the write, the history entry, then the game over or the turn flip |
| Game.Playable | src/js/game.js:218 | the guard of makeMove: the game is active and the cell holds the empty string |
| Game.Played | src/js/game.js:217-243 | makeMove: Record when the guard holds, nothing otherwise (property in PlayedMeaning) |
| Game.Rewound | src/js/game.js:373-387 | the bot-mode undo: drop two entries, write back the entry now last or clear the board, X to move (property in RewoundMeaning) |
| Game.HistoryOnBoard | src/js/game.js:221-226 | every history entry is a mark that stands on its cell |
| Game.ClickMoves | src/js/game.js:291-299 | the bot-mode click guard: active, empty cell, and the human's turn |
| Game.PlayedMeaning | src/js/game.js:217-243 | an unplayable move changes nothing. Otherwise one cell takes the current mark, history grows by that entry, and one empty cell fewer remains; the game continues iff there is no result, with the other mark to move, else one more game is tallied |
| Game.NoMoveAfterResult | src/js/game.js:218 | after a move that ends the game, every further move is ignored |
| Game.PlayedKeepsHistoryOnBoard | src/js/game.js:221-226 | moves keep every history entry standing on its cell |
| Game.RewoundMeaning | src/js/game.js:371-391 | with fewer than two entries nothing changes; otherwise the last two entries go, X is to move, and the board is cleared only when the history becomes empty, else left as it was |
| Game.UndoLeavesUndoneMarks | src/js/game.js:371-391 | undoing a move and its reply restores the history, but both cells stay occupied |
| Game.UndoOfOpeningClearsBoard | src/js/game.js:377-382 | undoing the first two moves gives the empty board and an empty history |
| Game.BotGameStartingWithOIsStuck | src/js/game.js:291-303 | after a bot-game restart with O to move, no click by the human X makes a move |
| Game.HumanMoveHandsTurnToO | src/js/game.js:235-240 | in a bot game, an X move that does not end the game hands the turn to O |
| Game.TicTacToe.constructor | src/js/game.js:7-22 | an empty board, a random starting mark, an inactive game, no history, zero statistics, no mark, online mode with "noob" |
| Game.TicTacToe.MakeMove | src/js/game.js:217-243 | the new state is the move's meaning applied to the old state; the bot is scheduled iff the move was played, the game goes on, it is a bot game, and O is to move |
| Game.TicTacToe.HandleGameOver | src/js/game.js:245-289 | the game stops, and the statistics are the tally of the winner |
| Game.TicTacToe.HandleCellClick | src/js/game.js:291-303 | in bot mode the state changes only by a move on the human's turn; the bot's reply is scheduled iff that move was made and leaves the game active with O to move; online, a move request is made iff the game is active and the cell is empty |
| Game.TicTacToe.ResetGame | src/js/game.js:324-334 | a new empty board, a random starting mark, no history, an inactive game, statistics kept |
| Game.TicTacToe.StartBotGame | src/js/game.js:207-215 | bot mode, with the human as X and the game active |
| Game.TicTacToe.ChooseDifficulty | src/js/game.js:87-91 | a difficulty button stores the chosen difficulty and starts a bot game with the human as X |
| Game.TicTacToe.RestartGame | src/js/game.js:315-322 | in bot mode, a reset followed by a new active bot game; online, a restart request and no change |
| Game.TicTacToe.Rewind | src/js/game.js:373-387 | the new state is the undo's meaning applied to the old state |
| Game.TicTacToe.UndoMove | src/js/game.js:371-391 | in bot mode, the rewind; online, an undo request and no change |
| Game.TicTacToe.BotTurn | src/js/services/bot.js:6-27 | the bot's pick for the game's difficulty, played through the move logic; no pick unless the game is active with O to move |
| Session.FromServer | src/js/services/websocket.js:40-60 | the server's messages never look like game_start or undo to this client; move and restart are the only ones handled |
| Session.Delays | src/js/services/websocket.js:117-130 | the delays scheduled by n closes in a row with no open in between (property in DelaysFrom) |
| Session.AfterClose | src/js/services/websocket.js:117-130 | below five attempts, one more attempt is counted and a reconnect is scheduled after 1000 ms times the attempt number; at five, nothing is scheduled |
| Session.DelaysFrom | src/js/services/websocket.js:117-130 | from a count at or below the limit, repeated closes schedule exactly the remaining attempts, with delays growing by 1000 ms |
| Session.AtMostFiveReconnects | src/js/services/websocket.js:117-130 | a fresh service reconnects at most five times, after 1000, 2000, ..., 5000 ms |
| Session.UndoEchoRestoresMark | src/js/services/websocket.js:70-87 | the server clears the undone cell and echoes a move for it, and this client's handleMove writes the mark back |
| Session.ClientUndoIsNeverAccepted | src/js/services/websocket.js:150-154 | the undo this client sends changes no room and sends nothing |
| Session.WebSocketService.constructor | src/js/services/websocket.js:2-8 | the service starts with zero attempts and a closed socket |
| Session.WebSocketService.Connect | src/js/services/websocket.js:10-14 | a new socket starts out not open |
| Session.WebSocketService.OnOpen | src/js/services/websocket.js:16-21 | the socket is open, the game is connected, and the attempt counter is reset |
| Session.WebSocketService.OnClose | src/js/services/websocket.js:28-32 | the game is disconnected, and the counter and the scheduled delay follow the back-off rule |
| Session.WebSocketService.HandleMessage | src/js/services/websocket.js:40-68 | game_start sets the mark and activates the game; move applies the move logic; restart resets and activates; undo rewinds; error and others change nothing; no message changes the bot-mode flag, the difficulty or the connection flag, and only game_start changes the player's mark |
| Session.WebSocketService.HandleMove | src/js/services/websocket.js:70-87 | the mark is written and recorded as in a local move, without any turn or activity check |
| Session.WebSocketService.HandleRestart | src/js/services/websocket.js:89-94 | a reset with the game active |
| Session.WebSocketService.Send | src/js/services/websocket.js:132-154 | nothing unless the socket is open; a move carries the game's current mark, and an undo carries no mark |
| Client.Receive | game.js:110-175 | the onmessage switch for one message: joined sets the mark; start and restart set board and turn and activate; move sets board and turn; gameOver sets the board and deactivates; opponentLeft deactivates; error and chat change nothing |
| Client.ReceiveAll | game.js:110-175 | the messages processed in order of arrival |
| Client.ClickAllowed | game.js:205-212 | the click guard: connected, active, empty cell, and this client's turn |
| Client.RestartMirrorResets | game.js:234-242 | a restart sent while connected reaches server.js, and then every member of the room mirrors the empty board with X to move and an active game |
| Client.ReceiveAllAppend | game.js:110-175 | processing two message batches in turn is the same as processing their concatenation |
| Client.Inbox | server.js:97-105 | a connection receives at most as many messages as were sent |
| Client.InboxAppend | server.js:97-105 | the messages reaching a connection from two batches are those of the first batch, then those of the second |
| Client.InboxOfFanout | server.js:97-105 | a broadcast reaches each member of the room exactly once and nobody else |
| Client.MirrorFollowsMove | game.js:132-151 | after an accepted move, each player's mirror has the room's board and turn, and stays active iff the move gave no result |
| Client.MirrorAfterMoveSends | game.js:132-151 | a member processing the move broadcast and the outcome of one room gets its board and turn, and stays active iff there is no result |
| Client.MirrorAfterOutcome | game.js:140-151 | the outcome broadcast leaves board and turn alone and deactivates the mirror exactly on a win or a full board |
| Client.JoinerInbox | server.js:86-105 | the joiner of a waiting room receives joined, then start |
| Client.JoinerMirrorStarts | game.js:115-130 | the second joiner ends with mark O, the room's board and turn, and an active game |
| Client.MirroredClickIsAccepted | game.js:204-222 | a move allowed by the click guard on a mirror in step with the room is accepted by the server |
| Client.LegacyClient.constructor | game.js:2-10 | an empty board, X to move, an inactive game, no mark, disconnected |
| Client.LegacyClient.OnOpen | game.js:98-108 | connected, and a join request for the room code |
| Client.LegacyClient.OnMessage | game.js:110-175 | the new client state is the message's effect on the old one |
| Client.LegacyClient.OnDisconnect | game.js:177-193 | disconnected and inactive |
| Client.LegacyClient.HandleCellClick | game.js:204-222 | a move is sent iff the client is connected, the game is active, the cell is empty and it is this client's turn; it carries the client's own mark |
| Client.LegacyClient.RestartGame | game.js:234-242 | a restart request iff connected |

## Left out

- The DOM: rendering, status text, pop-ups, confetti, QR codes and the landing page (`landing.js`, `qrcode.js`). Of the event listeners, only the difficulty buttons change the game state, and they are `Game.TicTacToe.ChooseDifficulty`. The other buttons call the modelled methods.
- Sockets and JSON: connections are numbers, and messages are datatypes that have already been parsed. Malformed JSON, `console` logging and the HTTP server are out.
- `setTimeout` and `requestAnimationFrame`: deferred work runs at once, and a reconnect delay is returned rather than waited for. So a bot reply still pending when the game is restarted or undone is not modelled.
- Timestamps (`new Date()`) in history entries are not part of the model.
- `generateRoomId`, `hostGame`, `joinGame`, `isHost` and the stored `roomId` of the clients: they only create codes and open sockets.
- Concurrency: Node runs one handler at a time, so each handler is one atomic step.
- Bot.NegInf: `-Infinity` and `Infinity` are the integers -1000 and 1000, which lie outside every score reachable on a board of marks.
- Game.TicTacToe.MakeMove: its `index` is any integer. The JavaScript guard reads `undefined` for an index off the board, and the model's guard rejects it the same way, so in both nothing is written.
- Game.HistoryEntry: move history entries keep the player and index but not the timestamp.
- Session.WebSocketService.HandleMessage: `handleGameStart` is modelled for its effect on `player` and `gameActive` only. Its status text and screen switch are out.
- Session.WebSocketService.Connect: the `onerror` handler only logs and is not modelled.
- The websocket `onmessage` JSON parse and the `disconnect()` method only wrap the socket.
- Bot.ChooseMove: the scheduled `makeMove` call of the chosen cell into the game is `Game.TicTacToe.BotTurn`.
- `this.game.checkWinner` in `bot.js` and `websocket.js` names a method the game class lacks; it is read as `checkWinner` of `gameUtils.js`.
