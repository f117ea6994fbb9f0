/**
 * The relay of server.js: the `rooms` map, the per-connection `roomId`, the
 * `message` handler's six cases and the `close` handler, and server.js's own
 * `checkWinner`.
 *
 * Each handler runs to completion before the next one starts (Node's event
 * loop), so each is one atomic step: a pure function from the old state to
 * the new state and the list of `ws.send` calls it makes, in order.  The class
 * `Relay` at the end performs the same steps by assignment and is proved to
 * agree with those functions.
 */
module Server {
  import opened Wrappers
  import opened GameUtils
  import opened Protocol

  /** One entry of a room's `players` Map: the connection and the mark it was given. */
  datatype Member = Member(conn: ConnId, mark: Cell)

  /** `room.lastMove`. */
  datatype LastMove = LastMove(index: Index, player: Cell)

  /** The object stored in `rooms` for one room code. */
  datatype Room = Room(
    players: seq<Member>,
    gameState: Board,
    currentPlayer: Cell,
    moveHistory: seq<LastMove>,
    lastMove: Option<LastMove>)

  /** The whole server: `rooms`, and the `roomId` variable of each live connection (absent while `null`). */
  datatype State = State(rooms: map<RoomId, Room>, roomOf: map<ConnId, RoomId>)

  /** The state after one handler and the messages it sent. */
  datatype Step = Step(state: State, out: seq<Send>)

  const InitialState: State := State(map[], map[])

  // ---------------------------------------------------------------------
  // server.js's own checkWinner: the same scan, but no draw result.

  function ServerCheckWinner(board: Board): (r: Verdict)
    ensures r.winner.Some? <==> r.winningLine.Some?
    ensures r == if CheckWinner(board).winningLine.Some? then CheckWinner(board) else InProgress
  {
    match FirstComplete(board, 0)
    case Some(k) => Verdict(Some(board[Lines[k].a]), Some(Lines[k]))
    case None => InProgress
  }

  // ---------------------------------------------------------------------
  // The `players` Map: insertion-ordered, keyed by connection.

  /** Some entry of `ps` belongs to connection `c`. */
  predicate HasConn(ps: seq<Member>, c: ConnId) {
    exists x :: x in ps && x.conn == c
  }

  /** No connection has two entries (a Map has unique keys). */
  predicate DistinctConns(ps: seq<Member>) {
    ps == [] || ((forall x :: x in ps[1..] ==> x.conn != ps[0].conn) && DistinctConns(ps[1..]))
  }

  /** `players.set(c, m)`: an existing key keeps its position and takes the new mark; a new key goes last. */
  function MapSet(ps: seq<Member>, c: ConnId, m: Cell): (r: seq<Member>)
    ensures !HasConn(ps, c) ==> r == ps + [Member(c, m)]
    ensures HasConn(ps, c) ==> |r| == |ps|
    ensures HasConn(ps, c) ==> Member(c, m) in r
    ensures forall x :: x in r ==> x in ps || x == Member(c, m)
    ensures DistinctConns(ps) ==> DistinctConns(r)
  {
    if ps == [] then [Member(c, m)]
    else if ps[0].conn == c then [Member(c, m)] + ps[1..]
    else
      var rest := MapSet(ps[1..], c, m);
      assert HasConn(ps, c) ==> HasConn(ps[1..], c);
      [ps[0]] + rest
  }

  /**
   * With unique keys, `players.set` on any key replaces in place: the entry of
   * `c` takes the new mark at its old position and every other entry stays.
   */
  lemma {:induction false} MapSetInPlace(ps: seq<Member>, c: ConnId, m: Cell)
    requires DistinctConns(ps)
    ensures forall i :: 0 <= i < |ps| ==> MapSet(ps, c, m)[i] == if ps[i].conn == c then Member(c, m) else ps[i]
  {
    if ps != [] {
      if ps[0].conn == c {
        assert forall i :: 1 <= i < |ps| ==> ps[i] in ps[1..];
      } else {
        MapSetInPlace(ps[1..], c, m);
        assert forall i :: 1 <= i < |ps| ==> ps[i] == ps[1..][i - 1];
      }
    }
  }

  /** `players.delete(c)`. */
  function MapDelete(ps: seq<Member>, c: ConnId): (r: seq<Member>)
    ensures forall x :: x in r <==> x in ps && x.conn != c
    ensures !HasConn(ps, c) ==> r == ps
    ensures |r| <= |ps|
    ensures DistinctConns(ps) ==> DistinctConns(r)
  {
    if ps == [] then []
    else if ps[0].conn == c then MapDelete(ps[1..], c)
    else
      var rest := MapDelete(ps[1..], c);
      assert !HasConn(ps, c) ==> !HasConn(ps[1..], c);
      [ps[0]] + rest
  }

  /** `room.players.forEach((_, playerWs) => playerWs.send(m))`. */
  function Fanout(ps: seq<Member>, m: ServerMsg): (r: seq<Send>)
    ensures |r| == |ps|
    ensures forall i :: 0 <= i < |ps| ==> r[i] == Send(ps[i].conn, m)
  {
    if ps == [] then [] else [Send(ps[0].conn, m)] + Fanout(ps[1..], m)
  }

  // ---------------------------------------------------------------------
  // The handlers.

  function NewRoom(ws: ConnId): Room {
    Room([Member(ws, "X")], EmptyBoard, "X", [], None)
  }

  /** `roomId && rooms.has(roomId)`: the empty string is falsy. */
  predicate Attached(s: State, ws: ConnId) {
    ws in s.roomOf && s.roomOf[ws] != "" && s.roomOf[ws] in s.rooms
  }

  function JoinStep(s: State, ws: ConnId, id: RoomId): Step {
    var s1 := s.(roomOf := s.roomOf[ws := id]);
    if id !in s.rooms then
      Step(s1.(rooms := s.rooms[id := NewRoom(ws)]), [Send(ws, Joined("X", "Waiting for opponent..."))])
    else if |s.rooms[id].players| < 2 then
      var room := s.rooms[id].(players := MapSet(s.rooms[id].players, ws, "O"));
      Step(s1.(rooms := s.rooms[id := room]),
           [Send(ws, Joined("O", "Game starting!"))] + Fanout(room.players, Start(room.gameState, room.currentPlayer)))
    else
      Step(s1, [Send(ws, Error("Room is full"))])
  }

  /** The validation at server.js:126; an index outside the board reads `undefined`. */
  predicate MoveAccepted(room: Room, index: int, player: Cell) {
    0 <= index < 9 && room.gameState[index] == "" && room.currentPlayer == player
  }

  function ApplyMove(room: Room, index: Index, player: Cell): Room {
    room.(gameState := room.gameState[index := player],
          currentPlayer := Other(player),
          lastMove := Some(LastMove(index, player)))
  }

  /** The `gameOver` broadcast that follows an accepted move, if any. */
  function OutcomeSends(room: Room): seq<Send> {
    var v := ServerCheckWinner(room.gameState);
    if v.winner.Some? then Fanout(room.players, GameOver(v.winner.value, room.gameState, v.winningLine))
    else if Filled(room.gameState) then Fanout(room.players, GameOver("draw", room.gameState, None))
    else []
  }

  function MoveSends(room: Room, index: Index, player: Cell): seq<Send> {
    Fanout(room.players, MoveMade(index, player, room.gameState, room.currentPlayer)) + OutcomeSends(room)
  }

  function MoveStep(s: State, ws: ConnId, index: int, player: Cell): Step {
    if Attached(s, ws) && MoveAccepted(s.rooms[s.roomOf[ws]], index, player) then
      var id := s.roomOf[ws];
      var room := ApplyMove(s.rooms[id], index, player);
      Step(s.(rooms := s.rooms[id := room]), MoveSends(room, index, player))
    else
      Step(s, [])
  }

  function RestartRoom(room: Room): Room {
    room.(gameState := EmptyBoard, currentPlayer := "X", moveHistory := [], lastMove := None)
  }

  function RestartStep(s: State, ws: ConnId): Step {
    if Attached(s, ws) then
      var id := s.roomOf[ws];
      var room := RestartRoom(s.rooms[id]);
      Step(s.(rooms := s.rooms[id := room]), Fanout(room.players, Restarted(room.gameState, room.currentPlayer)))
    else
      Step(s, [])
  }

  /** `room.lastMove && room.lastMove.player === data.player`. */
  predicate UndoAccepted(room: Room, player: Option<Cell>) {
    room.lastMove.Some? && player == Some(room.lastMove.value.player)
  }

  function UndoRoom(room: Room): Room
    requires room.lastMove.Some?
  {
    var last := room.lastMove.value;
    room.(gameState := room.gameState[last.index := ""], currentPlayer := last.player, lastMove := None)
  }

  function UndoStep(s: State, ws: ConnId, player: Option<Cell>): Step {
    if Attached(s, ws) && UndoAccepted(s.rooms[s.roomOf[ws]], player) then
      var id := s.roomOf[ws];
      var last := s.rooms[id].lastMove.value;
      var room := UndoRoom(s.rooms[id]);
      Step(s.(rooms := s.rooms[id := room]),
           Fanout(room.players, MoveMade(last.index, last.player, room.gameState, room.currentPlayer)))
    else
      Step(s, [])
  }

  function ChatStep(s: State, ws: ConnId, message: string, player: string): Step {
    if Attached(s, ws) then Step(s, Fanout(s.rooms[s.roomOf[ws]].players, ChatRelay(message, player)))
    else Step(s, [])
  }

  /** The `message` handler. */
  function Dispatch(s: State, ws: ConnId, m: ClientMsg): Step {
    match m
    case Join(id, _) => JoinStep(s, ws, id)
    case Move(index, player) => MoveStep(s, ws, index, player)
    case Restart => RestartStep(s, ws)
    case Undo(player) => UndoStep(s, ws, player)
    case Chat(message, player) => ChatStep(s, ws, message, player)
    case Unrecognised(_) => Step(s, [])
  }

  /** The `close` handler; the connection's own `roomId` variable goes away with it. */
  function CloseStep(s: State, ws: ConnId): Step {
    var s1 := s.(roomOf := s.roomOf - {ws});
    if Attached(s, ws) then
      var id := s.roomOf[ws];
      var remaining := MapDelete(s.rooms[id].players, ws);
      if |remaining| == 0 then Step(s1.(rooms := s.rooms - {id}), [])
      else Step(s1.(rooms := s.rooms[id := s.rooms[id].(players := remaining)]),
                Fanout(remaining, OpponentLeft("Opponent has left the game")))
    else
      Step(s1, [])
  }

  // ---------------------------------------------------------------------
  // The registry invariant.

  /** What every room in the registry satisfies. */
  predicate RoomOk(r: Room) {
    && 1 <= |r.players| <= 2
    && DistinctConns(r.players)
    && (forall x :: x in r.players ==> IsMark(x.mark))
    && IsMark(r.currentPlayer)
    && WellFormed(r.gameState)
    && r.moveHistory == []
    && (r.lastMove.Some? ==> IsMark(r.lastMove.value.player))
  }

  predicate Invariant(s: State) {
    forall id :: id in s.rooms ==> RoomOk(s.rooms[id])
  }

  lemma InitialStateValid()
    ensures Invariant(InitialState) && InitialState.rooms == map[]
  {
  }

  /** Every handler keeps every room within two members, with marks X/O, a well-formed board and an empty `moveHistory`. */
  lemma DispatchPreservesValid(s: State, ws: ConnId, m: ClientMsg)
    requires Invariant(s)
    ensures Invariant(Dispatch(s, ws, m).state)
  {
    var t := Dispatch(s, ws, m).state;
    forall id | id in t.rooms
      ensures RoomOk(t.rooms[id])
    {
      if id in s.rooms && t.rooms[id] != s.rooms[id] {
        var r := s.rooms[id];
        assert RoomOk(r);
        match m
        case Join(_, _) =>
          assert |r.players| < 2;
          assert t.rooms[id].players == MapSet(r.players, ws, "O");
        case Move(index, player) =>
          var r' := t.rooms[id];
          assert MoveAccepted(r, index, player);
          assert r' == ApplyMove(r, index, player);
          assert r'.gameState == r.gameState[index := player];
          assert WellFormed(r'.gameState) by {
            forall i | 0 <= i < 9
              ensures r'.gameState[i] == "" || IsMark(r'.gameState[i])
            {
              if i != index { assert r'.gameState[i] == r.gameState[i]; }
            }
          }
        case Restart =>
        case Undo(_) =>
          var r' := t.rooms[id];
          assert r' == UndoRoom(r);
          assert WellFormed(r'.gameState) by {
            forall i | 0 <= i < 9
              ensures r'.gameState[i] == "" || IsMark(r'.gameState[i])
            {
              if i != r.lastMove.value.index { assert r'.gameState[i] == r.gameState[i]; }
            }
          }
        case Chat(_, _) =>
        case Unrecognised(_) =>
      }
    }
  }

  lemma ClosePreservesValid(s: State, ws: ConnId)
    requires Invariant(s)
    ensures Invariant(CloseStep(s, ws).state)
  {
    var t := CloseStep(s, ws).state;
    forall id | id in t.rooms
      ensures RoomOk(t.rooms[id])
    {
      if Attached(s, ws) && id == s.roomOf[ws] {
        var r := s.rooms[id];
        var remaining := MapDelete(r.players, ws);
        assert t.rooms[id] == r.(players := remaining);
      }
    }
  }

  // ---------------------------------------------------------------------
  // Properties of the handlers.

  /** A join to an unknown code creates an empty room with the joiner as X, and only the joiner hears `joined`. */
  lemma JoinUnknownRoom(s: State, ws: ConnId, id: RoomId, playerId: string)
    requires id !in s.rooms
    ensures var r := Dispatch(s, ws, Join(id, playerId));
      && r.state.rooms == s.rooms[id := Room([Member(ws, "X")], EmptyBoard, "X", [], None)]
      && r.state.roomOf == s.roomOf[ws := id]
      && r.out == [Send(ws, Joined("X", "Waiting for opponent..."))]
  {
  }

  /** A join to a room holding one other connection adds the joiner as O and starts the game for both, first player first. */
  lemma JoinWaitingRoom(s: State, ws: ConnId, id: RoomId, playerId: string, first: Member)
    requires id in s.rooms && s.rooms[id].players == [first] && first.conn != ws
    ensures var r := Dispatch(s, ws, Join(id, playerId)); var room := s.rooms[id];
      && r.state.rooms == s.rooms[id := room.(players := [first, Member(ws, "O")])]
      && r.state.roomOf == s.roomOf[ws := id]
      && r.out == [Send(ws, Joined("O", "Game starting!")),
                   Send(first.conn, Start(room.gameState, room.currentPlayer)),
                   Send(ws, Start(room.gameState, room.currentPlayer))]
  {
    var room := s.rooms[id];
    assert MapSet([first], ws, "O") == [first, Member(ws, "O")];
  }

  /**
   * A join to a room that already has two players is refused to the joiner
   * alone and leaves every room as it was; the joiner's `roomId` is set to
   * that room all the same.
   */
  lemma JoinFullRoom(s: State, ws: ConnId, id: RoomId, playerId: string)
    requires id in s.rooms && |s.rooms[id].players| >= 2
    ensures var r := Dispatch(s, ws, Join(id, playerId));
      && r.state.rooms == s.rooms
      && r.state.roomOf == s.roomOf[ws := id]
      && r.out == [Send(ws, Error("Room is full"))]
  {
  }

  /** A move the validation refuses, or one from a connection outside any live room, changes nothing and sends nothing. */
  lemma RejectedMoveIsSilent(s: State, ws: ConnId, index: int, player: Cell)
    requires !Attached(s, ws) || !MoveAccepted(s.rooms[s.roomOf[ws]], index, player)
    ensures Dispatch(s, ws, Move(index, player)) == Step(s, [])
  {
  }

  /**
   * An accepted move writes the cell, hands the turn to the other mark,
   * records `lastMove`, broadcasts `move` to every player and only then the
   * outcome, if there is one.
   */
  lemma AcceptedMove(s: State, ws: ConnId, index: Index, player: Cell)
    requires Attached(s, ws) && MoveAccepted(s.rooms[s.roomOf[ws]], index, player)
    ensures var id := s.roomOf[ws]; var r := Dispatch(s, ws, Move(index, player));
      var room := r.state.rooms[id]; var n := |room.players|;
      && r.state.roomOf == s.roomOf
      && r.state.rooms.Keys == s.rooms.Keys
      && (forall other :: other in s.rooms && other != id ==> r.state.rooms[other] == s.rooms[other])
      && room.players == s.rooms[id].players
      && room.gameState == s.rooms[id].gameState[index := player]
      && room.currentPlayer == (if player == "X" then "O" else "X")
      && room.lastMove == Some(LastMove(index, player))
      && room.moveHistory == s.rooms[id].moveHistory
      && n <= |r.out|
      && (forall i :: 0 <= i < n ==>
            r.out[i] == Send(room.players[i].conn, MoveMade(index, player, room.gameState, room.currentPlayer)))
      && r.out[n..] == OutcomeSends(room)
  {
  }

  /**
   * The outcome broadcast: a complete line gives `gameOver` with the winner
   * and line that gameUtils' checkWinner reports; otherwise a full board
   * gives a draw; otherwise nothing is sent.
   */
  lemma OutcomeOfMove(room: Room)
    requires |room.players| > 0
    ensures var v := CheckWinner(room.gameState);
      && (OutcomeSends(room) != [] <==> HasCompleteLine(room.gameState) || Filled(room.gameState))
      && (HasCompleteLine(room.gameState) ==>
            OutcomeSends(room) == Fanout(room.players, GameOver(v.winner.value, room.gameState, v.winningLine)))
      && (!HasCompleteLine(room.gameState) && Filled(room.gameState) ==>
            OutcomeSends(room) == Fanout(room.players, GameOver("draw", room.gameState, None)))
  {
    var v := CheckWinner(room.gameState);
    if HasCompleteLine(room.gameState) {
      assert v.winningLine.Some?;
      assert v.winner.Some?;
    }
  }

  /** The server never looks at which mark a connection was assigned: any two members of a room may make the same move. */
  lemma MoveIgnoresAssignedMark(s: State, ws1: ConnId, ws2: ConnId, index: int, player: Cell)
    requires Attached(s, ws1) && Attached(s, ws2) && s.roomOf[ws1] == s.roomOf[ws2]
    ensures Dispatch(s, ws1, Move(index, player)) == Dispatch(s, ws2, Move(index, player))
  {
  }

  /** Restart clears the board, gives the turn to X, empties the history and `lastMove`, and tells every player. */
  lemma RestartResets(s: State, ws: ConnId)
    requires Attached(s, ws)
    ensures var id := s.roomOf[ws]; var r := Dispatch(s, ws, Restart); var room := r.state.rooms[id];
      && r.state.rooms == s.rooms[id := s.rooms[id].(gameState := EmptyBoard, currentPlayer := "X",
                                                     moveHistory := [], lastMove := None)]
      && r.out == Fanout(room.players, Restarted(EmptyBoard, "X"))
      && CheckWinner(room.gameState) == InProgress
  {
    EmptyBoardInProgress();
  }

  /** An undo right after an accepted move restores the board and the turn exactly. */
  lemma UndoAfterMoveRestores(room: Room, index: Index, player: Cell)
    requires MoveAccepted(room, index, player)
    ensures var moved := ApplyMove(room, index, player);
      && UndoAccepted(moved, Some(player))
      && UndoRoom(moved).gameState == room.gameState
      && UndoRoom(moved).currentPlayer == room.currentPlayer
      && UndoRoom(moved).lastMove.None?
  {
    var moved := ApplyMove(room, index, player);
    assert UndoRoom(moved).gameState == room.gameState[index := player][index := ""];
    assert room.gameState[index := player][index := ""] == room.gameState;
  }

  /** Undo keeps one ply only: after an undo, a second undo by anyone is refused. */
  lemma SecondUndoRefused(s: State, ws: ConnId, player: Option<Cell>, again: Option<Cell>)
    requires Attached(s, ws) && UndoAccepted(s.rooms[s.roomOf[ws]], player)
    ensures var r := Dispatch(s, ws, Undo(player));
      && r.state.rooms[s.roomOf[ws]].currentPlayer == player.value
      && r.state.rooms[s.roomOf[ws]].gameState == s.rooms[s.roomOf[ws]].gameState[s.rooms[s.roomOf[ws]].lastMove.value.index := ""]
      && Dispatch(r.state, ws, Undo(again)) == Step(r.state, [])
  {
  }

  /** An undo from the mark that did not make the last move, or with no mark at all, is refused silently. */
  lemma UndoByOtherRefused(s: State, ws: ConnId, player: Option<Cell>)
    requires Attached(s, ws)
    requires var room := s.rooms[s.roomOf[ws]]; room.lastMove.Some? && player != Some(room.lastMove.value.player)
    ensures Dispatch(s, ws, Undo(player)) == Step(s, [])
  {
  }

  /** Chat never changes state; it is relayed to every player of the sender's room, if it has one. */
  lemma ChatOnlyRelays(s: State, ws: ConnId, message: string, player: string)
    ensures var r := Dispatch(s, ws, Chat(message, player));
      && r.state == s
      && (Attached(s, ws) ==> r.out == Fanout(s.rooms[s.roomOf[ws]].players, ChatRelay(message, player)))
      && (!Attached(s, ws) ==> r.out == [])
  {
  }

  /** Move, restart, undo and chat from a connection whose room id is null, empty or no longer a room do nothing. */
  lemma DetachedIsIgnored(s: State, ws: ConnId, m: ClientMsg)
    requires !Attached(s, ws) && !m.Join?
    ensures Dispatch(s, ws, m) == Step(s, [])
  {
  }

  /** When the last connection of a room closes, the room is deleted and nobody is told. */
  lemma CloseLastMember(s: State, ws: ConnId, mark: Cell)
    requires Attached(s, ws) && s.rooms[s.roomOf[ws]].players == [Member(ws, mark)]
    ensures var r := CloseStep(s, ws);
      && r.state.rooms == s.rooms - {s.roomOf[ws]}
      && r.out == []
  {
    assert MapDelete([Member(ws, mark)], ws) == [];
  }

  /** When one of two players closes, the room stays with the other player, who alone gets `opponentLeft`. */
  lemma CloseWithOpponent(s: State, ws: ConnId, mine: Cell, other: Member)
    requires Attached(s, ws)
    requires var ps := s.rooms[s.roomOf[ws]].players; ps == [Member(ws, mine), other] || ps == [other, Member(ws, mine)]
    requires other.conn != ws
    ensures var id := s.roomOf[ws]; var r := CloseStep(s, ws);
      && r.state.rooms == s.rooms[id := s.rooms[id].(players := [other])]
      && r.out == [Send(other.conn, OpponentLeft("Opponent has left the game"))]
  {
    var id := s.roomOf[ws];
    if s.rooms[id].players == [Member(ws, mine), other] {
      assert MapDelete([other], ws) == [other];
      assert MapDelete([Member(ws, mine), other], ws) == [other];
    } else {
      assert MapDelete([Member(ws, mine)], ws) == [];
      assert MapDelete([other, Member(ws, mine)], ws) == [other];
    }
  }

  /** After the last member of a room has left, a join with the same code creates a brand-new room in which the joiner is X. */
  lemma RejoinAfterEmptyIsFresh(s: State, ws: ConnId, mark: Cell, next: ConnId, playerId: string)
    requires Attached(s, ws) && s.rooms[s.roomOf[ws]].players == [Member(ws, mark)]
    ensures var id := s.roomOf[ws]; var r := Dispatch(CloseStep(s, ws).state, next, Join(id, playerId));
      && r.state.rooms[id] == NewRoom(next)
      && r.out == [Send(next, Joined("X", "Waiting for opponent..."))]
  {
    CloseLastMember(s, ws, mark);
  }

  /**
   * A connection refused with "Room is full" keeps that room as its `roomId`,
   * so when it closes, both players of the room, neither of whom left, are
   * told that their opponent has left.
   */
  lemma RefusedJoinerCloseNotifiesBoth(s: State, ws: ConnId, id: RoomId, playerId: string, p1: Member, p2: Member)
    requires id != "" && id in s.rooms && s.rooms[id].players == [p1, p2]
    requires p1.conn != ws && p2.conn != ws
    ensures var joined := Dispatch(s, ws, Join(id, playerId)); var closed := CloseStep(joined.state, ws);
      && joined.out == [Send(ws, Error("Room is full"))]
      && closed.state.rooms == s.rooms
      && closed.out == [Send(p1.conn, OpponentLeft("Opponent has left the game")),
                        Send(p2.conn, OpponentLeft("Opponent has left the game"))]
  {
    var joined := Dispatch(s, ws, Join(id, playerId));
    assert joined.state.rooms == s.rooms;
  }

  /**
   * The second mark is always O: if X leaves a room and someone joins, the
   * room holds two O players, so the marks are not always the pair {X, O}.
   */
  lemma RejoinAfterXLeavesGivesTwoOs(s: State, x: ConnId, o: ConnId, newcomer: ConnId, id: RoomId, playerId: string)
    requires Attached(s, x) && s.roomOf[x] == id
    requires s.rooms[id].players == [Member(x, "X"), Member(o, "O")]
    requires x != o && newcomer != o && newcomer != x
    ensures var left := CloseStep(s, x).state; var r := Dispatch(left, newcomer, Join(id, playerId));
      && r.state.rooms[id].players == [Member(o, "O"), Member(newcomer, "O")]
      && r.out[0] == Send(newcomer, Joined("O", "Game starting!"))
  {
    CloseWithOpponent(s, x, "X", Member(o, "O"));
    var left := CloseStep(s, x).state;
    assert left.rooms[id].players == [Member(o, "O")];
    assert MapSet([Member(o, "O")], newcomer, "O") == [Member(o, "O"), Member(newcomer, "O")];
  }

  /**
   * There is no finished state: a room whose board already holds a complete
   * line still accepts a move into an empty cell from the mark whose turn it is.
   */
  lemma MovesAcceptedAfterWin(room: Room, index: Index)
    requires HasCompleteLine(room.gameState) && room.gameState[index] == ""
    ensures MoveAccepted(room, index, room.currentPlayer)
    ensures ApplyMove(room, index, room.currentPlayer).gameState[index] == room.currentPlayer
  {
  }

  /** There is no waiting state either: a room whose only member is X already accepts X's opening move. */
  lemma MoveAcceptedWhileWaiting(s: State, ws: ConnId, id: RoomId, playerId: string, index: Index)
    requires id != "" && id !in s.rooms
    ensures var joined := Dispatch(s, ws, Join(id, playerId)).state;
            var r := Dispatch(joined, ws, Move(index, "X"));
            && r.state.rooms[id].players == [Member(ws, "X")]
            && r.state.rooms[id].gameState == EmptyBoard[index := "X"]
            && |r.out| > 0 && r.out[0] == Send(ws, MoveMade(index, "X", EmptyBoard[index := "X"], "O"))
  {
    assert EmptyBoard[index] == "";
  }

  /**
   * A room under the empty code is created by a join but never deleted: the
   * close of its creator skips it, because the empty code is falsy.
   */
  lemma EmptyCodeRoomIsNeverRemoved(s: State, ws: ConnId, playerId: string)
    requires "" !in s.rooms
    ensures var joined := Dispatch(s, ws, Join("", playerId)); var closed := CloseStep(joined.state, ws);
      && "" in closed.state.rooms
      && closed.state.rooms[""] == NewRoom(ws)
      && closed.out == []
  {
  }

  /**
   * The join handler has no truthiness test, so a second connection can join
   * the room under the empty code and both are told the game starts; after
   * that, a move from either member is ignored, so the game cannot be played.
   */
  lemma EmptyCodeRoomIsJoinableButStuck(s: State, a: ConnId, b: ConnId, pa: string, pb: string, index: int, player: Cell)
    requires "" !in s.rooms && a != b
    ensures var first := Dispatch(s, a, Join("", pa)); var second := Dispatch(first.state, b, Join("", pb));
      && second.state.rooms[""].players == [Member(a, "X"), Member(b, "O")]
      && second.out == [Send(b, Joined("O", "Game starting!")),
                        Send(a, Start(EmptyBoard, "X")), Send(b, Start(EmptyBoard, "X"))]
      && Dispatch(second.state, a, Move(index, player)) == Step(second.state, [])
      && Dispatch(second.state, b, Move(index, player)) == Step(second.state, [])
  {
    var first := Dispatch(s, a, Join("", pa));
    JoinWaitingRoom(first.state, b, "", pb, Member(a, "X"));
  }

  /**
   * `players.set` on a key that is already present replaces its mark: a
   * connection that sends a second join to the room it created alone becomes
   * O, and it is sent both `joined` and `start`.
   */
  lemma RejoinOwnRoomTurnsXIntoO(s: State, ws: ConnId, id: RoomId, playerId: string)
    requires id in s.rooms && s.rooms[id].players == [Member(ws, "X")]
    ensures var r := Dispatch(s, ws, Join(id, playerId)); var room := s.rooms[id];
      && r.state.rooms == s.rooms[id := room.(players := [Member(ws, "O")])]
      && r.out == [Send(ws, Joined("O", "Game starting!")), Send(ws, Start(room.gameState, room.currentPlayer))]
  {
    var room := s.rooms[id];
    var ps := MapSet(room.players, ws, "O");
    assert ps == [Member(ws, "O")] + room.players[1..];
    assert ps == [Member(ws, "O")];
    assert Fanout(ps, Start(room.gameState, room.currentPlayer)) == [Send(ws, Start(room.gameState, room.currentPlayer))];
  }

  // ---------------------------------------------------------------------
  // The relay as the source runs it: state updated by assignment.

  /** The `forEach` send loop. */
  method Broadcast(ps: seq<Member>, m: ServerMsg) returns (out: seq<Send>)
    ensures out == Fanout(ps, m)
  {
    out := [];
    for i := 0 to |ps|
      invariant |out| == i
      invariant forall k :: 0 <= k < i ==> out[k] == Send(ps[k].conn, m)
    {
      out := out + [Send(ps[i].conn, m)];
    }
  }

  class Relay {
    var rooms: map<RoomId, Room>
    var roomOf: map<ConnId, RoomId>

    ghost predicate Valid()
      reads this
    {
      Invariant(State(rooms, roomOf))
    }

    constructor()
      ensures Valid()
      ensures rooms == map[] && roomOf == map[]
    {
      rooms := map[];
      roomOf := map[];
    }

    /** `ws.on("message", ...)` for one parsed message. */
    method OnMessage(ws: ConnId, m: ClientMsg) returns (out: seq<Send>)
      requires Valid()
      modifies this
      ensures Valid()
      ensures Step(State(rooms, roomOf), out) == Dispatch(old(State(rooms, roomOf)), ws, m)
    {
      DispatchPreservesValid(State(rooms, roomOf), ws, m);
      match m {
        case Join(id, _) => out := HandleJoin(ws, id);
        case Move(index, player) => out := HandleMove(ws, index, player);
        case Restart => out := HandleRestart(ws);
        case Undo(player) => out := HandleUndo(ws, player);
        case Chat(message, player) => out := HandleChat(ws, message, player);
        case Unrecognised(_) => out := [];
      }
    }

    method HandleJoin(ws: ConnId, id: RoomId) returns (out: seq<Send>)
      modifies this
      ensures Step(State(rooms, roomOf), out) == JoinStep(old(State(rooms, roomOf)), ws, id)
    {
      roomOf := roomOf[ws := id];
      if id !in rooms {
        rooms := rooms[id := Room([Member(ws, "X")], EmptyBoard, "X", [], None)];
        out := [Send(ws, Joined("X", "Waiting for opponent..."))];
      } else {
        var room := rooms[id];
        if |room.players| < 2 {
          room := room.(players := MapSet(room.players, ws, "O"));
          rooms := rooms[id := room];
          var starts := Broadcast(room.players, Start(room.gameState, room.currentPlayer));
          out := [Send(ws, Joined("O", "Game starting!"))] + starts;
        } else {
          out := [Send(ws, Error("Room is full"))];
        }
      }
    }

    method HandleMove(ws: ConnId, index: int, player: Cell) returns (out: seq<Send>)
      modifies this
      ensures Step(State(rooms, roomOf), out) == MoveStep(old(State(rooms, roomOf)), ws, index, player)
    {
      out := [];
      if ws in roomOf && roomOf[ws] != "" && roomOf[ws] in rooms {
        var id := roomOf[ws];
        var room := rooms[id];
        if 0 <= index < 9 && room.gameState[index] == "" && room.currentPlayer == player {
          room := room.(gameState := room.gameState[index := player]);
          room := room.(currentPlayer := if player == "X" then "O" else "X");
          room := room.(lastMove := Some(LastMove(index, player)));
          rooms := rooms[id := room];
          out := Broadcast(room.players, MoveMade(index, player, room.gameState, room.currentPlayer));
          var v := ServerCheckWinner(room.gameState);
          if v.winner.Some? {
            var over := Broadcast(room.players, GameOver(v.winner.value, room.gameState, v.winningLine));
            out := out + over;
          } else if Filled(room.gameState) {
            var over := Broadcast(room.players, GameOver("draw", room.gameState, None));
            out := out + over;
          }
        }
      }
    }

    method HandleRestart(ws: ConnId) returns (out: seq<Send>)
      modifies this
      ensures Step(State(rooms, roomOf), out) == RestartStep(old(State(rooms, roomOf)), ws)
    {
      out := [];
      if ws in roomOf && roomOf[ws] != "" && roomOf[ws] in rooms {
        var id := roomOf[ws];
        var room := rooms[id];
        room := room.(gameState := EmptyBoard);
        room := room.(currentPlayer := "X");
        room := room.(moveHistory := []);
        room := room.(lastMove := None);
        rooms := rooms[id := room];
        out := Broadcast(room.players, Restarted(room.gameState, room.currentPlayer));
      }
    }

    method HandleUndo(ws: ConnId, player: Option<Cell>) returns (out: seq<Send>)
      modifies this
      ensures Step(State(rooms, roomOf), out) == UndoStep(old(State(rooms, roomOf)), ws, player)
    {
      out := [];
      if ws in roomOf && roomOf[ws] != "" && roomOf[ws] in rooms {
        var id := roomOf[ws];
        var room := rooms[id];
        if room.lastMove.Some? && player == Some(room.lastMove.value.player) {
          var index := room.lastMove.value.index;
          var mark := player.value;
          room := room.(gameState := room.gameState[index := ""]);
          room := room.(currentPlayer := mark);
          room := room.(lastMove := None);
          rooms := rooms[id := room];
          out := Broadcast(room.players, MoveMade(index, mark, room.gameState, room.currentPlayer));
        }
      }
    }

    method HandleChat(ws: ConnId, message: string, player: string) returns (out: seq<Send>)
      modifies this
      ensures Step(State(rooms, roomOf), out) == ChatStep(old(State(rooms, roomOf)), ws, message, player)
    {
      out := [];
      if ws in roomOf && roomOf[ws] != "" && roomOf[ws] in rooms {
        out := Broadcast(rooms[roomOf[ws]].players, ChatRelay(message, player));
      }
    }

    /** `ws.on("close", ...)`. */
    method OnClose(ws: ConnId) returns (out: seq<Send>)
      requires Valid()
      modifies this
      ensures Valid()
      ensures Step(State(rooms, roomOf), out) == CloseStep(old(State(rooms, roomOf)), ws)
    {
      ghost var before := State(rooms, roomOf);
      out := [];
      if ws in roomOf && roomOf[ws] != "" && roomOf[ws] in rooms {
        var id := roomOf[ws];
        var room := rooms[id];
        var remaining := MapDelete(room.players, ws);
        if |remaining| == 0 {
          rooms := rooms - {id};
        } else {
          rooms := rooms[id := room.(players := remaining)];
          out := Broadcast(remaining, OpponentLeft("Opponent has left the game"));
        }
      }
      roomOf := roomOf - {ws};
      ClosePreservesValid(before, ws);
    }
  }
}
