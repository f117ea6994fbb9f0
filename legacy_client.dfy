/**
 * The older browser client of the top-level game.js: a mirror of the room
 * that overwrites its board and turn with whatever server.js sends, and a
 * guard that decides when a click becomes a `move` message.  Sockets and the
 * DOM are left out; a message the client would send is returned.
 */
module Client {
  import opened Wrappers
  import opened GameUtils
  import opened Protocol
  import Server

  /** The client's game state as a value. */
  datatype Mirror = Mirror(board: Board, currentPlayer: Cell, gameActive: bool,
                           player: Option<Cell>, isConnected: bool)

  /** The `onmessage` switch for one message; "chat" has no case and changes nothing. */
  function Receive(v: Mirror, m: ServerMsg): Mirror {
    match m
    case Joined(p, _) => v.(player := Some(p))
    case Start(b, c) => v.(board := b, currentPlayer := c, gameActive := true)
    case MoveMade(_, _, b, c) => v.(board := b, currentPlayer := c)
    case GameOver(_, b, _) => v.(board := b, gameActive := false)
    case Restarted(b, c) => v.(board := b, currentPlayer := c, gameActive := true)
    case OpponentLeft(_) => v.(gameActive := false)
    case Error(_) => v
    case ChatRelay(_, _) => v
  }

  /** The messages received in order. */
  function ReceiveAll(v: Mirror, ms: seq<ServerMsg>): Mirror
    decreases |ms|
  {
    if ms == [] then v else ReceiveAll(Receive(v, ms[0]), ms[1..])
  }

  lemma {:induction false} ReceiveAllAppend(v: Mirror, a: seq<ServerMsg>, b: seq<ServerMsg>)
    ensures ReceiveAll(v, a + b) == ReceiveAll(ReceiveAll(v, a), b)
    decreases |a|
  {
    if a == [] {
      assert a + b == b;
    } else {
      assert (a + b)[0] == a[0] && (a + b)[1..] == a[1..] + b;
      ReceiveAllAppend(Receive(v, a[0]), a[1..], b);
    }
  }

  /** The messages of a batch of `ws.send` calls that reach connection `c`, in order. */
  function Inbox(out: seq<Send>, c: ConnId): (r: seq<ServerMsg>)
    ensures |r| <= |out|
  {
    if out == [] then []
    else (if out[0].to == c then [out[0].msg] else []) + Inbox(out[1..], c)
  }

  lemma {:induction false} InboxAppend(a: seq<Send>, b: seq<Send>, c: ConnId)
    ensures Inbox(a + b, c) == Inbox(a, c) + Inbox(b, c)
  {
    if a == [] {
      assert a + b == b;
    } else {
      var head := if a[0].to == c then [a[0].msg] else [];
      assert (a + b)[0] == a[0] && (a + b)[1..] == a[1..] + b;
      assert Inbox(a + b, c) == head + Inbox(a[1..] + b, c);
      InboxAppend(a[1..], b, c);
      assert head + (Inbox(a[1..], c) + Inbox(b, c)) == (head + Inbox(a[1..], c)) + Inbox(b, c);
    }
  }

  /** A broadcast reaches a member of the room exactly once and nobody else. */
  lemma {:induction false} InboxOfFanout(ps: seq<Server.Member>, m: ServerMsg, c: ConnId)
    requires Server.DistinctConns(ps)
    ensures Inbox(Server.Fanout(ps, m), c) == if Server.HasConn(ps, c) then [m] else []
  {
    if ps != [] {
      var f := Server.Fanout(ps, m);
      assert f[1..] == Server.Fanout(ps[1..], m);
      InboxOfFanout(ps[1..], m, c);
      if ps[0].conn == c {
        assert !Server.HasConn(ps[1..], c);
      } else {
        assert Server.HasConn(ps, c) == Server.HasConn(ps[1..], c) by {
          if Server.HasConn(ps, c) {
            var x :| x in ps && x.conn == c;
            assert x in ps[1..];
          }
        }
      }
    }
  }

  /**
   * The mirror follows the room: after an accepted move, a member of the room
   * that processes what the server sent it has the room's new board and turn,
   * and it stays active exactly when no `gameOver` followed.
   */
  lemma MirrorFollowsMove(s: Server.State, ws: ConnId, index: int, player: Cell, c: ConnId, v: Mirror)
    requires Server.Attached(s, ws) && Server.MoveAccepted(s.rooms[s.roomOf[ws]], index, player)
    requires Server.DistinctConns(s.rooms[s.roomOf[ws]].players)
    requires Server.HasConn(s.rooms[s.roomOf[ws]].players, c)
    ensures var step := Server.MoveStep(s, ws, index, player);
            var room := step.state.rooms[s.roomOf[ws]];
            var w := ReceiveAll(v, Inbox(step.out, c));
            && w.board == room.gameState
            && w.currentPlayer == room.currentPlayer
            && (w.gameActive <==> v.gameActive && Server.ServerCheckWinner(room.gameState).winner.None?
                                              && !Filled(room.gameState))
  {
    var room := Server.ApplyMove(s.rooms[s.roomOf[ws]], index, player);
    assert Server.MoveStep(s, ws, index, player).out == Server.MoveSends(room, index, player);
    MirrorAfterMoveSends(room, index, player, c, v);
  }

  /** The same on one room: a member that processes the move broadcast and the outcome mirrors the room. */
  lemma MirrorAfterMoveSends(room: Server.Room, index: Index, player: Cell, c: ConnId, v: Mirror)
    requires Server.DistinctConns(room.players) && Server.HasConn(room.players, c)
    ensures var w := ReceiveAll(v, Inbox(Server.MoveSends(room, index, player), c));
            && w.board == room.gameState
            && w.currentPlayer == room.currentPlayer
            && (w.gameActive <==> v.gameActive && Server.ServerCheckWinner(room.gameState).winner.None?
                                              && !Filled(room.gameState))
  {
    var moved := MoveMade(index, player, room.gameState, room.currentPlayer);
    InboxAppend(Server.Fanout(room.players, moved), Server.OutcomeSends(room), c);
    InboxOfFanout(room.players, moved, c);
    ReceiveAllAppend(v, [moved], Inbox(Server.OutcomeSends(room), c));
    assert ReceiveAll(v, [moved]) == Receive(v, moved) by { assert [moved][1..] == []; }
    MirrorAfterOutcome(room, c, Receive(v, moved));
  }

  /** A member that processes the outcome broadcast keeps the room's board and turn and stops exactly on a result. */
  lemma MirrorAfterOutcome(room: Server.Room, c: ConnId, u: Mirror)
    requires Server.DistinctConns(room.players) && Server.HasConn(room.players, c)
    requires u.board == room.gameState
    ensures var w := ReceiveAll(u, Inbox(Server.OutcomeSends(room), c));
            && w.currentPlayer == u.currentPlayer
            && w.board == room.gameState
            && (w.gameActive <==> u.gameActive && Server.ServerCheckWinner(room.gameState).winner.None?
                                              && !Filled(room.gameState))
  {
    var verdict := Server.ServerCheckWinner(room.gameState);
    var over := if verdict.winner.Some? then GameOver(verdict.winner.value, room.gameState, verdict.winningLine)
                else GameOver("draw", room.gameState, None);
    if verdict.winner.Some? || Filled(room.gameState) {
      assert Server.OutcomeSends(room) == Server.Fanout(room.players, over);
      InboxOfFanout(room.players, over, c);
      assert [over][1..] == [];
    }
  }

  /**
   * The second player to join a waiting room ends up with mark O, the room's
   * board and turn, and an active game.
   */
  lemma JoinerMirrorStarts(s: Server.State, ws: ConnId, id: RoomId, v: Mirror)
    requires id in s.rooms && |s.rooms[id].players| == 1 && s.rooms[id].players[0].conn != ws
    ensures var step := Server.JoinStep(s, ws, id);
            var w := ReceiveAll(v, Inbox(step.out, ws));
            w == v.(player := Some("O"), board := s.rooms[id].gameState,
                    currentPlayer := s.rooms[id].currentPlayer, gameActive := true)
  {
    var room := s.rooms[id];
    var first := room.players[0];
    assert room.players == [first];
    assert !Server.HasConn(room.players, ws);
    var start := Start(room.gameState, room.currentPlayer);
    JoinerInbox(first, ws, start);
    Server.JoinWaitingRoom(s, ws, id, "", first);
    var inbox := [Joined("O", "Game starting!"), start];
    assert inbox[1..] == [start] && inbox[1..][1..] == [];
    assert ReceiveAll(v, inbox) == ReceiveAll(Receive(Receive(v, inbox[0]), start), []);
  }

  /** What the joiner of a waiting room receives: `joined`, then `start`. */
  lemma JoinerInbox(first: Server.Member, ws: ConnId, start: ServerMsg)
    requires first.conn != ws
    ensures Inbox([Send(ws, Joined("O", "Game starting!")), Send(first.conn, start), Send(ws, start)], ws)
            == [Joined("O", "Game starting!"), start]
  {
    var out := [Send(ws, Joined("O", "Game starting!")), Send(first.conn, start), Send(ws, start)];
    assert out[1..] == [Send(first.conn, start), Send(ws, start)];
    assert out[1..][1..] == [Send(ws, start)];
    assert out[1..][1..][1..] == [];
    assert Inbox(out[1..][1..], ws) == [start];
    assert Inbox(out[1..], ws) == [start];
  }

  /**
   * When the mirror agrees with the room, a move the client sends is one
   * server.js accepts.
   */
  lemma MirroredClickIsAccepted(v: Mirror, room: Server.Room, index: Index)
    requires v.board == room.gameState && v.currentPlayer == room.currentPlayer
    requires ClickAllowed(v, index)
    ensures Server.MoveAccepted(room, index, v.player.value)
  {
  }

  /**
   * The restart this client sends while connected reaches server.js: every
   * member of the room then mirrors the empty board with X to move and an
   * active game.
   */
  lemma RestartMirrorResets(s: Server.State, ws: ConnId, c: ConnId, v: Mirror)
    requires Server.Attached(s, ws)
    requires Server.DistinctConns(s.rooms[s.roomOf[ws]].players)
    requires Server.HasConn(s.rooms[s.roomOf[ws]].players, c)
    ensures var w := ReceiveAll(v, Inbox(Server.Dispatch(s, ws, Restart).out, c));
            w == v.(board := EmptyBoard, currentPlayer := "X", gameActive := true)
  {
    var players := s.rooms[s.roomOf[ws]].players;
    InboxOfFanout(players, Restarted(EmptyBoard, "X"), c);
    assert Inbox(Server.Dispatch(s, ws, Restart).out, c) == [Restarted(EmptyBoard, "X")];
  }

  /** The guard of `handleCellClick`. */
  predicate ClickAllowed(v: Mirror, index: Index) {
    v.isConnected && v.gameActive && v.board[index] == "" && v.player == Some(v.currentPlayer)
  }

  class LegacyClient {
    var board: Board
    var currentPlayer: Cell
    var gameActive: bool
    var player: Option<Cell>
    var isConnected: bool

    ghost function View(): Mirror
      reads this
    {
      Mirror(board, currentPlayer, gameActive, player, isConnected)
    }

    constructor ()
      ensures View() == Mirror(EmptyBoard, "X", false, None, false)
    {
      board := EmptyBoard;
      currentPlayer := "X";
      gameActive := false;
      player := None;
      isConnected := false;
    }

    /** `onopen`: connected, and the join request for the stored room code. */
    method OnOpen(roomId: RoomId, playerId: string) returns (sent: ClientMsg)
      modifies this`isConnected
      ensures isConnected && sent == Join(roomId, playerId)
    {
      isConnected := true;
      sent := Join(roomId, playerId);
    }

    /** `onmessage`. */
    method OnMessage(m: ServerMsg)
      modifies this
      ensures View() == Receive(old(View()), m)
    {
      match m {
        case Joined(p, _) =>
          player := Some(p);
        case Start(b, c) =>
          board, currentPlayer, gameActive := b, c, true;
        case MoveMade(_, _, b, c) =>
          board, currentPlayer := b, c;
        case GameOver(_, b, _) =>
          board, gameActive := b, false;
        case Restarted(b, c) =>
          board, currentPlayer, gameActive := b, c, true;
        case OpponentLeft(_) =>
          gameActive := false;
        case Error(_) =>
        case ChatRelay(_, _) =>
      }
    }

    /** `onerror` and `onclose`: disconnected and inactive. */
    method OnDisconnect()
      modifies this`isConnected, this`gameActive
      ensures !isConnected && !gameActive
    {
      isConnected := false;
      gameActive := false;
    }

    /**
     * `handleCellClick(cell)`: a `move` for the cell only when connected, the
     * game is active, the cell is empty and it is this client's turn; the move
     * carries the client's own mark.
     */
    method HandleCellClick(index: Index) returns (sent: Option<ClientMsg>)
      ensures sent.Some? <==> ClickAllowed(View(), index)
      ensures sent.Some? ==> sent.value == Move(index, currentPlayer) && player == Some(currentPlayer)
    {
      if !isConnected || !gameActive || board[index] != "" || player != Some(currentPlayer) {
        return None;
      }
      sent := Some(Move(index, player.value));
    }

    /** `restartGame()`: a `restart` request while connected. */
    method RestartGame() returns (sent: Option<ClientMsg>)
      ensures sent == if isConnected then Some(Restart) else None
    {
      sent := if isConnected then Some(Restart) else None;
    }
  }
}
