/**
 * The `WebSocketService` of src/js/services/websocket.js: the reconnect
 * counter with its linear back-off, the dispatch of incoming messages onto
 * the game object, and the three senders.  The socket itself is reduced to
 * whether it is open; the delay of a scheduled reconnect is returned instead
 * of being handed to `setTimeout`.
 */
module Session {
  import opened Wrappers
  import opened GameUtils
  import opened Protocol
  import Game
  import Server

  const MaxReconnectAttempts: nat := 5
  const ReconnectDelay: nat := 1000

  /** The messages `handleMessage` tells apart by their `type`. */
  datatype Incoming =
    | GameStart(player: Cell)                // "game_start"
    | MoveNotice(index: Index, mark: Cell)   // "move"
    | RestartNotice                          // "restart"
    | UndoNotice                             // "undo"
    | ErrorNotice(message: string)           // "error"
    | Unknown(kind: string)                  // any other type

  /** How a message sent by server.js looks to `handleMessage`. */
  function FromServer(m: ServerMsg): (r: Incoming)
    ensures !r.GameStart? && !r.UndoNotice?
    ensures r.MoveNotice? <==> m.MoveMade?
    ensures r.RestartNotice? <==> m.Restarted?
    ensures m.MoveMade? ==> r == MoveNotice(m.index, m.player)
  {
    match m
    case MoveMade(index, player, _, _) => MoveNotice(index, player)
    case Restarted(_, _) => RestartNotice
    case Error(message) => ErrorNotice(message)
    case Joined(_, _) => Unknown("joined")
    case Start(_, _) => Unknown("start")
    case GameOver(_, _, _) => Unknown("gameOver")
    case OpponentLeft(_) => Unknown("opponentLeft")
    case ChatRelay(_, _) => Unknown("chat")
  }

  /**
   * `handleDisconnect()` on the counter: below the limit it counts one more
   * attempt and schedules a reconnect after `reconnectDelay * attempts`;
   * at the limit nothing is scheduled.
   */
  function AfterClose(attempts: nat): (r: (nat, Option<nat>))
    ensures attempts < MaxReconnectAttempts ==> r.0 == attempts + 1 && r.1 == Some(ReconnectDelay * r.0)
    ensures attempts >= MaxReconnectAttempts ==> r == (attempts, None)
    ensures r.0 <= if attempts < MaxReconnectAttempts then MaxReconnectAttempts else attempts
  {
    if attempts < MaxReconnectAttempts then (attempts + 1, Some(ReconnectDelay * (attempts + 1)))
    else (attempts, None)
  }

  /** The delays scheduled by `n` closes in a row, starting from `attempts`, with no successful open in between. */
  function Delays(attempts: nat, n: nat): seq<nat>
    decreases n
  {
    if n == 0 then []
    else
      var (next, delay) := AfterClose(attempts);
      (if delay.Some? then [delay.value] else []) + Delays(next, n - 1)
  }

  lemma {:induction false} DelaysFrom(attempts: nat, n: nat)
    requires attempts <= MaxReconnectAttempts
    ensures |Delays(attempts, n)| == if n < MaxReconnectAttempts - attempts then n else MaxReconnectAttempts - attempts
    ensures forall k :: 0 <= k < |Delays(attempts, n)| ==> Delays(attempts, n)[k] == ReconnectDelay * (attempts + k + 1)
    decreases n
  {
    if n > 0 {
      if attempts < MaxReconnectAttempts {
        DelaysFrom(attempts + 1, n - 1);
      } else {
        DelaysFrom(attempts, n - 1);
      }
    }
  }

  /**
   * Without a successful open in between, a fresh service reconnects at most
   * five times, after 1000, 2000, ..., 5000 milliseconds.
   */
  lemma AtMostFiveReconnects(n: nat)
    ensures |Delays(0, n)| == if n < 5 then n else 5
    ensures forall k :: 0 <= k < |Delays(0, n)| ==> Delays(0, n)[k] == 1000 * (k + 1)
  {
    DelaysFrom(0, n);
  }

  /**
   * server.js answers an accepted undo with a "move" message for the cleared
   * cell; `handleMove` writes that mark back, so the client's board shows the
   * mark the server has just removed.
   */
  lemma UndoEchoRestoresMark(s: Server.State, ws: ConnId, mark: Option<Cell>, local: Game.Local, player: Option<Cell>)
    requires Server.Attached(s, ws) && Server.UndoAccepted(s.rooms[s.roomOf[ws]], mark)
    requires |s.rooms[s.roomOf[ws]].players| > 0
    ensures var step := Server.UndoStep(s, ws, mark);
            var last := s.rooms[s.roomOf[ws]].lastMove.value;
            && step.state.rooms[s.roomOf[ws]].gameState[last.index] == ""
            && |step.out| > 0
            && FromServer(step.out[0].msg) == MoveNotice(last.index, last.player)
            && Game.Record(local, last.index, last.player, player).board[last.index] == last.player
  {
  }

  /** The undo this client sends carries no mark, so server.js never accepts it: the room and the sockets see nothing. */
  lemma ClientUndoIsNeverAccepted(s: Server.State, ws: ConnId)
    ensures Server.Dispatch(s, ws, Undo(None)) == Server.Step(s, [])
  {
  }

  class WebSocketService {
    const game: Game.TicTacToe
    var reconnectAttempts: nat
    var socketOpen: bool

    ghost predicate Valid()
      reads this, game
    {
      game.Valid()
    }

    constructor (game: Game.TicTacToe)
      ensures this.game == game && reconnectAttempts == 0 && !socketOpen
    {
      this.game := game;
      reconnectAttempts := 0;
      socketOpen := false;
    }

    /** `connect()`: a new socket that is not open yet. */
    method Connect()
      modifies this`socketOpen
      ensures !socketOpen
    {
      socketOpen := false;
    }

    /** `onopen`: connected, and the attempt counter starts again. */
    method OnOpen()
      modifies this, game`isConnected
      ensures socketOpen && reconnectAttempts == 0 && game.isConnected
    {
      socketOpen := true;
      game.isConnected := true;
      reconnectAttempts := 0;
    }

    /** `onclose` with `handleDisconnect()`: the delay of the scheduled reconnect, if any. */
    method OnClose() returns (delay: Option<nat>)
      modifies this, game`isConnected
      ensures !socketOpen && !game.isConnected
      ensures (reconnectAttempts, delay) == AfterClose(old(reconnectAttempts))
    {
      socketOpen := false;
      game.isConnected := false;
      if reconnectAttempts < MaxReconnectAttempts {
        reconnectAttempts := reconnectAttempts + 1;
        delay := Some(ReconnectDelay * reconnectAttempts);
      } else {
        delay := None;
      }
    }

    /** `handleMessage(data)`; `startsWithX` is the random choice `resetGame` makes on a restart. */
    method HandleMessage(m: Incoming, startsWithX: bool)
      requires Valid()
      modifies game, game.board
      ensures Valid()
      ensures game.isBotGame == old(game.isBotGame) && game.botDifficulty == old(game.botDifficulty)
              && game.isConnected == old(game.isConnected)
      ensures !m.GameStart? ==> game.player == old(game.player)
      ensures m.GameStart? ==> game.player == Some(m.player) && game.gameActive
                               && game.board == old(game.board) && game.State() == old(game.State()).(gameActive := true)
      ensures m.MoveNotice? ==> game.board == old(game.board) && game.player == old(game.player)
                                && game.State() == Game.Record(old(game.State()), m.index, m.mark, game.player)
      ensures m.RestartNotice? ==> fresh(game.board) && game.player == old(game.player)
                                   && game.State() == Game.Local(EmptyBoard, if startsWithX then "X" else "O", true, [], old(game.playerStats))
      ensures m.UndoNotice? ==> game.player == old(game.player) && game.State() == Game.Rewound(old(game.State()))
      ensures m.ErrorNotice? || m.Unknown? ==> unchanged(game) && game.board[..] == old(game.board[..])
    {
      match m {
        case GameStart(player) =>
          game.player := Some(player);
          game.gameActive := true;
        case MoveNotice(index, mark) =>
          HandleMove(index, mark);
        case RestartNotice =>
          HandleRestart(startsWithX);
        case UndoNotice =>
          game.Rewind();
        case ErrorNotice(_) =>
        case Unknown(_) =>
      }
    }

    /** `handleMove(data)`: no turn or activity check; the mark is written whatever the cell holds. */
    method HandleMove(index: Index, mark: Cell)
      requires Valid()
      modifies game, game.board
      ensures Valid() && game.board == old(game.board) && game.Config() == old(game.Config())
      ensures game.State() == Game.Record(old(game.State()), index, mark, game.player)
    {
      game.board[index] := mark;
      game.moveHistory := game.moveHistory + [Game.HistoryEntry(mark, index)];
      var v := CheckWinner(game.board[..]);
      if v.winner.Some? {
        game.HandleGameOver(v.winner.value);
      } else {
        game.currentPlayer := Other(game.currentPlayer);
      }
    }

    /** `handleRestart()`: a reset, then the game is active again. */
    method HandleRestart(startsWithX: bool)
      requires Valid()
      modifies game
      ensures Valid() && fresh(game.board) && game.Config() == old(game.Config())
      ensures game.State() == Game.Local(EmptyBoard, if startsWithX then "X" else "O", true, [], old(game.playerStats))
    {
      game.ResetGame(startsWithX);
      game.gameActive := true;
    }

    /**
     * `sendMove`, `sendRestart` and `sendUndo`: nothing unless the socket is
     * open.  A move carries the game's current mark, not the client's own.
     */
    method Send(request: Game.Request) returns (sent: Option<ClientMsg>)
      ensures !socketOpen ==> sent.None?
      ensures socketOpen ==> sent == Some(match request
                                          case SendMove(index) => Move(index, game.currentPlayer)
                                          case SendRestart => Restart
                                          case SendUndo => Undo(None))
    {
      if !socketOpen {
        return None;
      }
      match request {
        case SendMove(index) => sent := Some(Move(index, game.currentPlayer));
        case SendRestart => sent := Some(Restart);
        case SendUndo => sent := Some(Undo(None));
      }
    }
  }
}
