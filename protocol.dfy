/**
 * The JSON messages exchanged between server.js and its clients, one
 * constructor per `type` value.  Serialisation is not modelled: a message is
 * the parsed object.
 */
module Protocol {
  import opened Wrappers
  import opened GameUtils

  /** The identity of one WebSocket connection (the `ws` object on the server). */
  type ConnId = nat

  /** A room code. */
  type RoomId = string

  /** Messages a client sends to server.js. */
  datatype ClientMsg =
    | Join(roomId: RoomId, playerId: string)
    | Move(index: int, player: Cell)
    /** `undo` carries the sender's mark; a client that leaves it out sends `None`. */
    | Undo(mark: Option<Cell>)
    | Restart
    | Chat(message: string, sender: string)
    /** Any other `type` value: server.js's switch has no case for it. */
    | Unrecognised(kind: string)

  /** Messages server.js sends to a client. */
  datatype ServerMsg =
    | Joined(player: Cell, message: string)
    | Start(gameState: Board, currentPlayer: Cell)
    | MoveMade(index: Index, player: Cell, gameState: Board, currentPlayer: Cell)
    /** For a draw the source sends no `winningLine` key at all; it is `None` here. */
    | GameOver(winner: string, gameState: Board, winningLine: Option<Line>)
    | Restarted(gameState: Board, currentPlayer: Cell)
    | OpponentLeft(message: string)
    | Error(message: string)
    | ChatRelay(message: string, player: string)

  /** One `ws.send` call: the connection and the message. */
  datatype Send = Send(to: ConnId, msg: ServerMsg)
}
