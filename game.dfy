/**
 * The `TicTacToe` game object of src/js/game.js, restricted to its game
 * state: the board array, the turn, the move history, the statistics and the
 * bot-mode flags.  The DOM work of every method is left out.  `Math.random()`
 * for the starting mark is the boolean `startsWithX`; the bot's own random
 * picks are the real `rnd`.  In online mode the object asks the session
 * service to send a message; that request is returned as a `Request`.
 */
module Game {
  import opened Wrappers
  import opened GameUtils
  import Bot

  /** One `moveHistory` entry (the timestamp is left out). */
  datatype HistoryEntry = HistoryEntry(player: Cell, index: Index)

  /** `playerStats`. */
  datatype Stats = Stats(wins: nat, losses: nat, draws: nat)

  function Total(s: Stats): nat {
    s.wins + s.losses + s.draws
  }

  /** A call into the session service: `sendMove(index)`, `sendRestart()` or `sendUndo()`. */
  datatype Request = SendMove(index: Index) | SendRestart | SendUndo

  /** The part of the game state that moves, undo and reset change. */
  datatype Local = Local(board: Board, currentPlayer: Cell, gameActive: bool,
                         moveHistory: seq<HistoryEntry>, playerStats: Stats)

  /**
   * The statistics update of `handleGameOver`: exactly one counter goes up,
   * `draws` for a draw, `wins` when the winner is this client's mark and
   * `losses` otherwise (also when the client has no mark yet).
   */
  function Tally(s: Stats, winner: string, player: Option<Cell>): (r: Stats)
    ensures Total(r) == Total(s) + 1
    ensures r.wins >= s.wins && r.losses >= s.losses && r.draws >= s.draws
    ensures r.draws > s.draws <==> winner == "draw"
    ensures r.wins > s.wins <==> winner != "draw" && player == Some(winner)
    ensures r.losses > s.losses <==> winner != "draw" && player != Some(winner)
  {
    if winner == "draw" then s.(draws := s.draws + 1)
    else if player == Some(winner) then s.(wins := s.wins + 1)
    else s.(losses := s.losses + 1)
  }

  /**
   * The common tail of `makeMove` and of the session's `handleMove`: write
   * `mark` at `index`, record it, then either end the game (any truthy winner,
   * "draw" included) or flip the turn.
   */
  function Record(s: Local, index: Index, mark: Cell, player: Option<Cell>): Local {
    var board := s.board[index := mark];
    var history := s.moveHistory + [HistoryEntry(mark, index)];
    var v := CheckWinner(board);
    if v.winner.Some? then
      s.(board := board, moveHistory := history, gameActive := false,
         playerStats := Tally(s.playerStats, v.winner.value, player))
    else
      s.(board := board, moveHistory := history, currentPlayer := Other(s.currentPlayer))
  }

  /** The guard of `makeMove`: the game is active and `board[index]` is the empty string. */
  predicate Playable(s: Local, index: int) {
    s.gameActive && 0 <= index < 9 && s.board[index] == ""
  }

  /** `makeMove(index)`. */
  function Played(s: Local, index: int, player: Option<Cell>): Local {
    if Playable(s, index) then Record(s, index, s.currentPlayer, player) else s
  }

  /**
   * What a move does: nothing when the guard fails; otherwise the current
   * mark fills that one cell, the history grows by that entry, and either the
   * board now has a result and the game is over with one more game counted,
   * or the game goes on with the other player to move.
   */
  lemma PlayedMeaning(s: Local, index: int, player: Option<Cell>)
    ensures !Playable(s, index) ==> Played(s, index, player) == s
    ensures Playable(s, index) ==>
      var r := Played(s, index, player);
      && r.board[index] == s.currentPlayer
      && (forall j :: 0 <= j < 9 && j != index ==> r.board[j] == s.board[j])
      && r.moveHistory == s.moveHistory + [HistoryEntry(s.currentPlayer, index)]
      && (s.currentPlayer != "" ==> Count(r.board, "") + 1 == Count(s.board, ""))
      && (r.gameActive <==> CheckWinner(r.board).winner.None?)
      && (r.gameActive ==> r.currentPlayer == Other(s.currentPlayer) && r.playerStats == s.playerStats)
      && (!r.gameActive ==> r.currentPlayer == s.currentPlayer && Total(r.playerStats) == Total(s.playerStats) + 1)
  {
    if Playable(s, index) {
      CountAfterWrite(s.board, index, s.currentPlayer, "");
    }
  }

  /** Once a move has produced a result, every further move is ignored until a reset. */
  lemma NoMoveAfterResult(s: Local, index: int, next: int, player: Option<Cell>)
    requires Playable(s, index) && !Played(s, index, player).gameActive
    ensures Played(Played(s, index, player), next, player) == Played(s, index, player)
  {
  }

  /** Every history entry is a mark that still stands on its cell. */
  predicate HistoryOnBoard(s: Local) {
    forall k :: 0 <= k < |s.moveHistory| ==>
      IsMark(s.moveHistory[k].player) && s.board[s.moveHistory[k].index] == s.moveHistory[k].player
  }

  /** Moves keep the history in step with the board. */
  lemma PlayedKeepsHistoryOnBoard(s: Local, index: int, player: Option<Cell>)
    requires HistoryOnBoard(s) && IsMark(s.currentPlayer)
    ensures HistoryOnBoard(Played(s, index, player))
  {
    if Playable(s, index) {
      var r := Played(s, index, player);
      forall k | 0 <= k < |r.moveHistory|
        ensures IsMark(r.moveHistory[k].player) && r.board[r.moveHistory[k].index] == r.moveHistory[k].player
      {
        if k < |s.moveHistory| {
          assert r.moveHistory[k] == s.moveHistory[k];
          assert s.board[s.moveHistory[k].index] != "";
        }
      }
    }
  }

  /**
   * The undo of bot mode and of the session's `handleUndo`: with at least two
   * entries, drop the last two, write the entry that is now last back onto its
   * cell (or clear the whole board when none is left), and give the turn to X.
   */
  function Rewound(s: Local): Local {
    if |s.moveHistory| < 2 then s
    else
      var h := s.moveHistory[..|s.moveHistory| - 2];
      var board := if |h| > 0 then s.board[h[|h| - 1].index := h[|h| - 1].player] else EmptyBoard;
      s.(board := board, moveHistory := h, currentPlayer := "X")
  }

  /**
   * What undo does: nothing with fewer than two entries; otherwise the last
   * two entries are gone and X is to move.  The board is only cleared when the
   * history becomes empty; while entries remain, a board in step with its
   * history is left exactly as it was, so the two undone marks stay on it.
   */
  lemma RewoundMeaning(s: Local)
    ensures |s.moveHistory| < 2 ==> Rewound(s) == s
    ensures |s.moveHistory| >= 2 ==>
      && Rewound(s).moveHistory == s.moveHistory[..|s.moveHistory| - 2]
      && Rewound(s).currentPlayer == "X"
      && Rewound(s).gameActive == s.gameActive && Rewound(s).playerStats == s.playerStats
      && (|s.moveHistory| == 2 ==> Rewound(s).board == EmptyBoard)
      && (|s.moveHistory| > 2 && HistoryOnBoard(s) ==> Rewound(s).board == s.board)
  {
    if |s.moveHistory| > 2 && HistoryOnBoard(s) {
      var h := s.moveHistory[..|s.moveHistory| - 2];
      var last := h[|h| - 1];
      assert last == s.moveHistory[|h| - 1];
      assert s.board[last.index := last.player] == s.board;
    }
  }

  /**
   * Undoing a player's move and the reply restores the history but not the
   * board: the two cells stay occupied, so neither can be played again.
   */
  lemma UndoLeavesUndoneMarks(s: Local, i: Index, j: Index, player: Option<Cell>)
    requires HistoryOnBoard(s) && |s.moveHistory| >= 1 && IsMark(s.currentPlayer)
    requires Playable(s, i) && Playable(Played(s, i, player), j)
    ensures Rewound(Played(Played(s, i, player), j, player)).moveHistory == s.moveHistory
    ensures Rewound(Played(Played(s, i, player), j, player)).board[i] != ""
    ensures Rewound(Played(Played(s, i, player), j, player)).board[j] != ""
  {
    var s1 := Played(s, i, player);
    var s2 := Played(s1, j, player);
    PlayedMeaning(s, i, player);
    PlayedMeaning(s1, j, player);
    PlayedKeepsHistoryOnBoard(s, i, player);
    PlayedKeepsHistoryOnBoard(s1, j, player);
    RewoundMeaning(s2);
    assert s2.moveHistory[..|s2.moveHistory| - 2] == s.moveHistory;
  }

  /** Undoing the first two moves of a game gives back the empty board. */
  lemma UndoOfOpeningClearsBoard(s: Local, i: Index, j: Index, player: Option<Cell>)
    requires s.moveHistory == [] && Playable(s, i) && Playable(Played(s, i, player), j)
    ensures Rewound(Played(Played(s, i, player), j, player)).board == EmptyBoard
    ensures Rewound(Played(Played(s, i, player), j, player)).moveHistory == []
  {
    PlayedMeaning(s, i, player);
    PlayedMeaning(Played(s, i, player), j, player);
    RewoundMeaning(Played(Played(s, i, player), j, player));
  }

  /** The guard of `handleCellClick` in bot mode: active, empty cell, and the human's turn. */
  predicate ClickMoves(s: Local, index: Index, isBotGame: bool, player: Option<Cell>) {
    s.gameActive && s.board[index] == "" && isBotGame && player == Some(s.currentPlayer)
  }

  /**
   * With deferred work run at once, a bot game restarted with O to move
   * cannot go on: the human (X) may not click, and the bot is only scheduled
   * after a move.
   */
  lemma BotGameStartingWithOIsStuck(stats: Stats, index: Index)
    ensures !ClickMoves(Local(EmptyBoard, "O", true, [], stats), index, true, Some("X"))
  {
  }

  /** In a bot game, a human move by X that does not end the game hands the turn to the bot. */
  lemma HumanMoveHandsTurnToO(s: Local, index: Index)
    requires ClickMoves(s, index, true, Some("X"))
    ensures Played(s, index, Some("X")).gameActive ==> Played(s, index, Some("X")).currentPlayer == "O"
  {
  }

  class TicTacToe {
    var board: array<Cell>
    var currentPlayer: Cell
    var isConnected: bool
    var player: Option<Cell>
    var gameActive: bool
    var moveHistory: seq<HistoryEntry>
    var playerStats: Stats
    var isBotGame: bool
    var botDifficulty: string

    ghost predicate Valid()
      reads this
    {
      board.Length == 9
    }

    /** The game state as a value. */
    ghost function State(): Local
      reads this, board
      requires Valid()
    {
      Local(board[..], currentPlayer, gameActive, moveHistory, playerStats)
    }

    /** The fields a move, an undo or a reset leave alone. */
    ghost function Config(): (Option<Cell>, bool, string, bool)
      reads this
    {
      (player, isBotGame, botDifficulty, isConnected)
    }

    constructor (startsWithX: bool)
      ensures Valid() && fresh(board)
      ensures State() == Local(EmptyBoard, if startsWithX then "X" else "O", false, [], Stats(0, 0, 0))
      ensures Config() == (None, false, "noob", false)
    {
      board := new Cell[9](_ => "");
      currentPlayer := if startsWithX then "X" else "O";
      isConnected := false;
      player := None;
      gameActive := false;
      moveHistory := [];
      playerStats := Stats(0, 0, 0);
      isBotGame := false;
      botDifficulty := "noob";
      new;
      assert board[..] == EmptyBoard;
    }

    /**
     * `makeMove(index)`, with the deferred frame run at once.  `botTurn` says
     * whether the bot's reply is scheduled.
     */
    method MakeMove(index: int) returns (botTurn: bool)
      requires Valid()
      modifies this, board
      ensures Valid() && board == old(board) && Config() == old(Config())
      ensures State() == Played(old(State()), index, player)
      ensures botTurn <==> Playable(old(State()), index) && gameActive && isBotGame && currentPlayer == "O"
    {
      if !gameActive || !(0 <= index < 9) || board[index] != "" {
        return false;
      }
      board[index] := currentPlayer;
      moveHistory := moveHistory + [HistoryEntry(currentPlayer, index)];
      var v := CheckWinner(board[..]);
      if v.winner.Some? {
        HandleGameOver(v.winner.value);
        botTurn := false;
      } else {
        currentPlayer := Other(currentPlayer);
        botTurn := isBotGame && currentPlayer == "O";
      }
    }

    /** `handleGameOver(winner)`: the game stops and the statistics count it. */
    method HandleGameOver(winner: string)
      modifies this`gameActive, this`playerStats
      ensures !gameActive && playerStats == Tally(old(playerStats), winner, player)
    {
      gameActive := false;
      if winner == "draw" {
        playerStats := playerStats.(draws := playerStats.draws + 1);
      } else if Some(winner) == player {
        playerStats := playerStats.(wins := playerStats.wins + 1);
      } else {
        playerStats := playerStats.(losses := playerStats.losses + 1);
      }
    }

    /**
     * `handleCellClick(cell)` for the cell at `index`: nothing on an inactive
     * game or a full cell; in bot mode a move only on the human's turn; online,
     * a request to send the move.
     */
    method HandleCellClick(index: Index) returns (request: Option<Request>, botTurn: bool)
      requires Valid()
      modifies this, board
      ensures Valid() && board == old(board) && Config() == old(Config())
      ensures State() == if ClickMoves(old(State()), index, isBotGame, player)
                         then Played(old(State()), index, player) else old(State())
      ensures request == if old(gameActive) && old(board[index]) == "" && !isBotGame
                         then Some(SendMove(index)) else None
      ensures botTurn <==> ClickMoves(old(State()), index, isBotGame, player) && gameActive && currentPlayer == "O"
    {
      request, botTurn := None, false;
      if !gameActive || board[index] != "" {
        return;
      }
      if isBotGame {
        if Some(currentPlayer) == player {
          botTurn := MakeMove(index);
        }
      } else {
        request := Some(SendMove(index));
      }
    }

    /** `resetGame()`: a new empty board, a random starting mark, no history, no active game. */
    method ResetGame(startsWithX: bool)
      modifies this
      ensures Valid() && fresh(board) && Config() == old(Config())
      ensures State() == Local(EmptyBoard, if startsWithX then "X" else "O", false, [], old(playerStats))
    {
      board := new Cell[9](_ => "");
      currentPlayer := if startsWithX then "X" else "O";
      gameActive := false;
      moveHistory := [];
      assert board[..] == EmptyBoard;
    }

    /** `startBotGame()`: bot mode with the human as X and the game active. */
    method StartBotGame()
      modifies this`isBotGame, this`player, this`gameActive
      ensures isBotGame && player == Some("X") && gameActive
    {
      isBotGame := true;
      player := Some("X");
      gameActive := true;
    }

    /** A click on a difficulty button: the chosen difficulty is stored, then a bot game starts. */
    method ChooseDifficulty(difficulty: string)
      modifies this`botDifficulty, this`isBotGame, this`player, this`gameActive
      ensures botDifficulty == difficulty && isBotGame && player == Some("X") && gameActive
    {
      botDifficulty := difficulty;
      StartBotGame();
    }

    /** `restartGame()`: in bot mode a reset followed by a new bot game; online a restart request. */
    method RestartGame(startsWithX: bool) returns (request: Option<Request>)
      requires Valid()
      modifies this
      ensures Valid()
      ensures old(isBotGame) ==>
        && request.None? && fresh(board)
        && State() == Local(EmptyBoard, if startsWithX then "X" else "O", true, [], old(playerStats))
        && Config() == (Some("X"), true, old(botDifficulty), old(isConnected))
      ensures !old(isBotGame) ==> request == Some(SendRestart) && unchanged(this)
    {
      if isBotGame {
        ResetGame(startsWithX);
        StartBotGame();
        request := None;
      } else {
        request := Some(SendRestart);
      }
    }

    /** The history rewind shared by the bot-mode undo and the session's `handleUndo`. */
    method Rewind()
      requires Valid()
      modifies this, board
      ensures Valid() && Config() == old(Config())
      ensures State() == Rewound(old(State()))
      ensures |old(moveHistory)| != 2 ==> board == old(board)
      ensures |old(moveHistory)| == 2 ==> fresh(board)
    {
      if |moveHistory| >= 2 {
        moveHistory := moveHistory[..|moveHistory| - 2];
        if |moveHistory| > 0 {
          var last := moveHistory[|moveHistory| - 1];
          board[last.index] := last.player;
        } else {
          board := new Cell[9](_ => "");
          assert board[..] == EmptyBoard;
        }
        currentPlayer := "X";
      }
    }

    /** `undoMove()`: the rewind in bot mode, an undo request online. */
    method UndoMove() returns (request: Option<Request>)
      requires Valid()
      modifies this, board
      ensures Valid() && Config() == old(Config())
      ensures old(isBotGame) ==> request.None? && State() == Rewound(old(State()))
      ensures !old(isBotGame) ==> request == Some(SendUndo) && State() == old(State())
    {
      if isBotGame {
        Rewind();
        request := None;
      } else {
        request := Some(SendUndo);
      }
    }

    /**
     * The scheduled `botService.makeMove()`: the bot picks a cell with the
     * game's difficulty and, when it found one, plays it through `makeMove`.
     */
    method BotTurn(rnd: real) returns (move: Option<Index>)
      requires Valid() && 0.0 <= rnd < 1.0
      modifies this, board
      ensures Valid() && board == old(board) && Config() == old(Config())
      ensures !old(gameActive) || old(currentPlayer) != "O" ==> move.None?
      ensures old(gameActive) && old(currentPlayer) == "O" ==>
                if botDifficulty == "master" then Bot.IsMasterChoice(old(board[..]), move)
                else if botDifficulty == "pro" then move == Bot.ProMove(old(board[..]), rnd)
                else move == Bot.NoobMove(old(board[..]), rnd)
      ensures move.Some? ==> Playable(old(State()), move.value)
      ensures State() == if move.Some? then Played(old(State()), move.value, player) else old(State())
    {
      move := Bot.ChooseMove(board, gameActive, currentPlayer, botDifficulty, rnd);
      if move.Some? {
        var _ := MakeMove(move.value);
      }
    }
  }
}
