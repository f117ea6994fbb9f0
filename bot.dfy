/**
 * The computer opponent of src/js/services/bot.js.  The bot always plays "O".
 * The rule-based pickers (`findWinningMove`, `makeNoobMove`, `makeProMove`)
 * only read the board and are functions; `minimax` and `makeMasterMove` write
 * and restore cells of the game's board array and are methods, proved against
 * the game-tree value `Score`.  `Math.random()` is the parameter `rnd`.
 */
module Bot {
  import opened Wrappers
  import opened GameUtils

  /** Integer stand-ins for `-Infinity` and `Infinity`, outside every reachable score. */
  const NegInf: int := -1000
  const PosInf: int := 1000

  /** `Math.floor(rnd * n)` for `rnd = Math.random()`: a position in a list of length `n`. */
  function RandomPosition(n: nat, rnd: real): (i: nat)
    requires n > 0 && 0.0 <= rnd < 1.0
    ensures i < n
  {
    assert rnd * (n as real) < n as real by {
      assert (1.0 - rnd) * (n as real) > 0.0;
    }
    (rnd * (n as real)).Floor
  }

  // ---------------------------------------------------------------- findWinningMove

  /** Cell `i` of line `l` is empty and the line's two other cells hold `p`. */
  predicate CompletesLine(board: Board, l: Line, p: Cell, i: Index) {
    board[i] == "" &&
    (|| (i == l.c && board[l.a] == p && board[l.b] == p)
     || (i == l.b && board[l.a] == p && board[l.c] == p)
     || (i == l.a && board[l.b] == p && board[l.c] == p))
  }

  /** `p` has a cell that completes some line. */
  predicate CanComplete(board: Board, p: Cell) {
    exists k, i: Index :: 0 <= k < |Lines| && CompletesLine(board, Lines[k], p, i)
  }

  /** The body of the loop of `findWinningMove` for one line: position c first, then b, then a. */
  function LineCompletion(board: Board, l: Line, p: Cell): (r: Option<Index>)
    ensures r.Some? ==> CompletesLine(board, l, p, r.value)
    ensures r.None? ==> forall i: Index :: !CompletesLine(board, l, p, i)
  {
    if board[l.a] == p && board[l.b] == p && board[l.c] == "" then Some(l.c)
    else if board[l.a] == p && board[l.c] == p && board[l.b] == "" then Some(l.b)
    else if board[l.b] == p && board[l.c] == p && board[l.a] == "" then Some(l.a)
    else None
  }

  /** The loop over `lines` from line `k` on: the completion of the first line that has one. */
  function CompletionFrom(board: Board, p: Cell, k: nat): (r: Option<Index>)
    requires k <= |Lines|
    ensures r.Some? ==> exists j :: k <= j < |Lines| && r == LineCompletion(board, Lines[j], p)
                          && forall j' :: k <= j' < j ==> LineCompletion(board, Lines[j'], p).None?
    ensures r.None? <==> forall j :: k <= j < |Lines| ==> LineCompletion(board, Lines[j], p).None?
    decreases |Lines| - k
  {
    if k == |Lines| then None
    else
      var here := LineCompletion(board, Lines[k], p);
      if here.Some? then here else CompletionFrom(board, p, k + 1)
  }

  /**
   * `findWinningMove(player)`: an empty cell whose line already holds two `p`s,
   * taken from the first such line in `Lines`; `None` exactly when there is none.
   */
  function FindWinningMove(board: Board, p: Cell): (r: Option<Index>)
    ensures r.Some? ==> board[r.value] == ""
    ensures r.Some? ==> exists k :: 0 <= k < |Lines| && CompletesLine(board, Lines[k], p, r.value)
                          && r == LineCompletion(board, Lines[k], p)
                          && forall j :: 0 <= j < k ==> !exists i: Index :: CompletesLine(board, Lines[j], p, i)
    ensures r.None? <==> !CanComplete(board, p)
  {
    CompletionFrom(board, p, 0)
  }

  /** Playing a completing cell wins: the line becomes complete for `p`. */
  lemma CompletingCellWins(board: Board, l: Line, p: Cell, i: Index)
    requires Distinct3(l) && p != ""
    requires CompletesLine(board, l, p, i)
    ensures Complete(board[i := p], l) && board[i := p][l.a] == p
  {
  }

  /** The move `findWinningMove` returns for a real mark completes a line for that mark. */
  lemma WinningMoveWins(board: Board, p: Cell)
    requires p != "" && FindWinningMove(board, p).Some?
    ensures exists k :: 0 <= k < |Lines| && Complete(board[FindWinningMove(board, p).value := p], Lines[k])
  {
    var i := FindWinningMove(board, p).value;
    var k :| 0 <= k < |Lines| && CompletesLine(board, Lines[k], p, i);
    LinesAreDistinct(k);
    CompletingCellWins(board, Lines[k], p, i);
  }

  /** When `predictDraw` holds, neither player has a completing cell, so `findWinningMove` finds nothing. */
  lemma PredictDrawMeansNoCompletion(board: Board, p: Cell)
    requires PredictDraw(board) && p != ""
    ensures FindWinningMove(board, p).None?
  {
  }

  // ---------------------------------------------------------------- makeNoobMove / makeProMove

  /** The indices from `k` on whose cell is empty, in increasing order. */
  function EmptyFrom(board: Board, k: nat): (r: seq<Index>)
    requires k <= 9
    ensures forall j :: 0 <= j < |r| ==> k <= r[j] && board[r[j]] == ""
    ensures forall i: Index :: k <= i && board[i] == "" ==> i in r
    ensures forall j1, j2 :: 0 <= j1 < j2 < |r| ==> r[j1] < r[j2]
    decreases 9 - k
  {
    if k == 9 then []
    else if board[k] == "" then [k as Index] + EmptyFrom(board, k + 1)
    else EmptyFrom(board, k + 1)
  }

  /** The `emptyCells` list of `makeNoobMove`: every empty index, in increasing order. */
  function EmptyCells(board: Board): (r: seq<Index>)
    ensures forall j :: 0 <= j < |r| ==> board[r[j]] == ""
    ensures forall i: Index :: board[i] == "" <==> i in r
    ensures forall j1, j2 :: 0 <= j1 < j2 < |r| ==> r[j1] < r[j2]
    ensures |r| == 0 <==> Filled(board)
  {
    EmptyFrom(board, 0)
  }

  /** `makeNoobMove()`: `None` exactly when the board is full, otherwise an empty cell. */
  function NoobMove(board: Board, rnd: real): (r: Option<Index>)
    requires 0.0 <= rnd < 1.0
    ensures r.None? <==> Filled(board)
    ensures r.Some? ==> board[r.value] == ""
  {
    var cells := EmptyCells(board);
    if |cells| == 0 then None else Some(cells[RandomPosition(|cells|, rnd)])
  }

  /** Every empty cell is the noob move for some value of `Math.random()`. */
  lemma NoobMoveCanPickAnyEmptyCell(board: Board, i: Index)
    requires board[i] == ""
    ensures exists rnd: real :: 0.0 <= rnd < 1.0 && NoobMove(board, rnd) == Some(i)
  {
    var cells := EmptyCells(board);
    assert i in cells;
    var j :| 0 <= j < |cells| && cells[j] == i;
    var rnd := PositionSeed(j, |cells|);
    assert NoobMove(board, rnd) == Some(cells[j]);
  }

  /** The value of `Math.random()` that makes `RandomPosition(n, _)` pick `j`. */
  lemma PositionSeed(j: nat, n: nat) returns (rnd: real)
    requires j < n
    ensures 0.0 <= rnd < 1.0 && RandomPosition(n, rnd) == j
  {
    rnd := (j as real) / (n as real);
    assert rnd * (n as real) == j as real;
  }

  /** The corners 0, 2, 6 and 8 that are empty, in that order. */
  function EmptyCorners(board: Board): (r: seq<Index>)
    ensures forall j :: 0 <= j < |r| ==> board[r[j]] == "" && r[j] in {0, 2, 6, 8}
    ensures forall c: Index :: c in {0, 2, 6, 8} && board[c] == "" ==> c in r
    ensures forall j1, j2 :: 0 <= j1 < j2 < |r| ==> r[j1] < r[j2]
  {
    (if board[0] == "" then [0 as Index] else []) +
    (if board[2] == "" then [2 as Index] else []) +
    (if board[6] == "" then [6 as Index] else []) +
    (if board[8] == "" then [8 as Index] else [])
  }

  /**
   * `makeProMove()`: win if O can, otherwise block X, otherwise take the
   * centre, otherwise a random empty corner, otherwise a random empty cell.
   */
  function ProMove(board: Board, rnd: real): (r: Option<Index>)
    requires 0.0 <= rnd < 1.0
    ensures r.None? <==> Filled(board)
    ensures r.Some? ==> board[r.value] == ""
    ensures CanComplete(board, "O") ==> r == FindWinningMove(board, "O")
    ensures !CanComplete(board, "O") && CanComplete(board, "X") ==> r == FindWinningMove(board, "X")
    ensures !CanComplete(board, "O") && !CanComplete(board, "X") && board[4] == "" ==> r == Some(4)
    ensures (!CanComplete(board, "O") && !CanComplete(board, "X") && board[4] != ""
             && exists c: Index :: c in {0, 2, 6, 8} && board[c] == "") ==> r.Some? && r.value in {0, 2, 6, 8}
  {
    var win := FindWinningMove(board, "O");
    if win.Some? then win
    else
      var block := FindWinningMove(board, "X");
      if block.Some? then block
      else if board[4] == "" then Some(4)
      else
        var corners := EmptyCorners(board);
        if |corners| > 0 then Some(corners[RandomPosition(|corners|, rnd)])
        else NoobMove(board, rnd)
  }

  /** When O has a completing cell, the pro move wins the game for O. */
  lemma ProMoveTakesTheWin(board: Board, rnd: real)
    requires 0.0 <= rnd < 1.0 && CanComplete(board, "O")
    ensures ProMove(board, rnd).Some?
    ensures exists k :: 0 <= k < |Lines| && Complete(board[ProMove(board, rnd).value := "O"], Lines[k])
  {
    WinningMoveWins(board, "O");
  }

  // ---------------------------------------------------------------- minimax

  /** The mark placed by the side to move: O when maximizing, X otherwise. */
  function Mark(maximizing: bool): Cell {
    if maximizing then "O" else "X"
  }

  /** `Math.max` when maximizing, `Math.min` otherwise. */
  function Better(maximizing: bool, s: int, acc: int): int {
    if maximizing then (if s > acc then s else acc) else (if s < acc then s else acc)
  }

  /**
   * The value `minimax(depth, maximizing)` returns on `board`: an O win scores
   * `10 - depth`, an X win `depth - 10`, a draw 0; otherwise the best child
   * score over the empty cells, starting from the sentinel.
   */
  function Score(board: Board, depth: nat, maximizing: bool): int
    decreases Count(board, ""), 2, 0
  {
    var w := CheckWinner(board).winner;
    if w == Some("O") then 10 - depth
    else if w == Some("X") then depth - 10
    else if w == Some("draw") then 0
    else BestFrom(board, depth, maximizing, 0, if maximizing then NegInf else PosInf)
  }

  /** The loop of `minimax` from cell `i` on, with `acc` the `bestScore` so far. */
  function BestFrom(board: Board, depth: nat, maximizing: bool, i: nat, acc: int): int
    requires i <= 9
    decreases Count(board, ""), 1, 9 - i
  {
    if i == 9 then acc
    else if board[i] == "" then
      BestFrom(board, depth, maximizing, i + 1, Better(maximizing, ChildScore(board, depth, maximizing, i), acc))
    else BestFrom(board, depth, maximizing, i + 1, acc)
  }

  /** The score of the recursive call after the side to move writes its mark into the empty cell `i`. */
  function ChildScore(board: Board, depth: nat, maximizing: bool, i: Index): int
    requires board[i] == ""
    decreases Count(board, ""), 0, 0
  {
    CountAfterWrite(board, i, Mark(maximizing), "");
    Score(board[i := Mark(maximizing)], depth + 1, !maximizing)
  }

  /** Every cell is empty or a mark and at most ten plies are searched in total: the score stays within [-10, 10]. */
  lemma {:induction false} ScoreInRange(board: Board, depth: nat, maximizing: bool)
    requires WellFormed(board) && depth + Count(board, "") <= 10
    ensures -10 <= Score(board, depth, maximizing) <= 10
    decreases Count(board, ""), 2, 0
  {
    var v := CheckWinner(board);
    if v.winner != Some("O") && v.winner != Some("X") && v.winner != Some("draw") {
      assert v == InProgress;
      var i: Index :| board[i] == "";
      BestFromInRange(board, depth, maximizing, 0, if maximizing then NegInf else PosInf);
    }
  }

  lemma {:induction false} BestFromInRange(board: Board, depth: nat, maximizing: bool, i: nat, acc: int)
    requires WellFormed(board) && depth + Count(board, "") <= 10 && i <= 9
    requires -10 <= acc <= 10
             || (acc == (if maximizing then NegInf else PosInf) && exists j: Index :: i <= j && board[j] == "")
    ensures -10 <= BestFrom(board, depth, maximizing, i, acc) <= 10
    decreases Count(board, ""), 1, 9 - i
  {
    if i < 9 {
      if board[i] == "" {
        ChildInRange(board, depth, maximizing, i);
        BestFromInRange(board, depth, maximizing, i + 1,
                        Better(maximizing, ChildScore(board, depth, maximizing, i), acc));
      } else {
        BestFromInRange(board, depth, maximizing, i + 1, acc);
      }
    }
  }

  lemma {:induction false} ChildInRange(board: Board, depth: nat, maximizing: bool, i: Index)
    requires WellFormed(board) && depth + Count(board, "") <= 10 && board[i] == ""
    ensures -10 <= ChildScore(board, depth, maximizing, i) <= 10
    decreases Count(board, ""), 0, 0
  {
    var child := board[i := Mark(maximizing)];
    CountAfterWrite(board, i, Mark(maximizing), "");
    assert WellFormed(child) by {
      forall j: Index ensures child[j] == "" || IsMark(child[j]) {
        if j != i { assert child[j] == board[j]; }
      }
    }
    ScoreInRange(child, depth + 1, !maximizing);
  }

  /** The loop of `minimax` computes an extremum: it bounds `acc` and every child score from `i` on, and equals one of them. */
  lemma {:induction false} BestFromIsExtremum(board: Board, depth: nat, maximizing: bool, i: nat, acc: int)
    requires i <= 9
    ensures maximizing ==> BestFrom(board, depth, maximizing, i, acc) >= acc
    ensures !maximizing ==> BestFrom(board, depth, maximizing, i, acc) <= acc
    ensures forall j: Index :: i <= j && board[j] == "" ==>
              if maximizing then BestFrom(board, depth, maximizing, i, acc) >= ChildScore(board, depth, maximizing, j)
              else BestFrom(board, depth, maximizing, i, acc) <= ChildScore(board, depth, maximizing, j)
    ensures BestFrom(board, depth, maximizing, i, acc) == acc
            || exists j: Index :: i <= j && board[j] == ""
                 && BestFrom(board, depth, maximizing, i, acc) == ChildScore(board, depth, maximizing, j)
    decreases 9 - i
  {
    if i < 9 {
      if board[i] == "" {
        BestFromIsExtremum(board, depth, maximizing, i + 1,
                           Better(maximizing, ChildScore(board, depth, maximizing, i), acc));
      } else {
        BestFromIsExtremum(board, depth, maximizing, i + 1, acc);
      }
    }
  }

  /**
   * On a board without a result, `minimax` takes the maximum over O
   * placements when maximizing and the minimum over X placements otherwise;
   * within the reachable range the value is attained by some empty cell.
   */
  lemma ScoreIsBestChild(board: Board, depth: nat, maximizing: bool)
    requires CheckWinner(board).winner.None?
    ensures forall j: Index :: board[j] == "" ==>
              if maximizing then Score(board, depth, maximizing) >= ChildScore(board, depth, maximizing, j)
              else Score(board, depth, maximizing) <= ChildScore(board, depth, maximizing, j)
    ensures WellFormed(board) && depth + Count(board, "") <= 10 ==>
              exists j: Index :: board[j] == "" && Score(board, depth, maximizing) == ChildScore(board, depth, maximizing, j)
  {
    var acc := if maximizing then NegInf else PosInf;
    BestFromIsExtremum(board, depth, maximizing, 0, acc);
    if WellFormed(board) && depth + Count(board, "") <= 10 {
      ScoreInRange(board, depth, maximizing);
    }
  }

  /**
   * `minimax(depth, isMaximizing)` on the board array: returns the game-tree
   * value `Score` and leaves every cell as it found it.
   */
  method Minimax(board: array<Cell>, depth: nat, maximizing: bool) returns (score: int)
    requires board.Length == 9
    modifies board
    ensures board[..] == old(board[..])
    ensures score == Score(old(board[..]), depth, maximizing)
    decreases Count(board[..], "")
  {
    ghost var b: Board := board[..];
    var w := CheckWinner(board[..]).winner;
    if w == Some("O") { return 10 - depth; }
    if w == Some("X") { return depth - 10; }
    if w == Some("draw") { return 0; }
    var best := if maximizing then NegInf else PosInf;
    for i := 0 to 9
      invariant board[..] == b
      invariant BestFrom(b, depth, maximizing, i, best) == Score(b, depth, maximizing)
    {
      if board[i] == "" {
        board[i] := Mark(maximizing);
        assert board[..] == b[i := Mark(maximizing)];
        CountAfterWrite(b, i, Mark(maximizing), "");
        var s := Minimax(board, depth + 1, !maximizing);
        board[i] := "";
        assert board[..] == b;
        best := Better(maximizing, s, best);
      }
    }
    score := best;
  }

  /** The score `makeMasterMove` gives to O playing the empty cell `i`: `minimax(0, false)` with O there. */
  function MoveScore(board: Board, i: Index): int
    requires board[i] == ""
  {
    Score(board[i := "O"], 0, false)
  }

  /**
   * What `makeMasterMove` returns: the lowest-index empty cell whose score is
   * strictly above the sentinel and maximal, or `None` when no empty cell
   * scores above the sentinel.
   */
  predicate IsMasterChoice(board: Board, best: Option<Index>) {
    match best
    case None => forall i: Index :: board[i] == "" ==> MoveScore(board, i) <= NegInf
    case Some(m) =>
      && board[m] == "" && MoveScore(board, m) > NegInf
      && (forall i: Index :: i < m && board[i] == "" ==> MoveScore(board, i) < MoveScore(board, m))
      && (forall i: Index :: board[i] == "" ==> MoveScore(board, i) <= MoveScore(board, m))
  }

  /** `makeMasterMove()`: tries O in each empty cell, keeps the first strictly better score, restores the board. */
  method MakeMasterMove(board: array<Cell>) returns (best: Option<Index>)
    requires board.Length == 9
    modifies board
    ensures board[..] == old(board[..])
    ensures IsMasterChoice(old(board[..]), best)
  {
    ghost var b: Board := board[..];
    var bestScore := NegInf;
    best := None;
    for i := 0 to 9
      invariant board[..] == b
      invariant best.None? ==> bestScore == NegInf
                               && forall j: Index :: j < i && b[j] == "" ==> MoveScore(b, j) <= NegInf
      invariant best.Some? ==> best.value < i && b[best.value] == ""
                               && bestScore == MoveScore(b, best.value) && bestScore > NegInf
                               && (forall j: Index :: j < best.value && b[j] == "" ==> MoveScore(b, j) < bestScore)
                               && (forall j: Index :: j < i && b[j] == "" ==> MoveScore(b, j) <= bestScore)
    {
      if board[i] == "" {
        board[i] := "O";
        assert board[..] == b[i := "O"];
        var score := Minimax(board, 0, false);
        board[i] := "";
        assert board[..] == b;
        if score > bestScore {
          bestScore := score;
          best := Some(i);
        }
      }
    }
  }

  /** On a board of marks and empty cells, the master move is `None` exactly when the board is full. */
  lemma MasterChoiceNoneIffFull(board: Board, best: Option<Index>)
    requires WellFormed(board) && IsMasterChoice(board, best)
    ensures best.None? <==> Filled(board)
    ensures best.Some? ==> board[best.value] == ""
  {
    if best.None? && !Filled(board) {
      var i: Index :| board[i] == "";
      MoveScoreInRange(board, i);
      assert false;
    }
  }

  lemma MoveScoreInRange(board: Board, i: Index)
    requires WellFormed(board) && board[i] == ""
    ensures -10 <= MoveScore(board, i) <= 10
  {
    var child := board[i := "O"];
    CountAfterWrite(board, i, "O", "");
    assert WellFormed(child) by {
      forall j: Index ensures child[j] == "" || IsMark(child[j]) {
        if j != i { assert child[j] == board[j]; }
      }
    }
    ScoreInRange(child, 0, false);
  }

  /** The master-move specification determines the move: two results that meet it are equal. */
  lemma MasterChoiceIsUnique(board: Board, x: Option<Index>, y: Option<Index>)
    requires IsMasterChoice(board, x) && IsMasterChoice(board, y)
    ensures x == y
  {
  }

  /**
   * `makeMove()` of the bot service up to the point where it hands the move to
   * the game: nothing unless the game is active and it is O's turn, then the
   * picker named by the difficulty ("noob" and any unknown value pick at random).
   */
  method ChooseMove(board: array<Cell>, gameActive: bool, currentPlayer: Cell, difficulty: string, rnd: real)
    returns (move: Option<Index>)
    requires board.Length == 9 && 0.0 <= rnd < 1.0
    modifies board
    ensures board[..] == old(board[..])
    ensures !gameActive || currentPlayer != "O" ==> move.None?
    ensures gameActive && currentPlayer == "O" ==>
              if difficulty == "master" then IsMasterChoice(old(board[..]), move)
              else if difficulty == "pro" then move == ProMove(old(board[..]), rnd)
              else move == NoobMove(old(board[..]), rnd)
  {
    if !gameActive || currentPlayer != "O" {
      return None;
    }
    if difficulty == "noob" {
      move := NoobMove(board[..], rnd);
    } else if difficulty == "pro" {
      move := ProMove(board[..], rnd);
    } else if difficulty == "master" {
      move := MakeMasterMove(board);
    } else {
      move := NoobMove(board[..], rnd);
    }
  }
}
