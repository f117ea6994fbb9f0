/**
 * The board evaluator of src/js/utils/gameUtils.js: the fixed list of eight
 * lines, `checkWinner` and the `predictDraw` heuristic, over a 9-cell board
 * indexed 0..8 in row-major order.
 */
module GameUtils {
  import opened Wrappers

  /** A cell is the string held in the board array: "" when empty, otherwise a mark ("X" or "O"). */
  type Cell = string

  /** A position on the board. */
  type Index = i: nat | i < 9

  /** The board is always an array of exactly nine cells. */
  type Board = b: seq<Cell> | |b| == 9 witness ["", "", "", "", "", "", "", "", ""]

  const EmptyBoard: Board := ["", "", "", "", "", "", "", "", ""]

  /** A player's mark. */
  predicate IsMark(c: Cell) {
    c == "X" || c == "O"
  }

  /** Every cell is empty or holds a mark. */
  predicate WellFormed(board: Board) {
    forall i :: 0 <= i < 9 ==> board[i] == "" || IsMark(board[i])
  }

  /**
   * The turn flip `p === "X" ? "O" : "X"` written alike in server.js,
   * src/js/game.js and websocket.js: always a mark, and the other one when `p` is a mark.
   */
  function Other(p: Cell): (r: Cell)
    ensures IsMark(r)
    ensures IsMark(p) ==> r != p
  {
    if p == "X" then "O" else "X"
  }

  /** On marks the flip is an involution: two flips give the turn back. */
  lemma OtherTwice(p: Cell)
    requires IsMark(p)
    ensures Other(Other(p)) == p
  {
  }

  /** Three positions forming a row, a column or a diagonal. */
  datatype Line = Line(a: Index, b: Index, c: Index)

  /** The lines in the order in which both evaluators scan them. */
  const Lines: seq<Line> := [
    Line(0, 1, 2), Line(3, 4, 5), Line(6, 7, 8),  // rows
    Line(0, 3, 6), Line(1, 4, 7), Line(2, 5, 8),  // columns
    Line(0, 4, 8), Line(2, 4, 6)                  // diagonals
  ]

  /** The result object `{ winner, winningLine }`; `null` is `None`. */
  datatype Verdict = Verdict(winner: Option<string>, winningLine: Option<Line>)

  const Draw: Verdict := Verdict(Some("draw"), None)
  const InProgress: Verdict := Verdict(None, None)

  /** The three cells of `l` hold the same non-empty value. */
  predicate Complete(board: Board, l: Line) {
    board[l.a] != "" && board[l.a] == board[l.b] && board[l.a] == board[l.c]
  }

  predicate HasCompleteLine(board: Board) {
    exists k :: 0 <= k < |Lines| && Complete(board, Lines[k])
  }

  /** `board.every((cell) => cell !== "")`. */
  predicate Filled(board: Board) {
    forall i :: 0 <= i < |board| ==> board[i] != ""
  }

  /** The index in `Lines` of the first complete line at or after `k`, if any. */
  function FirstComplete(board: Board, k: nat): (r: Option<nat>)
    requires k <= |Lines|
    ensures r.Some? ==> k <= r.value < |Lines| && Complete(board, Lines[r.value])
    ensures r.Some? ==> forall j :: k <= j < r.value ==> !Complete(board, Lines[j])
    ensures r.None? ==> forall j :: k <= j < |Lines| ==> !Complete(board, Lines[j])
    decreases |Lines| - k
  {
    if k == |Lines| then None
    else if Complete(board, Lines[k]) then Some(k)
    else FirstComplete(board, k + 1)
  }

  /** `checkWinner(board)`. */
  function CheckWinner(board: Board): (r: Verdict)
    ensures r.winningLine.Some? <==> HasCompleteLine(board)
    ensures r.winningLine.Some? ==>
      exists k :: 0 <= k < |Lines| && r.winningLine.value == Lines[k] && Complete(board, Lines[k])
        && r.winner == Some(board[Lines[k].a])
        && forall j :: 0 <= j < k ==> !Complete(board, Lines[j])
    ensures r == Draw <==> !HasCompleteLine(board) && Filled(board)
    ensures r == InProgress <==> !HasCompleteLine(board) && !Filled(board)
  {
    match FirstComplete(board, 0)
    case Some(k) => Verdict(Some(board[Lines[k].a]), Some(Lines[k]))
    case None => if Filled(board) then Draw else InProgress
  }

  lemma EmptyBoardInProgress()
    ensures CheckWinner(EmptyBoard) == InProgress
  {
    assert EmptyBoard[0] == "";
  }

  /** `board.filter((cell) => cell === v).length`. */
  function Count(s: seq<Cell>, v: Cell): (n: nat)
    ensures n <= |s|
  {
    if s == [] then 0 else (if s[0] == v then 1 else 0) + Count(s[1..], v)
  }

  /** Count agrees with the multiplicity of `v` in the board viewed as a multiset. */
  lemma {:induction false} CountIsMultiplicity(s: seq<Cell>, v: Cell)
    ensures Count(s, v) == multiset(s)[v]
  {
    if s != [] {
      assert s == [s[0]] + s[1..];
      assert multiset(s) == multiset([s[0]]) + multiset(s[1..]);
      CountIsMultiplicity(s[1..], v);
    }
  }

  /** Writing `x` at position `i` changes the count of `v` by exactly the cell that was replaced and the one written. */
  lemma {:induction false} CountAfterWrite(s: seq<Cell>, i: nat, x: Cell, v: Cell)
    requires i < |s|
    ensures Count(s[i := x], v) == Count(s, v) - (if s[i] == v then 1 else 0) + (if x == v then 1 else 0)
  {
    if i > 0 {
      assert s[i := x][1..] == s[1..][i - 1 := x];
      CountAfterWrite(s[1..], i - 1, x, v);
    } else {
      assert s[i := x][1..] == s[1..];
    }
  }

  function Abs(x: int): nat {
    if x < 0 then -x else x
  }

  /** Two cells of `l` hold the same non-empty mark and the third is empty. */
  predicate Threat(board: Board, l: Line) {
    || (board[l.a] == board[l.b] && board[l.a] != "" && board[l.c] == "")
    || (board[l.a] == board[l.c] && board[l.a] != "" && board[l.b] == "")
    || (board[l.b] == board[l.c] && board[l.b] != "" && board[l.a] == "")
  }

  /** Some line at or after `k` in `Lines` is a threat. */
  function ThreatFrom(board: Board, k: nat): (r: bool)
    requires k <= |Lines|
    ensures r <==> exists j :: k <= j < |Lines| && Threat(board, Lines[j])
    decreases |Lines| - k
  {
    if k == |Lines| then false
    else Threat(board, Lines[k]) || ThreatFrom(board, k + 1)
  }

  /** `predictDraw(board)`. */
  function PredictDraw(board: Board): (r: bool)
    ensures Abs(Count(board, "X") - Count(board, "O")) > 1 ==> !r
    ensures r <==> Abs(Count(board, "X") - Count(board, "O")) <= 1
                   && forall k :: 0 <= k < |Lines| ==> !Threat(board, Lines[k])
  {
    var xs := Count(board, "X");
    var os := Count(board, "O");
    if Abs(xs - os) > 1 then false
    else !ThreatFrom(board, 0)
  }

  predicate Distinct3(l: Line) {
    l.a != l.b && l.a != l.c && l.b != l.c
  }

  lemma LinesAreDistinct(k: nat)
    requires k < |Lines|
    ensures Distinct3(Lines[k])
  {
  }

  /** A line that only becomes complete when `p` is written into the empty cell `i` was a threat before. */
  lemma NewLineNeedsThreat(board: Board, l: Line, i: Index, p: Cell)
    requires Distinct3(l)
    requires board[i] == "" && p != ""
    requires Complete(board[i := p], l) && !Complete(board, l)
    ensures Threat(board, l)
  {
  }

  /**
   * What `predictDraw` returning true guarantees: no single mark written into
   * any empty cell completes a line that was not already complete
   * ("no winning moves are available").
   */
  lemma PredictDrawMeansNoWinningMove(board: Board, i: Index, p: Cell, k: nat)
    requires PredictDraw(board)
    requires board[i] == "" && p != ""
    requires k < |Lines|
    ensures Complete(board[i := p], Lines[k]) ==> Complete(board, Lines[k])
  {
    if Complete(board[i := p], Lines[k]) && !Complete(board, Lines[k]) {
      LinesAreDistinct(k);
      NewLineNeedsThreat(board, Lines[k], i, p);
      assert false;
    }
  }
}
