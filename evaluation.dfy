/** The AI's static evaluation, `evaluatePosition(board, forPlayer)` inside
    `performAIMove` (pages/index.js:1083-1161), and the piece-value tables the search
    and the captured-piece display use (pages/index.js:139-168, 1020-1049). */
module Evaluation {
  import opened Board
  import opened Rules

  /** The value of an unpromoted piece of a kind: the lower-case entries of both tables. */
  function BaseValue(k: Kind): int {
    match k
    case Pawn => 500
    case Lance => 1000
    case Knight => 1000
    case Silver => 3000
    case Gold => 5000
    case Bishop => 3000
    case Rook => 5000
    case King => 100000
  }

  /** `pieceValues[piece] ?? pieceValues[base]` with the AI's table: promoted pieces have
      their own entries, except a promoted gold or king, which falls back to the base. */
  function AiValue(p: Piece): (v: int)
    ensures !p.promoted ==> v == BaseValue(p.kind)
    ensures v >= BaseValue(p.kind)
  {
    if !p.promoted then BaseValue(p.kind)
    else match p.kind
      case Pawn => 4500
      case Lance => 5500
      case Knight => 5500
      case Silver => 6500
      case Bishop => 7500
      case Rook => 9000
      case Gold => 5000
      case King => 100000
  }

  /** `pieceValues[cell.replace("+", "").toLowerCase()] || 0`: the base value of a
      piece, 0 for " " or null. */
  function CapturedValue(c: Cell): (v: int)
    ensures c.Empty? <==> v == 0
  {
    if c.Empty? then 0 else BaseValue(c.piece.kind)
  }

  /** `piece === piece.toUpperCase() ? "gote" : "sente"` for a piece string. */
  function Owner(p: Piece): Side {
    if p.upper then Gote else Sente
  }

  predicate Center(x: int, y: int) {
    3 <= x <= 5 && 3 <= y <= 5
  }

  /** The (dx, dy) offsets of the defenders loop, -1..1 each, row-major: index n of 9. */
  function Offset(n: int): (int, int)
    requires 0 <= n < 9
  {
    if n < 3 then (-1, n - 1) else if n < 6 then (0, n - 4) else (1, n - 7)
  }

  /** The cell at offset n from (x, y) is on the board and holds a piece of `side`. */
  predicate DefenderAt(b: Board, x: int, y: int, side: Side, n: int)
    requires 0 <= n < 9
  {
    var (dx, dy) := Offset(n);
    InBounds(x + dx, y + dy) && b[x + dx][y + dy].Occupied? && Owner(b[x + dx][y + dy].piece) == side
  }

  /** How many of the first n offsets hold a piece of `side`. */
  function DefendersBefore(b: Board, x: int, y: int, side: Side, n: int): (d: nat)
    requires 0 <= n <= 9
    ensures d <= n
  {
    if n == 0 then 0
    else DefendersBefore(b, x, y, side, n - 1) + (if DefenderAt(b, x, y, side, n - 1) then 1 else 0)
  }

  /** The king's defenders: pieces of its side in the 3x3 block around it, the king itself
      included (the loop does not skip dx = dy = 0). */
  function Defenders(b: Board, x: int, y: int, side: Side): nat {
    DefendersBefore(b, x, y, side, 9)
  }

  method CountDefenders(b: Board, x: int, y: int, side: Side) returns (defenders: nat)
    ensures defenders == Defenders(b, x, y, side)
  {
    defenders := 0;
    for dx := -1 to 2
      invariant defenders == DefendersBefore(b, x, y, side, 3 * (dx + 1))
    {
      defenders := CountDefendersInRow(b, x, y, side, dx, defenders);
    }
  }

  /** One pass of the inner `dy` loop of the defenders count. */
  method CountDefendersInRow(b: Board, x: int, y: int, side: Side, dx: int, acc: nat) returns (defenders: nat)
    requires -1 <= dx <= 1 && acc == DefendersBefore(b, x, y, side, 3 * (dx + 1))
    ensures defenders == DefendersBefore(b, x, y, side, 3 * (dx + 1) + 3)
  {
    defenders := acc;
    for dy := -1 to 2
      invariant defenders == DefendersBefore(b, x, y, side, 3 * (dx + 1) + dy + 1)
    {
      ghost var n := 3 * (dx + 1) + dy + 1;
      assert Offset(n) == (dx, dy);
      var nx, ny := x + dx, y + dy;
      if nx < 0 || nx >= 9 || ny < 0 || ny >= 9 {
        continue;
      }
      var neighbor := b[nx][ny];
      if neighbor.Occupied? {
        var neighborPlayer := if neighbor.piece.upper then Gote else Sente;
        if neighborPlayer == side {
          defenders := defenders + 1;
        }
      }
    }
  }

  /** The positional score of the piece at (x, y), before its sign: value, centre bonus,
      king defenders, and the bonus for an unpromoted piece on its owner's first three
      rows. */
  function PieceScore(b: Board, x: int, y: int): int
    requires InBounds(x, y)
  {
    match b[x][y]
    case Empty => 0
    case Occupied(p) =>
      var side := Owner(p);
      AiValue(p)
      + (if Center(x, y) then 50 else 0)
      + (if p.kind == King && !p.promoted then Defenders(b, x, y, side) * 100 else 0)
      + (if side == Sente && x <= 2 && !p.promoted then 100
         else if side == Gote && x >= 6 && !p.promoted then 100
         else 0)
  }

  /** The cell's contribution to `forPlayer`'s score. */
  function CellTerm(b: Board, x: int, y: int, forPlayer: Side): int
    requires InBounds(x, y)
  {
    if b[x][y].Occupied? && Owner(b[x][y].piece) != forPlayer then -PieceScore(b, x, y) else PieceScore(b, x, y)
  }

  /** The sum of the cell terms strictly before (i, j) in row-major order. */
  function MaterialBefore(b: Board, forPlayer: Side, i: int, j: int): int
    requires 0 <= i <= 9 && 0 <= j <= 9 && (i < 9 || j == 0)
    decreases i, j
  {
    if j == 0 then (if i == 0 then 0 else MaterialBefore(b, forPlayer, i - 1, 9))
    else MaterialBefore(b, forPlayer, i, j - 1) + CellTerm(b, i, j - 1, forPlayer)
  }

  function Material(b: Board, forPlayer: Side): int {
    MaterialBefore(b, forPlayer, 9, 0)
  }

  /** `evaluatePosition(board, forPlayer)`: material and position from `forPlayer`'s side,
      500 off when `forPlayer` is in check, 300 on when the other side is. */
  function Evaluate(b: Board, forPlayer: Side): int {
    Material(b, forPlayer)
    - (if InCheck(b, forPlayer) then 500 else 0)
    + (if InCheck(b, Other(forPlayer)) then 300 else 0)
  }

  method EvaluatePosition(b: Board, forPlayer: Side) returns (score: int)
    ensures score == Evaluate(b, forPlayer)
  {
    score := 0;
    for x := 0 to 9
      invariant score == MaterialBefore(b, forPlayer, x, 0)
    {
      score := EvaluateRow(b, forPlayer, x, score);
    }
    var own := IsInCheck(forPlayer, b);
    if own {
      score := score - 500;
    }
    var theirs := IsInCheck(Other(forPlayer), b);
    if theirs {
      score := score + 300;
    }
  }

  /** One pass of the inner loop of `evaluatePosition`: adds the terms of row `x`. */
  method EvaluateRow(b: Board, forPlayer: Side, x: int, acc: int) returns (score: int)
    requires 0 <= x < 9 && acc == MaterialBefore(b, forPlayer, x, 0)
    ensures score == MaterialBefore(b, forPlayer, x + 1, 0)
  {
    score := acc;
    for y := 0 to 9
      invariant score == MaterialBefore(b, forPlayer, x, y)
    {
      var piece := b[x][y];
      if piece.Empty? {
        continue;
      }
      var p := piece.piece;
      var piecePlayer := if p.upper then Gote else Sente;
      var pieceScore := AiValue(p);
      if Center(x, y) {
        pieceScore := pieceScore + 50;
      }
      if p.kind == King && !p.promoted {
        var defenders := CountDefenders(b, x, y, piecePlayer);
        pieceScore := pieceScore + defenders * 100;
      }
      if piecePlayer == Sente && x <= 2 && !p.promoted {
        pieceScore := pieceScore + 100;
      } else if piecePlayer == Gote && x >= 6 && !p.promoted {
        pieceScore := pieceScore + 100;
      }
      assert pieceScore == PieceScore(b, x, y);
      score := score + (if piecePlayer == forPlayer then pieceScore else -pieceScore);
    }
  }

  lemma {:induction false} MaterialBeforeAntisymmetric(b: Board, i: int, j: int)
    requires 0 <= i <= 9 && 0 <= j <= 9 && (i < 9 || j == 0)
    ensures MaterialBefore(b, Gote, i, j) == -MaterialBefore(b, Sente, i, j)
    decreases i, j
  {
    if j == 0 {
      if i > 0 {
        MaterialBeforeAntisymmetric(b, i - 1, 9);
      }
    } else {
      MaterialBeforeAntisymmetric(b, i, j - 1);
    }
  }

  /** The position term is zero-sum: what one side gains the other loses. Only the check
      terms break the symmetry, each costing the two evaluations 200 together. */
  lemma EvaluateZeroSum(b: Board)
    ensures Material(b, Gote) == -Material(b, Sente)
    ensures Evaluate(b, Gote) + Evaluate(b, Sente) ==
      -200 * ((if InCheck(b, Gote) then 1 else 0) + (if InCheck(b, Sente) then 1 else 0))
  {
    MaterialBeforeAntisymmetric(b, 9, 0);
  }

  /** A king with no piece of its own side around it still counts itself as a defender,
      and no king counts more than the nine squares of its block. */
  lemma DefendersIncludeKing(b: Board, x: int, y: int)
    requires InBounds(x, y) && b[x][y].Occupied?
    ensures 1 <= Defenders(b, x, y, Owner(b[x][y].piece)) <= 9
  {
    var side := Owner(b[x][y].piece);
    assert Offset(4) == (0, 0);
    assert DefenderAt(b, x, y, side, 4);
    DefendersMonotone(b, x, y, side, 5, 9);
  }

  lemma {:induction false} DefendersMonotone(b: Board, x: int, y: int, side: Side, m: int, n: int)
    requires 0 <= m <= n <= 9
    ensures DefendersBefore(b, x, y, side, m) <= DefendersBefore(b, x, y, side, n)
    decreases n - m
  {
    if m < n {
      DefendersMonotone(b, x, y, side, m, n - 1);
    }
  }
}
