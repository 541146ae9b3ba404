/** The live engine's rule tests (pages/index.js:703-984): promotion, king search, check,
    checkmate, stalemate and drop legality. Each scanning test is a method with the
    source's nested loops, proved equal to a predicate that says the same thing with
    quantifiers. */
module Rules {
  import opened Board
  import opened MoveGen
  import opened Scan

  // ---------------------------------------------------------------------------------
  // Promotion (pages/index.js:703-718)

  /** The three-row promotion zone of the owner of an upper-case (Gote) or lower-case
      (Sente) piece. */
  predicate InZone(row: int, upper: bool) {
    if upper then row <= 2 else row >= 6
  }

  /** The owner's last row, where a pawn, lance or knight could never move again. */
  predicate LastRow(row: int, upper: bool) {
    if upper then row == 0 else row == 8
  }

  predicate ForwardOnly(k: Kind) {
    k == Pawn || k == Lance || k == Knight
  }

  /** `shouldPromote(piece, fromX, toX)`. */
  function ShouldPromote(p: Piece, fromRow: int, toRow: int): (yes: bool)
    ensures p.promoted || p.kind == King || p.kind == Gold ==> !yes
    ensures !p.promoted && ForwardOnly(p.kind) && LastRow(toRow, p.upper) ==> yes
  {
    if p.promoted then false
    else if p.kind == King || p.kind == Gold then false
    else if ForwardOnly(p.kind) && p.upper && toRow == 0 then true
    else if ForwardOnly(p.kind) && !p.upper && toRow == 8 then true
    else InZone(fromRow, p.upper) || InZone(toRow, p.upper)
  }

  /** The last-row clauses of `shouldPromote` add nothing: apart from promoted pieces,
      kings and golds, a move may promote exactly when it starts or ends in the zone. */
  lemma ShouldPromoteIsZone(p: Piece, fromRow: int, toRow: int)
    requires !p.promoted && p.kind != King && p.kind != Gold
    ensures ShouldPromote(p, fromRow, toRow) <==> InZone(fromRow, p.upper) || InZone(toRow, p.upper)
  {
  }

  /** The promotion `movePiece` makes without asking: an unpromoted pawn, lance or knight
      arriving on its owner's last row. */
  predicate MustPromote(p: Piece, toRow: int) {
    !p.promoted && ForwardOnly(p.kind) && LastRow(toRow, p.upper)
  }

  // ---------------------------------------------------------------------------------
  // findKingPosition (pages/index.js:753-762)

  /** The first square holding `king` at or after (i, j) in row-major order. */
  function FindKingFrom(b: Board, king: Piece, i: int, j: int): Option<Square>
    requires 0 <= i <= 9 && 0 <= j <= 9
    decreases 9 - i, 9 - j
  {
    if i == 9 then None
    else if j == 9 then FindKingFrom(b, king, i + 1, 0)
    else if b[i][j] == Occupied(king) then Some(Square(i, j))
    else FindKingFrom(b, king, i, j + 1)
  }

  function FindKing(b: Board, king: Piece): Option<Square> {
    FindKingFrom(b, king, 0, 0)
  }

  lemma {:induction false} FindKingFromSpec(b: Board, king: Piece, i: int, j: int)
    requires 0 <= i <= 9 && 0 <= j <= 9
    ensures var pos := FindKingFrom(b, king, i, j);
      && (pos.None? <==> (forall r, c :: InBounds(r, c) && !Before(r, c, Square(i, j)) ==> b[r][c] != Occupied(king)))
      && (pos.Some? ==> (OnBoard(pos.value) && b[pos.value.row][pos.value.col] == Occupied(king) &&
            !Before(pos.value.row, pos.value.col, Square(i, j)) &&
            forall r, c :: InBounds(r, c) && !Before(r, c, Square(i, j)) && Before(r, c, pos.value) ==>
              b[r][c] != Occupied(king)))
    decreases 9 - i, 9 - j
  {
    if i == 9 {
    } else if j == 9 {
      FindKingFromSpec(b, king, i + 1, 0);
    } else if b[i][j] != Occupied(king) {
      FindKingFromSpec(b, king, i, j + 1);
    }
  }

  /** `findKingPosition` returns the first square in row-major order holding the king
      string, and null exactly when no square holds it. */
  lemma FindKingSpec(b: Board, king: Piece)
    ensures FindKing(b, king).None? <==> forall r, c :: InBounds(r, c) ==> b[r][c] != Occupied(king)
    ensures FindKing(b, king).Some? ==>
      var s := FindKing(b, king).value;
      OnBoard(s) && b[s.row][s.col] == Occupied(king) &&
      forall r, c :: InBounds(r, c) && Before(r, c, s) ==> b[r][c] != Occupied(king)
  {
    FindKingFromSpec(b, king, 0, 0);
  }

  /** `findKingPosition(kingPiece, tempBoard)`: nested row-major loops, first hit wins. */
  method FindKingPosition(king: Piece, b: Board) returns (pos: Option<Square>)
    ensures pos == FindKing(b, king)
  {
    for i := 0 to 9
      invariant FindKingFrom(b, king, i, 0) == FindKing(b, king)
    {
      for j := 0 to 9
        invariant FindKingFrom(b, king, i, j) == FindKing(b, king)
      {
        if b[i][j] == Occupied(king) {
          return Some(Square(i, j));
        }
      }
    }
    return None;
  }

  // ---------------------------------------------------------------------------------
  // isInCheck (pages/index.js:721-750)

  /** The cell at (i, j) is one `isInCheck` scans for `side` and generates square `k`. */
  predicate AttacksFrom(b: Board, side: Side, k: Square, i: int, j: int)
    requires InBounds(i, j)
  {
    OpposingCell(b[i][j], side) && k in PossibleMoves(b[i][j], i, j, b)
  }

  /** The cells that attack `k`, as a test on coordinates for the row-major scan. */
  function AttackerAt(b: Board, side: Side, k: Square): (int, int) -> bool {
    (r, c) => InBounds(r, c) && AttacksFrom(b, side, k, r, c)
  }

  /** Some cell at or after (i, j) in row-major order attacks `k`: what the scan of
      `isInCheck` still has ahead of it. */
  predicate AttackedFrom(b: Board, side: Side, k: Square, i: int, j: int)
    requires 0 <= i <= 9 && 0 <= j <= 9
    decreases 9 - i, 9 - j
  {
    if i == 9 then false
    else if j == 9 then AttackedFrom(b, side, k, i + 1, 0)
    else AttacksFrom(b, side, k, i, j) || AttackedFrom(b, side, k, i, j + 1)
  }

  lemma {:induction false} AttackedFromScan(b: Board, side: Side, k: Square, i: int, j: int)
    requires 0 <= i <= 9 && 0 <= j <= 9
    ensures AttackedFrom(b, side, k, i, j) == AnyFrom(AttackerAt(b, side, k), i, j)
    decreases 9 - i, 9 - j
  {
    if i == 9 {
    } else if j == 9 {
      AttackedFromScan(b, side, k, i + 1, 0);
    } else {
      AttackedFromScan(b, side, k, i, j + 1);
    }
  }

  /** The whole-board scan finds an attacker of `k` exactly when some cell attacks it. */
  lemma AttackedSpec(b: Board, side: Side, k: Square)
    ensures AttackedFrom(b, side, k, 0, 0) <==> exists r, c :: InBounds(r, c) && AttacksFrom(b, side, k, r, c)
  {
    AttackedFromScan(b, side, k, 0, 0);
    AnyFromSpec(AttackerAt(b, side, k), 0, 0);
  }

  /** `isInCheck(player, tempBoard)`: the player's king string is absent, or the first
      copy of it is among the squares some opposing cell generates. */
  predicate InCheck(b: Board, side: Side) {
    match FindKing(b, KingOf(side))
    case None => true
    case Some(k) => AttackedFrom(b, side, k, 0, 0)
  }

  method IsInCheck(side: Side, b: Board) returns (inCheck: bool)
    ensures inCheck == InCheck(b, side)
  {
    var kingPos := FindKingPosition(KingOf(side), b);
    if kingPos.None? {
      return true;
    }
    var k := kingPos.value;
    for i := 0 to 9
      invariant AttackedFrom(b, side, k, i, 0) == AttackedFrom(b, side, k, 0, 0)
    {
      for j := 0 to 9
        invariant AttackedFrom(b, side, k, i, j) == AttackedFrom(b, side, k, 0, 0)
      {
        var piece := b[i][j];
        if OpposingCell(piece, side) {
          var moves := GetPossibleMoves(piece, i, j, b);
          if k in moves {
            return true;
          }
        }
      }
    }
    return false;
  }

  /** `isInCheck` is true exactly when the side's king string is missing, or when some
      cell the scan treats as opposing generates the square of the first copy of it. */
  lemma InCheckSpec(b: Board, side: Side)
    ensures InCheck(b, side) <==>
      FindKing(b, KingOf(side)).None? ||
      exists r, c :: InBounds(r, c) && AttacksFrom(b, side, FindKing(b, KingOf(side)).value, r, c)
  {
    if FindKing(b, KingOf(side)).Some? {
      AttackedSpec(b, side, FindKing(b, KingOf(side)).value);
    }
  }

  // ---------------------------------------------------------------------------------
  // isCheckmate (pages/index.js:785-827)

  /** The board after the piece at (i, j) moves to `s`, as the source simulates it. */
  function Shift(b: Board, i: int, j: int, s: Square): Board
    requires InBounds(i, j) && OnBoard(s)
  {
    Place(Place(b, i, j, Empty), s.row, s.col, b[i][j])
  }

  /** Moving the cell at (i, j) to the on-board square `s` leaves `side` out of check. */
  predicate EscapeTo(b: Board, side: Side, i: int, j: int, s: Square)
    requires InBounds(i, j)
  {
    OnBoard(s) && !InCheck(Shift(b, i, j, s), side)
  }

  /** Moving the `side` cell at (i, j) to the generated square `s` leaves `side` out of
      check. */
  predicate Escape(b: Board, side: Side, i: int, j: int, s: Square) {
    InBounds(i, j) && OwnCell(b[i][j], side) && s in PossibleMoves(b[i][j], i, j, b) && EscapeTo(b, side, i, j, s)
  }

  /** One of `moves[n..]`, the squares generated for the cell at (i, j), is an escape. */
  predicate EscapeAmong(b: Board, side: Side, i: int, j: int, moves: seq<Square>, n: nat)
    requires InBounds(i, j)
    decreases |moves| - n
  {
    if n >= |moves| then false
    else EscapeTo(b, side, i, j, moves[n]) || EscapeAmong(b, side, i, j, moves, n + 1)
  }

  /** Moving the cell at (i, j) to `moves[m]` gets `side` out of check. */
  function EscapeMoveAt(b: Board, side: Side, i: int, j: int, moves: seq<Square>): int -> bool
    requires InBounds(i, j)
  {
    m => 0 <= m < |moves| && EscapeTo(b, side, i, j, moves[m])
  }

  lemma {:induction false} EscapeAmongScan(b: Board, side: Side, i: int, j: int, moves: seq<Square>, n: nat)
    requires InBounds(i, j)
    ensures EscapeAmong(b, side, i, j, moves, n) == AnyIndex(EscapeMoveAt(b, side, i, j, moves), n, |moves|)
    decreases |moves| - n
  {
    if n < |moves| {
      EscapeAmongScan(b, side, i, j, moves, n + 1);
    }
  }

  /** Some cell of `side` at or after (i, j) in row-major order has an escape. */
  predicate EscapeFrom(b: Board, side: Side, i: int, j: int)
    requires 0 <= i <= 9 && 0 <= j <= 9
    decreases 9 - i, 9 - j
  {
    if i == 9 then false
    else if j == 9 then EscapeFrom(b, side, i + 1, 0)
    else
      var here := OwnCell(b[i][j], side) && EscapeAmong(b, side, i, j, PossibleMoves(b[i][j], i, j, b), 0);
      here || EscapeFrom(b, side, i, j + 1)
  }

  /** The cells of `side` with an escape, as a test on coordinates. */
  function EscaperAt(b: Board, side: Side): (int, int) -> bool {
    (r, c) => InBounds(r, c) && OwnCell(b[r][c], side) && EscapeAmong(b, side, r, c, PossibleMoves(b[r][c], r, c, b), 0)
  }

  lemma {:induction false} EscapeFromScan(b: Board, side: Side, i: int, j: int)
    requires 0 <= i <= 9 && 0 <= j <= 9
    ensures EscapeFrom(b, side, i, j) == AnyFrom(EscaperAt(b, side), i, j)
    decreases 9 - i, 9 - j
  {
    if i == 9 {
    } else if j == 9 {
      EscapeFromScan(b, side, i + 1, 0);
    } else {
      EscapeFromScan(b, side, i, j + 1);
    }
  }

  /** `isCheckmate(player)`: in check, and no board move of the player's gets out of it.
      Drops are not tried. `b` is always the component's live board: the source ignores
      any board passed as a second argument. */
  predicate Checkmate(b: Board, side: Side) {
    InCheck(b, side) && !EscapeFrom(b, side, 0, 0)
  }

  method IsCheckmate(side: Side, b: Board) returns (mate: bool)
    ensures mate == Checkmate(b, side)
    ensures !InCheck(b, side) ==> !mate
  {
    var check := IsInCheck(side, b);
    if !check {
      return false;
    }
    var legalExists := false;
    label outerLoop:
    for i := 0 to 9
      invariant !legalExists
      invariant EscapeFrom(b, side, i, 0) == EscapeFrom(b, side, 0, 0)
    {
      for j := 0 to 9
        invariant !legalExists
        invariant EscapeFrom(b, side, i, j) == EscapeFrom(b, side, 0, 0)
      {
        var piece := b[i][j];
        if !OwnCell(piece, side) {
          continue;
        }
        var moves := GetPossibleMoves(piece, i, j, b);
        for k := 0 to |moves|
          invariant !legalExists
          invariant EscapeAmong(b, side, i, j, moves, k) == EscapeAmong(b, side, i, j, moves, 0)
        {
          var s := moves[k];
          if !OnBoard(s) {
            continue;
          }
          var simulated := Place(Place(b, i, j, Empty), s.row, s.col, piece);
          var c := IsInCheck(side, simulated);
          if !c {
            assert EscapeFrom(b, side, 0, 0);
            legalExists := true;
            break outerLoop;
          }
        }
      }
    }
    if !legalExists {
      return true;
    }
    return false;
  }

  /** A cell the checkmate scan accepts has an escape. */
  lemma EscaperAtSound(b: Board, side: Side, r: int, c: int)
    requires EscaperAt(b, side)(r, c)
    ensures exists s :: Escape(b, side, r, c, s)
  {
    var moves := PossibleMoves(b[r][c], r, c, b);
    EscapeAmongScan(b, side, r, c, moves, 0);
    AnyIndexSpec(EscapeMoveAt(b, side, r, c, moves), 0, |moves|);
    var m :| 0 <= m < |moves| && EscapeMoveAt(b, side, r, c, moves)(m);
    assert Escape(b, side, r, c, moves[m]);
  }

  /** A cell with an escape is one the checkmate scan accepts. */
  lemma EscaperAtComplete(b: Board, side: Side, r: int, c: int, s: Square)
    requires Escape(b, side, r, c, s)
    ensures EscaperAt(b, side)(r, c)
  {
    var moves := PossibleMoves(b[r][c], r, c, b);
    EscapeAmongScan(b, side, r, c, moves, 0);
    AnyIndexSpec(EscapeMoveAt(b, side, r, c, moves), 0, |moves|);
    var m :| 0 <= m < |moves| && moves[m] == s;
    assert EscapeMoveAt(b, side, r, c, moves)(m);
  }

  lemma EscaperAtSpec(b: Board, side: Side, r: int, c: int)
    ensures EscaperAt(b, side)(r, c) <==> exists s :: Escape(b, side, r, c, s)
  {
    if EscaperAt(b, side)(r, c) {
      EscaperAtSound(b, side, r, c);
    }
    if exists s :: Escape(b, side, r, c, s) {
      var s :| Escape(b, side, r, c, s);
      EscaperAtComplete(b, side, r, c, s);
    }
  }

  /** `isCheckmate` holds exactly when the player is in check and no generated board move
      of any of the player's cells leaves the player out of check; it is false whenever
      the player is not in check. */
  lemma CheckmateSpec(b: Board, side: Side)
    ensures Checkmate(b, side) <==> InCheck(b, side) && !exists r, c, s :: Escape(b, side, r, c, s)
  {
    EscapeFromScan(b, side, 0, 0);
    AnyFromSpec(EscaperAt(b, side), 0, 0);
    forall r, c
      ensures EscaperAt(b, side)(r, c) <==> exists s :: Escape(b, side, r, c, s)
    {
      EscaperAtSpec(b, side, r, c);
    }
  }

  // ---------------------------------------------------------------------------------
  // isStalemate (pages/index.js:829-853)

  /** The cell at (i, j) is not `side`'s or generates no square. */
  predicate Idle(b: Board, side: Side, i: int, j: int)
    requires InBounds(i, j)
  {
    OwnCell(b[i][j], side) ==> PossibleMoves(b[i][j], i, j, b) == []
  }

  function IdleAt(b: Board, side: Side): (int, int) -> bool {
    (r, c) => InBounds(r, c) ==> Idle(b, side, r, c)
  }

  /** Every cell at or after (i, j) in row-major order is idle. */
  predicate IdleFrom(b: Board, side: Side, i: int, j: int)
    requires 0 <= i <= 9 && 0 <= j <= 9
    decreases 9 - i, 9 - j
  {
    if i == 9 then true
    else if j == 9 then IdleFrom(b, side, i + 1, 0)
    else Idle(b, side, i, j) && IdleFrom(b, side, i, j + 1)
  }

  lemma {:induction false} IdleFromScan(b: Board, side: Side, i: int, j: int)
    requires 0 <= i <= 9 && 0 <= j <= 9
    ensures IdleFrom(b, side, i, j) == AllFrom(IdleAt(b, side), i, j)
    decreases 9 - i, 9 - j
  {
    if i == 9 {
    } else if j == 9 {
      IdleFromScan(b, side, i + 1, 0);
    } else {
      IdleFromScan(b, side, i, j + 1);
    }
  }

  /** `isStalemate(player)`: not in check, and no cell of the player's generates any
      square. Generated squares are counted without asking whether they leave the king
      in check. */
  predicate Stalemate(b: Board, side: Side) {
    !InCheck(b, side) && IdleFrom(b, side, 0, 0)
  }

  method IsStalemate(side: Side, b: Board) returns (stale: bool)
    ensures stale == Stalemate(b, side)
    ensures InCheck(b, side) ==> !stale
  {
    var check := IsInCheck(side, b);
    if check {
      return false;
    }
    for i := 0 to 9
      invariant IdleFrom(b, side, i, 0) == IdleFrom(b, side, 0, 0)
    {
      for j := 0 to 9
        invariant IdleFrom(b, side, i, j) == IdleFrom(b, side, 0, 0)
      {
        var piece := b[i][j];
        if OwnCell(piece, side) {
          var moves := GetPossibleMoves(piece, i, j, b);
          if |moves| > 0 {
            return false;
          }
        }
      }
    }
    return true;
  }

  /** `isStalemate` holds exactly when the player is not in check and none of the
      player's cells generates a square; it is false whenever the player is in check. */
  lemma StalemateSpec(b: Board, side: Side)
    ensures Stalemate(b, side) <==>
      !InCheck(b, side) &&
      forall r, c :: InBounds(r, c) && OwnCell(b[r][c], side) ==> PossibleMoves(b[r][c], r, c, b) == []
  {
    IdleFromScan(b, side, 0, 0);
    AllFromSpec(IdleAt(b, side), 0, 0);
  }

  // ---------------------------------------------------------------------------------
  // Drops (pages/index.js:928-984)

  /** The unpromoted pawn string of `side`: "P" for Gote, "p" for Sente. */
  function PawnOf(side: Side): Cell {
    Occupied(Piece(Pawn, side == Gote, false))
  }

  /** The hand entry is the string "p" or "P" (`piece.toLowerCase() === "p"`). */
  predicate IsPawnString(p: Piece) {
    p.kind == Pawn && !p.promoted
  }

  /** `isValidPawnDrop(x, y, board)`: no pawn of the dropper's already stands in column
      `y` (nifu), and `x` is not the dropper's last row. */
  predicate PawnDropAllowed(x: int, y: int, b: Board, side: Side)
    requires 0 <= y < 9
  {
    (forall row :: 0 <= row < 9 ==> b[row][y] != PawnOf(side)) &&
    !(side == Gote && x == 0) && !(side == Sente && x == 8)
  }

  method IsValidPawnDrop(x: int, y: int, b: Board, side: Side) returns (ok: bool)
    requires 0 <= y < 9
    ensures ok == PawnDropAllowed(x, y, b, side)
  {
    for row := 0 to 9
      invariant forall r :: 0 <= r < row ==> b[r][y] != PawnOf(side)
    {
      var cell := b[row][y];
      if cell.Occupied? && cell.piece.kind == Pawn && !cell.piece.promoted && OwnCell(cell, side) {
        return false;
      }
    }
    if (side == Gote && x == 0) || (side == Sente && x == 8) {
      return false;
    }
    return true;
  }

  /** A hand entry as the dropper places it: upper case for Gote, lower case for Sente. */
  function Dropped(p: Piece, side: Side): Cell {
    Occupied(p.(upper := side == Gote))
  }

  /** `isValidDrop(piece, x, y, board)` while `side` is to move and `live` is the component
      board that `isCheckmate` reads: pawns must pass the pawn rules and must not find the
      opponent already mated on `live`; no drop may leave the dropper in check. The
      target square is not examined here. */
  predicate ValidDrop(p: Piece, x: int, y: int, b: Board, side: Side, live: Board)
    requires InBounds(x, y)
  {
    (IsPawnString(p) ==> PawnDropAllowed(x, y, b, side) && !Checkmate(live, Other(side))) &&
    !InCheck(Place(b, x, y, Dropped(p, side)), side)
  }

  method IsValidDrop(p: Piece, x: int, y: int, b: Board, side: Side, live: Board) returns (ok: bool)
    requires InBounds(x, y)
    ensures ok == ValidDrop(p, x, y, b, side, live)
  {
    if IsPawnString(p) {
      var pawnOk := IsValidPawnDrop(x, y, b, side);
      if !pawnOk {
        return false;
      }
    }
    var temp := Place(b, x, y, Dropped(p, side));
    if IsPawnString(p) {
      var mate := IsCheckmate(Other(side), live);
      if mate {
        return false;
      }
    }
    var check := IsInCheck(side, temp);
    return !check;
  }

  /** The empty squares where the drop is valid, as a test on coordinates. */
  function DropAt(p: Piece, b: Board, side: Side, live: Board): (int, int) -> bool {
    (r, c) => InBounds(r, c) && b[r][c].Empty? && ValidDrop(p, r, c, b, side, live)
  }

  /** The legal drop squares strictly before (i, j) in row-major order. */
  function DropsBefore(p: Piece, b: Board, side: Side, live: Board, i: int, j: int): seq<Square>
    requires Cursor(i, j)
    decreases i, j
  {
    if j == 0 then (if i == 0 then [] else DropsBefore(p, b, side, live, i - 1, 9))
    else
      var hit := b[i][j - 1].Empty? && ValidDrop(p, i, j - 1, b, side, live);
      DropsBefore(p, b, side, live, i, j - 1) + (if hit then [Square(i, j - 1)] else [])
  }

  lemma {:induction false} DropsBeforeScan(p: Piece, b: Board, side: Side, live: Board, i: int, j: int)
    requires Cursor(i, j)
    ensures DropsBefore(p, b, side, live, i, j) == Gather(DropAt(p, b, side, live), i, j)
    decreases i, j
  {
    if j == 0 {
      if i > 0 {
        DropsBeforeScan(p, b, side, live, i - 1, 9);
      }
    } else {
      DropsBeforeScan(p, b, side, live, i, j - 1);
    }
  }

  /** `getDropLocations(piece, board)`. */
  function DropLocations(p: Piece, b: Board, side: Side, live: Board): seq<Square> {
    DropsBefore(p, b, side, live, 9, 0)
  }

  method GetDropLocations(p: Piece, b: Board, side: Side, live: Board) returns (moves: seq<Square>)
    ensures moves == DropLocations(p, b, side, live)
  {
    moves := [];
    for x := 0 to 9
      invariant moves == DropsBefore(p, b, side, live, x, 0)
    {
      moves := DropsInRow(p, b, side, live, x, moves);
    }
  }

  /** One pass of the inner loop of `getDropLocations`: pushes the legal drop squares of
      row `x` onto what the earlier rows collected. */
  method DropsInRow(p: Piece, b: Board, side: Side, live: Board, x: int, moves: seq<Square>)
    returns (out: seq<Square>)
    requires 0 <= x < 9 && moves == DropsBefore(p, b, side, live, x, 0)
    ensures out == DropsBefore(p, b, side, live, x + 1, 0)
  {
    out := moves;
    for y := 0 to 9
      invariant out == DropsBefore(p, b, side, live, x, y)
    {
      if b[x][y].Empty? {
        var ok := IsValidDrop(p, x, y, b, side, live);
        if ok {
          out := out + [Square(x, y)];
        }
      }
    }
  }

  /** `getDropLocations` returns exactly the empty squares that pass `isValidDrop`. */
  lemma DropLocationsMembers(p: Piece, b: Board, side: Side, live: Board)
    ensures forall s :: s in DropLocations(p, b, side, live) <==>
      OnBoard(s) && b[s.row][s.col].Empty? && ValidDrop(p, s.row, s.col, b, side, live)
  {
    DropsBeforeScan(p, b, side, live, 9, 0);
    GatherMembers(DropAt(p, b, side, live), 9, 0);
  }

  /** `getDropLocations` lists its squares in strictly increasing row-major order. */
  lemma DropLocationsOrdered(p: Piece, b: Board, side: Side, live: Board)
    ensures Ordered(DropLocations(p, b, side, live))
  {
    DropsBeforeScan(p, b, side, live, 9, 0);
    GatherOrdered(DropAt(p, b, side, live), 9, 0);
  }

  /** After an accepted pawn drop the column holds exactly one unpromoted pawn of the
      dropper's, the one just dropped (nifu), it is not on the dropper's last row, and the
      dropper is not in check. */
  lemma PawnDropRules(p: Piece, x: int, y: int, b: Board, side: Side, live: Board)
    requires InBounds(x, y) && IsPawnString(p) && ValidDrop(p, x, y, b, side, live)
    ensures forall row :: 0 <= row < 9 ==> (Place(b, x, y, Dropped(p, side))[row][y] == PawnOf(side) <==> row == x)
    ensures !LastRow(x, side == Gote)
    ensures !Checkmate(live, Other(side))
    ensures !InCheck(Place(b, x, y, Dropped(p, side)), side)
  {
  }
}
