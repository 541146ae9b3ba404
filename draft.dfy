/** The older engine of lib/game.js. It indexes the board `board[y][x]`; its `'player'` owns
    the upper-case pieces and moves toward row 0, its `'opponent'` the lower-case ones.
    The board, the side to move and the two capture lists are module-level variables
    that its functions change in place, so they are the fields of `DraftGame`. Its
    functions can throw (`undefined.some(...)`, an undefined `isCheckmate`); a result is
    then `Threw`, and a change made before the throw stays. */
module Draft {
  import opened Board

  datatype Seat = Player | Opponent

  /** The outcome of a call that can throw. */
  datatype Outcome<T> = Returned(value: T) | Threw

  /** `switchTurn`'s toggle. */
  function OtherSeat(s: Seat): (t: Seat)
    ensures t != s
  {
    if s == Player then Opponent else Player
  }

  /** The king string of a seat: "K" for the player, "k" for the opponent. */
  function KingPiece(s: Seat): Piece {
    Piece(King, s == Player, false)
  }

  // ---------------------------------------------------------------------------------
  // promote (lib/game.js:61-64)

  /** `promote(piece)`: "P", "L", "N" and "S" gain a "+"; every other string, the
      lower-case ones included, comes back unchanged. */
  function Promote(p: Piece): (q: Piece)
    ensures q.kind == p.kind && q.upper == p.upper
    ensures q.promoted <==> p.promoted || (p.upper && (p.kind == Pawn || p.kind == Lance || p.kind == Knight || p.kind == Silver))
    ensures !p.upper || p.promoted ==> q == p
  {
    if p.upper && !p.promoted && (p.kind == Pawn || p.kind == Lance || p.kind == Knight || p.kind == Silver)
    then p.(promoted := true) else p
  }

  // ---------------------------------------------------------------------------------
  // isValidLineMove (lib/game.js:350-373)

  /** The pieces `isValidMove` hands to `isValidLineMove`: an unpromoted rook, bishop or
      lance of either case. */
  predicate LinePiece(p: Piece) {
    !p.promoted && (p.kind == Rook || p.kind == Bishop || p.kind == Lance)
  }

  function Abs(d: int): nat {
    if d < 0 then -d else d
  }

  /** `d / Math.abs(d)`, and 0 for 0. */
  function Sign(d: int): int {
    if d > 0 then 1 else if d < 0 then -1 else 0
  }

  /** The number of steps from one end of a line to the other. */
  function Steps(dx: int, dy: int): nat {
    if Abs(dx) >= Abs(dy) then Abs(dx) else Abs(dy)
  }

  /** Coordinate `a` after `k` steps of `s`. */
  function Along(a: int, k: nat, s: int): int {
    if s == 0 then a else if s > 0 then a + k else a - k
  }

  /** The direction test of `isValidLineMove`: a rook moves along a row or a column, a
      bishop along a diagonal, a lance along a column (in either direction). */
  predicate Aligned(p: Piece, dx: int, dy: int) {
    (p.kind == Rook ==> dx == 0 || dy == 0)
    && (p.kind == Bishop ==> Abs(dx) == Abs(dy))
    && (p.kind == Lance ==> dx == 0)
  }

  /** On an aligned line between two squares of the board, every square strictly between
      them is on the board. */
  lemma AlongOnBoard(p: Piece, fx: int, fy: int, tx: int, ty: int, k: nat)
    requires LinePiece(p) && InBounds(fy, fx) && InBounds(ty, tx)
    requires Aligned(p, tx - fx, ty - fy) && k < Steps(tx - fx, ty - fy)
    ensures InBounds(Along(fy, k, Sign(ty - fy)), Along(fx, k, Sign(tx - fx)))
  {
  }

  /** Walking an aligned line, the walker stands on the target exactly after the last step. */
  lemma AlongMeets(p: Piece, fx: int, fy: int, tx: int, ty: int, k: nat)
    requires LinePiece(p) && Aligned(p, tx - fx, ty - fy) && k <= Steps(tx - fx, ty - fy)
    ensures (Along(fx, k, Sign(tx - fx)) == tx && Along(fy, k, Sign(ty - fy)) == ty)
      <==> k == Steps(tx - fx, ty - fy)
  {
  }

  /** `isValidLineMove` as a statement about the board: the move is aligned for the piece
      and every square strictly between origin and target is empty. */
  predicate LineMoveOk(b: Board, p: Piece, fx: int, fy: int, tx: int, ty: int)
    requires LinePiece(p) && InBounds(fy, fx) && InBounds(ty, tx)
  {
    var dx, dy := tx - fx, ty - fy;
    Aligned(p, dx, dy) && ClearBefore(b, p, fx, fy, tx, ty, Steps(dx, dy))
  }

  /** Every square of an aligned line before step `n` (and before the target) is empty. */
  predicate ClearBefore(b: Board, p: Piece, fx: int, fy: int, tx: int, ty: int, n: nat)
    requires LinePiece(p) && InBounds(fy, fx) && InBounds(ty, tx) && Aligned(p, tx - fx, ty - fy)
  {
    var dx, dy := tx - fx, ty - fy;
    forall k: nat :: 1 <= k < n && k < Steps(dx, dy) ==>
      (AlongOnBoard(p, fx, fy, tx, ty, k);
       b[Along(fy, k, Sign(dy))][Along(fx, k, Sign(dx))] == Empty)
  }

  /** One more empty square extends the clear stretch of a line by one step. */
  lemma ClearExtend(b: Board, p: Piece, fx: int, fy: int, tx: int, ty: int, k: nat)
    requires LinePiece(p) && InBounds(fy, fx) && InBounds(ty, tx) && Aligned(p, tx - fx, ty - fy)
    requires 1 <= k < Steps(tx - fx, ty - fy) && ClearBefore(b, p, fx, fy, tx, ty, k)
    requires InBounds(Along(fy, k, Sign(ty - fy)), Along(fx, k, Sign(tx - fx)))
    requires b[Along(fy, k, Sign(ty - fy))][Along(fx, k, Sign(tx - fx))] == Empty
    ensures ClearBefore(b, p, fx, fy, tx, ty, k + 1)
  {
  }

  /** An occupied square strictly between origin and target spoils the line; a line clear
      up to the target is clear. */
  lemma ClearEnds(b: Board, p: Piece, fx: int, fy: int, tx: int, ty: int, k: nat)
    requires LinePiece(p) && InBounds(fy, fx) && InBounds(ty, tx) && Aligned(p, tx - fx, ty - fy)
    ensures 1 <= k < Steps(tx - fx, ty - fy)
      && InBounds(Along(fy, k, Sign(ty - fy)), Along(fx, k, Sign(tx - fx)))
      && b[Along(fy, k, Sign(ty - fy))][Along(fx, k, Sign(tx - fx))] != Empty
      ==> !LineMoveOk(b, p, fx, fy, tx, ty)
    ensures k >= Steps(tx - fx, ty - fy) && ClearBefore(b, p, fx, fy, tx, ty, k)
      ==> LineMoveOk(b, p, fx, fy, tx, ty)
  {
  }

  /** The rejections of `isValidLineMove`: a rook off its row and column, a bishop off its
      diagonals, a lance off its column, and any path with an occupied square strictly
      between origin and target. */
  lemma LineMoveRejections(b: Board, p: Piece, fx: int, fy: int, tx: int, ty: int, k: nat)
    requires LinePiece(p) && InBounds(fy, fx) && InBounds(ty, tx)
    ensures p.kind == Rook && tx != fx && ty != fy ==> !LineMoveOk(b, p, fx, fy, tx, ty)
    ensures p.kind == Bishop && Abs(tx - fx) != Abs(ty - fy) ==> !LineMoveOk(b, p, fx, fy, tx, ty)
    ensures p.kind == Lance && tx != fx ==> !LineMoveOk(b, p, fx, fy, tx, ty)
    ensures 1 <= k < Steps(tx - fx, ty - fy) && Aligned(p, tx - fx, ty - fy)
            && b[Along(fy, k, Sign(ty - fy))][Along(fx, k, Sign(tx - fx))] != Empty
            ==> !LineMoveOk(b, p, fx, fy, tx, ty)
  {
    if 1 <= k < Steps(tx - fx, ty - fy) && Aligned(p, tx - fx, ty - fy) {
      AlongOnBoard(p, fx, fy, tx, ty, k);
    }
  }

  /** The lance's test has no direction: one step back along its column to an empty or
      occupied square is accepted for both cases. */
  lemma LanceMovesBackward(b: Board, upper: bool, fx: int, fy: int)
    requires InBounds(fy, fx) && InBounds(fy + 1, fx) && InBounds(fy - 1, fx)
    ensures LineMoveOk(b, Piece(Lance, upper, false), fx, fy, fx, fy + 1)
    ensures LineMoveOk(b, Piece(Lance, upper, false), fx, fy, fx, fy - 1)
  {
  }

  // ---------------------------------------------------------------------------------
  // isValidMove (lib/game.js:325-346)

  /** `isValidMove(piece, fromX, fromY, toX, toY)`: " " and promoted strings have no entry
      in the movement table and are rejected; rooks, bishops and lances go to the line
      test; every other piece reads `.normal`, which the table does not have, and the call
      `undefined.some(...)` throws. */
  function ValidMove(b: Board, c: Cell, fx: int, fy: int, tx: int, ty: int): (r: Outcome<bool>)
    requires InBounds(fy, fx) && InBounds(ty, tx)
    ensures r.Threw? <==> c.Occupied? && !c.piece.promoted && !LinePiece(c.piece)
  {
    match c
    case Empty => Returned(false)
    case Occupied(p) =>
      if p.promoted then Returned(false)
      else if LinePiece(p) then Returned(LineMoveOk(b, p, fx, fy, tx, ty))
      else Threw
  }

  // ---------------------------------------------------------------------------------
  // isOpponentPiece, isSquareUnderAttack, isKingInCheck (lib/game.js:111-143)

  /** `isOpponentPiece(piece, opponent)`: for `'player'` a string equal to its lower case,
      for `'opponent'` one equal to its upper case; " " is both. */
  predicate IsOpponentPiece(c: Cell, opponent: Seat) {
    if opponent == Player then IsLowerCell(c) else IsUpperCell(c)
  }

  /** `isSquareUnderAttack(x, y, player)` from row i, column j on: the row-major scan
      over the pieces that `isOpponentPiece(piece, opponent)` accepts, stopping at the
      first `isValidMove` that is true or throws. */
  function AttackFrom(b: Board, x: int, y: int, player: Seat, i: int, j: int): Outcome<bool>
    requires InBounds(y, x) && 0 <= i <= 9 && 0 <= j <= 9
    decreases 9 - i, 9 - j
  {
    if i == 9 then Returned(false)
    else if j == 9 then AttackFrom(b, x, y, player, i + 1, 0)
    else if IsOpponentPiece(b[i][j], OtherSeat(player)) && ValidMove(b, b[i][j], j, i, x, y) != Returned(false) then
      ValidMove(b, b[i][j], j, i, x, y)
    else AttackFrom(b, x, y, player, i, j + 1)
  }

  /** The `forEach` that locates the king from row i, column j on, with `found` the
      position so far: every later hit overwrites it, so the last king wins. */
  function LastKingFrom(b: Board, king: Piece, i: int, j: int, found: Option<Square>): Option<Square>
    requires 0 <= i <= 9 && 0 <= j <= 9
    decreases 9 - i, 9 - j
  {
    if i == 9 then found
    else if j == 9 then LastKingFrom(b, king, i + 1, 0, found)
    else LastKingFrom(b, king, i, j + 1, if b[i][j] == Occupied(king) then Some(Square(i, j)) else found)
  }

  /** Square (i, j) comes at or after (r, c) in row-major order. */
  predicate AtOrAfter(i: int, j: int, r: int, c: int) {
    i > r || (i == r && j >= c)
  }

  /** The king the scan settles on is a king and no king comes after it; with no king
      found, there is none from the start of the scan on. */
  lemma {:induction false} LastKingFromSpec(b: Board, king: Piece, i: int, j: int, found: Option<Square>)
    requires 0 <= i <= 9 && 0 <= j <= 9
    requires found.Some? ==> OnBoard(found.value) && b[found.value.row][found.value.col] == Occupied(king)
    ensures var r := LastKingFrom(b, king, i, j, found);
            (r.Some? ==> OnBoard(r.value) && b[r.value.row][r.value.col] == Occupied(king)
                         && (r == found || AtOrAfter(r.value.row, r.value.col, i, j))
                         && forall p, q ::
                              InBounds(p, q) && AtOrAfter(p, q, i, j) && b[p][q] == Occupied(king) ==>
                                AtOrAfter(r.value.row, r.value.col, p, q))
            && (r.None? ==> found.None? && forall p, q :: InBounds(p, q) && AtOrAfter(p, q, i, j) ==> b[p][q] != Occupied(king))
    decreases 9 - i, 9 - j
  {
    if i == 9 {
    } else if j == 9 {
      LastKingFromSpec(b, king, i + 1, 0, found);
    } else {
      LastKingFromSpec(b, king, i, j + 1, if b[i][j] == Occupied(king) then Some(Square(i, j)) else found);
    }
  }

  function LastKing(b: Board, king: Piece): Option<Square> {
    LastKingFrom(b, king, 0, 0, None)
  }

  /** `isKingInCheck(player)` on board `b`: true when the king is missing, else the attack
      scan on the last king found. */
  function KingInCheck(b: Board, player: Seat): Outcome<bool> {
    var k := LastKing(b, KingPiece(player));
    if k.None? then Returned(true)
    else
      LastKingFromSpec(b, KingPiece(player), 0, 0, None);
      AttackFrom(b, k.value.col, k.value.row, player, 0, 0)
  }

  /** A scan that still has ahead of it a piece it accepts and whose `isValidMove` throws
      cannot come back false. */
  lemma {:induction false} AttackFromNotFalse(b: Board, x: int, y: int, player: Seat, i: int, j: int, r: int, c: int)
    requires InBounds(y, x) && 0 <= i <= 9 && 0 <= j <= 9 && InBounds(r, c) && AtOrAfter(r, c, i, j)
    requires IsOpponentPiece(b[r][c], OtherSeat(player)) && ValidMove(b, b[r][c], c, r, x, y) == Threw
    ensures AttackFrom(b, x, y, player, i, j) != Returned(false)
    decreases 9 - i, 9 - j
  {
    if j == 9 {
      AttackFromNotFalse(b, x, y, player, i + 1, 0, r, c);
    } else if i != r || j != c {
      AttackFromNotFalse(b, x, y, player, i, j + 1, r, c);
    }
  }

  /** `isKingInCheck` never answers "not in check": `isOpponentPiece` is inverted, so the
      scan looks at the player's own pieces, and when it reaches the player's own king
      (if not sooner) `isValidMove` throws. */
  lemma KingInCheckNeverFalse(b: Board, player: Seat)
    ensures KingInCheck(b, player) != Returned(false)
  {
    var k := LastKing(b, KingPiece(player));
    LastKingFromSpec(b, KingPiece(player), 0, 0, None);
    if k.Some? {
      AttackFromNotFalse(b, k.value.col, k.value.row, player, 0, 0, k.value.row, k.value.col);
    }
  }

  // ---------------------------------------------------------------------------------
  // isValidDrop (lib/game.js:170-205)

  /** A piece string whose lower case is exactly `letter`'s: unpromoted, either case. */
  predicate Plain(p: Piece, k: Kind) {
    p.kind == k && !p.promoted
  }

  /** `board[row][x].toLowerCase() === 'p' && !board[row][x].includes('+')`. */
  predicate UnpromotedPawn(c: Cell) {
    c.Occupied? && Plain(c.piece, Pawn)
  }

  /** The rank rules: no knight on the mover's last two rows, no lance or pawn on its last
      row. */
  function RankRule(seat: Seat, p: Piece, y: int): (ok: bool)
    ensures Plain(p, Knight) && ((seat == Player && y <= 1) || (seat == Opponent && y >= 7)) ==> !ok
    ensures (Plain(p, Lance) || Plain(p, Pawn)) && ((seat == Player && y == 0) || (seat == Opponent && y == 8)) ==> !ok
    ensures !Plain(p, Knight) && !Plain(p, Lance) && !Plain(p, Pawn) ==> ok
  {
    if Plain(p, Knight) && ((seat == Player && y <= 1) || (seat == Opponent && y >= 7)) then false
    else if (Plain(p, Lance) || Plain(p, Pawn)) && ((seat == Player && y == 0) || (seat == Opponent && y == 8)) then false
    else true
  }

  /** The outcome of `isValidDrop` and the board it leaves. */
  datatype Trial = Trial(result: Outcome<bool>, board: Board)

  /** `isValidDrop(piece, x, y)` for the seat to move. A pawn with no unpromoted pawn of
      either case in its column is written to the square for the checkmate probe; the
      probe calls `isKingInCheck` for the other seat and then `isCheckmate`, which
      lib/game.js does not define, so a probe that sees check throws, as does one whose
      check test throws, and the pawn stays on the board. */
  function ValidDrop(b: Board, seat: Seat, p: Piece, x: int, y: int): (t: Trial)
    requires InBounds(y, x)
  {
    if b[y][x] != Empty then Trial(Returned(false), b)
    else if Plain(p, Pawn) then
      if exists row :: 0 <= row < 9 && UnpromotedPawn(b[row][x]) then Trial(Returned(false), b)
      else
        var probe := Place(b, y, x, Occupied(Piece(Pawn, seat == Player, false)));
        if KingInCheck(probe, OtherSeat(seat)) == Returned(false) then Trial(Returned(RankRule(seat, p, y)), b)
        else Trial(Threw, probe)
    else Trial(Returned(RankRule(seat, p, y)), b)
  }

  /** A drop onto an occupied square is refused and the board is left alone. */
  lemma DropOntoPieceRefused(b: Board, seat: Seat, p: Piece, x: int, y: int)
    requires InBounds(y, x) && b[y][x] != Empty
    ensures ValidDrop(b, seat, p, x, y) == Trial(Returned(false), b)
  {
  }

  /** A pawn drop into a column that holds an unpromoted pawn of either side is refused. */
  lemma PawnDropNifu(b: Board, seat: Seat, p: Piece, x: int, y: int, row: int)
    requires InBounds(y, x) && Plain(p, Pawn) && 0 <= row < 9 && UnpromotedPawn(b[row][x])
    ensures ValidDrop(b, seat, p, x, y).result == Returned(false)
  {
  }

  /** Every other pawn drop onto an empty square throws and leaves the pawn on the board:
      the probe's `isKingInCheck` never answers false. The board is restored only on the
      paths that return. */
  lemma PawnDropThrows(b: Board, seat: Seat, p: Piece, x: int, y: int)
    requires InBounds(y, x) && b[y][x] == Empty && Plain(p, Pawn)
    requires forall row :: 0 <= row < 9 ==> !UnpromotedPawn(b[row][x])
    ensures ValidDrop(b, seat, p, x, y) == Trial(Threw, Place(b, y, x, Occupied(Piece(Pawn, seat == Player, false))))
  {
    KingInCheckNeverFalse(Place(b, y, x, Occupied(Piece(Pawn, seat == Player, false))), OtherSeat(seat));
  }

  /** A drop that returns leaves the board as it found it. */
  lemma DropRestoresBoard(b: Board, seat: Seat, p: Piece, x: int, y: int)
    requires InBounds(y, x) && ValidDrop(b, seat, p, x, y).result.Returned?
    ensures ValidDrop(b, seat, p, x, y).board == b
  {
  }

  /** A non-pawn drop onto an empty square follows the rank rules alone: knights not on the
      mover's last two rows, lances not on its last row. */
  lemma PieceDropRanks(b: Board, seat: Seat, p: Piece, x: int, y: int)
    requires InBounds(y, x) && b[y][x] == Empty && !Plain(p, Pawn)
    ensures ValidDrop(b, seat, p, x, y) == Trial(Returned(RankRule(seat, p, y)), b)
    ensures Plain(p, Knight) ==> (ValidDrop(b, seat, p, x, y).result.value <==> if seat == Player then y >= 2 else y <= 6)
    ensures Plain(p, Lance) ==> (ValidDrop(b, seat, p, x, y).result.value <==> if seat == Player then y != 0 else y != 8)
  {
  }

  // ---------------------------------------------------------------------------------
  // isValidKnightMove (lib/game.js:375-381)

  /** `isValidKnightMove(piece, ...)`: "n" jumps two rows toward row 0, every other string
      two rows toward row 8, one column aside. (The lower-case pawn of the movement table
      moves toward row 8, so the knight's directions are the reverse of the pawn's.) */
  function KnightMove(c: Cell, fx: int, fy: int, tx: int, ty: int): (ok: bool)
    ensures ok <==> Abs(tx - fx) == 1 && ty - fy == (if c == Occupied(Piece(Knight, false, false)) then -2 else 2)
  {
    var dy := if c == Occupied(Piece(Knight, false, false)) then -2 else 2;
    (fx - 1 == tx && fy + dy == ty) || (fx + 1 == tx && fy + dy == ty)
  }

  // ---------------------------------------------------------------------------------
  // findPlayerPieces (lib/game.js:455-463)

  /** One `{ piece, x, y }`. */
  datatype Found = Found(cell: Cell, x: int, y: int)

  /** The cells `findPlayerPieces` keeps for a seat: those equal to their own upper case
      (the player) or lower case (the opponent), " " included. */
  predicate Listed(c: Cell, seat: Seat) {
    if seat == Player then IsUpperCell(c) else IsLowerCell(c)
  }

  /** The `forEach` over rows and columns from row i, column j on, with `acc` the list
      so far: each kept cell is pushed, so the list is in row-major order. */
  function PiecesFrom(b: Board, seat: Seat, i: int, j: int, acc: seq<Found>): seq<Found>
    requires 0 <= i <= 9 && 0 <= j <= 9
    decreases 9 - i, 9 - j
  {
    if i == 9 then acc
    else if j == 9 then PiecesFrom(b, seat, i + 1, 0, acc)
    else PiecesFrom(b, seat, i, j + 1, if Listed(b[i][j], seat) then acc + [Found(b[i][j], j, i)] else acc)
  }

  function Pieces(b: Board, seat: Seat): seq<Found> {
    PiecesFrom(b, seat, 0, 0, [])
  }

  /** A square is listed, with its own string, exactly when its cell is kept. */
  lemma {:induction false} PiecesFromSpec(b: Board, seat: Seat, i: int, j: int, acc: seq<Found>, f: Found)
    requires 0 <= i <= 9 && 0 <= j <= 9
    ensures f in PiecesFrom(b, seat, i, j, acc) <==>
              f in acc
              || (InBounds(f.y, f.x) && AtOrAfter(f.y, f.x, i, j) && Listed(b[f.y][f.x], seat) && f.cell == b[f.y][f.x])
    decreases 9 - i, 9 - j
  {
    if i == 9 {
    } else if j == 9 {
      PiecesFromSpec(b, seat, i + 1, 0, acc, f);
    } else {
      PiecesFromSpec(b, seat, i, j + 1, if Listed(b[i][j], seat) then acc + [Found(b[i][j], j, i)] else acc, f);
    }
  }

  /** Every empty square is listed for both seats. */
  lemma EmptySquaresListed(b: Board, seat: Seat, x: int, y: int)
    requires InBounds(y, x) && b[y][x] == Empty
    ensures Found(Empty, x, y) in Pieces(b, seat)
  {
    PiecesFromSpec(b, seat, 0, 0, [], Found(Empty, x, y));
  }

  // ---------------------------------------------------------------------------------
  // The hands and the turn

  /** `array.filter(p => p !== piece)`. */
  function Without(h: seq<Piece>, p: Piece): (r: seq<Piece>)
    ensures p !in r && |r| <= |h|
    ensures forall q :: q != p ==> multiset(r)[q] == multiset(h)[q]
    decreases |h|
  {
    if h == [] then []
    else
      assert h == [h[0]] + h[1..];
      (if h[0] == p then [] else [h[0]]) + Without(h[1..], p)
  }

  /** The module-level state of lib/game.js. */
  datatype DraftState = DraftState(board: Board, current: Seat, capturedPlayer: seq<Piece>, capturedOpponent: seq<Piece>)

  function HandOf(s: DraftState, seat: Seat): seq<Piece> {
    if seat == Player then s.capturedPlayer else s.capturedOpponent
  }

  function WithHandOf(s: DraftState, seat: Seat, h: seq<Piece>): (s': DraftState)
    ensures HandOf(s', seat) == h && HandOf(s', OtherSeat(seat)) == HandOf(s, OtherSeat(seat))
    ensures s'.board == s.board && s'.current == s.current
  {
    if seat == Player then s.(capturedPlayer := h) else s.(capturedOpponent := h)
  }

  /** `capturePiece(piece)`: the string, "+" removed and in lower case, joins the list of
      the seat NOT to move. */
  function Captured(s: DraftState, c: Piece): (s': DraftState)
    ensures HandOf(s', OtherSeat(s.current)) == HandOf(s, OtherSeat(s.current)) + [Piece(c.kind, false, false)]
    ensures HandOf(s', s.current) == HandOf(s, s.current) && s'.board == s.board && s'.current == s.current
  {
    var owner := OtherSeat(s.current);
    WithHandOf(s, owner, HandOf(s, owner) + [Piece(c.kind, false, false)])
  }

  /** `dropPiece(piece, x, y)`: the piece goes on the square in the mover's case, every
      copy of it leaves the mover's list, and the turn passes. */
  function Dropped(s: DraftState, p: Piece, x: int, y: int): (s': DraftState)
    requires InBounds(y, x)
    ensures s'.board[y][x] == Occupied(p.(upper := s.current == Player))
    ensures p !in HandOf(s', s.current)
    ensures forall q :: q != p ==> multiset(HandOf(s', s.current))[q] == multiset(HandOf(s, s.current))[q]
    ensures HandOf(s', OtherSeat(s.current)) == HandOf(s, OtherSeat(s.current))
    ensures s'.current == OtherSeat(s.current)
  {
    var cell := if s.current == Player then ToUpper(Occupied(p)) else ToLower(Occupied(p));
    var s1 := WithHandOf(s, s.current, Without(HandOf(s, s.current), p));
    s1.(board := Place(s.board, y, x, cell), current := OtherSeat(s.current))
  }

  /** Two turn switches cancel. */
  lemma SwitchTurnInvolution(s: Seat)
    ensures OtherSeat(OtherSeat(s)) == s
  {
  }

  // ---------------------------------------------------------------------------------
  // isKingInCheckAfterMove (lib/game.js:444-452) and movePiece (lib/game.js:83-108)

  /** The board with the piece on (fx, fy) moved to (tx, ty). */
  function Shifted(b: Board, fx: int, fy: int, tx: int, ty: int): Board
    requires InBounds(fy, fx) && InBounds(ty, tx)
  {
    Place(Place(b, ty, tx, b[fy][fx]), fy, fx, Empty)
  }

  /** The two writes that undo a shift: the origin gets back what now stands on the target,
      the target its old string. */
  function Unshifted(b: Board, moved: Board, fx: int, fy: int, tx: int, ty: int): Board
    requires InBounds(fy, fx) && InBounds(ty, tx)
  {
    Place(Place(moved, fy, fx, moved[ty][tx]), ty, tx, b[ty][tx])
  }

  /** Undoing a shift gives the board back, also when origin and target coincide. */
  lemma UnshiftRestores(b: Board, fx: int, fy: int, tx: int, ty: int)
    requires InBounds(fy, fx) && InBounds(ty, tx)
    ensures Unshifted(b, Shifted(b, fx, fy, tx, ty), fx, fy, tx, ty) == b
  {
    var r := Unshifted(b, Shifted(b, fx, fy, tx, ty), fx, fy, tx, ty);
    forall i | 0 <= i < 9
      ensures r[i] == b[i]
    {
      assert forall j :: 0 <= j < 9 ==> r[i][j] == b[i][j];
    }
  }

  /** `movePiece`'s take-back: the target gets its old string back, then the origin the
      moved piece. */
  function TakenBack(b: Board, moved: Board, fx: int, fy: int, tx: int, ty: int): Board
    requires InBounds(fy, fx) && InBounds(ty, tx)
  {
    Place(Place(moved, ty, tx, b[ty][tx]), fy, fx, b[fy][fx])
  }

  /** The take-back gives the board back, also when origin and target coincide. */
  lemma TakeBackRestores(b: Board, fx: int, fy: int, tx: int, ty: int)
    requires InBounds(fy, fx) && InBounds(ty, tx)
    ensures TakenBack(b, Shifted(b, fx, fy, tx, ty), fx, fy, tx, ty) == b
  {
    var r := TakenBack(b, Shifted(b, fx, fy, tx, ty), fx, fy, tx, ty);
    forall i | 0 <= i < 9
      ensures r[i] == b[i]
    {
      assert forall j :: 0 <= j < 9 ==> r[i][j] == b[i][j];
    }
  }

  /** `isKingInCheckAfterMove(player, fromX, fromY, toX, toY)`: the answer on the shifted
      board, with the board restored when the check test returns and left shifted when it
      throws. */
  function CheckAfterMove(b: Board, player: Seat, fx: int, fy: int, tx: int, ty: int): (t: Trial)
    requires InBounds(fy, fx) && InBounds(ty, tx)
    ensures t.result.Returned? ==> t.board == b
    ensures t.result.Threw? ==> t.board == Shifted(b, fx, fy, tx, ty)
    ensures t.result == KingInCheck(Shifted(b, fx, fy, tx, ty), player)
  {
    var moved := Shifted(b, fx, fy, tx, ty);
    var r := KingInCheck(moved, player);
    UnshiftRestores(b, fx, fy, tx, ty);
    if r.Threw? then Trial(Threw, moved) else Trial(r, Unshifted(b, moved, fx, fy, tx, ty))
  }

  /** `movePiece(fromX, fromY, toX, toY)`: a valid move is made on the board; when the
      mover's king is then in check it is taken back, when not the capture and the turn
      switch follow (`checkPromotion` leaves every piece that reaches it unchanged, since
      no table entry is `promotable`, and its result is never written to the board). A throw
      leaves whatever was done before it. */
  function MoveOutcome(s: DraftState, fx: int, fy: int, tx: int, ty: int): (r: (Outcome<()>, DraftState))
    requires InBounds(fy, fx) && InBounds(ty, tx)
  {
    var b := s.board;
    match ValidMove(b, b[fy][fx], fx, fy, tx, ty)
    case Threw => (Threw, s)
    case Returned(ok) =>
      if !ok then (Returned(()), s)
      else
        var moved := Shifted(b, fx, fy, tx, ty);
        match KingInCheck(moved, s.current)
        case Threw => (Threw, s.(board := moved))
        case Returned(inCheck) =>
          if inCheck then (Returned(()), s.(board := TakenBack(b, moved, fx, fy, tx, ty)))
          else
            var s1 := if b[ty][tx] != Empty then Captured(s.(board := moved), b[ty][tx].piece) else s.(board := moved);
            (Returned(()), s1.(current := OtherSeat(s.current)))
  }

  /** `movePiece` never completes a move: the turn never passes and no piece is ever
      captured. It returns with the board as it was, or throws, possibly with the move
      made and not taken back. */
  lemma MoveNeverCommits(s: DraftState, fx: int, fy: int, tx: int, ty: int)
    requires InBounds(fy, fx) && InBounds(ty, tx)
    ensures var (r, s') := MoveOutcome(s, fx, fy, tx, ty);
            s'.current == s.current && s'.capturedPlayer == s.capturedPlayer && s'.capturedOpponent == s.capturedOpponent
            && (r.Returned? ==> s'.board == s.board)
            && (r.Threw? ==> s'.board == s.board || s'.board == Shifted(s.board, fx, fy, tx, ty))
  {
    KingInCheckNeverFalse(Shifted(s.board, fx, fy, tx, ty), s.current);
    TakeBackRestores(s.board, fx, fy, tx, ty);
  }

  // ---------------------------------------------------------------------------------
  // The module-level state and the functions that change it

  class DraftGame {
    var board: Board
    var currentPlayer: Seat
    var capturedPlayer: seq<Piece>
    var capturedOpponent: seq<Piece>

    function State(): DraftState
      reads this
    {
      DraftState(board, currentPlayer, capturedPlayer, capturedOpponent)
    }

    /** `JSON.parse(JSON.stringify(initialBoard))`, `'player'` to move, empty lists. */
    constructor()
      ensures State() == DraftState(InitialBoard(), Player, [], [])
    {
      board := InitialBoard();
      currentPlayer := Player;
      capturedPlayer := [];
      capturedOpponent := [];
    }

    /** `isValidLineMove`: the direction tests, then the walk from the first square after
        the origin until the target. */
    method IsValidLineMove(p: Piece, fx: int, fy: int, tx: int, ty: int) returns (ok: bool)
      requires LinePiece(p) && InBounds(fy, fx) && InBounds(ty, tx)
      ensures ok == LineMoveOk(board, p, fx, fy, tx, ty)
    {
      var dx, dy := tx - fx, ty - fy;
      if p.kind == Rook && dx != 0 && dy != 0 {
        return false;
      }
      if p.kind == Bishop && Abs(dx) != Abs(dy) {
        return false;
      }
      if p.kind == Lance && dx != 0 {
        return false;
      }
      var stepX, stepY := Sign(dx), Sign(dy);
      var x, y := fx + stepX, fy + stepY;
      var k: nat := 1;
      if Steps(dx, dy) >= 1 {
        AlongMeets(p, fx, fy, tx, ty, k);
      }
      while x != tx || y != ty
        invariant 1 <= k && (k <= Steps(dx, dy) || Steps(dx, dy) == 0)
        invariant x == Along(fx, k, stepX) && y == Along(fy, k, stepY)
        invariant (x == tx && y == ty) <==> k >= Steps(dx, dy)
        invariant ClearBefore(board, p, fx, fy, tx, ty, k)
        decreases Steps(dx, dy) - k
      {
        AlongOnBoard(p, fx, fy, tx, ty, k);
        if board[y][x] != Empty {
          ClearEnds(board, p, fx, fy, tx, ty, k);
          return false;
        }
        ClearExtend(board, p, fx, fy, tx, ty, k);
        x, y, k := x + stepX, y + stepY, k + 1;
        AlongMeets(p, fx, fy, tx, ty, k);
      }
      ClearEnds(board, p, fx, fy, tx, ty, k);
      return true;
    }

    /** `isValidMove(piece, fromX, fromY, toX, toY)`. */
    method IsValidMove(c: Cell, fx: int, fy: int, tx: int, ty: int) returns (r: Outcome<bool>)
      requires InBounds(fy, fx) && InBounds(ty, tx)
      ensures r == ValidMove(board, c, fx, fy, tx, ty)
    {
      if c.Empty? || c.piece.promoted {
        return Returned(false);
      }
      if LinePiece(c.piece) {
        var ok := IsValidLineMove(c.piece, fx, fy, tx, ty);
        return Returned(ok);
      }
      return Threw;
    }

    /** `isSquareUnderAttack(x, y, player)`: the nested loops over rows and columns. */
    method IsSquareUnderAttack(x: int, y: int, player: Seat) returns (r: Outcome<bool>)
      requires InBounds(y, x)
      ensures r == AttackFrom(board, x, y, player, 0, 0)
    {
      var opponent := OtherSeat(player);
      for row := 0 to 9
        invariant AttackFrom(board, x, y, player, row, 0) == AttackFrom(board, x, y, player, 0, 0)
      {
        for col := 0 to 9
          invariant AttackFrom(board, x, y, player, row, col) == AttackFrom(board, x, y, player, row, 0)
        {
          var piece := board[row][col];
          if IsOpponentPiece(piece, opponent) {
            var valid := IsValidMove(piece, col, row, x, y);
            if valid != Returned(false) {
              return valid;
            }
          }
        }
      }
      return Returned(false);
    }

    /** `isKingInCheck(player)`: locate the last king, true when there is none, else the
        attack scan. */
    method IsKingInCheck(player: Seat) returns (r: Outcome<bool>)
      ensures r == KingInCheck(board, player)
    {
      var king := KingPiece(player);
      var kingPos: Option<Square> := None;
      for y := 0 to 9
        invariant LastKingFrom(board, king, y, 0, kingPos) == LastKing(board, king)
      {
        for x := 0 to 9
          invariant LastKingFrom(board, king, y, x, kingPos) == LastKing(board, king)
        {
          if board[y][x] == Occupied(king) {
            kingPos := Some(Square(y, x));
          }
        }
      }
      if kingPos.None? {
        return Returned(true);
      }
      LastKingFromSpec(board, king, 0, 0, None);
      r := IsSquareUnderAttack(kingPos.value.col, kingPos.value.row, player);
    }

    /** `isKingInCheckAfterMove(player, fromX, fromY, toX, toY)`: swap, test, swap back. */
    method IsKingInCheckAfterMove(player: Seat, fx: int, fy: int, tx: int, ty: int) returns (r: Outcome<bool>)
      requires InBounds(fy, fx) && InBounds(ty, tx)
      modifies this
      ensures Trial(r, board) == CheckAfterMove(old(board), player, fx, fy, tx, ty)
      ensures currentPlayer == old(currentPlayer) && capturedPlayer == old(capturedPlayer)
              && capturedOpponent == old(capturedOpponent)
    {
      var tempPiece := board[ty][tx];
      board := Place(board, ty, tx, board[fy][fx]);
      board := Place(board, fy, fx, Empty);
      var inCheck := IsKingInCheck(player);
      if inCheck.Threw? {
        return Threw;
      }
      board := Place(board, fy, fx, board[ty][tx]);
      board := Place(board, ty, tx, tempPiece);
      return inCheck;
    }

    /** `isValidDrop(piece, x, y)`: the column loop for a pawn, the checkmate probe, and
        the rank rules. */
    method IsValidDrop(p: Piece, x: int, y: int) returns (r: Outcome<bool>)
      requires InBounds(y, x)
      modifies this
      ensures Trial(r, board) == ValidDrop(old(board), currentPlayer, p, x, y)
      ensures currentPlayer == old(currentPlayer) && capturedPlayer == old(capturedPlayer)
              && capturedOpponent == old(capturedOpponent)
    {
      if board[y][x] != Empty {
        return Returned(false);
      }
      if Plain(p, Pawn) {
        for row := 0 to 9
          invariant forall r :: 0 <= r < row ==> !UnpromotedPawn(board[r][x])
        {
          if UnpromotedPawn(board[row][x]) {
            return Returned(false);
          }
        }
        var before := board;
        board := Place(board, y, x, Occupied(Piece(Pawn, currentPlayer == Player, false)));
        var check := IsKingInCheck(OtherSeat(currentPlayer));
        if check.Threw? {
          return Threw;
        }
        if check.value {
          return Threw;
        }
        board := Place(board, y, x, Empty);
        assert board == before by {
          assert forall i :: 0 <= i < 9 ==> board[i] == before[i];
        }
      }
      r := Returned(RankRule(currentPlayer, p, y));
    }

    /** `findPlayerPieces(player)`: the nested `forEach` pushing `{ piece, x, y }`. */
    method FindPlayerPieces(seat: Seat) returns (pieces: seq<Found>)
      ensures pieces == Pieces(board, seat)
    {
      pieces := [];
      for y := 0 to 9
        invariant PiecesFrom(board, seat, y, 0, pieces) == Pieces(board, seat)
      {
        for x := 0 to 9
          invariant PiecesFrom(board, seat, y, x, pieces) == Pieces(board, seat)
        {
          if Listed(board[y][x], seat) {
            pieces := pieces + [Found(board[y][x], x, y)];
          }
        }
      }
    }

    /** `capturePiece(piece)`. */
    method CapturePiece(c: Piece)
      modifies this
      ensures State() == Captured(old(State()), c)
    {
      var demoted := Piece(c.kind, false, false);
      if currentPlayer == Player {
        capturedOpponent := capturedOpponent + [demoted];
      } else {
        capturedPlayer := capturedPlayer + [demoted];
      }
    }

    /** `switchTurn()`. */
    method SwitchTurn()
      modifies this
      ensures State() == old(State()).(current := OtherSeat(old(currentPlayer)))
    {
      currentPlayer := if currentPlayer == Player then Opponent else Player;
    }

    /** `dropPiece(piece, x, y)`. */
    method DropPiece(p: Piece, x: int, y: int)
      requires InBounds(y, x)
      modifies this
      ensures State() == Dropped(old(State()), p, x, y)
    {
      board := Place(board, y, x, if currentPlayer == Player then ToUpper(Occupied(p)) else ToLower(Occupied(p)));
      if currentPlayer == Player {
        capturedPlayer := Without(capturedPlayer, p);
      } else {
        capturedOpponent := Without(capturedOpponent, p);
      }
      SwitchTurn();
    }

    /** `movePiece(fromX, fromY, toX, toY)`. */
    method MovePiece(fx: int, fy: int, tx: int, ty: int) returns (r: Outcome<()>)
      requires InBounds(fy, fx) && InBounds(ty, tx)
      modifies this
      ensures (r, State()) == MoveOutcome(old(State()), fx, fy, tx, ty)
    {
      var piece := board[fy][fx];
      var valid := IsValidMove(piece, fx, fy, tx, ty);
      if valid.Threw? {
        return Threw;
      }
      if !valid.value {
        return Returned(());
      }
      var originalDestination := board[ty][tx];
      board := Place(board, ty, tx, piece);
      board := Place(board, fy, fx, Empty);
      var inCheck := IsKingInCheck(currentPlayer);
      if inCheck.Threw? {
        return Threw;
      }
      if !inCheck.value {
        if originalDestination != Empty {
          CapturePiece(originalDestination.piece);
        }
        SwitchTurn();
      } else {
        board := Place(board, ty, tx, originalDestination);
        board := Place(board, fy, fx, piece);
      }
      return Returned(());
    }
  }
}
