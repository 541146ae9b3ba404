/** The live engine's per-piece move generator, `getPossibleMoves` (pages/index.js:282-595):
    sliding pieces (rook, bishop, unpromoted lance), fixed jumps (knight, pawn, the
    promoted rook's diagonal and the promoted bishop's orthogonal single steps) and the
    `{x, y}` tables of the default branch (silver, gold, king and the gold-moving
    promoted pieces). It does not look at check. */
module MoveGen {
  import opened Board

  /** `canCapture`: the target square holds " " or a piece of the other case. */
  predicate CanCapture(b: Board, r: int, c: int, gote: bool)
    requires InBounds(r, c)
  {
    b[r][c].Empty? || b[r][c].piece.upper != gote
  }

  /** A square a piece of the given case may land on: on the board, and empty or enemy. */
  predicate Reachable(b: Board, s: Square, gote: bool) {
    OnBoard(s) && CanCapture(b, s.row, s.col, gote)
  }

  /** A slide direction: each component in -1..1, not both zero. */
  predicate Unit(dr: int, dc: int) {
    -1 <= dr <= 1 && -1 <= dc <= 1 && (dr != 0 || dc != 0)
  }

  predicate AllUnit(dirs: seq<(int, int)>) {
    forall i :: 0 <= i < |dirs| ==> Unit(dirs[i].0, dirs[i].1)
  }

  /** The forward row step: Gote (upper case) moves toward row 0, Sente toward row 8. */
  function Forward(gote: bool): int {
    if gote then -1 else 1
  }

  /** Distance to the edge along one axis, the measure that makes a slide end. */
  function Reach(x: int, d: int): nat
    requires 0 <= x < 9
  {
    if d > 0 then 9 - x else if d < 0 then x + 1 else 0
  }

  const RookDirs: seq<(int, int)> := [(1, 0), (-1, 0), (0, 1), (0, -1)]
  const BishopDirs: seq<(int, int)> := [(1, 1), (1, -1), (-1, 1), (-1, -1)]
  /** The single steps of a promoted bishop, in the order its branch pushes them. */
  const BishopSteps: seq<(int, int)> := [(0, 1), (0, -1), (1, 0), (-1, 0)]

  /** The default branch's tables, as `(x, y)` pairs of the lower-case entries. */
  const GoldTable: seq<(int, int)> := [(0, 1), (0, -1), (1, 0), (-1, 0), (1, 1), (-1, 1)]
  const SilverTable: seq<(int, int)> := [(0, 1), (1, 1), (-1, 1), (1, -1), (-1, -1)]
  const KingTable: seq<(int, int)> := [(0, 1), (0, -1), (1, 0), (-1, 0), (1, 1), (-1, 1), (1, -1), (-1, -1)]

  /** A table entry `{x, y}` moves `y` rows (negated for Gote) and `x` columns. */
  function Oriented(table: seq<(int, int)>, gote: bool): (offs: seq<(int, int)>)
    ensures |offs| == |table|
  {
    seq(|table|, i requires 0 <= i < |table| => (if gote then -table[i].1 else table[i].1, table[i].0))
  }

  function KnightSteps(gote: bool): seq<(int, int)> {
    if gote then [(-2, -1), (-2, 1)] else [(2, -1), (2, 1)]
  }

  /** `moveSet` of the default branch: the `promoted` table when the piece is promoted and
      has one, else the `normal` table. Unpromoted pawns, lances and knights, rooks and
      bishops never reach that branch. */
  function DefaultTable(p: Piece): seq<(int, int)> {
    match p.kind
    case Silver => if p.promoted then GoldTable else SilverTable
    case Gold => GoldTable
    case King => KingTable
    case _ => if p.promoted then GoldTable else []
  }

  /** A square as a one-element list when a single step may land on it, else nothing. */
  function IfReachable(b: Board, s: Square, gote: bool): seq<Square> {
    if Reachable(b, s, gote) then [s] else []
  }

  /** The single steps `offs` (row, column) that land on the board on a capturable square,
      in the order of `offs`. */
  function Jumps(b: Board, r: int, c: int, offs: seq<(int, int)>, gote: bool): seq<Square>
    decreases |offs|
  {
    if offs == [] then []
    else
      var s := Square(r + offs[|offs| - 1].0, c + offs[|offs| - 1].1);
      Jumps(b, r, c, offs[..|offs| - 1], gote) + (if Reachable(b, s, gote) then [s] else [])
  }

  /** `handleSlidingMove`: the squares beyond (r, c) in direction (dr, dc) up to the first
      occupied one, which is included only when it can be captured. */
  function Slide(b: Board, r: int, c: int, dr: int, dc: int, gote: bool): seq<Square>
    requires InBounds(r, c) && Unit(dr, dc)
    decreases Reach(r, dr) + Reach(c, dc)
  {
    var nr, nc := r + dr, c + dc;
    if !InBounds(nr, nc) then []
    else if b[nr][nc].Empty? then [Square(nr, nc)] + Slide(b, nr, nc, dr, dc, gote)
    else if CanCapture(b, nr, nc, gote) then [Square(nr, nc)]
    else []
  }

  /** One slide per direction for the first `n` of `dirs`, in the order of `dirs`. */
  function Slides(b: Board, r: int, c: int, dirs: seq<(int, int)>, n: int, gote: bool): seq<Square>
    requires InBounds(r, c) && AllUnit(dirs) && 0 <= n <= |dirs|
    decreases n
  {
    if n == 0 then []
    else Slides(b, r, c, dirs, n - 1, gote) + Slide(b, r, c, dirs[n - 1].0, dirs[n - 1].1, gote)
  }

  /** `getPossibleMoves(piece, r, c, board)`: the destinations of the piece string `cell`
      standing at (r, c), in the order the source pushes them. " " has none. */
  function PossibleMoves(cell: Cell, r: int, c: int, b: Board): seq<Square>
    requires InBounds(r, c)
  {
    match cell
    case Empty => []
    case Occupied(p) =>
      var g := p.upper;
      match p.kind
      case Rook => Slides(b, r, c, RookDirs, |RookDirs|, g) + (if p.promoted then Jumps(b, r, c, BishopDirs, g) else [])
      case Bishop => Slides(b, r, c, BishopDirs, |BishopDirs|, g) + (if p.promoted then Jumps(b, r, c, BishopSteps, g) else [])
      case Lance =>
        if !p.promoted then Slide(b, r, c, Forward(g), 0, g) else Jumps(b, r, c, Oriented(GoldTable, g), g)
      case Knight =>
        if !p.promoted then Jumps(b, r, c, KnightSteps(g), g) else Jumps(b, r, c, Oriented(GoldTable, g), g)
      case Pawn =>
        if !p.promoted then Jumps(b, r, c, [(Forward(g), 0)], g) else Jumps(b, r, c, Oriented(GoldTable, g), g)
      case _ => Jumps(b, r, c, Oriented(DefaultTable(p), g), g)
  }

  // ---------------------------------------------------------------------------------
  // The generator as the source runs it: loops that push onto `possibleMoves`.

  /** `handleSlidingMove(startX, startY, dx, dy)`: walks until off the board or blocked. */
  method HandleSlidingMove(b: Board, r: int, c: int, dr: int, dc: int, gote: bool, moves: seq<Square>)
    returns (out: seq<Square>)
    requires InBounds(r, c) && Unit(dr, dc)
    ensures out == moves + Slide(b, r, c, dr, dc, gote)
  {
    out := moves;
    var newR, newC := r + dr, c + dc;
    while InBounds(newR, newC)
      invariant InBounds(newR - dr, newC - dc)
      invariant out + Slide(b, newR - dr, newC - dc, dr, dc, gote) == moves + Slide(b, r, c, dr, dc, gote)
      decreases Reach(newR - dr, dr) + Reach(newC - dc, dc)
    {
      ghost var rest := Slide(b, newR, newC, dr, dc, gote);
      if b[newR][newC].Empty? {
        assert out + Slide(b, newR - dr, newC - dc, dr, dc, gote) == (out + [Square(newR, newC)]) + rest;
        out := out + [Square(newR, newC)];
      } else {
        if CanCapture(b, newR, newC, gote) {
          out := out + [Square(newR, newC)];
        }
        return;
      }
      newR, newC := newR + dr, newC + dc;
    }
  }

  /** `dirs.forEach((dx, dy) => handleSlidingMove(x, y, dx, dy))`. */
  method SlideAll(b: Board, r: int, c: int, dirs: seq<(int, int)>, gote: bool, moves: seq<Square>)
    returns (out: seq<Square>)
    requires InBounds(r, c) && AllUnit(dirs)
    ensures out == moves + Slides(b, r, c, dirs, |dirs|, gote)
  {
    out := moves;
    for i := 0 to |dirs|
      invariant out == moves + Slides(b, r, c, dirs, i, gote)
    {
      var d := dirs[i];
      assert Unit(d.0, d.1);
      ghost var done := Slides(b, r, c, dirs, i, gote);
      ghost var slide := Slide(b, r, c, d.0, d.1, gote);
      assert Slides(b, r, c, dirs, i + 1, gote) == done + slide;
      assert (moves + done) + slide == moves + (done + slide);
      out := HandleSlidingMove(b, r, c, d.0, d.1, gote, out);
    }
  }

  /** `offs.forEach(...)` pushing each in-bounds capturable single step. */
  method AddJumps(b: Board, r: int, c: int, offs: seq<(int, int)>, gote: bool, moves: seq<Square>)
    returns (out: seq<Square>)
    ensures out == moves + Jumps(b, r, c, offs, gote)
  {
    out := moves;
    for i := 0 to |offs|
      invariant out == moves + Jumps(b, r, c, offs[..i], gote)
    {
      assert offs[..i + 1][..i] == offs[..i];
      var newR, newC := r + offs[i].0, c + offs[i].1;
      if InBounds(newR, newC) && CanCapture(b, newR, newC, gote) {
        out := out + [Square(newR, newC)];
      }
    }
    assert offs[..|offs|] == offs;
  }

  lemma AppendAssoc<T>(x: seq<T>, y: seq<T>, z: seq<T>)
    ensures (x + y) + z == x + (y + z)
  {
  }

  /** `getPossibleMoves(piece, x, y, board)`, branch by branch as the source's `switch`. */
  method GetPossibleMoves(cell: Cell, r: int, c: int, b: Board) returns (moves: seq<Square>)
    requires InBounds(r, c)
    ensures moves == PossibleMoves(cell, r, c, b)
  {
    moves := [];
    if cell.Empty? {
      return;
    }
    var p := cell.piece;
    var g := p.upper;
    match p.kind {
      case Rook =>
        moves := SlideAll(b, r, c, RookDirs, g, moves);
        if p.promoted {
          moves := AddJumps(b, r, c, BishopDirs, g, moves);
          AppendAssoc([], Slides(b, r, c, RookDirs, |RookDirs|, g), Jumps(b, r, c, BishopDirs, g));
        }
      case Bishop =>
        moves := SlideAll(b, r, c, BishopDirs, g, moves);
        if p.promoted {
          moves := AddJumps(b, r, c, BishopSteps, g, moves);
          AppendAssoc([], Slides(b, r, c, BishopDirs, |BishopDirs|, g), Jumps(b, r, c, BishopSteps, g));
        }
      case Lance =>
        if !p.promoted {
          moves := HandleSlidingMove(b, r, c, Forward(g), 0, g, moves);
        } else {
          moves := AddJumps(b, r, c, Oriented(GoldTable, g), g, moves);
        }
      case Knight =>
        if !p.promoted {
          moves := AddJumps(b, r, c, KnightSteps(g), g, moves);
        } else {
          moves := AddJumps(b, r, c, Oriented(GoldTable, g), g, moves);
        }
      case Pawn =>
        if !p.promoted {
          moves := AddJumps(b, r, c, [(Forward(g), 0)], g, moves);
        } else {
          moves := AddJumps(b, r, c, Oriented(GoldTable, g), g, moves);
        }
      case _ =>
        moves := AddJumps(b, r, c, Oriented(DefaultTable(p), g), g, moves);
    }
  }

  // ---------------------------------------------------------------------------------
  // What the generator promises.

  /** A single step lands where its offset says, on the board, on an empty or enemy square;
      and every such step is produced. */
  lemma {:induction false} JumpsMembers(b: Board, r: int, c: int, offs: seq<(int, int)>, gote: bool, s: Square)
    ensures s in Jumps(b, r, c, offs, gote) <==>
      Reachable(b, s, gote) && exists k :: 0 <= k < |offs| && s == Square(r + offs[k].0, c + offs[k].1)
    decreases |offs|
  {
    if offs != [] {
      var init := offs[..|offs| - 1];
      var last := Square(r + offs[|offs| - 1].0, c + offs[|offs| - 1].1);
      JumpsMembers(b, r, c, init, gote, s);
      assert Jumps(b, r, c, offs, gote) ==
        Jumps(b, r, c, init, gote) + (if Reachable(b, last, gote) then [last] else []);
      if s in Jumps(b, r, c, init, gote) {
        var k :| 0 <= k < |init| && s == Square(r + init[k].0, c + init[k].1);
        assert offs[k] == init[k];
      }
      if Reachable(b, s, gote) && exists k :: 0 <= k < |offs| && s == Square(r + offs[k].0, c + offs[k].1) {
        var k :| 0 <= k < |offs| && s == Square(r + offs[k].0, c + offs[k].1);
        if k < |offs| - 1 {
          assert init[k] == offs[k];
        } else {
          assert s == last;
        }
      }
    }
  }

  /** A slide walks square by square from its start: each square is the previous one
      plus the direction; all but the last are empty; all are capturable; and it ends
      because it captured, reached the edge, or met a piece of the mover's own case. */
  lemma {:induction false} SlideStopsAtFirstOccupied(b: Board, r: int, c: int, dr: int, dc: int, gote: bool)
    requires InBounds(r, c) && Unit(dr, dc)
    ensures var s := Slide(b, r, c, dr, dc, gote);
      && (|s| > 0 ==> s[0] == Square(r + dr, c + dc))
      && (forall k :: 0 <= k < |s| - 1 ==> s[k + 1] == Square(s[k].row + dr, s[k].col + dc))
      && (forall k :: 0 <= k < |s| ==> Reachable(b, s[k], gote))
      && (forall k :: 0 <= k < |s| - 1 ==> b[s[k].row][s[k].col].Empty?)
      && var last := if |s| == 0 then Square(r, c) else s[|s| - 1];
         var next := Square(last.row + dr, last.col + dc);
         || (|s| > 0 && b[last.row][last.col].Occupied?)
         || !OnBoard(next)
         || (b[next.row][next.col].Occupied? && !CanCapture(b, next.row, next.col, gote))
  {
    SlideWalk(b, r, c, dr, dc, gote);
    forall k | 0 <= k < |Slide(b, r, c, dr, dc, gote)|
      ensures Reachable(b, Slide(b, r, c, dr, dc, gote)[k], gote)
    {
      SlideCell(b, r, c, dr, dc, gote, k);
    }
    forall k | 0 <= k < |Slide(b, r, c, dr, dc, gote)| - 1
      ensures b[Slide(b, r, c, dr, dc, gote)[k].row][Slide(b, r, c, dr, dc, gote)[k].col].Empty?
    {
      SlideCell(b, r, c, dr, dc, gote, k);
    }
    SlideEnd(b, r, c, dr, dc, gote);
  }

  /** A slide starts next to the piece and advances one step per square. */
  lemma {:induction false} SlideWalk(b: Board, r: int, c: int, dr: int, dc: int, gote: bool)
    requires InBounds(r, c) && Unit(dr, dc)
    ensures var s := Slide(b, r, c, dr, dc, gote);
      && (|s| > 0 ==> s[0] == Square(r + dr, c + dc))
      && (forall k :: 0 <= k < |s| - 1 ==> s[k + 1] == Square(s[k].row + dr, s[k].col + dc))
    decreases Reach(r, dr) + Reach(c, dc)
  {
    var nr, nc := r + dr, c + dc;
    if InBounds(nr, nc) && b[nr][nc].Empty? {
      SlideWalk(b, nr, nc, dr, dc, gote);
      var rest := Slide(b, nr, nc, dr, dc, gote);
      var s := Slide(b, r, c, dr, dc, gote);
      assert s == [Square(nr, nc)] + rest;
      forall k | 0 <= k < |s| - 1
        ensures s[k + 1] == Square(s[k].row + dr, s[k].col + dc)
      {
        if k > 0 {
          assert s[k] == rest[k - 1] && s[k + 1] == rest[k];
        }
      }
    }
  }

  /** Each square of a slide is capturable, and each but the last is empty. */
  lemma {:induction false} SlideCell(b: Board, r: int, c: int, dr: int, dc: int, gote: bool, k: int)
    requires InBounds(r, c) && Unit(dr, dc)
    requires 0 <= k < |Slide(b, r, c, dr, dc, gote)|
    ensures var s := Slide(b, r, c, dr, dc, gote);
      && Reachable(b, s[k], gote)
      && (k < |s| - 1 ==> b[s[k].row][s[k].col].Empty?)
    decreases Reach(r, dr) + Reach(c, dc)
  {
    var nr, nc := r + dr, c + dc;
    if k > 0 {
      SlideCell(b, nr, nc, dr, dc, gote, k - 1);
    }
  }

  /** The square `sq` stops a slide before it: off the board, or held by the mover's own case. */
  predicate Blocked(b: Board, sq: Square, gote: bool) {
    !OnBoard(sq) || (b[sq.row][sq.col].Occupied? && !CanCapture(b, sq.row, sq.col, gote))
  }

  /** A slide ends because it captured, reached the edge, or met a piece of the mover's
      own case. */
  lemma {:induction false} SlideEnd(b: Board, r: int, c: int, dr: int, dc: int, gote: bool)
    requires InBounds(r, c) && Unit(dr, dc)
    ensures |Slide(b, r, c, dr, dc, gote)| == 0 ==> Blocked(b, Square(r + dr, c + dc), gote)
    ensures var s := Slide(b, r, c, dr, dc, gote);
      |s| > 0 ==> var last := s[|s| - 1];
        OnBoard(last) && (b[last.row][last.col].Occupied? || Blocked(b, Square(last.row + dr, last.col + dc), gote))
    decreases Reach(r, dr) + Reach(c, dc)
  {
    var nr, nc := r + dr, c + dc;
    if InBounds(nr, nc) && b[nr][nc].Empty? {
      SlideEnd(b, nr, nc, dr, dc, gote);
      SlideLast(b, r, c, dr, dc, gote);
    } else {
      SlideEndNow(b, r, c, dr, dc, gote);
    }
  }

  /** A slide whose first square is off the board or occupied is empty, when that square
      is blocked, or that one capture. */
  lemma SlideEndNow(b: Board, r: int, c: int, dr: int, dc: int, gote: bool)
    requires InBounds(r, c) && Unit(dr, dc)
    requires !InBounds(r + dr, c + dc) || b[r + dr][c + dc].Occupied?
    ensures Slide(b, r, c, dr, dc, gote) ==
      if Blocked(b, Square(r + dr, c + dc), gote) then [] else [Square(r + dr, c + dc)]
  {
  }

  /** Past an empty first square, a slide's last square is that of the slide from there. */
  lemma SlideLast(b: Board, r: int, c: int, dr: int, dc: int, gote: bool)
    requires InBounds(r, c) && Unit(dr, dc)
    requires InBounds(r + dr, c + dc) && b[r + dr][c + dc].Empty?
    ensures var s, rest := Slide(b, r, c, dr, dc, gote), Slide(b, r + dr, c + dc, dr, dc, gote);
      && |s| == |rest| + 1
      && s[|s| - 1] == if |rest| == 0 then Square(r + dr, c + dc) else rest[|rest| - 1]
  {
    var rest := Slide(b, r + dr, c + dc, dr, dc, gote);
    assert Slide(b, r, c, dr, dc, gote) == [Square(r + dr, c + dc)] + rest;
  }

  /** Every square of a slide lies strictly beyond the start in the slide's direction;
      a slide with no column step keeps the column. */
  lemma {:induction false} SlideDirection(b: Board, r: int, c: int, dr: int, dc: int, gote: bool, s: Square)
    requires InBounds(r, c) && Unit(dr, dc)
    requires s in Slide(b, r, c, dr, dc, gote)
    ensures dr == 0 ==> s.row == r
    ensures dc == 0 ==> s.col == c
    ensures dr > 0 ==> s.row > r
    ensures dr < 0 ==> s.row < r
    ensures dc > 0 ==> s.col > c
    ensures dc < 0 ==> s.col < c
    decreases Reach(r, dr) + Reach(c, dc)
  {
    var nr, nc := r + dr, c + dc;
    if s != Square(nr, nc) {
      SlideDirection(b, nr, nc, dr, dc, gote, s);
    }
  }

  lemma {:induction false} SlideSound(b: Board, r: int, c: int, dr: int, dc: int, gote: bool, s: Square)
    requires InBounds(r, c) && Unit(dr, dc)
    requires s in Slide(b, r, c, dr, dc, gote)
    ensures Reachable(b, s, gote)
    decreases Reach(r, dr) + Reach(c, dc)
  {
    var nr, nc := r + dr, c + dc;
    if s != Square(nr, nc) {
      SlideSound(b, nr, nc, dr, dc, gote, s);
    }
  }

  /** A square of several slides belongs to the slide of one of the directions. */
  lemma {:induction false} SlidesMember(b: Board, r: int, c: int, dirs: seq<(int, int)>, n: int, gote: bool, s: Square)
    returns (k: nat)
    requires InBounds(r, c) && AllUnit(dirs)
    requires 0 <= n <= |dirs| && s in Slides(b, r, c, dirs, n, gote)
    ensures k < n && s in Slide(b, r, c, dirs[k].0, dirs[k].1, gote)
    decreases n
  {
    if s in Slides(b, r, c, dirs, n - 1, gote) {
      k := SlidesMember(b, r, c, dirs, n - 1, gote, s);
    } else {
      k := n - 1;
    }
  }

  /** Every generated square is on the board and is empty or holds a piece of the other
      case (pages/index.js:448-458, 466-484). */
  lemma PossibleMovesSound(p: Piece, r: int, c: int, b: Board, s: Square)
    requires InBounds(r, c)
    requires s in PossibleMoves(Occupied(p), r, c, b)
    ensures OnBoard(s)
    ensures b[s.row][s.col].Empty? || b[s.row][s.col].piece.upper != p.upper
  {
    var g := p.upper;
    var m := PossibleMoves(Occupied(p), r, c, b);
    match p.kind {
      case Rook =>
        if s in Slides(b, r, c, RookDirs, |RookDirs|, g) {
          var k := SlidesMember(b, r, c, RookDirs, |RookDirs|, g, s);
          SlideSound(b, r, c, RookDirs[k].0, RookDirs[k].1, g, s);
        } else {
          JumpsMembers(b, r, c, BishopDirs, g, s);
        }
      case Bishop =>
        if s in Slides(b, r, c, BishopDirs, |BishopDirs|, g) {
          var k := SlidesMember(b, r, c, BishopDirs, |BishopDirs|, g, s);
          SlideSound(b, r, c, BishopDirs[k].0, BishopDirs[k].1, g, s);
        } else {
          JumpsMembers(b, r, c, BishopSteps, g, s);
        }
      case Lance =>
        if !p.promoted {
          SlideSound(b, r, c, Forward(g), 0, g, s);
        } else {
          JumpsMembers(b, r, c, Oriented(GoldTable, g), g, s);
        }
      case Knight =>
        if !p.promoted {
          JumpsMembers(b, r, c, KnightSteps(g), g, s);
        } else {
          JumpsMembers(b, r, c, Oriented(GoldTable, g), g, s);
        }
      case Pawn =>
        if !p.promoted {
          JumpsMembers(b, r, c, [(Forward(g), 0)], g, s);
        } else {
          JumpsMembers(b, r, c, Oriented(GoldTable, g), g, s);
        }
      case _ =>
        JumpsMembers(b, r, c, Oriented(DefaultTable(p), g), g, s);
    }
  }

  /** The gold general's six squares for a piece whose forward row step is `f`: the three
      ahead, the two beside and the one straight behind. */
  predicate GoldStep(dr: int, dc: int, f: int) {
    (dr == f && -1 <= dc <= 1) || (dr == 0 && (dc == 1 || dc == -1)) || (dr == -f && dc == 0)
  }

  /** The silver general's five squares: the three ahead and the two diagonally behind. */
  predicate SilverStep(dr: int, dc: int, f: int) {
    (dr == f && -1 <= dc <= 1) || (dr == -f && (dc == 1 || dc == -1))
  }

  /** The king's eight neighbours. */
  predicate KingStep(dr: int, dc: int) {
    -1 <= dr <= 1 && -1 <= dc <= 1 && (dr != 0 || dc != 0)
  }

  /** The step a default-branch piece may take, defined by its kind rather than by the
      source's `{x, y}` tables. */
  predicate TableStep(p: Piece, dr: int, dc: int) {
    if p.kind == King then KingStep(dr, dc)
    else if p.kind == Silver && !p.promoted then SilverStep(dr, dc, Forward(p.upper))
    else GoldStep(dr, dc, Forward(p.upper))
  }

  /** The pieces the source's default branch serves, plus the promoted pawn, lance and
      knight, whose own branches fall back to the gold table. */
  predicate TablePiece(p: Piece) {
    p.kind in {Silver, Gold, King} || (p.promoted && p.kind in {Pawn, Lance, Knight})
  }

  /** The table a table piece moves by. */
  function TableOf(p: Piece): seq<(int, int)> {
    if p.kind == King then KingTable
    else if p.kind == Silver && !p.promoted then SilverTable else GoldTable
  }

  lemma TableBranch(p: Piece, r: int, c: int, b: Board)
    requires InBounds(r, c) && TablePiece(p)
    ensures PossibleMoves(Occupied(p), r, c, b) == Jumps(b, r, c, Oriented(TableOf(p), p.upper), p.upper)
  {
  }

  /** The index in `KingTable` (whose first six entries are `GoldTable`) of a king step
      written as a table entry. */
  function KingIndex(x: int, y: int): nat {
    if x == 0 && y == 1 then 0 else if x == 0 then 1
    else if y == 0 && x == 1 then 2 else if y == 0 then 3
    else if x == 1 && y == 1 then 4 else if y == 1 then 5
    else if x == 1 then 6 else 7
  }

  function SilverIndex(x: int, y: int): nat {
    if x == 0 then 0 else if x == 1 && y == 1 then 1 else if y == 1 then 2
    else if x == 1 then 3 else 4
  }

  lemma OrientedTable(p: Piece, dr: int, dc: int)
    requires TablePiece(p)
    ensures (exists k :: 0 <= k < |TableOf(p)| && Oriented(TableOf(p), p.upper)[k] == (dr, dc)) <==>
      TableStep(p, dr, dc)
  {
    var t := TableOf(p);
    var o := Oriented(t, p.upper);
    forall k | 0 <= k < |t|
      ensures TableStep(p, o[k].0, o[k].1)
    {
    }
    if TableStep(p, dr, dc) {
      var x, y := dc, if p.upper then -dr else dr;
      var k := if t == SilverTable then SilverIndex(x, y) else KingIndex(x, y);
      assert t[k] == (x, y);
      assert o[k] == (dr, dc);
    }
  }

  /** The table pieces move exactly one step in the directions their kind allows, onto an
      empty or enemy square: the orientation of the `{x, y}` tables is right for both
      players (pages/index.js:173-180, 336-446, 575-587). */
  lemma TableMoves(p: Piece, r: int, c: int, b: Board, s: Square)
    requires InBounds(r, c) && TablePiece(p)
    ensures s in PossibleMoves(Occupied(p), r, c, b) <==>
      Reachable(b, s, p.upper) && TableStep(p, s.row - r, s.col - c)
  {
    TableBranch(p, r, c, b);
    JumpsByOffset(b, r, c, Oriented(TableOf(p), p.upper), p.upper, s);
    OrientedTable(p, s.row - r, s.col - c);
  }

  /** A square is among the single steps `offs` exactly when it may be reached and its
      offset from (r, c) is one of them. */
  lemma JumpsByOffset(b: Board, r: int, c: int, offs: seq<(int, int)>, gote: bool, s: Square)
    ensures s in Jumps(b, r, c, offs, gote) <==>
      Reachable(b, s, gote) && exists k :: 0 <= k < |offs| && offs[k] == (s.row - r, s.col - c)
  {
    JumpsMembers(b, r, c, offs, gote, s);
    if exists k :: 0 <= k < |offs| && s == Square(r + offs[k].0, c + offs[k].1) {
      var k :| 0 <= k < |offs| && s == Square(r + offs[k].0, c + offs[k].1);
      assert offs[k] == (s.row - r, s.col - c);
    }
    if exists k :: 0 <= k < |offs| && offs[k] == (s.row - r, s.col - c) {
      var k :| 0 <= k < |offs| && offs[k] == (s.row - r, s.col - c);
      assert s == Square(r + offs[k].0, c + offs[k].1);
    }
  }

  /** An unpromoted pawn has one move, the square straight ahead, when that square is on
      the board and empty or enemy (pages/index.js:571-579). */
  lemma PawnMoves(p: Piece, r: int, c: int, b: Board, s: Square)
    requires InBounds(r, c) && p.kind == Pawn && !p.promoted
    ensures s in PossibleMoves(Occupied(p), r, c, b) <==>
      s == Square(r + Forward(p.upper), c) && Reachable(b, s, p.upper)
  {
    JumpsMembers(b, r, c, [(Forward(p.upper), 0)], p.upper, s);
  }

  /** An unpromoted knight jumps two rows ahead and one column aside, over anything in
      between (pages/index.js:549-569). */
  lemma KnightMoves(p: Piece, r: int, c: int, b: Board, s: Square)
    requires InBounds(r, c) && p.kind == Knight && !p.promoted
    ensures s in PossibleMoves(Occupied(p), r, c, b) <==>
      s.row == r + 2 * Forward(p.upper) && (s.col == c - 1 || s.col == c + 1) && Reachable(b, s, p.upper)
  {
    var ks := KnightSteps(p.upper);
    JumpsMembers(b, r, c, ks, p.upper, s);
    if s.row == r + 2 * Forward(p.upper) && s.col == c - 1 {
      assert s == Square(r + ks[0].0, c + ks[0].1);
    } else if s.row == r + 2 * Forward(p.upper) && s.col == c + 1 {
      assert s == Square(r + ks[1].0, c + ks[1].1);
    }
  }

  /** Every square of column `c` strictly between rows `r1` and `r2` is empty. */
  predicate ClearColumn(b: Board, c: int, r1: int, r2: int)
    requires 0 <= c < 9
  {
    forall x :: 0 <= x < 9 && (r1 < x < r2 || r2 < x < r1) ==> b[x][c].Empty?
  }

  /** A vertical slide reaches exactly the squares of its column ahead of it whose
      in-between squares are all empty and which are themselves empty or enemy. */
  lemma {:induction false} ColumnSlide(b: Board, r: int, c: int, f: int, gote: bool, s: Square)
    requires InBounds(r, c) && (f == 1 || f == -1)
    ensures s in Slide(b, r, c, f, 0, gote) <==>
      s.col == c && (if f > 0 then s.row > r else s.row < r) && Reachable(b, s, gote) && ClearColumn(b, c, r, s.row)
    decreases Reach(r, f)
  {
    var nr := r + f;
    if InBounds(nr, c) {
      if b[nr][c].Empty? {
        ColumnSlide(b, nr, c, f, gote, s);
      }
      if s.col == c && s.row != nr && (if f > 0 then s.row > r else s.row < r) && ClearColumn(b, c, r, s.row) {
        assert OnBoard(s) ==> b[nr][c].Empty?;
      }
    }
  }

  /** An unpromoted lance slides straight ahead through empty squares and may stop on the
      first piece only if it is an enemy (pages/index.js:541-547). */
  lemma LanceMoves(p: Piece, r: int, c: int, b: Board, s: Square)
    requires InBounds(r, c) && p.kind == Lance && !p.promoted
    ensures s in PossibleMoves(Occupied(p), r, c, b) <==>
      s.col == c && (if p.upper then s.row < r else s.row > r) &&
      Reachable(b, s, p.upper) && ClearColumn(b, c, r, s.row)
  {
    ColumnSlide(b, r, c, Forward(p.upper), p.upper, s);
  }

  predicate DiagonalNeighbour(dr: int, dc: int) {
    (dr == 1 || dr == -1) && (dc == 1 || dc == -1)
  }

  predicate OrthogonalNeighbour(dr: int, dc: int) {
    (dr == 0 && (dc == 1 || dc == -1)) || (dc == 0 && (dr == 1 || dr == -1))
  }

  /** A rook stays on its row or column, except that a promoted rook also steps to the
      diagonal neighbours (pages/index.js:488-513). */
  lemma RookMoves(p: Piece, r: int, c: int, b: Board, s: Square)
    requires InBounds(r, c) && p.kind == Rook
    ensures s in PossibleMoves(Occupied(p), r, c, b) && s.row != r && s.col != c ==>
      p.promoted && DiagonalNeighbour(s.row - r, s.col - c)
  {
    var g := p.upper;
    RookList(p, r, c, b);
    RookSlidesStraight(b, r, c, g, s);
    if p.promoted && s in Jumps(b, r, c, BishopDirs, g) {
      JumpsByOffset(b, r, c, BishopDirs, g, s);
      var k :| 0 <= k < |BishopDirs| && BishopDirs[k] == (s.row - r, s.col - c);
      assert DiagonalNeighbour(BishopDirs[k].0, BishopDirs[k].1);
    }
  }

  /** A promoted rook steps to each of the four diagonal neighbours exactly when it is
      empty or enemy; an unpromoted rook never reaches them (pages/index.js:488-513). */
  lemma RookDiagonals(p: Piece, r: int, c: int, b: Board, s: Square)
    requires InBounds(r, c) && p.kind == Rook && DiagonalNeighbour(s.row - r, s.col - c)
    ensures s in PossibleMoves(Occupied(p), r, c, b) <==> p.promoted && Reachable(b, s, p.upper)
  {
    var g := p.upper;
    RookList(p, r, c, b);
    RookSlidesStraight(b, r, c, g, s);
    JumpsByOffset(b, r, c, BishopDirs, g, s);
    var dr, dc := s.row - r, s.col - c;
    if p.promoted && Reachable(b, s, g) {
      var k := if dr == 1 && dc == 1 then 0 else if dr == 1 then 1 else if dc == 1 then 2 else 3;
      assert BishopDirs[k] == (dr, dc);
    }
  }

  /** A bishop stays off its own row and column, except that a promoted bishop also steps
      to the orthogonal neighbours (pages/index.js:515-539). */
  lemma BishopMoves(p: Piece, r: int, c: int, b: Board, s: Square)
    requires InBounds(r, c) && p.kind == Bishop
    ensures s in PossibleMoves(Occupied(p), r, c, b) && (s.row == r || s.col == c) ==>
      p.promoted && OrthogonalNeighbour(s.row - r, s.col - c)
  {
    var g := p.upper;
    BishopList(p, r, c, b);
    BishopSlidesDiagonal(b, r, c, g, s);
    if p.promoted && s in Jumps(b, r, c, BishopSteps, g) {
      JumpsByOffset(b, r, c, BishopSteps, g, s);
      var k :| 0 <= k < |BishopSteps| && BishopSteps[k] == (s.row - r, s.col - c);
      assert OrthogonalNeighbour(BishopSteps[k].0, BishopSteps[k].1);
    }
  }

  /** A promoted bishop steps to each of the four orthogonal neighbours exactly when it is
      empty or enemy; an unpromoted bishop never reaches them (pages/index.js:515-539). */
  lemma BishopOrthogonals(p: Piece, r: int, c: int, b: Board, s: Square)
    requires InBounds(r, c) && p.kind == Bishop && OrthogonalNeighbour(s.row - r, s.col - c)
    ensures s in PossibleMoves(Occupied(p), r, c, b) <==> p.promoted && Reachable(b, s, p.upper)
  {
    var g := p.upper;
    BishopList(p, r, c, b);
    BishopSlidesDiagonal(b, r, c, g, s);
    JumpsByOffset(b, r, c, BishopSteps, g, s);
    var dr, dc := s.row - r, s.col - c;
    if p.promoted && Reachable(b, s, g) {
      var k := if dc == 1 then 0 else if dc == -1 then 1 else if dr == 1 then 2 else 3;
      assert BishopSteps[k] == (dr, dc);
    }
  }

  /** Every square of a rook's slides shares its row or its column. */
  lemma RookSlidesStraight(b: Board, r: int, c: int, g: bool, s: Square)
    requires InBounds(r, c)
    ensures s in Slides(b, r, c, RookDirs, |RookDirs|, g) ==> s.row == r || s.col == c
  {
    if s in Slides(b, r, c, RookDirs, |RookDirs|, g) {
      var k := SlidesMember(b, r, c, RookDirs, |RookDirs|, g, s);
      SlideDirection(b, r, c, RookDirs[k].0, RookDirs[k].1, g, s);
    }
  }

  /** No square of a bishop's slides shares its row or its column. */
  lemma BishopSlidesDiagonal(b: Board, r: int, c: int, g: bool, s: Square)
    requires InBounds(r, c)
    ensures s in Slides(b, r, c, BishopDirs, |BishopDirs|, g) ==> s.row != r && s.col != c
  {
    if s in Slides(b, r, c, BishopDirs, |BishopDirs|, g) {
      var k := SlidesMember(b, r, c, BishopDirs, |BishopDirs|, g, s);
      SlideDirection(b, r, c, BishopDirs[k].0, BishopDirs[k].1, g, s);
    }
  }

  /** A rook's list: its four slides, then its diagonal steps when promoted. */
  lemma RookList(p: Piece, r: int, c: int, b: Board)
    requires InBounds(r, c) && p.kind == Rook
    ensures PossibleMoves(Occupied(p), r, c, b) ==
      Slides(b, r, c, RookDirs, |RookDirs|, p.upper) + (if p.promoted then Jumps(b, r, c, BishopDirs, p.upper) else [])
  {
  }

  /** A bishop's list: its four slides, then its single steps when promoted. */
  lemma BishopList(p: Piece, r: int, c: int, b: Board)
    requires InBounds(r, c) && p.kind == Bishop
    ensures PossibleMoves(Occupied(p), r, c, b) ==
      Slides(b, r, c, BishopDirs, |BishopDirs|, p.upper) + (if p.promoted then Jumps(b, r, c, BishopSteps, p.upper) else [])
  {
  }

  /** The steps of `BishopSteps` that may be taken, in order. */
  lemma BishopStepsInOrder(b: Board, r: int, c: int, g: bool)
    ensures Jumps(b, r, c, BishopSteps, g) ==
      IfReachable(b, Square(r, c + 1), g) + IfReachable(b, Square(r, c - 1), g)
      + IfReachable(b, Square(r + 1, c), g) + IfReachable(b, Square(r - 1, c), g)
  {
    var s3 := BishopSteps[..3];
    var s2 := s3[..2];
    var s1 := s2[..1];
    JumpsStep(b, r, c, BishopSteps, g);
    JumpsStep(b, r, c, s3, g);
    JumpsStep(b, r, c, s2, g);
    JumpsStep(b, r, c, s1, g);
    assert s1[..0] == [];
    var right, left := IfReachable(b, Square(r, c + 1), g), IfReachable(b, Square(r, c - 1), g);
    var down := IfReachable(b, Square(r + 1, c), g);
    assert s1[0] == (0, 1) && s2[1] == (0, -1) && s3[2] == (1, 0);
    assert Jumps(b, r, c, s1, g) == right;
    assert Jumps(b, r, c, s2, g) == right + left;
    assert Jumps(b, r, c, s3, g) == right + left + down;
  }

  /** The last step offset comes last. */
  lemma JumpsStep(b: Board, r: int, c: int, offs: seq<(int, int)>, g: bool)
    requires offs != []
    ensures var o := offs[|offs| - 1];
            Jumps(b, r, c, offs, g) == Jumps(b, r, c, offs[..|offs| - 1], g) + IfReachable(b, Square(r + o.0, c + o.1), g)
  {
  }

  /** With every diagonal slide empty, a promoted bishop's moves are its reachable
      orthogonal neighbours in the order its branch pushes them: right, left, down, up
      (pages/index.js:526-538). */
  lemma BishopStepOrder(p: Piece, r: int, c: int, b: Board)
    requires InBounds(r, c) && p.kind == Bishop && p.promoted
    requires Slides(b, r, c, BishopDirs, |BishopDirs|, p.upper) == []
    ensures PossibleMoves(Occupied(p), r, c, b) ==
      IfReachable(b, Square(r, c + 1), p.upper) + IfReachable(b, Square(r, c - 1), p.upper)
      + IfReachable(b, Square(r + 1, c), p.upper) + IfReachable(b, Square(r - 1, c), p.upper)
  {
    BishopStepsInOrder(b, r, c, p.upper);
  }
}
