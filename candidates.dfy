/** `generateAllMoves(boardState, player)` inside `performAIMove`
    (pages/index.js:1165-1326): every move of the player's pieces that does not leave
    the player in check, with a promoted twin where promotion is possible; for Sente,
    every drop of every hand entry; then the list sorted by front-capture bonus, capture
    value and drop bonus, largest first. */
module Candidates {
  import opened Board
  import opened MoveGen
  import opened Rules
  import opened Evaluation
  import opened Sorting
  import opened Scan

  /** What `generateAllMoves` reads besides its arguments: the component's board (which
      `isValidDrop` hands to `isCheckmate`), the player to move (which `isValidDrop`
      consults) and Sente's hand `capturedSente`. */
  datatype Context = Context(live: Board, current: Side, senteHand: seq<Piece>)

  /** One entry of the move list: `from` is None for a drop; `captured` is Empty where the
      source stores null; `dropBonus` is 0 where the source leaves it undefined. */
  datatype Candidate = Candidate(
    from: Option<Square>,
    to: Square,
    piece: Piece,
    board: Board,
    captured: Cell,
    frontBonus: int,
    dropBonus: int)

  function Abs(n: int): nat {
    if n < 0 then -n else n
  }

  /** The bonus for a Sente move onto an upper-case piece directly behind it (row x-1;
      Sente moves toward row 8). */
  function FrontBonus(b: Board, player: Side, x: int, y: int, t: Square): int
    requires OnBoard(t)
  {
    var target := b[t.row][t.col];
    if player == Sente && t.row == x - 1 && t.col == y && target.Occupied? && target.piece.upper then 200 else 0
  }

  /** The candidate for moving the piece at (x, y) to `t`, promoted or not. */
  function MoveCandidate(b: Board, player: Side, x: int, y: int, t: Square, promote: bool): (m: Candidate)
    requires InBounds(x, y) && b[x][y].Occupied? && OnBoard(t)
  {
    var p := if promote then b[x][y].piece.(promoted := true) else b[x][y].piece;
    Candidate(Some(Square(x, y)), t, p, Place(Place(b, x, y, Empty), t.row, t.col, Occupied(p)),
              b[t.row][t.col], FrontBonus(b, player, x, y, t), 0)
  }

  /** What one generated target contributes: the plain move unless it leaves the player in
      check, then the promoted move where `shouldPromote` allows it, unless that does. */
  function TargetCandidates(b: Board, player: Side, x: int, y: int, t: Square): seq<Candidate>
    requires InBounds(x, y) && b[x][y].Occupied? && OnBoard(t)
  {
    var plain := MoveCandidate(b, player, x, y, t, false);
    var promoted := MoveCandidate(b, player, x, y, t, true);
    (if !InCheck(plain.board, player) then [plain] else [])
    + (if ShouldPromote(b[x][y].piece, x, t.row) && !InCheck(promoted.board, player) then [promoted] else [])
  }

  /** The candidates of generated target k (every generated target is on the board). */
  function TargetsOf(b: Board, player: Side, x: int, y: int, ts: seq<Square>): int -> seq<Candidate>
    requires InBounds(x, y) && b[x][y].Occupied?
  {
    k => if 0 <= k < |ts| && OnBoard(ts[k]) then TargetCandidates(b, player, x, y, ts[k]) else []
  }

  /** The cell at (x, y) holds a piece of `player`'s (upper case is Gote). */
  predicate Mine(b: Board, player: Side, x: int, y: int)
    requires InBounds(x, y)
  {
    b[x][y].Occupied? && Owner(b[x][y].piece) == player
  }

  lemma PossibleMovesOnBoard(p: Piece, r: int, c: int, b: Board)
    requires InBounds(r, c)
    ensures forall s :: s in PossibleMoves(Occupied(p), r, c, b) ==> OnBoard(s)
  {
    forall s | s in PossibleMoves(Occupied(p), r, c, b)
      ensures OnBoard(s)
    {
      PossibleMovesSound(p, r, c, b, s);
    }
  }

  /** Everything the cell at (x, y) contributes: the candidates of each generated target,
      in the order `getPossibleMoves` lists them. */
  function CellCandidates(b: Board, player: Side, x: int, y: int): seq<Candidate>
    requires InBounds(x, y)
  {
    if !Mine(b, player, x, y) then []
    else
      var ts := PossibleMoves(b[x][y], x, y, b);
      Flatten(TargetsOf(b, player, x, y, ts), |ts|)
  }

  function CellsOf(b: Board, player: Side): (int, int) -> seq<Candidate> {
    (r, c) => if InBounds(r, c) then CellCandidates(b, player, r, c) else []
  }

  /** The drop bonus: 300 plus ten for each step the square is closer to the centre. */
  function DropBonus(s: Square): int {
    300 + (4 - Abs(4 - s.row) + 4 - Abs(4 - s.col)) * 10
  }

  /** The candidate for dropping the hand entry `cap` on `s`: the board gets it in lower
      case, the list entry keeps the hand's string. */
  function DropCandidate(b: Board, cap: Piece, s: Square): Candidate
    requires OnBoard(s)
  {
    Candidate(None, s, cap, Place(b, s.row, s.col, ToLower(Occupied(cap))), Empty, 0, DropBonus(s))
  }

  /** The drop on `s`, unless it leaves Sente in check. */
  function DropEntry(b: Board, cap: Piece, s: Square): seq<Candidate>
    requires OnBoard(s)
  {
    var d := DropCandidate(b, cap, s);
    if !InCheck(d.board, Sente) then [d] else []
  }

  /** The drop on the k-th square of `locs`, unless it leaves Sente in check. */
  function DropsOf(b: Board, cap: Piece, locs: seq<Square>): int -> seq<Candidate> {
    k => if 0 <= k < |locs| && OnBoard(locs[k]) then DropEntry(b, cap, locs[k]) else []
  }

  /** The drops of one hand entry, in the order `getDropLocations` lists the squares. */
  function HandEntryCandidates(b: Board, ctx: Context, cap: Piece): seq<Candidate> {
    var locs := DropLocations(cap, b, ctx.current, ctx.live);
    Flatten(DropsOf(b, cap, locs), |locs|)
  }

  function HandOf(b: Board, ctx: Context): int -> seq<Candidate> {
    k => if 0 <= k < |ctx.senteHand| then HandEntryCandidates(b, ctx, ctx.senteHand[k]) else []
  }

  /** The list before sorting: board moves row by row, then (for Sente) the drops of each
      hand entry in hand order. */
  function RawCandidates(b: Board, player: Side, ctx: Context): seq<Candidate> {
    Concat(CellsOf(b, player), 9, 0) + (if player == Sente then Flatten(HandOf(b, ctx), |ctx.senteHand|) else [])
  }

  /** The comparator's keys: front bonus, then the captured piece's base value, then the
      drop bonus. */
  function SortKey(m: Candidate): Key {
    (m.frontBonus, CapturedValue(m.captured), m.dropBonus)
  }

  /** `generateAllMoves(boardState, player)`. */
  function AllMoves(b: Board, player: Side, ctx: Context): seq<Candidate> {
    StableSort(RawCandidates(b, player, ctx), SortKey)
  }

  // ---------------------------------------------------------------------------------
  // The loops

  method GenerateAllMoves(b: Board, player: Side, ctx: Context) returns (moves: seq<Candidate>)
    ensures moves == AllMoves(b, player, ctx)
  {
    moves := [];
    for x := 0 to 9
      invariant moves == Concat(CellsOf(b, player), x, 0)
    {
      moves := CandidatesInRow(b, player, x, moves);
    }
    if player == Sente && |ctx.senteHand| > 0 {
      var drops := HandCandidates(b, ctx);
      moves := moves + drops;
    }
    assert moves == RawCandidates(b, player, ctx);
    moves := StableSort(moves, SortKey);
  }

  /** The loop over `capturedSente`: each entry's drop squares, in hand order. */
  method HandCandidates(b: Board, ctx: Context) returns (moves: seq<Candidate>)
    ensures moves == Flatten(HandOf(b, ctx), |ctx.senteHand|)
  {
    moves := [];
    for k := 0 to |ctx.senteHand|
      invariant moves == Flatten(HandOf(b, ctx), k)
    {
      var cap := ctx.senteHand[k];
      var drops := GetDropLocations(cap, b, ctx.current, ctx.live);
      DropLocationsMembers(cap, b, ctx.current, ctx.live);
      var found := DropCandidates(b, cap, drops);
      moves := moves + found;
    }
  }

  /** One pass of the inner loop over the cells of row `x`. */
  method CandidatesInRow(b: Board, player: Side, x: int, acc: seq<Candidate>) returns (moves: seq<Candidate>)
    requires 0 <= x < 9 && acc == Concat(CellsOf(b, player), x, 0)
    ensures moves == Concat(CellsOf(b, player), x + 1, 0)
  {
    moves := acc;
    for y := 0 to 9
      invariant moves == Concat(CellsOf(b, player), x, y)
    {
      var piece := b[x][y];
      if piece.Empty? {
        continue;
      }
      var piecePlayer := if piece.piece.upper then Gote else Sente;
      if piecePlayer != player {
        continue;
      }
      var found := PieceCandidates(b, player, x, y);
      moves := moves + found;
    }
  }

  /** The loop over `getPossibleMoves(piece, x, y, boardState)`. */
  method PieceCandidates(b: Board, player: Side, x: int, y: int) returns (moves: seq<Candidate>)
    requires InBounds(x, y) && Mine(b, player, x, y)
    ensures moves == CellCandidates(b, player, x, y)
  {
    var legal := GetPossibleMoves(b[x][y], x, y, b);
    PossibleMovesOnBoard(b[x][y].piece, x, y, b);
    moves := [];
    for k := 0 to |legal|
      invariant moves == Flatten(TargetsOf(b, player, x, y, legal), k)
    {
      assert legal[k] in legal;
      var found := TargetMoves(b, player, x, y, legal[k]);
      moves := moves + found;
    }
  }

  /** One pass of that loop: the plain move to `t`, then its promoted twin. */
  method TargetMoves(b: Board, player: Side, x: int, y: int, t: Square) returns (moves: seq<Candidate>)
    requires InBounds(x, y) && b[x][y].Occupied? && OnBoard(t)
    ensures moves == TargetCandidates(b, player, x, y, t)
  {
    ghost var plain := MoveCandidate(b, player, x, y, t, false);
    ghost var promoted := MoveCandidate(b, player, x, y, t, true);
    var p := b[x][y].piece;
    var frontBonus := 0;
    var target := b[t.row][t.col];
    if player == Sente && t.row == x - 1 && t.col == y && target.Occupied? && target.piece.upper {
      frontBonus := 200;
    }
    var canProm := ShouldPromote(p, x, t.row);
    var b1 := Place(Place(b, x, y, Empty), t.row, t.col, Occupied(p));
    assert Candidate(Some(Square(x, y)), t, p, b1, target, frontBonus, 0) == plain;
    var check1 := IsInCheck(player, b1);
    var plainPart: seq<Candidate> := if !check1 then [Candidate(Some(Square(x, y)), t, p, b1, target, frontBonus, 0)] else [];
    var promotedPart: seq<Candidate> := [];
    if canProm {
      var promPiece := p.(promoted := true);
      var b2 := Place(Place(b, x, y, Empty), t.row, t.col, Occupied(promPiece));
      assert Candidate(Some(Square(x, y)), t, promPiece, b2, target, frontBonus, 0) == promoted;
      var check2 := IsInCheck(player, b2);
      if !check2 {
        promotedPart := [Candidate(Some(Square(x, y)), t, promPiece, b2, target, frontBonus, 0)];
      }
    }
    moves := plainPart + promotedPart;
  }

  /** The loop over `getDropLocations(cap, boardState)`. */
  method DropCandidates(b: Board, cap: Piece, drops: seq<Square>) returns (moves: seq<Candidate>)
    requires forall s :: s in drops ==> OnBoard(s)
    ensures moves == Flatten(DropsOf(b, cap, drops), |drops|)
  {
    moves := [];
    for k := 0 to |drops|
      invariant moves == Flatten(DropsOf(b, cap, drops), k)
    {
      assert drops[k] in drops;
      var found := DropOn(b, cap, drops[k]);
      moves := moves + found;
    }
  }

  /** One pass of that loop: the drop on `s`, kept unless it leaves Sente in check. */
  method DropOn(b: Board, cap: Piece, s: Square) returns (found: seq<Candidate>)
    requires OnBoard(s)
    ensures found == DropEntry(b, cap, s)
  {
    var b3 := Place(b, s.row, s.col, ToLower(Occupied(cap)));
    var centerBonus := (4 - Abs(4 - s.row) + 4 - Abs(4 - s.col)) * 10;
    var check := IsInCheck(Sente, b3);
    found := if !check then [Candidate(None, s, cap, b3, Empty, 0, 300 + centerBonus)] else [];
  }

  // ---------------------------------------------------------------------------------
  // What the list holds

  /** The entry for a move of one of `player`'s pieces to a square `getPossibleMoves`
      generates for it, promoted only where `shouldPromote` allows, that does not leave
      `player` in check. */
  predicate LegalMove(b: Board, player: Side, m: Candidate) {
    m.from.Some? && InBounds(m.from.value.row, m.from.value.col) && OnBoard(m.to) &&
    var f := m.from.value;
    Mine(b, player, f.row, f.col) && m.to in PossibleMoves(b[f.row][f.col], f.row, f.col, b) &&
    (m == MoveCandidate(b, player, f.row, f.col, m.to, false) ||
     (ShouldPromote(b[f.row][f.col].piece, f.row, m.to.row) && m == MoveCandidate(b, player, f.row, f.col, m.to, true))) &&
    !InCheck(m.board, player)
  }

  /** The entry for a Sente drop of a hand entry on a square `getDropLocations` returns
      for it, that does not leave Sente in check. */
  predicate LegalDrop(b: Board, player: Side, ctx: Context, m: Candidate) {
    player == Sente && m.piece in ctx.senteHand && OnBoard(m.to) &&
    m.to in DropLocations(m.piece, b, ctx.current, ctx.live) &&
    m == DropCandidate(b, m.piece, m.to) && !InCheck(m.board, Sente)
  }

  lemma TargetSound(b: Board, player: Side, x: int, y: int, t: Square, m: Candidate)
    requires InBounds(x, y) && Mine(b, player, x, y) && OnBoard(t)
    requires t in PossibleMoves(b[x][y], x, y, b) && m in TargetCandidates(b, player, x, y, t)
    ensures LegalMove(b, player, m)
  {
    var plain := MoveCandidate(b, player, x, y, t, false);
    var promoted := MoveCandidate(b, player, x, y, t, true);
    if m == plain {
      assert !InCheck(plain.board, player);
    } else {
      assert m == promoted && ShouldPromote(b[x][y].piece, x, t.row) && !InCheck(promoted.board, player);
    }
  }

  /** A candidate a cell contributes is a legal move of that cell's piece. */
  lemma CellCandidateSound(b: Board, player: Side, x: int, y: int, m: Candidate)
    requires InBounds(x, y) && m in CellCandidates(b, player, x, y)
    ensures LegalMove(b, player, m)
  {
    var ts := PossibleMoves(b[x][y], x, y, b);
    FlattenSound(TargetsOf(b, player, x, y, ts), |ts|, m);
    var k :| 0 <= k < |ts| && m in TargetsOf(b, player, x, y, ts)(k);
    assert ts[k] in ts;
    TargetSound(b, player, x, y, ts[k], m);
  }

  lemma BoardSound(b: Board, player: Side, m: Candidate)
    requires m in Concat(CellsOf(b, player), 9, 0)
    ensures LegalMove(b, player, m)
  {
    ConcatSound(CellsOf(b, player), 9, 0, m);
    var r, c :| InBounds(r, c) && Before(r, c, Square(9, 0)) && m in CellsOf(b, player)(r, c);
    CellCandidateSound(b, player, r, c, m);
  }

  lemma DropSound(b: Board, ctx: Context, cap: Piece, locs: seq<Square>, k: int, m: Candidate)
    requires cap in ctx.senteHand && 0 <= k < |locs| && OnBoard(locs[k])
    requires locs[k] in DropLocations(cap, b, ctx.current, ctx.live) && m in DropsOf(b, cap, locs)(k)
    ensures LegalDrop(b, Sente, ctx, m)
  {
    DropEntryMember(b, cap, locs[k], m);
  }

  /** The drop `DropEntry` lists is the drop of `cap` on `s`, and it leaves Sente out of
      check. */
  lemma DropEntryMember(b: Board, cap: Piece, s: Square, m: Candidate)
    requires OnBoard(s) && m in DropEntry(b, cap, s)
    ensures m == DropCandidate(b, cap, s) && m.to == s && m.piece == cap && !InCheck(m.board, Sente)
  {
  }

  /** A candidate a hand entry contributes is a legal drop of that entry. */
  lemma HandEntrySound(b: Board, ctx: Context, cap: Piece, m: Candidate)
    requires cap in ctx.senteHand && m in HandEntryCandidates(b, ctx, cap)
    ensures LegalDrop(b, Sente, ctx, m)
  {
    var locs := DropLocations(cap, b, ctx.current, ctx.live);
    FlattenSound(DropsOf(b, cap, locs), |locs|, m);
    var k :| 0 <= k < |locs| && m in DropsOf(b, cap, locs)(k);
    assert locs[k] in locs;
    DropSound(b, ctx, cap, locs, k, m);
  }

  lemma HandSound(b: Board, ctx: Context, m: Candidate)
    requires m in Flatten(HandOf(b, ctx), |ctx.senteHand|)
    ensures LegalDrop(b, Sente, ctx, m)
  {
    FlattenSound(HandOf(b, ctx), |ctx.senteHand|, m);
    var k :| 0 <= k < |ctx.senteHand| && m in HandOf(b, ctx)(k);
    HandEntrySound(b, ctx, ctx.senteHand[k], m);
  }

  lemma MoveInList(b: Board, player: Side, ctx: Context, m: Candidate)
    requires LegalMove(b, player, m)
    ensures m in RawCandidates(b, player, ctx)
  {
    var f := m.from.value;
    var ts := PossibleMoves(b[f.row][f.col], f.row, f.col, b);
    var k :| 0 <= k < |ts| && ts[k] == m.to;
    assert m in TargetsOf(b, player, f.row, f.col, ts)(k);
    FlattenComplete(TargetsOf(b, player, f.row, f.col, ts), |ts|, k, m);
    assert m in CellsOf(b, player)(f.row, f.col);
    ConcatComplete(CellsOf(b, player), 9, 0, f.row, f.col, m);
  }

  lemma DropAtIndex(b: Board, cap: Piece, locs: seq<Square>, n: int, m: Candidate)
    requires 0 <= n < |locs| && OnBoard(locs[n]) && m == DropCandidate(b, cap, locs[n]) && !InCheck(m.board, Sente)
    ensures m in DropsOf(b, cap, locs)(n)
  {
  }

  lemma HandEntryAtIndex(b: Board, ctx: Context, k: int, m: Candidate)
    requires 0 <= k < |ctx.senteHand| && m in HandEntryCandidates(b, ctx, ctx.senteHand[k])
    ensures m in HandOf(b, ctx)(k)
  {
  }

  lemma DropInList(b: Board, player: Side, ctx: Context, m: Candidate)
    requires LegalDrop(b, player, ctx, m)
    ensures m in RawCandidates(b, player, ctx)
  {
    var k :| 0 <= k < |ctx.senteHand| && ctx.senteHand[k] == m.piece;
    var locs := DropLocations(m.piece, b, ctx.current, ctx.live);
    var n :| 0 <= n < |locs| && locs[n] == m.to;
    DropAtIndex(b, m.piece, locs, n, m);
    FlattenComplete(DropsOf(b, m.piece, locs), |locs|, n, m);
    assert m in HandEntryCandidates(b, ctx, ctx.senteHand[k]);
    HandEntryAtIndex(b, ctx, k, m);
    FlattenComplete(HandOf(b, ctx), |ctx.senteHand|, k, m);
  }

  /** `generateAllMoves` lists exactly the legal moves of the player's pieces (with their
      promoted twins) and, for Sente, the legal drops of the hand; nothing else. */
  lemma AllMovesSpec(b: Board, player: Side, ctx: Context, m: Candidate)
    ensures m in AllMoves(b, player, ctx) <==> LegalMove(b, player, m) || LegalDrop(b, player, ctx, m)
  {
    var raw := RawCandidates(b, player, ctx);
    StableSortSorted(raw, SortKey);
    assert m in AllMoves(b, player, ctx) <==> m in multiset(raw);
    if m in raw {
      if m in Concat(CellsOf(b, player), 9, 0) {
        BoardSound(b, player, m);
      } else {
        HandSound(b, ctx, m);
      }
    }
    if LegalMove(b, player, m) {
      MoveInList(b, player, ctx, m);
    } else if LegalDrop(b, player, ctx, m) {
      DropInList(b, player, ctx, m);
    }
  }

  /** The list is sorted largest key first, and entries with equal keys keep the order in
      which they were generated (board moves row by row, then drops hand entry by hand
      entry). */
  lemma AllMovesOrder(b: Board, player: Side, ctx: Context, k: Key)
    ensures SortedDesc(AllMoves(b, player, ctx), SortKey)
    ensures multiset(AllMoves(b, player, ctx)) == multiset(RawCandidates(b, player, ctx))
    ensures WithKey(AllMoves(b, player, ctx), SortKey, k) == WithKey(RawCandidates(b, player, ctx), SortKey, k)
  {
    StableSortSorted(RawCandidates(b, player, ctx), SortKey);
    StableSortStable(RawCandidates(b, player, ctx), SortKey, k);
  }

  /** While Sente is to move, the self-check filter on drops removes nothing: every square
      `getDropLocations` returns already passed the same test inside `isValidDrop`. */
  lemma DropsNeverSelfCheck(b: Board, ctx: Context, cap: Piece, s: Square)
    requires ctx.current == Sente && s in DropLocations(cap, b, Sente, ctx.live)
    ensures OnBoard(s) && !InCheck(DropCandidate(b, cap, s).board, Sente)
  {
    DropLocationsMembers(cap, b, Sente, ctx.live);
    assert Dropped(cap, Sente) == ToLower(Occupied(cap));
  }
}
