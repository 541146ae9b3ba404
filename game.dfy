/** The live engine's game state and its handlers (pages/index.js): the React state hooks
    (lines 201-215) become a `State` value, each handler a function from the state it reads
    to the state its setters leave, and the `ShogiGame` class holds the hooks as fields and
    runs the handlers step by step, proved equal to those functions. A setter takes effect
    when the handler returns and the last call to a setter wins; reads see the values of
    the render the handler was created in. */
module Game {
  import opened Board
  import opened MoveGen
  import opened Rules
  import opened OpeningBook
  import Candidates

  /** `selectedPiece`: `{ x, y, piece }`, the piece string as it was when selected. */
  datatype Selection = Selection(at: Square, cell: Cell)

  /** `lastMove`: `{ from, to }`; a drop has no origin. */
  datatype LastMove = LastMove(from: Option<Square>, to: Square)

  datatype EntryKind = MoveEntry | DropEntry

  /** One `moveHistory` entry: the state before the move or drop and the state after it.
      The before-lists are copies of the hands; the after-lists are built from the piece
      strings as they stood, so they can hold a promoted piece or " ". */
  datatype HistoryEntry = HistoryEntry(
    kind: EntryKind,
    boardBefore: Board, goteBefore: seq<Piece>, senteBefore: seq<Piece>,
    playerBefore: Side, lastMoveBefore: Option<LastMove>, stepBefore: nat,
    boardAfter: Board, goteAfter: seq<Cell>, senteAfter: seq<Cell>,
    playerAfter: Side, lastMoveAfter: Option<LastMove>, stepAfter: nat)

  /** The state hooks the handlers read and set. `capturedGote` holds Gote's captures as
      lower-case strings, `capturedSente` Sente's as upper-case strings. */
  datatype State = State(
    board: Board,
    currentPlayer: Side,
    selected: Option<Selection>,
    possibleMoves: seq<Square>,
    capturedGote: seq<Piece>,
    capturedSente: seq<Piece>,
    history: seq<HistoryEntry>,
    undoIndex: int,
    vsAI: bool,
    gameOver: bool,
    lastMove: Option<LastMove>,
    openingStep: nat,
    matchedOpening: Option<Opening>)

  /** What every handler keeps: the history cursor within the history, a selection on the
      board, and a followed opening line that is well formed. */
  predicate ValidState(s: State) {
    0 <= s.undoIndex <= |s.history|
    && (s.selected.Some? ==> OnBoard(s.selected.value.at))
    && (s.matchedOpening.Some? ==> WellFormedLine(s.matchedOpening.value.sequence))
  }

  /** `resetGame` (pages/index.js:1639-1657): every hook back to its opening value except
      `vsAI`. */
  function Reset(s: State): (s': State)
    ensures ValidState(s') && s'.vsAI == s.vsAI
    ensures s'.board == InitialBoard() && s'.currentPlayer == Gote
    ensures s'.history == [] && s'.undoIndex == 0 && s'.capturedGote == [] && s'.capturedSente == []
  {
    s.(gameOver := false, board := InitialBoard(), currentPlayer := Gote, selected := None,
       possibleMoves := [], capturedGote := [], capturedSente := [], history := [],
       undoIndex := 0, lastMove := None, matchedOpening := None, openingStep := 0)
  }

  /** The values of the hooks when the component first renders (lines 201-215). */
  function Initial(): (s: State)
    ensures ValidState(s) && s.vsAI && s.board == InitialBoard() && s.currentPlayer == Gote
  {
    State(InitialBoard(), Gote, None, [], [], [], [], 0, true, false, None, 0, None)
  }

  // ---------------------------------------------------------------------------------
  // Helpers shared by the handlers

  /** The hand of a side. */
  function Hand(s: State, side: Side): seq<Piece> {
    if side == Gote then s.capturedGote else s.capturedSente
  }

  function WithHand(s: State, side: Side, h: seq<Piece>): (s': State)
    ensures Hand(s', side) == h && Hand(s', Other(side)) == Hand(s, Other(side))
    ensures s'.board == s.board && s'.history == s.history && s'.undoIndex == s.undoIndex
  {
    if side == Gote then s.(capturedGote := h) else s.(capturedSente := h)
  }

  /** The string a captured piece becomes in its captor's hand: `+` removed, lower case for
      Gote, upper case for Sente. */
  function Taken(p: Piece, captor: Side): (q: Piece)
    ensures q.kind == p.kind && !q.promoted && q.upper == (captor == Sente)
  {
    Piece(p.kind, captor == Sente, false)
  }

  /** A hand as a list of piece strings. */
  function Cells(h: seq<Piece>): (cs: seq<Cell>)
    ensures |cs| == |h| && forall i :: 0 <= i < |h| ==> cs[i] == Occupied(h[i])
  {
    seq(|h|, i requires 0 <= i < |h| => Occupied(h[i]))
  }

  /** `array.indexOf(x)`: the first position holding `x`, or -1. */
  function IndexOf<T(==)>(h: seq<T>, x: T): (i: int)
    ensures -1 <= i < |h|
    ensures i == -1 <==> x !in h
    ensures 0 <= i ==> h[i] == x && x !in h[..i]
    decreases |h|
  {
    if h == [] then -1
    else if h[0] == x then 0
    else
      var j := IndexOf(h[1..], x);
      if j == -1 then -1 else j + 1
  }

  /** `copy.splice(copy.indexOf(x), 1)` for an `x` the list holds. */
  function RemoveFirst<T(==)>(h: seq<T>, x: T): seq<T>
    requires x in h
  {
    var i := IndexOf(h, x);
    h[..i] + h[i + 1..]
  }

  /** `isVictory()`: some king is missing from the board of the render. */
  predicate KingMissing(b: Board) {
    FindKing(b, KingOf(Gote)).None? || FindKing(b, KingOf(Sente)).None?
  }

  /** The history entry a committed move or drop of state `s` records. */
  function Entry(s: State, kind: EntryKind, after: Board, goteAfter: seq<Cell>, senteAfter: seq<Cell>,
                 last: LastMove): HistoryEntry {
    HistoryEntry(kind, s.board, s.capturedGote, s.capturedSente, s.currentPlayer, s.lastMove,
                 s.openingStep, after, goteAfter, senteAfter, Other(s.currentPlayer), Some(last),
                 s.openingStep)
  }

  /** `[...moveHistory.slice(0, undoIndex), entry]`. */
  function Record(s: State, e: HistoryEntry): seq<HistoryEntry>
    requires 0 <= s.undoIndex <= |s.history|
  {
    s.history[..s.undoIndex] + [e]
  }

  // ---------------------------------------------------------------------------------
  // movePiece (pages/index.js:601-700)

  /** The piece `movePiece` puts on the target: the forced piece if one is given; else the
      promoted piece when `shouldPromote` holds and it is a pawn, lance or knight reaching
      its last row; else, when the mover is asked (Gote against the AI, either side
      otherwise), the answer `confirm` decides; otherwise the piece as it was. */
  function FinalPiece(p: Piece, fromRow: int, toRow: int, force: Option<Piece>, confirm: bool,
                      vsAI: bool, current: Side): (c: Cell)
    ensures force.Some? ==> c == Occupied(force.value)
    ensures force.None? && MustPromote(p, toRow) ==> c == Occupied(p.(promoted := true))
    ensures force.None? && !ShouldPromote(p, fromRow, toRow) ==> c == Occupied(p)
    ensures force.None? && vsAI && current == Sente && !MustPromote(p, toRow) ==> c == Occupied(p)
    ensures force.None? ==> c.Occupied? && c.piece.kind == p.kind && c.piece.upper == p.upper
  {
    if force.Some? then Occupied(force.value)
    else if ShouldPromote(p, fromRow, toRow) && !p.promoted then
      if MustPromote(p, toRow) then Occupied(p.(promoted := true))
      else if (vsAI && current == Gote) || !vsAI then Occupied(if confirm then p.(promoted := true) else p)
      else Occupied(p)
    else Occupied(p)
  }

  /** The piece `movePiece` moves: the one on `from` when an origin is given, else the
      selection. */
  function Origin(s: State, from: Option<Square>): Option<Selection>
    requires from.Some? ==> OnBoard(from.value)
  {
    if from.Some? then Some(Selection(from.value, s.board[from.value.row][from.value.col])) else s.selected
  }

  /** The hands after a capture of `captured` by the player to move. */
  function Capture(s: State, captured: Cell): (s': State)
    ensures captured.Empty? ==> s' == s
    ensures captured.Occupied? ==> s' == WithHand(s, s.currentPlayer,
                                    Hand(s, s.currentPlayer) + [Taken(captured.piece, s.currentPlayer)])
  {
    if captured.Empty? then s
    else WithHand(s, s.currentPlayer, Hand(s, s.currentPlayer) + [Taken(captured.piece, s.currentPlayer)])
  }

  /** The board a move of `piece` from `at` to `target` leaves. */
  function Moved(b: Board, at: Square, target: Square, final: Cell): Board
    requires OnBoard(at) && OnBoard(target)
  {
    Place(Place(b, at.row, at.col, Empty), target.row, target.col, final)
  }

  /** The piece `movePiece` would move to `target`: the origin, when it holds a piece
      whose moves include the target. */
  function MoveOrigin(s: State, target: Square, from: Option<Square>): (o: Option<Selection>)
    requires ValidState(s) && (from.Some? ==> OnBoard(from.value))
    ensures o.Some? ==> OnBoard(o.value.at) && OnBoard(target) && o.value.cell.Occupied?
                        && target in PossibleMoves(o.value.cell, o.value.at.row, o.value.at.col, s.board)
  {
    var o := Origin(s, from);
    if o.Some? && target in PossibleMoves(o.value.cell, o.value.at.row, o.value.at.col, s.board) then
      Candidates.PossibleMovesOnBoard(o.value.cell.piece, o.value.at.row, o.value.at.col, s.board);
      o
    else None
  }

  /** `movePiece(targetX, targetY, fromX, fromY, forcePiece)`, with `confirm` the answer to
      the promotion question. Nothing happens without a piece or when the target is not
      among its moves. */
  function MoveResult(s: State, target: Square, from: Option<Square>, force: Option<Piece>, confirm: bool): (s': State)
    requires ValidState(s) && (from.Some? ==> OnBoard(from.value))
    ensures ValidState(s')
  {
    var o := MoveOrigin(s, target, from);
    if o.None? then s else MoveApplied(s, o.value.at, o.value.cell.piece, target, force, confirm)
  }

  /** The rest of `movePiece` once the move is legal: a capture reaches the hand before the
      check test, and a move that leaves the mover in check commits nothing else. */
  function MoveApplied(s: State, at: Square, p: Piece, target: Square, force: Option<Piece>, confirm: bool): (s': State)
    requires ValidState(s) && OnBoard(at) && OnBoard(target)
    ensures ValidState(s')
  {
    var captured := s.board[target.row][target.col];
    var after := Moved(s.board, at, target, FinalPiece(p, at.row, target.row, force, confirm, s.vsAI, s.currentPlayer));
    if InCheck(after, s.currentPlayer) then Capture(s, captured)
    else MoveCommitted(s, Capture(s, captured), at, target, after, captured)
  }

  /** `MoveApplied` once the moved board is known: the capture alone when the mover would
      stand in check, the commit otherwise. */
  lemma MoveAppliedBy(s: State, at: Square, p: Piece, target: Square, force: Option<Piece>, confirm: bool, after: Board)
    requires ValidState(s) && OnBoard(at) && OnBoard(target)
    requires after == Moved(s.board, at, target, FinalPiece(p, at.row, target.row, force, confirm, s.vsAI, s.currentPlayer))
    ensures var captured := s.board[target.row][target.col];
      && (InCheck(after, s.currentPlayer) ==> MoveApplied(s, at, p, target, force, confirm) == Capture(s, captured))
      && (!InCheck(after, s.currentPlayer) ==>
            MoveApplied(s, at, p, target, force, confirm) == MoveCommitted(s, Capture(s, captured), at, target, after, captured))
  {
  }

  /** The setters every committed move or drop calls, on top of state `s1`: the history
      is cut at the cursor of the render state `s` and extended by `e`, the cursor moves
      past it, the board becomes `after`, the turn passes and the selection is cleared. */
  function Committed(s: State, s1: State, e: HistoryEntry, after: Board): (s': State)
    requires ValidState(s) && ValidState(s1)
    ensures ValidState(s')
  {
    s1.(history := Record(s, e), undoIndex := s.undoIndex + 1, board := after,
        currentPlayer := Other(s.currentPlayer), selected := None, possibleMoves := [])
  }

  /** The setters of a committed move, `s1` holding the hands after the capture: the
      history entry (whose after-lists append the target string as it stood), then the
      common setters, the last move, and `gameOver` when the render board lacks a king. */
  function MoveCommitted(s: State, s1: State, at: Square, target: Square, after: Board, captured: Cell): (s': State)
    requires ValidState(s) && ValidState(s1)
    ensures ValidState(s')
  {
    var goteAfter := Cells(s.capturedGote) + (if s.currentPlayer == Gote then [ToLower(captured)] else []);
    var senteAfter := Cells(s.capturedSente) + (if s.currentPlayer == Sente then [ToUpper(captured)] else []);
    var last := LastMove(Some(at), target);
    Committed(s, s1, Entry(s, MoveEntry, after, goteAfter, senteAfter, last), after).(
        lastMove := Some(last), gameOver := s1.gameOver || KingMissing(s.board))
  }

  // ---------------------------------------------------------------------------------
  // handleDropCapturedPiece (pages/index.js:864-919)

  /** The string a drop puts on the board: upper case for Gote, lower case for Sente. */
  function DropCell(p: Piece, side: Side): (c: Cell)
    ensures c.Occupied? && c.piece.kind == p.kind && c.piece.promoted == p.promoted
    ensures c.piece.upper == (side == Gote)
  {
    if side == Gote then ToUpper(Occupied(p)) else ToLower(Occupied(p))
  }

  /** `handleDropCapturedPiece(piece, targetX, targetY)`. Nothing happens on an occupied
      square or for a piece not in the mover's hand. */
  function DropResult(s: State, piece: Piece, target: Square): (s': State)
    requires ValidState(s) && OnBoard(target)
    ensures ValidState(s')
  {
    if s.board[target.row][target.col].Occupied? || piece !in Hand(s, s.currentPlayer) then s
    else DropApplied(s, piece, target)
  }

  /** The rest of the drop: the hand loses one copy before the check test; a committed drop
      whose render board lacks a king ends in `resetGame`, whose setters come last. */
  function DropApplied(s: State, piece: Piece, target: Square): (s': State)
    requires ValidState(s) && OnBoard(target) && piece in Hand(s, s.currentPlayer)
    ensures ValidState(s')
  {
    var after := Place(s.board, target.row, target.col, DropCell(piece, s.currentPlayer));
    var s1 := WithHand(s, s.currentPlayer, RemoveFirst(Hand(s, s.currentPlayer), piece));
    if InCheck(after, s.currentPlayer) then s1
    else if KingMissing(s.board) then Reset(s)
    else DropCommitted(s, s1, after, target)
  }

  /** The setters of a committed drop, `s1` holding the new hand. */
  function DropCommitted(s: State, s1: State, after: Board, target: Square): (s': State)
    requires ValidState(s) && ValidState(s1)
    ensures ValidState(s')
  {
    Committed(s, s1, Entry(s, DropEntry, after, Cells(s1.capturedGote), Cells(s1.capturedSente), LastMove(None, target)), after)
  }

  // ---------------------------------------------------------------------------------
  // handleUndo (pages/index.js:1597-1615)

  /** `handleUndo()`: with an entry three back from the cursor, its before-state comes back
      and the cursor moves back three; otherwise nothing changes. */
  function UndoResult(s: State): (s': State)
    requires ValidState(s)
    ensures ValidState(s')
  {
    if s.undoIndex <= 0 || !(0 <= s.undoIndex - 3 < |s.history|) then s
    else
      var e := s.history[s.undoIndex - 3];
      s.(board := e.boardBefore, capturedGote := e.goteBefore, capturedSente := e.senteBefore,
         currentPlayer := e.playerBefore, lastMove := e.lastMoveBefore, openingStep := e.stepBefore,
         matchedOpening := None, undoIndex := s.undoIndex - 3, selected := None, possibleMoves := [])
  }

  // ---------------------------------------------------------------------------------
  // matchOpeningBook (pages/index.js:991-1014) and the book branch of performAIMove
  // (pages/index.js:1016-1071)

  /** A book line's current entry together with its line. */
  datatype BookHit = BookHit(book: Opening, entry: BookMove)

  /** The entry's piece stands on its origin and its target is empty. */
  predicate Playable(b: Board, e: BookMove) {
    OnBoard(e.from) && OnBoard(e.to)
    && b[e.from.row][e.from.col] == Occupied(e.piece) && b[e.to.row][e.to.col] == Empty
  }

  /** Line `o` has an entry at `step` that is playable on `b`. */
  predicate LineMatches(o: Opening, b: Board, step: nat) {
    step < |o.sequence| && Playable(b, o.sequence[step])
  }

  /** The first of `books[k..]` whose entry at `step` is playable. */
  function MatchFrom(books: seq<Opening>, k: nat, b: Board, step: nat): (hit: Option<BookHit>)
    requires k <= |books|
    ensures hit.None? <==> forall i :: k <= i < |books| ==> !LineMatches(books[i], b, step)
    ensures hit.Some? ==> exists i :: k <= i < |books| && LineMatches(books[i], b, step)
                                      && hit.value == BookHit(books[i], books[i].sequence[step])
                                      && forall j :: k <= j < i ==> !LineMatches(books[j], b, step)
    decreases |books| - k
  {
    if k == |books| then None
    else if LineMatches(books[k], b, step) then Some(BookHit(books[k], books[k].sequence[step]))
    else MatchFrom(books, k + 1, b, step)
  }

  /** `matchOpeningBook()`: the first line of the live book whose entry at the current step
      is playable. The history test never rejects, since history entries carry no
      `from`, `to` or `piece`. */
  function BookMatch(b: Board, step: nat): Option<BookHit> {
    MatchFrom(LiveBook(), 0, b, step)
  }

  /** What the book branch of `performAIMove` starts from: the followed line's entry at the
      current step, which throws (and so changes nothing) past the end of the line; or a
      fresh match. */
  datatype BookChoice = Follow(hit: BookHit) | NoEntry | Search

  function BookChoiceOf(s: State): BookChoice {
    if s.matchedOpening.Some? then
      var o := s.matchedOpening.value;
      if s.openingStep < |o.sequence| then Follow(BookHit(o, o.sequence[s.openingStep])) else NoEntry
    else
      var m := BookMatch(s.board, s.openingStep);
      if m.Some? then Follow(m.value) else Search
  }

  /** The book branch of `performAIMove` for Sente: the chosen entry is played with
      `movePiece(to, from, piece)`, and whether or not that commits, the last move, the
      followed line and the step are set. Gote's turn, a finished game, a line past its end
      and a position without a book move leave the state alone (the last goes on to the
      search, which is not part of this function). */
  function BookStepResult(s: State): (s': State)
    requires ValidState(s)
    ensures ValidState(s')
  {
    if s.currentPlayer != Sente || s.gameOver then s
    else match BookChoiceOf(s)
      case Follow(hit) =>
        BookHitWellFormed(s, hit);
        var moved := MoveResult(s, hit.entry.to, Some(hit.entry.from), Some(hit.entry.piece), false);
        moved.(lastMove := Some(LastMove(Some(hit.entry.from), hit.entry.to)),
               matchedOpening := Some(hit.book), openingStep := s.openingStep + 1)
      case _ => s
  }

  /** A chosen book entry comes from a well-formed line, so it lies on the board. */
  lemma BookHitWellFormed(s: State, hit: BookHit)
    requires ValidState(s) && BookChoiceOf(s) == Follow(hit)
    ensures WellFormedLine(hit.book.sequence) && OnBoard(hit.entry.from) && OnBoard(hit.entry.to)
  {
    if s.matchedOpening.None? {
      MatchedEntryInBook(LiveBook(), s.board, s.openingStep);
      LiveBookWellFormed();
    }
  }

  /** A match is a line of the book, at the step asked for. */
  lemma MatchedEntryInBook(books: seq<Opening>, b: Board, step: nat)
    requires MatchFrom(books, 0, b, step).Some?
    ensures var hit := MatchFrom(books, 0, b, step).value;
            hit.book in books && step < |hit.book.sequence| && hit.entry == hit.book.sequence[step]
            && Playable(b, hit.entry)
  {
  }

  // ---------------------------------------------------------------------------------
  // What the handlers promise

  /** Entry `e` holds the state `s` as its before-state. */
  predicate RecordsBefore(e: HistoryEntry, s: State) {
    e.boardBefore == s.board && e.goteBefore == s.capturedGote && e.senteBefore == s.capturedSente
    && e.playerBefore == s.currentPlayer && e.lastMoveBefore == s.lastMove && e.stepBefore == s.openingStep
  }

  /** `s'` is `s` after a committed move or drop: the history up to the cursor is kept, one
      entry recording `s` follows and ends the history (every undone entry is dropped), the
      cursor moves past it, and the turn passes. */
  predicate Commits(s: State, s': State) {
    0 <= s.undoIndex <= |s.history|
    && |s'.history| == s.undoIndex + 1 && s'.undoIndex == s.undoIndex + 1
    && s'.history[..s.undoIndex] == s.history[..s.undoIndex]
    && RecordsBefore(s'.history[s.undoIndex], s)
    && s'.history[s.undoIndex].boardAfter == s'.board
    && s'.currentPlayer == Other(s.currentPlayer) && s'.history[s.undoIndex].playerAfter == s'.currentPlayer
  }

  /** The state a handler leaves when it gives up: the same board, turn and history. */
  predicate KeepsPosition(s: State, s': State) {
    s'.board == s.board && s'.currentPlayer == s.currentPlayer
    && s'.history == s.history && s'.undoIndex == s.undoIndex
  }

  /** `movePiece` ignores a call without a piece to move, and a target that is not among
      the piece's moves. */
  lemma MoveRejectsIllegal(s: State, target: Square, from: Option<Square>, force: Option<Piece>, confirm: bool)
    requires ValidState(s) && (from.Some? ==> OnBoard(from.value))
    requires var o := Origin(s, from);
             o.None? || target !in PossibleMoves(o.value.cell, o.value.at.row, o.value.at.col, s.board)
    ensures MoveResult(s, target, from, force, confirm) == s
  {
  }

  /** A legal move that leaves the mover in check commits nothing — the board, the turn and
      the history stay — yet a piece it would have captured has already joined the
      mover's hand. */
  lemma MoveIntoCheckKeepsCapture(s: State, target: Square, at: Square, force: Option<Piece>, confirm: bool)
    requires ValidState(s) && OnBoard(at)
    requires var b := s.board; var p := b[at.row][at.col];
             target in PossibleMoves(p, at.row, at.col, b)
             && p.Occupied? && OnBoard(target)
             && InCheck(Moved(b, at, target, FinalPiece(p.piece, at.row, target.row, force, confirm, s.vsAI, s.currentPlayer)), s.currentPlayer)
             && b[target.row][target.col].Occupied?
    ensures var s' := MoveResult(s, target, Some(at), force, confirm);
            KeepsPosition(s, s')
            && Hand(s', s.currentPlayer) == Hand(s, s.currentPlayer) + [Taken(s.board[target.row][target.col].piece, s.currentPlayer)]
            && Hand(s', Other(s.currentPlayer)) == Hand(s, Other(s.currentPlayer))
  {
  }

  /** A legal move that does not leave the mover in check empties the origin, puts the
      final piece on the target, moves a captured piece, demoted and in the captured piece's
      own case (lower case in Gote's hand, upper case in Sente's), into the captor's hand,
      commits, and passes the turn. */
  lemma MoveCommits(s: State, target: Square, at: Square, force: Option<Piece>, confirm: bool)
    requires ValidState(s) && OnBoard(at)
    requires var b := s.board; var p := b[at.row][at.col];
             target in PossibleMoves(p, at.row, at.col, b)
             && p.Occupied? && OnBoard(target)
             && !InCheck(Moved(b, at, target, FinalPiece(p.piece, at.row, target.row, force, confirm, s.vsAI, s.currentPlayer)), s.currentPlayer)
    ensures var s' := MoveResult(s, target, Some(at), force, confirm);
            var p := s.board[at.row][at.col].piece;
            var captured := s.board[target.row][target.col];
            Commits(s, s')
            && s'.board[at.row][at.col] == Empty
            && s'.board[target.row][target.col] == FinalPiece(p, at.row, target.row, force, confirm, s.vsAI, s.currentPlayer)
            && (forall i, j :: 0 <= i < 9 && 0 <= j < 9 && Square(i, j) != at && Square(i, j) != target ==>
                  s'.board[i][j] == s.board[i][j])
            && Hand(s', s.currentPlayer) == Hand(s, s.currentPlayer) + (if captured.Occupied? then [Taken(captured.piece, s.currentPlayer)] else [])
            && Hand(s', Other(s.currentPlayer)) == Hand(s, Other(s.currentPlayer))
            && s'.lastMove == Some(LastMove(Some(at), target))
            && (s'.gameOver <==> s.gameOver || KingMissing(s.board))
  {
    assert target != at by {
      PossibleMovesNotOrigin(s.board[at.row][at.col].piece, at, s.board, target);
    }
    var p := s.board[at.row][at.col];
    var captured := s.board[target.row][target.col];
    var final := FinalPiece(p.piece, at.row, target.row, force, confirm, s.vsAI, s.currentPlayer);
    var after := Moved(s.board, at, target, final);
    MovedSquares(s.board, at, target, final);
    MoveResultCommitted(s, target, at, force, confirm);
    MoveCommittedFacts(s, Capture(s, captured), at, target, after, captured);
  }

  /** A legal move that leaves the mover out of check runs the setters of a committed move
      on top of the capture. */
  lemma MoveResultCommitted(s: State, target: Square, at: Square, force: Option<Piece>, confirm: bool)
    requires ValidState(s) && OnBoard(at)
    requires var b := s.board; var p := b[at.row][at.col];
             target in PossibleMoves(p, at.row, at.col, b)
             && p.Occupied? && OnBoard(target)
             && !InCheck(Moved(b, at, target, FinalPiece(p.piece, at.row, target.row, force, confirm, s.vsAI, s.currentPlayer)), s.currentPlayer)
    ensures var p, captured := s.board[at.row][at.col], s.board[target.row][target.col];
            var after := Moved(s.board, at, target, FinalPiece(p.piece, at.row, target.row, force, confirm, s.vsAI, s.currentPlayer));
            MoveResult(s, target, Some(at), force, confirm) == MoveCommitted(s, Capture(s, captured), at, target, after, captured)
  {
  }

  /** A move empties its origin, fills its target and leaves every other square. */
  lemma MovedSquares(b: Board, at: Square, target: Square, final: Cell)
    requires OnBoard(at) && OnBoard(target) && at != target
    ensures var m := Moved(b, at, target, final);
            m[at.row][at.col] == Empty && m[target.row][target.col] == final
            && forall i, j :: 0 <= i < 9 && 0 <= j < 9 && Square(i, j) != at && Square(i, j) != target ==> m[i][j] == b[i][j]
  {
  }

  /** The setters of a committed move commit, install `after`, keep the hands of `s1`, and
      record the move as the last one. */
  lemma MoveCommittedFacts(s: State, s1: State, at: Square, target: Square, after: Board, captured: Cell)
    requires ValidState(s) && ValidState(s1)
    ensures var s' := MoveCommitted(s, s1, at, target, after, captured);
            Commits(s, s') && s'.board == after
            && Hand(s', Gote) == Hand(s1, Gote) && Hand(s', Sente) == Hand(s1, Sente)
            && s'.lastMove == Some(LastMove(Some(at), target))
            && (s'.gameOver <==> s1.gameOver || KingMissing(s.board))
  {
  }

  /** No piece can move onto its own square. */
  lemma PossibleMovesNotOrigin(p: Piece, at: Square, b: Board, target: Square)
    requires OnBoard(at) && b[at.row][at.col] == Occupied(p)
    requires target in PossibleMoves(Occupied(p), at.row, at.col, b)
    ensures target != at
  {
    PossibleMovesSound(p, at.row, at.col, b, target);
  }

  /** Without a forced piece, an unpromoted pawn, lance or knight reaching its last row is
      promoted whatever the answer to the question. */
  lemma MovePromotesOnLastRow(s: State, target: Square, at: Square, confirm: bool)
    requires ValidState(s) && OnBoard(at)
    requires var b := s.board; var p := b[at.row][at.col];
             target in PossibleMoves(p, at.row, at.col, b)
             && p.Occupied? && OnBoard(target) && MustPromote(p.piece, target.row)
             && !InCheck(Moved(b, at, target, Occupied(p.piece.(promoted := true))), s.currentPlayer)
    ensures var s' := MoveResult(s, target, Some(at), None, confirm);
            s'.board[target.row][target.col] == Occupied(s.board[at.row][at.col].piece.(promoted := true))
  {
    Candidates.PossibleMovesOnBoard(s.board[at.row][at.col].piece, at.row, at.col, s.board);
    MoveCommits(s, target, at, None, confirm);
  }

  /** The after-lists of a move's history entry are not the hands the move leaves: Gote's
      list gains the target string as it stood, " " when nothing was captured. */
  lemma MoveAfterListsAsWritten(s: State, target: Square, at: Square, force: Option<Piece>, confirm: bool)
    requires ValidState(s) && OnBoard(at) && s.currentPlayer == Gote
    requires var b := s.board; var p := b[at.row][at.col];
             target in PossibleMoves(p, at.row, at.col, b)
             && p.Occupied? && OnBoard(target) && b[target.row][target.col] == Empty
             && !InCheck(Moved(b, at, target, FinalPiece(p.piece, at.row, target.row, force, confirm, s.vsAI, s.currentPlayer)), s.currentPlayer)
    ensures var s' := MoveResult(s, target, Some(at), force, confirm);
            var e := s'.history[s.undoIndex];
            e.goteAfter == Cells(s.capturedGote) + [Empty]
            && s'.capturedGote == s.capturedGote && e.goteAfter != Cells(s'.capturedGote)
  {
  }

  /** `handleDropCapturedPiece` ignores an occupied target and a piece not in the mover's
      hand. */
  lemma DropRejects(s: State, piece: Piece, target: Square)
    requires ValidState(s) && OnBoard(target)
    requires s.board[target.row][target.col].Occupied? || piece !in Hand(s, s.currentPlayer)
    ensures DropResult(s, piece, target) == s
  {
  }

  /** `s'` has exactly one copy of `piece` fewer in the mover's hand than `s`, and the same
      other hand. */
  predicate TakesOneCopy(s: State, s': State, piece: Piece) {
    var mover := s.currentPlayer;
    multiset(Hand(s', mover)) + multiset{piece} == multiset(Hand(s, mover))
    && |Hand(s', mover)| == |Hand(s, mover)| - 1
    && Hand(s', Other(mover)) == Hand(s, Other(mover))
  }

  /** The board a drop of `piece` on `target` leaves. */
  function DroppedBoard(s: State, piece: Piece, target: Square): Board
    requires OnBoard(target)
  {
    Place(s.board, target.row, target.col, DropCell(piece, s.currentPlayer))
  }

  /** A drop that leaves the mover in check commits nothing, yet the piece has already left
      the hand. */
  lemma DropIntoCheckTakesOneCopy(s: State, piece: Piece, target: Square)
    requires ValidState(s) && OnBoard(target)
    requires s.board[target.row][target.col] == Empty && piece in Hand(s, s.currentPlayer)
    requires InCheck(DroppedBoard(s, piece, target), s.currentPlayer)
    ensures var s' := DropResult(s, piece, target);
            KeepsPosition(s, s') && TakesOneCopy(s, s', piece)
  {
    RemoveFirstCount(Hand(s, s.currentPlayer), piece);
  }

  /** A drop onto an empty square of a piece in hand that leaves the mover out of check
      puts the piece on the target in the mover's case, takes exactly one copy out of the
      hand, and commits. */
  lemma DropCommits(s: State, piece: Piece, target: Square)
    requires ValidState(s) && OnBoard(target)
    requires s.board[target.row][target.col] == Empty && piece in Hand(s, s.currentPlayer)
    requires !InCheck(DroppedBoard(s, piece, target), s.currentPlayer) && !KingMissing(s.board)
    ensures var s' := DropResult(s, piece, target);
            Commits(s, s') && TakesOneCopy(s, s', piece)
            && s'.board == DroppedBoard(s, piece, target)
  {
    RemoveFirstCount(Hand(s, s.currentPlayer), piece);
  }

  /** When the board of the render lacks a king, a committed drop ends in a reset. */
  lemma DropWithoutKingResets(s: State, piece: Piece, target: Square)
    requires ValidState(s) && OnBoard(target)
    requires s.board[target.row][target.col] == Empty && piece in Hand(s, s.currentPlayer)
    requires !InCheck(DroppedBoard(s, piece, target), s.currentPlayer) && KingMissing(s.board)
    ensures DropResult(s, piece, target) == Reset(s)
  {
  }

  /** Removing the first copy of `x` removes one copy. */
  lemma RemoveFirstCount<T>(h: seq<T>, x: T)
    requires x in h
    ensures multiset(RemoveFirst(h, x)) + multiset{x} == multiset(h) && |RemoveFirst(h, x)| == |h| - 1
  {
    var i := IndexOf(h, x);
    assert h == h[..i] + [x] + h[i + 1..];
  }

  /** `handleUndo` needs an entry three back from the cursor. */
  lemma UndoNeedsThree(s: State)
    requires ValidState(s) && s.undoIndex < 3
    ensures UndoResult(s) == s
  {
  }

  /** Undo after three commits in a row brings back the position, hands, turn, last move and
      opening step from before the first of them, and the cursor from then. */
  lemma UndoRevertsThreeCommits(s0: State, s1: State, s2: State, s3: State)
    requires ValidState(s3) && Commits(s0, s1) && Commits(s1, s2) && Commits(s2, s3)
    ensures var u := UndoResult(s3);
            u.board == s0.board && u.capturedGote == s0.capturedGote && u.capturedSente == s0.capturedSente
            && u.currentPlayer == s0.currentPlayer && u.lastMove == s0.lastMove
            && u.openingStep == s0.openingStep && u.undoIndex == s0.undoIndex
  {
    assert s3.history[s0.undoIndex] == s2.history[s0.undoIndex] == s1.history[s0.undoIndex];
  }

  /** `resetGame` forgets everything but whether the AI plays. */
  lemma ResetForgets(s: State, t: State)
    requires s.vsAI == t.vsAI
    ensures Reset(s) == Reset(t)
  {
  }

  /** From the opening render, a reset changes nothing. */
  lemma ResetOfInitial()
    ensures Reset(Initial()) == Initial()
  {
  }

  /** The book branch of `performAIMove` for Sente with a book entry sets the followed line
      and advances the step, whether or not `movePiece` accepted the move. */
  lemma BookStepAdvances(s: State)
    requires ValidState(s) && s.currentPlayer == Sente && !s.gameOver && BookChoiceOf(s).Follow?
    ensures var s' := BookStepResult(s);
            var hit := BookChoiceOf(s).hit;
            s'.openingStep == s.openingStep + 1 && s'.matchedOpening == Some(hit.book)
            && s'.lastMove == Some(LastMove(Some(hit.entry.from), hit.entry.to))
  {
  }

  // ---------------------------------------------------------------------------------
  // The books against the board

  /** Every Sente entry starts on rows 6-8 and every Gote entry on rows 0-2. */
  predicate SidesAsWritten(line: seq<BookMove>) {
    forall i :: 0 <= i < |line| ==> if i % 2 == 0 then line[i].from.row >= 6 else line[i].from.row <= 2
  }

  lemma LiveLinesAsWritten()
    ensures forall o :: o in LiveBook() ==> SidesAsWritten(o.sequence)
  {
    assert SidesAsWritten(LiveYagura());
    assert SidesAsWritten(LiveDoubleWing());
    assert SidesAsWritten(LiveStaticRook());
    assert SidesAsWritten(LiveFourthFileRook());
  }

  /** On the opening board rows 0-2 hold only lower-case pieces and rows 6-8 only upper-case
      ones. */
  lemma InitialRowsByCase(r: int, c: int)
    requires InBounds(r, c)
    ensures r <= 2 ==> IsLowerCell(InitialBoard()[r][c])
    ensures r >= 6 ==> IsUpperCell(InitialBoard()[r][c])
  {
  }

  /** The books put Sente (lower case) on rows 6-8, where the live board starts with Gote's
      upper-case pieces, and Gote on rows 0-2: on the opening board no line of the book
      matches at any step. */
  lemma BookNeverMatchesInitialBoard(step: nat)
    ensures BookMatch(InitialBoard(), step) == None
  {
    LiveBookWellFormed();
    LiveLinesAsWritten();
    forall i | 0 <= i < |LiveBook()|
      ensures !LineMatches(LiveBook()[i], InitialBoard(), step)
    {
      var o := LiveBook()[i];
      assert o in LiveBook();
      if step < |o.sequence| {
        var e := o.sequence[step];
        InitialRowsByCase(e.from.row, e.from.col);
      }
    }
  }

  // ---------------------------------------------------------------------------------
  // isCheckmate, isStalemate and the effect that runs them after each turn
  // (pages/index.js:785-860)

  /** `isCheckmate(player)` on the board of the render: the verdict, and the state its
      setters leave. A mate — in check with no piece able to move out of it — sets
      `gameOver`; otherwise nothing changes. */
  function CheckmateEffect(s: State, side: Side): (r: (bool, State))
    ensures r.0 <==> InCheck(s.board, side) && !exists i, j, t :: Escape(s.board, side, i, j, t)
    ensures r.0 ==> r.1 == s.(gameOver := true)
    ensures !r.0 ==> r.1 == s
  {
    CheckmateSpec(s.board, side);
    if Checkmate(s.board, side) then (true, s.(gameOver := true)) else (false, s)
  }

  /** `isStalemate(player)` on the board of the render: out of check with no own piece
      that has a move, the game is reset; otherwise nothing changes. */
  function StalemateEffect(s: State, side: Side): (r: (bool, State))
    ensures r.0 <==> !InCheck(s.board, side) &&
                     forall i, j :: InBounds(i, j) && OwnCell(s.board[i][j], side) ==> PossibleMoves(s.board[i][j], i, j, s.board) == []
    ensures r.0 ==> r.1 == Reset(s)
    ensures !r.0 ==> r.1 == s
  {
    StalemateSpec(s.board, side);
    if Stalemate(s.board, side) then (true, Reset(s)) else (false, s)
  }

  /** The effect that runs after each change of turn: `isCheckmate(currentPlayer)`, then
      `isStalemate(currentPlayer)` only when there is no mate. */
  function TurnCheck(s: State): (s': State)
  {
    var mate := CheckmateEffect(s, s.currentPlayer);
    if mate.0 then mate.1 else StalemateEffect(s, s.currentPlayer).1
  }

  /** After each turn a mate of the player to move ends the game with the position kept, a
      stalemate resets the game, and any other position is left as it is. */
  lemma TurnCheckOutcomes(s: State)
    ensures var b, side := s.board, s.currentPlayer;
            InCheck(b, side) && (!exists i, j, t :: Escape(b, side, i, j, t)) ==> TurnCheck(s) == s.(gameOver := true)
    ensures var b, side := s.board, s.currentPlayer;
            !InCheck(b, side) && (forall i, j :: InBounds(i, j) && OwnCell(b[i][j], side) ==> PossibleMoves(b[i][j], i, j, b) == [])
            ==> TurnCheck(s) == Reset(s)
    ensures TurnCheck(s) == s || TurnCheck(s) == s.(gameOver := true) || TurnCheck(s) == Reset(s)
    ensures TurnCheck(s).board == s.board || TurnCheck(s).board == InitialBoard()
  {
    var _ := CheckmateEffect(s, s.currentPlayer);
    var _ := StalemateEffect(s, s.currentPlayer);
  }

  /** A mate is reported once: the effect running again on the state it left changes
      nothing more. */
  lemma MateIsStable(s: State)
    requires Checkmate(s.board, s.currentPlayer)
    ensures TurnCheck(TurnCheck(s)) == TurnCheck(s)
    ensures TurnCheck(s).gameOver && KeepsPosition(s, TurnCheck(s))
  {
  }

  // ---------------------------------------------------------------------------------
  // The move `performAIMove` applies once the search is done (pages/index.js:1547-1564)

  /** A candidate whose squares lie on the board, as every candidate the AI's move list
      holds does. */
  predicate OnBoardChoice(c: Candidates.Candidate) {
    OnBoard(c.to) && (c.from.Some? ==> OnBoard(c.from.value))
  }

  /** The timer callback of `performAIMove`, on the state of the render that started the
      search: no choice does nothing; a drop calls `handleDropCapturedPiece` and a move
      calls `movePiece` with the candidate's piece forced onto the target; either way
      `lastMove` is then set to the candidate's squares, the last setter called. */
  function AiStep(s: State, choice: Option<Candidates.Candidate>): (s': State)
    requires ValidState(s) && (choice.Some? ==> OnBoardChoice(choice.value))
    ensures ValidState(s')
    ensures choice.None? ==> s' == s
    ensures choice.Some? ==> s'.lastMove == Some(LastMove(choice.value.from, choice.value.to))
  {
    match choice
    case None => s
    case Some(c) =>
      if c.from.None? then DropResult(s, c.piece, c.to).(lastMove := Some(LastMove(None, c.to)))
      else MoveResult(s, c.to, c.from, Some(c.piece), false).(lastMove := Some(LastMove(c.from, c.to)))
  }

  /** An AI move of a piece to one of its squares that leaves the AI out of check empties
      the origin, puts the candidate's piece — promoted or not as the candidate says — on
      the target, commits and passes the turn. */
  lemma AiMoveCommits(s: State, c: Candidates.Candidate)
    requires ValidState(s) && OnBoardChoice(c) && c.from.Some?
    requires var b, at := s.board, c.from.value;
             b[at.row][at.col].Occupied? && c.to in PossibleMoves(b[at.row][at.col], at.row, at.col, b)
             && !InCheck(Moved(b, at, c.to, Occupied(c.piece)), s.currentPlayer)
    ensures var s', at := AiStep(s, Some(c)), c.from.value;
            Commits(s, s') && s'.board[at.row][at.col] == Empty
            && s'.board[c.to.row][c.to.col] == Occupied(c.piece)
            && (forall i, j :: 0 <= i < 9 && 0 <= j < 9 && Square(i, j) != at && Square(i, j) != c.to ==>
                  s'.board[i][j] == s.board[i][j])
  {
    var at := c.from.value;
    var p := s.board[at.row][at.col].piece;
    var _ := FinalPiece(p, at.row, c.to.row, Some(c.piece), false, s.vsAI, s.currentPlayer);
    MoveCommits(s, c.to, at, Some(c.piece), false);
  }

  /** An AI move to a square its piece cannot reach changes nothing but `lastMove`, which
      then names a move that was never made. */
  lemma AiMoveRejectedSetsLastMove(s: State, c: Candidates.Candidate)
    requires ValidState(s) && OnBoardChoice(c) && c.from.Some?
    requires var b, at := s.board, c.from.value;
             c.to !in PossibleMoves(b[at.row][at.col], at.row, at.col, b)
    ensures AiStep(s, Some(c)) == s.(lastMove := Some(LastMove(c.from, c.to)))
  {
    MoveRejectsIllegal(s, c.to, c.from, Some(c.piece), false);
  }

  /** An AI drop of a piece in hand onto an empty square that leaves the AI out of check
      puts it on the board in the AI's case, takes one copy out of the hand, commits and
      records the drop as the last move. */
  lemma AiDropCommits(s: State, c: Candidates.Candidate)
    requires ValidState(s) && OnBoardChoice(c) && c.from.None?
    requires s.board[c.to.row][c.to.col] == Empty && c.piece in Hand(s, s.currentPlayer)
    requires !InCheck(DroppedBoard(s, c.piece, c.to), s.currentPlayer) && !KingMissing(s.board)
    ensures var s' := AiStep(s, Some(c));
            Commits(s, s') && TakesOneCopy(s, s', c.piece) && s'.board == DroppedBoard(s, c.piece, c.to)
            && s'.lastMove == Some(LastMove(None, c.to))
  {
    DropCommits(s, c.piece, c.to);
  }

  /** When the board of the render lacks a king, an AI drop resets the game, yet the
      `lastMove` set after it survives the reset. */
  lemma AiDropWithoutKingKeepsLastMove(s: State, c: Candidates.Candidate)
    requires ValidState(s) && OnBoardChoice(c) && c.from.None?
    requires s.board[c.to.row][c.to.col] == Empty && c.piece in Hand(s, s.currentPlayer)
    requires !InCheck(DroppedBoard(s, c.piece, c.to), s.currentPlayer) && KingMissing(s.board)
    ensures AiStep(s, Some(c)) == Reset(s).(lastMove := Some(LastMove(None, c.to)))
  {
    DropWithoutKingResets(s, c.piece, c.to);
  }
}
