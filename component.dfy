/** The `ShogiBoard` component of pages/index.js as an object: its state hooks
    (lines 201-215) are fields, and its handlers run step by step, copying the board,
    assigning cells and calling the setters, each proved to leave the state the matching
    function of module `Game` describes. */
module Component {
  import opened Board
  import opened MoveGen
  import opened Rules
  import opened OpeningBook
  import opened Game
  import Candidates

  class ShogiGame {
    var board: Board
    var currentPlayer: Side
    var selected: Option<Selection>
    var possibleMoves: seq<Square>
    var capturedGote: seq<Piece>
    var capturedSente: seq<Piece>
    var history: seq<HistoryEntry>
    var undoIndex: int
    var vsAI: bool
    var gameOver: bool
    var lastMove: Option<LastMove>
    var openingStep: nat
    var matchedOpening: Option<Opening>

    /** The hooks as one value. */
    function Snapshot(): State
      reads this
    {
      State(board, currentPlayer, selected, possibleMoves, capturedGote, capturedSente, history,
            undoIndex, vsAI, gameOver, lastMove, openingStep, matchedOpening)
    }

    ghost predicate Valid()
      reads this
    {
      ValidState(Snapshot())
    }

    /** The first render: every hook at its `useState` value. */
    constructor()
      ensures Valid() && Snapshot() == Initial()
    {
      board := InitialBoard();
      currentPlayer := Gote;
      selected := None;
      possibleMoves := [];
      capturedGote := [];
      capturedSente := [];
      history := [];
      undoIndex := 0;
      vsAI := true;
      gameOver := false;
      lastMove := None;
      openingStep := 0;
      matchedOpening := None;
    }

    /** `isVictory()` on the board of the render: `findKingPosition` for both kings. */
    method IsVictory() returns (victory: bool)
      ensures victory == KingMissing(board)
    {
      var goteKing := FindKingPosition(KingOf(Gote), board);
      if goteKing.None? {
        return true;
      }
      var senteKing := FindKingPosition(KingOf(Sente), board);
      victory := senteKing.None?;
    }

    /** `movePiece(targetX, targetY, fromX, fromY, forcePiece)`; `confirm` answers the
        promotion question. */
    method MovePiece(target: Square, from: Option<Square>, forcePiece: Option<Piece>, confirm: bool)
      requires Valid() && (from.Some? ==> OnBoard(from.value))
      modifies this
      ensures Valid() && Snapshot() == MoveResult(old(Snapshot()), target, from, forcePiece, confirm)
    {
      var origin := FindOrigin(target, from);
      if origin.None? {
        return;
      }
      ApplyMove(origin.value.at, origin.value.cell.piece, target, forcePiece, confirm);
    }

    /** The head of `movePiece`: the piece data from the origin or the selection, and the
        legality test against `getPossibleMoves`. */
    method FindOrigin(target: Square, from: Option<Square>) returns (origin: Option<Selection>)
      requires Valid() && (from.Some? ==> OnBoard(from.value))
      ensures origin == MoveOrigin(Snapshot(), target, from)
    {
      var pieceData: Selection;
      if from.Some? {
        pieceData := Selection(from.value, board[from.value.row][from.value.col]);
      } else if selected.Some? {
        pieceData := selected.value;
      } else {
        return None;
      }
      var legalMoves := GetPossibleMoves(pieceData.cell, pieceData.at.row, pieceData.at.col, board);
      if target !in legalMoves {
        return None;
      }
      return Some(pieceData);
    }

    /** The body of `movePiece` for a legal move of `p` from `at`: copy the board, take the
        capture, clear the origin, settle the promotion, place the piece, test for check,
        and commit. */
    method ApplyMove(at: Square, p: Piece, target: Square, forcePiece: Option<Piece>, confirm: bool)
      requires Valid() && OnBoard(at) && OnBoard(target)
      modifies this
      ensures Valid() && Snapshot() == MoveApplied(old(Snapshot()), at, p, target, forcePiece, confirm)
    {
      var victory := IsVictory();
      var before := Snapshot();
      var updatedBoard := board;
      var captured := updatedBoard[target.row][target.col];
      TakeCapture(captured);
      ghost var taken := Snapshot();
      assert taken == Capture(before, captured) && ValidState(taken);
      assert vsAI == before.vsAI && currentPlayer == before.currentPlayer;
      updatedBoard := Place(updatedBoard, at.row, at.col, Empty);
      var finalPiece := FinalPiece(p, at.row, target.row, forcePiece, confirm, vsAI, currentPlayer);
      updatedBoard := Place(updatedBoard, target.row, target.col, finalPiece);
      assert updatedBoard == Moved(before.board, at, target, finalPiece);
      var inCheck := IsInCheck(currentPlayer, updatedBoard);
      MoveAppliedBy(before, at, p, target, forcePiece, confirm, updatedBoard);
      if inCheck {
        return;
      }
      CommitMove(before, at, target, updatedBoard, captured, victory);
    }

    /** The capture of `movePiece`: the target string, `+` removed, joins the mover's hand
        in the captured piece's own case (lower case in Gote's hand, upper case in
        Sente's). */
    method TakeCapture(captured: Cell)
      modifies this
      ensures Snapshot() == Capture(old(Snapshot()), captured)
    {
      if captured.Occupied? {
        if currentPlayer == Gote {
          capturedGote := capturedGote + [Taken(captured.piece, Gote)];
        } else {
          capturedSente := capturedSente + [Taken(captured.piece, Sente)];
        }
      }
    }

    /** The setters of a committed move, `before` being the render's state. */
    method CommitMove(before: State, at: Square, target: Square, after: Board, captured: Cell, victory: bool)
      requires ValidState(before) && Valid() && victory == KingMissing(before.board)
      modifies this
      ensures Snapshot() == MoveCommitted(before, old(Snapshot()), at, target, after, captured)
    {
      var goteAfter := Cells(before.capturedGote) + (if before.currentPlayer == Gote then [ToLower(captured)] else []);
      var senteAfter := Cells(before.capturedSente) + (if before.currentPlayer == Sente then [ToUpper(captured)] else []);
      var last := LastMove(Some(at), target);
      Commit(before, Entry(before, MoveEntry, after, goteAfter, senteAfter, last), after);
      lastMove := Some(last);
      if victory {
        gameOver := true;
      }
    }

    /** The setters of every committed move or drop: `setMoveHistory`, `setUndoIndex`,
        `setBoard`, `setCurrentPlayer`, `setSelectedPiece(null)`, `setPossibleMoves([])`. */
    method Commit(before: State, entry: HistoryEntry, after: Board)
      requires ValidState(before) && Valid()
      modifies this
      ensures Snapshot() == Committed(before, old(Snapshot()), entry, after)
    {
      history := before.history[..before.undoIndex] + [entry];
      undoIndex := before.undoIndex + 1;
      board := after;
      currentPlayer := Other(before.currentPlayer);
      selected := None;
      possibleMoves := [];
    }

    /** `handleDropCapturedPiece(piece, targetX, targetY)`. */
    method HandleDropCapturedPiece(piece: Piece, target: Square)
      requires Valid() && OnBoard(target)
      modifies this
      ensures Valid() && Snapshot() == DropResult(old(Snapshot()), piece, target)
    {
      if board[target.row][target.col] != Empty {
        return;
      }
      var playerCaps := if currentPlayer == Gote then capturedGote else capturedSente;
      if piece !in playerCaps {
        return;
      }
      ApplyDrop(piece, target);
    }

    /** The body of the drop: place the piece in the mover's case, take one copy out of the
        hand, test for check, commit, and reset when the render board lacks a king. */
    method ApplyDrop(piece: Piece, target: Square)
      requires Valid() && OnBoard(target) && piece in Hand(Snapshot(), currentPlayer)
      modifies this
      ensures Valid() && Snapshot() == DropApplied(old(Snapshot()), piece, target)
    {
      var victory := IsVictory();
      var before := Snapshot();
      var updatedBoard := Place(board, target.row, target.col,
                                if currentPlayer == Gote then ToUpper(Occupied(piece)) else ToLower(Occupied(piece)));
      TakeFromHand(piece);
      var inCheck := IsInCheck(currentPlayer, updatedBoard);
      if inCheck {
        return;
      }
      Commit(before, Entry(before, DropEntry, updatedBoard, Cells(capturedGote), Cells(capturedSente),
                           LastMove(None, target)), updatedBoard);
      if victory {
        gameOver := true;
        ResetGame();
      }
    }

    /** `newCaps.splice(newCaps.indexOf(piece), 1)` on a copy of the mover's hand, then its
        setter. */
    method TakeFromHand(piece: Piece)
      requires piece in Hand(Snapshot(), currentPlayer)
      modifies this
      ensures Snapshot() == WithHand(old(Snapshot()), old(currentPlayer), RemoveFirst(Hand(old(Snapshot()), old(currentPlayer)), piece))
    {
      var newCaps := if currentPlayer == Gote then capturedGote else capturedSente;
      var i := IndexOf(newCaps, piece);
      newCaps := newCaps[..i] + newCaps[i + 1..];
      if currentPlayer == Gote {
        capturedGote := newCaps;
      } else {
        capturedSente := newCaps;
      }
    }

    /** `handleUndo()`. */
    method HandleUndo()
      requires Valid()
      modifies this
      ensures Valid() && Snapshot() == UndoResult(old(Snapshot()))
    {
      if undoIndex <= 0 || !(0 <= undoIndex - 3 < |history|) {
        return;
      }
      var entry := history[undoIndex - 3];
      board := entry.boardBefore;
      capturedGote := entry.goteBefore;
      capturedSente := entry.senteBefore;
      currentPlayer := entry.playerBefore;
      lastMove := entry.lastMoveBefore;
      openingStep := entry.stepBefore;
      matchedOpening := None;
      undoIndex := undoIndex - 3;
      selected := None;
      possibleMoves := [];
    }

    /** `resetGame()`. */
    method ResetGame()
      modifies this
      ensures Valid() && Snapshot() == Reset(old(Snapshot()))
    {
      gameOver := false;
      board := InitialBoard();
      currentPlayer := Gote;
      selected := None;
      possibleMoves := [];
      capturedGote := [];
      capturedSente := [];
      history := [];
      undoIndex := 0;
      lastMove := None;
      matchedOpening := None;
      openingStep := 0;
    }

    /** `matchOpeningBook()`: the loop over the lines of the book. */
    method MatchOpeningBook() returns (hit: Option<BookHit>)
      ensures hit == BookMatch(board, openingStep)
    {
      var books := LiveBook();
      LiveBookWellFormed();
      for k := 0 to |books|
        invariant MatchFrom(books, k, board, openingStep) == BookMatch(board, openingStep)
      {
        var step := openingStep;
        if step < |books[k].sequence| {
          var entry := books[k].sequence[step];
          assert books[k] in books;
          if board[entry.from.row][entry.from.col] == Occupied(entry.piece) && board[entry.to.row][entry.to.col] == Empty {
            return Some(BookHit(books[k], entry));
          }
        }
      }
      return None;
    }

    /** The book branch of `performAIMove`: returns whether the search runs next. */
    method PlayBookMove() returns (searchNext: bool)
      requires Valid()
      modifies this
      ensures Valid() && Snapshot() == BookStepResult(old(Snapshot()))
      ensures searchNext <==> old(currentPlayer == Sente && !gameOver && BookChoiceOf(Snapshot()) == Search)
    {
      if currentPlayer != Sente || gameOver {
        return false;
      }
      var choice := ChooseBookMove();
      match choice
      case Search =>
        return true;
      case NoEntry =>
        return false;
      case Follow(hit) =>
        BookHitWellFormed(Snapshot(), hit);
        PlayBookHit(hit);
        return false;
    }

    /** `matchedOpening ? { book, entry: sequence[openingStep] } : matchOpeningBook()`. */
    method ChooseBookMove() returns (choice: BookChoice)
      ensures choice == BookChoiceOf(Snapshot())
    {
      if matchedOpening.Some? {
        var o := matchedOpening.value;
        if openingStep >= |o.sequence| {
          return NoEntry;
        }
        return Follow(BookHit(o, o.sequence[openingStep]));
      }
      var m := MatchOpeningBook();
      if m.None? {
        return Search;
      }
      return Follow(m.value);
    }

    /** `movePiece(to, from, piece)`, then `setLastMove`, `setMatchedOpening` and
        `setOpeningStep(openingStep + 1)`. */
    method PlayBookHit(hit: BookHit)
      requires Valid() && WellFormedLine(hit.book.sequence) && OnBoard(hit.entry.from) && OnBoard(hit.entry.to)
      modifies this
      ensures Valid()
      ensures Snapshot() == MoveResult(old(Snapshot()), hit.entry.to, Some(hit.entry.from), Some(hit.entry.piece), false).(
                lastMove := Some(LastMove(Some(hit.entry.from), hit.entry.to)),
                matchedOpening := Some(hit.book), openingStep := old(openingStep) + 1)
    {
      var step := openingStep;
      MovePiece(hit.entry.to, Some(hit.entry.from), Some(hit.entry.piece), false);
      lastMove := Some(LastMove(Some(hit.entry.from), hit.entry.to));
      matchedOpening := Some(hit.book);
      openingStep := step + 1;
    }

    /** `isCheckmate(player)`: the scan over the render's board, then `setGameOver(true)`
        on a mate. */
    method IsCheckmate(side: Side) returns (mate: bool)
      requires Valid()
      modifies this
      ensures Valid() && (mate, Snapshot()) == CheckmateEffect(old(Snapshot()), side)
    {
      mate := Rules.IsCheckmate(side, board);
      if mate {
        gameOver := true;
      }
    }

    /** `isStalemate(player)`: the scan over the render's board, then `resetGame()` on a
        stalemate. */
    method IsStalemate(side: Side) returns (stale: bool)
      requires Valid()
      modifies this
      ensures Valid() && (stale, Snapshot()) == StalemateEffect(old(Snapshot()), side)
    {
      stale := Rules.IsStalemate(side, board);
      if stale {
        ResetGame();
      }
    }

    /** The effect after each turn: `isCheckmate(currentPlayer) || isStalemate(currentPlayer)`. */
    method CheckAfterTurn()
      requires Valid()
      modifies this
      ensures Valid() && Snapshot() == TurnCheck(old(Snapshot()))
    {
      var mate := IsCheckmate(currentPlayer);
      if !mate {
        var stale := IsStalemate(currentPlayer);
      }
    }

    /** The timer callback of `performAIMove`: apply the chosen drop or move, then
        `setLastMove`. */
    method PlayAiChoice(choice: Option<Candidates.Candidate>)
      requires Valid() && (choice.Some? ==> OnBoardChoice(choice.value))
      modifies this
      ensures Valid() && Snapshot() == AiStep(old(Snapshot()), choice)
    {
      if choice.None? {
        return;
      }
      var c := choice.value;
      if c.from.None? {
        HandleDropCapturedPiece(c.piece, c.to);
        lastMove := Some(LastMove(None, c.to));
      } else {
        MovePiece(c.to, c.from, Some(c.piece), false);
        lastMove := Some(LastMove(c.from, c.to));
      }
    }
  }
}
