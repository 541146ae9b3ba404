# Shogi engine — a Dafny model

This project models the rules engine and the shallow search of a browser Shogi game:
- the live `ShogiBoard` component of `pages/index.js`;
- the older engine `lib/game.js`;
- the opening book and move hash of `lib/openingBook.js`.

Pieces are one-character strings. A trailing `+` marks a promoted piece, and the letter case marks the owner. The model writes a string as `Cell = Empty | Occupied(Piece(kind, upper, promoted))`. A board is a 9×9 sequence of cells (module `Board`).

The live engine indexes `board[row][col]`. Upper case is Gote, which moves toward row 0; lower case is Sente, which moves toward row 8. It has:
- a per-piece move generator (`MoveGen`);
- the promotion, check, checkmate, stalemate and drop rules (`Rules`);
- the handlers that move, drop, undo, reset and follow the opening book, modelled twice:
  - as functions on a `State` value (`Game`);
  - as the methods of a class `ShogiGame` whose fields are the React state hooks (`Component`). Each method is proved to leave exactly the state the matching `Game` function describes;
- the AI:
  - the static evaluation (`Evaluation`);
  - the candidate generator with its stable sort (`Candidates`, `Sorting`);
  - the depth-2 alpha-beta search and its fallback ranking (`AlphaBeta`, `Search`);
- the captured-piece display (`Hands`).

A React handler reads the values of the render that created it. Its setters take effect after it returns, and when one hook is set twice the last call wins. The `Game` functions follow these rules.

`lib/game.js` indexes `board[y][x]`. Its `'player'` owns the upper-case pieces. Its board, side to move and capture lists are module-level variables that its functions change in place. They are the fields of the class `Draft.DraftGame`, and a call that can throw returns `Outcome = Returned(v) | Threw`.

`OpeningBook` holds both copies of the book and both versions of `hashMove`.

Where the behaviour of the code differs from what its comments and design describe, the model follows the code. The cases are:
- `isValidDrop` hands `isCheckmate` a simulated board, but `isCheckmate` reads the component board (pages/index.js:966, 785-802). `Rules.ValidDrop` carries both boards.
- `isStalemate` counts moves without a self-check filter (pages/index.js:842-843).
- `minimax` reads `.score` from the plain number a depth-1 call returns, so every root evaluation is NaN and the root plays the first sorted candidate (`Search.RootChoosesFirst`, `Search.AiPlaysFirstCandidate`).
- `matchOpeningBook`'s already-played test never fires, because history entries have no `from`/`to`/`piece` fields (pages/index.js:1004-1006, 620-628).
- The books put Sente (lower case) on rows 6-8. The live board starts with Gote there, so the book never matches the opening position (`Game.BookNeverMatchesInitialBoard`).
- `movePiece` updates the capture list before its self-check test. A move rejected for check still grows the mover's hand (`Game.MoveIntoCheckKeepsCapture`).
- A move's history after-lists keep the `+` of a captured piece and append `" "` when nothing was captured (`Game.MoveAfterListsAsWritten`).
- `isVictory` reads the board of the render, i.e. before the move. A drop that finds a king missing ends in `resetGame` (`Game.DropWithoutKingResets`).
- `handleUndo` steps back three entries (`Game.UndoRevertsThreeCommits`).
- In `lib/game.js`, `isOpponentPiece` is inverted and `isValidMove` throws for every non-sliding piece. So `isKingInCheck` never answers false (`Draft.KingInCheckNeverFalse`), and two consequences follow:
  - `movePiece` never completes a move (`Draft.MoveNeverCommits`);
  - a pawn drop that passes the nifu test always throws, leaving the pawn on the board (`Draft.PawnDropThrows`). The probe resets the square only on the paths that return.
- `capturePiece` gives the piece to the seat not to move.
- `isValidKnightMove` sends `"n"` toward row 0, against the lower-case pawn's direction.
- `isValidLineMove` does not check a lance's direction (`Draft.LanceMovesBackward`).
- `generateAllMoves` gives its 200 "front" bonus for capturing an upper-case piece on row `x - 1`, which is directly behind a Sente piece, since Sente moves toward row 8. The comments at pages/index.js:1164 and 1179 say "directly forward" and "immediately ahead" (pages/index.js:1181-1190, `Candidates.FrontBonus`).

## Model

| member | source | states |
|---|---|---|
| Board.Place | pages/index.js:617 | the copied board with one cell assigned differs from the original exactly at that cell |
| MoveGen.HandleSlidingMove | pages/index.js:467-484 | the loop appends exactly the slide in one direction: empty squares up to the first occupied one, that one only when capturable |
| MoveGen.SlideAll | pages/index.js:497 | `forEach` over the directions appends the slides of every direction, in order |
| MoveGen.AddJumps | pages/index.js:583-589 | the single-step loop appends exactly the on-board, empty-or-enemy steps of its offsets, in offset order |
| MoveGen.GetPossibleMoves | pages/index.js:282-594 | the switch over the piece computes `PossibleMoves`, branch by branch, including the promoted lance/knight/pawn fall-through to the gold table |
| MoveGen.JumpsMembers | pages/index.js:581-591 | a square is a generated single step iff some offset reaches it and it is on the board and empty or enemy |
| MoveGen.SlideStopsAtFirstOccupied | pages/index.js:467-484 | a slide starts next to the piece and advances one step per square; every square is empty or enemy and all but the last are empty; it ends on a capture, at the edge or before an own piece |
| MoveGen.SlideDirection | pages/index.js:467-484 | every slide square lies strictly beyond the start in the slide's direction |
| MoveGen.SlideSound | pages/index.js:467-484 | every slide square is on the board and empty or enemy |
| MoveGen.SlidesMember | pages/index.js:497 | a square of several slides belongs to the slide of one listed direction |
| MoveGen.PossibleMovesSound | pages/index.js:448-591 | every generated square is on the board and is empty or holds a piece of the other case |
| MoveGen.TableBranch | pages/index.js:581-591 | silver, gold, king and promoted pawn/lance/knight/silver use the oriented table as single steps |
| MoveGen.OrientedTable | pages/index.js:282-446 | an oriented table offset is exactly a step the piece's kind allows (gold six, silver five, king eight) |
| MoveGen.TableMoves | pages/index.js:581-591 | table pieces reach exactly the reachable single steps their kind allows |
| MoveGen.PawnMoves | pages/index.js:571-579 | an unpromoted pawn reaches exactly the square one row forward in its column, if reachable |
| MoveGen.KnightMoves | pages/index.js:549-569 | an unpromoted knight reaches exactly (row±2 forward, col±1) when reachable |
| MoveGen.ColumnSlide | pages/index.js:467-484 | a vertical slide reaches exactly the squares of its column ahead with a clear path, the last one capturable |
| MoveGen.LanceMoves | pages/index.js:541-547 | an unpromoted lance reaches exactly the column squares ahead through empty squares, stopping on an enemy |
| MoveGen.RookMoves | pages/index.js:488-513 | a rook's off-line targets exist only for a promoted rook and are diagonal neighbours |
| MoveGen.RookDiagonals | pages/index.js:498-512 | a diagonal neighbour is a target iff the rook is promoted and the square is reachable |
| MoveGen.BishopMoves | pages/index.js:515-539 | a bishop's same-row/column targets exist only for a promoted bishop and are orthogonal neighbours |
| MoveGen.BishopOrthogonals | pages/index.js:524-538 | an orthogonal neighbour is a target iff the bishop is promoted and the square is reachable |
| MoveGen.BishopStepsInOrder | pages/index.js:525-538 | the promoted bishop's single steps are tried right, left, down, up, each kept iff reachable |
| MoveGen.BishopStepOrder | pages/index.js:515-539 | with no diagonal square reachable, a promoted bishop's list is exactly its reachable steps right, left, down, up, in that order |
| Rules.ShouldPromote | pages/index.js:703-718 | false for promoted pieces, kings and golds; true for pawn/lance/knight reaching the owner's last row |
| Rules.ShouldPromoteIsZone | pages/index.js:703-718 | otherwise true exactly when origin or destination row is in the owner's three-row zone |
| Rules.FindKingFromSpec | pages/index.js:753-762 | the row-major scan from (i, j) returns the first square holding the king, or none when no later square does |
| Rules.FindKingSpec | pages/index.js:753-762 | `findKingPosition` is none iff the king string is absent, else the first square in row-major order holding it |
| Rules.FindKingPosition | pages/index.js:753-762 | the nested loops with early return compute `FindKing` |
| Rules.AttackedFromScan | pages/index.js:733-748 | the attack scan from (i, j) is the generic row-major "any" scan over attacking cells |
| Rules.AttackedSpec | pages/index.js:733-748 | the scan finds an attacker iff some cell of the other side generates the king square |
| Rules.IsInCheck | pages/index.js:721-750 | the loops with the labelled break compute `InCheck` |
| Rules.InCheckSpec | pages/index.js:721-750 | in check iff the king is absent or some opposing piece's generated squares include the king square |
| Rules.EscapeAmongScan | pages/index.js:797-817 | the loop over one piece's moves finds an escape iff some generated move leaves the side out of check |
| Rules.EscapeFromScan | pages/index.js:790-822 | the board loop of `isCheckmate` is the generic "any" scan over cells with an escape |
| Rules.IsCheckmate | pages/index.js:785-826 | the loops compute `Checkmate`, which is false whenever the side is not in check |
| Rules.EscaperAtSound | pages/index.js:797-817 | a cell the scan accepts has an escaping move |
| Rules.EscaperAtComplete | pages/index.js:797-817 | a cell with an escaping move is accepted by the scan |
| Rules.EscaperAtSpec | pages/index.js:797-817 | both directions of the above |
| Rules.CheckmateSpec | pages/index.js:785-826 | checkmate iff in check and no generated board move of the side gets out of check |
| Rules.IdleFromScan | pages/index.js:833-848 | the stalemate loops are the generic "all" scan over cells without moves |
| Rules.IsStalemate | pages/index.js:829-853 | the loops compute `Stalemate`, which is false whenever the side is in check |
| Rules.StalemateSpec | pages/index.js:829-853 | stalemate iff not in check and no piece of the side generates any square, with no self-check filter |
| Rules.IsValidPawnDrop | pages/index.js:928-951 | the column loop and row test compute `PawnDropAllowed`: no own unpromoted pawn in the column, not the last row |
| Rules.IsValidDrop | pages/index.js:954-972 | computes `ValidDrop`: for a pawn, no own unpromoted pawn in the column and not the last row, and the opponent not already mated on the component board; for every piece, no self-check after the drop. The target square is not examined (the empty-square test belongs to `getDropLocations`) |
| Rules.DropsBeforeScan | pages/index.js:974-984 | the drop squares before (i, j) are the generic row-major gather over valid empty squares |
| Rules.GetDropLocations | pages/index.js:974-984 | the nested loops compute `DropLocations` |
| Rules.DropsInRow | pages/index.js:976-982 | one inner-loop pass appends the valid drop squares of one row |
| Rules.DropLocationsMembers | pages/index.js:974-984 | a square is listed iff it is on the board, empty and passes `isValidDrop` |
| Rules.DropLocationsOrdered | pages/index.js:974-984 | the squares are listed in strictly increasing row-major order |
| Rules.PawnDropRules | pages/index.js:928-972 | after an accepted pawn drop the column holds exactly one own pawn, the row is not the last, the opponent is not mated on the component board and the dropper is not in check |
| Sorting.WithKeyAppend | pages/index.js:1307-1323 | the elements of one key in a concatenation are those of each part, in order |
| Sorting.InsertPerm | pages/index.js:1307-1323 | inserting adds exactly one element to the multiset |
| Sorting.InsertSorted | pages/index.js:1307-1323 | inserting into a descending sequence keeps it descending |
| Sorting.InsertWithKey | pages/index.js:1307-1323 | an inserted element goes after every element with its key |
| Sorting.StableSortSorted | pages/index.js:1307-1323 | `Array.prototype.sort` with this comparator returns a permutation of its input, largest key first |
| Sorting.StableSortStable | pages/index.js:1307-1323 | elements with equal keys keep their input order |
| Sorting.StableSortHead | pages/index.js:1507 | the head of a sorted non-empty list is an input element no other element outranks |
| Evaluation.AiValue | pages/index.js:1020-1049 | an unpromoted piece is worth its base value, a promoted one at least as much |
| Evaluation.CapturedValue | pages/index.js:1311-1317 | a captured-piece value is zero exactly for the empty cell |
| Evaluation.DefendersBefore | pages/index.js:1116-1127 | the first n offsets contribute at most n defenders |
| Evaluation.CountDefenders | pages/index.js:1115-1128 | the nested dx/dy loops compute `Defenders` |
| Evaluation.CountDefendersInRow | pages/index.js:1117-1126 | one inner-loop pass adds the defenders of one column offset |
| Evaluation.EvaluatePosition | pages/index.js:1083-1161 | the board loops and check terms compute `Evaluate` |
| Evaluation.EvaluateRow | pages/index.js:1095-1138 | one inner-loop pass adds the terms of one row |
| Evaluation.MaterialBeforeAntisymmetric | pages/index.js:1137 | each partial material sum for Gote is the negation of Sente's |
| Evaluation.EvaluateZeroSum | pages/index.js:1137-1144 | the material term is zero-sum between the two sides; only the check terms differ |
| Evaluation.DefendersIncludeKing | pages/index.js:1116-1128 | a king counts itself: between 1 and 9 defenders |
| Evaluation.DefendersMonotone | pages/index.js:1116-1127 | the defenders count grows with the number of offsets visited |
| Candidates.PossibleMovesOnBoard | pages/index.js:1177-1178 | every generated target is on the board |
| Candidates.GenerateAllMoves | pages/index.js:1165-1327 | the loops, drops and sort compute `AllMoves` |
| Candidates.HandCandidates | pages/index.js:1266-1300 | the loop over `capturedSente` appends each hand entry's drops in hand order |
| Candidates.CandidatesInRow | pages/index.js:1169-1262 | one inner-loop pass appends the candidates of one row's cells |
| Candidates.PieceCandidates | pages/index.js:1177-1257 | the loop over one piece's targets appends each target's candidates |
| Candidates.TargetMoves | pages/index.js:1179-1256 | one target yields the plain move, then the promoted move when promotion applies, each kept only when the mover is not in check after it |
| Candidates.DropCandidates | pages/index.js:1269-1298 | the loop over drop squares appends each drop kept out of check |
| Candidates.DropOn | pages/index.js:1271-1287 | one drop square yields the drop (lower-case piece on a copied board, bonus 300 plus ten per step towards the centre) exactly when Sente is not in check after it |
| Candidates.TargetSound | pages/index.js:1179-1256 | a target's candidate is a legal move of that piece |
| Candidates.CellCandidateSound | pages/index.js:1169-1257 | a candidate a cell contributes is a legal move of its piece |
| Candidates.BoardSound | pages/index.js:1168-1263 | every board candidate is a legal move of the player |
| Candidates.DropSound | pages/index.js:1269-1298 | a drop candidate is a legal Sente drop |
| Candidates.HandEntrySound | pages/index.js:1267-1300 | a hand entry's candidates are legal drops of that entry |
| Candidates.HandSound | pages/index.js:1266-1300 | every hand candidate is a legal Sente drop |
| Candidates.MoveInList | pages/index.js:1168-1263 | every legal move of the player is in the raw list |
| Candidates.DropInList | pages/index.js:1266-1300 | every legal Sente drop is in the raw list |
| Candidates.AllMovesSpec | pages/index.js:1165-1327 | the list holds exactly the legal moves and legal Sente drops that leave the mover out of check |
| Candidates.AllMovesOrder | pages/index.js:1307-1323 | the list is the raw list sorted by front bonus, captured value and drop bonus, descending and stable |
| Candidates.DropsNeverSelfCheck | pages/index.js:1276-1277 | a drop on a square `getDropLocations` returns never leaves Sente in check |
| AlphaBeta.Max | pages/index.js:1395 | `Math.max` is NaN iff an argument is, else the larger argument |
| AlphaBeta.Min | pages/index.js:1451 | `Math.min` is NaN iff an argument is, else the smaller argument |
| AlphaBeta.AddHalf | pages/index.js:1369-1372 | adding `bonus * 0.5` keeps NaN and adds half an even bonus to a number |
| AlphaBeta.WalkFindsMove | pages/index.js:1351-1396 | a loop with a move to visit ends with a chosen move from the list |
| AlphaBeta.WalkKeepsFirst | pages/index.js:1383-1396 | when every evaluation is NaN the first visited move is kept |
| AlphaBeta.WalkExtreme | pages/index.js:1351-1396 | in an open window with numeric evaluations the loop ends with the best value and a move that attains it |
| Search.Search | pages/index.js:1329-1470 | `minimax` computes the recursive `Minimax` function |
| Search.MoveLoop | pages/index.js:1349-1467 | the move loop with early cut-off computes the `Walk` of its window |
| Search.Visit | pages/index.js:1383-1396 | one loop pass takes the move when first or better and updates alpha/beta |
| Search.EvaluateMove | pages/index.js:1357-1372 | one move's evaluation is the child's `.score` above depth 1, the static value at depth 1, plus the root bonuses |
| Search.NoCandidates | pages/index.js:1336-1345 | without candidates the search returns the static evaluation, with a null move at the root |
| Search.ShallowScoreUndefined | pages/index.js:1358-1364 | below the root the reply is a plain number, whose `.score` is NaN |
| Search.RootChoosesFirst | pages/index.js:1349-1408 | with candidates the root returns the first sorted candidate with score NaN |
| Search.DepthOneIsBestLeaf | pages/index.js:1349-1467 | a depth-1 search in the root's windows returns the best static leaf value |
| Search.LeafWalk | pages/index.js:1351-1396 | the depth-1 loop over a non-empty list ends with its best leaf value |
| Search.ExposureBefore | pages/index.js:1518-1529 | the exposure sum is non-negative |
| Search.ThreatBefore | pages/index.js:1531-1541 | the threat sum is non-negative |
| Search.Tagged | pages/index.js:1543 | every element is paired with its own score, in order |
| Search.FallbackPickIsBest | pages/index.js:1487-1545 | the fallback picks a candidate no other candidate outscores |
| Search.AiPlaysFirstCandidate | pages/index.js:1472-1546 | the AI plays the first sorted candidate, and nothing without candidates |
| Search.ChooseAiMove | pages/index.js:1472-1546 | the root call, with the fallback when it has no move, computes `AiChoice` |
| Search.RankFallback | pages/index.js:1486-1545 | scoring, sorting and taking the head computes `FallbackPick` |
| Search.ScoreAll | pages/index.js:1491-1543 | the scoring loop pairs every candidate with its fallback score |
| Search.ScoreFallback | pages/index.js:1492-1542 | one candidate's fallback score: capture, check, promotion, advance, centre, exposure and threats |
| Search.Threats | pages/index.js:1531-1541 | the attacked-squares loop computes the threat sum |
| Search.Exposure | pages/index.js:1518-1529 | the board loop computes the exposure sum |
| OpeningBook.LibBookWellFormed | lib/openingBook.js:5-44 | every coordinate of both lines is in 0..8, every piece unpromoted, and the lines alternate lower case and upper case starting with lower case |
| OpeningBook.LiveBookWellFormed | pages/index.js:8-55 | every coordinate of the live book's four lines is in 0..8, every piece unpromoted, and the lines alternate lower case and upper case starting with lower case |
| OpeningBook.YaguraWellFormed | pages/index.js:10-22 | the live Yagura line is well formed |
| OpeningBook.DoubleWingWellFormed | pages/index.js:24-33 | the live Double Wing line is well formed |
| OpeningBook.FourthFileRookWellFormed | pages/index.js:46-54 | the live Fourth File Rook line is well formed |
| OpeningBook.LiveBookExtendsLibBook | pages/index.js:8-33 | the live book is the lib book's two lines, entry for entry, plus two more |
| OpeningBook.Digits | lib/openingBook.js:48 | a number prints with at least one digit, a single digit below 10 |
| OpeningBook.NumberText | lib/openingBook.js:48 | an integer prints as a non-empty string |
| OpeningBook.HashMove | lib/openingBook.js:47-49 | the hash ends with the piece; on the board it is exactly four digit characters then the piece |
| OpeningBook.LiveHashMove | pages/index.js:58-61 | the live hash is empty iff `from`, `to` or the piece is missing, else the lib hash |
| OpeningBook.HashInjective | lib/openingBook.js:46-49 | on-board moves with equal hashes have equal origin, target and piece |
| OpeningBook.HashCollidesOffBoard | lib/openingBook.js:48 | off the board two different origins give the same hash |
| Game.Reset | pages/index.js:1639-1657 | board, turn, history, cursor and both hands return to their opening values; `vsAI` is kept |
| Game.Initial | pages/index.js:201-215 | the first render's hooks: opening board, Gote to move, AI on |
| Game.Taken | pages/index.js:631-638 | a captured piece loses its promotion and keeps the captured side's own case: lower case in Gote's hand, upper case in Sente's |
| Game.IndexOf | pages/index.js:888 | `indexOf` is -1 iff absent, else the first position holding the element |
| Game.FinalPiece | pages/index.js:645-667 | a forced piece wins; pawn/lance/knight on the last row promote; no promotion outside the zone or for Sente against the AI; only the promotion flag changes |
| Game.Capture | pages/index.js:631-638 | an empty target changes nothing; otherwise the mover's hand gains the piece, demoted, in the captured piece's own case (lower case in Gote's hand, upper case in Sente's) |
| Game.MoveOrigin | pages/index.js:604-615 | the piece data comes from the origin or the selection, is occupied and has the target among its generated moves |
| Game.MoveResult | pages/index.js:597-701 | `movePiece` keeps the cursor within the history, the selection on the board and a followed line well formed |
| Game.MoveApplied | pages/index.js:617-669 | a legal move keeps the same state invariant (cursor, selection, followed line) |
| Game.Committed | pages/index.js:685-694 | the shared setters keep the cursor within the history, the selection on the board and a followed line well formed |
| Game.MoveCommitted | pages/index.js:671-700 | a committed move keeps the same state invariant |
| Game.DropCell | pages/index.js:883-884 | a dropped piece keeps kind and promotion and takes the mover's case |
| Game.DropResult | pages/index.js:863-926 | the drop handler keeps the same state invariant |
| Game.DropApplied | pages/index.js:881-925 | a drop onto an empty square with the piece in hand keeps the same state invariant |
| Game.DropCommitted | pages/index.js:898-919 | a committed drop keeps the same state invariant |
| Game.UndoResult | pages/index.js:1597-1615 | `handleUndo` keeps the same state invariant |
| Game.MatchFrom | pages/index.js:991-1014 | no match iff no line from k has a playable entry at the step; a match comes from such a line |
| Game.BookStepResult | pages/index.js:1016-1071 | the book branch keeps the same state invariant |
| Game.BookHitWellFormed | pages/index.js:1059-1062 | a followed or matched entry comes from a well-formed line and lies on the board |
| Game.MatchedEntryInBook | pages/index.js:991-1014 | a match is a line of the book together with its entry at the step |
| Game.MoveRejectsIllegal | pages/index.js:608-615 | without piece data, or with a target not generated, `movePiece` changes nothing |
| Game.MoveIntoCheckKeepsCapture | pages/index.js:631-669 | a move into check keeps board, turn and history, yet the capture has reached the hand |
| Game.MoveCommits | pages/index.js:617-700 | a move out of check empties the origin, sets the final piece, records the entry after the cursor, advances the cursor and passes the turn |
| Game.PossibleMovesNotOrigin | pages/index.js:282-591 | no generated target is the piece's own square |
| Game.MovePromotesOnLastRow | pages/index.js:647-658 | without a forced piece, a pawn, lance or knight reaching its last row lands promoted |
| Game.MoveAfterListsAsWritten | pages/index.js:675-684 | when Gote moves without capturing, the recorded after-list of Gote's hand gains a `" "` entry the real hand does not have |
| Game.DropRejects | pages/index.js:864-870 | an occupied target or a piece not in hand changes nothing |
| Game.DropIntoCheckTakesOneCopy | pages/index.js:887-896 | a drop into check keeps board, turn and history, yet one copy has left the hand |
| Game.DropCommits | pages/index.js:881-919 | a drop out of check places the piece in the mover's case, removes one copy, records the entry and passes the turn |
| Game.DropWithoutKingResets | pages/index.js:912-924 | when the render's board lacks a king, a committed drop ends in a reset |
| Game.RemoveFirstCount | pages/index.js:887-888 | the splice removes exactly one copy |
| Game.UndoNeedsThree | pages/index.js:1598-1601 | without an entry three back from the cursor, undo changes nothing |
| Game.UndoRevertsThreeCommits | pages/index.js:1597-1615 | undo after three commits restores the position, hands, turn, last move and step of the first, moving the cursor back three |
| Game.ResetForgets | pages/index.js:1639-1657 | two states with the same `vsAI` reset to the same state |
| Game.ResetOfInitial | pages/index.js:1639-1657 | resetting the opening render changes nothing |
| Game.BookStepAdvances | pages/index.js:1059-1068 | following a book entry plays it with the forced piece, records the line and advances the step |
| Game.LiveLinesAsWritten | pages/index.js:8-55 | every live book line has its Sente entries starting on rows 6-8 and its Gote entries on rows 0-2 |
| Game.InitialRowsByCase | pages/index.js:127-137 | the opening board holds only lower-case pieces on rows 0-2 and only upper-case pieces on rows 6-8 |
| Game.BookNeverMatchesInitialBoard | pages/index.js:991-1014 | `matchOpeningBook` finds nothing on the opening board, at any step |
| Game.CheckmateEffect | pages/index.js:785-826 | reports a mate iff the side is in check and no generated move gets it out; a mate sets `gameOver` and changes nothing else, otherwise the state is kept |
| Game.StalemateEffect | pages/index.js:829-853 | reports a stalemate iff the side is out of check and none of its pieces generates a square; a stalemate resets the game, otherwise the state is kept |
| Game.TurnCheckOutcomes | pages/index.js:855-860 | after each turn a mate ends the game with the position kept, a stalemate resets, anything else is left alone; the board is either kept or the opening board |
| Game.MateIsStable | pages/index.js:855-860 | on a mate the effect sets `gameOver`, keeps the position, and running it again changes nothing |
| Game.AiStep | pages/index.js:1547-1564 | no choice changes nothing; otherwise the state stays valid and `lastMove` ends as the candidate's squares, whatever the move or drop did |
| Game.AiMoveCommits | pages/index.js:1552-1561 | a reachable AI move that leaves the AI out of check empties the origin, puts the candidate's piece on the target, touches no other square, commits and passes the turn |
| Game.AiMoveRejectedSetsLastMove | pages/index.js:1552-1561 | an AI move the piece cannot make changes nothing but `lastMove`, which then names a move never made |
| Game.AiDropCommits | pages/index.js:1549-1551 | an AI drop of a piece in hand on an empty square that leaves the AI out of check places it in the AI's case, takes one copy from the hand, commits and records the drop |
| Game.AiDropWithoutKingKeepsLastMove | pages/index.js:1549-1551 | when the render's board lacks a king the drop resets the game, yet the `lastMove` set after it survives |
| Component.ShogiGame.constructor | pages/index.js:201-215 | the hooks start at `Initial()` |
| Component.ShogiGame.IsVictory | pages/index.js:765-782 | true exactly when a king is missing from the render's board |
| Component.ShogiGame.MovePiece | pages/index.js:597-701 | the handler leaves exactly `MoveResult` of the old state |
| Component.ShogiGame.FindOrigin | pages/index.js:604-615 | the piece data and legality test compute `MoveOrigin` |
| Component.ShogiGame.ApplyMove | pages/index.js:617-700 | the body for a legal move leaves exactly `MoveApplied` |
| Component.ShogiGame.TakeCapture | pages/index.js:631-638 | the capture setter leaves exactly `Capture` |
| Component.ShogiGame.CommitMove | pages/index.js:671-700 | the commit setters leave exactly `MoveCommitted` |
| Component.ShogiGame.Commit | pages/index.js:685-694 | the shared setters leave exactly `Committed` |
| Component.ShogiGame.HandleDropCapturedPiece | pages/index.js:863-926 | the handler leaves exactly `DropResult` of the old state |
| Component.ShogiGame.ApplyDrop | pages/index.js:881-925 | the body of a drop leaves exactly `DropApplied` |
| Component.ShogiGame.TakeFromHand | pages/index.js:887-891 | the splice and setter remove the first copy from the mover's hand |
| Component.ShogiGame.HandleUndo | pages/index.js:1597-1615 | the handler leaves exactly `UndoResult` |
| Component.ShogiGame.ResetGame | pages/index.js:1639-1657 | the handler leaves exactly `Reset` |
| Component.ShogiGame.IsCheckmate | pages/index.js:785-826 | the scan and its setter return the verdict and leave the state `CheckmateEffect` gives |
| Component.ShogiGame.IsStalemate | pages/index.js:829-853 | the scan and `resetGame` return the verdict and leave the state `StalemateEffect` gives |
| Component.ShogiGame.CheckAfterTurn | pages/index.js:855-860 | the effect, with `isStalemate` run only when there is no mate, leaves the state `TurnCheck` gives |
| Component.ShogiGame.PlayAiChoice | pages/index.js:1547-1564 | the timer callback's `handleDropCapturedPiece` or forced `movePiece`, then `setLastMove`, leaves the state `AiStep` gives |
| Component.ShogiGame.MatchOpeningBook | pages/index.js:991-1014 | the loop over the lines returns `BookMatch` of the board and step |
| Component.ShogiGame.PlayBookMove | pages/index.js:1016-1071 | the book branch leaves `BookStepResult` and says whether the search runs next |
| Component.ShogiGame.ChooseBookMove | pages/index.js:1057-1059 | the followed line's entry, else `matchOpeningBook`, as `BookChoiceOf` |
| Component.ShogiGame.PlayBookHit | pages/index.js:1060-1068 | playing a hit is `movePiece` with the forced piece, then the last move, line and step setters |
| Hands.KeyOf | pages/index.js:254 | the group key drops the promotion and keeps kind and case |
| Hands.Tally | pages/index.js:252-258 | one group per key, in key order, with that key's count |
| Hands.GroupAndSortCaptured | pages/index.js:251-262 | the counting loop, entries and sort compute `Grouped` |
| Hands.KeysDistinct | pages/index.js:252-257 | each key appears once |
| Hands.KeysComplete | pages/index.js:252-257 | a key is listed iff some piece has it, iff its count is positive |
| Hands.TallyTotal | pages/index.js:251-262 | the counts add up to the size of the hand |
| Hands.CountOverSnoc | pages/index.js:255-256 | one more piece adds one to its own key's count only |
| Hands.CountOverKeys | pages/index.js:252-257 | summed over the keys, the counts give the size of the hand |
| Hands.GroupedIsSortedTally | pages/index.js:259-261 | the display is the tally, sorted by piece value descending and stable |
| Hands.GroupedCounts | pages/index.js:251-262 | a group is shown iff its piece is a key and its count is that key's count |
| Draft.Promote | lib/game.js:61-64 | P, L, N and S gain the `+`; every other string, lower case included, is unchanged |
| Draft.ValidMove | lib/game.js:325-346 | throws exactly for an unpromoted non-sliding piece; " " and promoted strings are rejected |
| Draft.LastKingFromSpec | lib/game.js:115-118 | the `forEach` settles on a king with no later king, or finds none at all |
| Draft.AttackFromNotFalse | lib/game.js:126-138 | a scan with an accepted, throwing piece ahead never answers false |
| Draft.KingInCheckNeverFalse | lib/game.js:111-143 | `isKingInCheck` never returns false |
| Draft.LineMoveRejections | lib/game.js:350-373 | rook off line, bishop off diagonal, lance off column and any occupied intermediate square are rejected |
| Draft.LanceMovesBackward | lib/game.js:350-373 | a lance step backward along its column is accepted |
| Draft.RankRule | lib/game.js:194-204 | no knight on the mover's last two rows, no lance or pawn on its last row, anything else allowed |
| Draft.DropOntoPieceRefused | lib/game.js:172 | an occupied target is refused and the board is unchanged |
| Draft.PawnDropNifu | lib/game.js:177-183 | a pawn drop into a column with an unpromoted pawn of either case is refused |
| Draft.PawnDropThrows | lib/game.js:185-191 | any other pawn drop onto an empty square throws and leaves the pawn on the board |
| Draft.DropRestoresBoard | lib/game.js:170-205 | a drop test that returns leaves the board unchanged |
| Draft.PieceDropRanks | lib/game.js:194-204 | a non-pawn drop follows the rank rules alone, both directions for knights and lances |
| Draft.KnightMove | lib/game.js:375-381 | accepted iff one column aside and two rows, toward row 0 for "n" and toward row 8 otherwise |
| Draft.PiecesFromSpec | lib/game.js:455-464 | a square is listed, with its own string, iff its cell is kept for the seat |
| Draft.EmptySquaresListed | lib/game.js:455-464 | every empty square is listed for both seats |
| Draft.Without | lib/game.js:162 | the filter removes every copy of the piece and keeps the count of every other |
| Draft.Captured | lib/game.js:388-393 | the demoted, lower-case piece joins the list of the seat not to move |
| Draft.Dropped | lib/game.js:158-167 | the piece lands in the mover's case, every copy leaves the mover's list, the other list is kept and the turn passes |
| Draft.UnshiftRestores | lib/game.js:444-452 | the two restoring writes give the board back, also when origin and target coincide |
| Draft.TakeBackRestores | lib/game.js:100-104 | `movePiece`'s take-back gives the board back |
| Draft.CheckAfterMove | lib/game.js:444-452 | the answer is the check test on the moved board; the board is restored when it returns and stays moved when it throws |
| Draft.MoveNeverCommits | lib/game.js:83-108 | the turn and both lists never change; a return leaves the board, a throw leaves it or the moved board |
| Draft.DraftGame.constructor | lib/game.js:4-19 | the opening board, `'player'` to move, empty lists |
| Draft.DraftGame.IsValidLineMove | lib/game.js:350-373 | the direction tests and walk compute `LineMoveOk`: aligned, every intermediate square empty |
| Draft.DraftGame.IsValidMove | lib/game.js:325-346 | computes `ValidMove` |
| Draft.DraftGame.IsSquareUnderAttack | lib/game.js:126-138 | the nested loops compute the row-major scan `AttackFrom` |
| Draft.DraftGame.IsKingInCheck | lib/game.js:111-123 | the king search and scan compute `KingInCheck` |
| Draft.DraftGame.IsKingInCheckAfterMove | lib/game.js:444-452 | swap, test, swap back compute `CheckAfterMove`, including the board left behind |
| Draft.DraftGame.IsValidDrop | lib/game.js:170-205 | the drop test computes `ValidDrop`, including the board left behind |
| Draft.DraftGame.FindPlayerPieces | lib/game.js:455-464 | the `forEach` computes the row-major listing `Pieces` |
| Draft.DraftGame.CapturePiece | lib/game.js:388-393 | leaves exactly `Captured` of the old state |
| Draft.DraftGame.SwitchTurn | lib/game.js:468-470 | toggles the seat to move and nothing else |
| Draft.DraftGame.DropPiece | lib/game.js:158-167 | leaves exactly `Dropped` of the old state |
| Draft.DraftGame.MovePiece | lib/game.js:83-108 | the outcome and new state are exactly `MoveOutcome` of the old state |
| Draft.OtherSeat | lib/game.js:468-470 | the toggle always changes the seat |
| Draft.SwitchTurnInvolution | lib/game.js:468-470 | two switches cancel |

## Left out

- Rendering, piece images and names, `alert` and the DOM handlers of both files. `window.confirm` is the `confirm` input of `movePiece`.
- Timers, `requestIdleCallback`, the `aiThinking` overlay, replay playback and the JSON/CSV downloads.
- `console` logging.
- The wall-clock budget of the search (`Date.now`, `timeUp`): the search is modelled without a budget.
- The try/catch recovery paths of `performAIMove` and `generateAllMoves`: no modelled call throws there.
- `scoreMove`: it is never called.
- `handleRedo`: it adds 1 to an entry object, so its field reads fail and there is no behaviour to state.
- `handleSquareClick`, `selectPiece` and the selection state: `movePiece` takes the selection as part of the state.
- `checkmateInfo`, which only the rendering reads, and the `alert` of a stalemate.
- Rules.IsCheckmate: returns the verdict only. Its `setGameOver(true)` on a mate is `Game.CheckmateEffect`, run by the effect after each turn (`Game.TurnCheck`). The same setter also fires when `isValidDrop` tests a pawn drop, inside `getDropLocations`, while the AI builds its move list or a hand piece is selected, if the opponent is mated on the component board; that path is not threaded through `Rules.ValidDrop` and `Candidates`, which stay pure.
- Rules.IsStalemate: returns the verdict only. Its `resetGame()` on a stalemate is `Game.StalemateEffect`, run by the effect after each turn (`Game.TurnCheck`).
- `refreshGameState`: it is never called. Its body is the same test as the effect after each turn.
- `lib/engine.js` (a USI subprocess client), `pages/_app.js` and `pages/_document.js` are not part of this model.
- `lib/game.js`: `checkPromotion` is not modelled beyond its effect. For the only pieces that reach it (rook, bishop and lance) it returns the piece unchanged, and its result is never written to the board.
- `lib/game.js`: `hasLegalMoves` and `checkForCheckmate` are left out. They rest on the throwing non-sliding branch of `isValidMove`, whose result is modelled only as `Threw`.
- `lib/game.js`: the table entries `h`, `H`, `d`, `D` cannot occur on a board the file produces, so they are not modelled.
- JavaScript numbers are modelled as unbounded integers plus ±Infinity and NaN (`AlphaBeta.Val`), with no floating point. The source's multiplications by `0.5`, `1.2` and `3.0` give whole numbers for every value that reaches them.
- Search.ScoreFallback: `val * 1.2` is taken as the integer `val * 6 / 5`. It is exact for the only values that reach it (5000 and 100000).
- Draft.DraftGame.IsValidLineMove: requires both squares on the board and a rook, bishop or lance, which is what its only caller passes. Off-board targets from `hasLegalMoves` are not modelled.
- Draft.ValidMove: requires on-board origin and target, as `isSquareUnderAttack` and `movePiece` pass them.
- Game.Playable: an entry off the board is treated as not playable. Every book entry is on the board (`OpeningBook.LiveBookWellFormed`), so this changes nothing.
- Game.BookStepResult: when a followed line's step is past its end, destructuring the missing entry throws out of `performAIMove`, whose `try` has only a `finally`. The model leaves the state unchanged there.
- The React batching of setters is modelled as "reads see the render's values, the last setter wins", with no re-render between two calls of one handler.
