/** The depth-2 alpha-beta search `minimax` inside `performAIMove`
    (pages/index.js:1329-1469), the root call, and the fallback ranking that runs when the
    search returns no move (pages/index.js:1471-1537).

    The search mixes numbers and objects: at depth 2 it returns `{ move, score }`, at any
    other depth a plain number. Its recursive call reads `.score` from whatever it gets
    back, so a depth-2 search reads `.score` of a number, which is `undefined`; adding a
    bonus to `undefined`, or taking `Math.max` with it, gives `NaN`. */
module Search {
  import opened Board
  import opened Rules
  import opened MoveGen
  import opened Evaluation
  import opened Sorting
  import opened Candidates
  import opened AlphaBeta

  /** What `minimax` returns: `{ move, score }` at depth 2, a plain number otherwise. */
  datatype Reply = Plain(value: Val) | Rooted(move: Option<Candidate>, score: Val)

  /** `reply.score`: a plain number has no `score` property. */
  function ScoreOf(r: Reply): Val {
    if r.Rooted? then r.score else NaN
  }

  /** `reply.move`: a plain number has no `move` property. */
  function MoveOf(r: Reply): Option<Candidate> {
    if r.Rooted? then r.move else None
  }

  function PlayerOf(maximizing: bool): Side {
    if maximizing then Sente else Gote
  }

  /** The static evaluation of a leaf from the side to move. */
  function Leaf(m: Candidate, maximizing: bool): int {
    Evaluate(m.board, PlayerOf(maximizing))
  }

  /** `minimax(boardState, depth, alpha, beta, maximizingPlayer)`, with `ctx` the component
      state `generateAllMoves` reads. */
  function Minimax(b: Board, depth: nat, alpha: Val, beta: Val, maximizing: bool, ctx: Context): Reply
    decreases depth, 2
  {
    var player := PlayerOf(maximizing);
    var moves := AllMoves(b, player, ctx);
    if moves == [] then
      var s := Num(Evaluate(b, player));
      if depth == 2 then Rooted(None, s) else Plain(s)
    else
      var w := Walk(moves, 0, EvalAt(depth, maximizing, ctx), maximizing, Window(alpha, beta, None, Opening(maximizing)));
      if depth != 2 then Plain(w.bestVal)
      else if w.best.None? then Rooted(Some(moves[0]), Num(Evaluate(moves[0].board, player)))
      else Rooted(w.best, w.bestVal)
  }

  /** The evaluation the loop of a depth-`depth` search computes for a move in a window. */
  function EvalAt(depth: nat, maximizing: bool, ctx: Context): (Candidate, Window<Candidate>) -> Val
    decreases depth, 1
  {
    (m: Candidate, w: Window<Candidate>) => MoveEval(m, depth, w.alpha, w.beta, maximizing, ctx)
  }

  /** The evaluation of one move inside the loop: the child search's `.score` above depth
      1, the static evaluation at depth 1, plus half the bonuses at a maximizing depth 2. */
  function MoveEval(m: Candidate, depth: nat, alpha: Val, beta: Val, maximizing: bool, ctx: Context): Val
    decreases depth, 0
  {
    var e := if depth > 1 then ScoreOf(Minimax(m.board, depth - 1, alpha, beta, !maximizing, ctx))
             else Num(Leaf(m, maximizing));
    if depth == 2 && maximizing then AddHalf(AddHalf(e, m.frontBonus), m.dropBonus) else e
  }

  // ---------------------------------------------------------------------------------
  // The loops

  method Search(b: Board, depth: nat, alpha0: Val, beta0: Val, maximizing: bool, ctx: Context)
    returns (r: Reply)
    ensures r == Minimax(b, depth, alpha0, beta0, maximizing, ctx)
    decreases depth, 1, 0
  {
    var player := PlayerOf(maximizing);
    var allMoves := GenerateAllMoves(b, player, ctx);
    if |allMoves| == 0 {
      var fallbackScore := EvaluatePosition(b, player);
      return if depth == 2 then Rooted(None, Num(fallbackScore)) else Plain(Num(fallbackScore));
    }
    var bestMove, bestEval := MoveLoop(allMoves, depth, alpha0, beta0, maximizing, ctx);
    if depth != 2 {
      return Plain(bestEval);
    }
    if bestMove.None? {
      var fallback := allMoves[0];
      var fallbackScore := EvaluatePosition(fallback.board, player);
      return Rooted(Some(fallback), Num(fallbackScore));
    }
    return Rooted(bestMove, bestEval);
  }

  /** The move loop of `minimax`, stopping early when `beta <= alpha`. */
  method MoveLoop(allMoves: seq<Candidate>, depth: nat, alpha0: Val, beta0: Val, maximizing: bool, ctx: Context)
    returns (bestMove: Option<Candidate>, bestEval: Val)
    ensures var w := Walk(allMoves, 0, EvalAt(depth, maximizing, ctx), maximizing, Window(alpha0, beta0, None, Opening(maximizing)));
            bestMove == w.best && bestEval == w.bestVal
    decreases depth, 0, 2
  {
    ghost var eval := EvalAt(depth, maximizing, ctx);
    ghost var start := Window(alpha0, beta0, None, Opening(maximizing));
    var alpha, beta := alpha0, beta0;
    bestMove := None;
    bestEval := Opening(maximizing);
    var k := 0;
    while k < |allMoves|
      invariant 0 <= k <= |allMoves|
      invariant Walk(allMoves, 0, eval, maximizing, start)
             == Walk(allMoves, k, eval, maximizing, Window(alpha, beta, bestMove, bestEval))
      decreases |allMoves| - k
    {
      alpha, beta, bestMove, bestEval := Visit(allMoves[k], depth, alpha, beta, bestMove, bestEval, maximizing, ctx);
      if AtMost(beta, alpha) {
        break;
      }
      k := k + 1;
    }
  }

  /** One pass of the move loop: evaluate the move, take it if it is the first or beats
      the best so far, narrow the window. */
  method Visit(move: Candidate, depth: nat, alpha0: Val, beta0: Val, bestMove0: Option<Candidate>, bestEval0: Val,
               maximizing: bool, ctx: Context)
    returns (alpha: Val, beta: Val, bestMove: Option<Candidate>, bestEval: Val)
    ensures var w := Window(alpha0, beta0, bestMove0, bestEval0);
            Window(alpha, beta, bestMove, bestEval) == Step(w, move, EvalAt(depth, maximizing, ctx)(move, w), maximizing)
    decreases depth, 0, 1
  {
    alpha, beta, bestMove, bestEval := alpha0, beta0, bestMove0, bestEval0;
    var evaluation := EvaluateMove(move, depth, alpha, beta, maximizing, ctx);
    if bestMove.None? || (if maximizing then Below(bestEval, evaluation) else Below(evaluation, bestEval)) {
      bestEval := evaluation;
      bestMove := Some(move);
    }
    if maximizing {
      alpha := Max(alpha, evaluation);
    } else {
      beta := Min(beta, evaluation);
    }
  }

  /** The evaluation of one move of the loop (the child call, or the static evaluation,
      and the root bonuses). */
  method EvaluateMove(move: Candidate, depth: nat, alpha: Val, beta: Val, maximizing: bool, ctx: Context)
    returns (evaluation: Val)
    ensures evaluation == MoveEval(move, depth, alpha, beta, maximizing, ctx)
    decreases depth, 0, 0
  {
    if depth > 1 {
      var child := Search(move.board, depth - 1, alpha, beta, !maximizing, ctx);
      evaluation := ScoreOf(child);
    } else {
      var s := EvaluatePosition(move.board, PlayerOf(maximizing));
      evaluation := Num(s);
    }
    if depth == 2 && maximizing {
      evaluation := AddHalf(evaluation, move.frontBonus);
      evaluation := AddHalf(evaluation, move.dropBonus);
    }
  }

  // ---------------------------------------------------------------------------------
  // What the search computes

  /** Without candidates the search returns the static evaluation of the side to move,
      and the root a null move; with candidates the loop always ends with one of them, so
      the `!bestMove` branch after it never runs. */
  lemma NoCandidates(b: Board, depth: nat, alpha: Val, beta: Val, maximizing: bool, ctx: Context)
    ensures var r := Minimax(b, depth, alpha, beta, maximizing, ctx);
            var moves := AllMoves(b, PlayerOf(maximizing), ctx);
            (moves == [] ==> (if depth == 2 then r == Rooted(None, Num(Evaluate(b, PlayerOf(maximizing))))
                              else r == Plain(Num(Evaluate(b, PlayerOf(maximizing))))))
            && (depth == 2 ==> (r.move.None? <==> moves == []))
            && (moves != [] ==> var w := Walk(moves, 0, EvalAt(depth, maximizing, ctx), maximizing,
                                               Window(alpha, beta, None, Opening(maximizing)));
                                w.best.Some? && w.best.value in moves)
  {
    var moves := AllMoves(b, PlayerOf(maximizing), ctx);
    if moves != [] {
      WalkFindsMove(moves, 0, EvalAt(depth, maximizing, ctx), maximizing, Window(alpha, beta, None, Opening(maximizing)));
    }
  }

  /** Below the root the reply is a plain number, whose `.score` is undefined. */
  lemma ShallowScoreUndefined(b: Board, depth: nat, alpha: Val, beta: Val, maximizing: bool, ctx: Context)
    requires depth != 2
    ensures ScoreOf(Minimax(b, depth, alpha, beta, maximizing, ctx)) == NaN
  {
  }

  /** The root search (`minimax(board, 2, -Infinity, Infinity, true)`, or any window)
      always answers with the first candidate of the sorted list and a NaN score: the
      depth-1 replies are plain numbers, so every move evaluates to NaN and the first one
      is never beaten. */
  lemma RootChoosesFirst(b: Board, alpha: Val, beta: Val, ctx: Context)
    requires AllMoves(b, Sente, ctx) != []
    ensures Minimax(b, 2, alpha, beta, true, ctx) == Rooted(Some(AllMoves(b, Sente, ctx)[0]), NaN)
  {
    var eval := EvalAt(2, true, ctx);
    forall m, v
      ensures eval(m, v) == NaN
    {
      ShallowScoreUndefined(m.board, 1, v.alpha, v.beta, false, ctx);
    }
    WalkKeepsFirst(AllMoves(b, Sente, ctx), 0, eval, true, Window(alpha, beta, None, NegInf));
  }

  /** A depth-1 search in the windows the root hands down returns the best static
      evaluation among its candidates (the largest for Sente, the smallest for Gote), or the
      position's own evaluation when there are none. */
  lemma DepthOneIsBestLeaf(b: Board, alpha: Val, beta: Val, maximizing: bool, ctx: Context)
    requires OpenWindow(Window<Candidate>.Window(alpha, beta, None, NaN), maximizing)
    ensures var r := Minimax(b, 1, alpha, beta, maximizing, ctx);
            var moves := AllMoves(b, PlayerOf(maximizing), ctx);
            r.Plain? && r.value.Num?
            && (moves == [] ==> r.value.n == Evaluate(b, PlayerOf(maximizing)))
            && (forall m :: m in moves ==> AsGood(r.value.n, Leaf(m, maximizing), maximizing))
            && (moves != [] ==> exists m :: m in moves && r.value.n == Leaf(m, maximizing))
  {
    var moves := AllMoves(b, PlayerOf(maximizing), ctx);
    if moves != [] {
      LeafWalk(moves, alpha, beta, maximizing, ctx);
    }
  }

  /** The depth-1 loop over a non-empty list ends with its best leaf value. */
  lemma LeafWalk(moves: seq<Candidate>, alpha: Val, beta: Val, maximizing: bool, ctx: Context)
    requires moves != [] && OpenWindow(Window<Candidate>.Window(alpha, beta, None, NaN), maximizing)
    ensures var r := Walk(moves, 0, EvalAt(1, maximizing, ctx), maximizing, Window(alpha, beta, None, Opening(maximizing)));
            r.bestVal.Num?
            && (forall m :: m in moves ==> AsGood(r.bestVal.n, Leaf(m, maximizing), maximizing))
            && (exists m :: m in moves && r.bestVal.n == Leaf(m, maximizing))
  {
    var leaf := m => Leaf(m, maximizing);
    assert moves[0..] == moves;
    WalkExtreme(moves, 0, EvalAt(1, maximizing, ctx), leaf, maximizing, Window(alpha, beta, None, Opening(maximizing)));
  }

  // ---------------------------------------------------------------------------------
  // The fallback ranking

  /** What an upper-case piece worth more than 1000 costs the fallback score. */
  function ExposureAt(b: Board, i: int, j: int): int
    requires InBounds(i, j)
  {
    if b[i][j].Occupied? && b[i][j].piece.upper && CapturedValue(b[i][j]) > 1000 then CapturedValue(b[i][j]) * 3 else 0
  }

  /** The exposure terms of the cells strictly before (i, j) in row-major order. */
  function ExposureBefore(b: Board, i: int, j: int): (e: int)
    requires 0 <= i <= 9 && 0 <= j <= 9 && (i < 9 || j == 0)
    ensures e >= 0
    decreases i, j
  {
    if j == 0 then (if i == 0 then 0 else ExposureBefore(b, i - 1, 9))
    else ExposureBefore(b, i, j - 1) + ExposureAt(b, i, j - 1)
  }

  /** `val * 1.2` for an upper-case gold, rook or king (the only pieces worth more than
      3000) on an attacked square; the product is exact for these values. */
  function ThreatAt(b: Board, s: Square): int {
    if OnBoard(s) && b[s.row][s.col].Occupied? && b[s.row][s.col].piece.upper && CapturedValue(b[s.row][s.col]) > 3000
    then CapturedValue(b[s.row][s.col]) * 6 / 5
    else 0
  }

  /** The threat terms of the first n attacked squares. */
  function ThreatBefore(b: Board, ts: seq<Square>, n: nat): (t: int)
    requires n <= |ts|
    ensures t >= 0
  {
    if n == 0 then 0 else ThreatBefore(b, ts, n - 1) + ThreatAt(b, ts[n - 1])
  }

  /** The fallback score of a candidate: capture, check, promotion, advance and centre
      bonuses, less the exposure of Gote's valuable pieces, plus the threats on Gote's
      gold, rook and king from the moved piece's new square. */
  function FallbackScore(m: Candidate): int {
    var tx := m.to.row;
    var ty := m.to.col;
    var attacked := Attacked(m);
    (if m.captured.Occupied? then CapturedValue(m.captured) * 3 + 2000 else 0)
    + (if InCheck(m.board, Gote) then 2500 else 0)
    + (if m.piece.promoted then 1200 else 0)
    + (8 - tx) * 200
    + (4 - Abs(4 - tx) + (4 - Abs(4 - ty))) * 150
    - ExposureBefore(m.board, 9, 0)
    + ThreatBefore(m.board, attacked, |attacked|)
  }

  /** The squares the moved piece attacks from its new square (every candidate's target
      is on the board). */
  function Attacked(m: Candidate): seq<Square> {
    if OnBoard(m.to) then PossibleMoves(Occupied(m.piece), m.to.row, m.to.col, m.board) else []
  }

  /** Each element paired with its score. */
  function Tagged<T>(s: seq<T>, score: T -> int): (t: seq<(T, int)>)
    ensures |t| == |s|
    ensures forall i :: 0 <= i < |s| ==> t[i] == (s[i], score(s[i]))
  {
    if s == [] then []
    else Tagged(s[..|s| - 1], score) + [(s[|s| - 1], score(s[|s| - 1]))]
  }

  /** The moves with their fallback scores attached (`move.score = score`). */
  function Scored(moves: seq<Candidate>): seq<(Candidate, int)> {
    Tagged(moves, FallbackScore)
  }

  /** `(a, b) => b.score - a.score`. */
  function ScoreKey(e: (Candidate, int)): Key {
    (e.1, 0, 0)
  }

  /** The head of the list sorted by fallback score, highest first. */
  function FallbackPick(moves: seq<Candidate>): Candidate
    requires moves != []
  {
    StableSort(Scored(moves), ScoreKey)[0].0
  }

  /** The fallback's choice: nothing without candidates (the alert), otherwise the
      highest-scoring candidate. */
  function FallbackChoice(b: Board, ctx: Context): Option<Candidate> {
    var moves := AllMoves(b, Sente, ctx);
    if moves == [] then None else Some(FallbackPick(moves))
  }

  /** The move `performAIMove` applies: the root search's move, or the fallback's. */
  function AiChoice(b: Board, ctx: Context): Option<Candidate> {
    var r := Minimax(b, 2, NegInf, PosInf, true, ctx);
    if MoveOf(r).Some? then MoveOf(r) else FallbackChoice(b, ctx)
  }

  /** The ranking picks a candidate whose score no other candidate beats, the first such
      in list order when several tie (the sort is stable). */
  lemma FallbackPickIsBest(moves: seq<Candidate>)
    requires moves != []
    ensures FallbackPick(moves) in moves
    ensures forall m :: m in moves ==> FallbackScore(m) <= FallbackScore(FallbackPick(moves))
  {
    var s := Scored(moves);
    StableSortHead(s, ScoreKey);
    var h := StableSort(s, ScoreKey)[0];
    var j :| 0 <= j < |s| && s[j] == h;
    assert h.0 == moves[j] && h.1 == FallbackScore(moves[j]);
    forall m | m in moves
      ensures FallbackScore(m) <= FallbackScore(h.0)
    {
      var i :| 0 <= i < |moves| && moves[i] == m;
      assert s[i] in s;
    }
  }

  /** The AI plays the first candidate of the sorted list, and nothing when there is none:
      the fallback runs only when the search found no move, which happens only without
      candidates, and then the fallback finds none either. */
  lemma AiPlaysFirstCandidate(b: Board, ctx: Context)
    ensures AiChoice(b, ctx) == (if AllMoves(b, Sente, ctx) == [] then None else Some(AllMoves(b, Sente, ctx)[0]))
  {
    if AllMoves(b, Sente, ctx) != [] {
      RootChoosesFirst(b, NegInf, PosInf, ctx);
    }
  }

  /** The root call and, when it has no move, the regenerated list and the fallback
      ranking over it. The root finds no move only when that list is empty, so the
      ranking never runs from here. */
  method ChooseAiMove(b: Board, ctx: Context) returns (choice: Option<Candidate>)
    ensures choice == AiChoice(b, ctx)
  {
    var result := Search(b, 2, NegInf, PosInf, true, ctx);
    if result.move.Some? {
      return result.move;
    }
    var allMoves := GenerateAllMoves(b, Sente, ctx);
    if |allMoves| == 0 {
      return None;
    }
    var pick := RankFallback(allMoves);
    return Some(pick);
  }

  /** The fallback ranking: score every candidate, sort by score, take the head. */
  method RankFallback(allMoves: seq<Candidate>) returns (choice: Candidate)
    requires allMoves != []
    ensures choice == FallbackPick(allMoves)
  {
    var scored := ScoreAll(allMoves);
    var ranked := StableSort(scored, ScoreKey);
    return ranked[0].0;
  }

  /** The scoring loop: every candidate with its fallback score. */
  method ScoreAll(allMoves: seq<Candidate>) returns (scored: seq<(Candidate, int)>)
    ensures scored == Scored(allMoves)
  {
    scored := [];
    for k := 0 to |allMoves|
      invariant scored == Tagged(allMoves[..k], FallbackScore)
    {
      var score := ScoreFallback(allMoves[k]);
      assert allMoves[..k + 1][..k] == allMoves[..k];
      scored := scored + [(allMoves[k], score)];
    }
    assert allMoves[..|allMoves|] == allMoves;
  }

  /** The scoring loop body of the fallback for one candidate. */
  method ScoreFallback(move: Candidate) returns (score: int)
    ensures score == FallbackScore(move)
  {
    score := 0;
    var tx, ty := move.to.row, move.to.col;
    if move.captured.Occupied? {
      score := score + CapturedValue(move.captured) * 3;
      score := score + 2000;
    }
    var check := IsInCheck(Gote, move.board);
    if check {
      score := score + 2500;
    }
    if move.piece.promoted {
      score := score + 1200;
    }
    score := score + (8 - tx) * 200;
    var centerBonus := 4 - Abs(4 - tx) + (4 - Abs(4 - ty));
    score := score + centerBonus * 150;
    var exposure := Exposure(move.board);
    score := score - exposure;
    var threats := Threats(move);
    score := score + threats;
  }

  /** The attacked-squares loop of the fallback score. */
  method Threats(move: Candidate) returns (threats: int)
    ensures threats == ThreatBefore(move.board, Attacked(move), |Attacked(move)|)
  {
    threats := 0;
    if !OnBoard(move.to) {
      return;
    }
    var attacked := GetPossibleMoves(Occupied(move.piece), move.to.row, move.to.col, move.board);
    for k := 0 to |attacked|
      invariant threats == ThreatBefore(move.board, attacked, k)
    {
      threats := threats + ThreatAt(move.board, attacked[k]);
    }
  }

  /** The board loop of the fallback score: the exposure of Gote's valuable pieces. */
  method Exposure(b: Board) returns (exposure: int)
    ensures exposure == ExposureBefore(b, 9, 0)
  {
    exposure := 0;
    for i := 0 to 9
      invariant exposure == ExposureBefore(b, i, 0)
    {
      for j := 0 to 9
        invariant exposure == ExposureBefore(b, i, j)
      {
        exposure := exposure + ExposureAt(b, i, j);
      }
    }
  }
}
