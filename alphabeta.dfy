/** The move loop of `minimax` (pages/index.js:1347-1395 for the maximizing side,
    1406-1457 for the minimizing side), over any kind of move and any evaluation of a
    move in the current window, with JavaScript's number semantics for the values:
    `-Infinity`, `Infinity`, and `NaN`, against which no comparison holds and which
    `Math.max`/`Math.min` propagate. */
module AlphaBeta {
  import opened Board

  /** A JavaScript number as the search uses it: an integer, either infinity, or NaN (which
      also stands for `undefined`, since every use here treats the two alike). */
  datatype Val = Num(n: int) | NegInf | PosInf | NaN

  /** `a < b`: false whenever either side is NaN. */
  predicate Below(a: Val, b: Val) {
    match a
    case NaN => false
    case NegInf => b.Num? || b.PosInf?
    case Num(x) => b.PosInf? || (b.Num? && x < b.n)
    case PosInf => false
  }

  /** `a <= b`: false whenever either side is NaN. */
  predicate AtMost(a: Val, b: Val) {
    !a.NaN? && !b.NaN? && !Below(b, a)
  }

  /** `Math.max(a, b)`: NaN if either is. */
  function Max(a: Val, b: Val): (m: Val)
    ensures a.NaN? || b.NaN? <==> m.NaN?
    ensures !m.NaN? ==> !Below(m, a) && !Below(m, b) && (m == a || m == b)
  {
    if a.NaN? || b.NaN? then NaN else if Below(a, b) then b else a
  }

  /** `Math.min(a, b)`: NaN if either is. */
  function Min(a: Val, b: Val): (m: Val)
    ensures a.NaN? || b.NaN? <==> m.NaN?
    ensures !m.NaN? ==> !Below(a, m) && !Below(b, m) && (m == a || m == b)
  {
    if a.NaN? || b.NaN? then NaN else if Below(b, a) then b else a
  }

  /** `if (bonus) v += bonus * 0.5`: a zero bonus is falsy and leaves `v` alone (even an
      `undefined` one); infinities and NaN absorb the addition. The search's bonuses are
      even (200, or 300 plus a multiple of ten), so the half is exact. */
  function AddHalf(v: Val, bonus: int): (r: Val)
    ensures v.NaN? ==> r.NaN?
    ensures v.Num? && bonus % 2 == 0 ==> r.Num? && 2 * r.n == 2 * v.n + bonus
  {
    if bonus == 0 then v
    else match v
      case Num(x) => Num(x + bonus / 2)
      case _ => v
  }

  /** The opening value of `maxEval` / `minEval`. */
  function Opening(maximizing: bool): Val {
    if maximizing then NegInf else PosInf
  }

  /** The variables the move loop updates: `alpha`, `beta`, `bestMove` and `maxEval` /
      `minEval`. */
  datatype Window<M> = Window(alpha: Val, beta: Val, best: Option<M>, bestVal: Val)

  /** The loop body after the evaluation `e` of move `m`: take the move when there is none
      yet or `e` beats the best so far, then narrow the window. */
  function Step<M>(w: Window<M>, m: M, e: Val, maximizing: bool): Window<M> {
    var take := w.best.None? || (if maximizing then Below(w.bestVal, e) else Below(e, w.bestVal));
    var best := if take then Some(m) else w.best;
    var bestVal := if take then e else w.bestVal;
    if maximizing then Window(Max(w.alpha, e), w.beta, best, bestVal)
    else Window(w.alpha, Min(w.beta, e), best, bestVal)
  }

  /** `beta <= alpha`: the loop stops. */
  predicate Cutoff<M>(w: Window<M>) {
    AtMost(w.beta, w.alpha)
  }

  /** The move loop from index k with the loop variables `w`; `eval(m, w)` is what the
      loop computes for move `m` in window `w`. */
  function Walk<M>(moves: seq<M>, k: nat, eval: (M, Window<M>) -> Val, maximizing: bool, w: Window<M>): Window<M>
    requires k <= |moves|
    decreases |moves| - k
  {
    if k == |moves| then w
    else
      var next := Step(w, moves[k], eval(moves[k], w), maximizing);
      if Cutoff(next) then next else Walk(moves, k + 1, eval, maximizing, next)
  }

  /** A loop that has a move, or still has one to visit, ends with a move; the move it ends
      with is one of the moves or the one it started with. */
  lemma {:induction false} WalkFindsMove<M>(moves: seq<M>, k: nat, eval: (M, Window<M>) -> Val, maximizing: bool, w: Window<M>)
    requires k <= |moves| && (k < |moves| || w.best.Some?)
    ensures var r := Walk(moves, k, eval, maximizing, w);
            r.best.Some? && (r.best == w.best || r.best.value in moves[k..])
    decreases |moves| - k
  {
    if k < |moves| {
      var next := Step(w, moves[k], eval(moves[k], w), maximizing);
      if !Cutoff(next) {
        if k + 1 < |moves| || next.best.Some? {
          WalkFindsMove(moves, k + 1, eval, maximizing, next);
          assert moves[k..] == [moves[k]] + moves[k + 1..];
        }
      }
    }
  }

  /** When every evaluation is NaN the first move visited is kept: no later one beats it,
      and the window never closes. */
  lemma {:induction false} WalkKeepsFirst<M>(moves: seq<M>, k: nat, eval: (M, Window<M>) -> Val, maximizing: bool, w: Window<M>)
    requires k <= |moves| && (k < |moves| || w.best.Some?)
    requires forall m, v :: eval(m, v) == NaN
    ensures var r := Walk(moves, k, eval, maximizing, w);
            if w.best.Some? then r.best == w.best && r.bestVal == w.bestVal
            else r.best == Some(moves[k]) && r.bestVal == NaN
    decreases |moves| - k
  {
    if k < |moves| {
      var next := Step(w, moves[k], eval(moves[k], w), maximizing);
      assert !Cutoff(next);
      if k + 1 < |moves| {
        WalkKeepsFirst(moves, k + 1, eval, maximizing, next);
      }
    }
  }

  /** The window a search below the root sees: beta above everything for the maximizing
      side; alpha below everything (or NaN) for the minimizing side. */
  predicate OpenWindow<M>(w: Window<M>, maximizing: bool) {
    if maximizing then w.beta == PosInf && !w.alpha.PosInf?
    else (w.alpha == NegInf || w.alpha == NaN) && !w.beta.NegInf?
  }

  /** The best value so far is the opening value with no move, or a number with one. */
  predicate Tracking<M>(w: Window<M>, maximizing: bool) {
    (w.best.None? && w.bestVal == Opening(maximizing)) || (w.best.Some? && w.bestVal.Num?)
  }

  /** `v` is at least (maximizing) or at most (minimizing) `x`. */
  predicate AsGood(v: int, x: int, maximizing: bool) {
    if maximizing then x <= v else v <= x
  }

  /** When every evaluation is a number that depends on the move alone, a loop in an open
      window visits every move and ends with the best of the values, taken from one of
      the moves (or the value it started with). */
  lemma {:induction false} WalkExtreme<M>(moves: seq<M>, k: nat, eval: (M, Window<M>) -> Val, leaf: M -> int,
                                          maximizing: bool, w: Window<M>)
    requires k < |moves| && OpenWindow(w, maximizing) && Tracking(w, maximizing)
    requires forall m, v :: eval(m, v) == Num(leaf(m))
    ensures var r := Walk(moves, k, eval, maximizing, w);
            r.bestVal.Num?
            && (forall m :: m in moves[k..] ==> AsGood(r.bestVal.n, leaf(m), maximizing))
            && (w.bestVal.Num? ==> AsGood(r.bestVal.n, w.bestVal.n, maximizing))
            && (r.bestVal == w.bestVal || exists m :: m in moves[k..] && r.bestVal.n == leaf(m))
    decreases |moves| - k
  {
    var e := eval(moves[k], w);
    var next := Step(w, moves[k], e, maximizing);
    assert !Cutoff(next);
    assert moves[k..] == [moves[k]] + moves[k + 1..];
    if k + 1 < |moves| {
      WalkExtreme(moves, k + 1, eval, leaf, maximizing, next);
    }
  }
}
