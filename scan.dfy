/** Row-major scans of the 9x9 board, as the source's `for (i) for (j)` loops walk it:
    "some square", "every square" and "the squares, in order". The rule predicates are
    instances of these, so the facts about the scans are proved once here. */
module Scan {
  import opened Board

  /** (i, j) comes strictly before square `s` in row-major order. */
  predicate Before(i: int, j: int, s: Square) {
    i < s.row || (i == s.row && j < s.col)
  }

  /** Some square at or after (i, j) satisfies `f`. */
  predicate AnyFrom(f: (int, int) -> bool, i: int, j: int)
    requires 0 <= i <= 9 && 0 <= j <= 9
    decreases 9 - i, 9 - j
  {
    if i == 9 then false
    else if j == 9 then AnyFrom(f, i + 1, 0)
    else f(i, j) || AnyFrom(f, i, j + 1)
  }

  /** Every square at or after (i, j) satisfies `f`. */
  predicate AllFrom(f: (int, int) -> bool, i: int, j: int)
    requires 0 <= i <= 9 && 0 <= j <= 9
    decreases 9 - i, 9 - j
  {
    if i == 9 then true
    else if j == 9 then AllFrom(f, i + 1, 0)
    else f(i, j) && AllFrom(f, i, j + 1)
  }

  /** (i, j) is a position of a row-major cursor: a square, the end of a row, or the
      end of the board. */
  predicate Cursor(i: int, j: int) {
    (0 <= i < 9 && 0 <= j <= 9) || (i == 9 && j == 0)
  }

  /** The squares strictly before (i, j) that satisfy `f`, in row-major order: what a
      scan that pushes every hit has collected when it reaches (i, j). */
  function Gather(f: (int, int) -> bool, i: int, j: int): seq<Square>
    requires Cursor(i, j)
    decreases i, j
  {
    if j == 0 then (if i == 0 then [] else Gather(f, i - 1, 9))
    else Gather(f, i, j - 1) + (if f(i, j - 1) then [Square(i, j - 1)] else [])
  }

  lemma {:induction false} AnyFromSpec(f: (int, int) -> bool, i: int, j: int)
    requires 0 <= i <= 9 && 0 <= j <= 9
    ensures AnyFrom(f, i, j) <==> exists r, c :: InBounds(r, c) && !Before(r, c, Square(i, j)) && f(r, c)
    decreases 9 - i, 9 - j
  {
    if i == 9 {
    } else if j == 9 {
      AnyFromSpec(f, i + 1, 0);
    } else {
      AnyFromSpec(f, i, j + 1);
      if exists r, c :: InBounds(r, c) && !Before(r, c, Square(i, j)) && f(r, c) {
        var r, c :| InBounds(r, c) && !Before(r, c, Square(i, j)) && f(r, c);
        if (r, c) != (i, j) {
          assert !Before(r, c, Square(i, j + 1));
        }
      }
    }
  }

  lemma {:induction false} AllFromSpec(f: (int, int) -> bool, i: int, j: int)
    requires 0 <= i <= 9 && 0 <= j <= 9
    ensures AllFrom(f, i, j) <==> forall r, c :: InBounds(r, c) && !Before(r, c, Square(i, j)) ==> f(r, c)
    decreases 9 - i, 9 - j
  {
    if i == 9 {
    } else if j == 9 {
      AllFromSpec(f, i + 1, 0);
    } else {
      AllFromSpec(f, i, j + 1);
    }
  }

  lemma {:induction false} GatherMembers(f: (int, int) -> bool, i: int, j: int)
    requires Cursor(i, j)
    ensures forall s :: s in Gather(f, i, j) <==> (OnBoard(s) && Before(s.row, s.col, Square(i, j)) && f(s.row, s.col))
    decreases i, j
  {
    if j == 0 {
      if i > 0 {
        GatherMembers(f, i - 1, 9);
      }
    } else {
      GatherMembers(f, i, j - 1);
    }
  }

  /** Row-major order, each square at most once. */
  predicate Ordered(d: seq<Square>) {
    forall m, n :: 0 <= m < n < |d| ==> Before(d[m].row, d[m].col, d[n])
  }

  lemma {:induction false} GatherOrdered(f: (int, int) -> bool, i: int, j: int)
    requires Cursor(i, j)
    ensures Ordered(Gather(f, i, j))
    decreases i, j
  {
    if j == 0 {
      if i > 0 {
        GatherOrdered(f, i - 1, 9);
      }
    } else {
      GatherOrdered(f, i, j - 1);
      var front := Gather(f, i, j - 1);
      if f(i, j - 1) {
        GatherMembers(f, i, j - 1);
        var d := front + [Square(i, j - 1)];
        forall m, n | 0 <= m < n < |d|
          ensures Before(d[m].row, d[m].col, d[n])
        {
          assert d[m] == front[m];
          if n < |front| {
            assert d[n] == front[n];
          } else {
            assert front[m] in front;
          }
        }
        assert Gather(f, i, j) == d;
      } else {
        assert Gather(f, i, j) == front;
      }
    }
  }

  /** Some index in n..len-1 satisfies `g`: a scan over a list that stops at the first hit. */
  predicate AnyIndex(g: int -> bool, n: int, len: int)
    decreases len - n
  {
    n < len && (g(n) || AnyIndex(g, n + 1, len))
  }

  lemma {:induction false} AnyIndexSpec(g: int -> bool, n: int, len: int)
    ensures AnyIndex(g, n, len) <==> exists m :: n <= m < len && g(m)
    decreases len - n
  {
    if n < len {
      AnyIndexSpec(g, n + 1, len);
    }
  }

  /** What a scan that appends the list `f(r, c)` for every square has collected when it
      reaches (i, j). */
  function Concat<T>(f: (int, int) -> seq<T>, i: int, j: int): seq<T>
    requires Cursor(i, j)
    decreases i, j
  {
    if j == 0 then (if i == 0 then [] else Concat(f, i - 1, 9))
    else Concat(f, i, j - 1) + f(i, j - 1)
  }

  lemma {:induction false} ConcatSound<T>(f: (int, int) -> seq<T>, i: int, j: int, m: T)
    requires Cursor(i, j) && m in Concat(f, i, j)
    ensures exists r, c :: InBounds(r, c) && Before(r, c, Square(i, j)) && m in f(r, c)
    decreases i, j
  {
    if j == 0 {
      ConcatSound(f, i - 1, 9, m);
    } else if m in Concat(f, i, j - 1) {
      ConcatSound(f, i, j - 1, m);
    } else {
      assert InBounds(i, j - 1) && Before(i, j - 1, Square(i, j)) && m in f(i, j - 1);
    }
  }

  lemma {:induction false} ConcatComplete<T>(f: (int, int) -> seq<T>, i: int, j: int, r: int, c: int, m: T)
    requires Cursor(i, j) && InBounds(r, c) && Before(r, c, Square(i, j)) && m in f(r, c)
    ensures m in Concat(f, i, j)
    decreases i, j
  {
    if j == 0 {
      ConcatComplete(f, i - 1, 9, r, c, m);
    } else if r != i || c != j - 1 {
      ConcatComplete(f, i, j - 1, r, c, m);
    }
  }

  /** The lists `g(0)`, ..., `g(n-1)` one after another: a loop over a list that appends
      what each element yields. */
  function Flatten<T>(g: int -> seq<T>, n: int): seq<T>
    requires n >= 0
  {
    if n == 0 then [] else Flatten(g, n - 1) + g(n - 1)
  }

  lemma {:induction false} FlattenSound<T>(g: int -> seq<T>, n: int, m: T)
    requires n >= 0 && m in Flatten(g, n)
    ensures exists k :: 0 <= k < n && m in g(k)
  {
    if m !in g(n - 1) {
      FlattenSound(g, n - 1, m);
    }
  }

  lemma {:induction false} FlattenComplete<T>(g: int -> seq<T>, n: int, k: int, m: T)
    requires 0 <= k < n && m in g(k)
    ensures m in Flatten(g, n)
  {
    if k < n - 1 {
      FlattenComplete(g, n - 1, k, m);
    }
  }
}
