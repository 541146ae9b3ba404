/** `Array.prototype.sort` as the live engine calls it: with a comparator that orders by
    up to three integer keys, largest first, and with the stability the language
    guarantees (elements that compare equal keep their order). Every sort in the core
    (candidate moves, captured-piece groups, fallback scores) is this one, for its own
    key. */
module Sorting {

  /** A sort key: compared on the first component, then the second, then the third. */
  type Key = (int, int, int)

  /** `a` sorts strictly before `b`: the comparator returns a positive number for (b, a). */
  predicate Outranks(a: Key, b: Key) {
    a.0 > b.0 || (a.0 == b.0 && (a.1 > b.1 || (a.1 == b.1 && a.2 > b.2)))
  }

  /** Largest key first: no later element outranks an earlier one. */
  predicate SortedDesc<T>(s: seq<T>, key: T -> Key) {
    forall i, j :: 0 <= i < j < |s| ==> !Outranks(key(s[j]), key(s[i]))
  }

  /** `x` placed before the first element it outranks, so after every element whose key
      is at least its own. */
  function Insert<T>(x: T, t: seq<T>, key: T -> Key): seq<T>
    decreases |t|
  {
    if t == [] then [x]
    else if Outranks(key(x), key(t[0])) then [x] + t
    else [t[0]] + Insert(x, t[1..], key)
  }

  /** The stable sort: each element in input order inserted into the sorted prefix. */
  function StableSort<T>(s: seq<T>, key: T -> Key): seq<T>
    decreases |s|
  {
    if s == [] then []
    else Insert(s[|s| - 1], StableSort(s[..|s| - 1], key), key)
  }

  /** The elements of `s` whose key is `k`, in order. */
  function WithKey<T>(s: seq<T>, key: T -> Key, k: Key): seq<T>
    decreases |s|
  {
    if s == [] then []
    else (if key(s[0]) == k then [s[0]] else []) + WithKey(s[1..], key, k)
  }

  lemma {:induction false} WithKeyAppend<T>(a: seq<T>, b: seq<T>, key: T -> Key, k: Key)
    ensures WithKey(a + b, key, k) == WithKey(a, key, k) + WithKey(b, key, k)
    decreases |a|
  {
    if a == [] {
      assert a + b == b;
    } else {
      assert (a + b)[0] == a[0] && (a + b)[1..] == a[1..] + b;
      WithKeyAppend(a[1..], b, key, k);
    }
  }

  /** Nothing in `t` has a key that `x` outranks less than its head does. */
  lemma {:induction false} OutranksAll<T>(x: T, t: seq<T>, key: T -> Key)
    requires t != [] && SortedDesc(t, key) && Outranks(key(x), key(t[0]))
    ensures forall e :: e in t ==> Outranks(key(x), key(e))
  {
    forall e | e in t
      ensures Outranks(key(x), key(e))
    {
      var j :| 0 <= j < |t| && t[j] == e;
      if j > 0 {
        assert !Outranks(key(t[j]), key(t[0]));
      }
    }
  }

  lemma {:induction false} NoneWithKey<T>(t: seq<T>, key: T -> Key, k: Key)
    requires forall e :: e in t ==> key(e) != k
    ensures WithKey(t, key, k) == []
    decreases |t|
  {
    if t != [] {
      assert forall e :: e in t[1..] ==> e in t;
      NoneWithKey(t[1..], key, k);
    }
  }

  lemma {:induction false} InsertPerm<T>(x: T, t: seq<T>, key: T -> Key)
    ensures multiset(Insert(x, t, key)) == multiset(t) + multiset{x}
    decreases |t|
  {
    if t != [] && !Outranks(key(x), key(t[0])) {
      InsertPerm(x, t[1..], key);
      assert t == [t[0]] + t[1..];
    }
  }

  lemma {:induction false} SortedTail<T>(t: seq<T>, key: T -> Key)
    requires t != [] && SortedDesc(t, key)
    ensures SortedDesc(t[1..], key)
  {
    var rest := t[1..];
    forall i, j | 0 <= i < j < |rest|
      ensures !Outranks(key(rest[j]), key(rest[i]))
    {
      assert rest[i] == t[i + 1] && rest[j] == t[j + 1];
    }
  }

  lemma ConsSorted<T>(h: T, u: seq<T>, key: T -> Key)
    requires SortedDesc(u, key) && forall e :: e in u ==> !Outranks(key(e), key(h))
    ensures SortedDesc([h] + u, key)
  {
    var r := [h] + u;
    forall i, j | 0 <= i < j < |r|
      ensures !Outranks(key(r[j]), key(r[i]))
    {
      assert r[j] == u[j - 1];
      if i > 0 {
        assert r[i] == u[i - 1];
      }
    }
  }

  lemma {:induction false} InsertSorted<T>(x: T, t: seq<T>, key: T -> Key)
    requires SortedDesc(t, key)
    ensures SortedDesc(Insert(x, t, key), key)
    decreases |t|
  {
    if t == [] {
    } else if Outranks(key(x), key(t[0])) {
      OutranksAll(x, t, key);
      ConsSorted(x, t, key);
    } else {
      var rest := t[1..];
      SortedTail(t, key);
      InsertSorted(x, rest, key);
      InsertPerm(x, rest, key);
      var ins := Insert(x, rest, key);
      forall e | e in ins
        ensures !Outranks(key(e), key(t[0]))
      {
        assert e in multiset(ins);
        if e != x {
          assert e in multiset(rest);
          var m :| 0 <= m < |rest| && rest[m] == e;
          assert t[m + 1] == e;
        }
      }
      ConsSorted(t[0], ins, key);
    }
  }

  /** Inserting into a sorted sequence puts `x` after every element with its key. */
  lemma {:induction false} InsertWithKey<T>(x: T, t: seq<T>, key: T -> Key, k: Key)
    requires SortedDesc(t, key)
    ensures WithKey(Insert(x, t, key), key, k) == WithKey(t, key, k) + (if key(x) == k then [x] else [])
    decreases |t|
  {
    if t == [] {
    } else if Outranks(key(x), key(t[0])) {
      WithKeyAppend([x], t, key, k);
      if key(x) == k {
        OutranksAll(x, t, key);
        NoneWithKey(t, key, k);
      }
    } else {
      var rest := t[1..];
      SortedTail(t, key);
      InsertWithKey(x, rest, key, k);
      WithKeyAppend([t[0]], Insert(x, rest, key), key, k);
      WithKeyAppend([t[0]], rest, key, k);
      assert t == [t[0]] + rest;
    }
  }

  /** The sort returns its input reordered, largest key first. */
  lemma {:induction false} StableSortSorted<T>(s: seq<T>, key: T -> Key)
    ensures SortedDesc(StableSort(s, key), key)
    ensures multiset(StableSort(s, key)) == multiset(s)
    decreases |s|
  {
    if s != [] {
      var init := s[..|s| - 1];
      StableSortSorted(init, key);
      InsertSorted(s[|s| - 1], StableSort(init, key), key);
      InsertPerm(s[|s| - 1], StableSort(init, key), key);
      assert s == init + [s[|s| - 1]];
    }
  }

  /** The sort is stable: the elements of any one key keep their input order. */
  lemma {:induction false} StableSortStable<T>(s: seq<T>, key: T -> Key, k: Key)
    ensures WithKey(StableSort(s, key), key, k) == WithKey(s, key, k)
    decreases |s|
  {
    if s != [] {
      var init := s[..|s| - 1];
      var last := s[|s| - 1];
      StableSortSorted(init, key);
      StableSortStable(init, key, k);
      InsertWithKey(last, StableSort(init, key), key, k);
      assert s == init + [last];
      WithKeyAppend(init, [last], key, k);
    }
  }

  /** The head of a sorted non-empty input is an element no other element outranks. */
  lemma StableSortHead<T>(s: seq<T>, key: T -> Key)
    requires s != []
    ensures StableSort(s, key) != [] && StableSort(s, key)[0] in s
    ensures forall e :: e in s ==> !Outranks(key(e), key(StableSort(s, key)[0]))
  {
    var r := StableSort(s, key);
    StableSortSorted(s, key);
    assert multiset(r) == multiset(s);
    assert s[0] in multiset(r);
    forall e | e in s
      ensures !Outranks(key(e), key(r[0]))
    {
      assert e in multiset(r);
      var j :| 0 <= j < |r| && r[j] == e;
    }
  }
}
