/** `groupAndSortCaptured(capturedArray)` of pages/index.js (lines 246-262): a hand is shown
    as one group per piece string with `+` removed, each with its count, groups in order of
    first occurrence and then stably sorted by `getPieceValue`, highest first. */
module Hands {
  import opened Board
  import opened Evaluation
  import opened Sorting

  /** `piece.replace("+", "")`: the string a piece is grouped under. */
  function KeyOf(p: Piece): (k: Piece)
    ensures k.kind == p.kind && k.upper == p.upper && !k.promoted
  {
    p.(promoted := false)
  }

  /** The number of pieces of `h` grouped under `k`. */
  function Count(h: seq<Piece>, k: Piece): nat
    decreases |h|
  {
    if h == [] then 0 else Count(h[..|h| - 1], k) + (if KeyOf(h[|h| - 1]) == k then 1 else 0)
  }

  /** The keys of the `grouped` object in insertion order, which is the order of first
      occurrence. */
  function Keys(h: seq<Piece>): seq<Piece>
    decreases |h|
  {
    if h == [] then []
    else
      var ks := Keys(h[..|h| - 1]);
      var k := KeyOf(h[|h| - 1]);
      if k in ks then ks else ks + [k]
  }

  /** One `{ piece, count }` of the display. */
  datatype Group = Group(piece: Piece, count: nat)

  /** `Object.entries(grouped)`. */
  function Tally(h: seq<Piece>): (t: seq<Group>)
    ensures |t| == |Keys(h)|
    ensures forall i :: 0 <= i < |t| ==> t[i] == Group(Keys(h)[i], Count(h, Keys(h)[i]))
  {
    var ks := Keys(h);
    seq(|ks|, i requires 0 <= i < |ks| => Group(ks[i], Count(h, ks[i])))
  }

  /** `getPieceValue(piece)` as the comparator's key: the base value of the piece. */
  function GroupKey(g: Group): Key {
    (BaseValue(g.piece.kind), 0, 0)
  }

  /** The display order: the tally stably sorted by piece value, highest first. */
  function Grouped(h: seq<Piece>): seq<Group> {
    StableSort(Tally(h), GroupKey)
  }

  /** The sum of the counts of a list of groups. */
  function Total(gs: seq<Group>): nat
    decreases |gs|
  {
    if gs == [] then 0 else Total(gs[..|gs| - 1]) + gs[|gs| - 1].count
  }

  // ---------------------------------------------------------------------------------
  // The loop of the source

  /** The `for ... of` loop filling `grouped`, then `Object.entries`, `sort` and `map`. */
  method GroupAndSortCaptured(captured: seq<Piece>) returns (groups: seq<Group>)
    ensures groups == Grouped(captured)
  {
    var keys: seq<Piece> := [];
    var grouped: map<Piece, nat> := map[];
    for i := 0 to |captured|
      invariant keys == Keys(captured[..i])
      invariant forall k :: k in grouped <==> k in keys
      invariant forall k :: k in grouped ==> grouped[k] == Count(captured[..i], k)
    {
      var normalized := KeyOf(captured[i]);
      assert captured[..i + 1][..i] == captured[..i];
      ghost var before := grouped;
      if normalized !in grouped {
        keys := keys + [normalized];
        grouped := grouped[normalized := 1];
      } else {
        grouped := grouped[normalized := grouped[normalized] + 1];
      }
      forall k | k in grouped
        ensures grouped[k] == Count(captured[..i + 1], k)
      {
        if k !in before {
          CountAbsent(captured[..i], k);
        }
      }
    }
    assert captured[..|captured|] == captured;
    var entries: seq<Group> := [];
    for j := 0 to |keys|
      invariant entries == Tally(captured)[..j]
    {
      entries := entries + [Group(keys[j], grouped[keys[j]])];
    }
    assert entries == Tally(captured);
    groups := StableSort(entries, GroupKey);
  }

  /** A key that is not among the keys has no pieces. */
  lemma CountAbsent(h: seq<Piece>, k: Piece)
    requires k !in Keys(h)
    ensures Count(h, k) == 0
  {
    KeysComplete(h, k);
  }

  // ---------------------------------------------------------------------------------
  // What the display promises

  /** Each key appears once. */
  lemma {:induction false} KeysDistinct(h: seq<Piece>)
    ensures forall i, j :: 0 <= i < j < |Keys(h)| ==> Keys(h)[i] != Keys(h)[j]
    decreases |h|
  {
    if h != [] {
      KeysDistinct(h[..|h| - 1]);
    }
  }

  /** A key is listed exactly when some piece of the hand is grouped under it, which is
      exactly when its count is positive. */
  lemma {:induction false} KeysComplete(h: seq<Piece>, k: Piece)
    ensures k in Keys(h) <==> exists i :: 0 <= i < |h| && KeyOf(h[i]) == k
    ensures k in Keys(h) <==> Count(h, k) > 0
    decreases |h|
  {
    if h != [] {
      var init := h[..|h| - 1];
      KeysComplete(init, k);
      if k in Keys(init) {
        var i :| 0 <= i < |init| && KeyOf(init[i]) == k;
        assert h[i] == init[i];
      }
      if exists i :: 0 <= i < |h| && KeyOf(h[i]) == k {
        var i :| 0 <= i < |h| && KeyOf(h[i]) == k;
        if i < |init| {
          assert init[i] == h[i];
        }
      }
    }
  }

  /** The counts of all the keys of a hand add up to the size of the hand: no piece is
      lost or counted twice. */
  lemma TallyTotal(h: seq<Piece>)
    ensures Total(Tally(h)) == |h|
  {
    KeysDistinct(h);
    CountsAddUp(h);
  }

  /** The sum over a list of distinct keys of their counts. */
  function CountOver(ks: seq<Piece>, h: seq<Piece>): nat
    decreases |ks|
  {
    if ks == [] then 0 else CountOver(ks[..|ks| - 1], h) + Count(h, ks[|ks| - 1])
  }

  lemma {:induction false} TotalIsCountOver(t: seq<Group>, ks: seq<Piece>, h: seq<Piece>)
    requires |t| == |ks| && forall i :: 0 <= i < |t| ==> t[i] == Group(ks[i], Count(h, ks[i]))
    ensures Total(t) == CountOver(ks, h)
    decreases |t|
  {
    if t != [] {
      TotalIsCountOver(t[..|t| - 1], ks[..|ks| - 1], h);
    }
  }

  lemma CountsAddUp(h: seq<Piece>)
    requires forall i, j :: 0 <= i < j < |Keys(h)| ==> Keys(h)[i] != Keys(h)[j]
    ensures Total(Tally(h)) == |h|
  {
    TotalIsCountOver(Tally(h), Keys(h), h);
    CountOverKeys(h);
  }

  /** Adding a piece to the hand adds one to the count of its own key and nothing to the
      others. */
  lemma {:induction false} CountOverSnoc(ks: seq<Piece>, h: seq<Piece>, p: Piece)
    requires forall i, j :: 0 <= i < j < |ks| ==> ks[i] != ks[j]
    ensures CountOver(ks, h + [p]) == CountOver(ks, h) + (if KeyOf(p) in ks then 1 else 0)
    decreases |ks|
  {
    assert (h + [p])[..|h + [p]| - 1] == h;
    if ks != [] {
      CountOverSnoc(ks[..|ks| - 1], h, p);
      assert KeyOf(p) in ks <==> KeyOf(p) in ks[..|ks| - 1] || KeyOf(p) == ks[|ks| - 1];
    }
  }

  lemma {:induction false} CountOverKeys(h: seq<Piece>)
    ensures CountOver(Keys(h), h) == |h|
    decreases |h|
  {
    if h != [] {
      var init, p := h[..|h| - 1], h[|h| - 1];
      assert h == init + [p];
      CountOverKeys(init);
      KeysDistinct(init);
      CountOverSnoc(Keys(init), init, p);
      if KeyOf(p) !in Keys(init) {
        CountAbsent(init, KeyOf(p));
        assert Keys(h) == Keys(init) + [KeyOf(p)];
        assert Keys(h)[..|Keys(h)| - 1] == Keys(init);
      }
    }
  }

  /** The display is the tally reordered: highest value first, groups of equal value in
      order of first occurrence, none gained or lost. */
  lemma GroupedIsSortedTally(h: seq<Piece>)
    ensures SortedDesc(Grouped(h), GroupKey)
    ensures multiset(Grouped(h)) == multiset(Tally(h))
    ensures forall v :: WithKey(Grouped(h), GroupKey, v) == WithKey(Tally(h), GroupKey, v)
  {
    StableSortSorted(Tally(h), GroupKey);
    forall v
      ensures WithKey(Grouped(h), GroupKey, v) == WithKey(Tally(h), GroupKey, v)
    {
      StableSortStable(Tally(h), GroupKey, v);
    }
  }

  /** Every group of the display is a key of the hand with its exact count, and every key
      of the hand has a group. */
  lemma GroupedCounts(h: seq<Piece>, g: Group)
    ensures g in Grouped(h) <==> g.piece in Keys(h) && g.count == Count(h, g.piece)
  {
    GroupedIsSortedTally(h);
    assert g in Grouped(h) <==> g in multiset(Tally(h));
    if g.piece in Keys(h) && g.count == Count(h, g.piece) {
      var i :| 0 <= i < |Keys(h)| && Keys(h)[i] == g.piece;
      assert Tally(h)[i] == g;
    }
  }
}
