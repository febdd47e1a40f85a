/** The cart as a value: its lines, the lookup by product id, the item count,
    and the new line sequence each cart operation produces. */
module CartLines {
  import opened Seqs
  import opened Catalog

  /** One cart entry: the product as it was when it was first added, and how
      many of it are in the cart. */
  datatype Line = Line(item: Product, quantity: int) {
    function Id(): int { item.id }
  }

  /** No product id occurs on two lines. */
  ghost predicate DistinctIds(s: seq<Line>)
  {
    forall i, j :: 0 <= i < j < |s| ==> s[i].Id() != s[j].Id()
  }

  /** Every line holds at least one unit. */
  ghost predicate PositiveQuantities(s: seq<Line>)
  {
    forall i :: 0 <= i < |s| ==> s[i].quantity >= 1
  }

  /** The invariant the cart operations keep. */
  ghost predicate Wellformed(s: seq<Line>)
  {
    DistinctIds(s) && PositiveQuantities(s)
  }

  /** `i` is the position of the first line for product `id`. */
  ghost predicate FirstWith(s: seq<Line>, id: int, i: int)
  {
    0 <= i < |s| && s[i].Id() == id && forall j :: 0 <= j < i ==> s[j].Id() != id
  }

  /** No line is for product `id`. */
  ghost predicate Absent(s: seq<Line>, id: int)
  {
    forall j :: 0 <= j < |s| ==> s[j].Id() != id
  }

  /** The array `findIndex` on the product id: the first matching position, or -1. */
  function FindIndex(s: seq<Line>, id: int): (r: int)
    ensures -1 <= r < |s|
    ensures r == -1 <==> Absent(s, id)
    ensures r != -1 ==> FirstWith(s, id, r)
  {
    if s == [] then -1
    else if s[0].Id() == id then 0
    else
      var k := FindIndex(s[1..], id);
      if k == -1 then -1 else k + 1
  }

  /** The total number of units, summed from the first line to the last. */
  function ItemCount(s: seq<Line>): int
  {
    if s == [] then 0 else ItemCount(s[..|s| - 1]) + s[|s| - 1].quantity
  }

  /** The lines after adding one unit of `p`. */
  function Added(s: seq<Line>, p: Product): seq<Line>
  {
    var i := FindIndex(s, p.id);
    if i > -1 then s[i := s[i].(quantity := s[i].quantity + 1)] else s + [Line(p, 1)]
  }

  /** The lines after changing the quantity of product `id` by `delta`. */
  function Changed(s: seq<Line>, id: int, delta: int): seq<Line>
  {
    var i := FindIndex(s, id);
    if i == -1 then s
    else if s[i].quantity + delta <= 0 then s[..i] + s[i+1..]
    else s[i := s[i].(quantity := s[i].quantity + delta)]
  }

  /** The selector "is not a line for product `id`". */
  function OtherThan(id: int): Line -> bool
  {
    (l: Line) => l.Id() != id
  }

  /** The lines after removing product `id`. */
  function Without(s: seq<Line>, id: int): seq<Line>
  {
    Filter(s, OtherThan(id))
  }

  // ---------------------------------------------------------------------
  // Lookup

  /** Any line for `id` is the first one once ids are distinct. */
  lemma FirstWithWhenDistinct(s: seq<Line>, id: int, i: int)
    requires DistinctIds(s) && 0 <= i < |s| && s[i].Id() == id
    ensures FirstWith(s, id, i) && FindIndex(s, id) == i
  {
  }

  // ---------------------------------------------------------------------
  // Item count

  lemma {:induction false} ItemCountConcat(a: seq<Line>, b: seq<Line>)
    ensures ItemCount(a + b) == ItemCount(a) + ItemCount(b)
  {
    if b == [] {
      assert a + b == a;
    } else {
      assert (a + b)[..|a + b| - 1] == a + b[..|b| - 1];
      ItemCountConcat(a, b[..|b| - 1]);
    }
  }

  /** With every quantity at least one, the count is at least the number of
      lines, so it is zero exactly for the empty cart. */
  lemma {:induction false} ItemCountBounds(s: seq<Line>)
    requires PositiveQuantities(s)
    ensures ItemCount(s) >= |s|
    ensures ItemCount(s) == 0 <==> s == []
  {
    if s != [] {
      ItemCountBounds(s[..|s| - 1]);
    }
  }

  /** Replacing one line changes the count by the difference of the two quantities. */
  lemma ItemCountUpdate(s: seq<Line>, i: int, l: Line)
    requires 0 <= i < |s|
    ensures ItemCount(s[i := l]) == ItemCount(s) - s[i].quantity + l.quantity
  {
    assert s == s[..i] + [s[i]] + s[i+1..];
    assert s[i := l] == s[..i] + [l] + s[i+1..];
    ItemCountConcat(s[..i] + [s[i]], s[i+1..]);
    ItemCountConcat(s[..i] + [l], s[i+1..]);
    ItemCountConcat(s[..i], [s[i]]);
    ItemCountConcat(s[..i], [l]);
    assert ItemCount([l]) == l.quantity by { assert [l][..0] == []; }
    assert ItemCount([s[i]]) == s[i].quantity by { assert [s[i]][..0] == []; }
  }

  /** Splicing out one line lowers the count by its quantity. */
  lemma ItemCountSplice(s: seq<Line>, i: int)
    requires 0 <= i < |s|
    ensures ItemCount(s[..i] + s[i+1..]) == ItemCount(s) - s[i].quantity
  {
    assert s == s[..i] + [s[i]] + s[i+1..];
    ItemCountConcat(s[..i] + [s[i]], s[i+1..]);
    ItemCountConcat(s[..i], [s[i]]);
    ItemCountConcat(s[..i], s[i+1..]);
    assert ItemCount([s[i]]) == s[i].quantity by { assert [s[i]][..0] == []; }
  }

  // ---------------------------------------------------------------------
  // Shapes that keep the invariant

  lemma UpdatePreservesWellformed(s: seq<Line>, i: int, q: int)
    requires Wellformed(s) && 0 <= i < |s| && q >= 1
    ensures Wellformed(s[i := s[i].(quantity := q)])
  {
    var r := s[i := s[i].(quantity := q)];
    forall a, b | 0 <= a < b < |r| ensures r[a].Id() != r[b].Id() {
      assert r[a].Id() == s[a].Id() && r[b].Id() == s[b].Id();
    }
  }

  lemma SplicePreservesWellformed(s: seq<Line>, i: int)
    requires Wellformed(s) && 0 <= i < |s|
    ensures Wellformed(s[..i] + s[i+1..])
  {
    var r := s[..i] + s[i+1..];
    forall a | 0 <= a < |r| ensures r[a] == s[if a < i then a else a + 1] {
    }
    forall a, b | 0 <= a < b < |r| ensures r[a].Id() != r[b].Id() {
      assert r[a] == s[if a < i then a else a + 1];
      assert r[b] == s[if b < i then b else b + 1];
    }
  }

  // ---------------------------------------------------------------------
  // Adding a product

  /** A product already in the cart: its first line gains exactly one unit and
      keeps the snapshot taken when it was first added; every other line and
      the length stay as they were. */
  lemma AddIncrementsExisting(s: seq<Line>, p: Product, i: int)
    requires FirstWith(s, p.id, i)
    ensures |Added(s, p)| == |s|
    ensures Added(s, p)[i] == Line(s[i].item, s[i].quantity + 1)
    ensures forall j :: 0 <= j < |s| && j != i ==> Added(s, p)[j] == s[j]
  {
    assert FindIndex(s, p.id) == i;
  }

  /** A product not in the cart: one line with quantity 1 is appended and the
      earlier lines are untouched. */
  lemma AddAppendsNew(s: seq<Line>, p: Product)
    requires Absent(s, p.id)
    ensures Added(s, p) == s + [Line(p, 1)]
  {
  }

  /** Adding the same new product twice leaves a single line for it with quantity 2. */
  lemma AddTwiceMerges(s: seq<Line>, p: Product)
    requires Absent(s, p.id)
    ensures Added(Added(s, p), p) == s + [Line(p, 2)]
  {
    var once := Added(s, p);
    AddAppendsNew(s, p);
    assert FirstWith(once, p.id, |s|);
    AddIncrementsExisting(once, p, |s|);
  }

  lemma AddPreservesWellformed(s: seq<Line>, p: Product)
    requires Wellformed(s)
    ensures Wellformed(Added(s, p))
  {
    var i := FindIndex(s, p.id);
    if i > -1 {
      UpdatePreservesWellformed(s, i, s[i].quantity + 1);
    } else {
      var r := s + [Line(p, 1)];
      forall a, b | 0 <= a < b < |r| ensures r[a].Id() != r[b].Id() {
        if b == |s| {
          assert r[a] == s[a];
        }
      }
    }
  }

  /** Every add raises the item count by exactly one. */
  lemma AddCount(s: seq<Line>, p: Product)
    ensures ItemCount(Added(s, p)) == ItemCount(s) + 1
  {
    var i := FindIndex(s, p.id);
    if i > -1 {
      ItemCountUpdate(s, i, s[i].(quantity := s[i].quantity + 1));
    } else {
      ItemCountConcat(s, [Line(p, 1)]);
      assert ItemCount([Line(p, 1)]) == 1 by { assert [Line(p, 1)][..0] == []; }
    }
  }

  // ---------------------------------------------------------------------
  // Changing a quantity

  /** An id with no line leaves the cart as it was. */
  lemma ChangeAbsent(s: seq<Line>, id: int, delta: int)
    requires Absent(s, id)
    ensures Changed(s, id, delta) == s
  {
  }

  /** A change that brings the first line for `id` to zero or below removes
      that line; the others keep their order and values. */
  lemma ChangeRemoves(s: seq<Line>, id: int, delta: int, i: int)
    requires FirstWith(s, id, i) && s[i].quantity + delta <= 0
    ensures Changed(s, id, delta) == s[..i] + s[i+1..]
  {
    assert FindIndex(s, id) == i;
  }

  /** A change that leaves a positive quantity alters only that line's
      quantity, by exactly `delta`. */
  lemma ChangeUpdates(s: seq<Line>, id: int, delta: int, i: int)
    requires FirstWith(s, id, i) && s[i].quantity + delta > 0
    ensures |Changed(s, id, delta)| == |s|
    ensures Changed(s, id, delta)[i] == Line(s[i].item, s[i].quantity + delta)
    ensures forall j :: 0 <= j < |s| && j != i ==> Changed(s, id, delta)[j] == s[j]
  {
    assert FindIndex(s, id) == i;
  }

  lemma ChangePreservesWellformed(s: seq<Line>, id: int, delta: int)
    requires Wellformed(s)
    ensures Wellformed(Changed(s, id, delta))
  {
    var i := FindIndex(s, id);
    if i != -1 {
      if s[i].quantity + delta <= 0 {
        SplicePreservesWellformed(s, i);
      } else {
        UpdatePreservesWellformed(s, i, s[i].quantity + delta);
      }
    }
  }

  /** The item count moves by `delta`, or by minus the old quantity when the
      line is removed. */
  lemma ChangeCount(s: seq<Line>, id: int, delta: int, i: int)
    requires FirstWith(s, id, i)
    ensures ItemCount(Changed(s, id, delta)) ==
            ItemCount(s) + (if s[i].quantity + delta <= 0 then -s[i].quantity else delta)
  {
    assert FindIndex(s, id) == i;
    if s[i].quantity + delta <= 0 {
      assert Changed(s, id, delta) == s[..i] + s[i+1..];
      ItemCountSplice(s, i);
    } else {
      var l := s[i].(quantity := s[i].quantity + delta);
      assert Changed(s, id, delta) == s[i := l];
      ItemCountUpdate(s, i, l);
    }
  }

  /** The minus button on a line of a cart whose quantities are all at least 1
      lowers the count by one. */
  lemma DecrementCount(s: seq<Line>, id: int)
    requires PositiveQuantities(s) && !Absent(s, id)
    ensures ItemCount(Changed(s, id, -1)) == ItemCount(s) - 1
  {
    var i := FindIndex(s, id);
    ChangeCount(s, id, -1, i);
  }

  /** The plus button on a line of a cart whose quantities are all at least 1
      raises the count by one. */
  lemma IncrementCount(s: seq<Line>, id: int)
    requires PositiveQuantities(s) && !Absent(s, id)
    ensures ItemCount(Changed(s, id, 1)) == ItemCount(s) + 1
  {
    var i := FindIndex(s, id);
    ChangeCount(s, id, 1, i);
  }

  // ---------------------------------------------------------------------
  // Removing a product

  /** No line for `id` survives, and every other line does. */
  lemma WithoutDropsExactly(s: seq<Line>, id: int)
    ensures forall k :: 0 <= k < |Without(s, id)| ==>
      Without(s, id)[k] in s && Without(s, id)[k].Id() != id
    ensures forall k :: 0 <= k < |s| && s[k].Id() != id ==> s[k] in Without(s, id)
  {
    var r := Without(s, id);
    forall k | 0 <= k < |r| ensures r[k] in s && r[k].Id() != id {
      assert OtherThan(id)(r[k]);
    }
    forall k | 0 <= k < |s| && s[k].Id() != id ensures s[k] in r {
      assert OtherThan(id)(s[k]);
    }
  }

  /** The surviving lines keep their order and their multiplicity. */
  lemma WithoutKeepsOthers(s: seq<Line>, id: int, l: Line)
    ensures IsSubsequence(Without(s, id), s)
    ensures multiset(Without(s, id))[l] == if l.Id() != id then multiset(s)[l] else 0
  {
    FilterIsSubsequence(s, OtherThan(id));
    FilterMultiplicity(s, OtherThan(id), l);
  }

  /** Removing an id that has no line changes nothing. */
  lemma WithoutAbsent(s: seq<Line>, id: int)
    requires Absent(s, id)
    ensures Without(s, id) == s
  {
    forall k | 0 <= k < |s| ensures OtherThan(id)(s[k]) {
    }
    FilterKeepsAll(s, OtherThan(id));
  }

  /** Removing twice is removing once. */
  lemma WithoutIdempotent(s: seq<Line>, id: int)
    ensures Without(Without(s, id), id) == Without(s, id)
  {
    FilterIdempotent(s, OtherThan(id));
  }

  /** In a cart with distinct ids, removal splices out the one line for `id`. */
  lemma WithoutSplices(s: seq<Line>, id: int, i: int)
    requires DistinctIds(s) && 0 <= i < |s| && s[i].Id() == id
    ensures Without(s, id) == s[..i] + s[i+1..]
  {
    forall k | 0 <= k < |s| && k != i ensures OtherThan(id)(s[k]) {
      if k < i {
        assert s[k].Id() != s[i].Id();
      } else {
        assert s[i].Id() != s[k].Id();
      }
    }
    FilterDropsOne(s, OtherThan(id), i);
  }

  lemma WithoutPreservesWellformed(s: seq<Line>, id: int)
    requires Wellformed(s)
    ensures Wellformed(Without(s, id))
  {
    var i := FindIndex(s, id);
    if i == -1 {
      WithoutAbsent(s, id);
    } else {
      WithoutSplices(s, id, i);
      SplicePreservesWellformed(s, i);
    }
  }

  /** Removal lowers the item count by the removed line's quantity. */
  lemma WithoutCount(s: seq<Line>, id: int)
    requires DistinctIds(s)
    ensures ItemCount(Without(s, id)) ==
            ItemCount(s) - (var i := FindIndex(s, id); if i == -1 then 0 else s[i].quantity)
  {
    var i := FindIndex(s, id);
    if i == -1 {
      WithoutAbsent(s, id);
    } else {
      WithoutSplices(s, id, i);
      ItemCountSplice(s, i);
    }
  }

  /** In a cart with distinct ids, a change down to zero or below is the same
      as removing the product. */
  lemma ChangeToZeroIsRemove(s: seq<Line>, id: int, delta: int, i: int)
    requires DistinctIds(s) && 0 <= i < |s| && s[i].Id() == id && s[i].quantity + delta <= 0
    ensures Changed(s, id, delta) == Without(s, id)
  {
    FirstWithWhenDistinct(s, id, i);
    ChangeRemoves(s, id, delta, i);
    WithoutSplices(s, id, i);
  }

  // ---------------------------------------------------------------------
  // A session

  /** Empty cart, add a product twice, then press minus twice: the cart goes
      through one line of quantity 1, then 2, then 1, and ends empty. */
  lemma AddTwiceThenDecrementTwice(p: Product)
    ensures Added([], p) == [Line(p, 1)]
    ensures Added([Line(p, 1)], p) == [Line(p, 2)]
    ensures Changed([Line(p, 2)], p.id, -1) == [Line(p, 1)]
    ensures Changed([Line(p, 1)], p.id, -1) == []
    ensures ItemCount([Line(p, 2)]) == 2
  {
    AddTwiceMerges([], p);
    assert FirstWith([Line(p, 2)], p.id, 0);
    ChangeUpdates([Line(p, 2)], p.id, -1, 0);
    assert FirstWith([Line(p, 1)], p.id, 0);
    ChangeRemoves([Line(p, 1)], p.id, -1, 0);
    assert [Line(p, 2)][..0] == [];
  }
}
