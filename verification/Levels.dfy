/**
 Order-book sides as sequences of price levels, the way the connectors hold them.
 `QtyAt` is the meaning of a side: the quantity it offers at each price.
 */
module Levels {
  datatype PriceLevel = PriceLevel(price: real, quantity: real)

  /** The direction of a sort: bids go down, asks go up. */
  datatype Direction = Ascending | Descending

  /** The quantity of the first level at price `p`, or zero when there is none. */
  function QtyAt(levels: seq<PriceLevel>, p: real): real {
    if levels == [] then 0.0
    else if levels[0].price == p then levels[0].quantity
    else QtyAt(levels[1..], p)
  }

  ghost predicate Distinct(levels: seq<PriceLevel>) {
    forall i, j :: 0 <= i < j < |levels| ==> levels[i].price != levels[j].price
  }

  ghost predicate NonNegative(levels: seq<PriceLevel>) {
    forall i :: 0 <= i < |levels| ==> levels[i].quantity >= 0.0
  }

  ghost predicate Positive(levels: seq<PriceLevel>) {
    forall i :: 0 <= i < |levels| ==> levels[i].quantity > 0.0
  }

  predicate Before(dir: Direction, a: PriceLevel, b: PriceLevel) {
    if dir.Ascending? then a.price <= b.price else a.price >= b.price
  }

  ghost predicate Sorted(dir: Direction, levels: seq<PriceLevel>) {
    forall i, j :: 0 <= i < j < |levels| ==> Before(dir, levels[i], levels[j])
  }

  /** Places `level` in front of the first level that does not precede it. */
  function Insert(dir: Direction, level: PriceLevel, levels: seq<PriceLevel>): (r: seq<PriceLevel>)
    ensures |r| == |levels| + 1
  {
    if levels == [] || Before(dir, level, levels[0]) then [level] + levels
    else [levels[0]] + Insert(dir, level, levels[1..])
  }

  /** The stable sort that `Array.prototype.sort` performs. */
  function Sort(dir: Direction, levels: seq<PriceLevel>): (r: seq<PriceLevel>)
    ensures |r| == |levels|
  {
    if levels == [] then [] else Insert(dir, levels[0], Sort(dir, levels[1..]))
  }

  lemma {:induction false} InsertPermutes(dir: Direction, level: PriceLevel, levels: seq<PriceLevel>)
    ensures multiset(Insert(dir, level, levels)) == multiset(levels) + multiset{level}
  {
    if levels == [] || Before(dir, level, levels[0]) {
    } else {
      InsertPermutes(dir, level, levels[1..]);
      assert levels == [levels[0]] + levels[1..];
    }
  }

  lemma {:induction false} InsertSorts(dir: Direction, level: PriceLevel, levels: seq<PriceLevel>)
    requires Sorted(dir, levels)
    ensures Sorted(dir, Insert(dir, level, levels))
  {
    if levels == [] || Before(dir, level, levels[0]) {
    } else {
      var tail := levels[1..];
      InsertSorts(dir, level, tail);
      InsertPermutes(dir, level, tail);
      var rest := Insert(dir, level, tail);
      forall i | 0 <= i < |rest|
        ensures Before(dir, levels[0], rest[i])
      {
        assert rest[i] in multiset(tail) + multiset{level};
        assert rest[i] == level || rest[i] in tail;
      }
    }
  }

  /** A sort is a sorted permutation. */
  lemma {:induction false} SortSorts(dir: Direction, levels: seq<PriceLevel>)
    ensures Sorted(dir, Sort(dir, levels))
    ensures multiset(Sort(dir, levels)) == multiset(levels)
  {
    if levels == [] {
    } else {
      SortSorts(dir, levels[1..]);
      InsertPermutes(dir, levels[0], Sort(dir, levels[1..]));
      InsertSorts(dir, levels[0], Sort(dir, levels[1..]));
      assert levels == [levels[0]] + levels[1..];
    }
  }

  /** With distinct prices, a side offers at a level's price what the level says. */
  lemma QtyAtIndex(levels: seq<PriceLevel>, i: nat)
    requires Distinct(levels) && i < |levels|
    ensures QtyAt(levels, levels[i].price) == levels[i].quantity
  {
    if i > 0 {
      QtyAtIndex(levels[1..], i - 1);
    }
  }

  lemma QtyAtAbsent(levels: seq<PriceLevel>, p: real)
    requires forall i :: 0 <= i < |levels| ==> levels[i].price != p
    ensures QtyAt(levels, p) == 0.0
  {
  }

  /** A level is at price `p`, at the returned index, or the side offers nothing there. */
  lemma QtyAtCases(levels: seq<PriceLevel>, p: real) returns (i: nat)
    ensures i <= |levels|
    ensures i < |levels| ==> levels[i].price == p && levels[i].quantity == QtyAt(levels, p)
    ensures i == |levels| ==> QtyAt(levels, p) == 0.0
    ensures forall j :: 0 <= j < i ==> levels[j].price != p
  {
    if levels == [] || levels[0].price == p {
      i := 0;
    } else {
      var k := QtyAtCases(levels[1..], p);
      i := k + 1;
    }
  }

  lemma PermutedPositive(a: seq<PriceLevel>, b: seq<PriceLevel>)
    requires Positive(a) && multiset(a) == multiset(b)
    ensures Positive(b)
  {
    forall i | 0 <= i < |b|
      ensures b[i].quantity > 0.0
    {
      assert b[i] in multiset(a);
    }
  }

  lemma DistinctFromMultiset(a: seq<PriceLevel>, b: seq<PriceLevel>)
    requires Distinct(a) && multiset(a) == multiset(b)
    ensures Distinct(b)
  {
    forall i, j | 0 <= i < j < |b|
      ensures b[i].price != b[j].price
    {
      if b[i].price == b[j].price {
        assert b[i] in multiset(b) && b[j] in multiset(b);
        assert b[i] in a && b[j] in a;
        var x :| 0 <= x < |a| && a[x] == b[i];
        var y :| 0 <= y < |a| && a[y] == b[j];
        if x < y || y < x {
          assert false;
        } else {
          TwiceInMultiset(b, i, j);
          OnceInMultiset(a, x);
          assert false;
        }
      }
    }
  }

  lemma TwiceInMultiset(b: seq<PriceLevel>, i: nat, j: nat)
    requires i < j < |b| && b[i] == b[j]
    ensures multiset(b)[b[i]] >= 2
  {
    assert b == b[..i] + [b[i]] + b[i+1..j] + [b[j]] + b[j+1..];
  }

  lemma OnceInMultiset(a: seq<PriceLevel>, x: nat)
    requires Distinct(a) && x < |a|
    ensures multiset(a)[a[x]] == 1
  {
    assert a == a[..x] + [a[x]] + a[x+1..];
    assert a[x] !in a[..x] && a[x] !in a[x+1..];
  }

  /** With distinct prices, rearranging the levels does not change what they offer. */
  lemma QtyAtPermutation(a: seq<PriceLevel>, b: seq<PriceLevel>, p: real)
    requires Distinct(a) && multiset(a) == multiset(b)
    ensures QtyAt(a, p) == QtyAt(b, p)
  {
    DistinctFromMultiset(a, b);
    var i := QtyAtCases(a, p);
    var j := QtyAtCases(b, p);
    if i < |a| {
      assert a[i] in multiset(a);
      assert a[i] in b;
      var k :| 0 <= k < |b| && b[k] == a[i];
      QtyAtIndex(b, k);
    } else if j < |b| {
      assert b[j] in multiset(b);
      assert b[j] in a;
    }
  }
}
