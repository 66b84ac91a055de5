/** What `products.sort(key=lambda x: x.price or 0)` does to a product list:
    Python's list sort is stable, so it is specified here by insertion
    (each element goes after every element whose key is not larger). */
module PriceSort {
  import opened Models

  /** The sort key `x.price or 0`: a missing price (and a zero one) counts as 0. */
  function PriceKey(p: Product): Cents {
    p.price.GetOr(0)
  }

  ghost predicate SortedByPrice(s: seq<Product>) {
    forall a, b :: 0 <= a < b < |s| ==> PriceKey(s[a]) <= PriceKey(s[b])
  }

  /** Appending an element whose key bounds every key keeps a list sorted. */
  lemma AppendSorted(s: seq<Product>, p: Product)
    requires SortedByPrice(s)
    requires forall x :: x in s ==> PriceKey(x) <= PriceKey(p)
    ensures SortedByPrice(s + [p])
  {
    var r := s + [p];
    forall a, b | 0 <= a < b < |r|
      ensures PriceKey(r[a]) <= PriceKey(r[b])
    {
      if b == |s| {
        assert r[a] in s;
      }
    }
  }

  /** Inserts `p` into the sorted `s` after every element whose key is at most `p`'s. */
  function InsertByPrice(s: seq<Product>, p: Product): (r: seq<Product>)
    requires SortedByPrice(s)
    ensures SortedByPrice(r)
    ensures multiset(r) == multiset(s) + multiset{p}
    ensures forall x :: x in r ==> x in s || x == p
  {
    if s == [] || PriceKey(s[|s| - 1]) <= PriceKey(p) then
      AppendSorted(s, p);
      s + [p]
    else
      var init, last := s[..|s| - 1], s[|s| - 1];
      assert s == init + [last];
      assert SortedByPrice(init);
      var r' := InsertByPrice(init, p);
      assert forall x :: x in r' ==> PriceKey(x) <= PriceKey(last) by {
        forall x | x in r'
          ensures PriceKey(x) <= PriceKey(last)
        {
          if x in init {
            var k :| 0 <= k < |init| && init[k] == x;
            assert s[k] == x;
          }
        }
      }
      AppendSorted(r', last);
      r' + [last]
  }

  /** The list as a stable sort by `PriceKey` leaves it. */
  function SortByPrice(s: seq<Product>): (r: seq<Product>)
    ensures SortedByPrice(r)
    ensures multiset(r) == multiset(s)
  {
    if s == [] then []
    else
      assert s == s[..|s| - 1] + [s[|s| - 1]];
      InsertByPrice(SortByPrice(s[..|s| - 1]), s[|s| - 1])
  }

  /** The elements of `s` whose key is `v`, in their order in `s`. */
  function WithKey(s: seq<Product>, v: Cents): seq<Product> {
    if s == [] then []
    else WithKey(s[..|s| - 1], v) + (if PriceKey(s[|s| - 1]) == v then [s[|s| - 1]] else [])
  }

  lemma {:induction false} WithKeyAppend(s: seq<Product>, p: Product, v: Cents)
    ensures WithKey(s + [p], v) == WithKey(s, v) + (if PriceKey(p) == v then [p] else [])
  {
    assert (s + [p])[..|s|] == s;
  }

  lemma {:induction false} InsertByPriceStable(s: seq<Product>, p: Product, v: Cents)
    requires SortedByPrice(s)
    ensures WithKey(InsertByPrice(s, p), v) == WithKey(s, v) + (if PriceKey(p) == v then [p] else [])
    decreases |s|
  {
    if s == [] || PriceKey(s[|s| - 1]) <= PriceKey(p) {
      WithKeyAppend(s, p, v);
    } else {
      var init, last := s[..|s| - 1], s[|s| - 1];
      assert s == init + [last];
      assert SortedByPrice(init);
      var r' := InsertByPrice(init, p);
      var x := if PriceKey(p) == v then [p] else [];
      var l := if PriceKey(last) == v then [last] else [];
      calc {
        WithKey(InsertByPrice(s, p), v);
        WithKey(r' + [last], v);
        { WithKeyAppend(r', last, v); }
        WithKey(r', v) + l;
        { InsertByPriceStable(init, p, v); }
        WithKey(init, v) + x + l;
        { assert x == [] || l == []; }
        WithKey(init, v) + l + x;
        { WithKeyAppend(init, last, v); }
        WithKey(s, v) + x;
      }
    }
  }

  /** Stability: among products with equal keys, the sort keeps their order. */
  lemma {:induction false} SortByPriceStable(s: seq<Product>, v: Cents)
    ensures WithKey(SortByPrice(s), v) == WithKey(s, v)
  {
    if s != [] {
      var init, last := s[..|s| - 1], s[|s| - 1];
      SortByPriceStable(init, v);
      InsertByPriceStable(SortByPrice(init), last, v);
    }
  }
}
