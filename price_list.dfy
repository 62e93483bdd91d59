/**
 * `PriceByCarrier` and `PriceByCarrierList`: the entries of a by-carrier quote
 * and the ordering `sort.Sort` puts them in (`Less` compares `Amount` only).
 * `sort.Sort` is not stable, so only "sorted by amount" and "a permutation of
 * the input" are promised; the sort below is one algorithm with that contract.
 */
module PriceLists {

  datatype PriceByCarrier = PriceByCarrier(carrierName: string, amount: int, deliveryTime: int)

  /** Non-decreasing by amount. */
  predicate SortedByAmount(s: seq<PriceByCarrier>) {
    forall i, j :: 0 <= i < j < |s| ==> s[i].amount <= s[j].amount
  }

  /** No two entries share an amount. */
  predicate DistinctAmounts(s: seq<PriceByCarrier>) {
    forall i, j :: 0 <= i < j < |s| ==> s[i].amount != s[j].amount
  }

  /** `PriceByCarrierList.Swap`: exchanges two entries. */
  method Swap(a: array<PriceByCarrier>, i: nat, j: nat)
    requires i < a.Length && j < a.Length
    modifies a
    ensures a[..] == old(a[..])[i := old(a[j])][j := old(a[i])]
    ensures multiset(a[..]) == multiset(old(a[..]))
  {
    a[i], a[j] := a[j], a[i];
  }

  /** `sort.Sort(priceList)`: sorts in place, comparing with `Less` and
      moving entries with `Swap` only. */
  method SortByAmount(a: array<PriceByCarrier>)
    modifies a
    ensures SortedByAmount(a[..])
    ensures multiset(a[..]) == multiset(old(a[..]))
  {
    for i := 0 to a.Length
      invariant forall k, l :: 0 <= k < l < i ==> a[k].amount <= a[l].amount
      invariant multiset(a[..]) == multiset(old(a[..]))
    {
      var j := i;
      while j > 0 && a[j].amount < a[j - 1].amount
        invariant 0 <= j <= i
        invariant forall k, l :: 0 <= k < l <= i && k != j && l != j ==> a[k].amount <= a[l].amount
        invariant forall l :: j < l <= i ==> a[j].amount <= a[l].amount
        invariant multiset(a[..]) == multiset(old(a[..]))
      {
        Swap(a, j - 1, j);
        j := j - 1;
      }
    }
  }

  /** Of two non-empty sorted permutations of each other with distinct
      amounts, the first entries agree. */
  lemma HeadsAgree(x: seq<PriceByCarrier>, y: seq<PriceByCarrier>)
    requires SortedByAmount(x) && SortedByAmount(y)
    requires multiset(x) == multiset(y)
    requires DistinctAmounts(x)
    requires x != [] && y != []
    ensures x[0] == y[0]
  {
    assert x[0] in multiset(y);
    var k :| 0 <= k < |y| && y[k] == x[0];
    assert y[0] in multiset(x);
    var m :| 0 <= m < |x| && x[m] == y[0];
  }

  lemma MultisetTail(s: seq<PriceByCarrier>)
    requires s != []
    ensures multiset(s[1..]) == multiset(s) - multiset{s[0]}
  {
    assert s == [s[0]] + s[1..];
  }

  /** Two sorted permutations of each other with distinct amounts are equal:
      when no amounts tie, the sorted order is fully determined. */
  lemma {:induction false} SortedPermutationUnique(x: seq<PriceByCarrier>, y: seq<PriceByCarrier>)
    requires SortedByAmount(x) && SortedByAmount(y)
    requires multiset(x) == multiset(y)
    requires DistinctAmounts(x)
    ensures x == y
    decreases |x|
  {
    assert |x| == |multiset(x)| && |y| == |multiset(y)|;
    if x != [] {
      HeadsAgree(x, y);
      MultisetTail(x);
      MultisetTail(y);
      SortedPermutationUnique(x[1..], y[1..]);
      assert x == [x[0]] + x[1..];
      assert y == [y[0]] + y[1..];
    }
  }
}
