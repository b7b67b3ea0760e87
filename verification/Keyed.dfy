/** Sets of ids listed in order, and the sums of maps listed that way. */
module Keyed {
  import opened Numbers
  import Sorting

  function Identity(n: int): int { n }

  lemma LastKeyGone(rest: seq<int>, last: int, m: map<int, nat>)
    requires Sorting.Sorted(rest + [last], Identity)
    requires m.Keys == (set k | k in rest + [last])
    ensures last in m && Sorting.Sorted(rest, Identity)
    ensures (m - {last}).Keys == (set k | k in rest)
  {
    var keys := rest + [last];
    forall j | 0 <= j < |rest| ensures rest[j] != last {
      assert Identity(keys[j]) < Identity(keys[|rest|]);
    }
    forall i, j | 0 <= i < j < |rest| ensures Identity(rest[i]) < Identity(rest[j]) {
      assert Identity(keys[i]) < Identity(keys[j]);
    }
  }

  ghost predicate Lists(keys: seq<int>, values: seq<nat>, m: map<int, nat>) {
    && |keys| == |values| && Sorting.Sorted(keys, Identity) && m.Keys == (set k | k in keys)
    && forall k :: 0 <= k < |keys| ==> keys[k] in m && m[keys[k]] == values[k]
  }

  lemma ListsLess(keys: seq<int>, values: seq<nat>, m: map<int, nat>, n: nat)
    requires Lists(keys, values, m) && |keys| == n + 1
    ensures keys[n] in m && m[keys[n]] == values[n] && Lists(keys[..n], values[..n], m - {keys[n]})
  {
    assert keys[..n] + [keys[n]] == keys;
    LastKeyGone(keys[..n], keys[n], m);
    forall k | 0 <= k < n ensures keys[..n][k] != keys[n] {
      assert Identity(keys[k]) < Identity(keys[n]);
    }
  }

  /** A map listed in key order has the sum of the list. */
  lemma {:induction false} KeyedTotal(keys: seq<int>, values: seq<nat>, m: map<int, nat>)
    requires Lists(keys, values, m)
    ensures Total(m) == Sum(values)
    decreases |keys|
  {
    if keys != [] {
      var n := |keys| - 1;
      ListsLess(keys, values, m, n);
      TotalRemove(m, keys[n]);
      SumSnoc(values);
      KeyedTotal(keys[..n], values[..n], m - {keys[n]});
    } else {
      assert m.Keys == {};
      assert m == map[];
    }
  }

  /** Distinct keys of a map add up to no more than the map. */
  lemma {:induction false} SomeOfTotal(keys: seq<int>, values: seq<nat>, m: map<int, nat>)
    requires |keys| == |values| && Sorting.Sorted(keys, Identity)
    requires forall k :: 0 <= k < |keys| ==> values[k] == At(m, keys[k])
    ensures Sum(values) <= Total(m)
  {
    if keys != [] {
      var n := |keys| - 1;
      TotalRemove(m, keys[n]);
      SumSnoc(values);
      forall k | 0 <= k < n ensures values[..n][k] == At(m - {keys[n]}, keys[..n][k]) {
        assert Identity(keys[k]) < Identity(keys[n]);
      }
      SomeOfTotal(keys[..n], values[..n], m - {keys[n]});
    }
  }

  method PickOne(s: set<int>) returns (x: int)
    requires s != {}
    ensures x in s
  {
    NonEmpty(s);
    x :| x in s;
  }

  lemma NonEmpty(s: set<int>)
    ensures s == {} || exists x :: x in s
  {
    if forall x :: x !in s {
      assert s == {};
    }
  }

  method SortedSeq(s: set<int>) returns (r: seq<int>)
    ensures Sorting.Sorted(r, Identity)
    ensures forall x :: x in r <==> x in s
  {
    r := [];
    var rest := s;
    while rest != {}
      invariant rest <= s
      invariant forall x :: x in r <==> x in s && x !in rest
      invariant Sorting.Sorted(r, Identity)
      decreases rest
    {
      var x := PickOne(rest);
      rest := rest - {x};
      Sorting.InsertSorts(x, r, Identity);
      r := Sorting.Insert(x, r, Identity);
    }
  }
}
