/** Machine widths, saturating arithmetic and finite sums shared by every module. */
module Numbers {
  const U32_MAX: int := 0xFFFF_FFFF
  const U64_MAX: int := 0xFFFF_FFFF_FFFF_FFFF

  type u32 = n: int | 0 <= n <= U32_MAX
  type u64 = n: int | 0 <= n <= U64_MAX

  /** The source's `NonZeroU32`. */
  type NonZeroU32 = n: int | 0 < n <= U32_MAX witness 1

  datatype Option<+T> = None | Some(value: T)

  function Min(a: int, b: int): int { if a <= b then a else b }

  function Max(a: int, b: int): int { if a <= b then b else a }

  function SatSub(a: int, b: int): nat { if a <= b then 0 else a - b }

  function SatAdd(a: u32, b: u32): u32 { Min(a + b, U32_MAX) }

  // ---------------------------------------------------------------- sequences

  function Sum(s: seq<nat>): nat { SumTo(s, |s|) }

  function SumTo(s: seq<nat>, n: nat): nat
    requires n <= |s|
  {
    if n == 0 then 0 else SumTo(s, n - 1) + s[n - 1]
  }

  lemma {:induction false} SumToAgrees(s: seq<nat>, t: seq<nat>, n: nat)
    requires n <= |s| && n <= |t| && forall i :: 0 <= i < n ==> s[i] == t[i]
    ensures SumTo(s, n) == SumTo(t, n)
  {
    if n > 0 {
      SumToAgrees(s, t, n - 1);
    }
  }

  lemma SumOfFirst(s: seq<nat>, n: nat)
    requires n <= |s|
    ensures Sum(s[..n]) == SumTo(s, n)
  {
    SumToAgrees(s[..n], s, n);
  }

  lemma SumSnoc(s: seq<nat>)
    requires s != []
    ensures Sum(s) == Sum(s[..|s| - 1]) + s[|s| - 1]
  {
    SumOfFirst(s, |s| - 1);
  }

  lemma {:induction false} SumToUpdate(s: seq<nat>, i: nat, v: nat, n: nat)
    requires i < n <= |s|
    ensures SumTo(s[i := v], n) == SumTo(s, n) - s[i] + v
  {
    if i == n - 1 {
      SumToAgrees(s[i := v], s, i);
    } else {
      SumToUpdate(s, i, v, n - 1);
    }
  }

  lemma SumUpdate(s: seq<nat>, i: nat, v: nat)
    requires i < |s|
    ensures Sum(s[i := v]) == Sum(s) - s[i] + v
  {
    SumToUpdate(s, i, v, |s|);
  }

  lemma {:induction false} SumToLe(s: seq<nat>, t: seq<nat>, n: nat)
    requires n <= |s| == |t|
    requires forall i :: 0 <= i < n ==> s[i] <= t[i]
    ensures SumTo(s, n) <= SumTo(t, n)
    ensures SumTo(s, n) == SumTo(t, n) ==> forall i :: 0 <= i < n ==> s[i] == t[i]
  {
    if n > 0 {
      SumToLe(s, t, n - 1);
    }
  }

  lemma SumLe(s: seq<nat>, t: seq<nat>)
    requires |s| == |t|
    requires forall i :: 0 <= i < |s| ==> s[i] <= t[i]
    ensures Sum(s) <= Sum(t)
  {
    SumToLe(s, t, |s|);
  }

  /** Pointwise below with equal sums is equality. */
  lemma SumEqual(s: seq<nat>, t: seq<nat>)
    requires |s| == |t|
    requires forall i :: 0 <= i < |s| ==> s[i] <= t[i]
    requires Sum(s) >= Sum(t)
    ensures s == t
  {
    SumToLe(s, t, |s|);
  }

  /** If `s` is above `t` somewhere and not above it in total, it is below it somewhere else. */
  lemma SumCrosses(s: seq<nat>, t: seq<nat>, i: nat) returns (j: nat)
    requires |s| == |t| && i < |s| && s[i] > t[i]
    requires Sum(s) <= Sum(t)
    ensures j < |s| && j != i && s[j] < t[j]
  {
    if forall k :: 0 <= k < |s| ==> t[k] <= s[k] {
      SumEqual(t, s);
      assert false;
    }
    j :| 0 <= j < |s| && !(t[j] <= s[j]);
  }

  lemma {:induction false} SumToAppend(s: seq<nat>, t: seq<nat>, n: nat)
    requires n <= |t|
    ensures SumTo(s + t, |s| + n) == Sum(s) + SumTo(t, n)
  {
    if n == 0 {
      SumToAgrees(s + t, s, |s|);
    } else {
      SumToAppend(s, t, n - 1);
    }
  }

  lemma SumAppend(s: seq<nat>, t: seq<nat>)
    ensures Sum(s + t) == Sum(s) + Sum(t)
  {
    SumToAppend(s, t, |t|);
  }

  // ------------------------------------------------------------- sums of maps

  /** The value at a key, or 0 where the map has none. */
  function At<K>(m: map<K, nat>, k: K): nat { if k in m then m[k] else 0 }

  ghost function Total<K(!new)>(m: map<K, nat>): nat {
    if m == map[] then 0 else
      var k :| k in m;
      m[k] + Total(m - {k})
  }

  lemma {:induction false} TotalRemove<K(!new)>(m: map<K, nat>, k: K)
    ensures Total(m) == At(m, k) + Total(m - {k})
    decreases |m|
  {
    if k !in m {
      assert m - {k} == m;
    } else {
      var j :| j in m && Total(m) == m[j] + Total(m - {j});
      if j != k {
        SmallerWithout(m, j);
        SmallerWithout(m, k);
        TotalRemove(m - {j}, k);
        TotalRemove(m - {k}, j);
        assert m - {j} - {k} == m - {k} - {j};
      }
    }
  }

  lemma SmallerWithout<K>(m: map<K, nat>, k: K)
    requires k in m
    ensures |m - {k}| < |m|
  {
    assert (m - {k}).Keys == m.Keys - {k};
  }

  lemma TotalPut<K(!new)>(m: map<K, nat>, k: K, v: nat)
    ensures Total(m[k := v]) == Total(m) - At(m, k) + v
    ensures At(m, k) <= Total(m)
  {
    TotalRemove(m, k);
    TotalRemove(m[k := v], k);
    assert m[k := v] - {k} == m - {k};
  }

  /** A map that is at most another at every key is at most it in total. */
  lemma {:induction false} TotalLe<K(!new)>(m: map<K, nat>, n: map<K, nat>)
    requires forall k :: At(m, k) <= At(n, k)
    ensures Total(m) <= Total(n)
    decreases |m|
  {
    if m != map[] {
      var k :| k in m;
      SmallerWithout(m, k);
      TotalRemove(m, k);
      TotalRemove(n, k);
      assert At(m, k) <= At(n, k);
      forall j ensures At(m - {k}, j) <= At(n - {k}, j) {
        assert At(m, j) <= At(n, j);
      }
      TotalLe(m - {k}, n - {k});
    }
  }

  /** A map that is the sum of two others at every key is their sum in total. */
  lemma {:induction false} TotalAdd<K(!new)>(m: map<K, nat>, a: map<K, nat>, b: map<K, nat>)
    requires forall k :: At(m, k) == At(a, k) + At(b, k)
    ensures Total(m) == Total(a) + Total(b)
    decreases |m|
  {
    if m == map[] {
      forall k ensures At(a, k) <= At(m, k) && At(b, k) <= At(m, k) {
        assert At(m, k) == At(a, k) + At(b, k);
      }
      TotalLe(a, m);
      TotalLe(b, m);
    } else {
      var k :| k in m;
      SmallerWithout(m, k);
      TotalRemove(m, k);
      TotalRemove(a, k);
      TotalRemove(b, k);
      assert At(m, k) == At(a, k) + At(b, k);
      forall j ensures At(m - {k}, j) == At(a - {k}, j) + At(b - {k}, j) {
        assert At(m, j) == At(a, j) + At(b, j);
      }
      TotalAdd(m - {k}, a - {k}, b - {k});
    }
  }
}
