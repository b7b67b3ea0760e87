/** Sorting by an integer key, standing for the `sort_by` calls of the scheduler. */
module Sorting {
  predicate Distinct<T>(s: seq<T>, key: T -> int) {
    forall i, j :: 0 <= i < j < |s| ==> key(s[i]) != key(s[j])
  }

  predicate Sorted<T>(s: seq<T>, key: T -> int) {
    forall i, j :: 0 <= i < j < |s| ==> key(s[i]) < key(s[j])
  }

  predicate Ordered<T>(s: seq<T>, key: T -> int) {
    forall i, j :: 0 <= i < j < |s| ==> key(s[i]) <= key(s[j])
  }

  /** In front of the first that is no smaller, so that equal keys keep the order they came in. */
  function Insert<T(!new)>(x: T, s: seq<T>, key: T -> int): (r: seq<T>)
    ensures |r| == |s| + 1 && forall y :: y in r <==> y == x || y in s
  {
    if s == [] then [x]
    else if key(x) <= key(s[0]) then [x] + s
    else
      assert forall y :: y in s <==> y == s[0] || y in s[1..];
      [s[0]] + Insert(x, s[1..], key)
  }

  lemma ConsOrdered<T>(x: T, s: seq<T>, key: T -> int)
    requires Ordered(s, key) && forall k :: 0 <= k < |s| ==> key(x) <= key(s[k])
    ensures Ordered([x] + s, key)
  {
    var r := [x] + s;
    forall i, j | 0 <= i < j < |r| ensures key(r[i]) <= key(r[j]) {
      assert r[j] == s[j - 1] && (i > 0 ==> r[i] == s[i - 1]);
    }
  }

  lemma ConsSorted<T>(x: T, s: seq<T>, key: T -> int)
    requires Sorted(s, key) && forall k :: 0 <= k < |s| ==> key(x) < key(s[k])
    ensures Sorted([x] + s, key)
  {
    var r := [x] + s;
    forall i, j | 0 <= i < j < |r| ensures key(r[i]) < key(r[j]) {
      assert r[j] == s[j - 1] && (i > 0 ==> r[i] == s[i - 1]);
    }
  }

  lemma {:induction false} InsertOrders<T(!new)>(x: T, s: seq<T>, key: T -> int)
    requires Ordered(s, key)
    ensures Ordered(Insert(x, s, key), key)
    decreases |s|
  {
    if s != [] {
      if key(x) <= key(s[0]) {
        ConsOrdered(x, s, key);
      } else {
        InsertOrders(x, s[1..], key);
        forall k | 0 <= k < |s| ensures key(Insert(x, s[1..], key)[k]) >= key(s[0]) {
          InsertedAt(x, s[1..], key, k);
        }
        ConsOrdered(s[0], Insert(x, s[1..], key), key);
      }
    }
  }

  /** What is inserted into is at most shifted by one. */
  lemma {:induction false} InsertedAt<T(!new)>(x: T, s: seq<T>, key: T -> int, k: nat)
    requires k <= |s|
    ensures var r := Insert(x, s, key);
            r[k] == x || (k < |s| && r[k] == s[k]) || (k > 0 && r[k] == s[k - 1])
    decreases |s|
  {
    if s != [] && key(s[0]) < key(x) && k > 0 {
      InsertedAt(x, s[1..], key, k - 1);
    }
  }

  lemma {:induction false} InsertSorts<T(!new)>(x: T, s: seq<T>, key: T -> int)
    requires Sorted(s, key) && forall k :: 0 <= k < |s| ==> key(s[k]) != key(x)
    ensures Sorted(Insert(x, s, key), key)
    decreases |s|
  {
    if s != [] {
      if key(x) <= key(s[0]) {
        ConsSorted(x, s, key);
      } else {
        InsertSorts(x, s[1..], key);
        forall k | 0 <= k < |s| ensures key(Insert(x, s[1..], key)[k]) > key(s[0]) {
          InsertedAt(x, s[1..], key, k);
        }
        ConsSorted(s[0], Insert(x, s[1..], key), key);
      }
    }
  }

  /** A stable sort; with distinct keys its result is strictly increasing. */
  function SortBy<T(!new)>(s: seq<T>, key: T -> int): (r: seq<T>)
    ensures Ordered(r, key) && |r| == |s|
    ensures forall y :: y in r <==> y in s
    ensures Distinct(s, key) ==> Sorted(r, key)
  {
    if s == [] then []
    else
      assert forall y :: y in s <==> y == s[0] || y in s[1..];
      var rest := SortBy(s[1..], key);
      InsertOrders(s[0], rest, key);
      assert Distinct(s, key) ==> Sorted(Insert(s[0], rest, key), key) by {
        if Distinct(s, key) {
          forall k | 0 <= k < |rest| ensures key(rest[k]) != key(s[0]) {
            assert rest[k] in s[1..];
          }
          InsertSorts(s[0], rest, key);
        }
      }
      Insert(s[0], rest, key)
  }

  function SumBy<T>(s: seq<T>, f: T -> nat): nat {
    if s == [] then 0 else f(s[0]) + SumBy(s[1..], f)
  }

  lemma {:induction false} InsertAdds<T(!new)>(x: T, s: seq<T>, key: T -> int, f: T -> nat)
    ensures SumBy(Insert(x, s, key), f) == f(x) + SumBy(s, f)
    decreases |s|
  {
    if s == [] || key(x) <= key(s[0]) {
      assert ([x] + s)[1..] == s;
    } else {
      InsertAdds(x, s[1..], key, f);
      assert ([s[0]] + Insert(x, s[1..], key))[1..] == Insert(x, s[1..], key);
    }
  }

  /** Sorting changes no sum. */
  lemma {:induction false} SortKeepsSum<T(!new)>(s: seq<T>, key: T -> int, f: T -> nat)
    ensures SumBy(SortBy(s, key), f) == SumBy(s, f)
    decreases |s|
  {
    if s != [] {
      SortKeepsSum(s[1..], key, f);
      InsertAdds(s[0], SortBy(s[1..], key), key, f);
    }
  }

  /** Sorting is determined by the members, so the order they come in does not matter. */
  lemma {:induction false} SortedUnique<T(!new)>(a: seq<T>, b: seq<T>, key: T -> int)
    requires Sorted(a, key) && Sorted(b, key)
    requires forall y :: y in a <==> y in b
    ensures a == b
  {
    FirstIsMember(a);
    FirstIsMember(b);
    if a != [] {
      assert a[0] == b[0];
      forall y ensures y in a[1..] <==> y in b[1..] {
        if y in a[1..] { assert y in b; }
        if y in b[1..] { assert y in a; }
      }
      SortedUnique(a[1..], b[1..], key);
      assert a == [a[0]] + a[1..] && b == [b[0]] + b[1..];
    }
  }

  lemma FirstIsMember<T>(s: seq<T>)
    ensures s == [] || s[0] in s
  {
  }
}
