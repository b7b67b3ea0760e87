/**
 The levelling split of one tenant's slots over the proxies that hold them
 (crates/sched/src/split.rs).  The vectors below are in key order, as the source sorts them.
 */
module Split {
  import opened Numbers
  import Sorting

  type Key = int

  datatype Share = Share(key: Key, demand: u32, current: nat, mayRelease: bool)
  {
    function Need(): nat { if mayRelease then demand else Max(demand, current) }
  }

  // ------------------------------------------------------------ specification

  /** The first index of the largest value, or nothing when every value is 0. */
  function FirstMax(values: seq<nat>): (r: Option<nat>)
    ensures r.Some? ==>
              && r.value < |values| && values[r.value] > 0
              && (forall i :: 0 <= i < |values| ==> values[i] <= values[r.value])
              && (forall i :: 0 <= i < r.value ==> values[i] < values[r.value])
    ensures r.None? ==> forall i :: 0 <= i < |values| ==> values[i] == 0
  {
    if values == [] then None
    else
      var n := |values| - 1;
      var best := FirstMax(values[..n]);
      if values[n] > (if best.Some? then values[best.value] else 0) then Some(n) else best
  }

  function Starts(order: seq<Share>): (r: seq<nat>)
    ensures |r| == |order|
  {
    seq(|order|, i requires 0 <= i < |order| => Min(order[i].current, order[i].demand))
  }

  function Demands(order: seq<Share>): (r: seq<nat>)
    ensures |r| == |order|
  {
    seq(|order|, i requires 0 <= i < |order| => order[i].demand)
  }

  function Needs(order: seq<Share>): (r: seq<nat>)
    ensures |r| == |order|
  {
    seq(|order|, i requires 0 <= i < |order| => order[i].Need())
  }

  function Shortfalls(wanted: seq<nat>, given: seq<nat>): (r: seq<nat>)
    requires |wanted| == |given|
    ensures |r| == |given|
  {
    seq(|given|, i requires 0 <= i < |given| => SatSub(wanted[i], given[i]))
  }

  /** Takes one slot at a time from whoever has the most. */
  function CutDown(given: seq<nat>, granted: nat): (r: seq<nat>)
    ensures |r| == |given|
    decreases Sum(given)
  {
    var most := FirstMax(given);
    if Sum(given) <= granted || most.None? then given
    else
      SumUpdate(given, most.value, given[most.value] - 1);
      CutDown(given[most.value := given[most.value] - 1], granted)
  }

  /** Gives one slot at a time to whoever is furthest from what it wants. */
  function GiveUpTo(wanted: seq<nat>, given: seq<nat>, granted: nat): (r: seq<nat>)
    requires |wanted| == |given|
    ensures |r| == |given|
    decreases SatSub(granted, Sum(given))
  {
    var furthest := FirstMax(Shortfalls(wanted, given));
    if Sum(given) >= granted || furthest.None? then given
    else
      SumUpdate(given, furthest.value, given[furthest.value] + 1);
      GiveUpTo(wanted, given[furthest.value := given[furthest.value] + 1], granted)
  }

  function SplitOf(granted: nat, order: seq<Share>): (r: seq<nat>)
    ensures |r| == |order|
  {
    Levelled(Starts(order), Demands(order), Needs(order), granted)
  }

  function Levelled(starts: seq<nat>, demands: seq<nat>, needs: seq<nat>, granted: nat): (r: seq<nat>)
    requires |starts| == |demands| == |needs|
    ensures |r| == |starts|
  {
    GiveUpTo(needs, GiveUpTo(demands, CutDown(starts, granted), granted), granted)
  }

  // ---------------------------------------------------------------- levelling

  ghost predicate Below(a: seq<nat>, b: seq<nat>) {
    |a| == |b| && forall i :: 0 <= i < |a| ==> a[i] <= b[i]
  }

  lemma AllZero(s: seq<nat>)
    requires forall i :: 0 <= i < |s| ==> s[i] == 0
    ensures Sum(s) == 0
  {
    FirstZero(s, |s|);
  }

  lemma {:induction false} FirstZero(s: seq<nat>, n: nat)
    requires n <= |s| && forall i :: 0 <= i < |s| ==> s[i] == 0
    ensures SumTo(s, n) == 0
  {
    if n > 0 {
      FirstZero(s, n - 1);
    }
  }

  /** Cutting stops exactly at the grant, and whoever lost a slot ends within one of the largest. */
  lemma {:induction false} CutDownLevels(given: seq<nat>, granted: nat)
    ensures Below(CutDown(given, granted), given)
    ensures Sum(CutDown(given, granted)) == Min(Sum(given), granted)
    ensures forall i, j :: 0 <= i < |given| && 0 <= j < |given| && CutDown(given, granted)[i] < given[i]
              ==> CutDown(given, granted)[j] <= CutDown(given, granted)[i] + 1
    decreases Sum(given)
  {
    var most := FirstMax(given);
    if most.None? {
      AllZero(given);
    } else if Sum(given) > granted {
      var next := given[most.value := given[most.value] - 1];
      SumUpdate(given, most.value, given[most.value] - 1);
      CutDownLevels(next, granted);
      var r := CutDown(next, granted);
      forall i, j | 0 <= i < |given| && 0 <= j < |given| && r[i] < given[i] ensures r[j] <= r[i] + 1 {
        if r[i] == next[i] {
          assert i == most.value;
          assert r[j] <= next[j];
        }
      }
    }
  }

  /** No share has lost, and none is past both what it had and what it wants. */
  ghost predicate Between(given: seq<nat>, wanted: seq<nat>, r: seq<nat>) {
    && |wanted| == |given| && Below(given, r)
    && forall i :: 0 <= i < |r| ==> r[i] <= Max(given[i], wanted[i])
  }

  lemma BetweenStep(given: seq<nat>, wanted: seq<nat>, m: nat, r: seq<nat>)
    requires |wanted| == |given| && m < |given| && given[m] < wanted[m]
    requires Between(given[m := given[m] + 1], wanted, r)
    ensures Between(given, wanted, r)
  {
    var next := given[m := given[m] + 1];
    forall i | 0 <= i < |r| ensures given[i] <= r[i] <= Max(given[i], wanted[i]) {
      assert next[i] <= r[i] <= Max(next[i], wanted[i]);
    }
  }

  lemma NobodyShort(wanted: seq<nat>, given: seq<nat>)
    requires |wanted| == |given| && FirstMax(Shortfalls(wanted, given)).None?
    ensures Below(wanted, given)
  {
    var short := Shortfalls(wanted, given);
    forall i | 0 <= i < |given| ensures wanted[i] <= given[i] {
      assert short[i] == 0;
    }
  }

  lemma FurthestShort(wanted: seq<nat>, given: seq<nat>, m: nat, j: nat)
    requires |wanted| == |given| && j < |given| && FirstMax(Shortfalls(wanted, given)) == Some(m)
    ensures m < |given| && given[m] < wanted[m] && SatSub(wanted[j], given[j]) <= SatSub(wanted[m], given[m])
  {
    var short := Shortfalls(wanted, given);
    assert short[j] <= short[m] && short[m] == SatSub(wanted[m], given[m]);
  }

  /** Giving stops at the grant or when nobody is short, and never goes past what is wanted. */
  lemma {:induction false} GiveUpToBounds(wanted: seq<nat>, given: seq<nat>, granted: nat)
    requires |wanted| == |given|
    ensures var r := GiveUpTo(wanted, given, granted);
            && Between(given, wanted, r)
            && Sum(r) <= Max(Sum(given), granted)
            && (Sum(r) < granted ==> Below(wanted, r))
    decreases SatSub(granted, Sum(given))
  {
    var furthest := FirstMax(Shortfalls(wanted, given));
    if Sum(given) < granted && furthest.Some? {
      var m := furthest.value;
      FurthestShort(wanted, given, m, m);
      SumUpdate(given, m, given[m] + 1);
      GiveUpToBounds(wanted, given[m := given[m] + 1], granted);
      BetweenStep(given, wanted, m, GiveUpTo(wanted, given, granted));
    } else if Sum(given) < granted {
      NobodyShort(wanted, given);
    }
  }

  lemma ShortByOneMore(wj: nat, gj: nat, rj: nat, wm: nat, gm: nat)
    requires gm < wm && SatSub(wj, gj) <= SatSub(wm, gm) && gj <= rj
    ensures SatSub(wj, rj) <= SatSub(wm, gm + 1) + 1
  {
  }

  /** Whoever gains a slot was the furthest from what it wants, so in the end nobody is further
      from it than that slot. */
  lemma {:induction false} GiveUpToLevels(wanted: seq<nat>, given: seq<nat>, granted: nat, i: nat, j: nat)
    requires |wanted| == |given| && i < |given| && j < |given|
    ensures var r := GiveUpTo(wanted, given, granted);
            given[i] < r[i] ==> SatSub(wanted[j], r[j]) <= SatSub(wanted[i], r[i]) + 1
    decreases SatSub(granted, Sum(given))
  {
    var furthest := FirstMax(Shortfalls(wanted, given));
    if Sum(given) < granted && furthest.Some? {
      var m := furthest.value;
      var next := given[m := given[m] + 1];
      FurthestShort(wanted, given, m, j);
      SumUpdate(given, m, given[m] + 1);
      GiveUpToLevels(wanted, next, granted, i, j);
      GiveUpToBounds(wanted, next, granted);
      LevelStep(wanted, given, m, GiveUpTo(wanted, next, granted), i, j);
    }
  }

  lemma LevelStep(wanted: seq<nat>, given: seq<nat>, m: nat, r: seq<nat>, i: nat, j: nat)
    requires |wanted| == |given| == |r| && i < |given| && j < |given| && m < |given|
    requires given[m] < wanted[m] && SatSub(wanted[j], given[j]) <= SatSub(wanted[m], given[m])
    requires var next := given[m := given[m] + 1];
             && Below(next, r)
             && (next[i] < r[i] ==> SatSub(wanted[j], r[j]) <= SatSub(wanted[i], r[i]) + 1)
    ensures given[i] < r[i] ==> SatSub(wanted[j], r[j]) <= SatSub(wanted[i], r[i]) + 1
  {
    var next := given[m := given[m] + 1];
    assert given[j] <= next[j] <= r[j] && next[i] <= r[i];
    if i == m && r[i] == next[i] {
      ShortByOneMore(wanted[j], given[j], r[j], wanted[m], given[m]);
    }
  }

  // --------------------------------------------------------------- the theorems

  /** What the split's three steps leave, one after the other. */
  lemma Steps(granted: nat, order: seq<Share>) returns (demanded: seq<nat>)
    ensures Below(demanded, Demands(order)) && Sum(demanded) <= granted
    ensures Sum(demanded) < granted ==> demanded == Demands(order)
    ensures SplitOf(granted, order) == GiveUpTo(Needs(order), demanded, granted)
  {
    var cut := CutDown(Starts(order), granted);
    CutDownLevels(Starts(order), granted);
    demanded := GiveUpTo(Demands(order), cut, granted);
    GiveUpToBounds(Demands(order), cut, granted);
    forall i | 0 <= i < |order| ensures demanded[i] <= Demands(order)[i] {
      assert cut[i] <= Starts(order)[i] <= Demands(order)[i];
    }
  }

  /** The split hands out exactly the grant or everyone's need, whichever is less, gives nobody
      more than its need, and leaves nobody short while another keeps slots beyond its demand. */
  lemma SplitIsExact(granted: nat, order: seq<Share>)
    ensures Sum(SplitOf(granted, order)) == Min(granted, Sum(Needs(order)))
    ensures Below(SplitOf(granted, order), Needs(order))
    ensures forall i, j :: 0 <= i < |order| && 0 <= j < |order| && SplitOf(granted, order)[i] < order[i].demand
              ==> SplitOf(granted, order)[j] <= order[j].demand
  {
    var demanded := Steps(granted, order);
    var r := SplitOf(granted, order);
    GiveUpToBounds(Needs(order), demanded, granted);
    forall i | 0 <= i < |order| ensures r[i] <= Needs(order)[i] {
      assert demanded[i] <= Demands(order)[i] <= Needs(order)[i];
    }
    SumLe(r, Needs(order));
    if Sum(r) < granted {
      SumLe(Needs(order), r);
    }
    forall i, j | 0 <= i < |order| && 0 <= j < |order| && r[i] < order[i].demand
      ensures r[j] <= order[j].demand
    {
      assert demanded[i] <= r[i] < Demands(order)[i];
      assert Sum(demanded) == granted;
      SumEqual(demanded, r);
      assert demanded[j] <= Demands(order)[j];
    }
  }

  /** The same on what the shares say: nobody is given more than it asks for, or than it has and may
      not let go; and a grant is left over only when everyone has that much. */
  lemma SplitMeans(granted: nat, order: seq<Share>)
    ensures var r := SplitOf(granted, order);
            && Sum(r) <= granted
            && (forall i :: 0 <= i < |order| ==>
                  r[i] <= order[i].demand || (!order[i].mayRelease && r[i] <= order[i].current))
            && (Sum(r) < granted ==> forall i :: 0 <= i < |order| ==>
                  order[i].demand <= r[i] && (!order[i].mayRelease ==> order[i].current <= r[i]))
  {
    var r := SplitOf(granted, order);
    SplitIsExact(granted, order);
    forall i | 0 <= i < |order| ensures r[i] <= order[i].Need() {
      assert r[i] <= Needs(order)[i];
    }
    if Sum(r) < granted {
      SumEqual(r, Needs(order));
      forall i | 0 <= i < |order| ensures r[i] == order[i].Need() {
        assert r[i] == Needs(order)[i];
      }
    }
  }

  /** What each share has and asks for. */
  ghost predicate InUse(order: seq<Share>, used: seq<nat>) {
    |used| == |order| && forall i :: 0 <= i < |order| ==> used[i] == Min(order[i].current, order[i].demand)
  }

  /** A grant that covers what the shares have and ask for takes none of it away. */
  lemma UsedStays(granted: nat, order: seq<Share>, used: seq<nat>, i: nat)
    requires InUse(order, used) && Sum(used) <= granted && i < |order|
    ensures used[i] <= SplitOf(granted, order)[i]
  {
    assert used == Starts(order);
    CutDownLevels(used, granted);
    var cut := CutDown(used, granted);
    SumEqual(cut, used);
    var demanded := GiveUpTo(Demands(order), cut, granted);
    GiveUpToBounds(Demands(order), cut, granted);
    GiveUpToBounds(Needs(order), demanded, granted);
    assert cut[i] <= demanded[i] <= SplitOf(granted, order)[i];
  }

  /** When the grant is short of what the shares have and ask for, the cut levels them from the top:
      nobody gains and whoever lost a slot ends within one of the largest. */
  lemma ShortageLevels(granted: nat, order: seq<Share>, used: seq<nat>, i: nat, j: nat)
    requires InUse(order, used) && granted <= Sum(used) && i < |order| && j < |order|
    ensures SplitOf(granted, order)[i] <= used[i]
    ensures SplitOf(granted, order)[i] == used[i]
            || SplitOf(granted, order)[j] <= SplitOf(granted, order)[i] + 1
  {
    assert used == Starts(order);
    CutDownLevels(used, granted);
  }

  function Holding(order: seq<Share>, given: seq<nat>): (r: seq<Share>)
    requires |given| == |order|
    ensures |r| == |order|
  {
    seq(|order|, i requires 0 <= i < |order| => order[i].(current := given[i]))
  }

  lemma GiveNothing(wanted: seq<nat>, given: seq<nat>, granted: nat)
    requires |wanted| == |given|
    requires Sum(given) >= granted || forall i :: 0 <= i < |given| ==> wanted[i] <= given[i]
    ensures GiveUpTo(wanted, given, granted) == given
  {
    var short := Shortfalls(wanted, given);
    if Sum(given) < granted {
      assert forall i :: 0 <= i < |short| ==> short[i] == 0;
    }
  }

  lemma GiveAll(wanted: seq<nat>, given: seq<nat>, granted: nat)
    requires Below(given, wanted) && Sum(wanted) <= granted
    ensures GiveUpTo(wanted, given, granted) == wanted
  {
    GiveUpToBounds(wanted, given, granted);
    var r := GiveUpTo(wanted, given, granted);
    if Sum(r) < granted {
      assert forall i :: 0 <= i < |r| ==> r[i] == wanted[i];
    } else {
      SumEqual(r, wanted);
    }
  }

  /** A split that is handed back as what everyone holds does not move again. */
  lemma SplitIsIdempotent(granted: nat, order: seq<Share>)
    ensures SplitOf(granted, Holding(order, SplitOf(granted, order))) == SplitOf(granted, order)
  {
    var r := SplitOf(granted, order);
    SplitIsExact(granted, order);
    if i :| 0 <= i < |order| && r[i] > order[i].demand {
      assert Below(Demands(order), r);
      SurplusStays(granted, order, r);
    } else {
      NoSurplusStays(granted, order, r);
    }
  }

  /** Nobody holds more than it demands: the split starts where it ended. */
  lemma NoSurplusStays(granted: nat, order: seq<Share>, r: seq<nat>)
    requires |r| == |order| && Sum(r) == Min(granted, Sum(Needs(order))) && Below(r, Demands(order))
    ensures SplitOf(granted, Holding(order, r)) == r
  {
    if Sum(r) < granted {
      NeedsCoverDemands(order);
      SumLe(r, Demands(order));
      SumLe(Demands(order), Needs(order));
      SumEqual(r, Demands(order));
    }
    HoldingVectors(order, r);
    GiveNothing(Demands(order), r, granted);
    GiveNothing(Needs(Holding(order, r)), r, granted);
  }

  lemma NeedsCoverDemands(order: seq<Share>)
    ensures Below(Demands(order), Needs(order))
  {
  }

  lemma HoldingVectors(order: seq<Share>, r: seq<nat>)
    requires |r| == |order|
    ensures Demands(Holding(order, r)) == Demands(order)
    ensures Below(r, Demands(order)) ==> Starts(Holding(order, r)) == r && Needs(Holding(order, r)) == Demands(order)
    ensures Below(Demands(order), r) ==> Starts(Holding(order, r)) == Demands(order)
    ensures Below(Demands(order), r) && Below(r, Needs(order)) ==> Needs(Holding(order, r)) == r
  {
    if Below(Demands(order), r) && Below(r, Needs(order)) {
      forall i | 0 <= i < |order| ensures Needs(Holding(order, r))[i] == r[i] {
        assert Demands(order)[i] <= r[i] <= Needs(order)[i];
      }
    }
    if Below(r, Demands(order)) {
      forall i | 0 <= i < |order|
        ensures Starts(Holding(order, r))[i] == r[i] && Needs(Holding(order, r))[i] == Demands(order)[i]
      {
        assert r[i] <= Demands(order)[i];
      }
    }
  }

  /** Somebody holds more than it demands: then everybody's demand is met, and the surplus is
      given back to exactly those that hold it. */
  lemma SurplusStays(granted: nat, order: seq<Share>, r: seq<nat>)
    requires |r| == |order| && Sum(r) <= granted && Below(Demands(order), r) && Below(r, Needs(order))
    ensures SplitOf(granted, Holding(order, r)) == r
  {
    HoldingVectors(order, r);
    SumLe(Demands(order), r);
    GiveNothing(Demands(order), Demands(order), granted);
    GiveAll(r, Demands(order), granted);
  }

  // ------------------------------------------------------- the imperative split

  function KeyOf(s: Share): Key { s.key }

  method FindFirstMax(values: seq<nat>) returns (r: Option<nat>)
    ensures r == FirstMax(values)
  {
    r := None;
    var n := 0;
    while n < |values|
      invariant 0 <= n <= |values|
      invariant r == FirstMax(values[..n])
    {
      assert values[..n + 1][..n] == values[..n];
      if values[n] > (if r.Some? then values[r.value] else 0) {
        r := Some(n);
      }
      n := n + 1;
    }
    assert values[..n] == values;
  }

  method CutDownInPlace(given: array<nat>, granted: nat)
    modifies given
    ensures given[..] == CutDown(old(given[..]), granted)
  {
    var total := Total(given[..]);
    while total > granted
      invariant total == Sum(given[..])
      invariant CutDown(given[..], granted) == CutDown(old(given[..]), granted)
      decreases total
    {
      var most := FindFirstMax(given[..]);
      if most.None? {
        break;
      }
      ghost var was := given[..];
      SumUpdate(was, most.value, was[most.value] - 1);
      given[most.value] := given[most.value] - 1;
      assert given[..] == was[most.value := was[most.value] - 1];
      total := total - 1;
    }
  }

  method GiveUpToInPlace(granted: nat, wanted: seq<nat>, given: array<nat>)
    requires |wanted| == given.Length
    modifies given
    ensures given[..] == GiveUpTo(wanted, old(given[..]), granted)
  {
    var total := Total(given[..]);
    while total < granted
      invariant total == Sum(given[..])
      invariant GiveUpTo(wanted, given[..], granted) == GiveUpTo(wanted, old(given[..]), granted)
    {
      var furthest := FindFirstMax(Shortfalls(wanted, given[..]));
      if furthest.None? {
        break;
      }
      ghost var was := given[..];
      SumUpdate(was, furthest.value, was[furthest.value] + 1);
      given[furthest.value] := given[furthest.value] + 1;
      assert given[..] == was[furthest.value := was[furthest.value] + 1];
      total := total + 1;
    }
  }

  method Total(given: seq<nat>) returns (total: nat)
    ensures total == Sum(given)
  {
    total := 0;
    var n := 0;
    while n < |given|
      invariant 0 <= n <= |given|
      invariant total == SumTo(given, n)
    {
      total := total + given[n];
      n := n + 1;
    }
  }

  /** `split`: each proxy's part of a tenant's grant, by proxy. */
  method Split(granted: u32, shares: seq<Share>) returns (r: map<Key, nat>)
    ensures Pairs(Sorting.SortBy(shares, KeyOf), SplitOf(granted, Sorting.SortBy(shares, KeyOf)), r)
    ensures r.Keys == (set s | s in shares :: s.key)
  {
    var order := Sorting.SortBy(shares, KeyOf);
    var given := new nat[|order|](i requires 0 <= i < |order| => Min(order[i].current, order[i].demand));
    assert given[..] == Starts(order);
    CutDownInPlace(given, granted);
    GiveUpToInPlace(granted, Demands(order), given);
    GiveUpToInPlace(granted, Needs(order), given);
    assert given[..] == SplitOf(granted, order);
    r := Collect(order, given[..]);
    assert forall s :: s in order <==> s in shares;
  }

  /** No later share has the key of share `i`. */
  ghost predicate LastOfKey(order: seq<Share>, i: nat)
    requires i < |order|
  {
    forall j :: i < j < |order| ==> order[j].key != order[i].key
  }

  /** Every key is paired with the part of the last share that has it. */
  ghost predicate Pairs(order: seq<Share>, given: seq<nat>, r: map<Key, nat>)
    requires |given| == |order|
  {
    forall i :: 0 <= i < |order| ==> order[i].key in r && (LastOfKey(order, i) ==> r[order[i].key] == given[i])
  }

  /** With distinct keys, that is its own part. */
  lemma PairsDistinct(order: seq<Share>, given: seq<nat>, r: map<Key, nat>)
    requires |given| == |order| && Sorting.Distinct(order, KeyOf) && Pairs(order, given, r)
    ensures forall i :: 0 <= i < |order| ==> order[i].key in r && r[order[i].key] == given[i]
  {
    forall i | 0 <= i < |order| ensures r[order[i].key] == given[i] {
      forall j | i < j < |order| ensures order[j].key != order[i].key {
        assert KeyOf(order[i]) != KeyOf(order[j]);
      }
      assert LastOfKey(order, i);
    }
  }

  method Collect(order: seq<Share>, given: seq<nat>) returns (r: map<Key, nat>)
    requires |given| == |order|
    ensures r.Keys == (set s | s in order :: s.key) && Pairs(order, given, r)
  {
    r := map[];
    var n := 0;
    while n < |order|
      invariant 0 <= n <= |order|
      invariant Pairs(order[..n], given[..n], r)
      invariant forall k :: k in r ==> exists i :: 0 <= i < n && order[i].key == k
    {
      OnePairMore(order, given, r, n);
      r := r[order[n].key := given[n]];
      n := n + 1;
    }
    assert order[..n] == order && given[..n] == given;
    forall k ensures k in r.Keys <==> k in (set s | s in order :: s.key) {
      if k in r {
        var i :| 0 <= i < |order| && order[i].key == k;
        assert order[i] in order;
      }
    }
  }

  lemma OnePairMore(order: seq<Share>, given: seq<nat>, r: map<Key, nat>, n: nat)
    requires n < |order| == |given| && Pairs(order[..n], given[..n], r)
    ensures Pairs(order[..n + 1], given[..n + 1], r[order[n].key := given[n]])
  {
    var more := order[..n + 1];
    forall i | 0 <= i < n && LastOfKey(more, i) ensures order[i].key != order[n].key && LastOfKey(order[..n], i) {
      assert more[n].key != more[i].key;
      forall j | i < j < n ensures order[j].key != order[i].key {
        assert more[j].key != more[i].key;
      }
    }
    forall i | 0 <= i < n ensures order[i].key in r {
      assert order[..n][i].key in r;
    }
  }
}
