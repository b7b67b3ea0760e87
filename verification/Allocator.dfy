/**
 The three-phase allocator (crates/sched/src/fair.rs, `WeightedMaxMinFair::allocate`) and its
 theorems: conservation, priority, fairness, budget and demand monotonicity, stability and
 independence of the order of the claims.
 */
module Allocator {
  import opened Numbers
  import opened Claims
  import opened Fair
  import Sorting

  // ------------------------------------------------------------ sorting by key

  function KeyOf(c: Claim): Key { c.key }

  predicate DistinctKeys(claims: seq<Claim>) { Sorting.Distinct(claims, KeyOf) }

  predicate SortedClaims(claims: seq<Claim>) { Sorting.Sorted(claims, KeyOf) }

  /** The order the source sorts its claims into before it builds its rows. */
  function SortClaims(claims: seq<Claim>): (r: seq<Claim>)
    ensures |r| == |claims| && (DistinctKeys(claims) ==> SortedClaims(r))
    ensures forall c :: c in r <==> c in claims
  {
    Sorting.SortBy(claims, KeyOf)
  }

  lemma SortedUnique(a: seq<Claim>, b: seq<Claim>)
    requires SortedClaims(a) && SortedClaims(b)
    requires forall c :: c in a <==> c in b
    ensures a == b
  {
    Sorting.SortedUnique(a, b, KeyOf);
  }

  // --------------------------------------------------------- runs of three fills

  function LanesFor(cs: seq<Claim>, release: u32, phase: Phase, base: seq<nat>): (r: seq<Lane>)
    requires |base| == |cs|
    ensures |r| == |cs|
  {
    seq(|cs|, i requires 0 <= i < |cs| => 
      Lane(base[i], phase.Limit(RowOf(cs[i], release)), cs[i].weight, cs[i].current))
  }

  function RowOf(c: Claim, release: u32): Row {
    Row(c.Guarantee(), c.Ceiling(), c.Kept(release), c.current, c.weight, 0, 0)
  }

  function Zeros(n: nat): (r: seq<nat>)
    ensures |r| == n
  {
    seq(n, i => 0)
  }

  function Guarantees(cs: seq<Claim>): (r: seq<nat>)
    ensures |r| == |cs|
  {
    seq(|cs|, i requires 0 <= i < |cs| => cs[i].Guarantee())
  }

  function Ceilings(cs: seq<Claim>): (r: seq<nat>)
    ensures |r| == |cs|
  {
    seq(|cs|, i requires 0 <= i < |cs| => cs[i].Ceiling())
  }

  /** The most each claim can end with: its ceiling, or what it is allowed to keep beyond it. */
  function Caps(cs: seq<Claim>, release: u32): (r: seq<nat>)
    ensures |r| == |cs|
  {
    seq(|cs|, i requires 0 <= i < |cs| => Max(cs[i].Ceiling(), cs[i].Kept(release)))
  }

  /** The grants after each of the three phases over claims in key order. */
  ghost predicate IsRun(cs: seq<Claim>, release: u32, budget: u32, g1: seq<nat>, g2: seq<nat>, g: seq<nat>) {
    && |g1| == |cs| && |g2| == |cs|
    && IsFill(LanesFor(cs, release, Phase.Guarantee, Zeros(|cs|)), budget, g1)
    && IsFill(LanesFor(cs, release, Phase.Demand, g1), budget, g2)
    && IsFill(LanesFor(cs, release, Phase.Retention, g2), budget, g)
  }

  function Unmet(cs: seq<Claim>, g: seq<nat>): (r: seq<nat>)
    requires |g| == |cs|
    ensures |r| == |cs|
  {
    seq(|cs|, i requires 0 <= i < |cs| => SatSub(cs[i].Guarantee(), g[i]))
  }

  /** The grants of the first `n` claims, leaving out the ones that got nothing. */
  function GrantMap(cs: seq<Claim>, g: seq<nat>, n: nat): map<Key, nat>
    requires n <= |cs| == |g|
  {
    if n == 0 then map[]
    else if g[n - 1] > 0 then GrantMap(cs, g, n - 1)[cs[n - 1].key := g[n - 1]]
    else GrantMap(cs, g, n - 1)
  }

  lemma {:induction false} GrantMapKeys(cs: seq<Claim>, g: seq<nat>, n: nat, k: Key)
    requires n <= |cs| == |g|
    ensures k in GrantMap(cs, g, n) ==> GrantMap(cs, g, n)[k] > 0 && exists i :: 0 <= i < n && cs[i].key == k
  {
    if n > 0 {
      GrantMapKeys(cs, g, n - 1, k);
    }
  }

  lemma {:induction false} GrantMapGet(cs: seq<Claim>, g: seq<nat>, n: nat, i: nat)
    requires i < n <= |cs| == |g| && SortedClaims(cs)
    ensures (if cs[i].key in GrantMap(cs, g, n) then GrantMap(cs, g, n)[cs[i].key] else 0) == g[i]
  {
    if i < n - 1 {
      GrantMapGet(cs, g, n - 1, i);
    } else {
      GrantMapKeys(cs, g, i, cs[i].key);
    }
  }

  ghost predicate Reports(cs: seq<Claim>, g: seq<nat>, grants: Grants) {
    && |g| == |cs|
    && grants.granted == GrantMap(cs, g, |cs|)
    && grants.total == Sum(g)
    && grants.unmetGuarantee == Min(Sum(Unmet(cs, g)), U32_MAX)
  }

  /** `grants` is the answer `allocate` gives to `claims`. */
  ghost predicate Allocates(budget: u32, release: u32, claims: seq<Claim>, grants: Grants) {
    exists g1, g2, g :: IsRun(SortClaims(claims), release, budget, g1, g2, g)
                        && Reports(SortClaims(claims), g, grants)
  }

  method Allocate(budget: u32, release: u32, claims: seq<Claim>) returns (grants: Grants)
    ensures Allocates(budget, release, claims, grants)
  {
    var cs := SortClaims(claims);
    var rows := new Row[|cs|](i requires 0 <= i < |cs| => RowOf(cs[i], release));
    assert GrantedOf(rows[..]) == Zeros(|cs|);
    SumOfZeros(|cs|);
    var remaining := budget;

    RowsGiveLanes(cs, release, rows[..], Phase.Guarantee);
    ghost var start := rows[..];
    remaining := Fill(rows, remaining, Phase.Guarantee);
    ghost var after1 := rows[..];
    RowsStay(cs, release, start, after1);

    RowsGiveLanes(cs, release, after1, Phase.Demand);
    remaining := Fill(rows, remaining, Phase.Demand);
    ghost var after2 := rows[..];
    RowsStay(cs, release, after1, after2);

    RowsGiveLanes(cs, release, after2, Phase.Retention);
    remaining := Fill(rows, remaining, Phase.Retention);
    RowsStay(cs, release, after2, rows[..]);

    ghost var g := GrantedOf(rows[..]);
    assert IsRun(cs, release, budget, GrantedOf(after1), GrantedOf(after2), g);
    grants := Summarise(cs, release, g, rows);
  }

  ghost predicate RowsFor(cs: seq<Claim>, release: u32, rows: seq<Row>) {
    && |rows| == |cs|
    && forall i :: 0 <= i < |rows| ==>
         rows[i] == RowOf(cs[i], release).(granted := rows[i].granted, base := rows[i].base)
  }

  lemma RowsStay(cs: seq<Claim>, release: u32, a: seq<Row>, b: seq<Row>)
    requires RowsFor(cs, release, a) && SameRows(b, a)
    ensures RowsFor(cs, release, b)
  {
  }

  lemma RowsGiveLanes(cs: seq<Claim>, release: u32, rows: seq<Row>, phase: Phase)
    requires RowsFor(cs, release, rows)
    ensures LanesOf(rows, phase) == LanesFor(cs, release, phase, GrantedOf(rows))
  {
  }

  lemma SumOfZeros(n: nat)
    ensures Sum(Zeros(n)) == 0
  {
    FirstZeros(n, n);
  }

  lemma {:induction false} FirstZeros(n: nat, m: nat)
    requires m <= n
    ensures SumTo(Zeros(n), m) == 0
  {
    if m > 0 {
      FirstZeros(n, m - 1);
    }
  }

  /** The loop that turns the rows into the answer, with its running totals. */
  method Summarise(cs: seq<Claim>, ghost release: u32, ghost g: seq<nat>, rows: array<Row>) returns (grants: Grants)
    requires RowsFor(cs, release, rows[..]) && g == GrantedOf(rows[..]) && Sum(g) <= U32_MAX
    ensures Reports(cs, g, grants)
  {
    var granted: map<Key, nat> := map[];
    var total: u32 := 0;
    var unmet: nat := 0;
    var n := 0;
    while n < |cs|
      invariant 0 <= n <= |cs|
      invariant granted == GrantMap(cs, g, n)
      invariant total == SumTo(g, n) && unmet == SumTo(Unmet(cs, g), n)
    {
      PrefixSum(g, n + 1);
      unmet := unmet + SatSub(rows[n].guarantee, rows[n].granted);
      if rows[n].granted > 0 {
        granted := granted[cs[n].key := rows[n].granted];
        total := total + rows[n].granted;
      }
      n := n + 1;
    }
    grants := Grants(granted, total, Min(unmet, U32_MAX));
  }

  lemma SumOfPrefix(s: seq<nat>, n: nat)
    requires n < |s|
    ensures Sum(s[..n + 1]) == Sum(s[..n]) + s[n]
  {
    SumOfFirst(s, n);
    SumOfFirst(s, n + 1);
  }

  lemma {:induction false} PrefixSum(s: seq<nat>, n: nat)
    requires n <= |s|
    ensures SumTo(s, n) <= Sum(s)
    decreases |s| - n
  {
    if n < |s| {
      PrefixSum(s, n + 1);
    }
  }

  // ---------------------------------------------------------------- totals

  ghost predicate Below(a: seq<nat>, b: seq<nat>) {
    |a| == |b| && forall i :: 0 <= i < |a| ==> a[i] <= b[i]
  }

  lemma LaneFacts(cs: seq<Claim>, release: u32, base: seq<nat>)
    requires |base| == |cs|
    ensures forall phase :: Bases(LanesFor(cs, release, phase, base)) == base
    ensures base == Zeros(|cs|) ==> Tops(LanesFor(cs, release, Phase.Guarantee, base)) == Guarantees(cs)
    ensures Below(base, Guarantees(cs)) ==> Tops(LanesFor(cs, release, Phase.Demand, base)) == Ceilings(cs)
    ensures base == Ceilings(cs) ==> Tops(LanesFor(cs, release, Phase.Retention, base)) == Caps(cs, release)
  {
  }

  lemma LimitsAreOrdered(cs: seq<Claim>, release: u32)
    ensures Sum(Guarantees(cs)) <= Sum(Ceilings(cs)) <= Sum(Caps(cs, release))
  {
    SumLe(Guarantees(cs), Ceilings(cs));
    SumLe(Ceilings(cs), Caps(cs, release));
  }

  /** Grants only rise from phase to phase, and stay within each phase's limits. */
  lemma RunBounds(cs: seq<Claim>, release: u32, budget: u32, g1: seq<nat>, g2: seq<nat>, g: seq<nat>)
    requires IsRun(cs, release, budget, g1, g2, g)
    ensures Below(g1, Guarantees(cs)) && Below(g2, Ceilings(cs)) && Below(g, Caps(cs, release))
    ensures Below(g1, g2) && Below(g2, g)
  {
    forall i | 0 <= i < |cs|
      ensures g1[i] <= Guarantees(cs)[i] && g2[i] <= Ceilings(cs)[i]
              && g1[i] <= g2[i] <= g[i] <= Caps(cs, release)[i]
    {
      assert LanesFor(cs, release, Phase.Guarantee, Zeros(|cs|))[i].Top() == cs[i].Guarantee();
      assert LanesFor(cs, release, Phase.Demand, g1)[i].base == g1[i];
      assert LanesFor(cs, release, Phase.Retention, g2)[i].base == g2[i];
    }
  }

  /** Each phase ends exactly at the budget or with everyone at the limit of that phase, and a
      phase the budget does not outlast decides the answer. */
  lemma RunShape(cs: seq<Claim>, release: u32, budget: u32, g1: seq<nat>, g2: seq<nat>, g: seq<nat>)
    requires IsRun(cs, release, budget, g1, g2, g)
    ensures Sum(Guarantees(cs)) <= Sum(Ceilings(cs)) <= Sum(Caps(cs, release))
    ensures Below(g1, Guarantees(cs)) && Below(g2, Ceilings(cs)) && Below(g, Caps(cs, release))
    ensures Below(g1, g2) && Below(g2, g)
    ensures Sum(g) == Min(budget, Sum(Caps(cs, release)))
    ensures Sum(Guarantees(cs)) <= budget ==> g1 == Guarantees(cs)
    ensures Sum(Ceilings(cs)) <= budget ==> g2 == Ceilings(cs)
    ensures budget <= Sum(Guarantees(cs)) ==> g == g2 == g1
    ensures budget <= Sum(Ceilings(cs)) ==> g == g2
  {
    LimitsAreOrdered(cs, release);
    RunBounds(cs, release, budget, g1, g2, g);
    LaneFacts(cs, release, Zeros(|cs|));
    LaneFacts(cs, release, g1);
    LaneFacts(cs, release, g2);
    FillShape(LanesFor(cs, release, Phase.Guarantee, Zeros(|cs|)), budget, g1);
    FillShape(LanesFor(cs, release, Phase.Demand, g1), budget, g2);
    FillShape(LanesFor(cs, release, Phase.Retention, g2), budget, g);
  }

  /** An answer is unique. */
  lemma RunUnique(cs: seq<Claim>, release: u32, budget: u32,
                  g1: seq<nat>, g2: seq<nat>, g: seq<nat>, h1: seq<nat>, h2: seq<nat>, h: seq<nat>)
    requires IsRun(cs, release, budget, g1, g2, g) && IsRun(cs, release, budget, h1, h2, h)
    ensures g == h
  {
    FillUnique(LanesFor(cs, release, Phase.Guarantee, Zeros(|cs|)), budget, g1, h1);
    FillUnique(LanesFor(cs, release, Phase.Demand, g1), budget, g2, h2);
    FillUnique(LanesFor(cs, release, Phase.Retention, g2), budget, g, h);
  }

  // --------------------------------------------------------- budget monotonicity

  lemma RunBudgetMonotone(cs: seq<Claim>, release: u32, budget: u32, more: u32,
                          g1: seq<nat>, g2: seq<nat>, g: seq<nat>, h1: seq<nat>, h2: seq<nat>, h: seq<nat>)
    requires budget <= more
    requires IsRun(cs, release, budget, g1, g2, g) && IsRun(cs, release, more, h1, h2, h)
    ensures forall i :: 0 <= i < |cs| ==> g[i] <= h[i]
  {
    RunShape(cs, release, budget, g1, g2, g);
    RunShape(cs, release, more, h1, h2, h);
    if budget <= Sum(Guarantees(cs)) {
      FillMonotone(LanesFor(cs, release, Phase.Guarantee, Zeros(|cs|)), budget, more, g1, h1);
    } else if budget <= Sum(Ceilings(cs)) {
      FillMonotone(LanesFor(cs, release, Phase.Demand, g1), budget, more, g2, h2);
    } else {
      FillMonotone(LanesFor(cs, release, Phase.Retention, g2), budget, more, g, h);
    }
  }

  // --------------------------------------------------------- demand monotonicity

  ghost predicate RaisedAt(a: seq<nat>, b: seq<nat>, t: nat) {
    && t < |a| == |b| && a[t] <= b[t]
    && forall j :: 0 <= j < |a| && j != t ==> a[j] == b[j]
  }

  /** When the raised run is decided in a phase the other run outlasts, everyone else holds no
      more than that phase's limit, so what they give up is the raised row's. */
  lemma DecidedEarlier(limits: seq<nat>, raised: seq<nat>, g: seq<nat>, h: seq<nat>, t: nat)
    requires t < |limits| == |raised| && |g| == |h| == |limits| && Sum(g) <= Sum(h)
    requires RaisedAt(limits, raised, t)
    requires Below(limits, g) && Below(h, raised)
    ensures g[t] <= h[t]
  {
    if g[t] > h[t] {
      var j := SumCrosses(g, h, t);
      assert false;
    }
  }

  ghost predicate RaisedDemand(cs: seq<Claim>, ds: seq<Claim>, t: nat) {
    && t < |cs| == |ds| && ds == cs[t := ds[t]]
    && ds[t] == cs[t].(demand := ds[t].demand) && cs[t].demand <= ds[t].demand
  }

  lemma RaisedClaim(cs: seq<Claim>, ds: seq<Claim>, t: nat, release: u32, phase: Phase, a: seq<nat>, b: seq<nat>)
    requires RaisedDemand(cs, ds, t) && |a| == |cs| && RaisedAt(a, b, t)
    ensures RaisedLane(LanesFor(cs, release, phase, a), LanesFor(ds, release, phase, b), t)
  {
  }

  lemma RaisedGuarantees(cs: seq<Claim>, ds: seq<Claim>, t: nat)
    requires RaisedDemand(cs, ds, t)
    ensures RaisedAt(Guarantees(cs), Guarantees(ds), t)
    ensures Sum(Guarantees(cs)) <= Sum(Guarantees(ds))
  {
    SumLe(Guarantees(cs), Guarantees(ds));
  }

  lemma RaisedCeilings(cs: seq<Claim>, ds: seq<Claim>, t: nat)
    requires RaisedDemand(cs, ds, t)
    ensures RaisedAt(Ceilings(cs), Ceilings(ds), t)
    ensures Sum(Ceilings(cs)) <= Sum(Ceilings(ds))
  {
    SumLe(Ceilings(cs), Ceilings(ds));
  }

  /** A phase both runs are decided in: the raised claim's lane is raised too. */
  lemma PhaseRaised(cs: seq<Claim>, ds: seq<Claim>, t: nat, release: u32, phase: Phase, a: seq<nat>, b: seq<nat>,
                    budget: u32, g: seq<nat>, h: seq<nat>)
    requires RaisedDemand(cs, ds, t) && |a| == |cs| && RaisedAt(a, b, t)
    requires IsFill(LanesFor(cs, release, phase, a), budget, g)
    requires IsFill(LanesFor(ds, release, phase, b), budget, h)
    ensures g[t] <= h[t]
  {
    RaisedClaim(cs, ds, t, release, phase, a, b);
    FillRaised(LanesFor(cs, release, phase, a), LanesFor(ds, release, phase, b), t, budget, g, h);
  }

  lemma DecidedByGuarantees(cs: seq<Claim>, ds: seq<Claim>, t: nat, release: u32, budget: u32,
                          g1: seq<nat>, g2: seq<nat>, g: seq<nat>, h1: seq<nat>, h2: seq<nat>, h: seq<nat>)
    requires RaisedDemand(cs, ds, t)
    requires IsRun(cs, release, budget, g1, g2, g) && IsRun(ds, release, budget, h1, h2, h)
    requires budget <= Sum(Guarantees(ds))
    ensures g[t] <= h[t]
  {
    RaisedGuarantees(cs, ds, t);
    if budget <= Sum(Guarantees(cs)) {
      PhaseRaised(cs, ds, t, release, Phase.Guarantee, Zeros(|cs|), Zeros(|cs|), budget, g1, h1);
    }
    RunShape(cs, release, budget, g1, g2, g);
    RunShape(ds, release, budget, h1, h2, h);
    if Sum(Guarantees(cs)) < budget {
      DecidedEarlier(Guarantees(cs), Guarantees(ds), g, h, t);
    }
  }

  lemma DecidedByDemand(cs: seq<Claim>, ds: seq<Claim>, t: nat, release: u32, budget: u32,
                          g1: seq<nat>, g2: seq<nat>, g: seq<nat>, h1: seq<nat>, h2: seq<nat>, h: seq<nat>)
    requires RaisedDemand(cs, ds, t)
    requires IsRun(cs, release, budget, g1, g2, g) && IsRun(ds, release, budget, h1, h2, h)
    requires Sum(Guarantees(ds)) <= budget <= Sum(Ceilings(ds))
    ensures g[t] <= h[t]
  {
    RaisedGuarantees(cs, ds, t);
    RaisedCeilings(cs, ds, t);
    RunShape(cs, release, budget, g1, g2, g);
    RunShape(ds, release, budget, h1, h2, h);
    if budget <= Sum(Ceilings(cs)) {
      PhaseRaised(cs, ds, t, release, Phase.Demand, g1, h1, budget, g, h);
    } else {
      DecidedEarlier(Ceilings(cs), Ceilings(ds), g, h, t);
    }
  }

  lemma DecidedByRetention(cs: seq<Claim>, ds: seq<Claim>, t: nat, release: u32, budget: u32,
                          g1: seq<nat>, g2: seq<nat>, g: seq<nat>, h1: seq<nat>, h2: seq<nat>, h: seq<nat>)
    requires RaisedDemand(cs, ds, t)
    requires IsRun(cs, release, budget, g1, g2, g) && IsRun(ds, release, budget, h1, h2, h)
    requires Sum(Ceilings(ds)) <= budget
    ensures g[t] <= h[t]
  {
    RaisedCeilings(cs, ds, t);
    RunShape(cs, release, budget, g1, g2, g);
    RunShape(ds, release, budget, h1, h2, h);
    PhaseRaised(cs, ds, t, release, Phase.Retention, g2, h2, budget, g, h);
  }

  lemma RunDemandMonotone(cs: seq<Claim>, ds: seq<Claim>, t: nat, release: u32, budget: u32,
                          g1: seq<nat>, g2: seq<nat>, g: seq<nat>, h1: seq<nat>, h2: seq<nat>, h: seq<nat>)
    requires RaisedDemand(cs, ds, t)
    requires IsRun(cs, release, budget, g1, g2, g) && IsRun(ds, release, budget, h1, h2, h)
    ensures g[t] <= h[t]
  {
    LimitsAreOrdered(ds, release);
    if budget <= Sum(Guarantees(ds)) {
      DecidedByGuarantees(cs, ds, t, release, budget, g1, g2, g, h1, h2, h);
    } else if budget <= Sum(Ceilings(ds)) {
      DecidedByDemand(cs, ds, t, release, budget, g1, g2, g, h1, h2, h);
    } else {
      DecidedByRetention(cs, ds, t, release, budget, g1, g2, g, h1, h2, h);
    }
  }

  // ------------------------------------------------------------------ stability

  function Settled(c: Claim, release: u32, g: nat): nat {
    if g <= c.Ceiling() then g else Max(c.Ceiling(), SatSub(g, c.Released(release)))
  }

  lemma SettledCap(c: Claim, release: u32, g: u32)
    requires c.Ceiling() <= g <= Max(c.Ceiling(), c.Kept(release))
    ensures Max(c.Ceiling(), c.(current := g).Kept(release)) == Settled(c, release, g) <= g
  {
  }

  ghost predicate HeldAsGranted(cs: seq<Claim>, ds: seq<Claim>, g: seq<nat>) {
    && |ds| == |cs| == |g|
    && forall i :: 0 <= i < |cs| ==> ds[i] == cs[i].(current := g[i])
  }

  lemma HeldKeepsLimits(cs: seq<Claim>, ds: seq<Claim>, g: seq<nat>)
    requires HeldAsGranted(cs, ds, g)
    ensures Guarantees(cs) == Guarantees(ds) && Ceilings(cs) == Ceilings(ds)
  {
  }

  /** The slots beyond the ceilings are let go of by one release each. */
  lemma RetentionSettles(cs: seq<Claim>, ds: seq<Claim>, release: u32, budget: u32, g: seq<nat>, h: seq<nat>)
    requires HeldAsGranted(cs, ds, g) && |h| == |cs|
    requires Below(Ceilings(cs), g) && Below(g, Caps(cs, release))
    requires Sum(g) <= budget && Sum(h) == Min(budget, Sum(Caps(ds, release))) && Below(h, Caps(ds, release))
    ensures forall i :: 0 <= i < |cs| ==> h[i] == Settled(cs[i], release, g[i])
  {
    forall i | 0 <= i < |cs| ensures Caps(ds, release)[i] == Settled(cs[i], release, g[i]) <= g[i] {
      SettledCap(cs[i], release, g[i]);
    }
    SumLe(Caps(ds, release), g);
    SumEqual(h, Caps(ds, release));
  }

  lemma PhaseSettles(cs: seq<Claim>, ds: seq<Claim>, release: u32, phase: Phase, base: seq<nat>,
                     budget: u32, g: seq<nat>, h: seq<nat>)
    requires HeldAsGranted(cs, ds, g) && |base| == |cs| && phase != Phase.Retention
    requires IsFill(LanesFor(cs, release, phase, base), budget, g)
    requires IsFill(LanesFor(ds, release, phase, base), budget, h)
    ensures g == h
  {
    var again := LanesFor(ds, release, phase, base);
    FillReheld(LanesFor(cs, release, phase, base), again, budget, g);
    FillUnique(again, budget, g, h);
  }

  /** Allocating again from the first answer keeps every grant within its ceiling and releases
      the rest step by step. */
  lemma RunStable(cs: seq<Claim>, ds: seq<Claim>, release: u32, budget: u32,
                  g1: seq<nat>, g2: seq<nat>, g: seq<nat>, h1: seq<nat>, h2: seq<nat>, h: seq<nat>)
    requires IsRun(cs, release, budget, g1, g2, g) && IsRun(ds, release, budget, h1, h2, h)
    requires HeldAsGranted(cs, ds, g)
    ensures forall i :: 0 <= i < |cs| ==> h[i] == Settled(cs[i], release, g[i])
  {
    HeldKeepsLimits(cs, ds, g);
    RunShape(cs, release, budget, g1, g2, g);
    RunShape(ds, release, budget, h1, h2, h);
    if budget <= Sum(Guarantees(cs)) {
      PhaseSettles(cs, ds, release, Phase.Guarantee, Zeros(|cs|), budget, g, h);
    } else if budget <= Sum(Ceilings(cs)) {
      PhaseSettles(cs, ds, release, Phase.Demand, g1, budget, g, h);
    } else {
      RetentionSettles(cs, ds, release, budget, g, h);
    }
  }
}
