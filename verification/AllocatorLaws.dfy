/** What `allocate` promises its callers, stated on the claims it is given and the grants it
    answers (crates/sched/src/fair.rs, crates/sched/src/lib.rs). */
module AllocatorLaws {
  import opened Numbers
  import opened Claims
  import opened Fair
  import opened Allocator
  import Sorting

  // --------------------------------------------------- what the fields of a claim mean

  /** The slots a policy reserves: its minimum, as far as they are asked for and allowed. */
  function Floor(c: Claim): nat {
    if c.min <= c.demand && c.min <= c.max then c.min else if c.demand <= c.max then c.demand else c.max
  }

  /** The slots asked for and allowed. */
  function Wants(c: Claim): nat { if c.demand <= c.max then c.demand else c.max }

  /** The slots a claim may keep without asking for them: what it has, less one release if it may let
      go, and never more than it is allowed. */
  function Keeps(c: Claim, release: u32): nat {
    var kept := if !c.mayRelease then c.current else if c.current >= release then c.current - release else 0;
    if kept <= c.max then kept else c.max
  }

  function MostOf(c: Claim, release: u32): nat {
    if Keeps(c, release) <= Wants(c) then Wants(c) else Keeps(c, release)
  }

  lemma FieldsMean(c: Claim, release: u32)
    ensures c.Guarantee() == Floor(c) && c.Ceiling() == Wants(c) && c.Kept(release) == Keeps(c, release)
    ensures Max(c.Ceiling(), c.Kept(release)) == MostOf(c, release)
  {
  }

  lemma {:induction false} SumBySeq(s: seq<Claim>, f: Claim -> nat, r: seq<nat>)
    requires |r| == |s| && forall i :: 0 <= i < |s| ==> r[i] == f(s[i])
    ensures Sum(r) == Sorting.SumBy(s, f)
    decreases |s|
  {
    if s != [] {
      SumBySeq(s[1..], f, r[1..]);
      SumAppend([r[0]], r[1..]);
      assert [r[0]] + r[1..] == r;
      assert SumTo([r[0]], 0) == 0 && Sum([r[0]]) == r[0];
    }
  }

  lemma SortedSum(claims: seq<Claim>, f: Claim -> nat, r: seq<nat>)
    requires |r| == |claims| && forall i :: 0 <= i < |r| ==> r[i] == f(SortClaims(claims)[i])
    ensures Sum(r) == Sorting.SumBy(claims, f)
  {
    SumBySeq(SortClaims(claims), f, r);
    Sorting.SortKeepsSum(claims, KeyOf, f);
  }

  /** The sums over the rows are the sums over the claims. */
  lemma SumsMean(claims: seq<Claim>, release: u32)
    ensures Sum(Guarantees(SortClaims(claims))) == Sorting.SumBy(claims, Floor)
    ensures Sum(Ceilings(SortClaims(claims))) == Sorting.SumBy(claims, Wants)
    ensures Sum(Caps(SortClaims(claims), release)) == Sorting.SumBy(claims, c => MostOf(c, release))
  {
    var cs := SortClaims(claims);
    forall i | 0 <= i < |cs|
      ensures Guarantees(cs)[i] == Floor(cs[i]) && Ceilings(cs)[i] == Wants(cs[i])
      ensures Caps(cs, release)[i] == MostOf(cs[i], release)
    {
      FieldsMean(cs[i], release);
    }
    SortedSum(claims, Floor, Guarantees(cs));
    SortedSum(claims, Wants, Ceilings(cs));
    SortedSum(claims, c => MostOf(c, release), Caps(cs, release));
  }

  // ----------------------------------------------------------------- the answer's rows

  /** The run behind an answer. */
  lemma RunOf(budget: u32, release: u32, claims: seq<Claim>, grants: Grants)
    returns (g1: seq<nat>, g2: seq<nat>, g: seq<nat>)
    requires DistinctKeys(claims) && Allocates(budget, release, claims, grants)
    ensures IsRun(SortClaims(claims), release, budget, g1, g2, g)
    ensures Reports(SortClaims(claims), g, grants)
  {
    g1, g2, g :| IsRun(SortClaims(claims), release, budget, g1, g2, g) && Reports(SortClaims(claims), g, grants);
  }

  lemma IndexOf(claims: seq<Claim>, c: Claim) returns (i: nat)
    requires DistinctKeys(claims) && c in claims
    ensures i < |claims| && SortClaims(claims)[i] == c
  {
    assert c in SortClaims(claims);
    i :| 0 <= i < |claims| && SortClaims(claims)[i] == c;
  }

  lemma GetIs(cs: seq<Claim>, g: seq<nat>, grants: Grants, i: nat)
    requires SortedClaims(cs) && Reports(cs, g, grants) && i < |cs|
    ensures grants.Get(cs[i].key) == g[i]
  {
    GrantMapGet(cs, g, |cs|, i);
  }

  /** Where a claim's grant stands among the rows. */
  lemma Lookup(claims: seq<Claim>, g: seq<nat>, grants: Grants, c: Claim) returns (i: nat)
    requires DistinctKeys(claims) && Reports(SortClaims(claims), g, grants) && c in claims
    ensures i < |claims| == |g| && SortClaims(claims)[i] == c && grants.Get(c.key) == g[i]
  {
    i := IndexOf(claims, c);
    GetIs(SortClaims(claims), g, grants, i);
  }

  /** The rows behind an answer and what bounds them. */
  lemma Outcome(budget: u32, release: u32, claims: seq<Claim>, grants: Grants) returns (g2: seq<nat>, g: seq<nat>)
    requires DistinctKeys(claims) && Allocates(budget, release, claims, grants)
    ensures Reports(SortClaims(claims), g, grants)
    ensures Below(g2, Ceilings(SortClaims(claims))) && Below(g2, g) && Below(g, Caps(SortClaims(claims), release))
    ensures Sum(g) == Min(budget, Sum(Caps(SortClaims(claims), release)))
    ensures Sum(Ceilings(SortClaims(claims))) <= budget ==> g2 == Ceilings(SortClaims(claims))
    ensures budget <= Sum(Ceilings(SortClaims(claims))) ==> g == g2
    ensures Sum(Guarantees(SortClaims(claims))) <= budget ==> Below(Guarantees(SortClaims(claims)), g)
    ensures Sum(Ceilings(SortClaims(claims))) <= Sum(Caps(SortClaims(claims), release))
  {
    var g1;
    g1, g2, g := RunOf(budget, release, claims, grants);
    RunShape(SortClaims(claims), release, budget, g1, g2, g);
  }

  // ------------------------------------------------------------- conservation

  /** No slot is lost and none is invented: the total is the budget, or everything anyone may
      have if that is less. */
  lemma WorkConserving(budget: u32, release: u32, claims: seq<Claim>, grants: Grants)
    requires DistinctKeys(claims) && Allocates(budget, release, claims, grants)
    ensures grants.total == Min(budget, Sorting.SumBy(claims, c => MostOf(c, release)))
    ensures grants.total == Total(grants.granted)
    ensures forall c :: c in claims ==> grants.Get(c.key) <= MostOf(c, release)
  {
    var cs := SortClaims(claims);
    var g2, g := Outcome(budget, release, claims, grants);
    GrantMapTotal(cs, g, grants);
    SumsMean(claims, release);
    forall c | c in claims ensures grants.Get(c.key) <= MostOf(c, release) {
      var i := Lookup(claims, g, grants, c);
      FieldsMean(c, release);
      assert g[i] <= Caps(cs, release)[i];
    }
  }

  lemma GrantMapTotal(cs: seq<Claim>, g: seq<nat>, grants: Grants)
    requires SortedClaims(cs) && Reports(cs, g, grants)
    ensures Total(grants.granted) == Sum(g)
  {
    GrantMapPrefix(cs, g, |cs|);
    assert g[..|cs|] == g;
  }

  lemma {:induction false} GrantMapPrefix(cs: seq<Claim>, g: seq<nat>, n: nat)
    requires n <= |cs| == |g| && SortedClaims(cs)
    ensures Total(GrantMap(cs, g, n)) == Sum(g[..n])
  {
    if n > 0 {
      GrantMapPrefix(cs, g, n - 1);
      SumOfPrefix(g, n - 1);
      GrantMapKeys(cs, g, n - 1, cs[n - 1].key);
      TotalPut(GrantMap(cs, g, n - 1), cs[n - 1].key, g[n - 1]);
    }
  }

  /** Floors are met in full exactly when the budget covers them all: then every claim has at least
      the least of its minimum, its demand and its maximum.  What is missing is what the budget is
      short of their sum. */
  lemma GuaranteesMetIff(budget: u32, release: u32, claims: seq<Claim>, grants: Grants)
    requires DistinctKeys(claims) && Allocates(budget, release, claims, grants)
    ensures grants.GuaranteesMet() <==> Sorting.SumBy(claims, Floor) <= budget
    ensures grants.GuaranteesMet() <==> forall c :: c in claims ==> Floor(c) <= grants.Get(c.key)
    ensures grants.unmetGuarantee == Min(SatSub(Sorting.SumBy(claims, Floor), budget), U32_MAX)
  {
    var cs := SortClaims(claims);
    var g1, g2, g := RunOf(budget, release, claims, grants);
    UnmetSum(cs, release, budget, g1, g2, g);
    SumsMean(claims, release);
    UnmetIsZeroIff(cs, g);
    MetClaimByClaim(claims, g, grants);
  }

  lemma UnmetSum(cs: seq<Claim>, release: u32, budget: u32, g1: seq<nat>, g2: seq<nat>, g: seq<nat>)
    requires IsRun(cs, release, budget, g1, g2, g)
    ensures |g| == |cs| && Sum(Unmet(cs, g)) == SatSub(Sum(Guarantees(cs)), budget)
  {
    RunShape(cs, release, budget, g1, g2, g);
    if budget <= Sum(Guarantees(cs)) {
      UnmetTo(cs, g, |cs|);
    } else {
      forall i | 0 <= i < |cs| ensures Guarantees(cs)[i] <= g[i] {
        assert g1[i] <= g2[i] <= g[i];
      }
      UnmetIsZeroIff(cs, g);
    }
  }

  lemma {:induction false} UnmetTo(cs: seq<Claim>, g: seq<nat>, n: nat)
    requires n <= |cs| && Below(g, Guarantees(cs))
    ensures SumTo(Unmet(cs, g), n) + SumTo(g, n) == SumTo(Guarantees(cs), n)
  {
    if n > 0 {
      UnmetTo(cs, g, n - 1);
      assert g[n - 1] <= Guarantees(cs)[n - 1];
    }
  }

  lemma MetClaimByClaim(claims: seq<Claim>, g: seq<nat>, grants: Grants)
    requires DistinctKeys(claims) && Reports(SortClaims(claims), g, grants)
    ensures Below(Guarantees(SortClaims(claims)), g) <==> forall c :: c in claims ==> Floor(c) <= grants.Get(c.key)
  {
    var cs := SortClaims(claims);
    if Below(Guarantees(cs), g) {
      forall c | c in claims ensures Floor(c) <= grants.Get(c.key) {
        var i := Lookup(claims, g, grants, c);
        FieldsMean(c, 0);
        assert Guarantees(cs)[i] <= g[i];
      }
    }
    if forall c :: c in claims ==> Floor(c) <= grants.Get(c.key) {
      forall i | 0 <= i < |cs| ensures Guarantees(cs)[i] <= g[i] {
        GetIs(cs, g, grants, i);
        FieldsMean(cs[i], 0);
        assert cs[i] in claims;
      }
    }
  }

  lemma UnmetIsZeroIff(cs: seq<Claim>, g: seq<nat>)
    requires |g| == |cs|
    ensures Sum(Unmet(cs, g)) == 0 <==> Below(Guarantees(cs), g)
  {
    var zeros := Zeros(|cs|);
    SumOfZeros(|cs|);
    if Sum(Unmet(cs, g)) == 0 {
      SumEqual(zeros, Unmet(cs, g));
      forall i | 0 <= i < |cs| ensures Guarantees(cs)[i] <= g[i] {
        assert Unmet(cs, g)[i] == zeros[i];
      }
    }
    if Below(Guarantees(cs), g) {
      forall i | 0 <= i < |cs| ensures Unmet(cs, g)[i] == 0 {
        assert Guarantees(cs)[i] <= g[i];
      }
      assert Unmet(cs, g) == zeros;
    }
  }

  /** In proportion to the weights, `mine` is at most one slot ahead of `theirs`. */
  predicate AtMostOneAhead(mine: int, weight: NonZeroU32, theirs: int, other: NonZeroU32) {
    mine * other <= (theirs + 1) * weight
  }

  lemma PhaseIsFair(cs: seq<Claim>, release: u32, phase: Phase, base: seq<nat>, budget: nat, g: seq<nat>, i: nat,
                    j: nat)
    requires |base| == |cs| && IsFill(LanesFor(cs, release, phase, base), budget, g) && i < |cs| && j < |cs|
    requires |g| == |cs|
    requires base[i] < g[i] && g[j] < phase.Limit(RowOf(cs[j], release))
    ensures base[j] <= g[j] && AtMostOneAhead(g[i] - base[i], cs[i].weight, g[j] - base[j], cs[j].weight)
  {
    FillIsFair(LanesFor(cs, release, phase, base), budget, g, i, j);
  }

  /** The phase that ran out of budget is the last one that gave anything. */
  lemma LastPhase(cs: seq<Claim>, release: u32, budget: u32, g1: seq<nat>, g2: seq<nat>, g: seq<nat>, i: nat)
    requires IsRun(cs, release, budget, g1, g2, g) && i < |cs|
    ensures |g| == |cs|
    ensures g[i] < cs[i].Guarantee() ==> g == g1
    ensures g[i] > cs[i].Guarantee() ==> g1 == Guarantees(cs)
    ensures g[i] < cs[i].Ceiling() ==> g == g2
    ensures g[i] > cs[i].Ceiling() ==> g2 == Ceilings(cs)
    ensures g1[i] <= cs[i].Guarantee()
  {
    RunShape(cs, release, budget, g1, g2, g);
    assert g1[i] <= g2[i] <= g[i] && g1[i] <= Guarantees(cs)[i] && g2[i] <= Ceilings(cs)[i];
  }

  lemma FloorsAreFair(cs: seq<Claim>, release: u32, budget: u32, g1: seq<nat>, g2: seq<nat>, g: seq<nat>, i: nat,
                      j: nat)
    requires IsRun(cs, release, budget, g1, g2, g) && i < |cs| && j < |cs| && |g| == |cs|
    requires g[j] < cs[j].Guarantee()
    ensures g[i] <= cs[i].Guarantee()
    ensures g[i] > 0 ==> AtMostOneAhead(g[i], cs[i].weight, g[j], cs[j].weight)
  {
    LastPhase(cs, release, budget, g1, g2, g, i);
    LastPhase(cs, release, budget, g1, g2, g, j);
    if g[i] > 0 {
      PhaseIsFair(cs, release, Phase.Guarantee, Zeros(|cs|), budget, g, i, j);
    }
  }

  lemma DemandIsFair(cs: seq<Claim>, release: u32, budget: u32, g1: seq<nat>, g2: seq<nat>, g: seq<nat>, i: nat, j: nat)
    requires IsRun(cs, release, budget, g1, g2, g) && i < |cs| && j < |cs| && |g| == |cs|
    requires g[j] < cs[j].Ceiling() && cs[i].Guarantee() < g[i]
    ensures cs[j].Guarantee() <= g[j]
    ensures AtMostOneAhead(g[i] - cs[i].Guarantee(), cs[i].weight, g[j] - cs[j].Guarantee(), cs[j].weight)
  {
    LastPhase(cs, release, budget, g1, g2, g, i);
    LastPhase(cs, release, budget, g1, g2, g, j);
    PhaseIsFair(cs, release, Phase.Demand, g1, budget, g, i, j);
  }

  lemma RetentionIsFair(cs: seq<Claim>, release: u32, budget: u32, g1: seq<nat>, g2: seq<nat>, g: seq<nat>, i: nat,
                        j: nat)
    requires IsRun(cs, release, budget, g1, g2, g) && i < |cs| && j < |cs| && |g| == |cs|
    requires g[j] < cs[j].Kept(release) && cs[i].Ceiling() < g[i]
    ensures cs[j].Ceiling() <= g[j]
    ensures AtMostOneAhead(g[i] - cs[i].Ceiling(), cs[i].weight, g[j] - cs[j].Ceiling(), cs[j].weight)
  {
    LastPhase(cs, release, budget, g1, g2, g, i);
    PhaseIsFair(cs, release, Phase.Retention, g2, budget, g, i, j);
  }

  /** What a tenant has beyond the floors (or beyond the ceilings, for slots kept) is, in proportion
      to the weights, at most one slot ahead of any tenant that could still take one; and no tenant
      is above its floor while another is below its own. */
  predicate FairBetween(c: Claim, mine: nat, d: Claim, theirs: nat, release: u32) {
    && (theirs < Floor(d) ==> mine <= Floor(c))
    && (0 < mine && theirs < Floor(d) ==> AtMostOneAhead(mine, c.weight, theirs, d.weight))
    && (Floor(c) < mine && theirs < Wants(d) ==>
          AtMostOneAhead(mine - Floor(c), c.weight, theirs - Floor(d), d.weight))
    && (Wants(c) < mine && theirs < Keeps(d, release) ==>
          AtMostOneAhead(mine - Wants(c), c.weight, theirs - Wants(d), d.weight))
  }

  /** Weighted max-min fairness of the answer, through all three phases. */
  lemma WeightedFairness(budget: u32, release: u32, claims: seq<Claim>, grants: Grants, c: Claim, d: Claim)
    requires DistinctKeys(claims) && Allocates(budget, release, claims, grants) && c in claims && d in claims
    ensures FairBetween(c, grants.Get(c.key), d, grants.Get(d.key), release)
  {
    var cs := SortClaims(claims);
    var g1, g2, g := RunOf(budget, release, claims, grants);
    var i := Lookup(claims, g, grants, c);
    var j := Lookup(claims, g, grants, d);
    FairPair(cs, release, budget, g1, g2, g, i, j);
  }

  lemma FairPair(cs: seq<Claim>, release: u32, budget: u32, g1: seq<nat>, g2: seq<nat>, g: seq<nat>, i: nat, j: nat)
    requires IsRun(cs, release, budget, g1, g2, g) && i < |cs| && j < |cs| && |g| == |cs|
    ensures FairBetween(cs[i], g[i], cs[j], g[j], release)
  {
    FieldsMean(cs[i], release);
    FieldsMean(cs[j], release);
    if g[j] < cs[j].Guarantee() {
      FloorsAreFair(cs, release, budget, g1, g2, g, i, j);
    }
    if cs[i].Guarantee() < g[i] && g[j] < cs[j].Ceiling() {
      DemandIsFair(cs, release, budget, g1, g2, g, i, j);
    }
    if cs[i].Ceiling() < g[i] && g[j] < cs[j].Kept(release) {
      RetentionIsFair(cs, release, budget, g1, g2, g, i, j);
    }
  }

  /** No tenant keeps a slot beyond its ceiling while another is short of its own. */
  lemma DemandBeforeRetention(budget: u32, release: u32, claims: seq<Claim>, grants: Grants, c: Claim, d: Claim)
    requires DistinctKeys(claims) && Allocates(budget, release, claims, grants)
    requires c in claims && d in claims && grants.Get(d.key) < Wants(d)
    ensures grants.Get(c.key) <= Wants(c)
    ensures grants.total == budget
  {
    FieldsMean(c, release);
    FieldsMean(d, release);
    var cs := SortClaims(claims);
    var g2, g := Outcome(budget, release, claims, grants);
    var i := Lookup(claims, g, grants, c);
    var j := Lookup(claims, g, grants, d);
    assert g2[j] <= g[j] < Ceilings(cs)[j];
    assert g2 != Ceilings(cs);
    assert g2[i] <= Ceilings(cs)[i];
  }

  // ------------------------------------------------------------- monotonicity

  lemma Grows(budget: u32, more: u32, release: u32, claims: seq<Claim>, less: Grants, greater: Grants)
    returns (g: seq<nat>, h: seq<nat>)
    requires DistinctKeys(claims) && budget <= more
    requires Allocates(budget, release, claims, less) && Allocates(more, release, claims, greater)
    ensures Reports(SortClaims(claims), g, less) && Reports(SortClaims(claims), h, greater)
    ensures Below(g, h)
    ensures Sum(g) == Min(budget, Sum(Caps(SortClaims(claims), release)))
    ensures Sum(h) == Min(more, Sum(Caps(SortClaims(claims), release)))
  {
    var g1, g2, h1, h2;
    g1, g2, g := RunOf(budget, release, claims, less);
    h1, h2, h := RunOf(more, release, claims, greater);
    RunBudgetMonotone(SortClaims(claims), release, budget, more, g1, g2, g, h1, h2, h);
    RunShape(SortClaims(claims), release, budget, g1, g2, g);
    RunShape(SortClaims(claims), release, more, h1, h2, h);
  }

  /** A larger budget takes nothing away from anyone. */
  lemma MoreBudget(budget: u32, more: u32, release: u32, claims: seq<Claim>, less: Grants, greater: Grants, c: Claim)
    requires DistinctKeys(claims) && budget <= more && c in claims
    requires Allocates(budget, release, claims, less) && Allocates(more, release, claims, greater)
    ensures less.Get(c.key) <= greater.Get(c.key)
  {
    var g, h := Grows(budget, more, release, claims, less, greater);
    var i := Lookup(claims, g, less, c);
    GetIs(SortClaims(claims), h, greater, i);
  }

  /** The answers for rising budgets are the prefixes of one sequence of picks: one more slot
      goes to exactly one claim, and everyone else keeps what they had. */
  lemma NextPick(budget: u32, release: u32, claims: seq<Claim>, less: Grants, greater: Grants)
    returns (pick: Option<Claim>)
    requires DistinctKeys(claims) && budget < U32_MAX
    requires Allocates(budget, release, claims, less) && Allocates(budget + 1, release, claims, greater)
    ensures pick.Some? <==> budget < Sorting.SumBy(claims, c => MostOf(c, release))
    ensures pick.Some? ==> pick.value in claims
    ensures forall c :: c in claims ==> greater.Get(c.key) == less.Get(c.key) + (if pick == Some(c) then 1 else 0)
  {
    var cs := SortClaims(claims);
    var g, h, t := OneStep(budget, release, claims, less, greater);
    SumsMean(claims, release);
    if t < |cs| {
      assert cs[t] in cs;
    }
    pick := if t < |cs| then Some(cs[t]) else None;
    forall c | c in claims
      ensures greater.Get(c.key) == less.Get(c.key) + (if pick == Some(c) then 1 else 0)
    {
      OnePicked(claims, g, h, less, greater, t, c);
    }
  }

  lemma OneStep(budget: u32, release: u32, claims: seq<Claim>, less: Grants, greater: Grants)
    returns (g: seq<nat>, h: seq<nat>, t: nat)
    requires DistinctKeys(claims) && budget < U32_MAX
    requires Allocates(budget, release, claims, less) && Allocates(budget + 1, release, claims, greater)
    ensures |g| == |h| && forall i :: 0 <= i < |g| ==> h[i] == g[i] + (if i == t then 1 else 0)
    ensures Reports(SortClaims(claims), g, less) && Reports(SortClaims(claims), h, greater)
    ensures t < |claims| <==> budget < Sum(Caps(SortClaims(claims), release))
  {
    g, h := Grows(budget, budget + 1, release, claims, less, greater);
    t := OneMore(g, h);
  }

  lemma OnePicked(claims: seq<Claim>, g: seq<nat>, h: seq<nat>, less: Grants, greater: Grants, t: nat, c: Claim)
    requires DistinctKeys(claims) && c in claims
    requires Reports(SortClaims(claims), g, less) && Reports(SortClaims(claims), h, greater)
    requires forall i :: 0 <= i < |claims| ==> h[i] == g[i] + (if i == t then 1 else 0)
    ensures greater.Get(c.key) == less.Get(c.key) + (if t < |claims| && SortClaims(claims)[t] == c then 1 else 0)
  {
    var i := Lookup(claims, g, less, c);
    GetIs(SortClaims(claims), h, greater, i);
    if t < |claims| && t != i {
      SortedApart(SortClaims(claims), i, t);
    }
  }

  lemma SortedApart(cs: seq<Claim>, i: nat, j: nat)
    requires SortedClaims(cs) && i < |cs| && j < |cs| && i != j
    ensures cs[i] != cs[j]
  {
    assert KeyOf(cs[i]) != KeyOf(cs[j]);
  }

  lemma OneMore(g: seq<nat>, h: seq<nat>) returns (t: nat)
    requires |g| == |h| && (forall i :: 0 <= i < |g| ==> g[i] <= h[i]) && Sum(g) <= Sum(h) <= Sum(g) + 1
    ensures t < |g| <==> Sum(h) == Sum(g) + 1
    ensures forall i :: 0 <= i < |g| ==> h[i] == g[i] + (if i == t then 1 else 0)
  {
    if Sum(h) == Sum(g) {
      SumEqual(g, h);
      t := |g|;
    } else {
      assert g != h;
      t :| 0 <= t < |g| && g[t] != h[t];
      var up := g[t := g[t] + 1];
      SumUpdate(g, t, g[t] + 1);
      SumEqual(up, h);
      assert forall i :: 0 <= i < |g| ==> h[i] == up[i];
    }
  }

  /** Asking for more never gets a tenant less, whatever phases the two answers were decided in. */
  lemma MoreDemand(budget: u32, release: u32, claims: seq<Claim>, n: nat, demand: u32, before: Grants, after: Grants)
    requires DistinctKeys(claims) && n < |claims| && claims[n].demand <= demand
    requires Allocates(budget, release, claims, before)
    requires DistinctKeys(claims[n := claims[n].(demand := demand)])
    requires Allocates(budget, release, claims[n := claims[n].(demand := demand)], after)
    ensures before.Get(claims[n].key) <= after.Get(claims[n].key)
  {
    var raised := claims[n].(demand := demand);
    var cs := SortClaims(claims);
    var t := IndexOf(claims, claims[n]);
    var ds := cs[t := raised];
    SortUpdate(claims, n, t, raised);
    var g1, g2, g := RunOf(budget, release, claims, before);
    var h1, h2, h := RunOf(budget, release, claims[n := raised], after);
    RunDemandMonotone(cs, ds, t, release, budget, g1, g2, g, h1, h2, h);
    GetIs(cs, g, before, t);
    GetIs(ds, h, after, t);
  }

  /** Replacing a claim by one with the same key replaces it in place in the sorted order. */
  lemma UpdatedMember(a: seq<Claim>, b: seq<Claim>, n: nat, t: nat, c: Claim, d: Claim)
    requires DistinctKeys(a) && n < |a| && t < |b| && a[n] == b[t] && (forall e :: e in a ==> e in b)
    requires d in a[n := c]
    ensures d in b[t := c]
  {
    var changed := b[t := c];
    var i :| 0 <= i < |a| && a[n := c][i] == d;
    if i == n {
      assert changed[t] == d;
    } else {
      assert KeyOf(a[i]) != KeyOf(a[n]) && a[i] in b;
      var j :| 0 <= j < |b| && b[j] == a[i];
      assert changed[j] == d;
    }
  }

  lemma SortUpdate(claims: seq<Claim>, n: nat, t: nat, c: Claim)
    requires DistinctKeys(claims) && n < |claims| && t < |claims|
    requires SortClaims(claims)[t] == claims[n] && c.key == claims[n].key
    ensures DistinctKeys(claims[n := c])
    ensures SortClaims(claims[n := c]) == SortClaims(claims)[t := c]
  {
    var cs := SortClaims(claims);
    var changed, sorted := claims[n := c], cs[t := c];
    forall d ensures d in changed <==> d in sorted {
      if d in changed {
        UpdatedMember(claims, cs, n, t, c, d);
      }
      if d in sorted {
        UpdatedMember(cs, claims, t, n, c, d);
      }
    }
    SortedUnique(SortClaims(changed), sorted);
  }

  // ------------------------------------------------------------------ stability

  function Holding(claims: seq<Claim>, grants: Grants): (r: seq<Claim>)
    ensures |r| == |claims|
  {
    seq(|claims|, i requires 0 <= i < |claims| => claims[i].(current := grants.Get(claims[i].key)))
  }

  /** Once the first answer is what everyone holds, the next answer raises nobody, leaves every
      grant within its ceiling as it is, and lets the rest go one release at a time. */
  lemma Stable(budget: u32, release: u32, claims: seq<Claim>, first: Grants, next: Grants, c: Claim)
    requires DistinctKeys(claims) && c in claims
    requires Allocates(budget, release, claims, first)
    requires DistinctKeys(Holding(claims, first)) && Allocates(budget, release, Holding(claims, first), next)
    ensures next.Get(c.key) <= first.Get(c.key)
    ensures first.Get(c.key) <= Wants(c) ==> next.Get(c.key) == first.Get(c.key)
    ensures first.Get(c.key) > Wants(c) ==>
              next.Get(c.key)
              == Max(Wants(c), if c.mayRelease then SatSub(first.Get(c.key), release) else first.Get(c.key))
  {
    FieldsMean(c, release);
    SortHolding(claims, first);
    var cs := SortClaims(claims);
    var g, h := Settles(budget, release, claims, first, next);
    var i := Lookup(claims, g, first, c);
    GetIs(Holding(cs, first), h, next, i);
    assert Holding(cs, first)[i].key == c.key;
    SettledIsNoMore(c, release, g[i]);
  }

  lemma SettledIsNoMore(c: Claim, release: u32, g: nat)
    ensures Settled(c, release, g) <= g
  {
  }

  lemma Settles(budget: u32, release: u32, claims: seq<Claim>, first: Grants, next: Grants)
    returns (g: seq<nat>, h: seq<nat>)
    requires DistinctKeys(claims) && Allocates(budget, release, claims, first)
    requires DistinctKeys(Holding(claims, first)) && Allocates(budget, release, Holding(claims, first), next)
    ensures Reports(SortClaims(claims), g, first) && Reports(Holding(SortClaims(claims), first), h, next)
    ensures forall i :: 0 <= i < |claims| ==> h[i] == Settled(SortClaims(claims)[i], release, g[i])
  {
    SortHolding(claims, first);
    var cs := SortClaims(claims);
    var g1, g2, h1, h2;
    g1, g2, g := RunOf(budget, release, claims, first);
    h1, h2, h := RunOf(budget, release, Holding(claims, first), next);
    HoldsItsGrants(cs, g, first);
    RunStable(cs, Holding(cs, first), release, budget, g1, g2, g, h1, h2, h);
  }

  lemma HoldsItsGrants(cs: seq<Claim>, g: seq<nat>, grants: Grants)
    requires SortedClaims(cs) && Reports(cs, g, grants)
    ensures HeldAsGranted(cs, Holding(cs, grants), g)
  {
    forall i | 0 <= i < |cs| ensures Holding(cs, grants)[i] == cs[i].(current := g[i]) {
      GetIs(cs, g, grants, i);
    }
  }

  lemma SortHolding(claims: seq<Claim>, grants: Grants)
    requires DistinctKeys(claims) && DistinctKeys(Holding(claims, grants))
    ensures SortClaims(Holding(claims, grants)) == Holding(SortClaims(claims), grants)
    ensures SortedClaims(Holding(SortClaims(claims), grants))
  {
    var cs := SortClaims(claims);
    var held, sorted := Holding(claims, grants), Holding(cs, grants);
    forall d ensures d in held <==> d in sorted {
      if d in held {
        var i :| 0 <= i < |held| && held[i] == d;
        assert claims[i] in cs;
        var j :| 0 <= j < |cs| && cs[j] == claims[i];
        assert sorted[j] == d;
      }
      if d in sorted {
        var j :| 0 <= j < |sorted| && sorted[j] == d;
        assert cs[j] in claims;
        var i :| 0 <= i < |claims| && claims[i] == cs[j];
        assert held[i] == d;
      }
    }
    SortedUnique(SortClaims(held), sorted);
  }

  // --------------------------------------------------------------- determinism

  /** The answer depends on the claims and not on the order they are listed in. */
  lemma OrderIrrelevant(budget: u32, release: u32, claims: seq<Claim>, shuffled: seq<Claim>, a: Grants, b: Grants)
    requires DistinctKeys(claims) && DistinctKeys(shuffled)
    requires forall c :: c in claims <==> c in shuffled
    requires Allocates(budget, release, claims, a) && Allocates(budget, release, shuffled, b)
    ensures a == b
  {
    SortedUnique(SortClaims(claims), SortClaims(shuffled));
    var g1, g2, g := RunOf(budget, release, claims, a);
    var h1, h2, h := RunOf(budget, release, shuffled, b);
    RunUnique(SortClaims(claims), release, budget, g1, g2, g, h1, h2, h);
  }
}
