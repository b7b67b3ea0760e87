/**
 The coordinator's code (crates/core/src/grant.rs): the state its mutex protects and the loops
 that compute a desired state, write it, fence what moved, and take reports in.
 */
module CoordinatorCode {
  import opened Numbers
  import opened Allocation
  import opened GrantLedger
  import opened Protocol
  import C = Claims
  import A = Allocator
  import L = AllocatorLaws
  import S = Split
  import PS = ProtocolSafety
  import PT = ProtocolTheorems
  import opened Keyed
  import Sorting

  // ------------------------------------------------------------------ invariant

  /** What every operation of the coordinator keeps, whatever the proxies report. */
  ghost predicate CoordinatorInv(c: Coordinator) {
    && TableInv(c)
    && forall p :: p in c.proxies ==>
         if c.proxies[p].departed then c.proxies[p].held == map[]
         else forall s :: Granted(c.table, p, s) <= c.proxies[p].Occupied(s) <= U32_MAX
  }

  /** The protocol's invariant includes it. */
  lemma ProtocolImpliesCoordinator(sys: System)
    requires Inv(sys)
    ensures CoordinatorInv(sys.coordinator)
  {
    var c := sys.coordinator;
    forall p | p in c.proxies
      ensures if c.proxies[p].departed then c.proxies[p].held == map[]
              else forall s :: Granted(c.table, p, s) <= c.proxies[p].Occupied(s) <= U32_MAX
    {
      assert ProxyInv(c, p, sys.proxies[p]);
      if !c.proxies[p].departed {
        forall s ensures Granted(c.table, p, s) <= c.proxies[p].Occupied(s) <= U32_MAX {
          assert SlotInv(c.proxies[p], Granted(c.table, p, s), sys.proxies[p], s);
        }
      }
    }
  }

  // ------------------------------------------------------------ holders and claims

  /** `holders_on`: the live proxies where a tenant asks for something or still holds something. */
  function HoldersOf(c: Coordinator, i: InstanceId, t: TenantId): set<ProxyId> {
    set p | p in c.proxies && !c.proxies[p].departed
            && (Slot(i, t) in c.proxies[p].demand || Slot(i, t) in c.proxies[p].held)
  }

  function TenantsOn(c: Coordinator, i: InstanceId): set<TenantId> {
    set p, s | p in c.proxies && !c.proxies[p].departed
               && s in c.proxies[p].demand.Keys + c.proxies[p].held.Keys && s.instance == i :: s.tenant
  }

  function DemandMap(c: Coordinator, i: InstanceId, t: TenantId): map<ProxyId, nat> {
    map p | p in HoldersOf(c, i, t) :: c.proxies[p].Wanted(Slot(i, t))
  }

  function CurrentMap(c: Coordinator, i: InstanceId, t: TenantId): map<ProxyId, nat> {
    map p | p in HoldersOf(c, i, t) :: Granted(c.table, p, Slot(i, t))
  }

  function ShareOf(c: Coordinator, i: InstanceId, t: TenantId, p: ProxyId): S.Share {
    S.Share(p, if p in c.proxies then c.proxies[p].Wanted(Slot(i, t)) else 0, Granted(c.table, p, Slot(i, t)), false)
  }

  /** `claims`, for one tenant: the sums saturate, and the tenant may let go of slots unless some
      proxy holds more than it wants and has not done so for long enough.  `retained` are the
      slots that have not. */
  ghost function ClaimOf(c: Coordinator, i: InstanceId, t: TenantId, retained: set<(ProxyId, Slot)>): C.Claim
    requires Slot(i, t) in c.policies
  {
    var policy := c.policies[Slot(i, t)];
    C.Claim(t, policy.min, policy.max, policy.weight,
            Min(Total(DemandMap(c, i, t)), U32_MAX),
            Min(Total(CurrentMap(c, i, t)), U32_MAX),
            forall p :: p in HoldersOf(c, i, t) ==>
              Granted(c.table, p, Slot(i, t)) <= c.proxies[p].Wanted(Slot(i, t)) || (p, Slot(i, t)) !in retained)
  }

  ghost predicate ClaimsOf(c: Coordinator, i: InstanceId, retained: set<(ProxyId, Slot)>, claims: seq<C.Claim>) {
    && A.DistinctKeys(claims)
    && (forall k :: 0 <= k < |claims| ==>
          Slot(i, claims[k].key) in c.policies && claims[k] == ClaimOf(c, i, claims[k].key, retained))
    && (forall t :: t in TenantsOn(c, i) && Slot(i, t) in c.policies
          ==> exists k :: 0 <= k < |claims| && claims[k].key == t)
  }

  /** What every live proxy asks for in a slot, and what every live proxy is granted. */
  ghost function AskedMap(c: Coordinator, s: Slot): map<ProxyId, nat> {
    map p | p in c.proxies && !c.proxies[p].departed :: c.proxies[p].Wanted(s)
  }

  ghost function GrantedMap(c: Coordinator, s: Slot): map<ProxyId, nat> {
    map p | p in c.proxies && !c.proxies[p].departed :: Granted(c.table, p, s)
  }

  /** What a claim says, over all live proxies: the policy as it is; all that is asked for and all that
      is granted, capped; and that the tenant may let go unless a proxy with more than it wants is
      retained. */
  lemma ClaimMeans(c: Coordinator, i: InstanceId, t: TenantId, retained: set<(ProxyId, Slot)>)
    requires CoordinatorInv(c) && Slot(i, t) in c.policies
    ensures var claim, s := ClaimOf(c, i, t, retained), Slot(i, t);
            && claim.key == t && claim.min == c.policies[s].min
            && claim.max == c.policies[s].max && claim.weight == c.policies[s].weight
            && claim.demand == Min(Total(AskedMap(c, s)), U32_MAX)
            && claim.current == Min(Total(GrantedMap(c, s)), U32_MAX)
            && (claim.mayRelease <==> forall p :: c.Live(p) && Granted(c.table, p, s) > c.proxies[p].Wanted(s)
                                                  ==> (p, s) !in retained)
  {
    var s := Slot(i, t);
    DemandIsAsked(c, i, t);
    CurrentIsGranted(c, i, t);
    forall p | c.Live(p) && Granted(c.table, p, s) > c.proxies[p].Wanted(s) ensures p in HoldersOf(c, i, t) {
      OccupiedIsSmall(c, p, s);
    }
  }

  lemma DemandIsAsked(c: Coordinator, i: InstanceId, t: TenantId)
    ensures Total(DemandMap(c, i, t)) == Total(AskedMap(c, Slot(i, t)))
  {
    forall p ensures At(DemandMap(c, i, t), p) == At(AskedMap(c, Slot(i, t)), p) {
    }
    TotalLe(DemandMap(c, i, t), AskedMap(c, Slot(i, t)));
    TotalLe(AskedMap(c, Slot(i, t)), DemandMap(c, i, t));
  }

  lemma CurrentIsGranted(c: Coordinator, i: InstanceId, t: TenantId)
    requires CoordinatorInv(c)
    ensures Total(CurrentMap(c, i, t)) == Total(GrantedMap(c, Slot(i, t)))
  {
    forall p ensures At(CurrentMap(c, i, t), p) == At(GrantedMap(c, Slot(i, t)), p) {
      if c.Live(p) {
        OccupiedIsSmall(c, p, Slot(i, t));
      }
    }
    TotalLe(CurrentMap(c, i, t), GrantedMap(c, Slot(i, t)));
    TotalLe(GrantedMap(c, Slot(i, t)), CurrentMap(c, i, t));
  }

  /** Whoever asks for something, or holds something, under a policy has a claim. */
  lemma AskingHasClaim(c: Coordinator, i: InstanceId, retained: set<(ProxyId, Slot)>, claims: seq<C.Claim>, p: ProxyId,
                       t: TenantId) returns (k: nat)
    requires ClaimsOf(c, i, retained, claims) && c.Live(p) && Slot(i, t) in c.policies
    requires c.proxies[p].Wanted(Slot(i, t)) > 0 || c.proxies[p].Occupied(Slot(i, t)) > 0
    ensures k < |claims| && claims[k].key == t && claims[k] == ClaimOf(c, i, t, retained)
  {
    assert Slot(i, t) in c.proxies[p].demand.Keys + c.proxies[p].held.Keys;
    assert Slot(i, t).tenant in TenantsOn(c, i);
    k :| 0 <= k < |claims| && claims[k].key == t;
  }

  /** What the latest report of each live proxy asked for. */
  ghost function ReportedMap(steps: seq<Step>, states: seq<System>, n: nat, s: Slot): map<ProxyId, nat>
    requires PT.IsRun(steps, states) && n <= |steps|
  {
    var c := states[n].coordinator;
    map p | p in c.proxies && !c.proxies[p].departed :: PT.Asked(steps, states, n, p, s)
  }

  lemma ReportedIsAsked(steps: seq<Step>, states: seq<System>, n: nat, s: Slot)
    requires PT.IsRun(steps, states) && n <= |steps|
    ensures ReportedMap(steps, states, n, s) == AskedMap(states[n].coordinator, s)
  {
    forall p | p in states[n].coordinator.proxies
      ensures PT.Asked(steps, states, n, p, s) == states[n].coordinator.proxies[p].Wanted(s)
    {
      PT.WantsWhatWasAsked(steps, states, n, p, s);
    }
  }

  lemma RunsKeepCoordinator(steps: seq<Step>, states: seq<System>, n: nat)
    requires PT.IsRun(steps, states) && n <= |steps|
    ensures CoordinatorInv(states[n].coordinator)
  {
    PT.RunsKeepInv(steps, states, n);
    ProtocolImpliesCoordinator(states[n]);
  }

  /** In every run, a claim asks for the capped total of what the latest report of each live proxy asked
      for. */
  lemma ClaimAsksForReports(steps: seq<Step>, states: seq<System>, n: nat, i: InstanceId, t: TenantId,
                            retained: set<(ProxyId, Slot)>)
    requires PT.IsRun(steps, states) && n <= |steps| && Slot(i, t) in states[n].coordinator.policies
    ensures ClaimOf(states[n].coordinator, i, t, retained).demand
            == Min(Total(ReportedMap(steps, states, n, Slot(i, t))), U32_MAX)
  {
    RunsKeepCoordinator(steps, states, n);
    ClaimMeans(states[n].coordinator, i, t, retained);
    ReportedIsAsked(steps, states, n, Slot(i, t));
  }

  // ------------------------------------------------------- reading the state

  /** A saturating fold over a map, as the ledger and the claims are summed. */
  method SaturatingSum<K(==, !new)>(m: map<K, nat>) returns (sum: u32)
    requires forall k :: k in m ==> m[k] <= U32_MAX
    ensures sum == Min(Total(m), U32_MAX)
  {
    sum := 0;
    var rest := m;
    while rest != map[]
      invariant forall k :: k in rest ==> rest[k] <= U32_MAX
      invariant Min(sum + Total(rest), U32_MAX) == Min(Total(m), U32_MAX)
      decreases |rest|
    {
      var k :| k in rest;
      TotalRemove(rest, k);
      SmallerWithout(rest, k);
      sum := SatAdd(sum, rest[k]);
      rest := rest - {k};
    }
  }

  lemma OccupiedIsSmall(c: Coordinator, p: ProxyId, s: Slot)
    requires CoordinatorInv(c) && p in c.proxies
    ensures c.proxies[p].Occupied(s) <= U32_MAX
    ensures !c.proxies[p].departed ==> Granted(c.table, p, s) <= c.proxies[p].Occupied(s)
  {
  }

  /** `occupied_on`. */
  method OccupiedOn(c: Coordinator, i: InstanceId) returns (sum: u32)
    requires CoordinatorInv(c)
    ensures sum == Min(Ledger(c, i), U32_MAX)
  {
    forall h | h in LedgerMap(c, i) ensures LedgerMap(c, i)[h] <= U32_MAX {
      OccupiedIsSmall(c, h.proxy, Slot(i, h.tenant));
    }
    sum := SaturatingSum(LedgerMap(c, i));
  }

  /** `claims`, for one tenant. */
  method ClaimOn(c: Coordinator, i: InstanceId, t: TenantId, retained: set<(ProxyId, Slot)>) returns (claim: C.Claim)
    requires CoordinatorInv(c) && Slot(i, t) in c.policies
    ensures claim == ClaimOf(c, i, t, retained)
  {
    forall p | p in CurrentMap(c, i, t) ensures CurrentMap(c, i, t)[p] <= U32_MAX {
      OccupiedIsSmall(c, p, Slot(i, t));
    }
    var slot := Slot(i, t);
    forall p | p in DemandMap(c, i, t) ensures DemandMap(c, i, t)[p] <= U32_MAX {
      var wanted: u32 := c.proxies[p].Wanted(slot);
    }
    var demand := SaturatingSum(DemandMap(c, i, t));
    var current := SaturatingSum(CurrentMap(c, i, t));
    var mayRelease := forall p :: p in HoldersOf(c, i, t) ==>
                        Granted(c.table, p, slot) <= c.proxies[p].Wanted(slot) || (p, slot) !in retained;
    var policy := c.policies[slot];
    claim := C.Claim(t, policy.min, policy.max, policy.weight, demand, current, mayRelease);
  }

  method ClaimsOn(c: Coordinator, i: InstanceId, tenants: seq<TenantId>, retained: set<(ProxyId, Slot)>)
    returns (claims: seq<C.Claim>)
    requires CoordinatorInv(c) && Sorting.Sorted(tenants, Identity)
    requires forall t :: t in tenants <==> t in TenantsOn(c, i)
    ensures ClaimsOf(c, i, retained, claims)
  {
    claims := [];
    var n := 0;
    while n < |tenants|
      invariant 0 <= n <= |tenants|
      invariant ClaimsSoFar(c, i, retained, tenants[..n], claims)
    {
      assert tenants[..n + 1] == tenants[..n] + [tenants[n]];
      if Slot(i, tenants[n]) in c.policies {
        var claim := ClaimOn(c, i, tenants[n], retained);
        forall m | 0 <= m < n ensures tenants[m] < tenants[n] {
          assert Identity(tenants[m]) < Identity(tenants[n]);
        }
        OneClaimMore(c, i, retained, tenants[..n], claims, claim);
        claims := claims + [claim];
      }
      n := n + 1;
    }
    assert tenants[..n] == tenants;
  }

  ghost predicate ClaimsSoFar(c: Coordinator, i: InstanceId, retained: set<(ProxyId, Slot)>, tenants: seq<TenantId>,
                              claims: seq<C.Claim>) {
    && A.DistinctKeys(claims)
    && (forall k :: 0 <= k < |claims| ==>
          && claims[k].key in tenants && Slot(i, claims[k].key) in c.policies
          && claims[k] == ClaimOf(c, i, claims[k].key, retained))
    && (forall t :: t in tenants && Slot(i, t) in c.policies ==> exists k :: 0 <= k < |claims| && claims[k].key == t)
  }

  lemma OneClaimMore(c: Coordinator, i: InstanceId, retained: set<(ProxyId, Slot)>, tenants: seq<TenantId>,
                     claims: seq<C.Claim>, claim: C.Claim)
    requires ClaimsSoFar(c, i, retained, tenants, claims) && claim.key !in tenants
    requires Slot(i, claim.key) in c.policies && claim == ClaimOf(c, i, claim.key, retained)
    ensures ClaimsSoFar(c, i, retained, tenants + [claim.key], claims + [claim])
  {
    var all := claims + [claim];
    forall t | t in tenants + [claim.key] && Slot(i, t) in c.policies
      ensures exists k :: 0 <= k < |all| && all[k].key == t
    {
      if t == claim.key {
        assert all[|claims|].key == t;
      } else {
        var k :| 0 <= k < |claims| && claims[k].key == t;
        assert all[k].key == t;
      }
    }
  }

  // ------------------------------------------------------- one tenant's grants

  /** The allocator never targets more than the tenant's proxies need between them, so the split
      hands the whole target out. */
  lemma SplitLosesNothing(c: Coordinator, i: InstanceId, t: TenantId, retained: set<(ProxyId, Slot)>, release: u32,
                          budget: u32, claims: seq<C.Claim>, targets: C.Grants, order: seq<S.Share>)
    requires ClaimsOf(c, i, retained, claims) && A.Allocates(budget, release, claims, targets)
    requires IsOrder(c, i, t, order)
    ensures targets.Get(t) <= Sum(S.Needs(order))
    ensures targets.Get(t) <= PolicyMax(c, i, t)
  {
    NeedsCover(c, i, t, order);
    if t in targets.granted {
      TargetWithinClaim(c, i, t, retained, release, budget, claims, targets);
    }
  }

  /** The target stays within what the tenant asks for or is granted, and within its policy. */
  lemma TargetWithinClaim(c: Coordinator, i: InstanceId, t: TenantId, retained: set<(ProxyId, Slot)>, release: u32,
                          budget: u32, claims: seq<C.Claim>, targets: C.Grants)
    requires ClaimsOf(c, i, retained, claims) && A.Allocates(budget, release, claims, targets) && t in targets.granted
    ensures targets.Get(t) <= Max(Total(DemandMap(c, i, t)), Total(CurrentMap(c, i, t)))
    ensures Slot(i, t) in c.policies && targets.Get(t) <= c.policies[Slot(i, t)].max
  {
    var k := TargetHasClaim(budget, release, claims, targets, t);
    TargetWithinCap(budget, release, claims, targets, claims[k]);
    ClaimAt(c, i, retained, claims, k);
  }

  lemma ClaimAt(c: Coordinator, i: InstanceId, retained: set<(ProxyId, Slot)>, claims: seq<C.Claim>, k: nat)
    requires ClaimsOf(c, i, retained, claims) && k < |claims|
    ensures var t := claims[k].key;
            && Slot(i, t) in c.policies && claims[k].max == c.policies[Slot(i, t)].max && claims[k] in claims
            && claims[k].demand <= Total(DemandMap(c, i, t)) && claims[k].current <= Total(CurrentMap(c, i, t))
  {
  }

  lemma TargetWithinCap(budget: u32, release: u32, claims: seq<C.Claim>, targets: C.Grants, claim: C.Claim)
    requires A.DistinctKeys(claims) && A.Allocates(budget, release, claims, targets) && claim in claims
    ensures targets.Get(claim.key) <= Min(claim.max, Max(claim.demand, claim.current))
  {
    L.WorkConserving(budget, release, claims, targets);
    ClaimBounds(claim, release);
  }

  lemma TargetWithinBudget(budget: u32, release: u32, claims: seq<C.Claim>, targets: C.Grants, t: TenantId)
    requires A.DistinctKeys(claims) && A.Allocates(budget, release, claims, targets)
    ensures targets.Get(t) <= budget
  {
    L.WorkConserving(budget, release, claims, targets);
    TotalPut(targets.granted, t, 0);
  }

  lemma ClaimBounds(claim: C.Claim, release: u32)
    ensures L.MostOf(claim, release) <= Min(claim.max, Max(claim.demand, claim.current))
  {
  }

  lemma TargetHasClaim(budget: u32, release: u32, claims: seq<C.Claim>, targets: C.Grants, t: TenantId)
    returns (k: nat)
    requires A.DistinctKeys(claims) && A.Allocates(budget, release, claims, targets) && t in targets.granted
    ensures k < |claims| && claims[k].key == t
  {
    var g1, g2, g := L.RunOf(budget, release, claims, targets);
    k := ReportedClaim(claims, g, targets, t);
  }

  lemma ReportedClaim(claims: seq<C.Claim>, g: seq<nat>, targets: C.Grants, t: TenantId) returns (k: nat)
    requires A.Reports(A.SortClaims(claims), g, targets) && t in targets.granted
    ensures k < |claims| && claims[k].key == t
  {
    var cs := A.SortClaims(claims);
    A.GrantMapKeys(cs, g, |cs|, t);
    var j :| 0 <= j < |cs| && cs[j].key == t;
    assert cs[j] in claims;
    k :| 0 <= k < |claims| && claims[k] == cs[j];
  }

  /** The shares of a tenant, in the order of its proxies. */
  ghost predicate IsOrder(c: Coordinator, i: InstanceId, t: TenantId, order: seq<S.Share>) {
    && Sorting.Sorted(order, S.KeyOf)
    && (forall k :: 0 <= k < |order| ==>
          order[k].key in HoldersOf(c, i, t) && order[k] == ShareOf(c, i, t, order[k].key))
    && (forall p :: p in HoldersOf(c, i, t) ==> exists k :: 0 <= k < |order| && order[k].key == p)
  }

  function Keys(order: seq<S.Share>): (r: seq<int>)
    ensures |r| == |order|
  {
    seq(|order|, k requires 0 <= k < |order| => order[k].key)
  }

  lemma OrderKeys(c: Coordinator, i: InstanceId, t: TenantId, order: seq<S.Share>)
    requires IsOrder(c, i, t, order)
    ensures Sorting.Sorted(Keys(order), Identity)
    ensures (set k | k in Keys(order)) == HoldersOf(c, i, t)
  {
    forall a, b | 0 <= a < b < |order| ensures Identity(Keys(order)[a]) < Identity(Keys(order)[b]) {
      assert S.KeyOf(order[a]) < S.KeyOf(order[b]);
    }
    forall p ensures p in (set k | k in Keys(order)) <==> p in HoldersOf(c, i, t) {
      if p in HoldersOf(c, i, t) {
        var k :| 0 <= k < |order| && order[k].key == p;
        assert Keys(order)[k] == p;
      }
    }
  }

  function NeedMap(c: Coordinator, i: InstanceId, t: TenantId): map<ProxyId, nat> {
    map p | p in HoldersOf(c, i, t) :: ShareOf(c, i, t, p).Need()
  }

  lemma NeedsTotal(c: Coordinator, i: InstanceId, t: TenantId, order: seq<S.Share>)
    requires IsOrder(c, i, t, order)
    ensures Total(NeedMap(c, i, t)) == Sum(S.Needs(order))
  {
    OrderKeys(c, i, t, order);
    forall k | 0 <= k < |order| ensures NeedMap(c, i, t)[Keys(order)[k]] == S.Needs(order)[k] {
      assert order[k] == ShareOf(c, i, t, order[k].key);
    }
    KeyedTotal(Keys(order), S.Needs(order), NeedMap(c, i, t));
  }

  /** Summed over the proxies, the needs cover both what is asked for and what is granted now. */
  lemma NeedsCover(c: Coordinator, i: InstanceId, t: TenantId, order: seq<S.Share>)
    requires IsOrder(c, i, t, order)
    ensures Total(DemandMap(c, i, t)) <= Sum(S.Needs(order)) && Total(CurrentMap(c, i, t)) <= Sum(S.Needs(order))
  {
    NeedsTotal(c, i, t, order);
    var needs := NeedMap(c, i, t);
    forall p | p in needs
      ensures DemandMap(c, i, t)[p] <= needs[p] && CurrentMap(c, i, t)[p] <= needs[p]
    {
    }
    TotalLe(DemandMap(c, i, t), needs);
    TotalLe(CurrentMap(c, i, t), needs);
  }

  method SharesOn(c: Coordinator, i: InstanceId, t: TenantId) returns (shares: seq<S.Share>)
    ensures IsOrder(c, i, t, shares)
  {
    var ps := SortedSeq(HoldersOf(c, i, t));
    shares := seq(|ps|, k requires 0 <= k < |ps| => ShareOf(c, i, t, ps[k]));
    forall a, b | 0 <= a < b < |ps| ensures S.KeyOf(shares[a]) < S.KeyOf(shares[b]) {
      assert Identity(ps[a]) < Identity(ps[b]);
    }
    forall k | 0 <= k < |ps| ensures ps[k] in HoldersOf(c, i, t) {
      assert ps[k] in ps;
    }
    forall p | p in HoldersOf(c, i, t) ensures exists k :: 0 <= k < |shares| && shares[k].key == p {
      assert p in ps;
      var k :| 0 <= k < |ps| && ps[k] == p;
      assert shares[k].key == p;
    }
  }

  /** The parts are those `split` gives the shares. */
  ghost predicate IsSplit(target: nat, shares: seq<S.Share>, parts: map<ProxyId, nat>) {
    forall k :: 0 <= k < |shares| ==> shares[k].key in parts && parts[shares[k].key] == S.SplitOf(target, shares)[k]
  }

  /** Splits a target over the tenant's proxies. */
  method SplitTarget(c: Coordinator, i: InstanceId, t: TenantId, target: u32)
    returns (shares: seq<S.Share>, parts: map<ProxyId, nat>)
    ensures IsOrder(c, i, t, shares)
    ensures parts.Keys == HoldersOf(c, i, t)
    ensures Total(parts) == Min(target, Sum(S.Needs(shares)))
    ensures IsSplit(target, shares, parts)
  {
    shares := SharesOn(c, i, t);
    SortedIsDistinct(shares);
    parts := S.Split(target, shares);
    AlreadySorted(shares);
    PartsCoverHolders(c, i, t, shares, parts);
    PartsTotal(c, i, t, target, shares, parts);
  }

  lemma AlreadySorted(shares: seq<S.Share>)
    requires Sorting.Sorted(shares, S.KeyOf)
    ensures Sorting.Distinct(shares, S.KeyOf) && Sorting.SortBy(shares, S.KeyOf) == shares
  {
    SortedIsDistinct(shares);
    Sorting.SortedUnique(Sorting.SortBy(shares, S.KeyOf), shares, S.KeyOf);
  }

  lemma PartsTotal(c: Coordinator, i: InstanceId, t: TenantId, target: u32, shares: seq<S.Share>,
                   parts: map<ProxyId, nat>)
    requires IsOrder(c, i, t, shares) && parts.Keys == HoldersOf(c, i, t)
    requires IsSplit(target, shares, parts)
    ensures Total(parts) == Min(target, Sum(S.Needs(shares)))
  {
    OrderKeys(c, i, t, shares);
    KeyedTotal(Keys(shares), S.SplitOf(target, shares), parts);
    S.SplitIsExact(target, shares);
  }

  lemma SortedIsDistinct(shares: seq<S.Share>)
    requires Sorting.Sorted(shares, S.KeyOf)
    ensures Sorting.Distinct(shares, S.KeyOf)
  {
  }

  lemma PartsCoverHolders(c: Coordinator, i: InstanceId, t: TenantId, shares: seq<S.Share>, parts: map<ProxyId, nat>)
    requires IsOrder(c, i, t, shares) && parts.Keys == (set s | s in shares :: s.key)
    ensures parts.Keys == HoldersOf(c, i, t)
  {
    forall p ensures p in parts.Keys <==> p in HoldersOf(c, i, t) {
      if p in HoldersOf(c, i, t) {
        var k :| 0 <= k < |shares| && shares[k].key == p;
        assert shares[k] in shares;
      }
    }
  }

  // ---------------------------------------------------------- the headroom rule

  /** What a desired state lets its holders open beyond the ledger. */
  ghost function Raise(c: Coordinator, i: InstanceId, d: Desired): nat { Total(RaiseMap(c, i, d.granted)) }

  lemma GrantRaises(c: Coordinator, i: InstanceId, d: Desired, h: Holder, slots: nat)
    requires d.Valid() && h !in d.granted
    ensures At(d.granted, h) <= d.total
    ensures Raise(c, i, d.Grant(h, slots)) == Raise(c, i, d) + SatSub(slots, c.Occupied(h.proxy, Slot(i, h.tenant)))
  {
    if slots == 0 {
      assert d.granted - {h} == d.granted;
    } else {
      RaiseMapPut(c, i, d.granted, h, slots);
    }
  }

  lemma RaiseMapPut(c: Coordinator, i: InstanceId, granted: map<Holder, nat>, h: Holder, slots: nat)
    requires h !in granted
    ensures Total(RaiseMap(c, i, granted[h := slots]))
            == Total(RaiseMap(c, i, granted)) + SatSub(slots, c.Occupied(h.proxy, Slot(i, h.tenant)))
  {
    var more := SatSub(slots, c.Occupied(h.proxy, Slot(i, h.tenant)));
    assert RaiseMap(c, i, granted[h := slots]) == RaiseMap(c, i, granted)[h := more];
    TotalPut(RaiseMap(c, i, granted), h, more);
  }

  /** One holder's grant: down to its part at once, up to it only as far as the headroom goes. */
  method GrantOne(c: Coordinator, i: InstanceId, t: TenantId, p: ProxyId, target: nat, available: u32, d: Desired)
    returns (next: Desired, left: u32)
    requires CoordinatorInv(c) && c.Live(p) && d.Valid() && Holder(t, p) !in d.granted
    requires available == 0 || available + Ledger(c, i) <= U32_MAX
    ensures At(d.granted, Holder(t, p)) <= d.total
    ensures next == d.Grant(Holder(t, p), At(next.granted, Holder(t, p))) && next.Valid()
    ensures Min(target, c.Occupied(p, Slot(i, t))) <= At(next.granted, Holder(t, p)) <= target
    ensures target <= Granted(c.table, p, Slot(i, t)) || left > 0 ==> At(next.granted, Holder(t, p)) == target
    ensures left <= available && Raise(c, i, next) + left == Raise(c, i, d) + available
  {
    var slot, holder := Slot(i, t), Holder(t, p);
    OccupiedIsSmall(c, p, slot);
    LedgerAt(c, i, holder);
    TotalPut(LedgerMap(c, i), holder, 0);
    var granted;
    left := available;
    if target <= Granted(c.table, p, slot) {
      granted := target;
    } else {
      var occupied: u32 := c.proxies[p].Occupied(slot);
      var reach: u32 := occupied + available;
      granted := Min(target, reach);
      left := available - SatSub(granted, occupied);
    }
    d.GrantKeepsTotal(holder, granted);
    GrantRaises(c, i, d, holder, granted);
    next := d.Grant(holder, granted);
  }

  /** Nobody but the holders of a part is granted anything; no grant goes below its part and what the
      ledger counts anyway; and every part is granted in full, except that a raise waits for headroom: if one is
      held back, there is none left. */
  ghost predicate PartsGranted(c: Coordinator, i: InstanceId, t: TenantId, parts: map<ProxyId, nat>,
                               granted: map<Holder, nat>, left: nat) {
    && (forall h :: h in granted && h.tenant == t ==> h.proxy in parts)
    && (forall p :: p in parts ==>
          && Min(parts[p], c.Occupied(p, Slot(i, t))) <= At(granted, Holder(t, p)) <= parts[p]
          && (parts[p] <= Granted(c.table, p, Slot(i, t)) || left > 0 ==> At(granted, Holder(t, p)) == parts[p]))
  }

  /** The grants of one tenant are added, and those of every other are left alone. */
  ghost predicate Extends(c: Coordinator, t: TenantId, d: Desired, next: Desired) {
    && next.Valid() && next.budget == d.budget
    && (forall h :: h in next.granted && h.tenant == t ==> c.Live(h.proxy))
    && (forall h: Holder :: h.tenant != t ==>
          (h in next.granted <==> h in d.granted) && At(next.granted, h) == At(d.granted, h))
  }

  ghost predicate GrantedSoFar(c: Coordinator, i: InstanceId, t: TenantId, shares: seq<S.Share>,
                               parts: map<ProxyId, nat>, k: nat, d: Desired, next: Desired, left: nat)
    requires k <= |shares|
  {
    && Extends(c, t, d, next)
    && (forall h :: h in next.granted && h.tenant == t ==> h.proxy in HoldersOf(c, i, t))
    && (forall j :: k <= j < |shares| ==> Holder(t, shares[j].key) !in next.granted)
    && (forall j :: 0 <= j < k ==>
          && Min(At(parts, shares[j].key), c.Occupied(shares[j].key, Slot(i, t)))
             <= At(next.granted, Holder(t, shares[j].key)) <= At(parts, shares[j].key)
          && (At(parts, shares[j].key) <= Granted(c.table, shares[j].key, Slot(i, t)) || left > 0
              ==> At(next.granted, Holder(t, shares[j].key)) == At(parts, shares[j].key)))
  }

  /** `next` has the same grants as `was`, but for one holder. */
  ghost predicate SameBut(was: map<Holder, nat>, next: map<Holder, nat>, holder: Holder) {
    forall h :: h != holder ==> (h in next <==> h in was) && At(next, h) == At(was, h)
  }

  lemma GrantTouchesOne(d: Desired, holder: Holder, slots: nat)
    requires d.Valid() && At(d.granted, holder) <= d.total
    ensures SameBut(d.granted, d.Grant(holder, slots).granted, holder) && d.Grant(holder, slots).budget == d.budget
  {
  }

  lemma ExtendsFurther(c: Coordinator, t: TenantId, p: ProxyId, d: Desired, was: Desired, next: Desired)
    requires Extends(c, t, d, was) && next.Valid() && next.budget == was.budget && c.Live(p)
    requires SameBut(was.granted, next.granted, Holder(t, p))
    ensures Extends(c, t, d, next)
  {
  }

  lemma OneGrantMore(c: Coordinator, i: InstanceId, t: TenantId, shares: seq<S.Share>, parts: map<ProxyId, nat>, k: nat,
                     d: Desired, was: Desired, before: nat, next: Desired, left: nat)
    requires IsOrder(c, i, t, shares) && k < |shares| && left <= before
    requires GrantedSoFar(c, i, t, shares, parts, k, d, was, before)
    requires At(was.granted, Holder(t, shares[k].key)) <= was.total
    requires next == was.Grant(Holder(t, shares[k].key), At(next.granted, Holder(t, shares[k].key))) && next.Valid()
    requires Min(At(parts, shares[k].key), c.Occupied(shares[k].key, Slot(i, t)))
             <= At(next.granted, Holder(t, shares[k].key)) <= At(parts, shares[k].key)
    requires At(parts, shares[k].key) <= Granted(c.table, shares[k].key, Slot(i, t)) || left > 0
             ==> At(next.granted, Holder(t, shares[k].key)) == At(parts, shares[k].key)
    ensures GrantedSoFar(c, i, t, shares, parts, k + 1, d, next, left)
  {
    var p := shares[k].key;
    assert p in HoldersOf(c, i, t);
    GrantTouchesOne(was, Holder(t, p), At(next.granted, Holder(t, p)));
    ExtendsFurther(c, t, p, d, was, next);
    KeysApart(c, i, t, shares, k);
    OneGrantAdded(c, i, t, shares, parts, k, d, was, before, next, left);
  }

  lemma KeysApart(c: Coordinator, i: InstanceId, t: TenantId, shares: seq<S.Share>, k: nat)
    requires IsOrder(c, i, t, shares) && k < |shares|
    ensures forall j :: 0 <= j < |shares| && j != k ==> shares[j].key != shares[k].key
  {
    forall j | 0 <= j < |shares| && j != k ensures shares[j].key != shares[k].key {
      if j < k {
        assert S.KeyOf(shares[j]) < S.KeyOf(shares[k]);
      } else {
        assert S.KeyOf(shares[k]) < S.KeyOf(shares[j]);
      }
    }
  }

  lemma OneGrantAdded(c: Coordinator, i: InstanceId, t: TenantId, shares: seq<S.Share>, parts: map<ProxyId, nat>,
                      k: nat, d: Desired, was: Desired, before: nat, next: Desired, left: nat)
    requires k < |shares| && left <= before && shares[k].key in HoldersOf(c, i, t)
    requires forall j :: 0 <= j < |shares| && j != k ==> shares[j].key != shares[k].key
    requires GrantedSoFar(c, i, t, shares, parts, k, d, was, before) && Extends(c, t, d, next)
    requires SameBut(was.granted, next.granted, Holder(t, shares[k].key))
    requires Min(At(parts, shares[k].key), c.Occupied(shares[k].key, Slot(i, t)))
             <= At(next.granted, Holder(t, shares[k].key)) <= At(parts, shares[k].key)
    requires At(parts, shares[k].key) <= Granted(c.table, shares[k].key, Slot(i, t)) || left > 0
             ==> At(next.granted, Holder(t, shares[k].key)) == At(parts, shares[k].key)
    ensures GrantedSoFar(c, i, t, shares, parts, k + 1, d, next, left)
  {
  }

  function Values(shares: seq<S.Share>, parts: map<ProxyId, nat>): (r: seq<nat>)
    ensures |r| == |shares|
  {
    seq(|shares|, k requires 0 <= k < |shares| => At(parts, shares[k].key))
  }

  lemma ValuesAddUp(c: Coordinator, i: InstanceId, t: TenantId, shares: seq<S.Share>, parts: map<ProxyId, nat>)
    requires IsOrder(c, i, t, shares) && parts.Keys == HoldersOf(c, i, t)
    ensures Sum(Values(shares, parts)[..|shares|]) == Total(parts)
  {
    OrderKeys(c, i, t, shares);
    KeyedTotal(Keys(shares), Values(shares, parts), parts);
    assert Values(shares, parts)[..|shares|] == Values(shares, parts);
  }

  /** What the first `k` parts come to. */
  ghost function PartSum(shares: seq<S.Share>, parts: map<ProxyId, nat>, k: nat): nat
    requires k <= |shares|
  {
    if k == 0 then 0 else PartSum(shares, parts, k - 1) + At(parts, shares[k - 1].key)
  }

  lemma {:induction false} PartSumIs(shares: seq<S.Share>, parts: map<ProxyId, nat>, k: nat)
    requires k <= |shares|
    ensures PartSum(shares, parts, k) == Sum(Values(shares, parts)[..k])
  {
    if k > 0 {
      PartSumIs(shares, parts, k - 1);
      A.SumOfPrefix(Values(shares, parts), k - 1);
    }
  }

  lemma PartsAddUp(c: Coordinator, i: InstanceId, t: TenantId, shares: seq<S.Share>, parts: map<ProxyId, nat>)
    requires IsOrder(c, i, t, shares) && parts.Keys == HoldersOf(c, i, t)
    ensures PartSum(shares, parts, |shares|) == Total(parts)
  {
    PartSumIs(shares, parts, |shares|);
    ValuesAddUp(c, i, t, shares, parts);
  }

  lemma HasPart(c: Coordinator, i: InstanceId, t: TenantId, shares: seq<S.Share>, parts: map<ProxyId, nat>, k: nat)
    requires IsOrder(c, i, t, shares) && parts.Keys == HoldersOf(c, i, t) && k < |shares|
    ensures shares[k].key in parts && c.Live(shares[k].key)
  {
    assert shares[k].key in HoldersOf(c, i, t);
  }

  /** One turn of the inner loop of `desired_state`: the part of one proxy. */
  method GrantPart(c: Coordinator, i: InstanceId, t: TenantId, shares: seq<S.Share>, parts: map<ProxyId, nat>, k: nat,
                   available: u32, ghost d: Desired, was: Desired) returns (next: Desired, left: u32)
    requires CoordinatorInv(c) && IsOrder(c, i, t, shares) && parts.Keys == HoldersOf(c, i, t) && k < |shares|
    requires available == 0 || available + Ledger(c, i) <= U32_MAX
    requires GrantedSoFar(c, i, t, shares, parts, k, d, was, available)
    ensures GrantedSoFar(c, i, t, shares, parts, k + 1, d, next, left)
    ensures left <= available && Raise(c, i, next) + left == Raise(c, i, was) + available
    ensures next.total <= was.total + At(parts, shares[k].key)
  {
    HasPart(c, i, t, shares, parts, k);
    next, left := GrantOne(c, i, t, shares[k].key, parts[shares[k].key], available, was);
    OneGrantMore(c, i, t, shares, parts, k, d, was, available, next, left);
  }

  lemma NothingGrantedYet(c: Coordinator, i: InstanceId, t: TenantId, shares: seq<S.Share>, parts: map<ProxyId, nat>,
                          d: Desired, left: nat)
    requires d.Valid() && forall h :: h in d.granted ==> h.tenant != t
    ensures GrantedSoFar(c, i, t, shares, parts, 0, d, d, left)
  {
  }

  /** The inner loop of `desired_state`: one tenant's proxies. */
  method GrantTenant(c: Coordinator, i: InstanceId, t: TenantId, shares: seq<S.Share>, parts: map<ProxyId, nat>,
                     available: u32, d: Desired) returns (next: Desired, left: u32)
    requires CoordinatorInv(c) && IsOrder(c, i, t, shares) && parts.Keys == HoldersOf(c, i, t)
    requires d.Valid() && forall h :: h in d.granted ==> h.tenant != t
    requires available == 0 || available + Ledger(c, i) <= U32_MAX
    ensures Extends(c, t, d, next) && PartsGranted(c, i, t, parts, next.granted, left)
    ensures left <= available && Raise(c, i, next) + left == Raise(c, i, d) + available
    ensures next.total <= d.total + Total(parts)
  {
    next, left := d, available;
    NothingGrantedYet(c, i, t, shares, parts, d, available);
    var k := 0;
    while k < |shares|
      invariant 0 <= k <= |shares|
      invariant GrantedSoFar(c, i, t, shares, parts, k, d, next, left)
      invariant left <= available && Raise(c, i, next) + left == Raise(c, i, d) + available
      invariant next.total <= d.total + PartSum(shares, parts, k)
    {
      next, left := GrantPart(c, i, t, shares, parts, k, left, d, next);
      k := k + 1;
    }
    PartsAddUp(c, i, t, shares, parts);
    AllPartsGranted(c, i, t, shares, parts, d, next, left);
  }

  lemma AllPartsGranted(c: Coordinator, i: InstanceId, t: TenantId, shares: seq<S.Share>, parts: map<ProxyId, nat>,
                        d: Desired, next: Desired, left: nat)
    requires IsOrder(c, i, t, shares) && parts.Keys == HoldersOf(c, i, t)
    requires GrantedSoFar(c, i, t, shares, parts, |shares|, d, next, left)
    ensures PartsGranted(c, i, t, parts, next.granted, left)
  {
    forall p | p in parts
      ensures Min(parts[p], c.Occupied(p, Slot(i, t))) <= At(next.granted, Holder(t, p)) <= parts[p]
      ensures parts[p] <= Granted(c.table, p, Slot(i, t)) || left > 0 ==> At(next.granted, Holder(t, p)) == parts[p]
    {
      var k :| 0 <= k < |shares| && shares[k].key == p;
    }
  }

  // ------------------------------------------------------------ desired states

  /** A tenant whose target is split without loss, and every part of which is granted up to the
      headroom. */
  ghost predicate TenantOk(c: Coordinator, i: InstanceId, t: TenantId, target: nat, parts: map<ProxyId, nat>,
                           granted: map<Holder, nat>, left: nat) {
    && parts.Keys == HoldersOf(c, i, t)
    && Total(parts) == target
    && (exists shares :: IsOrder(c, i, t, shares) && IsSplit(target, shares, parts))
    && target <= PolicyMax(c, i, t)
    && PartsGranted(c, i, t, parts, granted, left)
  }

  /** How a desired state came about: the allocator's answer to the claims, split per tenant. */
  ghost predicate IsPlan(c: Coordinator, i: InstanceId, retained: set<(ProxyId, Slot)>, release: u32, d: Desired,
                         claims: seq<C.Claim>, targets: C.Grants, parts: map<TenantId, map<ProxyId, nat>>, left: nat) {
    && ClaimsOf(c, i, retained, claims)
    && A.Allocates(c.Budget(i), release, claims, targets)
    && parts.Keys == TenantsOn(c, i)
    && (forall h :: h in d.granted ==> h.tenant in parts)
    && (forall t :: t in parts ==> TenantOk(c, i, t, targets.Get(t), parts[t], d.granted, left))
    && Raise(c, i, d) + left == SatSub(c.Budget(i), Ledger(c, i))
  }

  ghost predicate TenantsDone(c: Coordinator, i: InstanceId, tenants: seq<TenantId>, targets: C.Grants, d: Desired,
                              parts: map<TenantId, map<ProxyId, nat>>, left: nat) {
    && d.Valid()
    && parts.Keys == (set t | t in tenants)
    && (forall h :: h in d.granted ==> h.tenant in tenants && c.Live(h.proxy))
    && (forall t :: t in parts ==> TenantOk(c, i, t, targets.Get(t), parts[t], d.granted, left))
  }

  lemma OtherTenantStays(c: Coordinator, i: InstanceId, u: TenantId, target: nat, parts: map<ProxyId, nat>, t: TenantId,
                         d: Desired, before: nat, next: Desired, left: nat)
    requires TenantOk(c, i, u, target, parts, d.granted, before) && u != t && left <= before && Extends(c, t, d, next)
    ensures TenantOk(c, i, u, target, parts, next.granted, left)
  {
    OtherPartsStay(c, i, u, parts, t, d, before, next, left);
  }

  lemma OtherPartsStay(c: Coordinator, i: InstanceId, u: TenantId, parts: map<ProxyId, nat>, t: TenantId,
                       d: Desired, before: nat, next: Desired, left: nat)
    requires PartsGranted(c, i, u, parts, d.granted, before) && u != t && left <= before && Extends(c, t, d, next)
    ensures PartsGranted(c, i, u, parts, next.granted, left)
  {
    forall p | p in parts ensures At(next.granted, Holder(u, p)) == At(d.granted, Holder(u, p)) {
      assert Holder(u, p).tenant != t;
    }
  }

  lemma OneTenantMore(c: Coordinator, i: InstanceId, tenants: seq<TenantId>, t: TenantId, targets: C.Grants,
                      d: Desired, parts: map<TenantId, map<ProxyId, nat>>, before: nat,
                      next: Desired, mine: map<ProxyId, nat>, left: nat)
    requires TenantsDone(c, i, tenants, targets, d, parts, before) && t !in tenants && left <= before
    requires Extends(c, t, d, next) && TenantOk(c, i, t, targets.Get(t), mine, next.granted, left)
    ensures TenantsDone(c, i, tenants + [t], targets, next, parts[t := mine], left)
  {
    var more := parts[t := mine];
    forall u | u in more ensures TenantOk(c, i, u, targets.Get(u), more[u], next.granted, left) {
      TenantAfter(c, i, tenants, t, targets, d, parts, before, next, mine, left, u);
    }
    HoldersAfter(c, i, tenants, t, targets, d, parts, before, next);
  }

  lemma TenantAfter(c: Coordinator, i: InstanceId, tenants: seq<TenantId>, t: TenantId, targets: C.Grants,
                    d: Desired, parts: map<TenantId, map<ProxyId, nat>>, before: nat,
                    next: Desired, mine: map<ProxyId, nat>, left: nat, u: TenantId)
    requires TenantsDone(c, i, tenants, targets, d, parts, before) && left <= before && u in parts[t := mine]
    requires Extends(c, t, d, next) && TenantOk(c, i, t, targets.Get(t), mine, next.granted, left)
    ensures TenantOk(c, i, u, targets.Get(u), parts[t := mine][u], next.granted, left)
  {
    if u != t {
      assert TenantOk(c, i, u, targets.Get(u), parts[u], d.granted, before);
      OtherTenantStays(c, i, u, targets.Get(u), parts[u], t, d, before, next, left);
    }
  }

  lemma HoldersAfter(c: Coordinator, i: InstanceId, tenants: seq<TenantId>, t: TenantId, targets: C.Grants,
                     d: Desired, parts: map<TenantId, map<ProxyId, nat>>, before: nat, next: Desired)
    requires TenantsDone(c, i, tenants, targets, d, parts, before) && Extends(c, t, d, next)
    ensures forall h :: h in next.granted ==> h.tenant in tenants + [t] && c.Live(h.proxy)
  {
    forall h | h in next.granted ensures h.tenant in tenants + [t] && c.Live(h.proxy) {
      if h.tenant != t {
        assert h in d.granted;
      }
    }
  }

  function TargetsOf(tenants: seq<TenantId>, targets: C.Grants): (r: seq<nat>)
    ensures |r| == |tenants|
  {
    seq(|tenants|, k requires 0 <= k < |tenants| => targets.Get(tenants[k]))
  }

  lemma TargetsFit(tenants: seq<TenantId>, budget: u32, release: u32, claims: seq<C.Claim>, targets: C.Grants)
    requires A.DistinctKeys(claims) && A.Allocates(budget, release, claims, targets)
    requires Sorting.Sorted(tenants, Identity)
    ensures Sum(TargetsOf(tenants, targets)) <= budget
  {
    L.WorkConserving(budget, release, claims, targets);
    SomeOfTotal(tenants, TargetsOf(tenants, targets), targets.granted);
  }

  /** `desired_state`, for one instance. */
  method DesiredFor(c: Coordinator, i: InstanceId, retained: set<(ProxyId, Slot)>, release: u32)
    returns (d: Desired, ghost claims: seq<C.Claim>, ghost targets: C.Grants,
             ghost parts: map<TenantId, map<ProxyId, nat>>, ghost left: nat)
    requires CoordinatorInv(c) && i in c.budgets
    ensures DesiredOk(c, i, d) && IsPlan(c, i, retained, release, d, claims, targets, parts, left)
  {
    var budget := c.budgets[i];
    var tenants := SortedSeq(TenantsOn(c, i));
    var asked := ClaimsOn(c, i, tenants, retained);
    var answer := A.Allocate(budget, release, asked);
    TargetsFit(tenants, budget, release, asked, answer);
    var occupied := OccupiedOn(c, i);
    claims, targets := asked, answer;
    d, parts, left := PlanTenants(c, i, retained, release, tenants, budget, claims, answer, SatSub(budget, occupied));
  }

  /** The outer loop of `desired_state`: every tenant in turn, out of one headroom. */
  method PlanTenants(c: Coordinator, i: InstanceId, retained: set<(ProxyId, Slot)>, release: u32,
                     tenants: seq<TenantId>, budget: u32, ghost claims: seq<C.Claim>, targets: C.Grants, headroom: u32)
    returns (d: Desired, ghost parts: map<TenantId, map<ProxyId, nat>>, ghost left: nat)
    requires CoordinatorInv(c) && ClaimsOf(c, i, retained, claims) && A.Allocates(budget, release, claims, targets)
    requires Sorting.Sorted(tenants, Identity) && headroom == SatSub(budget, Ledger(c, i))
    ensures TenantsDone(c, i, tenants, targets, d, parts, left)
    ensures d.budget == budget && d.total <= Sum(TargetsOf(tenants, targets))
    ensures Raise(c, i, d) + left == headroom
  {
    var available := headroom;
    d, parts := Desired(budget, map[], 0), map[];
    assert RaiseMap(c, i, d.granted) == map[];
    var n := 0;
    while n < |tenants|
      invariant 0 <= n <= |tenants|
      invariant TenantsDone(c, i, tenants[..n], targets, d, parts, available)
      invariant d.budget == budget && d.total <= Sum(TargetsOf(tenants[..n], targets))
      invariant Raise(c, i, d) + available == headroom
    {
      ghost var was, before := d, available;
      NotBefore(tenants, n);
      ghost var mine;
      d, available, mine := PlanTenant(c, i, retained, release, tenants[n], budget, claims, targets, available, d);
      OneTenantMore(c, i, tenants[..n], tenants[n], targets, was, parts, before, d, mine, available);
      parts := parts[tenants[n] := mine];
      OneTargetMore(tenants, n, targets);
      n := n + 1;
    }
    assert tenants[..n] == tenants;
    left := available;
  }

  lemma OneTargetMore(tenants: seq<TenantId>, n: nat, targets: C.Grants)
    requires n < |tenants|
    ensures Sum(TargetsOf(tenants[..n + 1], targets)) == Sum(TargetsOf(tenants[..n], targets)) + targets.Get(tenants[n])
  {
    var wanted := TargetsOf(tenants, targets);
    assert TargetsOf(tenants[..n], targets) == wanted[..n] && TargetsOf(tenants[..n + 1], targets) == wanted[..n + 1];
    A.SumOfPrefix(wanted, n);
  }

  lemma NotBefore(keys: seq<int>, n: nat)
    requires Sorting.Sorted(keys, Identity) && n < |keys|
    ensures keys[n] !in keys[..n] && keys[..n + 1] == keys[..n] + [keys[n]]
  {
    forall k | 0 <= k < n ensures keys[k] != keys[n] {
      assert Identity(keys[k]) < Identity(keys[n]);
    }
  }

  /** One turn of the outer loop of `desired_state`: split the tenant's target and grant the parts. */
  method PlanTenant(c: Coordinator, i: InstanceId, retained: set<(ProxyId, Slot)>, release: u32, t: TenantId,
                    budget: u32, ghost claims: seq<C.Claim>, targets: C.Grants, available: u32, d: Desired)
    returns (next: Desired, left: u32, ghost parts: map<ProxyId, nat>)
    requires CoordinatorInv(c) && ClaimsOf(c, i, retained, claims) && A.Allocates(budget, release, claims, targets)
    requires d.Valid() && forall h :: h in d.granted ==> h.tenant != t
    requires available == 0 || available + Ledger(c, i) <= U32_MAX
    ensures Extends(c, t, d, next) && TenantOk(c, i, t, targets.Get(t), parts, next.granted, left)
    ensures left <= available && Raise(c, i, next) + left == Raise(c, i, d) + available
    ensures next.total <= d.total + targets.Get(t)
  {
    TargetWithinBudget(budget, release, claims, targets, t);
    var shares, split := SplitTarget(c, i, t, targets.Get(t));
    SplitLosesNothing(c, i, t, retained, release, budget, claims, targets, shares);
    next, left := GrantTenant(c, i, t, shares, split, available, d);
    parts := split;
  }

  /** What a desired state grants one tenant, proxy by proxy. */
  function GrantsOf(granted: map<Holder, nat>, t: TenantId): map<ProxyId, nat> {
    map p | p in (set h | h in granted && h.tenant == t :: h.proxy) :: At(granted, Holder(t, p))
  }

  function PolicyMax(c: Coordinator, i: InstanceId, t: TenantId): nat {
    if Slot(i, t) in c.policies then c.policies[Slot(i, t)].max else 0
  }

  /** A desired state with a plan grants a tenant no more than its target, hence no more than its
      policy's maximum and nothing without a policy; and it grants the whole target unless the
      headroom is used up. */
  lemma PlanFollowsTargets(c: Coordinator, i: InstanceId, retained: set<(ProxyId, Slot)>, release: u32, d: Desired,
                           claims: seq<C.Claim>, targets: C.Grants, parts: map<TenantId, map<ProxyId, nat>>,
                           left: nat, t: TenantId)
    requires IsPlan(c, i, retained, release, d, claims, targets, parts, left)
    ensures Total(GrantsOf(d.granted, t)) <= PolicyMax(c, i, t)
    ensures t in TenantsOn(c, i) ==> Total(GrantsOf(d.granted, t)) <= targets.Get(t)
    ensures t in TenantsOn(c, i) && left > 0 ==> Total(GrantsOf(d.granted, t)) == targets.Get(t)
    ensures t !in TenantsOn(c, i) ==> GrantsOf(d.granted, t) == map[]
  {
    PlannedTenant(c, i, retained, release, d, claims, targets, parts, left, t);
    if t in parts {
      TenantFollowsTarget(c, i, t, targets.Get(t), parts[t], d.granted, left);
    }
  }

  lemma PlannedTenant(c: Coordinator, i: InstanceId, retained: set<(ProxyId, Slot)>, release: u32, d: Desired,
                      claims: seq<C.Claim>, targets: C.Grants, parts: map<TenantId, map<ProxyId, nat>>,
                      left: nat, t: TenantId)
    requires IsPlan(c, i, retained, release, d, claims, targets, parts, left)
    ensures t in parts <==> t in TenantsOn(c, i)
    ensures t in parts ==> TenantOk(c, i, t, targets.Get(t), parts[t], d.granted, left)
    ensures t !in parts ==> GrantsOf(d.granted, t) == map[]
  {
    if t !in parts {
      NothingGranted(d.granted, t);
    }
  }

  lemma NothingGranted(granted: map<Holder, nat>, t: TenantId)
    requires forall h :: h in granted ==> h.tenant != t
    ensures GrantsOf(granted, t) == map[]
  {
  }

  lemma TenantFollowsTarget(c: Coordinator, i: InstanceId, t: TenantId, target: nat, parts: map<ProxyId, nat>,
                            granted: map<Holder, nat>, left: nat)
    requires TenantOk(c, i, t, target, parts, granted, left)
    ensures Total(GrantsOf(granted, t)) <= target <= PolicyMax(c, i, t)
    ensures left > 0 ==> Total(GrantsOf(granted, t)) == target
  {
    PartsBoundGrants(c, i, t, parts, granted, left);
  }

  lemma PartsBoundGrants(c: Coordinator, i: InstanceId, t: TenantId, parts: map<ProxyId, nat>,
                         granted: map<Holder, nat>, left: nat)
    requires PartsGranted(c, i, t, parts, granted, left)
    ensures Total(GrantsOf(granted, t)) <= Total(parts)
    ensures left > 0 ==> Total(GrantsOf(granted, t)) == Total(parts)
  {
    var mine := GrantsOf(granted, t);
    forall p ensures At(mine, p) == At(granted, Holder(t, p)) && At(mine, p) <= At(parts, p) {
      if Holder(t, p) in granted {
        assert Holder(t, p).proxy in mine;
      }
    }
    TotalLe(mine, parts);
    if left > 0 {
      forall p ensures At(parts, p) <= At(mine, p) {
      }
      TotalLe(parts, mine);
    }
  }

  /** How a target is shared among the proxies, by what each asks for and is granted now: none gets
      more than the larger of the two, and none is short of what it asks for while another gets more
      than it asks for. */
  lemma PartsServeDemand(c: Coordinator, i: InstanceId, t: TenantId, target: nat, shares: seq<S.Share>,
                         parts: map<ProxyId, nat>, p: ProxyId, q: ProxyId)
    requires IsOrder(c, i, t, shares) && IsSplit(target, shares, parts) && parts.Keys == HoldersOf(c, i, t)
    requires p in parts && q in parts
    ensures var s := Slot(i, t);
            && parts[p] <= Max(c.proxies[p].Wanted(s), Granted(c.table, p, s))
            && (parts[p] < c.proxies[p].Wanted(s) ==> parts[q] <= c.proxies[q].Wanted(s))
  {
    var k := IndexOfHolder(c, i, t, shares, p);
    var l := IndexOfHolder(c, i, t, shares, q);
    var r := S.SplitOf(target, shares);
    S.SplitMeans(target, shares);
    S.SplitIsExact(target, shares);
    assert r[k] == parts[p] && r[l] == parts[q];
  }

  /** What each holder is both granted and asking for. */
  ghost function UsedOf(c: Coordinator, i: InstanceId, t: TenantId): map<ProxyId, nat> {
    map p | p in HoldersOf(c, i, t) :: Min(Granted(c.table, p, Slot(i, t)), c.proxies[p].Wanted(Slot(i, t)))
  }

  /** A target that covers what is granted and asked for takes none of it away. */
  lemma PartsKeepUsed(c: Coordinator, i: InstanceId, t: TenantId, target: nat, shares: seq<S.Share>,
                      parts: map<ProxyId, nat>, p: ProxyId)
    requires IsOrder(c, i, t, shares) && IsSplit(target, shares, parts) && p in HoldersOf(c, i, t)
    requires Total(UsedOf(c, i, t)) <= target
    ensures p in parts && UsedOf(c, i, t)[p] <= parts[p]
  {
    var used := seq(|shares|, k requires 0 <= k < |shares| => Min(shares[k].current, shares[k].demand));
    UsedTotal(c, i, t, shares, used);
    var k := IndexOfHolder(c, i, t, shares, p);
    S.UsedStays(target, shares, used, k);
    assert parts[shares[k].key] == S.SplitOf(target, shares)[k];
  }

  lemma UsedTotal(c: Coordinator, i: InstanceId, t: TenantId, shares: seq<S.Share>, used: seq<nat>)
    requires IsOrder(c, i, t, shares) && S.InUse(shares, used)
    ensures Sum(used) == Total(UsedOf(c, i, t))
  {
    OrderKeys(c, i, t, shares);
    forall k | 0 <= k < |shares|
      ensures Keys(shares)[k] in UsedOf(c, i, t) && UsedOf(c, i, t)[Keys(shares)[k]] == used[k]
    {
      assert shares[k] == ShareOf(c, i, t, shares[k].key);
    }
    KeyedTotal(Keys(shares), used, UsedOf(c, i, t));
  }

  /** The slots a tenant's policy reserves for it: its minimum, as far as its live proxies ask for them
      and its maximum allows. */
  ghost function Reserved(c: Coordinator, i: InstanceId, t: TenantId): nat
    requires Slot(i, t) in c.policies
  {
    Min(c.policies[Slot(i, t)].min, Allowed(c, i, t))
  }

  ghost function Allowed(c: Coordinator, i: InstanceId, t: TenantId): nat
    requires Slot(i, t) in c.policies
  {
    Min(c.policies[Slot(i, t)].max, Min(Total(AskedMap(c, Slot(i, t))), U32_MAX))
  }

  lemma ClaimReserves(c: Coordinator, i: InstanceId, t: TenantId, retained: set<(ProxyId, Slot)>)
    requires CoordinatorInv(c) && Slot(i, t) in c.policies
    ensures L.Floor(ClaimOf(c, i, t, retained)) == Reserved(c, i, t)
    ensures L.Wants(ClaimOf(c, i, t, retained)) == Allowed(c, i, t)
    ensures ClaimOf(c, i, t, retained).weight == c.policies[Slot(i, t)].weight && ClaimOf(c, i, t, retained).key == t
  {
    ClaimMeans(c, i, t, retained);
  }

  lemma ClaimIs(c: Coordinator, i: InstanceId, retained: set<(ProxyId, Slot)>, claims: seq<C.Claim>, j: nat)
    requires CoordinatorInv(c) && ClaimsOf(c, i, retained, claims) && j < |claims|
    ensures claims[j] in claims && CarriesPolicy(c, i, claims[j])
  {
    ClaimReserves(c, i, claims[j].key, retained);
  }

  /** Targets meet every tenant's reserve whenever the budget covers them all. */
  lemma TargetsMeetReserves(c: Coordinator, i: InstanceId, retained: set<(ProxyId, Slot)>, release: u32, budget: u32,
                            claims: seq<C.Claim>, targets: C.Grants, j: nat)
    requires CoordinatorInv(c) && ClaimsOf(c, i, retained, claims) && A.Allocates(budget, release, claims, targets)
    requires j < |claims| && Sorting.SumBy(claims, L.Floor) <= budget
    ensures Slot(i, claims[j].key) in c.policies && Reserved(c, i, claims[j].key) <= targets.Get(claims[j].key)
  {
    ClaimIs(c, i, retained, claims, j);
    L.GuaranteesMetIff(budget, release, claims, targets);
  }

  /** Targets are fair between any two tenants: their claims carry the reserves, what is allowed and the
      weights of their policies, and of two claims neither is favoured. */
  lemma TargetsAreFair(c: Coordinator, i: InstanceId, retained: set<(ProxyId, Slot)>, release: u32, budget: u32,
                       claims: seq<C.Claim>, targets: C.Grants, j: nat, k: nat)
    requires CoordinatorInv(c) && ClaimsOf(c, i, retained, claims) && A.Allocates(budget, release, claims, targets)
    requires j < |claims| && k < |claims|
    ensures CarriesPolicy(c, i, claims[j]) && CarriesPolicy(c, i, claims[k])
    ensures L.FairBetween(claims[j], targets.Get(claims[j].key), claims[k], targets.Get(claims[k].key), release)
  {
    ClaimIs(c, i, retained, claims, j);
    ClaimIs(c, i, retained, claims, k);
    L.WeightedFairness(budget, release, claims, targets, claims[j], claims[k]);
  }

  ghost predicate CarriesPolicy(c: Coordinator, i: InstanceId, claim: C.Claim) {
    && Slot(i, claim.key) in c.policies && claim.weight == c.policies[Slot(i, claim.key)].weight
    && L.Floor(claim) == Reserved(c, i, claim.key) && L.Wants(claim) == Allowed(c, i, claim.key)
  }

  lemma IndexOfHolder(c: Coordinator, i: InstanceId, t: TenantId, shares: seq<S.Share>, p: ProxyId) returns (k: nat)
    requires IsOrder(c, i, t, shares) && p in HoldersOf(c, i, t)
    ensures k < |shares| && shares[k].key == p
    ensures shares[k] == S.Share(p, c.proxies[p].Wanted(Slot(i, t)), Granted(c.table, p, Slot(i, t)), false)
  {
    k :| 0 <= k < |shares| && shares[k].key == p;
  }

  lemma PlanRespectsPolicy(c: Coordinator, i: InstanceId, retained: set<(ProxyId, Slot)>, release: u32, d: Desired,
                           t: TenantId)
    requires HasPlan(c, i, retained, release, d)
    ensures Total(GrantsOf(d.granted, t)) <= PolicyMax(c, i, t)
  {
    var claims, targets, parts, left :| IsPlan(c, i, retained, release, d, claims, targets, parts, left);
    PlanFollowsTargets(c, i, retained, release, d, claims, targets, parts, left, t);
  }

  ghost predicate HasPlan(c: Coordinator, i: InstanceId, retained: set<(ProxyId, Slot)>, release: u32, d: Desired) {
    exists claims, targets, parts, left :: IsPlan(c, i, retained, release, d, claims, targets, parts, left)
  }

  ghost function Planned(c: Coordinator, retained: set<(ProxyId, Slot)>, release: u32): (InstanceId, Desired) -> bool {
    (i, d) => DesiredOk(c, i, d) && HasPlan(c, i, retained, release, d)
  }

  ghost predicate All(entry: Table, ok: (InstanceId, Desired) -> bool) {
    forall i :: i in entry ==> ok(i, entry[i])
  }

  lemma OneEntryMore(entry: Table, i: InstanceId, d: Desired, ok: (InstanceId, Desired) -> bool)
    requires All(entry, ok) && ok(i, d)
    ensures All(entry[i := d], ok)
  {
  }

  /** `desired_state`: every instance under the coordinator. */
  method DesiredState(c: Coordinator, retained: set<(ProxyId, Slot)>, release: u32) returns (entry: Table)
    requires CoordinatorInv(c)
    ensures IsDesired(c, entry)
    ensures forall i :: i in entry ==> HasPlan(c, i, retained, release, entry[i])
  {
    entry := map[];
    var todo := c.budgets.Keys;
    while todo != {}
      invariant todo <= c.budgets.Keys && entry.Keys == c.budgets.Keys - todo
      invariant All(entry, Planned(c, retained, release))
      decreases todo
    {
      var i := PickOne(todo);
      var d;
      ghost var claims, targets, parts, left;
      d, claims, targets, parts, left := DesiredFor(c, i, retained, release);
      OneEntryMore(entry, i, d, Planned(c, retained, release));
      entry := entry[i := d];
      todo := todo - {i};
    }
  }

  /** Every desired state the coordinator computes is one the table accepts. */
  lemma DesiredIsAccepted(c: Coordinator, entry: Table)
    requires IsDesired(c, entry)
    ensures Applied(c.table, entry) == Some(c.table + entry)
  {
    forall i | i in entry ensures entry[i].total <= entry[i].budget {
      assert DesiredOk(c, i, entry[i]);
    }
  }

  // ------------------------------------------------------------------ publishing

  /** The ledger of one proxy once the slots in `done` have been looked at. */
  ghost function HeldAfter(ps: ProxyState, before: map<Slot, nat>, after: map<Slot, nat>, generation: nat,
                           done: set<Slot>): map<Slot, Held> {
    map s | s in ps.held.Keys + done && (s in ps.held || At(before, s) != At(after, s)) ::
      if s in done then NewHeld(ps, before, after, generation, s) else ps.held[s]
  }

  lemma LookedAtOne(ps: ProxyState, before: map<Slot, nat>, after: map<Slot, nat>, generation: nat, done: set<Slot>,
                    s: Slot)
    requires s !in done
    ensures var held := HeldAfter(ps, before, after, generation, done);
            var next := HeldAfter(ps, before, after, generation, done + {s});
            next == if At(before, s) == At(after, s) then held
                    else held[s := Held(generation, Max(if s in held then held[s].occupied else 0, At(after, s)))]
  {
  }

  lemma LookedAtAll(ps: ProxyState, before: map<Slot, nat>, after: map<Slot, nat>, generation: nat,
                    held: map<Slot, Held>)
    requires before != after && held == HeldAfter(ps, before, after, generation, before.Keys + after.Keys)
    ensures (map s | s in held && (held[s].occupied > 0 || s in after) :: held[s])
            == Refenced(ps, before, after, generation).held
  {
    var r := Refenced(ps, before, after, generation).held;
    var l := map s | s in held && (held[s].occupied > 0 || s in after) :: held[s];
    forall s | s in held ensures held[s] == NewHeld(ps, before, after, generation, s) {
    }
    assert l.Keys == r.Keys;
  }

  /** The loop of `reconcile` over one proxy's slots, and the clean-up after it. */
  method Refence(ps: ProxyState, before: map<Slot, nat>, after: map<Slot, nat>, generation: nat) returns (r: ProxyState)
    ensures r == Refenced(ps, before, after, generation)
  {
    if before == after {
      return ps;
    }
    var held := ps.held;
    var todo := before.Keys + after.Keys;
    ghost var done: set<Slot> := {};
    assert held == HeldAfter(ps, before, after, generation, done);
    while todo != {}
      invariant done + todo == before.Keys + after.Keys && done !! todo
      invariant held == HeldAfter(ps, before, after, generation, done)
      decreases todo
    {
      var s :| s in todo;
      if At(before, s) != At(after, s) {
        var occupied := if s in held then held[s].occupied else 0;
        held := held[s := Held(generation, Max(occupied, At(after, s)))];
      }
      LookedAtOne(ps, before, after, generation, done, s);
      done := done + {s};
      todo := todo - {s};
    }
    LookedAtAll(ps, before, after, generation, held);
    r := ps.(held := map s | s in held && (held[s].occupied > 0 || s in after) :: held[s],
             published := GrantSet(generation, after));
  }

  /** The loop of `reconcile` over the proxies. */
  method Publish(proxies: map<ProxyId, ProxyState>, before: Table, after: Table, generation: nat)
    returns (r: map<ProxyId, ProxyState>)
    ensures r == Republished(proxies, before, after, generation)
  {
    r := proxies;
    var todo := proxies.Keys;
    while todo != {}
      invariant todo <= proxies.Keys == r.Keys
      invariant forall p :: p in proxies ==>
                  r[p] == if p in todo then proxies[p]
                          else Refenced(proxies[p], Published(before, p), Published(after, p), generation)
      decreases todo
    {
      var p := PickOne(todo);
      var fenced := Refence(proxies[p], Published(before, p), Published(after, p), generation);
      r := r[p := fenced];
      todo := todo - {p};
    }
  }

  lemma TakenInAll(ps: ProxyState, granted: map<Slot, nat>, report: Report, held: map<Slot, Held>)
    requires held.Keys == ps.held.Keys
    requires forall s :: s in held ==> held[s] == ReportedHeld(ps.held[s], At(granted, s), s, report)
    ensures (map s | s in held && (held[s].occupied > 0 || s in granted) :: held[s])
            == ReportedBy(ps, granted, report).held
  {
  }

  /** The loop of `report_for` over the ledger of the proxy, and the clean-up after it. */
  method TakeIn(ps: ProxyState, granted: map<Slot, nat>, report: Report) returns (r: ProxyState)
    ensures r == ReportedBy(ps, granted, report)
  {
    var held := ps.held;
    var todo := held.Keys;
    while todo != {}
      invariant todo <= ps.held.Keys == held.Keys
      invariant forall s :: s in held ==>
                  held[s] == if s in todo then ps.held[s] else ReportedHeld(ps.held[s], At(granted, s), s, report)
      decreases todo
    {
      var s :| s in todo;
      if held[s].changedAt <= report.generation {
        held := held[s := held[s].(occupied := Max(At(granted, s), report.Actual(s)))];
      }
      todo := todo - {s};
    }
    r := ps.(demand := map s | s in report.usage :: report.usage[s].demand,
             held := map s | s in held && (held[s].occupied > 0 || s in granted) :: held[s]);
    TakenInAll(ps, granted, report, held);
  }

  // ------------------------------------------------------- steps keep the invariant

  lemma ReconcileKeeps(c: Coordinator, entry: Table)
    requires CoordinatorInv(c) && IsDesired(c, entry)
    ensures CoordinatorInv(Reconciled(c, entry))
  {
    var c' := Reconciled(c, entry);
    PS.ReconcileKeepsTable(c, entry);
    forall p | p in c'.proxies
      ensures if c'.proxies[p].departed then c'.proxies[p].held == map[]
              else forall s :: Granted(c'.table, p, s) <= c'.proxies[p].Occupied(s) <= U32_MAX
    {
      ReconciledAt(c, entry, p, Slot(0, 0));
      if c.proxies[p].departed {
        PS.ReconcileKeepsDeparted(c, entry, p);
      } else {
        forall s ensures Granted(c'.table, p, s) <= c'.proxies[p].Occupied(s) <= U32_MAX {
          PS.DesiredGrantsAreSmall(c, entry, p, s);
          OccupiedIsSmall(c, p, s);
          ReconciledAt(c, entry, p, s);
        }
      }
    }
  }

  /** When no grant moved, only the table is written. */
  lemma NothingMoved(c: Coordinator, entry: Table)
    requires !GrantsMove(c, c.table + entry)
    ensures Reconciled(c, entry) == c.(table := c.table + entry)
  {
    var proxies := Reconciled(c, entry).proxies;
    forall p | p in c.proxies ensures proxies[p] == c.proxies[p] {
      assert Published(c.table, p) == Published(c.table + entry, p);
    }
    assert proxies == c.proxies;
  }

  lemma SomethingMoved(c: Coordinator, entry: Table)
    requires GrantsMove(c, c.table + entry)
    ensures Reconciled(c, entry) == Coordinator(c.table + entry, c.budgets, c.policies, c.generation + 1,
                                                Republished(c.proxies, c.table, c.table + entry, c.generation + 1))
  {
  }

  lemma ReportKeeps(c: Coordinator, p: ProxyId, r: Report)
    requires CoordinatorInv(c)
    ensures CoordinatorInv(Reported(c, p, r))
  {
    var c' := Reported(c, p, r);
    if p in c.proxies && !c.proxies[p].departed {
      forall s ensures Granted(c'.table, p, s) <= c'.proxies[p].Occupied(s) <= U32_MAX {
        ReportedAt(c, p, r, s);
        OccupiedIsSmall(c, p, s);
      }
    }
  }

  lemma WithdrawKeeps(c: Coordinator, p: ProxyId)
    requires CoordinatorInv(c)
    ensures CoordinatorInv(Withdrawn(c, p))
  {
  }

  /** `reconcile` once the table has taken the desired state: a new generation is fenced and
      published if some grant moved. */
  method WriteAndPublish(c: Coordinator, desired: Table) returns (next: Coordinator)
    requires Applied(c.table, desired).Some?
    ensures next == Reconciled(c, desired)
  {
    var written := Applied(c.table, desired).value;
    if GrantsMove(c, written) {
      SomethingMoved(c, desired);
      var proxies := Publish(c.proxies, c.table, written, c.generation + 1);
      next := Coordinator(written, c.budgets, c.policies, c.generation + 1, proxies);
    } else {
      NothingMoved(c, desired);
      next := c.(table := written);
    }
  }

  class InProcessCoordinator {
    const release: u32
    var table: Table
    var budgets: map<InstanceId, u32>
    var policies: map<Slot, Policy>
    var generation: nat
    var proxies: map<ProxyId, ProxyState>

    function View(): Coordinator
      reads this
    {
      Coordinator(table, budgets, policies, generation, proxies)
    }

    constructor (proxy: ProxyId, release: u32)
      ensures View() == Registered(EmptyCoordinator, proxy) && CoordinatorInv(View())
    {
      this.release := release;
      table, budgets, policies, generation := map[], map[], map[], 0;
      proxies := map[proxy := NewProxy];
    }

    /** `channel`. */
    method Channel(proxy: ProxyId)
      requires CoordinatorInv(View())
      modifies this
      ensures View() == Registered(old(View()), proxy) && CoordinatorInv(View())
    {
      if proxy !in proxies {
        proxies := proxies[proxy := NewProxy];
      }
    }

    /** `add_instance`, `observe_instance` and `set_margin`, as far as the total they leave. */
    method SetBudget(instance: InstanceId, budget: u32)
      requires CoordinatorInv(View())
      modifies this
      ensures View() == old(View()).(budgets := old(budgets)[instance := budget]) && CoordinatorInv(View())
    {
      budgets := budgets[instance := budget];
    }

    /** `reconcile`: compute, write, fence and publish.  The table never refuses what it is given. */
    method Reconcile(retained: set<(ProxyId, Slot)>) returns (accepted: bool, ghost entry: Table)
      requires CoordinatorInv(View())
      modifies this
      ensures accepted && IsDesired(old(View()), entry)
      ensures forall i :: i in entry ==> HasPlan(old(View()), i, retained, release, entry[i])
      ensures forall i, t :: i in entry ==> Total(GrantsOf(entry[i].granted, t)) <= PolicyMax(old(View()), i, t)
      ensures View() == Reconciled(old(View()), entry) && CoordinatorInv(View())
    {
      var c := View();
      var desired := DesiredState(c, retained, release);
      entry := desired;
      DesiredIsAccepted(c, desired);
      ReconcileKeeps(c, desired);
      forall i, t | i in desired ensures Total(GrantsOf(desired[i].granted, t)) <= PolicyMax(c, i, t) {
        PlanRespectsPolicy(c, i, retained, release, desired[i], t);
      }
      accepted := Write(c, desired);
    }

    /** `reconcile` from the desired state on. */
    method Write(c: Coordinator, desired: Table) returns (accepted: bool)
      requires View() == c
      modifies this
      ensures accepted <==> Applied(c.table, desired).Some?
      ensures accepted ==> View() == Reconciled(c, desired)
      ensures !accepted ==> View() == c
    {
      accepted := Applied(c.table, desired).Some?;
      if accepted {
        var next := WriteAndPublish(c, desired);
        table, generation, proxies := next.table, next.generation, next.proxies;
      }
    }

    /** `report_for`. */
    method ReportFor(proxy: ProxyId, report: Report)
      requires CoordinatorInv(View())
      modifies this
      ensures View() == Reported(old(View()), proxy, report) && CoordinatorInv(View())
      ensures forall s :: proxy in old(proxies) ==>
                proxies[proxy].Wanted(s) == if s in report.usage then report.usage[s].demand else 0
      ensures forall q :: q != proxy ==>
                (q in proxies <==> q in old(proxies)) && (q in proxies ==> proxies[q] == old(proxies)[q])
    {
      ReportKeeps(View(), proxy, report);
      if proxy in proxies {
        var next := TakeIn(proxies[proxy], Published(table, proxy), report);
        proxies := proxies[proxy := next];
      }
    }

    /** `withdraw_proxy`: the ledger forgets the proxy, and a reconcile takes its grants back. */
    method WithdrawProxy(proxy: ProxyId, retained: set<(ProxyId, Slot)>) returns (ghost entry: Table)
      requires CoordinatorInv(View())
      modifies this
      ensures IsDesired(Withdrawn(old(View()), proxy), entry)
      ensures View() == Reconciled(Withdrawn(old(View()), proxy), entry) && CoordinatorInv(View())
      ensures forall s: Slot :: s.instance in budgets && proxy in old(proxies) ==> Granted(table, proxy, s) == 0
    {
      WithdrawKeeps(View(), proxy);
      if proxy in proxies {
        proxies := proxies[proxy := proxies[proxy].(departed := true, demand := map[], held := map[])];
      }
      ghost var c := View();
      var accepted;
      accepted, entry := Reconcile(retained);
      forall s: Slot | s.instance in budgets && proxy in old(proxies) ensures Granted(table, proxy, s) == 0 {
        PS.DesiredGrantsAreSmall(c, entry, proxy, s);
      }
    }

    /** `within_budget`. */
    method WithinBudget(instance: InstanceId) returns (within: bool)
      requires CoordinatorInv(View())
      ensures within <==> Min(Ledger(View(), instance), U32_MAX) <= View().Budget(instance)
    {
      var occupied := OccupiedOn(View(), instance);
      within := occupied <= View().Budget(instance);
    }
  }
}
