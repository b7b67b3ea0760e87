/**
 The proxy's pools (crates/core/src/convergence.rs) as one task drives them, and the proof that a
 round of that task is a run of the grant protocol's steps.
 */
module Convergence {
  import opened Numbers
  import opened GrantLedger
  import opened Protocol
  import opened Allocation
  import PS = ProtocolSafety
  import PM = PoolMachine
  import PL = PoolLoops

  type Pools = map<Slot, PM.State>

  /** The queued clients of each pool that no longer receive. */
  type Gone = map<Slot, set<PM.Ticket>>

  function GoneAt(gone: Gone, s: Slot): set<PM.Ticket> { if s in gone then gone[s] else {} }

  /** No pool is part way through its own `converge`. */
  ghost predicate Quiet(pools: Pools) {
    forall s :: s in pools ==> pools[s].tokens.batches == map[]
  }

  /** `Pool::converge`: what is over the grant and idle is retired and closed, and what is free after
      that is handed out. */
  function Resized(s: PM.State, grant: nat, gone: set<PM.Ticket>): PM.State
    requires s.tokens.batches == map[]
  {
    PL.Handing(PM.Apply(PM.Apply(s, PM.Retire(0, grant)), PM.Closed(0)), gone)
  }

  function Retired(s: PM.State, grant: nat): nat { |s.pool.retiring| + PM.Excess(s.pool, grant) }

  /** The connections queued clients start opening when a pool is brought to its grant. */
  ghost function Opened(s: PM.State, r: PM.State): int { r.tokens.reserved - s.tokens.reserved }

  /** A pool brought to its grant closes nothing more; has let go of exactly what it retired and opens
      exactly what it handed out, into free slots only; keeps an idle connection only within the
      grant; and lets nobody wait who could be given something. */
  lemma ResizedIsWithinGrant(s: PM.State, grant: nat, gone: set<PM.Ticket>)
    requires PM.Reachable(s) && s.tokens.batches == map[]
    ensures var r := Resized(s, grant, gone);
            && PM.Reachable(r) && r.tokens.batches == map[] && Opened(s, r) >= 0
            && r.pool.slots == grant && r.pool.retiring == [] && r.pool.closing == 0
            && r.pool.Occupied() + Retired(s, grant) == s.pool.Occupied() + Opened(s, r)
            && (Opened(s, r) > 0 ==> r.pool.Occupied() <= grant)
            && (r.pool.idle != [] ==> r.pool.Claimed() <= grant)
            && !PL.CanHandOut(r.pool) && s.tokens.leased <= r.tokens.leased
  {
    var closed := PM.Apply(PM.Apply(s, PM.Retire(0, grant)), PM.Closed(0));
    ClosedIsWithinGrant(s, grant);
    PL.HandingIs(closed, gone);
    var events := PL.HandingLeads(closed, gone);
    PL.LeadsReachable(closed, events, Resized(s, grant, gone));
    PM.ReachableHasInv(Resized(s, grant, gone));
  }

  lemma ClosedIsWithinGrant(s: PM.State, grant: nat)
    requires PM.Reachable(s) && s.tokens.batches == map[]
    ensures var r := PM.Apply(PM.Apply(s, PM.Retire(0, grant)), PM.Closed(0));
            && PM.Reachable(r) && r.tokens.batches == map[] && r.tokens.handingOut > 0
            && r.tokens.reserved == s.tokens.reserved && r.tokens.leased == s.tokens.leased
            && r.pool.slots == grant && r.pool.retiring == [] && r.pool.closing == 0
            && r.pool.Occupied() + Retired(s, grant) == s.pool.Occupied()
  {
    var during := PM.Apply(s, PM.Retire(0, grant));
    PM.StepIsReachable(s, PM.Retire(0, grant));
    PM.StepIsReachable(during, PM.Closed(0));
    PM.ReachableHasInv(s);
    assert during.tokens.batches == map[0 := Retired(s, grant)];
    assert during.tokens.batches - {0} == map[];
  }

  // ------------------------------------------------------------ a round, as values

  ghost function Brought(pools: Pools, grants: GrantSet, gone: Gone): Pools
    requires Quiet(pools)
  {
    map s | s in pools :: Resized(pools[s], grants.Get(s), GoneAt(gone, s))
  }

  /** A pool is dropped once it has no grant, no connection and nobody else's handle on it. */
  predicate Needed(s: Slot, pool: PM.State, grants: GrantSet, handles: set<Slot>) {
    grants.Get(s) > 0 || pool.pool.Occupied() > 0 || s in handles
  }

  function Kept(pools: Pools, grants: GrantSet, handles: set<Slot>): Pools {
    map s | s in pools && Needed(s, pools[s], grants, handles) :: pools[s]
  }

  function Unneeded(pools: Pools, grants: GrantSet, handles: set<Slot>): set<Slot> {
    set s | s in pools && !Needed(s, pools[s], grants, handles)
  }

  lemma KeptIsTheRest(pools: Pools, grants: GrantSet, handles: set<Slot>)
    ensures pools - Unneeded(pools, grants, handles) == Kept(pools, grants, handles)
  {
  }

  ghost function RoundOf(x: Proxy, grants: GrantSet, gone: Gone, handles: set<Slot>): Proxy
    requires Quiet(x.pools)
  {
    var y := x.(seen := grants, pools := Kept(Brought(x.pools, grants, gone), grants, handles), round := Waiting);
    y.(reports := x.reports + [Measured(y)])
  }

  function UsedMap(pools: Pools): map<Slot, nat> { map s | s in pools :: pools[s].pool.Occupied() }

  /** What a report says of a pool: who waits and what is with clients or on the way, as demand; and
      everything the instance may carry for it, as actual.  It names the grants last seen. */
  lemma ReportMeans(x: Proxy, s: Slot)
    requires s in x.pools && PM.Reachable(x.pools[s])
    ensures Measured(x).generation == x.seen.generation && Measured(x).usage.Keys == x.pools.Keys
    ensures var t, u := x.pools[s], Measured(x).usage[s];
            var out := |t.tokens.leased| + |t.tokens.releasing| + t.tokens.discarding
                       + t.tokens.reserved + t.tokens.dropping + t.tokens.rejected;
            && u.demand == Min(|t.pool.waiters| + out, U32_MAX)
            && u.actual == Min(|t.pool.idle| + out + |t.pool.retiring| + Total(t.tokens.batches), U32_MAX)
  {
    PM.OccupiedMeans(x.pools[s]);
    PM.DemandMeans(x.pools[s]);
  }

  /** A round ends with a report of the grants it was given; if they left every pool within its grant,
      the report says so, which is what the coordinator waits for. */
  lemma RoundReportSettles(x: Proxy, grants: GrantSet, gone: Gone, handles: set<Slot>, s: Slot)
    requires Quiet(x.pools)
    ensures var y := RoundOf(x, grants, gone, handles);
            var r := y.reports[|y.reports| - 1];
            && y.reports == x.reports + [r] && r.generation == grants.generation && y.seen == grants
            && r.Actual(s) == Min(y.Used(s), U32_MAX)
            && (y.Used(s) <= grants.Get(s) ==> r.Actual(s) <= grants.Get(s))
  {
  }

  // ---------------------------------------------------------------- runs of steps

  ghost predicate Leads(sys: System, steps: seq<Step>, end: System)
    decreases |steps|
  {
    if steps == [] then sys == end
    else Enabled(sys, steps[0]) && Leads(Next(sys, steps[0]), steps[1..], end)
  }

  lemma FirstStep(sys: System, step: Step, rest: seq<Step>, end: System)
    requires Enabled(sys, step) && Leads(Next(sys, step), rest, end)
    ensures Leads(sys, [step] + rest, end)
  {
    assert ([step] + rest)[1..] == rest;
  }

  lemma {:induction false} LeadsJoin(sys: System, a: seq<Step>, middle: System, b: seq<Step>, end: System)
    requires Leads(sys, a, middle) && Leads(middle, b, end)
    ensures Leads(sys, a + b, end)
    decreases |a|
  {
    if a == [] {
      assert a + b == b;
    } else {
      LeadsJoin(Next(sys, a[0]), a[1..], middle, b, end);
      FirstStep(sys, a[0], a[1..] + b, end);
      assert a + b == [a[0]] + (a[1..] + b);
    }
  }

  lemma {:induction false} LeadsKeepsInv(sys: System, steps: seq<Step>, end: System)
    requires Inv(sys) && Leads(sys, steps, end)
    ensures Inv(end)
    decreases |steps|
  {
    if steps != [] {
      PS.StepKeepsInv(sys, steps[0]);
      LeadsKeepsInv(Next(sys, steps[0]), steps[1..], end);
    }
  }

  ghost function Put(sys: System, p: ProxyId, x: Proxy): System { sys.(proxies := sys.proxies[p := x]) }

  predicate IsLocal(step: Step) {
    step.Look? || step.Converge? || step.Forget? || step.Send? || step.InPool?
  }

  lemma LocalStep(sys: System, p: ProxyId, x: Proxy, step: Step)
    requires p in sys.coordinator.proxies && IsLocal(step) && step.proxy == p && Enabled(Put(sys, p, x), step)
    ensures Next(Put(sys, p, x), step) == Put(sys, p, Moved(x, sys.coordinator.proxies[p].published, step))
  {
    var moved := Moved(x, sys.coordinator.proxies[p].published, step);
    assert sys.proxies[p := x][p := moved] == sys.proxies[p := moved];
  }

  // -------------------------------------------------------- the round is such a run

  /** Part way through the loop of `converge`: the pools in `todo` are still as they were. */
  ghost function During(x: Proxy, grants: GrantSet, gone: Gone, todo: set<Slot>): Proxy
    requires Quiet(x.pools)
  {
    x.(seen := grants, round := Converging(todo), pools := Mixed(x.pools, Brought(x.pools, grants, gone), todo))
  }

  function Mixed(before: Pools, after: Pools, todo: set<Slot>): Pools
    requires before.Keys == after.Keys
  {
    map s | s in before :: if s in todo then before[s] else after[s]
  }

  lemma MixedStep(before: Pools, after: Pools, todo: set<Slot>, s: Slot, between: PM.State)
    requires before.Keys == after.Keys && s in before
    ensures Mixed(before, after, todo)[s := between][s := after[s]] == Mixed(before, after, todo - {s})
    ensures Mixed(before, after, todo)[s := after[s]] == Mixed(before, after, todo - {s})
  {
  }

  lemma MixedEnds(before: Pools, after: Pools)
    requires before.Keys == after.Keys
    ensures Mixed(before, after, before.Keys) == before && Mixed(before, after, {}) == after
  {
  }

  function InPools(p: ProxyId, s: Slot, events: seq<PM.Event>): (r: seq<Step>)
    ensures |r| == |events|
  {
    seq(|events|, k requires 0 <= k < |events| => InPool(p, s, events[k]))
  }

  /** What a pool goes through is what the system goes through. */
  lemma {:induction false} PoolRuns(sys: System, p: ProxyId, x: Proxy, s: Slot, events: seq<PM.Event>, t: PM.State)
    requires p in sys.coordinator.proxies && s in x.pools && PL.Leads(x.pools[s], events, t) && PL.NoRetire(events)
    ensures Leads(Put(sys, p, x), InPools(p, s, events), Put(sys, p, x.(pools := x.pools[s := t])))
    decreases |events|
  {
    if events == [] {
      assert x.pools[s := t] == x.pools;
    } else {
      var y := WithPool(x, s, events[0]);
      PoolStep(sys, p, x, s, events[0]);
      PoolRuns(sys, p, y, s, events[1..], t);
      assert y.pools[s := t] == x.pools[s := t];
      FirstStep(Put(sys, p, x), InPool(p, s, events[0]), InPools(p, s, events[1..]),
                Put(sys, p, x.(pools := x.pools[s := t])));
      assert InPools(p, s, events) == [InPool(p, s, events[0])] + InPools(p, s, events[1..]);
    }
  }

  lemma PoolStep(sys: System, p: ProxyId, x: Proxy, s: Slot, e: PM.Event)
    requires p in sys.coordinator.proxies && s in x.pools && PM.Enabled(x.pools[s], e) && !e.Retire?
    ensures var step := InPool(p, s, e);
            && Enabled(Put(sys, p, x), step)
            && Next(Put(sys, p, x), step) == Put(sys, p, WithPool(x, s, e))
  {
    LocalStep(sys, p, x, InPool(p, s, e));
  }

  lemma OnePoolConverges(sys: System, p: ProxyId, x: Proxy, grants: GrantSet, gone: Gone, todo: set<Slot>, s: Slot)
    returns (steps: seq<Step>)
    requires p in sys.coordinator.proxies && Quiet(x.pools) && s in todo && todo <= x.pools.Keys
    ensures Leads(Put(sys, p, During(x, grants, gone, todo)), steps, Put(sys, p, During(x, grants, gone, todo - {s})))
  {
    var a, b := During(x, grants, gone, todo), Retiring(x, grants, gone, todo, s);
    var end := During(x, grants, gone, todo - {s});
    RetireStarts(sys, p, x, grants, gone, todo, s);
    var events := CloseAndHandOut(x, grants, gone, todo, s);
    PoolRuns(sys, p, b, s, events, Brought(x.pools, grants, gone)[s]);
    RetireThenClose(x, grants, gone, todo, s);
    FirstStep(Put(sys, p, a), Converge(p, s, 0), InPools(p, s, events), Put(sys, p, end));
    steps := [Converge(p, s, 0)] + InPools(p, s, events);
  }

  /** One pool has retired what it must and is closing it. */
  ghost function Retiring(x: Proxy, grants: GrantSet, gone: Gone, todo: set<Slot>, s: Slot): Proxy
    requires Quiet(x.pools) && s in todo && todo <= x.pools.Keys
  {
    WithPool(During(x, grants, gone, todo), s, PM.Retire(0, grants.Get(s))).(round := Converging(todo - {s}))
  }

  lemma RetireStarts(sys: System, p: ProxyId, x: Proxy, grants: GrantSet, gone: Gone, todo: set<Slot>, s: Slot)
    requires p in sys.coordinator.proxies && Quiet(x.pools) && s in todo && todo <= x.pools.Keys
    ensures var a := Put(sys, p, During(x, grants, gone, todo));
            && Enabled(a, Converge(p, s, 0))
            && Next(a, Converge(p, s, 0)) == Put(sys, p, Retiring(x, grants, gone, todo, s))
  {
    LocalStep(sys, p, During(x, grants, gone, todo), Converge(p, s, 0));
  }

  lemma CloseAndHandOut(x: Proxy, grants: GrantSet, gone: Gone, todo: set<Slot>, s: Slot)
    returns (events: seq<PM.Event>)
    requires Quiet(x.pools) && s in todo && todo <= x.pools.Keys
    ensures PL.Leads(Retiring(x, grants, gone, todo, s).pools[s], events, Brought(x.pools, grants, gone)[s])
    ensures PL.NoRetire(events)
  {
    RetiringAt(x, grants, gone, todo, s);
    events := ResizedLeads(x.pools[s], grants.Get(s), GoneAt(gone, s));
  }

  lemma RetiringAt(x: Proxy, grants: GrantSet, gone: Gone, todo: set<Slot>, s: Slot)
    requires Quiet(x.pools) && s in todo && todo <= x.pools.Keys
    ensures Retiring(x, grants, gone, todo, s).pools[s] == PM.Apply(x.pools[s], PM.Retire(0, grants.Get(s)))
  {
  }

  lemma ResizedLeads(s: PM.State, grant: nat, gone: set<PM.Ticket>) returns (events: seq<PM.Event>)
    requires s.tokens.batches == map[]
    ensures PL.Leads(PM.Apply(s, PM.Retire(0, grant)), events, Resized(s, grant, gone)) && PL.NoRetire(events)
  {
    var retired := PM.Apply(s, PM.Retire(0, grant));
    var rest := PL.HandingLeads(PM.Apply(retired, PM.Closed(0)), gone);
    PL.FirstEvent(retired, PM.Closed(0), rest, Resized(s, grant, gone));
    events := [PM.Closed(0)] + rest;
  }

  lemma RetireThenClose(x: Proxy, grants: GrantSet, gone: Gone, todo: set<Slot>, s: Slot)
    requires Quiet(x.pools) && s in todo && todo <= x.pools.Keys
    ensures var b := Retiring(x, grants, gone, todo, s);
            b.(pools := b.pools[s := Brought(x.pools, grants, gone)[s]]) == During(x, grants, gone, todo - {s})
  {
    var retired := PM.Apply(x.pools[s], PM.Retire(0, grants.Get(s)));
    MixedStep(x.pools, Brought(x.pools, grants, gone), todo, s, retired);
  }

  lemma {:induction false} PoolsConverge(sys: System, p: ProxyId, x: Proxy, grants: GrantSet, gone: Gone,
                                         todo: set<Slot>)
    returns (steps: seq<Step>)
    requires p in sys.coordinator.proxies && Quiet(x.pools) && todo <= x.pools.Keys
    ensures Leads(Put(sys, p, During(x, grants, gone, todo)), steps, Put(sys, p, During(x, grants, gone, {})))
    decreases todo
  {
    if todo == {} {
      steps := [];
    } else {
      var s :| s in todo;
      var first := OnePoolConverges(sys, p, x, grants, gone, todo, s);
      var rest := PoolsConverge(sys, p, x, grants, gone, todo - {s});
      steps := first + rest;
      LeadsJoin(Put(sys, p, During(x, grants, gone, todo)), first,
                Put(sys, p, During(x, grants, gone, todo - {s})), rest, Put(sys, p, During(x, grants, gone, {})));
    }
  }

  lemma {:induction false} PoolsForgotten(sys: System, p: ProxyId, y: Proxy, unneeded: set<Slot>)
    returns (steps: seq<Step>)
    requires p in sys.coordinator.proxies && y.round == Converging({}) && unneeded <= y.pools.Keys
    requires forall s :: s in unneeded ==> y.seen.Get(s) == 0 && y.Used(s) == 0
    ensures Leads(Put(sys, p, y), steps, Put(sys, p, y.(pools := y.pools - unneeded)))
    decreases unneeded
  {
    if unneeded == {} {
      steps := [];
      assert y.pools - unneeded == y.pools;
    } else {
      var s :| s in unneeded;
      var z := y.(pools := y.pools - {s});
      LocalStep(sys, p, y, Forget(p, s));
      var rest := PoolsForgotten(sys, p, z, unneeded - {s});
      assert z.pools - (unneeded - {s}) == y.pools - unneeded;
      FirstStep(Put(sys, p, y), Forget(p, s), rest, Put(sys, p, y.(pools := y.pools - unneeded)));
      steps := [Forget(p, s)] + rest;
    }
  }

  lemma LookStarts(sys: System, p: ProxyId, x: Proxy, grants: GrantSet, gone: Gone)
    requires p in sys.coordinator.proxies && grants == sys.coordinator.proxies[p].published
    requires x.round.Waiting? && Quiet(x.pools)
    ensures Leads(Put(sys, p, x), [Look(p)], Put(sys, p, During(x, grants, gone, x.pools.Keys)))
  {
    LocalStep(sys, p, x, Look(p));
    MixedEnds(x.pools, Brought(x.pools, grants, gone));
    FirstStep(Put(sys, p, x), Look(p), [], Put(sys, p, During(x, grants, gone, x.pools.Keys)));
  }

  lemma SendEnds(sys: System, p: ProxyId, x: Proxy, grants: GrantSet, gone: Gone, handles: set<Slot>,
                 unneeded: set<Slot>)
    requires p in sys.coordinator.proxies && Quiet(x.pools)
    requires unneeded == Unneeded(Brought(x.pools, grants, gone), grants, handles)
    ensures var y := During(x, grants, gone, {});
            Leads(Put(sys, p, y.(pools := y.pools - unneeded)), [Send(p)],
                  Put(sys, p, RoundOf(x, grants, gone, handles)))
  {
    var y := During(x, grants, gone, {});
    var z := y.(pools := y.pools - unneeded);
    MixedEnds(x.pools, Brought(x.pools, grants, gone));
    KeptIsTheRest(Brought(x.pools, grants, gone), grants, handles);
    LocalStep(sys, p, z, Send(p));
    FirstStep(Put(sys, p, z), Send(p), [], Put(sys, p, RoundOf(x, grants, gone, handles)));
  }

  /** The round of a proxy's task, which brings every pool to the grants published last, drops the
      pools no longer needed and reports, is a run of the protocol's steps: it looks, converges
      pool by pool, and only then measures its report. */
  lemma RoundIsRun(sys: System, p: ProxyId, gone: Gone, handles: set<Slot>) returns (steps: seq<Step>)
    requires p in sys.proxies && p in sys.coordinator.proxies
    requires sys.proxies[p].round.Waiting? && Quiet(sys.proxies[p].pools)
    ensures Leads(sys, steps, Put(sys, p, RoundOf(sys.proxies[p], sys.coordinator.proxies[p].published, gone, handles)))
  {
    var x, grants := sys.proxies[p], sys.coordinator.proxies[p].published;
    assert Put(sys, p, x) == sys;
    LookStarts(sys, p, x, grants, gone);
    var converges := PoolsConverge(sys, p, x, grants, gone, x.pools.Keys);
    var y := During(x, grants, gone, {});
    var unneeded := Unneeded(Brought(x.pools, grants, gone), grants, handles);
    MixedEnds(x.pools, Brought(x.pools, grants, gone));
    var forgets := PoolsForgotten(sys, p, y, unneeded);
    var z, end := y.(pools := y.pools - unneeded), RoundOf(x, grants, gone, handles);
    SendEnds(sys, p, x, grants, gone, handles, unneeded);
    LeadsJoin(Put(sys, p, y), forgets, Put(sys, p, z), [Send(p)], Put(sys, p, end));
    LeadsJoin(Put(sys, p, During(x, grants, gone, x.pools.Keys)), converges, Put(sys, p, y), forgets + [Send(p)],
              Put(sys, p, end));
    LeadsJoin(sys, [Look(p)], Put(sys, p, During(x, grants, gone, x.pools.Keys)), converges + (forgets + [Send(p)]),
              Put(sys, p, end));
    steps := [Look(p)] + (converges + (forgets + [Send(p)]));
  }

  /** So a round, however stale the grants it finds, keeps the protocol's invariant. */
  lemma RoundKeepsInv(sys: System, p: ProxyId, gone: Gone, handles: set<Slot>)
    requires Inv(sys) && p in sys.proxies && sys.proxies[p].round.Waiting? && Quiet(sys.proxies[p].pools)
    ensures Inv(Put(sys, p, RoundOf(sys.proxies[p], sys.coordinator.proxies[p].published, gone, handles)))
  {
    var steps := RoundIsRun(sys, p, gone, handles);
    var end := RoundOf(sys.proxies[p], sys.coordinator.proxies[p].published, gone, handles);
    LeadsKeepsInv(sys, steps, Put(sys, p, end));
  }

  // -------------------------------------------------------------------- the code

  lemma UsedPut(pools: Pools, s: Slot, pool: PM.State)
    requires s in pools
    ensures Total(UsedMap(pools[s := pool])) + pools[s].pool.Occupied() == Total(UsedMap(pools)) + pool.pool.Occupied()
  {
    assert UsedMap(pools[s := pool]) == UsedMap(pools)[s := pool.pool.Occupied()];
    TotalPut(UsedMap(pools), s, pool.pool.Occupied());
  }

  lemma UsedDrop(pools: Pools, s: Slot)
    requires s in pools && pools[s].pool.Occupied() == 0
    ensures Total(UsedMap(pools - {s})) == Total(UsedMap(pools))
  {
    assert UsedMap(pools - {s}) == UsedMap(pools) - {s};
    TotalRemove(UsedMap(pools), s);
  }

  ghost predicate PoolsValid(pools: Pools) {
    Quiet(pools) && forall s :: s in pools ==> PM.Reachable(pools[s])
  }

  ghost predicate NoGrants(grants: GrantSet) { forall s :: grants.Get(s) == 0 }

  /** The loop of `converge` over the pools. */
  method BringAll(pools: Pools, grants: GrantSet, gone: Gone) returns (next: Pools, closed: nat, ghost begun: nat)
    requires PoolsValid(pools)
    ensures next == Brought(pools, grants, gone) && PoolsValid(next)
    ensures Total(UsedMap(next)) + closed == Total(UsedMap(pools)) + begun && (NoGrants(grants) ==> begun == 0)
  {
    next, closed, begun := pools, 0, 0;
    var todo := pools.Keys;
    MixedEnds(pools, Brought(pools, grants, gone));
    while todo != {}
      invariant todo <= pools.Keys && next == Mixed(pools, Brought(pools, grants, gone), todo)
      invariant Total(UsedMap(next)) + closed == Total(UsedMap(pools)) + begun && (NoGrants(grants) ==> begun == 0)
      decreases todo
    {
      var s :| s in todo;
      var pool := Resized(pools[s], grants.Get(s), GoneAt(gone, s));
      BringOne(pools, grants, gone, next, todo, s, pool);
      closed := closed + Retired(pools[s], grants.Get(s));
      begun := begun + Opened(pools[s], pool);
      next := next[s := pool];
      todo := todo - {s};
    }
    BroughtIsValid(pools, grants, gone);
  }

  lemma BringOne(pools: Pools, grants: GrantSet, gone: Gone, next: Pools, todo: set<Slot>, s: Slot, pool: PM.State)
    requires PoolsValid(pools) && s in pools && s in todo && next == Mixed(pools, Brought(pools, grants, gone), todo)
    requires pool == Resized(pools[s], grants.Get(s), GoneAt(gone, s))
    ensures next[s := pool] == Mixed(pools, Brought(pools, grants, gone), todo - {s}) && Opened(pools[s], pool) >= 0
    ensures Total(UsedMap(next[s := pool])) + Retired(pools[s], grants.Get(s))
            == Total(UsedMap(next)) + Opened(pools[s], pool)
    ensures NoGrants(grants) ==> Opened(pools[s], pool) == 0
  {
    MixedStep(pools, Brought(pools, grants, gone), todo, s, pool);
    ResizedUses(pools[s], grants.Get(s), GoneAt(gone, s));
    UsedPut(next, s, pool);
  }

  lemma ResizedUses(s: PM.State, grant: nat, gone: set<PM.Ticket>)
    requires PM.Reachable(s) && s.tokens.batches == map[]
    ensures var r := Resized(s, grant, gone);
            && Opened(s, r) >= 0 && (grant == 0 ==> Opened(s, r) == 0)
            && r.pool.Occupied() + Retired(s, grant) == s.pool.Occupied() + Opened(s, r)
  {
    ResizedIsWithinGrant(s, grant, gone);
    PM.ReachableHasInv(Resized(s, grant, gone));
  }

  lemma BroughtIsValid(pools: Pools, grants: GrantSet, gone: Gone)
    requires PoolsValid(pools)
    ensures PoolsValid(Brought(pools, grants, gone))
  {
    forall s | s in pools
      ensures PM.Reachable(Brought(pools, grants, gone)[s]) && Brought(pools, grants, gone)[s].tokens.batches == map[]
    {
      ResizedIsWithinGrant(pools[s], grants.Get(s), GoneAt(gone, s));
    }
  }

  /** The retain at the end of `converge`. */
  method Retain(pools: Pools, grants: GrantSet, handles: set<Slot>) returns (next: Pools)
    ensures next == Kept(pools, grants, handles) && (PoolsValid(pools) ==> PoolsValid(next))
    ensures forall s :: s in next <==> s in pools && (grants.Get(s) > 0 || pools[s].pool.Occupied() > 0 || s in handles)
    ensures forall s :: s in next ==> next[s] == pools[s]
    ensures Total(UsedMap(next)) == Total(UsedMap(pools))
  {
    next := pools;
    var todo := pools.Keys;
    while todo != {}
      invariant todo <= pools.Keys && todo <= next.Keys <= pools.Keys
      invariant forall s :: s in pools ==> (s in next <==> s in todo || Needed(s, pools[s], grants, handles))
      invariant forall s :: s in next ==> next[s] == pools[s]
      invariant Total(UsedMap(next)) == Total(UsedMap(pools))
      decreases todo
    {
      var s :| s in todo;
      if !Needed(s, pools[s], grants, handles) {
        UsedDrop(next, s);
        next := next - {s};
      }
      todo := todo - {s};
    }
  }

  /** Nothing can be opened, nothing is idle and nothing is being closed. */
  predicate Idled(p: PM.Pool) { p.slots == 0 && p.idle == [] && p.closing == 0 }

  lemma DrainedPool(s: PM.State, gone: set<PM.Ticket>)
    requires PM.Reachable(s) && s.tokens.batches == map[]
    ensures Idled(Resized(s, 0, gone).pool)
  {
    ResizedIsWithinGrant(s, 0, gone);
  }

  class ProxyPools {
    var pools: Pools

    ghost predicate Valid()
      reads this
    {
      PoolsValid(pools)
    }

    constructor ()
      ensures Valid() && pools == map[]
    {
      pools := map[];
    }

    /** `checkout`: the first client of a tenant opens its pool, with no slot until a round. */
    method Checkout(slot: Slot) returns (pool: PM.State)
      requires Valid()
      modifies this
      ensures Valid() && slot in pools && pool == pools[slot]
      ensures pools == if slot in old(pools) then old(pools) else old(pools)[slot := PM.Init(0)]
    {
      if slot !in pools {
        PM.InitIsReachable(0);
        pools := pools[slot := PM.Init(0)];
      }
      pool := pools[slot];
    }

    /** `converge`: closes exactly what it answers; dropping pools loses no connection. */
    method Converge(grants: GrantSet, gone: Gone, handles: set<Slot>) returns (closed: nat, ghost begun: nat)
      requires Valid()
      modifies this
      ensures Valid() && pools == Kept(Brought(old(pools), grants, gone), grants, handles)
      ensures Total(UsedMap(pools)) + closed == Total(UsedMap(old(pools))) + begun && (NoGrants(grants) ==> begun == 0)
    {
      var brought;
      brought, closed, begun := BringAll(pools, grants, gone);
      pools := Retain(brought, grants, handles);
    }

    /** `drain`: afterwards no pool may open anything, and whatever is left is in a client's hands. */
    method Drain(gone: Gone, handles: set<Slot>) returns (closed: nat)
      requires Valid()
      modifies this
      ensures Valid() && Total(UsedMap(pools)) + closed == Total(UsedMap(old(pools)))
      ensures forall s :: s in pools ==> Idled(pools[s].pool)
    {
      var none := GrantSet(0, map[]);
      ghost var was := pools;
      ghost var begun;
      closed, begun := Converge(none, gone, handles);
      forall s | s in pools ensures Idled(pools[s].pool) {
        DrainedPool(was[s], GoneAt(gone, s));
      }
    }

    /** `report`. */
    method Report(generation: nat) returns (r: Report)
      requires Valid()
      ensures forall x: Proxy :: x.pools == pools && x.seen.generation == generation ==> r == Measured(x)
    {
      var usage: map<Slot, Usage> := map[];
      var todo := pools.Keys;
      while todo != {}
        invariant todo <= pools.Keys && usage.Keys == pools.Keys - todo
        invariant forall s :: s in usage ==> usage[s] == UsageOf(pools[s])
        decreases todo
      {
        var s :| s in todo;
        usage := usage[s := UsageOf(pools[s])];
        todo := todo - {s};
      }
      r := GrantLedger.Report(generation, usage);
    }

    /** `occupied`. */
    method Occupied() returns (n: nat)
      ensures n == Total(UsedMap(pools))
    {
      n := 0;
      var rest := UsedMap(pools);
      while rest != map[]
        invariant n + Total(rest) == Total(UsedMap(pools))
        decreases |rest|
      {
        var s :| s in rest;
        TotalRemove(rest, s);
        SmallerWithout(rest, s);
        n := n + rest[s];
        rest := rest - {s};
      }
    }

    /** One turn of `run`: the report always follows the convergence, so it is measured against the
        grants it names. */
    method Round(x: Proxy, grants: GrantSet, gone: Gone, handles: set<Slot>) returns (next: Proxy)
      requires Valid() && x.pools == pools && x.round.Waiting?
      modifies this
      ensures Valid() && next == RoundOf(x, grants, gone, handles) && next.pools == pools
    {
      var closed;
      ghost var begun;
      closed, begun := Converge(grants, gone, handles);
      var report := Report(grants.generation);
      next := x.(seen := grants, pools := pools, reports := x.reports + [report]);
    }
  }
}
