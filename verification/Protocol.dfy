/**
 The grant protocol as one transition system: a coordinator (crates/core/src/grant.rs), any number
 of proxies that see its grants late and converge pool by pool (crates/core/src/convergence.rs),
 and their pools (crates/core/src/pool.rs).
 */
module Protocol {
  import opened Numbers
  import opened Allocation
  import opened GrantLedger
  import PM = PoolMachine

  // -------------------------------------------------------------------- states

  /** Where a proxy's loop stands: between two rounds, part way through converging its pools, or
      no longer running. */
  datatype Round = Waiting | Converging(todo: set<Slot>) | Stopped
  {
    /** The pool has been brought to the grants last seen. */
    predicate Reached(s: Slot) {
      match this
      case Waiting => true
      case Converging(todo) => s !in todo
      case Stopped => false
    }
  }

  datatype Proxy = Proxy(seen: GrantSet, pools: map<Slot, PM.State>, round: Round, reports: seq<Report>)
  {
    function Slots(s: Slot): nat { if s in pools then pools[s].pool.slots else 0 }

    function Used(s: Slot): nat { if s in pools then pools[s].pool.Occupied() else 0 }
  }

  const FreshProxy := Proxy(GrantSet(0, map[]), map[], Waiting, [])

  datatype System = System(coordinator: Coordinator, proxies: map<ProxyId, Proxy>)

  const Start := System(EmptyCoordinator, map[])

  // -------------------------------------------------------------- desired states

  function RaiseMap(c: Coordinator, i: InstanceId, granted: map<Holder, nat>): map<Holder, nat> {
    map h | h in granted :: SatSub(granted[h], c.Occupied(h.proxy, Slot(i, h.tenant)))
  }

  /** What every desired state has: it fits the budget, it grants to proxies that are there, and
      what it lets them open beyond the ledger fits what the ledger leaves of the budget. */
  ghost predicate DesiredOk(c: Coordinator, i: InstanceId, d: Desired) {
    && d.Valid() && d.budget == c.Budget(i) && d.total <= d.budget
    && (forall h :: h in d.granted ==> c.Live(h.proxy))
    && Total(RaiseMap(c, i, d.granted)) <= SatSub(c.Budget(i), Ledger(c, i))
  }

  ghost predicate IsDesired(c: Coordinator, entry: Table) {
    && entry.Keys == c.budgets.Keys
    && forall i :: i in entry ==> DesiredOk(c, i, entry[i])
  }

  // --------------------------------------------------------------------- steps

  datatype Step =
    | SetBudget(instance: InstanceId, budget: u32)   // add_instance, observe_instance, set_margin
    | SetPolicies(policies: map<Slot, Policy>)
    | Register(proxy: ProxyId)
    | Reconcile(entry: Table)
    | Deliver(proxy: ProxyId)                        // report_for, in the order the reports were sent
    | Withdraw(proxy: ProxyId)
    | Look(proxy: ProxyId)                           // the loop clones the grants published last
    | Converge(proxy: ProxyId, slot: Slot, id: nat)  // one pool's `converge` starts
    | Forget(proxy: ProxyId, slot: Slot)             // the retain at the end of a round
    | Send(proxy: ProxyId)                           // the round's report is measured
    | Checkout(proxy: ProxyId, slot: Slot)
    | InPool(proxy: ProxyId, slot: Slot, event: PM.Event)
    | Stop(proxy: ProxyId)
    | Drain(proxy: ProxyId, slot: Slot, id: nat)

  function Saturate(n: nat): u32 { Min(n, U32_MAX) }

  function UsageOf(s: PM.State): Usage { Usage(Saturate(s.pool.Demand()), Saturate(s.pool.Occupied())) }

  /** `ProxyPools::report`. */
  function Measured(x: Proxy): Report {
    Report(x.seen.generation, map s | s in x.pools :: UsageOf(x.pools[s]))
  }

  /** Nothing is held and nothing can be opened. */
  predicate Drained(x: Proxy) {
    x.round.Stopped? && forall s :: s in x.pools ==> x.pools[s].pool.slots == 0 && x.pools[s].pool.Occupied() == 0
  }

  ghost predicate Enabled(sys: System, step: Step) {
    match step
    case SetBudget(_, _) => true
    case SetPolicies(_) => true
    case Register(_) => true
    case Reconcile(entry) => IsDesired(sys.coordinator, entry)
    case Deliver(p) => p in sys.proxies && sys.proxies[p].reports != []
    case Withdraw(p) => p in sys.proxies && Drained(sys.proxies[p])
    case Look(p) => p in sys.proxies && p in sys.coordinator.proxies && sys.proxies[p].round.Waiting?
    case Converge(p, s, id) =>
      && p in sys.proxies && sys.proxies[p].round.Converging? && s in sys.proxies[p].round.todo
      && s in sys.proxies[p].pools && id !in sys.proxies[p].pools[s].tokens.batches
    case Forget(p, s) =>
      && p in sys.proxies && sys.proxies[p].round == Converging({})
      && s in sys.proxies[p].pools && sys.proxies[p].seen.Get(s) == 0 && sys.proxies[p].Used(s) == 0
    case Send(p) => p in sys.proxies && sys.proxies[p].round == Converging({})
    case Checkout(p, s) => p in sys.proxies && s !in sys.proxies[p].pools
    case InPool(p, s, e) =>
      && p in sys.proxies && s in sys.proxies[p].pools
      && !e.Retire? && PM.Enabled(sys.proxies[p].pools[s], e)
    case Stop(p) => p in sys.proxies
    case Drain(p, s, id) =>
      && p in sys.proxies && sys.proxies[p].round.Stopped?
      && s in sys.proxies[p].pools && id !in sys.proxies[p].pools[s].tokens.batches
  }

  function WithPool(x: Proxy, s: Slot, e: PM.Event): Proxy
    requires s in x.pools && PM.Enabled(x.pools[s], e)
  {
    x.(pools := x.pools[s := PM.Apply(x.pools[s], e)])
  }

  /** What a step of proxy `p` makes of it. */
  function Moved(x: Proxy, published: GrantSet, step: Step): Proxy {
    match step
    case Look(_) => x.(seen := published, round := Converging(x.pools.Keys))
    case Converge(_, s, id) =>
      if x.round.Converging? && s in x.pools && PM.Enabled(x.pools[s], PM.Retire(id, x.seen.Get(s))) then
        WithPool(x, s, PM.Retire(id, x.seen.Get(s))).(round := Converging(x.round.todo - {s}))
      else x
    case Forget(_, s) => x.(pools := x.pools - {s})
    case Send(_) => x.(round := Waiting, reports := x.reports + [Measured(x)])
    case Checkout(_, s) => x.(pools := x.pools[s := PM.Init(0)])
    case InPool(_, s, e) => if s in x.pools && PM.Enabled(x.pools[s], e) then WithPool(x, s, e) else x
    case Stop(_) => x.(round := Stopped)
    case Drain(_, s, id) =>
      if s in x.pools && PM.Enabled(x.pools[s], PM.Retire(id, 0)) then WithPool(x, s, PM.Retire(id, 0)) else x
    case _ => x
  }

  ghost function Next(sys: System, step: Step): System
    requires Enabled(sys, step)
  {
    var c := sys.coordinator;
    match step
    case SetBudget(i, budget) => sys.(coordinator := c.(budgets := c.budgets[i := budget]))
    case SetPolicies(policies) => sys.(coordinator := c.(policies := policies))
    case Register(p) =>
      System(Registered(c, p), if p in sys.proxies then sys.proxies else sys.proxies[p := FreshProxy])
    case Reconcile(entry) => sys.(coordinator := Reconciled(c, entry))
    case Deliver(p) =>
      var x := sys.proxies[p];
      System(Reported(c, p, x.reports[0]), sys.proxies[p := x.(reports := x.reports[1..])])
    case Withdraw(p) => sys.(coordinator := Withdrawn(c, p))
    case _ =>
      var p := step.proxy;
      var published := if p in c.proxies then c.proxies[p].published else NewProxy.published;
      sys.(proxies := sys.proxies[p := Moved(sys.proxies[p], published, step)])
  }

  // ------------------------------------------------------------------ invariant

  /** One in-flight report: whatever it says, the ledger still covers it; and if it was measured
      against the grant now in the table, it bounds what the pool holds and may come to hold. */
  ghost predicate ReportOk(ps: ProxyState, grant: nat, x: Proxy, s: Slot, r: Report) {
    && r.generation <= x.seen.generation
    && r.Actual(s) <= ps.Occupied(s)
    && (ps.Fenced(s, r.generation) ==> x.Slots(s) <= grant && x.Used(s) <= Max(grant, r.Actual(s)))
  }

  ghost predicate ReportsOk(ps: ProxyState, grant: nat, x: Proxy, s: Slot) {
    && (forall k :: 0 <= k < |x.reports| ==> ReportOk(ps, grant, x, s, x.reports[k]))
    && (forall k, l :: 0 <= k < l < |x.reports| && ps.Fenced(s, x.reports[k].generation)
          ==> x.reports[l].Actual(s) <= Max(grant, x.reports[k].Actual(s)))
  }

  /** One slot of a live proxy.  The fence: a generation at or after the slot's last change carries
      the grant the table holds.  The cover: the table's grant, the grant seen, the pool's slots
      and the pool's connections are each within the ledger. */
  ghost predicate SlotInv(ps: ProxyState, grant: nat, x: Proxy, s: Slot) {
    && grant <= ps.Occupied(s) <= U32_MAX
    && ps.published.Get(s) == grant
    && (s in ps.held ==> ps.held[s].changedAt <= ps.published.generation)
    && x.seen.Get(s) <= ps.Occupied(s)
    && (ps.Fenced(s, x.seen.generation) ==> x.seen.Get(s) == grant)
    && x.Slots(s) <= ps.Occupied(s) && x.Used(s) <= ps.Occupied(s)
    && (x.round.Reached(s) ==> x.Slots(s) <= x.seen.Get(s))
    && ReportsOk(ps, grant, x, s)
  }

  /** Every pool is in a state its own code can bring it to. */
  ghost predicate PoolsInv(x: Proxy) {
    forall s :: s in x.pools ==> PM.Reachable(x.pools[s])
  }

  ghost predicate ProxyInv(c: Coordinator, p: ProxyId, x: Proxy)
    requires p in c.proxies
  {
    var ps := c.proxies[p];
    && x.seen.generation <= ps.published.generation <= c.generation
    && PoolsInv(x)
    && if ps.departed then ps.held == map[] && Drained(x)
       else forall s :: SlotInv(ps, Granted(c.table, p, s), x, s)
  }

  ghost predicate TableInv(c: Coordinator) {
    && WithinBudgets(c.table)
    && c.table.Keys <= c.budgets.Keys
    && (forall i, h :: i in c.table && h in c.table[i].granted ==> h.proxy in c.proxies)
  }

  ghost predicate Inv(sys: System) {
    && sys.proxies.Keys == sys.coordinator.proxies.Keys
    && TableInv(sys.coordinator)
    && forall p :: p in sys.proxies ==> ProxyInv(sys.coordinator, p, sys.proxies[p])
  }
}
