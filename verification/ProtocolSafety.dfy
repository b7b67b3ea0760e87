/** Every step of the grant protocol keeps its invariant, and what follows for the connections an
    instance carries. */
module ProtocolSafety {
  import opened Numbers
  import opened Allocation
  import opened GrantLedger
  import opened Protocol
  import PM = PoolMachine

  // --------------------------------------------------- steps of one proxy alone

  /** A pool's slots are taken from the grants seen and its connections only fill its slots, so
      whatever covered the slot before covers it after. */
  lemma PoolMove(ps: ProxyState, grant: nat, x: Proxy, y: Proxy, s: Slot)
    requires SlotInv(ps, grant, x, s)
    requires QuietMove(x, y, s)
    ensures SlotInv(ps, grant, y, s)
  {
    forall k | 0 <= k < |y.reports| ensures ReportOk(ps, grant, y, s, y.reports[k]) {
      assert ReportOk(ps, grant, x, s, x.reports[k]);
    }
  }

  lemma LookKeepsSlot(ps: ProxyState, grant: nat, x: Proxy, y: Proxy, s: Slot)
    requires SlotInv(ps, grant, x, s) && x.seen.generation <= ps.published.generation
    requires y == x.(seen := ps.published, round := Converging(x.pools.Keys))
    ensures SlotInv(ps, grant, y, s)
  {
    forall k | 0 <= k < |y.reports| ensures ReportOk(ps, grant, y, s, y.reports[k]) {
      assert ReportOk(ps, grant, x, s, x.reports[k]);
    }
  }

  /** The report follows the convergence, so it is measured against the grants it names. */
  lemma SendKeepsSlot(ps: ProxyState, grant: nat, x: Proxy, y: Proxy, s: Slot)
    requires SlotInv(ps, grant, x, s) && x.round == Converging({})
    requires y == x.(round := Waiting, reports := x.reports + [Measured(x)])
    ensures SlotInv(ps, grant, y, s)
  {
    var r, n := Measured(x), |x.reports|;
    assert r.Actual(s) == x.Used(s);
    forall k | 0 <= k <= n ensures ReportOk(ps, grant, y, s, y.reports[k]) {
      if k < n {
        assert ReportOk(ps, grant, x, s, x.reports[k]);
      }
    }
    forall k, l | 0 <= k < l <= n && ps.Fenced(s, y.reports[k].generation)
      ensures y.reports[l].Actual(s) <= Max(grant, y.reports[k].Actual(s))
    {
      assert ReportOk(ps, grant, x, s, x.reports[k]);
    }
  }

  /** The steps that touch one pool or the round and neither the grants seen nor the reports. */
  predicate Quiet(step: Step) {
    step.Converge? || step.Forget? || step.Checkout? || step.InPool? || step.Stop? || step.Drain?
  }

  /** What one event does to the pool it happens in, as far as the proxy can tell. */
  ghost predicate Evolved(m: PM.State, n: PM.State, slots: nat) {
    && PM.Reachable(n)
    && n.pool.slots == slots
    && n.pool.Occupied() <= Max(m.pool.Occupied(), m.pool.slots)
  }

  lemma PoolEvent(m: PM.State, e: PM.Event)
    requires PM.Reachable(m) && PM.Enabled(m, e)
    ensures Evolved(m, PM.Apply(m, e), if e.Retire? then e.grant else m.pool.slots)
  {
    PM.ReachableHasInv(m);
    PM.OccupancyRisesOnlyIntoFreeSlots(m, e);
    PM.StepIsReachable(m, e);
  }

  lemma PoolStarts()
    ensures PM.Reachable(PM.Init(0)) && PM.Init(0).pool.slots == 0 && PM.Init(0).pool.Occupied() == 0
  {
    PM.InitIsReachable(0);
  }

  /** `y` is `x` after a quiet step, seen from one slot. */
  ghost predicate QuietMove(x: Proxy, y: Proxy, s: Slot) {
    && y.seen == x.seen && y.reports == x.reports
    && (y.Slots(s) <= x.Slots(s) || y.Slots(s) <= x.seen.Get(s))
    && y.Used(s) <= Max(x.Used(s), x.Slots(s))
    && (y.round.Reached(s) ==> (x.round.Reached(s) && y.Slots(s) <= x.Slots(s)) || y.Slots(s) <= x.seen.Get(s))
    && (x.round.Stopped? ==> y.round.Stopped? && y.Slots(s) <= x.Slots(s))
  }

  lemma Replaced(x: Proxy, y: Proxy, t: Slot, n: PM.State, slots: nat, s: Slot)
    requires PoolsInv(x) && t in x.pools && Evolved(x.pools[t], n, slots)
    requires y == x.(pools := x.pools[t := n], round := y.round)
    requires slots == x.pools[t].pool.slots || (slots == x.seen.Get(t) && !x.round.Stopped?) || slots == 0
    requires if y.round.Converging? && x.round.Converging?
             then && y.round.todo >= x.round.todo - {t}
                  && (t in y.round.todo || slots == x.seen.Get(t) || t !in x.round.todo)
             else y.round == x.round
    ensures PoolsInv(y) && QuietMove(x, y, s)
  {
  }

  lemma ConvergeMoves(sys: System, p: ProxyId, t: Slot, id: nat, s: Slot)
    requires Enabled(sys, Converge(p, t, id)) && PoolsInv(sys.proxies[p])
    ensures var x, y := sys.proxies[p], Next(sys, Converge(p, t, id)).proxies[p];
            PoolsInv(y) && QuietMove(x, y, s)
  {
    var x, y := sys.proxies[p], Next(sys, Converge(p, t, id)).proxies[p];
    var e := PM.Retire(id, x.seen.Get(t));
    PoolEvent(x.pools[t], e);
    Replaced(x, y, t, PM.Apply(x.pools[t], e), x.seen.Get(t), s);
  }

  lemma InPoolMoves(sys: System, p: ProxyId, t: Slot, e: PM.Event, s: Slot)
    requires Enabled(sys, InPool(p, t, e)) && PoolsInv(sys.proxies[p])
    ensures var x, y := sys.proxies[p], Next(sys, InPool(p, t, e)).proxies[p];
            PoolsInv(y) && QuietMove(x, y, s)
  {
    var x, y := sys.proxies[p], Next(sys, InPool(p, t, e)).proxies[p];
    PoolEvent(x.pools[t], e);
    Replaced(x, y, t, PM.Apply(x.pools[t], e), x.pools[t].pool.slots, s);
  }

  lemma DrainMoves(sys: System, p: ProxyId, t: Slot, id: nat, s: Slot)
    requires Enabled(sys, Drain(p, t, id)) && PoolsInv(sys.proxies[p])
    ensures var x, y := sys.proxies[p], Next(sys, Drain(p, t, id)).proxies[p];
            PoolsInv(y) && QuietMove(x, y, s)
  {
    var x, y := sys.proxies[p], Next(sys, Drain(p, t, id)).proxies[p];
    PoolEvent(x.pools[t], PM.Retire(id, 0));
    Replaced(x, y, t, PM.Apply(x.pools[t], PM.Retire(id, 0)), 0, s);
  }

  lemma OtherMoves(sys: System, step: Step, s: Slot)
    requires (step.Forget? || step.Checkout? || step.Stop?) && Enabled(sys, step) && PoolsInv(sys.proxies[step.proxy])
    ensures var x, y := sys.proxies[step.proxy], Next(sys, step).proxies[step.proxy];
            PoolsInv(y) && QuietMove(x, y, s)
  {
    PoolStarts();
  }

  lemma QuietStep(sys: System, step: Step, s: Slot)
    requires Quiet(step) && Enabled(sys, step) && PoolsInv(sys.proxies[step.proxy])
    ensures var x, y := sys.proxies[step.proxy], Next(sys, step).proxies[step.proxy];
            PoolsInv(y) && QuietMove(x, y, s)
  {
    match step
    case Converge(p, t, id) => ConvergeMoves(sys, p, t, id, s);
    case InPool(p, t, e) => InPoolMoves(sys, p, t, e, s);
    case Drain(p, t, id) => DrainMoves(sys, p, t, id, s);
    case _ => OtherMoves(sys, step, s);
  }

  predicate Local(step: Step) { Quiet(step) || step.Look? || step.Send? }

  lemma LocalKeepsSlot(sys: System, step: Step, s: Slot)
    requires Inv(sys) && Local(step) && Enabled(sys, step) && sys.coordinator.Live(step.proxy)
    ensures var c, p := sys.coordinator, step.proxy;
            SlotInv(c.proxies[p], Granted(c.table, p, s), Next(sys, step).proxies[p], s)
  {
    var c, p := sys.coordinator, step.proxy;
    var ps, grant, x, y := c.proxies[p], Granted(c.table, p, s), sys.proxies[p], Next(sys, step).proxies[p];
    assert ProxyInv(c, p, x);
    assert SlotInv(ps, grant, x, s);
    if step.Look? {
      LookKeepsSlot(ps, grant, x, y, s);
    } else if step.Send? {
      SendKeepsSlot(ps, grant, x, y, s);
    } else {
      QuietStep(sys, step, s);
      PoolMove(ps, grant, x, y, s);
    }
  }

  /** A proxy that has withdrawn can open nothing again. */
  lemma LocalKeepsDrained(sys: System, step: Step)
    requires Local(step) && Enabled(sys, step)
    requires PoolsInv(sys.proxies[step.proxy]) && Drained(sys.proxies[step.proxy])
    ensures Drained(Next(sys, step).proxies[step.proxy])
  {
    var x, y := sys.proxies[step.proxy], Next(sys, step).proxies[step.proxy];
    forall s | s in y.pools ensures y.pools[s].pool.slots == 0 && y.pools[s].pool.Occupied() == 0 {
      QuietStep(sys, step, s);
      assert x.Slots(s) == 0 && x.Used(s) == 0;
      assert y.Slots(s) == 0 && y.Used(s) == 0;
    }
  }

  lemma LocalKeepsInv(sys: System, step: Step)
    requires Inv(sys) && Local(step) && Enabled(sys, step)
    ensures Inv(Next(sys, step))
  {
    var c, p := sys.coordinator, step.proxy;
    assert ProxyInv(c, p, sys.proxies[p]);
    var y := Next(sys, step).proxies[p];
    if Quiet(step) {
      QuietStep(sys, step, Slot(0, 0));
    }
    if c.proxies[p].departed {
      LocalKeepsDrained(sys, step);
    } else {
      forall s ensures SlotInv(c.proxies[p], Granted(c.table, p, s), y, s) {
        LocalKeepsSlot(sys, step, s);
      }
    }
    assert ProxyInv(c, p, y);
  }

  // ------------------------------------------------------ steps of the coordinator

  /** A slot whose grant moved is fenced off from everything measured so far; one whose grant did
      not move is as it was. */
  lemma ReconcileKeepsSlot(c: Coordinator, entry: Table, p: ProxyId, x: Proxy, s: Slot)
    requires c.Live(p) && ProxyInv(c, p, x) && Granted(Reconciled(c, entry).table, p, s) <= U32_MAX
    ensures var c' := Reconciled(c, entry);
            p in c'.proxies && SlotInv(c'.proxies[p], Granted(c'.table, p, s), x, s)
  {
    var c' := Reconciled(c, entry);
    var ps, ps' := c.proxies[p], c'.proxies[p];
    var was, now := Granted(c.table, p, s), Granted(c'.table, p, s);
    assert SlotInv(ps, was, x, s);
    ReconciledAt(c, entry, p, s);
    PublishedAfter(c, entry, p, s);
    ReportsSurvive(ps, ps', was, now, x, s);
  }

  lemma PublishedAfter(c: Coordinator, entry: Table, p: ProxyId, s: Slot)
    requires c.Live(p) && c.proxies[p].published.generation <= c.generation
    requires c.proxies[p].published.Get(s) == Granted(c.table, p, s)
    ensures var ps, ps' := c.proxies[p], Reconciled(c, entry).proxies[p];
            && ps'.published.Get(s) == Granted(Reconciled(c, entry).table, p, s)
            && ps.published.generation <= ps'.published.generation
            && (Granted(c.table, p, s) != Granted(Reconciled(c, entry).table, p, s) ==>
                  ps'.published.generation == c.generation + 1)
  {
    ReconciledPublishes(c, entry, p);
    PublishedIsGranted(c.table, p, s);
    PublishedIsGranted(Reconciled(c, entry).table, p, s);
  }

  /** The ledger may rise, and only what was fenced and did not move stays fenced, unless there is
      nothing left to count. */
  lemma ReportsSurvive(ps: ProxyState, ps': ProxyState, was: nat, now: nat, x: Proxy, s: Slot)
    requires ReportsOk(ps, was, x, s) && ps.Occupied(s) <= ps'.Occupied(s)
    requires x.Slots(s) <= ps.Occupied(s) && x.Used(s) <= ps.Occupied(s)
    requires forall g: nat :: g <= x.seen.generation && ps'.Fenced(s, g) ==>
               (ps.Fenced(s, g) && was == now) || ps'.Occupied(s) == 0
    ensures ReportsOk(ps', now, x, s)
  {
    forall k | 0 <= k < |x.reports| ensures ReportOk(ps', now, x, s, x.reports[k]) {
      assert ReportOk(ps, was, x, s, x.reports[k]);
    }
    forall k, l | 0 <= k < l < |x.reports| && ps'.Fenced(s, x.reports[k].generation)
      ensures x.reports[l].Actual(s) <= Max(now, x.reports[k].Actual(s))
    {
      assert ReportOk(ps, was, x, s, x.reports[k]) && ReportOk(ps, was, x, s, x.reports[l]);
    }
  }

  lemma DesiredGrantsAreSmall(c: Coordinator, entry: Table, p: ProxyId, s: Slot)
    requires TableInv(c) && IsDesired(c, entry)
    ensures Granted(c.table + entry, p, s) <= U32_MAX
    ensures p in c.proxies && c.proxies[p].departed ==> Granted(c.table + entry, p, s) == 0
  {
    var table := c.table + entry;
    if s.instance in table {
      TotalRemove(table[s.instance].granted, Holder(s.tenant, p));
    }
  }

  lemma ReconcileKeepsTable(c: Coordinator, entry: Table)
    requires TableInv(c) && IsDesired(c, entry)
    ensures TableInv(Reconciled(c, entry))
  {
    var c' := Reconciled(c, entry);
    forall i | i in c'.table ensures c'.table[i].Valid() && c'.table[i].total <= c'.table[i].budget {
      if i in entry {
        assert DesiredOk(c, i, entry[i]);
      }
    }
    forall i, h | i in c'.table && h in c'.table[i].granted ensures h.proxy in c'.proxies {
      if i in entry {
        assert DesiredOk(c, i, entry[i]);
      }
    }
  }

  /** A withdrawn proxy stays with nothing held when its grants are taken out of the table. */
  lemma ReconcileKeepsDeparted(c: Coordinator, entry: Table, p: ProxyId)
    requires TableInv(c) && IsDesired(c, entry) && p in c.proxies
    requires c.proxies[p].departed && c.proxies[p].held == map[]
    ensures Reconciled(c, entry).proxies[p].held == map[]
  {
    ReconcileKeepsTable(c, entry);
    var held := Reconciled(c, entry).proxies[p].held;
    forall s ensures s !in held {
      DesiredGrantsAreSmall(c, entry, p, s);
      HeldIsPositive(c, entry, p, s);
    }
  }

  /** A slot is kept in the ledger only while something is held or granted. */
  lemma HeldIsPositive(c: Coordinator, entry: Table, p: ProxyId, s: Slot)
    requires p in c.proxies && s !in c.proxies[p].held && Granted(c.table + entry, p, s) == 0
    requires WithinBudgets(c.table + entry)
    ensures s !in Reconciled(c, entry).proxies[p].held
  {
    PublishedIsGranted(c.table, p, s);
    PublishedIsGranted(c.table + entry, p, s);
  }

  lemma ReconcileKeepsProxy(sys: System, entry: Table, p: ProxyId)
    requires Inv(sys) && Enabled(sys, Reconcile(entry)) && p in sys.proxies
    ensures ProxyInv(Reconciled(sys.coordinator, entry), p, sys.proxies[p])
  {
    var c, x := sys.coordinator, sys.proxies[p];
    var c' := Reconciled(c, entry);
    assert ProxyInv(c, p, x);
    ReconciledPublishes(c, entry, p);
    ReconciledAt(c, entry, p, Slot(0, 0));
    GenerationCovers(c, entry, p);
    if c.proxies[p].departed {
      ReconcileKeepsDeparted(c, entry, p);
    } else {
      forall s ensures SlotInv(c'.proxies[p], Granted(c'.table, p, s), x, s) {
        DesiredGrantsAreSmall(c, entry, p, s);
        ReconcileKeepsSlot(c, entry, p, x, s);
      }
    }
  }

  lemma GenerationCovers(c: Coordinator, entry: Table, p: ProxyId)
    requires p in c.proxies && c.proxies[p].published.generation <= c.generation
    ensures var c' := Reconciled(c, entry);
            c.proxies[p].published.generation <= c'.proxies[p].published.generation <= c'.generation
  {
    ReconciledPublishes(c, entry, p);
  }

  lemma ReconcileKeepsInv(sys: System, entry: Table)
    requires Inv(sys) && Enabled(sys, Reconcile(entry))
    ensures Inv(Next(sys, Reconcile(entry)))
  {
    ReconcileKeepsTable(sys.coordinator, entry);
    forall p | p in sys.proxies ensures ProxyInv(Reconciled(sys.coordinator, entry), p, sys.proxies[p]) {
      ReconcileKeepsProxy(sys, entry, p);
    }
  }

  /** What a report makes of its proxy's slot. */
  ghost predicate TakenIn(ps: ProxyState, ps': ProxyState, grant: nat, s: Slot, r: Report) {
    && ps'.Occupied(s) == (if s in ps.held && ps.held[s].changedAt <= r.generation
                           then Max(grant, r.Actual(s)) else ps.Occupied(s))
    && (s in ps'.held ==> s in ps.held && ps'.held[s].changedAt == ps.held[s].changedAt)
    && ps'.published == ps.published
  }

  lemma TakenInKeepsReports(ps: ProxyState, ps': ProxyState, grant: nat, x: Proxy, y: Proxy, s: Slot)
    requires SlotInv(ps, grant, x, s) && x.reports != [] && TakenIn(ps, ps', grant, s, x.reports[0])
    requires y == x.(reports := x.reports[1..])
    ensures ReportsOk(ps', grant, y, s) && ps'.Occupied(s) <= ps.Occupied(s)
  {
    var r := x.reports[0];
    assert ReportOk(ps, grant, x, s, r);
    forall k | 0 <= k < |y.reports| ensures ReportOk(ps', grant, y, s, y.reports[k]) {
      assert ReportOk(ps, grant, x, s, x.reports[k + 1]);
      assert ps.Fenced(s, r.generation) ==> x.reports[k + 1].Actual(s) <= Max(grant, r.Actual(s));
    }
    forall k, l | 0 <= k < l < |y.reports| && ps'.Fenced(s, y.reports[k].generation)
      ensures y.reports[l].Actual(s) <= Max(grant, y.reports[k].Actual(s))
    {
      assert ReportOk(ps', grant, y, s, y.reports[l]);
      assert ps.Fenced(s, x.reports[k + 1].generation)
        ==> x.reports[l + 1].Actual(s) <= Max(grant, x.reports[k + 1].Actual(s));
    }
  }

  /** A report brings the ledger down only to what the pool holds or may come to hold. */
  lemma DeliverKeepsSlot(c: Coordinator, p: ProxyId, x: Proxy, s: Slot)
    requires c.Live(p) && ProxyInv(c, p, x) && x.reports != []
    ensures var c', y := Reported(c, p, x.reports[0]), x.(reports := x.reports[1..]);
            SlotInv(c'.proxies[p], Granted(c.table, p, s), y, s)
    ensures Reported(c, p, x.reports[0]).Occupied(p, s) <= c.Occupied(p, s)
  {
    var r := x.reports[0];
    var c', y, grant := Reported(c, p, r), x.(reports := x.reports[1..]), Granted(c.table, p, s);
    var ps, ps' := c.proxies[p], c'.proxies[p];
    assert SlotInv(ps, grant, x, s);
    ReportedAt(c, p, r, s);
    assert ReportOk(ps, grant, x, s, r);
    TakenInKeepsReports(ps, ps', grant, x, y, s);
  }

  lemma DeliverKeepsInv(sys: System, p: ProxyId)
    requires Inv(sys) && Enabled(sys, Deliver(p))
    ensures Inv(Next(sys, Deliver(p)))
  {
    var c, x := sys.coordinator, sys.proxies[p];
    var c', y := Reported(c, p, x.reports[0]), x.(reports := x.reports[1..]);
    assert ProxyInv(c, p, x);
    ReportedAt(c, p, x.reports[0], Slot(0, 0));
    if !c.proxies[p].departed {
      forall s ensures SlotInv(c'.proxies[p], Granted(c'.table, p, s), y, s) {
        DeliverKeepsSlot(c, p, x, s);
      }
    }
    assert ProxyInv(c', p, y);
    OthersKeep(sys, c', p);
  }

  /** What is not touched is as it was. */
  lemma OthersKeep(sys: System, c': Coordinator, p: ProxyId)
    requires Inv(sys) && p in sys.coordinator.proxies && p in c'.proxies
    requires c' == sys.coordinator.(proxies := sys.coordinator.proxies[p := c'.proxies[p]])
    ensures forall q :: q in sys.proxies && q != p ==> ProxyInv(c', q, sys.proxies[q])
  {
    forall q | q in sys.proxies && q != p ensures ProxyInv(c', q, sys.proxies[q]) {
      assert ProxyInv(sys.coordinator, q, sys.proxies[q]);
    }
  }

  lemma WithdrawKeepsInv(sys: System, p: ProxyId)
    requires Inv(sys) && Enabled(sys, Withdraw(p))
    ensures Inv(Next(sys, Withdraw(p)))
  {
    var c' := Withdrawn(sys.coordinator, p);
    assert ProxyInv(sys.coordinator, p, sys.proxies[p]);
    assert ProxyInv(c', p, sys.proxies[p]);
    OthersKeep(sys, c', p);
  }

  lemma RegisterKeepsInv(sys: System, p: ProxyId)
    requires Inv(sys)
    ensures Inv(Next(sys, Register(p)))
  {
    var c := sys.coordinator;
    if p !in sys.proxies {
      var c' := Registered(c, p);
      forall s ensures SlotInv(NewProxy, Granted(c'.table, p, s), FreshProxy, s) {
        assert Granted(c.table, p, s) == 0;
      }
      assert ProxyInv(c', p, FreshProxy);
      forall q | q in sys.proxies ensures ProxyInv(c', q, sys.proxies[q]) {
        assert ProxyInv(c, q, sys.proxies[q]);
      }
    }
  }

  lemma SettingsKeepInv(sys: System, step: Step)
    requires Inv(sys) && (step.SetBudget? || step.SetPolicies?)
    ensures Inv(Next(sys, step))
  {
    var c, c' := sys.coordinator, Next(sys, step).coordinator;
    forall q | q in sys.proxies ensures ProxyInv(c', q, sys.proxies[q]) {
      assert ProxyInv(c, q, sys.proxies[q]);
    }
  }

  /** Every step of the protocol keeps the invariant. */
  lemma StepKeepsInv(sys: System, step: Step)
    requires Inv(sys) && Enabled(sys, step)
    ensures Inv(Next(sys, step))
  {
    match step
    case SetBudget(_, _) => SettingsKeepInv(sys, step);
    case SetPolicies(_) => SettingsKeepInv(sys, step);
    case Register(p) => RegisterKeepsInv(sys, p);
    case Reconcile(entry) => ReconcileKeepsInv(sys, entry);
    case Deliver(p) => DeliverKeepsInv(sys, p);
    case Withdraw(p) => WithdrawKeepsInv(sys, p);
    case _ => LocalKeepsInv(sys, step);
  }
}
