/** The budget is never exceeded: what the grant protocol promises over whole runs. */
module ProtocolTheorems {
  import opened Numbers
  import opened Allocation
  import opened GrantLedger
  import opened Protocol
  import opened ProtocolSafety

  // --------------------------------------------------- real connections and ledger

  function RealHolders(sys: System, i: InstanceId): set<Holder> {
    set p, s | p in sys.proxies && s in sys.proxies[p].pools && s.instance == i :: Holder(s.tenant, p)
  }

  function Used(sys: System, p: ProxyId, s: Slot): nat { if p in sys.proxies then sys.proxies[p].Used(s) else 0 }

  function RealMap(sys: System, i: InstanceId): map<Holder, nat> {
    map h | h in RealHolders(sys, i) :: Used(sys, h.proxy, Slot(i, h.tenant))
  }

  /** The connections every proxy's pools hold on an instance, counting the ones still opening
      and still closing. */
  ghost function Real(sys: System, i: InstanceId): nat { Total(RealMap(sys, i)) }

  lemma RealAt(sys: System, i: InstanceId, h: Holder)
    ensures At(RealMap(sys, i), h) == Used(sys, h.proxy, Slot(i, h.tenant))
  {
    if h.proxy in sys.proxies && Slot(i, h.tenant) in sys.proxies[h.proxy].pools {
      assert Holder(Slot(i, h.tenant).tenant, h.proxy) in RealHolders(sys, i);
    }
  }

  /** The ledger never undercounts: no instance carries more than it says. */
  lemma RealWithinLedger(sys: System, i: InstanceId)
    requires Inv(sys)
    ensures Real(sys, i) <= Ledger(sys.coordinator, i)
  {
    forall h ensures At(RealMap(sys, i), h) <= At(LedgerMap(sys.coordinator, i), h) {
      var s := Slot(i, h.tenant);
      RealAt(sys, i, h);
      LedgerAt(sys.coordinator, i, h);
      if h.proxy in sys.proxies {
        assert ProxyInv(sys.coordinator, h.proxy, sys.proxies[h.proxy]);
        assert sys.coordinator.Live(h.proxy) ==>
            SlotInv(sys.coordinator.proxies[h.proxy], Granted(sys.coordinator.table, h.proxy, s),
                    sys.proxies[h.proxy], s);
      }
    }
    TotalLe(RealMap(sys, i), LedgerMap(sys.coordinator, i));
  }

  /** The fence: a proxy that has seen a slot's last change has seen the grant the table holds. */
  lemma Fence(sys: System, p: ProxyId, s: Slot)
    requires Inv(sys) && sys.coordinator.Live(p)
    requires sys.coordinator.proxies[p].Fenced(s, sys.proxies[p].seen.generation)
    ensures sys.proxies[p].seen.Get(s) == Granted(sys.coordinator.table, p, s)
  {
    assert ProxyInv(sys.coordinator, p, sys.proxies[p]);
    assert SlotInv(sys.coordinator.proxies[p], Granted(sys.coordinator.table, p, s), sys.proxies[p], s);
  }

  // ------------------------------------------------------------ how the ledger moves

  /** A reconcile adds to the ledger exactly what it lets proxies open beyond it. */
  lemma ReconcileAdds(sys: System, entry: Table, i: InstanceId, h: Holder)
    requires Inv(sys) && Enabled(sys, Reconcile(entry)) && i in entry
    ensures var c := sys.coordinator;
            At(LedgerMap(Reconciled(c, entry), i), h)
              == At(LedgerMap(c, i), h) + At(RaiseMap(c, i, entry[i].granted), h)
  {
    var c := sys.coordinator;
    LedgerAt(c, i, h);
    LedgerAt(Reconciled(c, entry), i, h);
    DesiredGrantsToLive(c, entry, i, h);
    SlotAdds(sys, entry, i, h);
  }

  lemma SlotAdds(sys: System, entry: Table, i: InstanceId, h: Holder)
    requires Inv(sys) && Enabled(sys, Reconcile(entry)) && i in entry
    ensures var c, s := sys.coordinator, Slot(i, h.tenant);
            Reconciled(c, entry).Occupied(h.proxy, s)
            == c.Occupied(h.proxy, s) + SatSub(At(entry[i].granted, h), c.Occupied(h.proxy, s))
  {
    var c, p, s := sys.coordinator, h.proxy, Slot(i, h.tenant);
    DesiredGrantsToLive(c, entry, i, h);
    if p in c.proxies {
      ReconciledAt(c, entry, p, s);
      CountCoversGrant(sys, p, s);
      DesiredGrantsAreSmall(c, entry, p, s);
    }
  }

  lemma DesiredGrantsToLive(c: Coordinator, entry: Table, i: InstanceId, h: Holder)
    requires IsDesired(c, entry) && i in entry
    ensures At(RaiseMap(c, i, entry[i].granted), h)
            == SatSub(At(entry[i].granted, h), c.Occupied(h.proxy, Slot(i, h.tenant)))
    ensures h.proxy !in c.proxies ==> At(entry[i].granted, h) == 0
  {
    assert DesiredOk(c, i, entry[i]);
  }

  lemma CountCoversGrant(sys: System, p: ProxyId, s: Slot)
    requires Inv(sys) && p in sys.coordinator.proxies
    ensures if sys.coordinator.Live(p) then Granted(sys.coordinator.table, p, s) <= sys.coordinator.Occupied(p, s)
            else sys.coordinator.Occupied(p, s) == 0
  {
    var c := sys.coordinator;
    assert ProxyInv(c, p, sys.proxies[p]);
    assert c.Live(p) ==> SlotInv(c.proxies[p], Granted(c.table, p, s), sys.proxies[p], s);
  }

  lemma ReconcileLedger(sys: System, entry: Table, i: InstanceId)
    requires Inv(sys) && Enabled(sys, Reconcile(entry))
    ensures Ledger(Reconciled(sys.coordinator, entry), i) <= Max(Ledger(sys.coordinator, i), sys.coordinator.Budget(i))
  {
    if i in entry {
      ReconcileAddsUp(sys, entry, i);
    } else {
      ReconcileLeavesAlone(sys.coordinator, entry, i);
    }
  }

  lemma ReconcileAddsUp(sys: System, entry: Table, i: InstanceId)
    requires Inv(sys) && Enabled(sys, Reconcile(entry)) && i in entry
    ensures Ledger(Reconciled(sys.coordinator, entry), i) <= Max(Ledger(sys.coordinator, i), sys.coordinator.Budget(i))
  {
    ReconcileSum(sys, entry, i);
    DesiredRaiseFits(sys.coordinator, entry, i);
  }

  lemma ReconcileSum(sys: System, entry: Table, i: InstanceId)
    requires Inv(sys) && Enabled(sys, Reconcile(entry)) && i in entry
    ensures var c := sys.coordinator;
            Ledger(Reconciled(c, entry), i) == Ledger(c, i) + Total(RaiseMap(c, i, entry[i].granted))
  {
    var c := sys.coordinator;
    var now, was, more := LedgerMap(Reconciled(c, entry), i), LedgerMap(c, i), RaiseMap(c, i, entry[i].granted);
    forall h ensures At(now, h) == At(was, h) + At(more, h) {
      ReconcileAdds(sys, entry, i, h);
    }
    TotalAdd(now, was, more);
  }

  lemma DesiredRaiseFits(c: Coordinator, entry: Table, i: InstanceId)
    requires IsDesired(c, entry) && i in entry
    ensures Total(RaiseMap(c, i, entry[i].granted)) <= SatSub(c.Budget(i), Ledger(c, i))
  {
    assert DesiredOk(c, i, entry[i]);
  }

  lemma ReconcileLeavesAlone(c: Coordinator, entry: Table, i: InstanceId)
    requires i !in entry
    ensures Ledger(Reconciled(c, entry), i) <= Ledger(c, i)
  {
    var now, was := LedgerMap(Reconciled(c, entry), i), LedgerMap(c, i);
    forall h ensures At(now, h) <= At(was, h) {
      LedgerAt(c, i, h);
      LedgerAt(Reconciled(c, entry), i, h);
      if h.proxy in c.proxies {
        ReconciledAt(c, entry, h.proxy, Slot(i, h.tenant));
      }
    }
    TotalLe(now, was);
  }

  /** No other step raises any slot of the ledger. */
  lemma OtherStepsLower(sys: System, step: Step, p: ProxyId, s: Slot)
    requires Inv(sys) && Enabled(sys, step) && !step.Reconcile?
    ensures Next(sys, step).coordinator.Occupied(p, s) <= sys.coordinator.Occupied(p, s)
  {
    if step.Deliver? && step.proxy == p {
      var c, x := sys.coordinator, sys.proxies[p];
      assert ProxyInv(c, p, x);
      if c.Live(p) {
        DeliverKeepsSlot(c, p, x, s);
      } else {
        ReportedAt(c, p, x.reports[0], s);
      }
    }
  }

  /** Each step leaves the ledger within the larger of what it was and the budget in force. */
  lemma LedgerStep(sys: System, step: Step, i: InstanceId)
    requires Inv(sys) && Enabled(sys, step)
    ensures Ledger(Next(sys, step).coordinator, i)
              <= Max(Ledger(sys.coordinator, i), Next(sys, step).coordinator.Budget(i))
  {
    if step.Reconcile? {
      ReconcileLedger(sys, step.entry, i);
    } else {
      var c, c' := sys.coordinator, Next(sys, step).coordinator;
      forall h ensures At(LedgerMap(c', i), h) <= At(LedgerMap(c, i), h) {
        LedgerAt(c, i, h);
        LedgerAt(c', i, h);
        OtherStepsLower(sys, step, h.proxy, Slot(i, h.tenant));
      }
      TotalLe(LedgerMap(c', i), LedgerMap(c, i));
    }
  }

  // -------------------------------------------------------------------- runs

  ghost predicate IsRun(steps: seq<Step>, states: seq<System>) {
    && |states| == |steps| + 1
    && states[0] == Start
    && forall k :: 0 <= k < |steps| ==> Enabled(states[k], steps[k]) && states[k + 1] == Next(states[k], steps[k])
  }

  lemma {:induction false} RunsKeepInv(steps: seq<Step>, states: seq<System>, n: nat)
    requires IsRun(steps, states) && n <= |steps|
    ensures Inv(states[n])
  {
    if n > 0 {
      RunsKeepInv(steps, states, n - 1);
      StepKeepsInv(states[n - 1], steps[n - 1]);
    }
  }

  lemma LedgerStepAt(steps: seq<Step>, states: seq<System>, k: nat, i: InstanceId)
    requires IsRun(steps, states) && k < |steps|
    ensures Ledger(states[k + 1].coordinator, i)
              <= Max(Ledger(states[k].coordinator, i), states[k + 1].coordinator.Budget(i))
  {
    RunsKeepInv(steps, states, k);
    LedgerStep(states[k], steps[k], i);
  }

  lemma RealWithinLedgerAt(steps: seq<Step>, states: seq<System>, n: nat, i: InstanceId)
    requires IsRun(steps, states) && n <= |steps|
    ensures Real(states[n], i) <= Ledger(states[n].coordinator, i)
  {
    RunsKeepInv(steps, states, n);
    RealWithinLedger(states[n], i);
  }

  ghost function Ledgers(states: seq<System>, i: InstanceId): (r: seq<nat>)
    ensures |r| == |states| && forall k :: 0 <= k < |r| ==> r[k] == Ledger(states[k].coordinator, i)
  {
    seq(|states|, k requires 0 <= k < |states| => Ledger(states[k].coordinator, i))
  }

  ghost function Budgets(states: seq<System>, i: InstanceId): (r: seq<nat>)
    ensures |r| == |states| && forall k :: 0 <= k < |r| ==> r[k] == states[k].coordinator.Budget(i)
  {
    seq(|states|, k requires 0 <= k < |states| => states[k].coordinator.Budget(i))
  }

  /** Something that only ever rises to a bound stays within it, once it is and while the bound does
      not fall. */
  lemma {:induction false} StaysWithin(x: seq<nat>, bound: seq<nat>, m: nat, n: nat)
    requires m <= n < |x| == |bound| && x[m] <= bound[m]
    requires forall k :: m <= k < n ==> x[k + 1] <= Max(x[k], bound[k + 1]) && bound[k] <= bound[k + 1]
    ensures x[n] <= bound[n]
    decreases n
  {
    if m < n {
      StaysWithin(x, bound, m, n - 1);
      var k := n - 1;
      assert x[k + 1] <= Max(x[k], bound[k + 1]) && bound[k] <= bound[k + 1];
    }
  }

  lemma LedgersMove(steps: seq<Step>, states: seq<System>, i: InstanceId, k: nat)
    requires IsRun(steps, states) && k < |steps|
    ensures Ledgers(states, i)[k + 1] <= Max(Ledgers(states, i)[k], Budgets(states, i)[k + 1])
  {
    LedgerStepAt(steps, states, k, i);
  }

  lemma LedgerStartsEmpty(steps: seq<Step>, states: seq<System>, i: InstanceId)
    requires IsRun(steps, states)
    ensures Ledgers(states, i)[0] == 0
  {
    assert LedgerMap(Start.coordinator, i) == map[];
  }

  /** In every run, an instance never carries more connections than the largest budget it has had:
      if its budget never went above `cap`, neither did its connections. */
  lemma NeverAboveLargestBudget(steps: seq<Step>, states: seq<System>, n: nat, i: InstanceId, cap: nat)
    requires IsRun(steps, states) && n <= |steps|
    requires forall k :: 0 <= k <= n ==> states[k].coordinator.Budget(i) <= cap
    ensures Real(states[n], i) <= Ledger(states[n].coordinator, i) <= cap
  {
    var x := Ledgers(states, i);
    var caps := seq(|states|, _ => cap);
    LedgerStartsEmpty(steps, states, i);
    forall k | 0 <= k < n ensures x[k + 1] <= Max(x[k], caps[k + 1]) {
      LedgersMove(steps, states, i, k);
      assert states[k + 1].coordinator.Budget(i) <= cap;
    }
    StaysWithin(x, caps, 0, n);
    RealWithinLedgerAt(steps, states, n, i);
  }

  /** From any moment at which the ledger is within the budget, it stays within the budget in force,
      and so do the connections, for as long as the budget does not shrink, whatever it did before. */
  lemma NeverAboveBudgetSince(steps: seq<Step>, states: seq<System>, m: nat, n: nat, i: InstanceId)
    requires IsRun(steps, states) && m <= n <= |steps|
    requires Ledger(states[m].coordinator, i) <= states[m].coordinator.Budget(i)
    requires forall k :: m <= k < n ==> states[k].coordinator.Budget(i) <= states[k + 1].coordinator.Budget(i)
    ensures Real(states[n], i) <= Ledger(states[n].coordinator, i) <= states[n].coordinator.Budget(i)
  {
    var x, budgets := Ledgers(states, i), Budgets(states, i);
    forall k | m <= k < n ensures x[k + 1] <= Max(x[k], budgets[k + 1]) && budgets[k] <= budgets[k + 1] {
      LedgersMove(steps, states, i, k);
      assert states[k].coordinator.Budget(i) <= states[k + 1].coordinator.Budget(i);
    }
    StaysWithin(x, budgets, m, n);
    RealWithinLedgerAt(steps, states, n, i);
  }

  /** While an instance's budget has only grown, its connections stay within the budget in force. */
  lemma NeverAboveGrowingBudget(steps: seq<Step>, states: seq<System>, n: nat, i: InstanceId)
    requires IsRun(steps, states) && n <= |steps|
    requires forall k :: 0 <= k < n ==> states[k].coordinator.Budget(i) <= states[k + 1].coordinator.Budget(i)
    ensures Real(states[n], i) <= states[n].coordinator.Budget(i)
  {
    assert LedgerMap(Start.coordinator, i) == map[];
    NeverAboveBudgetSince(steps, states, 0, n, i);
  }

  // ---------------------------------------------------------------------- demand

  /** What the latest report of a proxy that was taken in asks for in a slot: nothing before the first
      one, and nothing once the proxy has withdrawn. */
  ghost function Asked(steps: seq<Step>, states: seq<System>, n: nat, p: ProxyId, s: Slot): nat
    requires IsRun(steps, states) && n <= |steps|
  {
    if n == 0 then 0
    else
      match steps[n - 1]
      case Deliver(q) =>
        if q != p then Asked(steps, states, n - 1, p, s)
        else
          var usage := states[n - 1].proxies[p].reports[0].usage;
          if s in usage then usage[s].demand else 0
      case Withdraw(q) => if q != p then Asked(steps, states, n - 1, p, s) else 0
      case _ => Asked(steps, states, n - 1, p, s)
  }

  lemma OthersKeepDemand(sys: System, step: Step, p: ProxyId, s: Slot)
    requires Inv(sys) && Enabled(sys, step) && !(step.Deliver? && step.proxy == p)
    requires !(step.Withdraw? && step.proxy == p)
    ensures Wanted(Next(sys, step).coordinator, p, s) == Wanted(sys.coordinator, p, s)
  {
    if step.Reconcile? && p in sys.coordinator.proxies {
      RefencedAt(sys.coordinator.proxies[p], Published(sys.coordinator.table, p),
                 Published(sys.coordinator.table + step.entry, p), sys.coordinator.generation + 1, s);
    }
  }

  ghost function Wanted(c: Coordinator, p: ProxyId, s: Slot): nat {
    if p in c.proxies then c.proxies[p].Wanted(s) else 0
  }

  /** In every run, what the coordinator takes a proxy to want is what its latest report asked for. */
  lemma {:induction false} WantsWhatWasAsked(steps: seq<Step>, states: seq<System>, n: nat, p: ProxyId, s: Slot)
    requires IsRun(steps, states) && n <= |steps|
    ensures Wanted(states[n].coordinator, p, s) == Asked(steps, states, n, p, s)
  {
    if n > 0 {
      WantsWhatWasAsked(steps, states, n - 1, p, s);
      RunsKeepInv(steps, states, n - 1);
      RunStep(steps, states, n - 1);
      var sys, step := states[n - 1], steps[n - 1];
      if step.Deliver? && step.proxy == p {
        ReportedDemand(sys.coordinator, p, sys.proxies[p].reports[0], p, s);
      } else if step.Withdraw? && step.proxy == p {
        WithdrawnForgets(sys.coordinator, p, p, s);
      } else {
        OthersKeepDemand(sys, step, p, s);
      }
    }
  }

  // ------------------------------------------------------------------- shrinking

  /** `within_budget`, the condition a shrinking `set_margin` waits for before it answers: once it
      holds, the instance carries no more than the budget in force, then and for as long as the
      budget does not shrink again.  The sum it compares saturates, which can hide nothing, since no
      ledger outgrows 32 bits. */
  lemma MarginAnswerIsTrue(steps: seq<Step>, states: seq<System>, m: nat, n: nat, i: InstanceId)
    requires IsRun(steps, states) && m <= n <= |steps|
    requires Min(Ledger(states[m].coordinator, i), U32_MAX) <= states[m].coordinator.Budget(i)
    requires forall k :: m <= k < n ==> states[k].coordinator.Budget(i) <= states[k + 1].coordinator.Budget(i)
    ensures Real(states[n], i) <= states[n].coordinator.Budget(i)
  {
    NeverAboveLargestBudget(steps, states, m, i, U32_MAX);
    NeverAboveBudgetSince(steps, states, m, n, i);
  }

  /** A report measured at the proxy's latest grants that finds it within them on the instance. */
  ghost predicate Converged(c: Coordinator, p: ProxyId, r: Report, i: InstanceId) {
    && p in c.proxies && c.proxies[p].published.generation <= r.generation
    && forall s: Slot :: s.instance == i ==> r.Actual(s) <= Granted(c.table, p, s)
  }

  ghost predicate Fenceable(c: Coordinator) {
    forall p, s :: p in c.proxies && s in c.proxies[p].held
      ==> c.proxies[p].departed || c.proxies[p].held[s].changedAt <= c.proxies[p].published.generation
  }

  lemma ReportLevels(c: Coordinator, p: ProxyId, r: Report, s: Slot)
    requires Converged(c, p, r, s.instance) && Fenceable(c) && !c.proxies[p].departed
    ensures Reported(c, p, r).Occupied(p, s) <= Granted(c.table, p, s)
  {
    ReportedAt(c, p, r, s);
    assert r.Actual(s) <= Granted(c.table, p, s);
  }

  /** The generation of the grants a proxy was sent last. */
  ghost function Generation(sys: System, p: ProxyId): nat
    requires p in sys.coordinator.proxies
  {
    sys.coordinator.proxies[p].published.generation
  }

  lemma ReconcileRises(sys: System, entry: Table, p: ProxyId, s: Slot)
    requires Inv(sys) && Enabled(sys, Reconcile(entry)) && p in sys.coordinator.proxies
    ensures var c, c' := sys.coordinator, Reconciled(sys.coordinator, entry);
            && p in c'.proxies && c.proxies[p].published.generation <= c'.proxies[p].published.generation
            && (c.proxies[p].published.generation == c'.proxies[p].published.generation ==>
                  Granted(c'.table, p, s) == Granted(c.table, p, s) && c'.Occupied(p, s) == c.Occupied(p, s))
  {
    var c := sys.coordinator;
    assert ProxyInv(c, p, sys.proxies[p]);
    ReconciledPublishes(c, entry, p);
    ReconciledAt(c, entry, p, s);
    PublishedIsGranted(c.table, p, s);
    PublishedIsGranted(c.table + entry, p, s);
    if Published(c.table, p) != Published(c.table + entry, p) {
      assert GrantsMove(c, c.table + entry);
    }
  }

  /** No step takes a proxy back to an older generation; and a step that sends it no new one leaves its
      grants as they are and raises none of its counts. */
  lemma GenerationRises(sys: System, step: Step, p: ProxyId, s: Slot)
    requires Inv(sys) && Enabled(sys, step) && p in sys.coordinator.proxies
    ensures var next := Next(sys, step);
            && p in next.coordinator.proxies && Generation(sys, p) <= Generation(next, p)
            && (Generation(sys, p) == Generation(next, p) ==>
                  && Granted(next.coordinator.table, p, s) == Granted(sys.coordinator.table, p, s)
                  && next.coordinator.Occupied(p, s) <= sys.coordinator.Occupied(p, s))
  {
    if step.Reconcile? {
      ReconcileRises(sys, step.entry, p, s);
    } else {
      OtherStepsLower(sys, step, p, s);
      OthersKeepGenerations(sys, step, p);
    }
  }

  lemma OthersKeepGenerations(sys: System, step: Step, p: ProxyId)
    requires Inv(sys) && Enabled(sys, step) && p in sys.coordinator.proxies && !step.Reconcile?
    ensures var next := Next(sys, step);
            && p in next.coordinator.proxies && Generation(sys, p) == Generation(next, p)
            && next.coordinator.table == sys.coordinator.table
  {
  }

  /** From `m` to `n`, while a proxy is sent no new generation. */
  lemma {:induction false} WhileGeneration(steps: seq<Step>, states: seq<System>, m: nat, n: nat, p: ProxyId, s: Slot)
    requires IsRun(steps, states) && m <= n <= |steps| && p in states[m].coordinator.proxies
    ensures p in states[n].coordinator.proxies && Generation(states[m], p) <= Generation(states[n], p)
    ensures Generation(states[m], p) == Generation(states[n], p) ==>
              && Granted(states[n].coordinator.table, p, s) == Granted(states[m].coordinator.table, p, s)
              && states[n].coordinator.Occupied(p, s) <= states[m].coordinator.Occupied(p, s)
    decreases n
  {
    if m < n {
      WhileGeneration(steps, states, m, n - 1, p, s);
      RunsKeepInv(steps, states, n - 1);
      GenerationRises(states[n - 1], steps[n - 1], p, s);
    }
  }

  /** Step `m` takes in a report of `p` that finds it within its latest grants. */
  ghost predicate Settles(steps: seq<Step>, states: seq<System>, m: nat, p: ProxyId, i: InstanceId)
    requires IsRun(steps, states) && m < |steps|
  {
    steps[m] == Deliver(p) && Converged(states[m].coordinator, p, states[m].proxies[p].reports[0], i)
  }

  lemma SettlesNow(steps: seq<Step>, states: seq<System>, m: nat, p: ProxyId, s: Slot)
    requires IsRun(steps, states) && m < |steps| && Settles(steps, states, m, p, s.instance)
    ensures states[m + 1].coordinator.Occupied(p, s) <= Granted(states[m].coordinator.table, p, s)
  {
    var sys := states[m];
    RunsKeepInv(steps, states, m);
    assert ProxyInv(sys.coordinator, p, sys.proxies[p]);
    if sys.coordinator.proxies[p].departed {
      ReportedAt(sys.coordinator, p, sys.proxies[p].reports[0], s);
    } else {
      InvIsFenceable(sys);
      ReportLevels(sys.coordinator, p, sys.proxies[p].reports[0], s);
    }
  }

  /** One slot settles: from a report on that finds its proxy within its latest grants, and while that
      proxy is sent no newer ones, it counts for no more than its grant, whatever other reports come
      before or after and whatever moves for other proxies. */
  lemma HolderSettles(steps: seq<Step>, states: seq<System>, m: nat, n: nat, p: ProxyId, s: Slot)
    requires IsRun(steps, states) && m < n <= |steps| && Settles(steps, states, m, p, s.instance)
    requires p in states[n].coordinator.proxies && Generation(states[m], p) == Generation(states[n], p)
    ensures states[n].coordinator.Occupied(p, s) <= Granted(states[n].coordinator.table, p, s)
  {
    SettlesNow(steps, states, m, p, s);
    RunsKeepInv(steps, states, m);
    GenerationRises(states[m], steps[m], p, s);
    WhileGeneration(steps, states, m + 1, n, p, s);
  }

  /** The proxy has nothing in the ledger of the instance, or reported itself within its latest grants
      there: the ones it was sent last. */
  ghost predicate IsSettled(steps: seq<Step>, states: seq<System>, n: nat, p: ProxyId, i: InstanceId)
    requires IsRun(steps, states) && n <= |steps| && p in states[n].coordinator.proxies
  {
    || (forall s: Slot :: s.instance == i ==> s !in states[n].coordinator.proxies[p].held)
    || exists m :: SettledBy(steps, states, m, n, p, i)
  }

  ghost predicate SettledBy(steps: seq<Step>, states: seq<System>, m: nat, n: nat, p: ProxyId, i: InstanceId)
    requires IsRun(steps, states) && n <= |steps| && p in states[n].coordinator.proxies
  {
    m < n && Settles(steps, states, m, p, i) && Generation(states[m], p) == Generation(states[n], p)
  }

  /** Shrinking settles, in every run: once every live proxy has had a report taken in that finds it
      within the latest grants it was sent, the ledger, and with it what the instance carries, is
      within the budget the latest reconcile of the instance had.  Anything else may happen meanwhile:
      stale reports in flight, further reports, pool events, registrations, withdrawals, budget moves,
      and reconciles that move the grants of other proxies. */
  lemma ShrinkingSettles(steps: seq<Step>, states: seq<System>, n: nat, i: InstanceId)
    requires IsRun(steps, states) && n <= |steps| && i in states[n].coordinator.table
    requires forall p :: states[n].coordinator.Live(p) ==> IsSettled(steps, states, n, p, i)
    ensures Real(states[n], i) <= Ledger(states[n].coordinator, i) <= states[n].coordinator.table[i].budget
  {
    var c := states[n].coordinator;
    forall h ensures At(LedgerMap(c, i), h) <= At(c.table[i].granted, h) {
      LedgerSettles(steps, states, n, i, h);
    }
    TotalLe(LedgerMap(c, i), c.table[i].granted);
    RunsKeepInv(steps, states, n);
    TableFits(states[n], i);
    RealWithinLedger(states[n], i);
  }

  lemma TableFits(sys: System, i: InstanceId)
    requires Inv(sys) && i in sys.coordinator.table
    ensures Total(sys.coordinator.table[i].granted) <= sys.coordinator.table[i].budget
  {
  }

  lemma LedgerSettles(steps: seq<Step>, states: seq<System>, n: nat, i: InstanceId, h: Holder)
    requires IsRun(steps, states) && n <= |steps| && i in states[n].coordinator.table
    requires states[n].coordinator.Live(h.proxy) ==> IsSettled(steps, states, n, h.proxy, i)
    ensures At(LedgerMap(states[n].coordinator, i), h) <= At(states[n].coordinator.table[i].granted, h)
  {
    var p, s := h.proxy, Slot(i, h.tenant);
    LedgerAt(states[n].coordinator, i, h);
    RunsKeepInv(steps, states, n);
    if !states[n].coordinator.Live(p) {
      DepartedCountsNothing(states[n], p, s);
    } else if s in states[n].coordinator.proxies[p].held {
      var m :| SettledBy(steps, states, m, n, p, i);
      HolderSettles(steps, states, m, n, p, s);
    }
  }

  lemma RunStep(steps: seq<Step>, states: seq<System>, k: nat)
    requires IsRun(steps, states) && k < |steps|
    ensures Enabled(states[k], steps[k]) && states[k + 1] == Next(states[k], steps[k])
  {
  }

  lemma {:induction false} TableCarried(states: seq<System>, a: nat, n: nat)
    requires a <= n < |states|
    requires forall k :: a <= k < n ==> states[k + 1].coordinator.table == states[k].coordinator.table
    ensures states[n].coordinator.table == states[a].coordinator.table
    decreases n
  {
    if a < n {
      TableCarried(states, a, n - 1);
    }
  }

  /** The budget in the table is the one in force at the latest reconcile. */
  lemma TableBudgetStays(steps: seq<Step>, states: seq<System>, a: nat, n: nat, i: InstanceId)
    requires IsRun(steps, states) && a < n <= |steps| && steps[a].Reconcile? && i in steps[a].entry
    requires forall k :: a < k < n ==> !steps[k].Reconcile?
    ensures i in states[n].coordinator.table
    ensures states[n].coordinator.table[i].budget == states[a].coordinator.Budget(i)
  {
    RunStep(steps, states, a);
    ReconcileWritesBudget(states[a], steps[a].entry, i);
    forall k | a + 1 <= k < n ensures states[k + 1].coordinator.table == states[k].coordinator.table {
      RunStep(steps, states, k);
      TableStays(states[k], steps[k]);
    }
    TableCarried(states, a + 1, n);
  }

  lemma ReconcileWritesBudget(sys: System, entry: Table, i: InstanceId)
    requires Enabled(sys, Reconcile(entry)) && i in entry
    ensures var table := Next(sys, Reconcile(entry)).coordinator.table;
            i in table && table[i].budget == sys.coordinator.Budget(i)
  {
    assert DesiredOk(sys.coordinator, i, entry[i]);
  }

  lemma TableStays(sys: System, step: Step)
    requires Enabled(sys, step) && !step.Reconcile?
    ensures Next(sys, step).coordinator.table == sys.coordinator.table
  {
  }

  lemma DepartedCountsNothing(sys: System, p: ProxyId, s: Slot)
    requires Inv(sys) && !sys.coordinator.Live(p)
    ensures sys.coordinator.Occupied(p, s) == 0
  {
    if p in sys.proxies {
      assert ProxyInv(sys.coordinator, p, sys.proxies[p]);
    }
  }

  lemma InvIsFenceable(sys: System)
    requires Inv(sys)
    ensures Fenceable(sys.coordinator)
  {
    var c := sys.coordinator;
    forall p, s | p in c.proxies && s in c.proxies[p].held
      ensures c.proxies[p].departed || c.proxies[p].held[s].changedAt <= c.proxies[p].published.generation
    {
      assert ProxyInv(c, p, sys.proxies[p]);
      assert c.proxies[p].departed || SlotInv(c.proxies[p], Granted(c.table, p, s), sys.proxies[p], s);
    }
  }
}
