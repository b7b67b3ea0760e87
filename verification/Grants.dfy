/**
 The coordinator's state and its steps as functions (crates/core/src/grant.rs).

 The ledger `held` counts what a proxy may still have on an instance: a grant that rises counts
 at once; a grant that falls keeps counting until a report measured at or after the change says
 the connections are gone.
 */
module GrantLedger {
  import opened Numbers
  import opened Allocation

  datatype Slot = Slot(instance: InstanceId, tenant: TenantId)

  datatype Usage = Usage(demand: u32, actual: u32)

  datatype Report = Report(generation: nat, usage: map<Slot, Usage>)
  {
    function Actual(s: Slot): nat { if s in usage then usage[s].actual else 0 }
  }

  datatype GrantSet = GrantSet(generation: nat, grants: map<Slot, nat>)
  {
    function Get(s: Slot): nat { At(grants, s) }
  }

  datatype Held = Held(changedAt: nat, occupied: nat)

  datatype Policy = Policy(min: u32, max: u32, weight: NonZeroU32)

  datatype ProxyState = ProxyState(
    published: GrantSet,
    demand: map<Slot, u32>,
    held: map<Slot, Held>,
    departed: bool)
  {
    function Occupied(s: Slot): nat { if s in held then held[s].occupied else 0 }

    function Wanted(s: Slot): u32 { if s in demand then demand[s] else 0 }

    /** A report of this generation was measured against the current grant. */
    predicate Fenced(s: Slot, generation: nat) { s !in held || held[s].changedAt <= generation }
  }

  const NewProxy := ProxyState(GrantSet(0, map[]), map[], map[], false)

  datatype Coordinator = Coordinator(
    table: Table,
    budgets: map<InstanceId, u32>,
    policies: map<Slot, Policy>,
    generation: nat,
    proxies: map<ProxyId, ProxyState>)
  {
    predicate Live(p: ProxyId) { p in proxies && !proxies[p].departed }

    function Budget(i: InstanceId): u32 { if i in budgets then budgets[i] else 0 }

    function Occupied(p: ProxyId, s: Slot): nat { if p in proxies then proxies[p].Occupied(s) else 0 }
  }

  const EmptyCoordinator := Coordinator(map[], map[], map[], 0, map[])

  function Granted(table: Table, p: ProxyId, s: Slot): nat {
    if s.instance in table then At(table[s.instance].granted, Holder(s.tenant, p)) else 0
  }

  function PublishedSlots(table: Table, p: ProxyId): set<Slot> {
    set i, h | i in table && h in table[i].granted && h.proxy == p :: Slot(i, h.tenant)
  }

  /** `published`: one proxy's grants. */
  function Published(table: Table, p: ProxyId): map<Slot, nat> {
    map s | s in PublishedSlots(table, p) :: Granted(table, p, s)
  }

  lemma PublishedIsGranted(table: Table, p: ProxyId, s: Slot)
    ensures At(Published(table, p), s) == Granted(table, p, s)
    ensures s in Published(table, p) <==> s.instance in table && Holder(s.tenant, p) in table[s.instance].granted
  {
    if s.instance in table && Holder(s.tenant, p) in table[s.instance].granted {
      assert Slot(s.instance, Holder(s.tenant, p).tenant) in PublishedSlots(table, p);
    }
  }

  // ----------------------------------------------------------------- the ledger

  function LedgerHolders(c: Coordinator, i: InstanceId): set<Holder> {
    set p, s | p in c.proxies && s in c.proxies[p].held && s.instance == i :: Holder(s.tenant, p)
  }

  function LedgerMap(c: Coordinator, i: InstanceId): map<Holder, nat> {
    map h | h in LedgerHolders(c, i) :: c.Occupied(h.proxy, Slot(i, h.tenant))
  }

  /** `occupied_on`, before it saturates: what the proxies may hold on an instance between them. */
  ghost function Ledger(c: Coordinator, i: InstanceId): nat { Total(LedgerMap(c, i)) }

  lemma LedgerAt(c: Coordinator, i: InstanceId, h: Holder)
    ensures At(LedgerMap(c, i), h) == c.Occupied(h.proxy, Slot(i, h.tenant))
  {
    if h.proxy in c.proxies && Slot(i, h.tenant) in c.proxies[h.proxy].held {
      assert Holder(Slot(i, h.tenant).tenant, h.proxy) in LedgerHolders(c, i);
    }
  }

  // ----------------------------------------------------------------- steps

  /** One proxy's ledger and published grants after its grants went from `before` to `after`. */
  function Refenced(ps: ProxyState, before: map<Slot, nat>, after: map<Slot, nat>, generation: nat): ProxyState {
    if before == after then ps else
      var kept := set s | s in ps.held.Keys + before.Keys + after.Keys
                          && (s in ps.held || At(before, s) != At(after, s))
                          && (NewHeld(ps, before, after, generation, s).occupied > 0 || s in after);
      ps.(held := map s | s in kept :: NewHeld(ps, before, after, generation, s),
          published := GrantSet(generation, after))
  }

  function NewHeld(ps: ProxyState, before: map<Slot, nat>, after: map<Slot, nat>, generation: nat, s: Slot): Held {
    if At(before, s) != At(after, s) then Held(generation, Max(ps.Occupied(s), At(after, s)))
    else if s in ps.held then ps.held[s]
    else Held(0, 0)
  }

  predicate GrantsMove(c: Coordinator, table: Table) {
    exists p :: p in c.proxies && Published(c.table, p) != Published(table, p)
  }

  /** `reconcile` from the desired state on: write the table, move the generation if any grant
      moved, fence the slots that moved and publish.  A proxy none of whose grants moved is left
      as it is, so when nothing moved only the table is written. */
  function Reconciled(c: Coordinator, entry: Table): Coordinator {
    var table := c.table + entry;
    c.(table := table,
       generation := if GrantsMove(c, table) then c.generation + 1 else c.generation,
       proxies := Republished(c.proxies, c.table, table, c.generation + 1))
  }

  /** Every proxy, fenced by what moved for it between two tables. */
  function Republished(proxies: map<ProxyId, ProxyState>, before: Table, after: Table, generation: nat)
    : map<ProxyId, ProxyState>
  {
    map p | p in proxies :: Refenced(proxies[p], Published(before, p), Published(after, p), generation)
  }

  /** `report_for`. */
  function Reported(c: Coordinator, p: ProxyId, r: Report): Coordinator {
    if p !in c.proxies then c
    else c.(proxies := c.proxies[p := ReportedBy(c.proxies[p], Published(c.table, p), r)])
  }

  function ReportedHeld(h: Held, grant: nat, s: Slot, r: Report): Held {
    if h.changedAt <= r.generation then h.(occupied := Max(grant, r.Actual(s))) else h
  }

  function ReportedBy(ps: ProxyState, granted: map<Slot, nat>, r: Report): ProxyState {
    ps.(demand := map s | s in r.usage :: r.usage[s].demand,
        held := map s | s in ps.held
                        && (ReportedHeld(ps.held[s], At(granted, s), s, r).occupied > 0 || s in granted)
                :: ReportedHeld(ps.held[s], At(granted, s), s, r))
  }

  /** The first half of `withdraw_proxy`; a reconcile follows. */
  function Withdrawn(c: Coordinator, p: ProxyId): Coordinator {
    if p !in c.proxies then c
    else c.(proxies := c.proxies[p := c.proxies[p].(departed := true, demand := map[], held := map[])])
  }

  /** `channel`. */
  function Registered(c: Coordinator, p: ProxyId): Coordinator {
    if p in c.proxies then c else c.(proxies := c.proxies[p := NewProxy])
  }

  // ------------------------------------------------------------ accessor lemmas

  lemma RefencedAt(ps: ProxyState, before: map<Slot, nat>, after: map<Slot, nat>, generation: nat, s: Slot)
    ensures var ps' := Refenced(ps, before, after, generation);
            && ps'.Occupied(s) ==
               (if At(before, s) != At(after, s) then Max(ps.Occupied(s), At(after, s)) else ps.Occupied(s))
            && (s in ps'.held && At(before, s) != At(after, s) ==> ps'.held[s].changedAt == generation)
            && (s in ps'.held && At(before, s) == At(after, s) ==> s in ps.held && ps'.held[s] == ps.held[s])
            && ps'.departed == ps.departed && ps'.demand == ps.demand
            && (forall t :: t in ps'.held ==> t in ps.held || At(before, t) != At(after, t))
  {
  }

  /** When its grants move, a proxy's slot is forgotten exactly when it counts for nothing and is not
      granted. */
  lemma RefencedForgets(ps: ProxyState, before: map<Slot, nat>, after: map<Slot, nat>, generation: nat, s: Slot)
    requires before != after
    ensures var ps' := Refenced(ps, before, after, generation);
            s in ps'.held <==> (s in ps.held || At(before, s) != At(after, s)) && (ps'.Occupied(s) > 0 || s in after)
  {
  }

  lemma ReconciledAt(c: Coordinator, entry: Table, p: ProxyId, s: Slot)
    requires p in c.proxies
    ensures var c' := Reconciled(c, entry);
            var was, now := Granted(c.table, p, s), Granted(c'.table, p, s);
            && p in c'.proxies
            && c'.Occupied(p, s) == (if was != now then Max(c.Occupied(p, s), now) else c.Occupied(p, s))
            && c'.proxies[p].departed == c.proxies[p].departed
            && (s in c'.proxies[p].held && was != now ==>
                  c'.proxies[p].held[s].changedAt == c'.generation == c.generation + 1)
            && (s in c'.proxies[p].held && was == now ==>
                  s in c.proxies[p].held && c'.proxies[p].held[s] == c.proxies[p].held[s])
  {
    PublishedIsGranted(c.table, p, s);
    PublishedIsGranted(c.table + entry, p, s);
    RefencedAt(c.proxies[p], Published(c.table, p), Published(c.table + entry, p), c.generation + 1, s);
  }

  /** A proxy whose grants moved is sent them under the new generation, and nobody else is. */
  lemma ReconciledPublishes(c: Coordinator, entry: Table, p: ProxyId)
    requires p in c.proxies
    ensures var c' := Reconciled(c, entry);
            c'.proxies[p].published == (if Published(c.table, p) == Published(c'.table, p)
                                        then c.proxies[p].published
                                        else GrantSet(c'.generation, Published(c'.table, p)))
  {
  }

  /** A report makes its proxy's slot forgotten exactly when it then counts for nothing and is not granted. */
  lemma ReportedForgets(c: Coordinator, p: ProxyId, r: Report, s: Slot)
    requires p in c.proxies
    ensures var ps' := Reported(c, p, r).proxies[p];
            s in ps'.held <==> s in c.proxies[p].held && (ps'.Occupied(s) > 0 || s in Published(c.table, p))
  {
  }

  /** A report replaces what its proxy asks for by what it says, slot by slot, and nothing else that is
      asked for. */
  lemma ReportedDemand(c: Coordinator, p: ProxyId, r: Report, q: ProxyId, s: Slot)
    requires p in c.proxies && q in c.proxies
    ensures q in Reported(c, p, r).proxies
    ensures Reported(c, p, r).proxies[q].Wanted(s)
            == if q != p then c.proxies[q].Wanted(s) else if s in r.usage then r.usage[s].demand else 0
    ensures q != p ==> Reported(c, p, r).proxies[q] == c.proxies[q]
    ensures Reported(c, p, r).table == c.table && Reported(c, p, r).policies == c.policies
  {
  }

  /** A withdrawn proxy asks for nothing, holds nothing and is gone; the others are as they were. */
  lemma WithdrawnForgets(c: Coordinator, p: ProxyId, q: ProxyId, s: Slot)
    requires p in c.proxies && q in c.proxies
    ensures q in Withdrawn(c, p).proxies
    ensures !Withdrawn(c, p).Live(p) && Withdrawn(c, p).proxies[p].Wanted(s) == 0 && Withdrawn(c, p).Occupied(p, s) == 0
    ensures q != p ==> Withdrawn(c, p).proxies[q] == c.proxies[q]
  {
  }

  lemma ReportedAt(c: Coordinator, p: ProxyId, r: Report, s: Slot)
    requires p in c.proxies
    ensures var ps, ps' := c.proxies[p], Reported(c, p, r).proxies[p];
            && ps'.Occupied(s) == (if s in ps.held && ps.held[s].changedAt <= r.generation
                                   then Max(Granted(c.table, p, s), r.Actual(s)) else ps.Occupied(s))
            && (s in ps'.held ==> s in ps.held && ps'.held[s].changedAt == ps.held[s].changedAt)
            && ps'.departed == ps.departed && ps'.published == ps.published
  {
    PublishedIsGranted(c.table, p, s);
  }
}
