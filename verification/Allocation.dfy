/** The allocation table (crates/core/src/allocation.rs). */
module Allocation {
  import opened Numbers

  // Ids are only ever compared.
  type InstanceId = int
  type TenantId = int
  type ProxyId = int

  datatype Holder = Holder(tenant: TenantId, proxy: ProxyId)

  /** One instance's desired state, with the running total of its grants. */
  datatype Desired = Desired(budget: u32, granted: map<Holder, nat>, total: nat)
  {
    /** A holder granted nothing is left out, and the total is what is granted. */
    ghost predicate Valid() {
      && total == Total(granted)
      && forall h :: h in granted ==> granted[h] > 0
    }

    function Grant(holder: Holder, slots: nat): Desired
      requires At(granted, holder) <= total
    {
      Desired(budget,
              if slots == 0 then granted - {holder} else granted[holder := slots],
              total - At(granted, holder) + slots)
    }

    /** The running total stays exact whatever a grant replaces, so it cannot underflow either. */
    lemma GrantKeepsTotal(holder: Holder, slots: nat)
      requires Valid()
      ensures At(granted, holder) <= total
      ensures Grant(holder, slots).Valid()
      ensures At(Grant(holder, slots).granted, holder) == slots
      ensures forall h :: h != holder ==> At(Grant(holder, slots).granted, h) == At(granted, h)
    {
      TotalPut(granted, holder, slots);
      TotalRemove(granted, holder);
    }
  }

  type Table = map<InstanceId, Desired>

  /** No instance is granted more than its budget. */
  ghost predicate WithinBudgets(table: Table) {
    forall i :: i in table ==> table[i].Valid() && table[i].total <= table[i].budget
  }

  predicate Fits(entry: Table) {
    forall i :: i in entry ==> entry[i].total <= entry[i].budget
  }

  /** `AllocationTable::apply`: an entry that breaks any instance's budget is rejected whole. */
  function Applied(table: Table, entry: Table): (r: Option<Table>) {
    if Fits(entry) then Some(table + entry) else None
  }

  /** Every write leaves every instance within its budget. */
  lemma AppliedHoldsBudgets(table: Table, entry: Table)
    requires WithinBudgets(table) && forall i :: i in entry ==> entry[i].Valid()
    ensures Applied(table, entry).Some? ==> WithinBudgets(Applied(table, entry).value)
    ensures Applied(table, entry).Some? <==> WithinBudgets(entry)
  {
  }
}
