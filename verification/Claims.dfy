/** What a tenant asks of an instance, and what it is given (crates/sched/src/lib.rs). */
module Claims {
  import opened Numbers

  /** Keys are only ever compared, so any totally ordered type can stand for them. */
  type Key = int

  datatype Claim = Claim(
    key: Key,
    min: u32,
    max: u32,
    weight: NonZeroU32,
    demand: u32,
    current: nat,
    mayRelease: bool)
  {
    function Ceiling(): u32 { Min(demand, max) }

    function Guarantee(): u32 { Min(min, Ceiling()) }

    function Released(release: u32): u32 { if mayRelease then release else 0 }

    function Kept(release: u32): u32 { Min(SatSub(current, Released(release)), max) }
  }

  datatype Grants = Grants(granted: map<Key, nat>, total: nat, unmetGuarantee: nat)
  {
    function Get(key: Key): nat { if key in granted then granted[key] else 0 }

    predicate GuaranteesMet() { unmetGuarantee == 0 }
  }
}
