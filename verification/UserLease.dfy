/**
 The lifecycle lease of one user: a row without a fence. Whoever comes after its time takes it over, and
 nothing stops the worker that held it from going on.
 */
module UserLease {
  import opened Wrappers

  type Owner = string
  type Time = nat

  const LEASE_SECONDS: nat := 300

  datatype Lease = Lease(owner: Owner, until: Time)

  /** WHERE locked_until IS NULL OR locked_until <= now OR locked_by = owner; a renewal is one more claim. */
  predicate Admits(row: Option<Lease>, owner: Owner, now: Time) {
    row.Some? ==> row.value.until <= now || row.value.owner == owner
  }

  function Claimed(owner: Owner, now: Time): Lease {
    Lease(owner, now + LEASE_SECONDS)
  }

  /** WHERE locked_by = owner. */
  function Released(row: Option<Lease>, owner: Owner): Option<Lease> {
    if row.Some? && row.value.owner == owner then None else row
  }
}
