/**
 The runtime-state table of one tenant and its fenced leases.

 Every SQL transaction is one atomic step. The step functions below give the new table and the
 answer; the class StateTable performs them on a table that is updated in place.
 */
module Leases {
  import opened Wrappers

  type Key = string
  type Owner = nat
  type Time = int

  /** A JSON document: only its top-level "status" field matters to the table itself. */
  datatype Doc<V> = EmptyDoc | Doc(status: Option<string>, body: V)

  datatype Row<V> = Row(value: Doc<V>, lockedBy: Option<Owner>, lockedUntil: Option<Time>, fence: nat)

  type Table<V> = map<Key, Row<V>>

  datatype LeaseClaim = LeaseClaim(key: Key, owner: Owner, fence: nat)

  datatype GuardedWrite<V> = Applied | Superseded(existing: Doc<V>) | LeaseLost

  predicate Terminal<V>(value: Doc<V>) {
    value.Doc? && value.status.Some? && value.status.value in {"cancelled", "completed", "terminal_failed"}
  }

  /** WHERE locked_until IS NULL OR locked_until < now OR locked_by = owner */
  predicate ClaimAdmits<V>(row: Row<V>, owner: Owner, now: Time) {
    row.lockedUntil.None? || row.lockedUntil.value < now || row.lockedBy == Some(owner)
  }

  /** The claim is the row's current lease and has not run out. */
  predicate Holds<V>(t: Table<V>, claim: LeaseClaim, now: Time) {
    && claim.key in t
    && t[claim.key].lockedBy == Some(claim.owner)
    && t[claim.key].fence == claim.fence
    && t[claim.key].lockedUntil.Some?
    && now < t[claim.key].lockedUntil.value
  }

  function Claim<V>(t: Table<V>, key: Key, owner: Owner, now: Time, lease: nat): (Table<V>, Option<LeaseClaim>) {
    if key !in t then
      (t[key := Row(EmptyDoc, Some(owner), Some(now + lease), 1)], Some(LeaseClaim(key, owner, 1)))
    else if ClaimAdmits(t[key], owner, now) then
      var fence := t[key].fence + 1;
      (t[key := t[key].(lockedBy := Some(owner), lockedUntil := Some(now + lease), fence := fence)],
       Some(LeaseClaim(key, owner, fence)))
    else
      (t, None)
  }

  function Renew<V>(t: Table<V>, claim: LeaseClaim, now: Time, lease: nat): (Table<V>, bool) {
    if Holds(t, claim, now) then
      (t[claim.key := t[claim.key].(lockedUntil := Some(now + lease))], true)
    else
      (t, false)
  }

  function Release<V>(t: Table<V>, claim: LeaseClaim): Table<V> {
    if claim.key in t && t[claim.key].lockedBy == Some(claim.owner) && t[claim.key].fence == claim.fence then
      t[claim.key := t[claim.key].(lockedBy := None, lockedUntil := None)]
    else
      t
  }

  function PutValue<V>(t: Table<V>, key: Key, value: Doc<V>): Table<V> {
    if key in t then t[key := t[key].(value := value)] else t[key := Row(value, None, None, 0)]
  }

  function SaveGuarded<V>(t: Table<V>, claim: LeaseClaim, target: Key, value: Doc<V>, now: Time): (Table<V>, GuardedWrite<V>) {
    if !Holds(t, claim, now) then
      (t, LeaseLost)
    else if target in t && Terminal(t[target].value) then
      (t, Superseded(t[target].value))
    else
      (PutValue(t, target, value), Applied)
  }

  /** Another table with the same values, and the same rows but for the one. */
  ghost predicate LocksOnly<V>(t: Table<V>, t': Table<V>, key: Key) {
    && (forall k :: k in t ==> k in t' && t'[k].value == t[k].value && (k != key ==> t'[k] == t[k]))
    && (forall k :: k in t' && k != key ==> k in t)
    && (key in t' && key !in t ==> t'[key].value == EmptyDoc)
  }

  /** Claims, renewals and releases write no value and touch no other row. */
  lemma LeasesTouchLocksOnly<V>(t: Table<V>, key: Key, owner: Owner, claim: LeaseClaim, now: Time, lease: nat)
    ensures LocksOnly(t, Claim(t, key, owner, now, lease).0, key)
    ensures LocksOnly(t, Renew(t, claim, now, lease).0, claim.key)
    ensures LocksOnly(t, Release(t, claim), claim.key)
  {
  }

  /** A claim is granted with a fence that no earlier claim of the key carries, and it is then held for its whole lease. */
  lemma ClaimedLeaseHolds<V>(t: Table<V>, key: Key, owner: Owner, now: Time, lease: nat, later: Time)
    requires Claim(t, key, owner, now, lease).1.Some?
    ensures var (t', claim) := Claim(t, key, owner, now, lease);
            && (Holds(t', claim.value, later) <==> later < now + lease)
            && (key in t ==> t[key].fence < claim.value.fence)
            && forall stale: LeaseClaim :: stale.key == key && key in t && stale.fence <= t[key].fence ==> !Holds(t', stale, later)
  {
  }

  /** A renewal succeeds exactly for the held lease, which then runs its whole time again under the same fence. */
  lemma RenewExtends<V>(t: Table<V>, claim: LeaseClaim, now: Time, lease: nat, later: Time)
    ensures var (t', renewed) := Renew(t, claim, now, lease);
            && (renewed <==> Holds(t, claim, now))
            && (renewed ==> (Holds(t', claim, later) <==> later < now + lease))
            && (!renewed ==> t' == t)
  {
  }

  /** A release gives up the caller's lease only: afterwards any owner may claim at once, while a release under an old fence changes nothing. */
  lemma ReleaseFrees<V>(t: Table<V>, claim: LeaseClaim, next: Owner, now: Time, lease: nat)
    requires claim.key in t && t[claim.key].lockedBy == Some(claim.owner)
    ensures if t[claim.key].fence == claim.fence then
              Claim(Release(t, claim), claim.key, next, now, lease).1 == Some(LeaseClaim(claim.key, next, claim.fence + 1))
            else Release(t, claim) == t
  {
  }

  /**
   A guarded save changes the target's value and nothing else, in particular not the lease it runs under;
   it gives way exactly to a value that says cancelled, completed or terminal_failed.
   */
  lemma SaveTouchesTarget<V>(t: Table<V>, claim: LeaseClaim, target: Key, value: Doc<V>, now: Time, later: Time)
    ensures var (t', written) := SaveGuarded(t, claim, target, value, now);
            && (written.LeaseLost? <==> !Holds(t, claim, now))
            && (written.Applied? ==> target in t' && t'[target].value == value)
            && (written.Superseded? <==>
                  (&& Holds(t, claim, now) && target in t && t[target].value.Doc?
                   && (t[target].value.status == Some("cancelled") || t[target].value.status == Some("completed")
                       || t[target].value.status == Some("terminal_failed"))))
            && (written.Superseded? ==> written.existing == t[target].value)
            && (!written.Applied? ==> t' == t)
            && (forall key :: key in t && key != target ==> key in t' && t'[key] == t[key])
            && (forall other: LeaseClaim :: other.key in t ==> (Holds(t', other, later) <==> Holds(t, other, later)))
  {
  }

  /** Mutual exclusion: at one instant two different claims of a key are never both held. */
  lemma LeaseExclusive<V>(t: Table<V>, a: LeaseClaim, b: LeaseClaim, now: Time)
    requires Holds(t, a, now) && Holds(t, b, now) && a.key == b.key
    ensures a == b
  {
  }

  /** The adapter's view of the table: one method per transaction. */
  class StateTable<V> {
    var rows: Table<V>

    constructor ()
      ensures rows == map[]
    {
      rows := map[];
    }

    method ClaimFenced(key: Key, owner: Owner, now: Time, lease: nat) returns (claim: Option<LeaseClaim>)
      modifies this
      ensures (rows, claim) == Claim(old(rows), key, owner, now, lease)
    {
      if key !in rows {
        rows := rows[key := Row(EmptyDoc, Some(owner), Some(now + lease), 1)];
        return Some(LeaseClaim(key, owner, 1));
      }
      var row := rows[key];
      if row.lockedUntil.Some? && row.lockedUntil.value >= now && row.lockedBy != Some(owner) {
        return None;
      }
      rows := rows[key := row.(lockedBy := Some(owner), lockedUntil := Some(now + lease), fence := row.fence + 1)];
      return Some(LeaseClaim(key, owner, row.fence + 1));
    }

    method RenewFenced(claim: LeaseClaim, now: Time, lease: nat) returns (renewed: bool)
      modifies this
      ensures (rows, renewed) == Renew(old(rows), claim, now, lease)
    {
      renewed := Holds(rows, claim, now);
      if renewed {
        rows := rows[claim.key := rows[claim.key].(lockedUntil := Some(now + lease))];
      }
    }

    method ReleaseFenced(claim: LeaseClaim)
      modifies this
      ensures rows == Release(old(rows), claim)
    {
      if claim.key in rows {
        var row := rows[claim.key];
        if row.lockedBy == Some(claim.owner) && row.fence == claim.fence {
          rows := rows[claim.key := row.(lockedBy := None, lockedUntil := None)];
        }
      }
    }

    method SaveGuardedRow(claim: LeaseClaim, target: Key, value: Doc<V>, now: Time) returns (r: GuardedWrite<V>)
      modifies this
      ensures (rows, r) == SaveGuarded(old(rows), claim, target, value, now)
    {
      if claim.key !in rows {
        return LeaseLost;
      }
      var lease := rows[claim.key];
      if lease.lockedBy != Some(claim.owner) || lease.fence != claim.fence {
        return LeaseLost;
      }
      if lease.lockedUntil.None? || lease.lockedUntil.value <= now {
        return LeaseLost;
      }
      if target in rows {
        if Terminal(rows[target].value) {
          return Superseded(rows[target].value);
        }
        rows := rows[target := rows[target].(value := value)];
      } else {
        rows := rows[target := Row(value, None, None, 0)];
      }
      return Applied;
    }
  }
}
