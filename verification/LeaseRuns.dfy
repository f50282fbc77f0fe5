/**
 The fenced leases over whole runs, against the answers they have given: the last grant of a key, until
 when it lasts, and whether it was given back. The table answers as this history says, so a lease
 excludes everybody else for its time and nobody any longer.
 */
module LeaseRuns {
  import opened Wrappers
  import opened Leases

  datatype Sys<V> = Sys(clock: Time, table: Table<V>)

  datatype Event<V> =
    | Tick(now: Time)
    | Claims(key: Key, owner: Owner, lease: nat)
    | Renews(claim: LeaseClaim, lease: nat)
    | Releases(claim: LeaseClaim)
    | Saves(claim: LeaseClaim, target: Key, value: Doc<V>)
    | Puts(target: Key, value: Doc<V>)

  function Step<V>(s: Sys<V>, e: Event<V>): Sys<V> {
    match e
    case Tick(now) => if s.clock <= now then s.(clock := now) else s
    case Claims(key, owner, lease) => s.(table := Claim(s.table, key, owner, s.clock, lease).0)
    case Renews(claim, lease) => s.(table := Renew(s.table, claim, s.clock, lease).0)
    case Releases(claim) => s.(table := Release(s.table, claim))
    case Saves(claim, target, value) => s.(table := SaveGuarded(s.table, claim, target, value, s.clock).0)
    case Puts(target, value) => s.(table := PutValue(s.table, target, value))
  }

  function Run<V>(s: Sys<V>, events: seq<Event<V>>): Sys<V> {
    if events == [] then s
    else Step(Run(s, events[..|events| - 1]), events[|events| - 1])
  }

  /** Nothing is locked. */
  predicate Start<V>(s: Sys<V>) {
    forall key :: key in s.table ==> s.table[key].lockedBy.None? && s.table[key].lockedUntil.None?
  }

  // ---- The history ----

  datatype Grant = Grant(owner: Owner, fence: nat, until: Time)

  /** The key's last grant after one more event, by the answer it got. */
  function NextGrant<V>(s: Sys<V>, last: Option<Grant>, e: Event<V>, key: Key): Option<Grant> {
    match e
    case Claims(k, owner, lease) =>
      var answer := Claim(s.table, k, owner, s.clock, lease).1;
      if k == key && answer.Some? then Some(Grant(owner, answer.value.fence, s.clock + lease)) else last
    case Renews(claim, lease) =>
      if claim.key == key && Renew(s.table, claim, s.clock, lease).1 then Some(Grant(claim.owner, claim.fence, s.clock + lease)) else last
    case Releases(claim) =>
      if claim.key == key && last.Some? && last.value.owner == claim.owner && last.value.fence == claim.fence then None else last
    case _ => last
  }

  /** The key's last grant, to where its last renewal took it, unless it was given back. */
  function LastGrant<V>(s: Sys<V>, events: seq<Event<V>>, key: Key): Option<Grant> {
    if events == [] then None
    else NextGrant(Run(s, events[..|events| - 1]), LastGrant(s, events[..|events| - 1], key), events[|events| - 1], key)
  }

  predicate Grants<V>(s: Sys<V>, e: Event<V>, key: Key) {
    e.Claims? && e.key == key && Claim(s.table, key, e.owner, s.clock, e.lease).1.Some?
  }

  /** How often the key was granted. */
  function GrantCount<V>(s: Sys<V>, events: seq<Event<V>>, key: Key): nat {
    if events == [] then 0
    else GrantCount(s, events[..|events| - 1], key) + if Grants(Run(s, events[..|events| - 1]), events[|events| - 1], key) then 1 else 0
  }

  function FenceOf<V>(t: Table<V>, key: Key): nat {
    if key in t then t[key].fence else 0
  }

  /** The row says what the history says. */
  predicate Tied<V>(t: Table<V>, key: Key, last: Option<Grant>) {
    if last.None? then key in t ==> t[key].lockedBy.None? && t[key].lockedUntil.None?
    else key in t && t[key].lockedBy == Some(last.value.owner) && t[key].lockedUntil == Some(last.value.until) && t[key].fence == last.value.fence
  }

  lemma TiedClaim<V>(s: Sys<V>, last: Option<Grant>, k: Key, owner: Owner, lease: nat, key: Key)
    requires Tied(s.table, key, last)
    ensures Tied(Step(s, Claims(k, owner, lease)).table, key, NextGrant(s, last, Claims(k, owner, lease), key))
    ensures FenceOf(Step(s, Claims(k, owner, lease)).table, key) ==
            FenceOf(s.table, key) + if Grants(s, Claims(k, owner, lease), key) then 1 else 0
  {
  }

  lemma TiedStep<V>(s: Sys<V>, last: Option<Grant>, e: Event<V>, key: Key)
    requires Tied(s.table, key, last) && !e.Claims?
    ensures Tied(Step(s, e).table, key, NextGrant(s, last, e, key)) && FenceOf(Step(s, e).table, key) == FenceOf(s.table, key)
  {
    hide Claim, Terminal;
  }

  lemma {:induction false} AlwaysTied<V>(s: Sys<V>, events: seq<Event<V>>, key: Key)
    requires Start(s)
    ensures Tied(Run(s, events).table, key, LastGrant(s, events, key))
    ensures FenceOf(Run(s, events).table, key) == FenceOf(s.table, key) + GrantCount(s, events, key)
  {
    if events != [] {
      var before, e := events[..|events| - 1], events[|events| - 1];
      AlwaysTied(s, before, key);
      hide Step, NextGrant, Tied, FenceOf;
      if e.Claims? {
        TiedClaim(Run(s, before), LastGrant(s, before, key), e.key, e.owner, e.lease, key);
      } else {
        TiedStep(Run(s, before), LastGrant(s, before, key), e, key);
      }
    }
  }

  /**
   What the table answers, over every run from an unlocked table: a claim is granted if and only if no grant
   of the key is out, or it is over, or the owner's own; under the fence that counts the grants; and a
   renewal or a guarded save passes if and only if its claim is the last grant and not over yet.
   */
  lemma AnswersFollowGrants<V>(s: Sys<V>, events: seq<Event<V>>, key: Key, owner: Owner, lease: nat, claim: LeaseClaim, target: Key, value: Doc<V>)
    requires Start(s) && claim.key == key
    ensures var end, last := Run(s, events), LastGrant(s, events, key);
            && (Claim(end.table, key, owner, end.clock, lease).1 ==
                  if last.None? || last.value.until < end.clock || last.value.owner == owner
                  then Some(LeaseClaim(key, owner, FenceOf(s.table, key) + GrantCount(s, events, key) + 1)) else None)
            && var passes := last.Some? && last.value.owner == claim.owner && last.value.fence == claim.fence && end.clock < last.value.until;
               && (Renew(end.table, claim, end.clock, lease).1 <==> passes)
               && (SaveGuarded(end.table, claim, target, value, end.clock).1.LeaseLost? <==> !passes)
  {
    hide Run, LastGrant, GrantCount, Terminal, Start;
    AlwaysTied(s, events, key);
  }

  // ---- For its time and no longer ----

  /** The owner claims, renews or gives back the key. */
  predicate Own<V>(e: Event<V>, key: Key, owner: Owner) {
    match e
    case Claims(k, o, _) => k == key && o == owner
    case Renews(claim, _) => claim.key == key && claim.owner == owner
    case Releases(claim) => claim.key == key && claim.owner == owner
    case _ => false
  }

  ghost predicate Leaves<V>(events: seq<Event<V>>, key: Key, owner: Owner) {
    forall e :: e in events ==> !Own(e, key, owner)
  }

  ghost predicate NobodyClaims<V>(events: seq<Event<V>>, key: Key) {
    forall e :: e in events ==> !(e.Claims? && e.key == key)
  }

  /** The row as the grant left it. */
  predicate Granted<V>(t: Table<V>, key: Key, owner: Owner, fence: nat, until: Time) {
    key in t && t[key].lockedBy == Some(owner) && t[key].lockedUntil == Some(until) && t[key].fence == fence
  }

  lemma {:induction false} GrantStays<V>(s: Sys<V>, events: seq<Event<V>>, key: Key, owner: Owner, fence: nat, until: Time)
    requires Granted(s.table, key, owner, fence, until) && Leaves(events, key, owner)
    requires Run(s, events).clock <= until || NobodyClaims(events, key)
    ensures Granted(Run(s, events).table, key, owner, fence, until)
  {
    hide Terminal;
    if events != [] {
      var before, e := events[..|events| - 1], events[|events| - 1];
      assert e in events && forall x :: x in before ==> x in events;
      assert Run(s, before).clock <= Run(s, events).clock;
      GrantStays(s, before, key, owner, fence, until);
    }
  }

  /**
   From a grant on, while its owner does nothing to it: until it runs out nobody else is granted the key,
   and the owner's saves pass before that; once it has run out, and nobody has claimed it, everybody is.
   */
  lemma GrantExcludes<V>(s: Sys<V>, key: Key, owner: Owner, lease: nat, later: seq<Event<V>>, other: Owner, again: nat, target: Key, value: Doc<V>)
    requires Claim(s.table, key, owner, s.clock, lease).1.Some? && Leaves(later, key, owner)
    ensures var claim := Claim(s.table, key, owner, s.clock, lease).1.value; var end := Run(Step(s, Claims(key, owner, lease)), later);
            && (end.clock <= s.clock + lease && other != owner ==> Claim(end.table, key, other, end.clock, again).1.None?)
            && (end.clock < s.clock + lease ==> !SaveGuarded(end.table, claim, target, value, end.clock).1.LeaseLost?)
            && (s.clock + lease < end.clock && NobodyClaims(later, key) ==> Claim(end.table, key, other, end.clock, again).1.Some?)
  {
    var claim, s1 := Claim(s.table, key, owner, s.clock, lease).1.value, Step(s, Claims(key, owner, lease));
    hide Run, Terminal, NobodyClaims, Leaves;
    var end := Run(s1, later);
    if end.clock <= s.clock + lease || NobodyClaims(later, key) {
      GrantStays(s1, later, key, owner, claim.fence, s.clock + lease);
    }
  }
}
