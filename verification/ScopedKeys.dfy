/**
 Cache keys: components are written in lowercase base16, so no caller's byte can act as a separator or
 as glob syntax, and one prefix names one tenant and user. Strings are kept as their UTF-8 bytes.
 */
module ScopedKeys {
  import opened Wrappers

  type Byte = x: int | 0 <= x < 256

  type Bytes = seq<Byte>

  /** The digits 0-9 and a-f. */
  const HEX: seq<Byte> := [48, 49, 50, 51, 52, 53, 54, 55, 56, 57, 97, 98, 99, 100, 101, 102]

  const COLON: Byte := 58

  /** "tenant:" */
  const TENANT: Bytes := [116, 101, 110, 97, 110, 116, 58]

  /** "user:" */
  const USER: Bytes := [117, 115, 101, 114, 58]

  datatype Scope = Scope(tenant: Bytes, user: Bytes)

  function HexPair(b: Byte): Bytes {
    [HEX[b / 16], HEX[b % 16]]
  }

  function Hex(value: Bytes): (hex: Bytes)
    ensures |hex| == 2 * |value|
    ensures COLON !in hex
  {
    if value == [] then [] else Hex(value[..|value| - 1]) + HexPair(value[|value| - 1])
  }

  method KeyComponent(value: Bytes) returns (output: Bytes)
    ensures output == Hex(value)
  {
    output := [];
    for i := 0 to |value|
      invariant output == Hex(value[..i])
    {
      assert value[..i + 1][..i] == value[..i];
      output := output + [HEX[value[i] / 16]];
      output := output + [HEX[value[i] % 16]];
    }
    assert value[..|value|] == value;
  }

  function NamespacedKey(namespace: Bytes, key: Bytes): Bytes {
    Hex(namespace) + [COLON] + Hex(key)
  }

  function ScopedKey(s: Scope, key: Bytes): Result<Bytes, string> {
    if s.tenant == [] || s.user == [] then Failure("Redis tenant and user required")
    else Success(Keyed(s, key))
  }

  function Keyed(s: Scope, key: Bytes): Bytes {
    TENANT + (Hex(s.tenant) + [COLON] + (USER + (Hex(s.user) + [COLON] + key)))
  }

  // ---- Base16 ----

  lemma HexPairInjective(a: Byte, b: Byte)
    requires HexPair(a) == HexPair(b)
    ensures a == b
  {
    assert forall i, j :: 0 <= i < j < 16 ==> HEX[i] != HEX[j];
    assert HexPair(a)[0] == HexPair(b)[0] && HexPair(a)[1] == HexPair(b)[1];
    assert a / 16 == b / 16 && a % 16 == b % 16;
  }

  lemma {:induction false} HexTake(value: Bytes, n: nat)
    requires n <= |value|
    ensures Hex(value)[..2 * n] == Hex(value[..n])
  {
    var last := |value| - 1;
    if n == |value| {
      assert value[..n] == value;
    } else {
      HexTake(value[..last], n);
      assert value[..last][..n] == value[..n];
      assert Hex(value)[..2 * n] == Hex(value[..last])[..2 * n];
    }
  }

  lemma HexLast(value: Bytes)
    requires value != []
    ensures var n := |value| - 1; Hex(value)[..2 * n] == Hex(value[..n]) && Hex(value)[2 * n..] == HexPair(value[n])
  {
    hide HexPair;
    HexTake(value, |value| - 1);
  }

  lemma {:induction false} HexInjective(a: Bytes, b: Bytes)
    requires Hex(a) == Hex(b)
    ensures a == b
  {
    hide Hex, HexPair;
    assert |a| == |b|;
    if a != [] {
      var n := |a| - 1;
      HexLast(a);
      HexLast(b);
      HexInjective(a[..n], b[..n]);
      HexPairInjective(a[n], b[n]);
      assert a == a[..n] + [a[n]] && b == b[..n] + [b[n]];
    }
  }

  /** Base16 is injective, and preserves and reflects prefixes. */
  lemma HexPrefix(a: Bytes, b: Bytes)
    ensures Hex(a) <= Hex(b) <==> a <= b
  {
    if a <= b {
      HexTake(b, |a|);
      assert b[..|a|] == a;
    }
    if Hex(a) <= Hex(b) {
      HexTake(b, |a|);
      assert Hex(b)[..2 * |a|] == Hex(a);
      HexInjective(a, b[..|a|]);
    }
  }

  /** The digit of four bits: 0 to 9, then a to f. */
  lemma DigitIs(d: nat)
    requires d < 16
    ensures HEX[d] == if d < 10 then '0' as int + d else 'a' as int + d - 10
  {
  }

  /** The bytes of an encoding: for each byte of the value its upper and its lower four bits. */
  lemma {:induction false} HexAt(value: Bytes, i: nat)
    requires i < |value|
    ensures var upper, lower := value[i] / 16, value[i] % 16;
            && Hex(value)[2 * i] == (if upper < 10 then '0' as int + upper else 'a' as int + upper - 10)
            && Hex(value)[2 * i + 1] == if lower < 10 then '0' as int + lower else 'a' as int + lower - 10
  {
    var n := |value| - 1;
    DigitIs(value[i] / 16);
    DigitIs(value[i] % 16);
    if i < n {
      HexAt(value[..n], i);
    }
  }

  /** Nothing in a key is glob syntax or a separator, so matching it with a trailing star is matching a prefix. */
  lemma NoGlobSyntax(value: Bytes)
    ensures forall i :: 0 <= i < |Hex(value)| ==>
              && (48 <= Hex(value)[i] <= 57 || 97 <= Hex(value)[i] <= 102)
              && forall c :: c in "*?[]^-\\:" ==> Hex(value)[i] != c as int
  {
    hide Hex;
    forall i | 0 <= i < |Hex(value)|
      ensures 48 <= Hex(value)[i] <= 57 || 97 <= Hex(value)[i] <= 102
    {
      HexAt(value, i / 2);
    }
  }

  /** The fixed parts of a key are the texts "tenant:", "user:" and ":". */
  lemma PartsAre()
    ensures |TENANT| == |"tenant:"| && forall i :: 0 <= i < |TENANT| ==> TENANT[i] as char == "tenant:"[i]
    ensures |USER| == |"user:"| && forall i :: 0 <= i < |USER| ==> USER[i] as char == "user:"[i]
    ensures COLON as char == ':'
  {
  }

  // ---- Keys ----

  lemma ColonAt(a: Bytes, x: Bytes)
    requires COLON !in a
    ensures var s := a + [COLON] + x;
            && s[|a|] == COLON && (forall i :: 0 <= i < |a| ==> s[i] != COLON)
            && s[..|a|] == a && s[|a| + 1..] == x
  {
  }

  lemma PrefixParts(s: Bytes, t: Bytes, n: nat)
    requires s <= t && n < |s|
    ensures t[..n] == s[..n] && s[n + 1..] <= t[n + 1..]
  {
    assert t[..|s|] == s;
    assert t[n + 1..][..|s| - n - 1] == s[n + 1..];
  }

  /** What precedes the first colon is determined. */
  lemma FirstColon(a: Bytes, x: Bytes, b: Bytes, y: Bytes)
    requires COLON !in a && COLON !in b
    ensures a + [COLON] + x <= b + [COLON] + y <==> a == b && x <= y
  {
    var left, right := a + [COLON] + x, b + [COLON] + y;
    ColonAt(a, x);
    ColonAt(b, y);
    if left <= right {
      assert right[|a|] == COLON;
      assert |a| >= |b|;
      assert left[|b|] == right[|b|];
      assert |a| == |b|;
      PrefixParts(left, right, |a|);
    }
    if a == b && x <= y {
      assert right == left + y[|x|..];
    }
  }

  lemma SameHead(head: Bytes, x: Bytes, y: Bytes)
    ensures head + x <= head + y <==> x <= y
  {
    if head + x <= head + y {
      assert forall i :: 0 <= i < |x| ==> x[i] == (head + x)[|head| + i] == (head + y)[|head| + i] == y[i];
    }
  }

  /** A namespaced prefix matches exactly the keys of its namespace that start with the prefix. */
  lemma NamespaceMatches(namespace: Bytes, prefix: Bytes, other: Bytes, key: Bytes)
    ensures NamespacedKey(namespace, prefix) <= NamespacedKey(other, key) <==> namespace == other && prefix <= key
  {
    FirstColon(Hex(namespace), Hex(prefix), Hex(other), Hex(key));
    HexPrefix(prefix, key);
    if Hex(namespace) == Hex(other) {
      HexInjective(namespace, other);
    }
  }

  lemma ScopeMatches(s: Scope, other: Scope, key: Bytes)
    ensures Keyed(s, []) <= Keyed(other, key) <==> s == other
  {
    var rest, rest' := USER + (Hex(s.user) + [COLON] + []), USER + (Hex(other.user) + [COLON] + key);
    SameHead(TENANT, Hex(s.tenant) + [COLON] + rest, Hex(other.tenant) + [COLON] + rest');
    FirstColon(Hex(s.tenant), rest, Hex(other.tenant), rest');
    SameHead(USER, Hex(s.user) + [COLON] + [], Hex(other.user) + [COLON] + key);
    FirstColon(Hex(s.user), [], Hex(other.user), key);
    if Hex(s.tenant) == Hex(other.tenant) {
      HexInjective(s.tenant, other.tenant);
    }
    if Hex(s.user) == Hex(other.user) {
      HexInjective(s.user, other.user);
    }
  }

  /** Among keys built by scoped_key, a scope's invalidation pattern matches all keys of that namespace, tenant and user and no others. */
  lemma ScopePatternIsExact(namespace: Bytes, s: Scope, other: Bytes, scope: Scope, key: Bytes)
    requires ScopedKey(s, []).Success? && ScopedKey(scope, key).Success?
    ensures NamespacedKey(namespace, ScopedKey(s, []).value) <= NamespacedKey(other, ScopedKey(scope, key).value)
            <==> (namespace == other && s == scope)
  {
    NamespaceMatches(namespace, Keyed(s, []), other, Keyed(scope, key));
    ScopeMatches(s, scope, key);
  }

  // ---- Invalidation ----

  type Store<V> = map<Bytes, V>

  /** All that others wrote during the first `n` rounds. */
  function Arrived<V>(rounds: seq<Store<V>>): Store<V> {
    if rounds == [] then map[] else Arrived(rounds[..|rounds| - 1]) + rounds[|rounds| - 1]
  }

  /** The server's promise: a full iteration visits every key that was there all along. */
  ghost predicate Visits<V>(store: Store<V>, batches: seq<seq<Bytes>>) {
    forall k :: k in store ==> exists i :: 0 <= i < |batches| && k in batches[i]
  }

  ghost predicate SameAt<V>(a: Store<V>, b: Store<V>, k: Bytes) {
    (k in b <==> k in a) && (k in a && k in b ==> a[k] == b[k])
  }

  /** Keys outside the pattern are those before and those that arrived. */
  ghost predicate Untouched<V>(before: Store<V>, store: Store<V>, arrived: Store<V>, pattern: Bytes) {
    forall k :: !(pattern <= k) ==> SameAt(before + arrived, store, k)
  }

  /** Matching keys left were there before or arrived; those of the batches done can only have arrived. */
  ghost predicate Swept<V>(before: Store<V>, store: Store<V>, batches: seq<seq<Bytes>>, arrived: Store<V>, pattern: Bytes) {
    && (forall k :: pattern <= k && k in store ==> k in before || k in arrived)
    && (forall k, i :: 0 <= i < |batches| && k in batches[i] && pattern <= k && k in store ==> k in arrived)
  }

  lemma SweptNone<V>(before: Store<V>, batches: seq<seq<Bytes>>, arrivals: seq<Store<V>>, pattern: Bytes)
    ensures Untouched(before, before, Arrived(arrivals[..0]), pattern)
    ensures Swept(before, before, batches[..0], Arrived(arrivals[..0]), pattern)
  {
    assert before + Arrived(arrivals[..0]) == before;
  }

  lemma SweptMore<V>(before: Store<V>, swept: Store<V>, store: Store<V>, batches: seq<seq<Bytes>>, arrivals: seq<Store<V>>, cursor: nat, pattern: Bytes)
    requires cursor < |batches| == |arrivals|
    requires Untouched(before, swept, Arrived(arrivals[..cursor]), pattern)
    requires Swept(before, swept, batches[..cursor], Arrived(arrivals[..cursor]), pattern)
    requires store == (swept + arrivals[cursor]) - set k | k in batches[cursor] && pattern <= k
    ensures Untouched(before, store, Arrived(arrivals[..cursor + 1]), pattern)
    ensures Swept(before, store, batches[..cursor + 1], Arrived(arrivals[..cursor + 1]), pattern)
  {
    assert arrivals[..cursor + 1][..cursor] == arrivals[..cursor];
    var arrived, more, all, done := Arrived(arrivals[..cursor]), Arrived(arrivals[..cursor + 1]), before + Arrived(arrivals[..cursor + 1]), batches[..cursor + 1];
    assert more == arrived + arrivals[cursor];
    hide Arrived;
    forall k | !(pattern <= k)
      ensures SameAt(all, store, k)
    {
      assert SameAt(before + arrived, swept, k);
    }
    forall k, i | 0 <= i < |done| && k in done[i] && pattern <= k && k in store
      ensures k in more
    {
      if i < cursor {
        assert batches[..cursor][i] == done[i];
      }
    }
  }

  lemma SweptAll<V>(before: Store<V>, store: Store<V>, batches: seq<seq<Bytes>>, arrived: Store<V>, pattern: Bytes)
    requires Visits(before, batches) && Swept(before, store, batches, arrived, pattern)
    ensures forall k :: pattern <= k && k in store ==> k in arrived
  {
  }

  class RedisAdapter<V> {
    const namespace: Bytes
    var store: Store<V>

    /** UNLINK of a reply. */
    method Unlink(keys: seq<Bytes>)
      modifies this
      ensures store == old(store) - set k | k in keys
    {
      for i := 0 to |keys|
        invariant store == old(store) - set k | k in keys[..i]
      {
        store := store - {keys[i]};
        assert keys[..i + 1] == keys[..i] + [keys[i]];
      }
      assert keys[..|keys|] == keys;
    }

    /** The present keys of a batch that match. */
    method Scan(batch: seq<Bytes>, pattern: Bytes) returns (keys: seq<Bytes>)
      ensures forall k :: k in keys <==> k in batch && k in store && pattern <= k
    {
      keys := [];
      for i := 0 to |batch|
        invariant forall k :: k in keys <==> k in batch[..i] && k in store && pattern <= k
      {
        assert batch[..i + 1] == batch[..i] + [batch[i]];
        if batch[i] in store && pattern <= batch[i] {
          keys := keys + [batch[i]];
        }
      }
      assert batch[..|batch|] == batch;
    }

    /** One round: others have written meanwhile, then the matching keys of the reply go. */
    method SweepRound(batch: seq<Bytes>, arrival: Store<V>, pattern: Bytes)
      modifies this
      ensures store == (old(store) + arrival) - set k | k in batch && pattern <= k
    {
      store := store + arrival;
      ghost var filled := store;
      var keys := Scan(batch, pattern);
      if keys != [] {
        Unlink(keys);
      }
      assert store == filled - set k | k in batch && pattern <= k;
    }

    /**
     The cursor loop, with others writing between two rounds: keys that do not match are exactly
     those there before and those written meanwhile; of the matching ones only keys that others wrote
     during the loop can be left.
     */
    method InvalidatePrefix(prefix: Bytes, batches: seq<seq<Bytes>>, arrivals: seq<Store<V>>)
      requires Visits(store, batches) && |arrivals| == |batches| > 0
      modifies this
      ensures Untouched(old(store), store, Arrived(arrivals), NamespacedKey(namespace, prefix))
      ensures forall k :: NamespacedKey(namespace, prefix) <= k && k in store ==> k in Arrived(arrivals)
    {
      var pattern := NamespacedKey(namespace, prefix);
      hide NamespacedKey, Untouched, Swept, Arrived;
      ghost var before := store;
      var cursor := 0;
      SweptNone(before, batches, arrivals, pattern);
      while true
        invariant 0 <= cursor < |batches|
        invariant Untouched(before, store, Arrived(arrivals[..cursor]), pattern)
        invariant Swept(before, store, batches[..cursor], Arrived(arrivals[..cursor]), pattern)
        decreases |batches| - cursor
      {
        ghost var swept := store;
        SweepRound(batches[cursor], arrivals[cursor], pattern);
        SweptMore(before, swept, store, batches, arrivals, cursor, pattern);
        var next := if cursor + 1 == |batches| then 0 else cursor + 1;
        if next == 0 {
          assert arrivals[..cursor + 1] == arrivals && batches[..cursor + 1] == batches;
          SweptAll(before, store, batches, Arrived(arrivals), pattern);
          break;
        }
        cursor := next;
      }
    }

    method InvalidateScope(s: Scope, batches: seq<seq<Bytes>>, arrivals: seq<Store<V>>) returns (accepted: bool)
      requires Visits(store, batches) && |arrivals| == |batches| > 0
      modifies this
      ensures accepted <==> s.tenant != [] && s.user != []
      ensures !accepted ==> store == old(store)
      ensures accepted ==> forall other, scope, key :: ScopedKey(scope, key).Success? ==>
                var k := NamespacedKey(other, Keyed(scope, key));
                if other == namespace && scope == s then k in store ==> k in Arrived(arrivals)
                else SameAt(old(store) + Arrived(arrivals), store, k)
    {
      if ScopedKey(s, []).Failure? {
        return false;
      }
      InvalidatePrefix(Keyed(s, []), batches, arrivals);
      forall other, scope, key | ScopedKey(scope, key).Success?
        ensures NamespacedKey(namespace, Keyed(s, [])) <= NamespacedKey(other, Keyed(scope, key)) <==> (namespace == other && s == scope)
      {
        ScopePatternIsExact(namespace, s, other, scope, key);
      }
      return true;
    }
  }
}
