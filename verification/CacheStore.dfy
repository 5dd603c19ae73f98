/**
  The weighted in-memory response store (src/cache/core.rs), one operation at a time.

  The least-recently-used order is known by its contract only: admitting a key sets its
  weight, and an eviction may choose any resident keys as long as the rest fits the limit.
  The chosen victims are an input of `Insert`.
 */
module CacheStore {
  import opened Common

  const LRU_SHARDS := 16
  const ENTRY_OVERHEAD_BYTES := 128
  const MIN_ESTIMATED_ENTRY_BYTES := 256

  datatype Namespace = Dns | Navidrome

  datatype Key = Key(namespace: Namespace, hash: bv64)

  /** A storage key: where an entry lives in the map and in the order. */
  datatype Slot = Slot(bits: bv64)

  datatype Value = Value(body: seq<byte>, storedAt: int, freshUntil: int)

  datatype Entry = Entry(namespace: Namespace, value: Value, weight: nat)

  datatype Counters = Counters(entries: int, bytes: int)

  datatype State = State(
    enabled: bool,
    limit: nat,
    data: map<Slot, Entry>,
    order: map<Slot, nat>,
    used: int,
    dns: Counters,
    navidrome: Counters)

  function Start(enabled: bool, memoryBytes: nat): State {
    State(enabled, Max(memoryBytes, LRU_SHARDS * MIN_ESTIMATED_ENTRY_BYTES), map[], map[], 0,
          Counters(0, 0), Counters(0, 0))
  }

  /** The namespace's share of a storage key. */
  function Mix(namespace: Namespace): bv64 {
    if namespace.Dns? then 0xF372_FE94_F82B_3C6E else 0xE6E5_FD29_F054_78DD
  }

  /** It is the namespace number times the golden-ratio constant, wrapped, rotated by 17. */
  lemma MixFormula(namespace: Namespace)
    ensures var number: bv64 := if namespace.Dns? then 1 else 2;
            Mix(namespace) == (number * 0x9E37_79B9_7F4A_7C15).RotateLeft(17)
  {
    var product: bv64 := if namespace.Dns? then 0x9E37_79B9_7F4A_7C15 else 0x3C6E_F372_FE94_F82A;
    assert product.RotateLeft(17) == Mix(namespace);
    Products(1, 2);
  }

  lemma Products(one: bv64, two: bv64)
    requires one == 1 && two == 2
    ensures one * 0x9E37_79B9_7F4A_7C15 == 0x9E37_79B9_7F4A_7C15 && two * 0x9E37_79B9_7F4A_7C15 == 0x3C6E_F372_FE94_F82A
  {
  }

  function StorageKey(key: Key): Slot {
    Slot(key.hash ^ Mix(key.namespace))
  }

  function Weight(value: Value): nat {
    Max(|value.body| + ENTRY_OVERHEAD_BYTES, 1)
  }

  function Add(c: Counters, entries: int, bytes: int): Counters {
    Counters(c.entries + entries, c.bytes + bytes)
  }

  function Account(s: State, namespace: Namespace, entries: int, bytes: int): State {
    match namespace
    case Dns => s.(used := s.used + bytes, dns := Add(s.dns, entries, bytes))
    case Navidrome => s.(used := s.used + bytes, navidrome := Add(s.navidrome, entries, bytes))
  }

  /** Take a key out of the data and its entry out of the books. */
  function Forget(s: State, k: Slot): State {
    if k !in s.data then s
    else Account(s.(data := s.data - {k}), s.data[k].namespace, -1, 0 - s.data[k].weight)
  }

  /** `remove_storage_key` */
  function Removed(s: State, k: Slot): State {
    if k !in s.data then s else Forget(s, k).(order := s.order - {k})
  }

  function RemoveAll(s: State, keys: seq<Slot>): State {
    if keys == [] then s
    else var last := |keys| - 1; Removed(RemoveAll(s, keys[..last]), keys[last])
  }

  /** The victims leave the order at once and then, one by one, the data. */
  function ForgetAll(s: State, victims: seq<Slot>): State {
    if victims == [] then s
    else var last := |victims| - 1; Forget(ForgetAll(s, victims[..last]), victims[last])
  }

  function Keys(victims: seq<Slot>): set<Slot> {
    set k | k in victims
  }

  /** The entry takes the slot, whoever had it before. */
  function Occupied(s: State, k: Slot, e: Entry): State {
    var s0 := if k in s.data then Account(s, s.data[k].namespace, -1, 0 - s.data[k].weight) else s;
    Account(s0.(data := s.data[k := e], order := s.order[k := e.weight]), e.namespace, 1, e.weight)
  }

  function Replaced(s: State, key: Key, value: Value): State {
    Occupied(s, StorageKey(key), Entry(key.namespace, value, Weight(value)))
  }

  predicate Accepts(s: State, value: Value) {
    s.enabled && Weight(value) <= s.limit
  }

  function Insert(s: State, key: Key, value: Value, victims: seq<Slot>): State {
    if !Accepts(s, value) then s
    else
      var s1 := Replaced(s, key, value);
      ForgetAll(s1.(order := s1.order - Keys(victims)), victims)
  }

  datatype Found = Hit(value: Value) | Miss | Expired

  function Lookup(s: State, key: Key, now: int): Found {
    var k := StorageKey(key);
    if !s.enabled || k !in s.data || s.data[k].namespace != key.namespace then Miss
    else if now < s.data[k].value.freshUntil then Hit(s.data[k].value)
    else Expired
  }

  function AfterLookup(s: State, key: Key, now: int): State {
    if Lookup(s, key, now).Expired? then Removed(s, StorageKey(key)) else s
  }

  // ----- the program's own form -------------------------------------------------------------------------

  class PingolaCache {
    const enabled: bool
    const memoryLimit: nat
    var data: map<Slot, Entry>
    var order: map<Slot, nat>
    var bytesUsed: int
    var dns: Counters
    var navidrome: Counters

    function Abs(): State
      reads this
    {
      State(enabled, memoryLimit, data, order, bytesUsed, dns, navidrome)
    }

    constructor (enabled: bool, memoryBytes: nat)
      ensures Abs() == Start(enabled, memoryBytes)
    {
      this.enabled, memoryLimit := enabled, Max(memoryBytes, LRU_SHARDS * MIN_ESTIMATED_ENTRY_BYTES);
      data, order, bytesUsed, dns, navidrome := map[], map[], 0, Counters(0, 0), Counters(0, 0);
    }

    method AccountInsert(namespace: Namespace, weight: nat)
      modifies `bytesUsed, `dns, `navidrome
      ensures Abs() == Account(old(Abs()), namespace, 1, weight)
    {
      bytesUsed := bytesUsed + weight;
      if namespace.Dns? { dns := Add(dns, 1, weight); } else { navidrome := Add(navidrome, 1, weight); }
    }

    method AccountRemove(namespace: Namespace, weight: nat)
      modifies `bytesUsed, `dns, `navidrome
      ensures Abs() == Account(old(Abs()), namespace, -1, 0 - weight)
    {
      bytesUsed := bytesUsed - weight;
      if namespace.Dns? { dns := Add(dns, -1, 0 - weight); } else { navidrome := Add(navidrome, -1, 0 - weight); }
    }

    method RemoveStorageKey(k: Slot) returns (removed: bool)
      modifies this
      ensures Abs() == Removed(old(Abs()), k) && removed == (k in old(data))
    {
      if k !in data { return false; }
      var entry := data[k];
      data := data - {k};
      AccountRemove(entry.namespace, entry.weight);
      order := order - {k};
      return true;
    }

    method Find(key: Key, now: int) returns (found: Found)
      modifies this
      ensures found == Lookup(old(Abs()), key, now) && Abs() == AfterLookup(old(Abs()), key, now)
    {
      if !enabled { return Miss; }
      var k := StorageKey(key);
      if k !in data || data[k].namespace != key.namespace { return Miss; }
      if now < data[k].value.freshUntil { return Hit(data[k].value); }
      var _ := RemoveStorageKey(k);
      return Expired;
    }

    /** Drops the evicted keys from the data; the order has already dropped them. */
    method ForgetVictims(victims: seq<Slot>)
      modifies this
      ensures Abs() == ForgetAll(old(Abs()), victims)
    {
      for i := 0 to |victims|
        invariant Abs() == ForgetAll(old(Abs()), victims[..i])
      {
        var k := victims[i];
        assert victims[..i + 1][..i] == victims[..i];
        if k in data {
          var entry := data[k];
          data := data - {k};
          AccountRemove(entry.namespace, entry.weight);
        }
      }
      assert victims[..|victims|] == victims;
    }

    method Replace(key: Key, value: Value)
      modifies this
      ensures Abs() == Replaced(old(Abs()), key, value)
    {
      var k, weight, was := StorageKey(key), Weight(value), data;
      data := data[k := Entry(key.namespace, value, weight)];
      if k in was { AccountRemove(was[k].namespace, was[k].weight); }
      AccountInsert(key.namespace, weight);
      order := order[k := weight];
    }

    method Put(key: Key, value: Value, victims: seq<Slot>) returns (inserted: bool)
      modifies this
      ensures Abs() == Insert(old(Abs()), key, value, victims) && inserted == Accepts(old(Abs()), value)
    {
      if !enabled { return false; }
      if Weight(value) > memoryLimit { return false; }
      Replace(key, value);
      order := order - Keys(victims);
      ForgetVictims(victims);
      return true;
    }

    method PurgeNamespace(namespace: Namespace) returns (removed: nat)
      modifies this
      ensures exists keys :: Lists(old(Abs()), namespace, keys) && Abs() == RemoveAll(old(Abs()), keys)
                             && removed == |keys|
    {
      ghost var s := Abs();
      var todo := set k | k in data && data[k].namespace == namespace;
      ghost var keys: seq<Slot> := [];
      removed := 0;
      while todo != {}
        invariant Abs() == RemoveAll(s, keys) && removed == |keys| && NoDup(keys)
        invariant forall k :: k in todo ==> k in data && k !in keys
        invariant forall k :: k in s.data && s.data[k].namespace == namespace <==> k in todo || k in keys
        decreases |todo|
      {
        var k :| k in todo;
        var gone := RemoveStorageKey(k);
        if gone { removed := removed + 1; }
        todo := todo - {k};
        assert (keys + [k])[..|keys|] == keys;
        keys := keys + [k];
      }
      assert Lists(s, namespace, keys);
    }
  }

  /** `keys` names the namespace's storage keys, each once. */
  ghost predicate Lists(s: State, namespace: Namespace, keys: seq<Slot>) {
    NoDup(keys) && forall k :: k in keys <==> k in s.data && s.data[k].namespace == namespace
  }
}
