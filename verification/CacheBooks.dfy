/**
  Every sequential run of the response store keeps its books (src/cache/core.rs): counters,
  order and data agree, the weight stays within the limit, and a hit is the last insert.
 */
module CacheBooks {
  import opened Common
  import opened CacheStore

  // ----- sums over the stored entries ----------------------------------------------------------------------

  /** What the counters should say. */
  datatype Tally = Tally(used: int, dns: Counters, navidrome: Counters)

  function Plus(t: Tally, e: Entry): Tally {
    match e.namespace
    case Dns => t.(used := t.used + e.weight, dns := Add(t.dns, 1, e.weight))
    case Navidrome => t.(used := t.used + e.weight, navidrome := Add(t.navidrome, 1, e.weight))
  }

  /** Entry by entry, in any order: one entry and its weight to its namespace, the weight to
      the byte total. */
  ghost function Sum(data: map<Slot, Entry>): Tally
    decreases data.Keys
  {
    if data == map[] then Tally(0, Counters(0, 0), Counters(0, 0))
    else
      var k :| k in data;
      assert (data - {k}).Keys == data.Keys - {k};
      Plus(Sum(data - {k}), data[k])
  }

  lemma PlusCommutes(t: Tally, a: Entry, b: Entry)
    ensures Plus(Plus(t, a), b) == Plus(Plus(t, b), a)
  {
  }

  lemma {:induction false} SumDrop(data: map<Slot, Entry>, k: Slot)
    requires k in data
    ensures Sum(data) == Plus(Sum(data - {k}), data[k])
    decreases data.Keys
  {
    var j :| j in data && Sum(data) == Plus(Sum(data - {j}), data[j]);
    if j != k {
      assert (data - {j}).Keys == data.Keys - {j} && (data - {k}).Keys == data.Keys - {k};
      SumDrop(data - {j}, k);
      SumDrop(data - {k}, j);
      assert data - {j} - {k} == data - {k} - {j};
      PlusCommutes(Sum(data - {j} - {k}), data[j], data[k]);
    }
  }

  /** The weights the order holds, summed. */
  ghost function Total(order: map<Slot, nat>): nat
    decreases order.Keys
  {
    if order == map[] then 0
    else
      var k :| k in order;
      assert (order - {k}).Keys == order.Keys - {k};
      order[k] + Total(order - {k})
  }

  function All(data: map<Slot, Entry>): map<Slot, nat> {
    map k | k in data :: data[k].weight
  }

  lemma {:induction false} TotalIsUsed(data: map<Slot, Entry>)
    ensures Total(All(data)) == Sum(data).used
    decreases data.Keys
  {
    if data != map[] {
      var m := All(data);
      var some :| some in data;
      assert some in m;
      var k :| k in m && Total(m) == m[k] + Total(m - {k});
      assert m - {k} == All(data - {k});
      assert (data - {k}).Keys == data.Keys - {k};
      TotalIsUsed(data - {k});
      SumDrop(data, k);
    }
  }

  // ----- the books ---------------------------------------------------------------------------------------------

  /** The byte total and both namespaces' counters are the sums over the stored entries. */
  ghost predicate Books(s: State) {
    Sum(s.data) == Tally(s.used, s.dns, s.navidrome)
  }

  ghost predicate Inv(s: State) {
    Books(s) && s.order == All(s.data) && s.used <= s.limit
  }

  lemma ForgetKeeps(s: State, k: Slot)
    requires Books(s)
    ensures Books(Forget(s, k))
  {
    if k in s.data { SumDrop(s.data, k); }
  }

  lemma RemovedKeeps(s: State, k: Slot)
    requires Inv(s)
    ensures Inv(Removed(s, k))
  {
    ForgetKeeps(s, k);
    assert All(s.data - {k}) == All(s.data) - {k};
  }

  lemma {:induction false} RemoveAllKeeps(s: State, keys: seq<Slot>)
    requires Inv(s)
    ensures Inv(RemoveAll(s, keys))
    decreases |keys|
  {
    if keys != [] {
      RemoveAllKeeps(s, keys[..|keys| - 1]);
      RemovedKeeps(RemoveAll(s, keys[..|keys| - 1]), keys[|keys| - 1]);
    }
  }

  lemma {:induction false} ForgetAllKeeps(s: State, victims: seq<Slot>)
    requires Books(s)
    ensures Books(ForgetAll(s, victims))
    decreases |victims|
  {
    if victims != [] {
      ForgetAllKeeps(s, victims[..|victims| - 1]);
      ForgetKeeps(ForgetAll(s, victims[..|victims| - 1]), victims[|victims| - 1]);
    }
  }

  lemma {:induction false} ForgetAllData(s: State, victims: seq<Slot>)
    ensures var r := ForgetAll(s, victims);
            r.order == s.order && r.limit == s.limit && r.enabled == s.enabled && r.data == s.data - Keys(victims)
    decreases |victims|
  {
    if victims != [] {
      var last := |victims| - 1;
      ForgetAllData(s, victims[..last]);
      assert Keys(victims) == Keys(victims[..last]) + {victims[last]};
    }
  }

  lemma SumReplaced(data: map<Slot, Entry>, k: Slot, e: Entry) returns (rest: Tally)
    ensures Sum(data[k := e]) == Plus(rest, e)
    ensures Sum(data) == if k in data then Plus(rest, data[k]) else rest
  {
    rest := Sum(data - {k});
    SumDrop(data[k := e], k);
    assert data[k := e] - {k} == data - {k};
    if k in data { SumDrop(data, k); } else { assert data - {k} == data; }
  }

  lemma OccupiedKeeps(s: State, k: Slot, e: Entry)
    requires Books(s)
    ensures Books(Occupied(s, k, e))
  {
    var rest := SumReplaced(s.data, k, e);
  }

  lemma OccupiedOrder(s: State, k: Slot, e: Entry)
    requires s.order == All(s.data)
    ensures var r := Occupied(s, k, e); r.order == All(r.data) && r.limit == s.limit
  {
  }

  /** What the order promises of an eviction: the rest fits. */
  ghost predicate Evicts(s: State, key: Key, value: Value, victims: seq<Slot>) {
    Accepts(s, value) ==> Total(Replaced(s, key, value).order - Keys(victims)) <= s.limit
  }

  lemma InsertKeeps(s: State, key: Key, value: Value, victims: seq<Slot>)
    requires Inv(s) && Evicts(s, key, value, victims)
    ensures Inv(Insert(s, key, value, victims))
  {
    if Accepts(s, value) {
      OccupiedKeeps(s, StorageKey(key), Entry(key.namespace, value, Weight(value)));
      OccupiedOrder(s, StorageKey(key), Entry(key.namespace, value, Weight(value)));
      var s1 := Replaced(s, key, value);
      EvictionKeeps(s1, victims);
    }
  }

  lemma EvictionKeeps(s: State, victims: seq<Slot>)
    requires Books(s) && s.order == All(s.data) && Total(s.order - Keys(victims)) <= s.limit
    ensures Inv(ForgetAll(s.(order := s.order - Keys(victims)), victims))
  {
    var s1 := s.(order := s.order - Keys(victims));
    ForgetAllKeeps(s1, victims);
    ForgetAllData(s1, victims);
    assert All(s.data - Keys(victims)) == All(s.data) - Keys(victims);
    TotalIsUsed(s.data - Keys(victims));
  }

  /** The contract can always be met. */
  lemma SomeEvictionFits(s: State, key: Key, value: Value, victims: seq<Slot>)
    requires forall k :: k in Replaced(s, key, value).order ==> k in victims
    ensures Evicts(s, key, value, victims)
  {
    assert Replaced(s, key, value).order - Keys(victims) == map[];
  }

  // ----- runs ------------------------------------------------------------------------------------------------------

  datatype Op =
    | DoInsert(key: Key, value: Value, victims: seq<Slot>)
    | DoLookup(key: Key, now: int)
    | DoRemove(key: Key)
    | DoPurge(namespace: Namespace, keys: seq<Slot>)

  function Step(s: State, op: Op): State {
    match op
    case DoInsert(key, value, victims) => Insert(s, key, value, victims)
    case DoLookup(key, now) => AfterLookup(s, key, now)
    case DoRemove(key) => Removed(s, StorageKey(key))
    case DoPurge(_, keys) => RemoveAll(s, keys)
  }

  ghost predicate Allowed(s: State, op: Op) {
    match op
    case DoInsert(key, value, victims) => Evicts(s, key, value, victims)
    case DoPurge(namespace, keys) => Lists(s, namespace, keys)
    case _ => true
  }

  function Run(s: State, ops: seq<Op>): State {
    if ops == [] then s else var last := |ops| - 1; Step(Run(s, ops[..last]), ops[last])
  }

  ghost predicate RunAllowed(s: State, ops: seq<Op>) {
    ops == [] || (var last := |ops| - 1; RunAllowed(s, ops[..last]) && Allowed(Run(s, ops[..last]), ops[last]))
  }

  lemma StepKeeps(s: State, op: Op)
    requires Inv(s) && Allowed(s, op)
    ensures Inv(Step(s, op))
  {
    match op
    case DoInsert(key, value, victims) => InsertKeeps(s, key, value, victims);
    case DoLookup(key, now) => RemovedKeeps(s, StorageKey(key));
    case DoRemove(key) => RemovedKeeps(s, StorageKey(key));
    case DoPurge(_, keys) => RemoveAllKeeps(s, keys);
  }

  /** Over every run the byte total and the counters are the sums over the stored entries, and
      the total weight is within the limit. */
  lemma {:induction false} BooksBalance(enabled: bool, memoryBytes: nat, ops: seq<Op>)
    requires RunAllowed(Start(enabled, memoryBytes), ops)
    ensures Inv(Run(Start(enabled, memoryBytes), ops))
    decreases |ops|
  {
    var s := Start(enabled, memoryBytes);
    if ops != [] {
      BooksBalance(enabled, memoryBytes, ops[..|ops| - 1]);
      StepKeeps(Run(s, ops[..|ops| - 1]), ops[|ops| - 1]);
    }
  }

  // ----- hits ----------------------------------------------------------------------------------------------------------

  /** What is remembered of the operations alone: an accepted insert sets its key, a removal, a
      purge of the namespace or a lookup at or after the deadline unsets it. */
  function Remember(latest: map<Key, Value>, op: Op, accepted: bool): map<Key, Value> {
    match op
    case DoInsert(key, value, _) => if accepted then latest[key := value] else latest
    case DoLookup(key, now) => if key in latest && latest[key].freshUntil <= now then latest - {key} else latest
    case DoRemove(key) => latest - {key}
    case DoPurge(namespace, _) => map key | key in latest && key.namespace != namespace :: latest[key]
  }

  predicate AcceptedBy(s: State, op: Op) {
    op.DoInsert? && Accepts(s, op.value)
  }

  function Latest(s: State, ops: seq<Op>): map<Key, Value> {
    if ops == [] then map[]
    else
      var last := |ops| - 1;
      Remember(Latest(s, ops[..last]), ops[last], AcceptedBy(Run(s, ops[..last]), ops[last]))
  }

  /** The key an entry was inserted under. */
  function Origin(k: Slot, e: Entry): Key {
    Key(e.namespace, k.bits ^ Mix(e.namespace))
  }

  lemma OriginIsKey(key: Key, value: Value)
    ensures Origin(StorageKey(key), Entry(key.namespace, value, Weight(value))) == key
  {
  }

  ghost predicate Known(s: State, latest: map<Key, Value>, k: Slot) {
    k in s.data ==> Origin(k, s.data[k]) in latest && latest[Origin(k, s.data[k])] == s.data[k].value
  }

  lemma {:induction false} RemoveAllShrinks(s: State, keys: seq<Slot>, k: Slot)
    ensures k in RemoveAll(s, keys).data ==> k in s.data && RemoveAll(s, keys).data[k] == s.data[k]
    decreases |keys|
  {
    if keys != [] { RemoveAllShrinks(s, keys[..|keys| - 1], k); }
  }

  lemma {:induction false} ForgetAllShrinks(s: State, keys: seq<Slot>, k: Slot)
    ensures k in ForgetAll(s, keys).data ==> k in s.data && ForgetAll(s, keys).data[k] == s.data[k]
    decreases |keys|
  {
    if keys != [] { ForgetAllShrinks(s, keys[..|keys| - 1], k); }
  }

  lemma InsertShrinks(s: State, key: Key, value: Value, victims: seq<Slot>, slot: Slot, e: Entry, k: Slot)
    requires Accepts(s, value) && slot == StorageKey(key) && e == Entry(key.namespace, value, Weight(value))
    ensures var s1 := Insert(s, key, value, victims);
            k in s1.data ==> if k == slot then s1.data[k] == e else k in s.data && s1.data[k] == s.data[k]
  {
    var s1 := Occupied(s, slot, e);
    ForgetAllShrinks(s1.(order := s1.order - Keys(victims)), victims, k);
  }

  lemma KnownInsert(s: State, key: Key, value: Value, victims: seq<Slot>, latest: map<Key, Value>, k: Slot)
    requires Known(s, latest, k) && Accepts(s, value)
    ensures Known(Insert(s, key, value, victims), latest[key := value], k)
  {
    var slot, e := StorageKey(key), Entry(key.namespace, value, Weight(value));
    InsertShrinks(s, key, value, victims, slot, e, k);
    if k == slot { OriginIsKey(key, value); } else if k in s.data { OriginDiffers(key, k, s.data[k]); }
  }

  lemma KnownLookup(s: State, key: Key, now: int, latest: map<Key, Value>, k: Slot)
    requires Known(s, latest, k) && (s.data != map[] ==> s.enabled)
    ensures Known(AfterLookup(s, key, now), Remember(latest, DoLookup(key, now), false), k)
  {
    if k in s.data && k != StorageKey(key) { OriginDiffers(key, k, s.data[k]); }
  }

  lemma KnownRemove(s: State, key: Key, latest: map<Key, Value>, k: Slot)
    requires Known(s, latest, k)
    ensures Known(Removed(s, StorageKey(key)), latest - {key}, k)
  {
    if k in s.data && k != StorageKey(key) { OriginDiffers(key, k, s.data[k]); }
  }

  lemma KnownPurge(s: State, namespace: Namespace, keys: seq<Slot>, latest: map<Key, Value>, k: Slot)
    requires Known(s, latest, k) && Lists(s, namespace, keys)
    ensures Known(RemoveAll(s, keys), Remember(latest, DoPurge(namespace, keys), false), k)
  {
    PurgeIsExact(s, namespace, keys, k);
  }

  lemma KnownStep(s: State, op: Op, latest: map<Key, Value>, k: Slot)
    requires Known(s, latest, k) && Allowed(s, op) && (s.data != map[] ==> s.enabled)
    ensures Known(Step(s, op), Remember(latest, op, AcceptedBy(s, op)), k)
  {
    match op
    case DoInsert(key, value, victims) => if Accepts(s, value) { KnownInsert(s, key, value, victims, latest, k); }
    case DoLookup(key, now) => KnownLookup(s, key, now, latest, k);
    case DoRemove(key) => KnownRemove(s, key, latest, k);
    case DoPurge(namespace, keys) => KnownPurge(s, namespace, keys, latest, k);
  }

  lemma OriginDiffers(key: Key, k: Slot, e: Entry)
    requires k != StorageKey(key)
    ensures Origin(k, e) != key
  {
    if Origin(k, e) == key {
      assert false;
    }
  }

  lemma StepEnabled(s: State, op: Op)
    requires s.data != map[] ==> s.enabled
    ensures Step(s, op).data != map[] ==> Step(s, op).enabled
  {
    match op
    case DoInsert(key, value, victims) =>
      var s1 := Replaced(s, key, value);
      ForgetAllSetup(s1.(order := s1.order - Keys(victims)), victims);
    case DoPurge(_, keys) => RemoveAllData(s, keys); RemoveAllSetup(s, keys);
    case _ =>
  }

  lemma {:induction false} RunKnown(s: State, ops: seq<Op>, k: Slot)
    requires s.data == map[] && RunAllowed(s, ops)
    ensures Known(Run(s, ops), Latest(s, ops), k)
    ensures Run(s, ops).data != map[] ==> Run(s, ops).enabled
    decreases |ops|
  {
    if ops != [] {
      var last := |ops| - 1;
      RunKnown(s, ops[..last], k);
      KnownStep(Run(s, ops[..last]), ops[last], Latest(s, ops[..last]), k);
      StepEnabled(Run(s, ops[..last]), ops[last]);
    }
  }

  /** A hit is fresh and is exactly the last value accepted under that namespace and hash, with
      no removal, purge or expiry since, even if the storage keys of two namespaces collide. */
  lemma HitIsLastInserted(enabled: bool, memoryBytes: nat, ops: seq<Op>, key: Key, now: int)
    requires RunAllowed(Start(enabled, memoryBytes), ops)
    requires Lookup(Run(Start(enabled, memoryBytes), ops), key, now).Hit?
    ensures var latest := Latest(Start(enabled, memoryBytes), ops);
            var value := Lookup(Run(Start(enabled, memoryBytes), ops), key, now).value;
            key in latest && latest[key] == value && now < value.freshUntil
  {
    RunKnown(Start(enabled, memoryBytes), ops, StorageKey(key));
  }

  predicate Drops(op: Op, key: Key) {
    op == DoRemove(key) || (op.DoPurge? && op.namespace == key.namespace)
  }

  lemma {:induction false} StaysForgotten(s: State, ops: seq<Op>, i: nat, key: Key)
    requires i < |ops| && Drops(ops[i], key)
    requires forall j :: i < j < |ops| && ops[j].DoInsert? ==> ops[j].key != key
    ensures key !in Latest(s, ops)
    decreases |ops|
  {
    var last := |ops| - 1;
    if i < last { StaysForgotten(s, ops[..last], i, key); }
  }

  /** Once removed or purged, a key has no hit until it is inserted again. */
  lemma NoHitAfterRemoval(enabled: bool, memoryBytes: nat, ops: seq<Op>, i: nat, key: Key, now: int)
    requires RunAllowed(Start(enabled, memoryBytes), ops)
    requires i < |ops| && Drops(ops[i], key)
    requires forall j :: i < j < |ops| && ops[j].DoInsert? ==> ops[j].key != key
    ensures !Lookup(Run(Start(enabled, memoryBytes), ops), key, now).Hit?
  {
    StaysForgotten(Start(enabled, memoryBytes), ops, i, key);
    if Lookup(Run(Start(enabled, memoryBytes), ops), key, now).Hit? {
      HitIsLastInserted(enabled, memoryBytes, ops, key, now);
      assert false;
    }
  }

  // ----- hits that must be ------------------------------------------------------------------------------------------

  /** The value is small enough for an enabled store of `memoryBytes`. */
  predicate Suits(enabled: bool, memoryBytes: nat, value: Value) {
    enabled && |value.body| + 128 <= Max(memoryBytes, 4096)
  }

  /** The operation leaves the slot of `key`, which holds `value`, alone: no other value goes there, it
      is not evicted, removed or purged, and not looked up at or after its deadline. */
  predicate Spares(op: Op, key: Key, value: Value) {
    match op
    case DoInsert(k, _, victims) => StorageKey(k) != StorageKey(key) && StorageKey(key) !in victims
    case DoLookup(k, now) => k == key ==> now < value.freshUntil
    case DoRemove(k) => StorageKey(k) != StorageKey(key)
    case DoPurge(namespace, _) => namespace != key.namespace
  }

  ghost predicate HoldsValue(s: State, key: Key, value: Value) {
    && s.enabled && StorageKey(key) in s.data
    && s.data[StorageKey(key)].namespace == key.namespace && s.data[StorageKey(key)].value == value
  }

  lemma InsertHolds(s: State, key: Key, value: Value, victims: seq<Slot>)
    requires s.enabled && |value.body| + 128 <= s.limit && StorageKey(key) !in victims
    ensures HoldsValue(Insert(s, key, value, victims), key, value)
  {
    var s1 := Replaced(s, key, value);
    var s2 := s1.(order := s1.order - Keys(victims));
    ForgetAllData(s2, victims);
    ForgetAllSetup(s2, victims);
  }

  lemma OtherInsertHolds(s: State, k: Key, v: Value, victims: seq<Slot>, key: Key, value: Value)
    requires HoldsValue(s, key, value) && StorageKey(k) != StorageKey(key) && StorageKey(key) !in victims
    ensures HoldsValue(Insert(s, k, v, victims), key, value)
  {
    var s1 := Replaced(s, k, v);
    var s2 := s1.(order := s1.order - Keys(victims));
    ForgetAllData(s2, victims);
    ForgetAllSetup(s2, victims);
  }

  lemma LookupHolds(s: State, k: Key, now: int, key: Key, value: Value)
    requires HoldsValue(s, key, value) && (k == key ==> now < value.freshUntil)
    ensures HoldsValue(AfterLookup(s, k, now), key, value)
  {
    if StorageKey(k) == StorageKey(key) && k.namespace == key.namespace {
      OriginIsKey(k, value);
      OriginIsKey(key, value);
    }
  }

  lemma StepHolds(s: State, op: Op, key: Key, value: Value)
    requires HoldsValue(s, key, value) && Allowed(s, op) && Spares(op, key, value)
    ensures HoldsValue(Step(s, op), key, value)
  {
    match op
    case DoInsert(k, v, victims) => OtherInsertHolds(s, k, v, victims, key, value);
    case DoLookup(k, now) => LookupHolds(s, k, now, key, value);
    case DoRemove(k) =>
    case DoPurge(namespace, keys) =>
      PurgeIsExact(s, namespace, keys, StorageKey(key));
      RemoveAllSetup(s, keys);
  }

  lemma StepSetup(s: State, op: Op)
    ensures Step(s, op).enabled == s.enabled && Step(s, op).limit == s.limit
  {
    match op
    case DoInsert(key, value, victims) =>
      var s1 := Replaced(s, key, value);
      ForgetAllSetup(s1.(order := s1.order - Keys(victims)), victims);
    case DoPurge(_, keys) => RemoveAllSetup(s, keys);
    case _ =>
  }

  lemma {:induction false} ForgetAllSetup(s: State, victims: seq<Slot>)
    ensures ForgetAll(s, victims).enabled == s.enabled && ForgetAll(s, victims).limit == s.limit
    decreases |victims|
  {
    if victims != [] { ForgetAllSetup(s, victims[..|victims| - 1]); }
  }

  lemma {:induction false} RemoveAllSetup(s: State, keys: seq<Slot>)
    ensures RemoveAll(s, keys).enabled == s.enabled && RemoveAll(s, keys).limit == s.limit
    decreases |keys|
  {
    if keys != [] { RemoveAllSetup(s, keys[..|keys| - 1]); }
  }

  lemma {:induction false} RunSetup(s: State, ops: seq<Op>)
    ensures Run(s, ops).enabled == s.enabled && Run(s, ops).limit == s.limit
    decreases |ops|
  {
    if ops != [] {
      RunSetup(s, ops[..|ops| - 1]);
      StepSetup(Run(s, ops[..|ops| - 1]), ops[|ops| - 1]);
    }
  }

  /** The insert at `i` put the value in, and nothing since has disturbed it. */
  ghost predicate PutAt(ops: seq<Op>, i: nat, key: Key, value: Value)
    requires i < |ops|
  {
    && ops[i].DoInsert? && ops[i].key == key && ops[i].value == value && StorageKey(key) !in ops[i].victims
    && forall j :: i < j < |ops| ==> Spares(ops[j], key, value)
  }

  lemma {:induction false} RunHolds(enabled: bool, memoryBytes: nat, ops: seq<Op>, i: nat, key: Key, value: Value)
    requires RunAllowed(Start(enabled, memoryBytes), ops) && Suits(enabled, memoryBytes, value)
    requires i < |ops| && PutAt(ops, i, key, value)
    ensures HoldsValue(Run(Start(enabled, memoryBytes), ops), key, value)
    decreases |ops|
  {
    var s := Start(enabled, memoryBytes);
    var last := |ops| - 1;
    if i == last {
      RunSetup(s, ops[..last]);
      InsertHolds(Run(s, ops[..last]), key, value, ops[last].victims);
    } else {
      RunHolds(enabled, memoryBytes, ops[..last], i, key, value);
      StepHolds(Run(s, ops[..last]), ops[last], key, value);
    }
  }

  /** A value that fits the store and was not disturbed since it was put in is found, exactly it,
      at every instant before its deadline. */
  lemma UndisturbedValueIsHit(enabled: bool, memoryBytes: nat, ops: seq<Op>, i: nat, key: Key, value: Value, now: int)
    requires RunAllowed(Start(enabled, memoryBytes), ops) && Suits(enabled, memoryBytes, value)
    requires i < |ops| && PutAt(ops, i, key, value) && now < value.freshUntil
    ensures Lookup(Run(Start(enabled, memoryBytes), ops), key, now) == Hit(value)
  {
    RunHolds(enabled, memoryBytes, ops, i, key, value);
  }

  /** What is stored weighs its body and a fixed overhead. */
  ghost predicate Weighs(s: State, k: Slot) {
    k in s.data ==> s.data[k].weight == |s.data[k].value.body| + 128
  }

  lemma StepWeighs(s: State, op: Op, k: Slot)
    requires Weighs(s, k)
    ensures Weighs(Step(s, op), k)
  {
    match op
    case DoInsert(key, value, victims) =>
      var s1 := Replaced(s, key, value);
      ForgetAllShrinks(s1.(order := s1.order - Keys(victims)), victims, k);
    case DoPurge(_, keys) => RemoveAllShrinks(s, keys, k);
    case _ =>
  }

  lemma {:induction false} EntriesWeighTheirBodies(enabled: bool, memoryBytes: nat, ops: seq<Op>, k: Slot)
    ensures Weighs(Run(Start(enabled, memoryBytes), ops), k)
    decreases |ops|
  {
    if ops != [] {
      var s := Run(Start(enabled, memoryBytes), ops[..|ops| - 1]);
      EntriesWeighTheirBodies(enabled, memoryBytes, ops[..|ops| - 1], k);
      StepWeighs(s, ops[|ops| - 1], k);
    }
  }

  /** Purging leaves nothing of the namespace and everything of the other. */
  lemma {:induction false} RemoveAllData(s: State, keys: seq<Slot>)
    ensures RemoveAll(s, keys).data == s.data - Keys(keys)
    decreases |keys|
  {
    if keys != [] {
      var last := |keys| - 1;
      RemoveAllData(s, keys[..last]);
      assert Keys(keys) == Keys(keys[..last]) + {keys[last]};
    }
  }

  lemma PurgeIsExact(s: State, namespace: Namespace, keys: seq<Slot>, k: Slot)
    requires Lists(s, namespace, keys)
    ensures var after := RemoveAll(s, keys).data;
            && (k in after <==> k in s.data && s.data[k].namespace != namespace)
            && (k in after ==> after[k] == s.data[k])
  {
    RemoveAllData(s, keys);
  }
}
