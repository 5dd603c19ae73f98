/**
  The DNS side of the cache (src/cache/integration.rs): what is stored is later served.
 */
module CacheServing {
  import opened Common
  import opened CacheStore
  import opened CacheBooks
  import Wire = DnsWire
  import Ageing = DnsAgeing
  import Rules = DnsPolicy

  /** `build_cached_dns` */
  function Stored(body: seq<byte>, ttl: nat, now: int): Value {
    Value(body, now, now + ttl)
  }

  /** The DNS branch of `store_pending_insert`. */
  function StoreDns(s: State, policy: Rules.Policy, hash: bv64, body: seq<byte>, now: int, victims: seq<Slot>): State {
    match Rules.Decide(body, policy)
    case NotCacheable => s
    case Cacheable(ttl) => Insert(s, Key(Dns, hash), Stored(body, ttl, now), victims)
  }

  datatype Served = Served(body: seq<byte>) | NotServed(key: Key) | Bypass

  /** `prepare_dns_lookup`, from the point where the query's hash and id are known. */
  ghost function Prepare(s: State, policy: Rules.Policy, hash: bv64, id: nat, now: int): Served
    requires id < 0x1_0000
  {
    if !s.enabled || !policy.enabled then Bypass
    else
      match Lookup(s, Key(Dns, hash), now)
      case Miss => NotServed(Key(Dns, hash))
      case Expired => NotServed(Key(Dns, hash))
      case Hit(value) =>
        match Ageing.Age(value.body, Rules.Seconds(value.storedAt, now), id)
        case None => NotServed(Key(Dns, hash))
        case Some(body) => Served(body)
  }

  /** The value came from the DNS branch, under the policy in force. */
  ghost predicate FromPolicy(value: Value, policy: Rules.Policy) {
    var d := Rules.Decide(value.body, policy);
    d.Cacheable? && value == Stored(value.body, d.ttl, value.storedAt)
  }

  /** Every insert into the DNS namespace does. */
  ghost predicate DnsOnly(ops: seq<Op>, policy: Rules.Policy) {
    forall i :: 0 <= i < |ops| && ops[i].DoInsert? && ops[i].key.namespace.Dns? ==> FromPolicy(ops[i].value, policy)
  }

  lemma StoreDnsIsAnInsert(s: State, policy: Rules.Policy, hash: bv64, body: seq<byte>, now: int, victims: seq<Slot>)
    requires Rules.Decide(body, policy).Cacheable?
    ensures var value := Stored(body, Rules.Decide(body, policy).ttl, now);
            && FromPolicy(value, policy)
            && StoreDns(s, policy, hash, body, now, victims) == Step(s, DoInsert(Key(Dns, hash), value, victims))
  {
  }

  ghost predicate SlotFromPolicy(s: State, policy: Rules.Policy, k: Slot) {
    k in s.data && s.data[k].namespace.Dns? ==> FromPolicy(s.data[k].value, policy)
  }

  lemma StepFromPolicy(s: State, op: Op, policy: Rules.Policy, k: Slot)
    requires SlotFromPolicy(s, policy, k)
    requires op.DoInsert? && op.key.namespace.Dns? ==> FromPolicy(op.value, policy)
    ensures SlotFromPolicy(Step(s, op), policy, k)
  {
    match op
    case DoInsert(key, value, victims) =>
      var s1 := Replaced(s, key, value);
      ForgetAllShrinks(s1.(order := s1.order - Keys(victims)), victims, k);
    case DoPurge(_, keys) => RemoveAllShrinks(s, keys, k);
    case _ =>
  }

  /** What is stored for DNS came from the DNS branch. */
  lemma {:induction false} StoredFromPolicy(s: State, ops: seq<Op>, policy: Rules.Policy, k: Slot)
    requires s.data == map[] && DnsOnly(ops, policy)
    ensures SlotFromPolicy(Run(s, ops), policy, k)
    decreases |ops|
  {
    if ops != [] {
      var last := |ops| - 1;
      StoredFromPolicy(s, ops[..last], policy, k);
      StepFromPolicy(Run(s, ops[..last]), ops[last], policy, k);
    }
  }

  /** In every run whose DNS inserts come from the DNS branch, a store hit on a NOERROR answer
      is served and never falls back to a miss; what is served is the stored answer, aged. */
  lemma StoreHitIsServed(memoryBytes: nat, ops: seq<Op>, policy: Rules.Policy, hash: bv64, id: nat, now: int)
    requires id < 0x1_0000 && policy.enabled && DnsOnly(ops, policy)
    requires var found := Lookup(Run(Start(true, memoryBytes), ops), Key(Dns, hash), now);
             found.Hit? && |found.value.body| >= 12 && Rules.ResponseCode(found.value.body) == 0
    ensures var s := Run(Start(true, memoryBytes), ops);
            var value := Lookup(s, Key(Dns, hash), now).value;
            && Prepare(s, policy, hash, id, now).Served?
            && Ageing.Age(value.body, Rules.Seconds(value.storedAt, now), id)
               == Some(Prepare(s, policy, hash, id, now).body)
  {
    var s := Run(Start(true, memoryBytes), ops);
    var value := Lookup(s, Key(Dns, hash), now).value;
    StoredFromPolicy(Start(true, memoryBytes), ops, policy, StorageKey(Key(Dns, hash)));
    Rules.CacheableIsServable(value.body, policy, value.storedAt, id);
    assert s.enabled;
  }

  /** End to end: a NOERROR answer that the policy lets in and that nothing disturbs is served, aged,
      at every instant of its lifetime. */
  lemma StoredAnswerIsServed(memoryBytes: nat, ops: seq<Op>, i: nat, policy: Rules.Policy, hash: bv64, body: seq<byte>,
                             storedAt: int, id: nat, now: int)
    requires id < 0x1_0000 && policy.enabled && |body| >= 12 && Rules.ResponseCode(body) == 0
    requires Rules.Decide(body, policy).Cacheable?
    requires var value := Stored(body, Rules.Decide(body, policy).ttl, storedAt);
             && RunAllowed(Start(true, memoryBytes), ops) && Suits(true, memoryBytes, value)
             && i < |ops| && PutAt(ops, i, Key(Dns, hash), value) && now < value.freshUntil
    ensures var served := Prepare(Run(Start(true, memoryBytes), ops), policy, hash, id, now);
            served.Served? && Ageing.Age(body, Rules.Seconds(storedAt, now), id) == Some(served.body)
  {
    var value := Stored(body, Rules.Decide(body, policy).ttl, storedAt);
    UndisturbedValueIsHit(true, memoryBytes, ops, i, Key(Dns, hash), value, now);
    RunSetup(Start(true, memoryBytes), ops);
    Rules.CacheableIsServable(body, policy, storedAt, id);
  }
}
