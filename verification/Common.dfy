/** Small vocabulary shared by every module of the model. */
module Common {

  datatype Option<+T> = None | Some(value: T)

  datatype Result<+T, +E> = Ok(value: T) | Err(error: E)

  type byte = x: int | 0 <= x < 256

  /** A client of a limiter within one of its zones. */
  datatype ClientKey = ClientKey(zone: nat, ip: nat)

  function Min(a: int, b: int): int {
    if a <= b then a else b
  }

  function Max(a: int, b: int): int {
    if a <= b then b else a
  }

  ghost predicate NoDup<T>(s: seq<T>) {
    forall i, j :: 0 <= i < j < |s| ==> s[i] != s[j]
  }

  lemma Smaller<T>(a: set<T>, b: set<T>)
    requires a <= b
    ensures |a| <= |b|
  {
    assert b == a + (b - a);
  }

  lemma AddKey<K, V>(m: map<K, V>, key: K, value: V)
    ensures m[key := value].Keys == m.Keys + {key}
    ensures |m[key := value].Keys| == |m.Keys| + if key in m then 0 else 1
  {
    assert m[key := value].Keys == m.Keys + {key};
    if key in m { assert m.Keys + {key} == m.Keys; }
  }

  lemma DropKey<K, V>(m: map<K, V>, key: K)
    ensures (m - {key}).Keys == m.Keys - {key}
    ensures |(m - {key}).Keys| == |m.Keys| - if key in m then 1 else 0
  {
    assert (m - {key}).Keys == m.Keys - {key};
    if key !in m { assert m.Keys - {key} == m.Keys; }
  }
}
