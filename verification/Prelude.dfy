/** Shared vocabulary: optional values, and the "first write wins" maps that
    `emplace` and `insert` of the C++ containers build. */
module Prelude {

  datatype Option<+T> = None | Some(value: T)

  /** A value, or the exception that was thrown instead. */
  datatype Result<+T> = Ok(value: T) | Err {
    predicate IsFailure() { Err? }

    function PropagateFailure<U>(): Result<U>
      requires Err?
    {
      Err
    }

    function Extract(): T
      requires Ok?
    {
      value
    }
  }

  function Get<K, V>(m: map<K, V>, k: K): Option<V> {
    if k in m then Some(m[k]) else None
  }

  /** `std::map::emplace`: a key that is already there keeps its value. */
  function Emplace<K, V>(m: map<K, V>, k: K, v: V): map<K, V> {
    if k in m then m else m[k := v]
  }

  function EmplaceAll<K, V>(m: map<K, V>, writes: seq<(K, V)>): map<K, V>
    decreases |writes|
  {
    if writes == [] then m
    else EmplaceAll(Emplace(m, writes[0].0, writes[0].1), writes[1..])
  }

  /** The first value ever given for a key. */
  function FirstValue<K(==), V>(writes: seq<(K, V)>, k: K): Option<V> {
    if writes == [] then None
    else if writes[0].0 == k then Some(writes[0].1)
    else FirstValue(writes[1..], k)
  }

  lemma {:induction false} EmplaceAllGet<K, V>(m: map<K, V>, writes: seq<(K, V)>, k: K)
    ensures Get(EmplaceAll(m, writes), k) == if k in m then Some(m[k]) else FirstValue(writes, k)
    decreases |writes|
  {
    if writes != [] {
      EmplaceAllGet(Emplace(m, writes[0].0, writes[0].1), writes[1..], k);
    }
  }

  lemma {:induction false} EmplaceAllAppend<K, V>(m: map<K, V>, a: seq<(K, V)>, b: seq<(K, V)>)
    ensures EmplaceAll(m, a + b) == EmplaceAll(EmplaceAll(m, a), b)
    decreases |a|
  {
    if a == [] {
      assert a + b == b;
    } else {
      assert (a + b)[1..] == a[1..] + b;
      EmplaceAllAppend(Emplace(m, a[0].0, a[0].1), a[1..], b);
    }
  }

  lemma EmplaceAllOne<K, V>(m: map<K, V>, a: seq<(K, V)>, k: K, v: V)
    ensures EmplaceAll(m, a + [(k, v)]) == Emplace(EmplaceAll(m, a), k, v)
  {
    EmplaceAllAppend(m, a, [(k, v)]);
    var m' := EmplaceAll(m, a);
    var one: seq<(K, V)> := [(k, v)];
    assert one[1..] == [];
    assert EmplaceAll(m', one) == EmplaceAll(Emplace(m', k, v), []);
  }

  lemma {:induction false} FirstValueAppend<K, V>(a: seq<(K, V)>, b: seq<(K, V)>, k: K)
    ensures FirstValue(a + b, k) == if FirstValue(a, k).Some? then FirstValue(a, k) else FirstValue(b, k)
  {
    if a == [] {
      assert a + b == b;
    } else {
      assert (a + b)[1..] == a[1..] + b;
      FirstValueAppend(a[1..], b, k);
    }
  }

  lemma EqualByGet<K, V>(m: map<K, V>, n: map<K, V>)
    requires forall k :: Get(m, k) == Get(n, k)
    ensures m == n
  {
    forall k ensures (k in m) == (k in n) && (k in m ==> m[k] == n[k]) {
      assert Get(m, k) == Get(n, k);
    }
  }
}
