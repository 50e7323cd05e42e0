/**
 * The cache manager the service keeps its refresh records in: a key/value store
 * with `get`, `set` and `del`, and entries that lapse on their own after a TTL.
 * Every change is recorded in a ghost log, so that the order of writes is observable.
 */
module CacheStore {
  import opened Wrappers

  /** One change to the store: a `set`, a `del`, or the lapse of an entry's TTL. */
  datatype CacheOp = Put(key: string, value: string) | Remove(key: string) | Lapse(key: string)

  /** The value stored under `k`, or `None` (`undefined`) when there is none. */
  function Lookup(m: map<string, string>, k: string): Option<string>
  {
    if k in m then Some(m[k]) else None
  }

  /** The keys a sequence of changes writes or removes. */
  function Touched(ops: seq<CacheOp>): set<string>
  {
    if ops == [] then {} else {ops[0].key} + Touched(ops[1..])
  }

  function ApplyOp(m: map<string, string>, op: CacheOp): map<string, string>
  {
    match op
    case Put(k, v) => m[k := v]
    case Remove(k) => m - {k}
    case Lapse(k) => m - {k}
  }

  /** The store after the changes `ops`, in order; keys no change mentions keep their entry. */
  function Apply(m: map<string, string>, ops: seq<CacheOp>): (r: map<string, string>)
    ensures forall k :: k !in Touched(ops) ==> Lookup(r, k) == Lookup(m, k)
    decreases |ops|
  {
    if ops == [] then m else Apply(ApplyOp(m, ops[0]), ops[1..])
  }

  /** Applying one more change is applying it to the store the earlier changes left. */
  lemma {:induction false} ApplySnoc(m: map<string, string>, ops: seq<CacheOp>, op: CacheOp)
    ensures Apply(m, ops + [op]) == ApplyOp(Apply(m, ops), op)
    decreases |ops|
  {
    if ops == [] {
      assert [op][1..] == [];
    } else {
      assert (ops + [op])[1..] == ops[1..] + [op];
      ApplySnoc(ApplyOp(m, ops[0]), ops[1..], op);
    }
  }

  /** A write followed by a removal of a different key: the written entry survives, the removed one is gone. */
  lemma ApplyPutRemove(m: map<string, string>, k1: string, v: string, k2: string)
    ensures Apply(m, [Put(k1, v)]) == m[k1 := v]
    ensures Apply(m, [Put(k1, v), Remove(k2)]) == m[k1 := v] - {k2}
  {
    assert [Put(k1, v)][1..] == [];
    assert [Put(k1, v), Remove(k2)][1..] == [Remove(k2)];
    assert [Remove(k2)][1..] == [];
    assert Apply(m[k1 := v], [Remove(k2)]) == Apply(m[k1 := v] - {k2}, []);
  }

  /** A single change. */
  lemma ApplySingle(m: map<string, string>, op: CacheOp)
    ensures Apply(m, [op]) == ApplyOp(m, op)
  {
    assert [op][1..] == [];
  }

  class Cache {
    /** The live entries. */
    var entries: map<string, string>
    /** The store as it was when the cache was created, and every change since, in order. */
    ghost var origin: map<string, string>
    ghost var log: seq<CacheOp>

    /** The live entries are exactly the replay of the log. */
    ghost predicate Valid()
      reads this
    {
      entries == Apply(origin, log)
    }

    constructor (initial: map<string, string>)
      ensures Valid()
      ensures entries == initial && log == []
    {
      entries := initial;
      origin := initial;
      log := [];
    }

    /** `get`: the stored value, or `None`. */
    function Get(key: string): Option<string>
      reads this
    {
      Lookup(entries, key)
    }

    /** `set`: stores `value` under `key`; the TTL is enforced by `Expire`, not here. */
    method Set(key: string, value: string, ttl: nat)
      requires Valid()
      modifies this
      ensures Valid() && origin == old(origin)
      ensures entries == old(entries)[key := value]
      ensures log == old(log) + [Put(key, value)]
    {
      ApplySnoc(origin, log, Put(key, value));
      entries := entries[key := value];
      log := log + [Put(key, value)];
    }

    /** `del`: removes the entry under `key`, if any. */
    method Del(key: string)
      requires Valid()
      modifies this
      ensures Valid() && origin == old(origin)
      ensures entries == old(entries) - {key}
      ensures log == old(log) + [Remove(key)]
    {
      ApplySnoc(origin, log, Remove(key));
      entries := entries - {key};
      log := log + [Remove(key)];
    }

    /** The TTL of the entry under `key` lapses: the entry disappears, and the log records a lapse, not a `del`. */
    method Expire(key: string)
      requires Valid()
      modifies this
      ensures Valid() && origin == old(origin)
      ensures entries == old(entries) - {key}
      ensures log == old(log) + [Lapse(key)]
    {
      ApplySnoc(origin, log, Lapse(key));
      entries := entries - {key};
      log := log + [Lapse(key)];
    }
  }
}
