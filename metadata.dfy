/**
 * The fallback metadata store: a table from target objects to an inner
 * key/value map, created lazily the first time a target is touched.
 * Only the branch taken when no global `Reflect.defineMetadata` exists is modelled.
 */
module Metadata {
  import opened Wrappers

  /** The `store`: target -> (key -> value). */
  type Table<T, K, V> = map<T, map<K, V>>

  /** What `getMap(target).get(key)` observes: `undefined` (None) unless the key was set on that target. */
  function Lookup<T(!new), K(!new), V>(tbl: Table<T, K, V>, target: T, key: K): Option<V>
  {
    if target in tbl && key in tbl[target] then Some(tbl[target][key]) else None
  }

  /** The table after `getMap(target)`: an empty inner map is inserted if the target has none. */
  function Touch<T(!new), K(!new), V>(tbl: Table<T, K, V>, target: T): (r: Table<T, K, V>)
    ensures r.Keys == tbl.Keys + {target}
    ensures target !in tbl ==> r[target] == map[]
    ensures forall t :: t in tbl ==> r[t] == tbl[t]
    ensures forall t, k :: Lookup(r, t, k) == Lookup(tbl, t, k)
  {
    if target in tbl then tbl else tbl[target := map[]]
  }

  /** The table after `getMap(target).set(key, value)`. */
  function Set<T(!new), K(!new), V>(tbl: Table<T, K, V>, target: T, key: K, value: V): (r: Table<T, K, V>)
    ensures r.Keys == tbl.Keys + {target}
    ensures Lookup(r, target, key) == Some(value)
    ensures forall t, k :: t != target || k != key ==> Lookup(r, t, k) == Lookup(tbl, t, k)
  {
    var inner := if target in tbl then tbl[target] else map[];
    tbl[target := inner[key := value]]
  }

  /** Touching a target before setting one of its keys makes no difference. */
  lemma SetAfterTouch<T(!new), K(!new), V>(tbl: Table<T, K, V>, target: T, key: K, value: V)
    ensures Set(Touch(tbl, target), target, key, value) == Set(tbl, target, key, value)
  {
  }

  /** A second definition of the same key on the same target replaces the first. */
  lemma SetOverwrites<T(!new), K(!new), V>(tbl: Table<T, K, V>, target: T, key: K, v1: V, v2: V)
    ensures Set(Set(tbl, target, key, v1), target, key, v2) == Set(tbl, target, key, v2)
  {
    var inner := if target in tbl then tbl[target] else map[];
    assert inner[key := v1][key := v2] == inner[key := v2];
  }

  /** One `defineMetadata(key, value, target)` call. */
  datatype Definition<T, K, V> = Definition(target: T, key: K, value: V)

  /** The table after a sequence of definitions applied in order to an empty store. */
  function Replay<T(!new), K(!new), V>(defs: seq<Definition<T, K, V>>): Table<T, K, V>
  {
    if defs == [] then map[]
    else
      var d := defs[|defs| - 1];
      Set(Replay(defs[..|defs| - 1]), d.target, d.key, d.value)
  }

  /**
   * After any sequence of definitions, a key reads as `undefined` exactly when
   * it was never defined on that target, and otherwise as the value of the
   * last definition of it.
   */
  lemma {:induction false} ReplayLookup<T(!new), K(!new), V>(defs: seq<Definition<T, K, V>>, target: T, key: K)
    ensures Lookup(Replay(defs), target, key).None? <==>
            forall j :: 0 <= j < |defs| ==> defs[j].target != target || defs[j].key != key
    ensures Lookup(Replay(defs), target, key).Some? ==>
            exists j :: 0 <= j < |defs| && defs[j] == Definition(target, key, Lookup(Replay(defs), target, key).value) &&
                        forall j' :: j < j' < |defs| ==> defs[j'].target != target || defs[j'].key != key
  {
    if defs != [] {
      var n := |defs| - 1;
      var d := defs[n];
      ReplayLookup(defs[..n], target, key);
      if d.target == target && d.key == key {
        assert defs[n] == Definition(target, key, Lookup(Replay(defs), target, key).value);
      } else {
        assert Lookup(Replay(defs), target, key) == Lookup(Replay(defs[..n]), target, key);
        assert forall j :: 0 <= j < n ==> defs[..n][j] == defs[j];
        if Lookup(Replay(defs), target, key).Some? {
          var j :| 0 <= j < n && defs[..n][j] == Definition(target, key, Lookup(Replay(defs), target, key).value) &&
                   forall j' :: j < j' < n ==> defs[..n][j'].target != target || defs[..n][j'].key != key;
          assert defs[j] == Definition(target, key, Lookup(Replay(defs), target, key).value);
        }
      }
    }
  }

  /**
   * The module-level `store`. Its methods are the fallback branches of
   * `getMap`, `defineMetadata` and `getMetadata`.
   */
  class MetadataStore<T(==,!new), K(==,!new), V> {
    var store: Table<T, K, V>

    constructor ()
      ensures store == map[]
    {
      store := map[];
    }

    /** `getMap`: creates an empty inner map on first access, returns the existing one afterwards. */
    method GetMap(target: T) returns (m: map<K, V>)
      modifies this
      ensures store == Touch(old(store), target)
      ensures target in old(store) ==> store == old(store) && m == old(store)[target]
      ensures target !in old(store) ==> m == map[]
      ensures m == store[target]
    {
      if target !in store {
        store := store[target := map[]];
      }
      m := store[target];
    }

    /** `defineMetadata`: sets one key of one target's inner map. */
    method DefineMetadata(key: K, value: V, target: T)
      modifies this
      ensures store == Set(old(store), target, key, value)
      ensures Lookup(store, target, key) == Some(value)
      ensures forall t, k :: t != target || k != key ==> Lookup(store, t, k) == Lookup(old(store), t, k)
    {
      var m := GetMap(target);
      store := store[target := m[key := value]];
    }

    /** `getMetadata`: reads one key, touching the target's inner map on the way. */
    method GetMetadata(key: K, target: T) returns (r: Option<V>)
      modifies this
      ensures r == Lookup(old(store), target, key)
      ensures store == Touch(old(store), target)
    {
      var m := GetMap(target);
      r := if key in m then Some(m[key]) else None;
    }
  }
}
