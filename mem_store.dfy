/**
 * The process-wide key/value store. Keys are strings; a stored value may itself be null,
 * which is written `None` here, so a key can be present and still read as null.
 */
module MemStore {
  import opened Wrappers

  /** What a lookup yields: the stored value, or null when the key is absent. */
  function Lookup<V>(data: map<string, Option<V>>, key: string): (v: Option<V>)
    ensures key !in data ==> v == None
    ensures v.Some? ==> key in data && data[key] == v
  {
    if key in data then data[key] else None
  }

  /** The store after `UpdateData(key, v, addIfNotExist)`. */
  function Updated<V>(data: map<string, Option<V>>, key: string, v: Option<V>, addIfNotExist: bool): (d: map<string, Option<V>>)
    ensures !addIfNotExist && key !in data ==> d == data
    ensures addIfNotExist || key in data ==> key in d && d[key] == v
    ensures forall k :: k != key ==> Lookup(d, k) == Lookup(data, k)
    ensures d.Keys == if !addIfNotExist && key !in data then data.Keys else data.Keys + {key}
  {
    if !addIfNotExist && key !in data then data else data[key := v]
  }

  class MemDataStore<V> {
    var data: map<string, Option<V>>

    /** A new store is empty. */
    constructor()
      ensures data == map[]
    {
      data := map[];
    }

    /** Sets `key` to `value`, adding the key or overwriting its value. */
    method AddData(key: string, value: Option<V>)
      modifies this
      ensures data == old(data)[key := value]
    {
      data := data[key := value];
    }

    /**
     * Without `addIfNotExist`, an absent key is refused (false, store unchanged); otherwise
     * the key is set to `newValue` and the answer is whether that value is non-null.
     */
    method UpdateData(key: string, newValue: Option<V>, addIfNotExist: bool) returns (r: bool)
      modifies this
      ensures data == Updated(old(data), key, newValue, addIfNotExist)
      ensures !addIfNotExist && key !in old(data) ==> !r
      ensures addIfNotExist || key in old(data) ==> (r <==> newValue.Some?)
    {
      var present := IsExist(key);
      if !addIfNotExist && !present {
        return false;
      }
      data := data[key := newValue];
      r := newValue.Some?;
    }

    /** The stored value, or null when the key is absent. */
    method GetData(key: string) returns (v: Option<V>)
      ensures v == Lookup(data, key)
    {
      if key in data {
        v := data[key];
      } else {
        v := None;
      }
    }

    /** Removes `key`; the answer is whether it was present. */
    method RemoveData(key: string) returns (r: bool)
      modifies this
      ensures r <==> key in old(data)
      ensures data == old(data) - {key}
    {
      r := key in data;
      data := data - {key};
    }

    /** Whether `key` is present (even with a null value). */
    method IsExist(key: string) returns (r: bool)
      ensures r <==> key in data
    {
      r := key in data;
    }

    /** Removes every key. */
    method ClearData()
      modifies this
      ensures data == map[]
    {
      data := map[];
    }
  }

  /** Reading a key back after a successful update yields the value just written. */
  lemma ReadBackAfterUpdate<V>(data: map<string, Option<V>>, key: string, v: Option<V>, addIfNotExist: bool)
    requires addIfNotExist || key in data
    ensures Lookup(Updated(data, key, v, addIfNotExist), key) == v
  {
  }
}
