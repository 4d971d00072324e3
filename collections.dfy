/**
 * The keyed collections of the library. KeySet and KeyMap hold keys by
 * their canonical value string only (a key data is never stored), so
 * their parameters here are those strings; DataMap is keyed by the
 * identity of a Data object, here its heap handle.
 */
module KeyCollections {
  import opened Wrappers

  /** A set of keys, held as their value strings. */
  class KeySet {
    var items: set<string>

    constructor()
      ensures items == {}
    {
      items := {};
    }

    function Size(): (n: nat)
      reads this
      ensures n == 0 <==> items == {}
    {
      |items|
    }

    predicate Has(key: string)
      reads this
    {
      key in items
    }

    /** add: true exactly when the key was absent; afterwards it is present either way. */
    method Add(key: string) returns (added: bool)
      modifies this
      ensures added <==> key !in old(items)
      ensures items == old(items) + {key}
      ensures Has(key)
    {
      if key !in items {
        items := items + {key};
        added := true;
      } else {
        added := false;
      }
    }

    method Delete(key: string)
      modifies this
      ensures items == old(items) - {key}
      ensures !Has(key)
    {
      items := items - {key};
    }

    method Clear()
      modifies this
      ensures items == {}
    {
      items := {};
    }
  }

  /**
   * A map from keys, held as their value strings, to values. `get` refuses
   * a falsy stored value; what counts as falsy depends on the value type
   * and is fixed when the map is created.
   */
  class KeyMap<V> {
    var entries: map<string, V>
    const isFalsy: V -> bool

    constructor(isFalsy: V -> bool)
      ensures entries == map[] && this.isFalsy == isFalsy
    {
      entries := map[];
      this.isFalsy := isFalsy;
    }

    predicate Has(key: string)
      reads this
    {
      key in entries
    }

    /** tryGet: the stored value, or nothing when the key is absent. */
    function TryGet(key: string): (r: Option<V>)
      reads this
      ensures r.Some? <==> key in entries
      ensures r.Some? ==> r.value == entries[key]
    {
      if key in entries then Some(entries[key]) else None
    }

    /** get: fails when the key is absent or its value is falsy. */
    function Get(key: string): (r: Result<V>)
      reads this
      ensures r.Ok? <==> key in entries && !isFalsy(entries[key])
      ensures r.Ok? ==> r.value == entries[key]
      ensures r.Err? ==> r.error == MissingValue
    {
      match TryGet(key)
      case None => Err(MissingValue)
      case Some(v) => if isFalsy(v) then Err(MissingValue) else Ok(v)
    }

    /** trySet: writes only when the key is absent, and says whether it wrote. */
    method TrySet(key: string, value: V) returns (written: bool)
      modifies this
      ensures written <==> key !in old(entries)
      ensures entries == if written then old(entries)[key := value] else old(entries)
    {
      if key !in entries {
        entries := entries[key := value];
        written := true;
      } else {
        written := false;
      }
    }

    /** set: always overwrites. */
    method Set(key: string, value: V)
      modifies this
      ensures entries == old(entries)[key := value]
      ensures TryGet(key) == Some(value)
    {
      entries := entries[key := value];
    }

    method Delete(key: string)
      modifies this
      ensures entries == old(entries) - {key}
      ensures TryGet(key) == None
    {
      entries := entries - {key};
    }

    method Clear()
      modifies this
      ensures entries == map[]
    {
      entries := map[];
    }
  }

  /** A map keyed by the identity of a Data object. */
  class DataMap<V> {
    var entries: map<nat, V>
    const isFalsy: V -> bool

    constructor(isFalsy: V -> bool)
      ensures entries == map[] && this.isFalsy == isFalsy
    {
      entries := map[];
      this.isFalsy := isFalsy;
    }

    predicate Has(data: nat)
      reads this
    {
      data in entries
    }

    function TryGet(data: nat): (r: Option<V>)
      reads this
      ensures r.Some? <==> data in entries
      ensures r.Some? ==> r.value == entries[data]
    {
      if data in entries then Some(entries[data]) else None
    }

    function Get(data: nat): (r: Result<V>)
      reads this
      ensures r.Ok? <==> data in entries && !isFalsy(entries[data])
      ensures r.Ok? ==> r.value == entries[data]
    {
      if data !in entries || isFalsy(entries[data]) then Err(MissingValue) else Ok(entries[data])
    }

    method Set(data: nat, value: V)
      modifies this
      ensures entries == old(entries)[data := value]
    {
      entries := entries[data := value];
    }

    method Delete(data: nat)
      modifies this
      ensures entries == old(entries) - {data}
    {
      entries := entries - {data};
    }

    method Clear()
      modifies this
      ensures entries == map[]
    {
      entries := map[];
    }
  }
}
