/** A synchronous key/value store with `getItem`, `setItem` and `removeItem`
    (the `StorageLike` interface). Whether a call throws (a quota exceeded, a
    store that refuses access) is decided by fault functions fixed when the
    store is made; a call that throws changes nothing. */
module StorageLike {
  import opened Wrappers
  import opened Js

  /** For each operation: the exception it throws in a given state, if any. */
  datatype Faults = Faults(
    onGet: (map<string, string>, string) -> Option<Exception>,
    onSet: (map<string, string>, string, string) -> Option<Exception>,
    onRemove: (map<string, string>, string) -> Option<Exception>)

  /** A store none of whose operations ever throws. */
  function NoFaults(): Faults {
    Faults((items, key) => None, (items, key, value) => None, (items, key) => None)
  }

  /** A store whose operations never throw, whatever faults function is behind it. */
  ghost predicate Reliable(f: Faults) {
    && (forall items, key :: f.onGet(items, key).None?)
    && (forall items, key, value :: f.onSet(items, key, value).None?)
    && (forall items, key :: f.onRemove(items, key).None?)
  }

  /** `getItem(key)`: the stored text, `None` (null) for a missing key. */
  function StoreGet(f: Faults, items: map<string, string>, key: string): (r: Result<Option<string>, Exception>)
    ensures r.Err? <==> f.onGet(items, key).Some?
    ensures r.Ok? ==> (r.value.Some? <==> key in items) && (r.value.Some? ==> r.value.value == items[key])
  {
    match f.onGet(items, key)
    case Some(e) => Err(e)
    case None => Ok(if key in items then Some(items[key]) else None)
  }

  /** `setItem(key, value)`: afterwards `key` holds `value` and no other key changed. */
  function StoreSet(f: Faults, items: map<string, string>, key: string, value: string): (r: Result<map<string, string>, Exception>)
    ensures r.Err? <==> f.onSet(items, key, value).Some?
    ensures r.Ok? ==> key in r.value && r.value[key] == value && r.value - {key} == items - {key}
  {
    match f.onSet(items, key, value)
    case Some(e) => Err(e)
    case None => Ok(items[key := value])
  }

  /** `removeItem(key)`: afterwards `key` is absent and no other key changed. */
  function StoreRemove(f: Faults, items: map<string, string>, key: string): (r: Result<map<string, string>, Exception>)
    ensures r.Err? <==> f.onRemove(items, key).Some?
    ensures r.Ok? ==> key !in r.value && r.value - {key} == items - {key}
  {
    match f.onRemove(items, key)
    case Some(e) => Err(e)
    case None => Ok(items - {key})
  }

  /** A store object; several storage cells may share one. */
  class Storage {
    var items: map<string, string>
    const faults: Faults

    constructor (items: map<string, string>, faults: Faults)
      ensures this.items == items && this.faults == faults
    {
      this.items := items;
      this.faults := faults;
    }

    method GetItem(key: string) returns (r: Result<Option<string>, Exception>)
      ensures r == StoreGet(faults, items, key)
    {
      var fault := faults.onGet(items, key);
      if fault.Some? {
        r := Err(fault.value);
      } else if key in items {
        r := Ok(Some(items[key]));
      } else {
        r := Ok(None);
      }
    }

    method SetItem(key: string, value: string) returns (fault: Option<Exception>)
      modifies this
      ensures fault == faults.onSet(old(items), key, value)
      ensures items == (match StoreSet(faults, old(items), key, value)
                        case Ok(after) => after
                        case Err(_) => old(items))
    {
      fault := faults.onSet(items, key, value);
      if fault.None? {
        items := items[key := value];
      }
    }

    method RemoveItem(key: string) returns (fault: Option<Exception>)
      modifies this
      ensures fault == faults.onRemove(old(items), key)
      ensures items == (match StoreRemove(faults, old(items), key)
                        case Ok(after) => after
                        case Err(_) => old(items))
    {
      fault := faults.onRemove(items, key);
      if fault.None? {
        items := items - {key};
      }
    }
  }
}
