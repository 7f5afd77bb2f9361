/** The storage cell: a value kept in step with one key of a store. `read`
    loads the key into the cell (at start-up and on a `storage` event from
    another page); the watcher writes the cell back to the key after each
    accepted change. No exception escapes either: each goes to `onError`. */
module UseStorage {
  import opened Wrappers
  import opened Js
  import opened Serializers
  import opened StorageLike
  import JsCollections

  /** A `storage` event: the key that changed (`None` when the whole store was
      cleared) and its new text (`None` when it was removed). */
  datatype StorageEvent = StorageEvent(key: Option<string>, newValue: Option<string>)

  /** The options the synchronisation depends on, with their defaults. */
  datatype Options = Options(writeDefaults: bool := true, serializer: Option<Serializer> := None)

  /** What a storage cell fixes when it is made: its key, its initial value, the
      store (absent when there is none; then only its faults matter here),
      whether defaults are written back, and the serializer in use. */
  datatype SyncConfig = SyncConfig(
    key: string,
    rawInit: Value,
    storage: Option<Faults>,
    writeDefaults: bool,
    serializer: Serializer)

  /** What changes: the cell's value, the store's contents, and the errors
      passed to `onError` so far. */
  datatype SyncState = SyncState(data: Value, items: map<string, string>, errors: seq<Exception>)

  predicate OnlyKeyChanged(before: map<string, string>, after: map<string, string>, key: string) {
    after - {key} == before - {key}
  }

  predicate AtMostOneAppended(before: seq<Exception>, after: seq<Exception>) {
    after == before || (|after| == |before| + 1 && after[..|before|] == before)
  }

  function Logged(s: SyncState, e: Exception): SyncState {
    s.(errors := s.errors + [e])
  }

  /** `read(event)` acts only when there is a store and the event, if any, is
      about this cell's key. */
  predicate Accepts(c: SyncConfig, event: Option<StorageEvent>) {
    c.storage.Some? && (event.None? || event.value.key == Some(c.key))
  }

  /** The raw text `read` decodes: the event's new value, or `getItem(key)`. */
  function RawValue(c: SyncConfig, s: SyncState, event: Option<StorageEvent>): (r: Result<Option<string>, Exception>)
    requires c.storage.Some?
    ensures event.Some? ==> r == Ok(event.value.newValue)
    ensures event.None? && r.Ok? ==> (r.value.Some? <==> c.key in s.items) && (r.value.Some? ==> r.value.value == s.items[c.key])
    ensures event.None? ==> (r.Err? <==> c.storage.value.onGet(s.items, c.key).Some?)
  {
    if event.Some? then Ok(event.value.newValue) else StoreGet(c.storage.value, s.items, c.key)
  }

  /** The body of `read(event)`. */
  function ReadStep(c: SyncConfig, s: SyncState, event: Option<StorageEvent>): (r: SyncState)
    ensures !Accepts(c, event) ==> r == s
    ensures OnlyKeyChanged(s.items, r.items, c.key)
    ensures AtMostOneAppended(s.errors, r.errors)
    ensures r.items != s.items ==>
              && Accepts(c, event) && RawValue(c, s, event) == Ok(None)
              && c.writeDefaults && c.rawInit != Null
              && r.data == c.rawInit && r.errors == s.errors
              && c.key in r.items && c.serializer.write(c.rawInit) == Ok(r.items[c.key])
    ensures r.data != s.data ==>
              && Accepts(c, event)
              && (|| (RawValue(c, s, event) == Ok(None) && r.data == c.rawInit)
                  || (exists text :: RawValue(c, s, event) == Ok(Some(text)) && c.serializer.read(text) == Ok(r.data)))
  {
    if !Accepts(c, event) then s
    else
      match RawValue(c, s, event)
      case Err(e) => Logged(s, e)
      case Ok(None) =>
        var reset := s.(data := c.rawInit);
        if c.writeDefaults && c.rawInit != Null then
          match c.serializer.write(c.rawInit)
          case Err(e) => Logged(reset, e)
          case Ok(text) =>
            match StoreSet(c.storage.value, s.items, c.key, text)
            case Err(e) => Logged(reset, e)
            case Ok(after) => reset.(items := after)
        else reset
      case Ok(Some(text)) =>
        match c.serializer.read(text)
        case Err(e) => Logged(s, e)
        case Ok(v) => s.(data := v)
  }

  /** The watcher's body, run once per accepted change of the cell. */
  function FlushStep(c: SyncConfig, s: SyncState): (r: SyncState)
    ensures c.storage.None? ==> r == s
    ensures r.data == s.data
    ensures OnlyKeyChanged(s.items, r.items, c.key)
    ensures AtMostOneAppended(s.errors, r.errors)
    ensures r.errors != s.errors ==> r.items == s.items
    ensures c.storage.Some? && r.errors == s.errors ==>
              if IsNullish(s.data) then c.key !in r.items
              else c.key in r.items && c.serializer.write(s.data) == Ok(r.items[c.key])
  {
    match c.storage
    case None => s
    case Some(f) =>
      if IsNullish(s.data) then
        match StoreRemove(f, s.items, c.key)
        case Err(e) => Logged(s, e)
        case Ok(after) => s.(items := after)
      else
        match c.serializer.write(s.data)
        case Err(e) => Logged(s, e)
        case Ok(text) =>
          match StoreSet(f, s.items, c.key, text)
          case Err(e) => Logged(s, e)
          case Ok(after) => s.(items := after)
  }

  /** An absent store, or an event about another key (or a cleared store),
      leaves the cell, the store and the error log as they were. */
  lemma ReadIgnores(c: SyncConfig, s: SyncState, event: Option<StorageEvent>)
    requires c.storage.None? || (event.Some? && event.value.key != Some(c.key))
    ensures ReadStep(c, s, event) == s
  {
  }

  /** `getItem` throwing is reported once and changes nothing else. */
  lemma ReadGetFails(c: SyncConfig, s: SyncState)
    requires c.storage.Some? && c.storage.value.onGet(s.items, c.key).Some?
    ensures ReadStep(c, s, None) == Logged(s, c.storage.value.onGet(s.items, c.key).value)
  {
  }

  /** A missing key, or an event whose new value is null: the cell takes the
      initial value, and the serialized initial value is written back with one
      `setItem` exactly when `writeDefaults` holds and the initial value is not
      `null`. A failure of `write` or `setItem` is reported once; the reset of
      the cell, made before it, stays. */
  lemma ReadNullRaw(c: SyncConfig, s: SyncState, event: Option<StorageEvent>)
    requires Accepts(c, event) && RawValue(c, s, event) == Ok(None)
    ensures ReadStep(c, s, event).data == c.rawInit
    ensures !(c.writeDefaults && c.rawInit != Null) ==>
              ReadStep(c, s, event) == s.(data := c.rawInit)
    ensures c.writeDefaults && c.rawInit != Null ==>
              match c.serializer.write(c.rawInit)
              case Err(e) => ReadStep(c, s, event) == Logged(s.(data := c.rawInit), e)
              case Ok(text) =>
                match StoreSet(c.storage.value, s.items, c.key, text)
                case Err(e) => ReadStep(c, s, event) == Logged(s.(data := c.rawInit), e)
                case Ok(after) => ReadStep(c, s, event) == s.(data := c.rawInit, items := after)
  {
  }

  /** Non-null raw text: the cell takes the decoded value and the store is not
      written; a decoding failure is reported once and leaves the cell as it was. */
  lemma ReadDecodes(c: SyncConfig, s: SyncState, event: Option<StorageEvent>, text: string)
    requires Accepts(c, event) && RawValue(c, s, event) == Ok(Some(text))
    ensures ReadStep(c, s, event).items == s.items
    ensures match c.serializer.read(text)
            case Ok(v) => ReadStep(c, s, event) == s.(data := v)
            case Err(e) => ReadStep(c, s, event) == Logged(s, e)
  {
  }

  /** A null or undefined cell value removes the key; a failing `removeItem`
      is reported once. */
  lemma FlushRemoves(c: SyncConfig, s: SyncState)
    requires c.storage.Some? && IsNullish(s.data)
    ensures match StoreRemove(c.storage.value, s.items, c.key)
            case Ok(after) => FlushStep(c, s) == s.(items := after)
            case Err(e) => FlushStep(c, s) == Logged(s, e)
  {
  }

  /** Any other value is serialized and set under the key; a failing `write`
      or `setItem` is reported once and leaves the store as it was. */
  lemma FlushSets(c: SyncConfig, s: SyncState)
    requires c.storage.Some? && !IsNullish(s.data)
    ensures match c.serializer.write(s.data)
            case Err(e) => FlushStep(c, s) == Logged(s, e)
            case Ok(text) =>
              match StoreSet(c.storage.value, s.items, c.key, text)
              case Ok(after) => FlushStep(c, s) == s.(items := after)
              case Err(e) => FlushStep(c, s) == Logged(s, e)
  {
  }

  /** An event that carries what the store holds for the key has the same
      effect as reading the key from a store that never throws. */
  lemma EventAgreesWithGetItem(c: SyncConfig, s: SyncState, newValue: Option<string>)
    requires c.storage.Some? && Reliable(c.storage.value)
    requires newValue == (if c.key in s.items then Some(s.items[c.key]) else None)
    ensures ReadStep(c, s, Some(StorageEvent(Some(c.key), newValue))) == ReadStep(c, s, None)
  {
    assert c.storage.value.onGet(s.items, c.key).None?;
  }

  /** Writing the cell to a store that never throws and reading it back puts
      `read(write(v))` in the cell, and the store keeps the written text. */
  lemma ReloadAfterFlush(c: SyncConfig, s: SyncState)
    requires c.storage.Some? && Reliable(c.storage.value)
    requires !IsNullish(s.data) && c.serializer.write(s.data).Ok?
    ensures var written := FlushStep(c, s);
            var text := c.serializer.write(s.data).value;
            && written.items == s.items[c.key := text]
            && ReadStep(c, written, None).items == written.items
            && match c.serializer.read(text)
               case Ok(v) => ReadStep(c, written, None) == written.(data := v)
               case Err(e) => ReadStep(c, written, None) == Logged(written, e)
  {
  }

  /** Clearing the cell on a store that never throws and reading it back resets
      the cell to the initial value, which is written back when defaults are. */
  lemma ReloadAfterRemove(c: SyncConfig, s: SyncState)
    requires c.storage.Some? && Reliable(c.storage.value)
    requires IsNullish(s.data)
    ensures var r := ReadStep(c, FlushStep(c, s), None);
            && r.data == c.rawInit
            && (!(c.writeDefaults && c.rawInit != Null) ==> c.key !in r.items)
            && (c.writeDefaults && c.rawInit != Null && c.serializer.write(c.rawInit).Ok? ==>
                  c.key in r.items && r.items[c.key] == c.serializer.write(c.rawInit).value)
  {
  }

  /** A cell holding a map of JSON values, with the map serializer, holds the
      same map again after being written and read back. */
  lemma MapCellSurvivesReload(json: JsonCodec, c: SyncConfig, s: SyncState)
    requires RoundTrips(json) && c.serializer == StorageSerializers(json, Map)
    requires c.storage.Some? && Reliable(c.storage.value)
    requires s.data.MapOf? && DistinctKeys(s.data.entries)
    requires forall i | 0 <= i < |s.data.entries| :: IsJson(s.data.entries[i].0) && IsJson(s.data.entries[i].1)
    ensures ReadStep(c, FlushStep(c, s), None).data == s.data
  {
    MapRoundTrip(json, s.data.entries);
    ReloadAfterFlush(c, s);
  }

  /** A cell holding a non-empty set, with the set serializer, holds a different
      value after being written and read back: the set of its `[v, v]` pairs. */
  lemma SetCellCorruptedByReload(json: JsonCodec, c: SyncConfig, s: SyncState)
    requires RoundTrips(json) && c.serializer == StorageSerializers(json, Set)
    requires c.storage.Some? && Reliable(c.storage.value)
    requires s.data.SetOf? && Distinct(s.data.elems)
    requires forall i | 0 <= i < |s.data.elems| :: IsJson(s.data.elems[i])
    ensures ReadStep(c, FlushStep(c, s), None).data == SetOf(JsCollections.SetEntryArrays(s.data.elems))
    ensures ReadStep(c, FlushStep(c, s), None).data == s.data <==> s.data.elems == []
  {
    SetRoundTripYieldsPairs(json, s.data.elems);
    ReloadAfterFlush(c, s);
  }

  /** With the flat set serializer supplied as `options.serializer`, which wins
      over the table, a set cell holds the same set after a reload. */
  lemma FlatSetCellSurvivesReload(json: JsonCodec, c: SyncConfig, s: SyncState)
    requires RoundTrips(json) && c.serializer == SelectSerializer(Some(FlatSetSerializer(json)), json, Set)
    requires c.storage.Some? && Reliable(c.storage.value)
    requires s.data.SetOf? && Distinct(s.data.elems)
    requires forall i | 0 <= i < |s.data.elems| :: IsJson(s.data.elems[i])
    ensures ReadStep(c, FlushStep(c, s), None).data == s.data
  {
    FlatSetRoundTrip(json, s.data.elems);
    ReloadAfterFlush(c, s);
  }

  /** A storage cell: `useStorage(key, initialValue, storage, options)`. */
  class StorageRef {
    const key: string
    const rawInit: Value
    const storage: Storage?
    const writeDefaults: bool
    const serializer: Serializer
    var data: Value
    var errors: seq<Exception>

    function Config(): SyncConfig {
      SyncConfig(key, rawInit, if storage == null then None else Some(storage.faults), writeDefaults, serializer)
    }

    function State(): SyncState
      reads this, storage
    {
      SyncState(data, if storage == null then map[] else storage.items, errors)
    }

    /** Sets up the cell with the initial value and runs the first `read()`. */
    constructor (key: string, initialValue: Value, storage: Storage?, options: Options, json: JsonCodec, tag: Tag)
      modifies storage
      ensures this.key == key && this.rawInit == initialValue && this.storage == storage
      ensures writeDefaults == options.writeDefaults
      ensures serializer == SelectSerializer(options.serializer, json, tag)
      ensures State() == ReadStep(Config(), SyncState(initialValue, old(if storage == null then map[] else storage.items), []), None)
    {
      this.key := key;
      this.rawInit := initialValue;
      this.storage := storage;
      this.writeDefaults := options.writeDefaults;
      this.serializer := SelectSerializer(options.serializer, json, tag);
      this.data := initialValue;
      this.errors := [];
      new;
      Read(None);
    }

    /** The `onError` handler: the error is recorded and nothing else changes. */
    method OnError(e: Exception)
      modifies this`errors
      ensures errors == old(errors) + [e]
    {
      errors := errors + [e];
    }

    /** `read(event)`: loads the key into the cell. */
    method Read(event: Option<StorageEvent>)
      modifies this`data, this`errors, storage
      ensures State() == ReadStep(Config(), old(State()), event)
    {
      if storage == null || (event.Some? && event.value.key != Some(key)) {
        return;
      }
      var raw: Result<Option<string>, Exception>;
      if event.Some? {
        raw := Ok(event.value.newValue);
      } else {
        raw := storage.GetItem(key);
      }
      match raw {
        case Err(e) =>
          OnError(e);
        case Ok(None) =>
          data := rawInit;
          if writeDefaults && rawInit != Null {
            var text := serializer.write(rawInit);
            match text {
              case Err(e) =>
                OnError(e);
              case Ok(t) =>
                var fault := storage.SetItem(key, t);
                if fault.Some? {
                  OnError(fault.value);
                }
            }
          }
        case Ok(Some(t)) =>
          var v := serializer.read(t);
          match v {
            case Err(e) =>
              OnError(e);
            case Ok(value) =>
              data := value;
          }
      }
    }

    /** A change of the cell's value by its user (`data.value = v`). */
    method Assign(v: Value)
      modifies this`data
      ensures data == v
    {
      data := v;
    }

    /** The watcher's callback: writes the cell's value to the key. */
    method Flush()
      modifies this`errors, storage
      ensures State() == FlushStep(Config(), old(State()))
    {
      if storage == null {
        return;
      }
      if data == Null || data == Undefined {
        var fault := storage.RemoveItem(key);
        if fault.Some? {
          OnError(fault.value);
        }
      } else {
        var text := serializer.write(data);
        match text {
          case Err(e) =>
            OnError(e);
          case Ok(t) =>
            var fault := storage.SetItem(key, t);
            if fault.Some? {
              OnError(fault.value);
            }
        }
      }
    }
  }
}
