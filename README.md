# useStorage: a verified model of storage synchronisation

This project models the core of `useStorage` from `@vueuse/core`: a reactive
cell kept in step with one key of a synchronous key/value store
(`localStorage`-like). It covers the serializer table that converts between
cell values and stored text, the choice of serializer, the `read(event?)`
function that loads the key into the cell, and the watcher callback that writes
the cell back to the key. No exception escapes either path: each is passed to
`onError`.

Layout, one module per file:

- `wrappers.dfy` (`Wrappers`): `Option` and `Result`.
- `decimal.dfy` (`Decimal`): decimal text of integers, the integer part of `String(n)` and `Number.parseFloat`.
- `js.dfy` (`Js`): JavaScript values, exceptions, `String(v)`, `parseFloat`, and the JSON functions as a `JsonCodec` parameter.
- `js_collections.dfy` (`JsCollections`): `new Map(x)`, `new Set(x)`, iteration and `Array.from(x.entries())`.
- `serializers.dfy` (`Serializers`): the `StorageSerializers` table, `options.serializer ?? StorageSerializers[type]`, and round-trip lemmas.
- `storage_like.dfy` (`StorageLike`): the `StorageLike` interface as a `Storage` class. Its items are a `map<string, string>`. Fault functions decide when a call throws.
- `use_storage.dfy` (`UseStorage`): the `StorageRef` class, which holds the cell `data`, the store and the `onError` log.
  - Its methods `Read` and `Flush` are proved equal to the functions `ReadStep` and `FlushStep`.
  - Those functions carry the properties; lemmas relate several calls.
- `scenarios.dfy` (`Scenarios`): client methods for the usage scenarios: a missing key, a present key, an external change, removal, and contained failures.

Three behaviours of the code are worth stating up front:

- A `storage` event whose new value is null resets the cell to the initial value. When `writeDefaults` holds and the initial value is not `null`, it also writes the default back (`packages/core/useStorage/index.ts:150-155`). `UseStorage.ReadNullRaw` states it.
- When decoding an event's text throws, the cell keeps its current value. It does not fall back to the default (`packages/core/useStorage/index.ts:156-161`). `UseStorage.ReadDecodes` states it.
- The set entry writes `[v, v]` pairs and reads a flat list; see "## Findings". The table keeps this as written. The corrected serializer is modelled as an explicit `options.serializer`.

The JSON functions are a parameter. Properties that need them to round-trip
take `RoundTrips(json)` as a hypothesis: every JSON value (null, booleans,
numbers, strings, arrays and plain objects of them) is parsed back unchanged
from the text written for it.

## Model

| member | source | states |
|---|---|---|
| `Decimal.IntTextRoundTrip` | packages/core/useStorage/index.ts:42-43 | parsing the decimal text `String(n)` gives back every integer `n` |
| `Js.ToJsString` | packages/core/useStorage/index.ts:35 | `String(b)` of a boolean is "true" exactly when `b` is true |
| `Js.ParseFloat` | packages/core/useStorage/index.ts:42 | `Number.parseFloat` never throws; it yields a number or NaN |
| `JsCollections.Iterate` | packages/core/useStorage/index.ts:54-58 | iterating succeeds exactly for arrays, strings, maps and sets, and anything else throws a TypeError. An array or set yields its elements, a map its `[key, value]` pairs, a string its one-character strings |
| `JsCollections.MapSet` | packages/core/useStorage/index.ts:54 | `Map.prototype.set` keeps keys distinct, contains the new entry, keeps every entry with another key, and adds nothing else |
| `JsCollections.AddEntries` | packages/core/useStorage/index.ts:54 | building a map from items succeeds exactly when every item is an object, and yields distinct keys; which entries it holds is stated by `AddEntriesContents` |
| `JsCollections.AddElems` | packages/core/useStorage/index.ts:58 | building a set holds exactly the items seen, without repetitions |
| `JsCollections.NewMap` | packages/core/useStorage/index.ts:54 | `new Map(x)` succeeds exactly on null, undefined and iterables whose every item is an object; otherwise it throws a TypeError. The map it yields has distinct keys; its entries are stated by `NewMapContents` |
| `JsCollections.AddEntriesContents` | packages/core/useStorage/index.ts:54 | the entries the `new Map` loop leaves: each comes from the start map or is some item's `[0]`/`[1]` pair; a start entry whose key no item names stays; an item's pair is present when no later item names its key, so the last item for a key wins |
| `JsCollections.NewMapContents` | packages/core/useStorage/index.ts:54 | `new Map(x)` of null or undefined is empty; otherwise every entry is some iterated item's `[0]`/`[1]` pair, and every item's pair whose key no later item repeats is present |
| `JsCollections.Field` | packages/core/useStorage/index.ts:54 | a plain object's property is the value of the first field with that name, and `undefined` when no field has it |
| `Decimal.TrimStart` | packages/core/useStorage/index.ts:42 | `parseFloat` skips exactly the leading white space: everything dropped is white space and the rest does not start with it |
| `JsCollections.NewSet` | packages/core/useStorage/index.ts:58 | `new Set(x)` succeeds exactly on null, undefined and iterables, and otherwise throws a TypeError; it yields the distinct values iteration visits |
| `JsCollections.Entries` | packages/core/useStorage/index.ts:55-59 | `x.entries()` exists exactly on maps, sets and arrays; elsewhere it throws a TypeError. A map yields its `[key, value]` pairs, a set `[v, v]` pairs, an array `[index, item]` pairs |
| `JsCollections.SetEntryArrays` | packages/core/useStorage/index.ts:59 | a set's entry list has one `[v, v]` pair per element, in insertion order |
| `JsCollections.NewMapOfEntries` | packages/core/useStorage/index.ts:54-55 | a map rebuilt from its own entry list equals the map, order included |
| `JsCollections.NewSetOfDistinct` | packages/core/useStorage/index.ts:58 | a set built from a list of distinct values holds that list |
| `Serializers.SelectSerializer` | packages/core/useStorage/index.ts:143 | an explicit serializer is always used; only without one does the tag's table entry apply |
| `Serializers.BooleanRead` | packages/core/useStorage/index.ts:33-34 | the boolean read never throws, and yields `true` exactly for the text "true" |
| `Serializers.BooleanRoundTrip` | packages/core/useStorage/index.ts:33-36 | `read(write(b)) == b` for both booleans |
| `Serializers.TextRoundTrip` | packages/core/useStorage/index.ts:45-52 | the string and any reads are the identity on text, and every string round-trips |
| `Serializers.ObjectRoundTrip` | packages/core/useStorage/index.ts:37-40 | every JSON value round-trips through the object entry, given JSON round-trips |
| `Serializers.NumberRoundTrip` | packages/core/useStorage/index.ts:41-44 | every integer round-trips through the number entry |
| `Serializers.MapRoundTrip` | packages/core/useStorage/index.ts:53-56 | a map of JSON keys and values round-trips through the map entry, given JSON round-trips |
| `Serializers.SetRoundTripYieldsPairs` | packages/core/useStorage/index.ts:57-60 | a set comes back as the set of its `[v, v]` pairs; it equals the original exactly when the set is empty |
| `Serializers.FlatSetRoundTrip` | packages/core/useStorage/index.ts:57-60 | with a flat element list written, every set of JSON values round-trips |
| `StorageLike.StoreGet` | packages/core/useStorage/index.ts:27 | `getItem` returns the stored text, or null exactly when the key is missing; it throws only when the fault function says so |
| `StorageLike.StoreSet` | packages/core/useStorage/index.ts:28 | after `setItem` the key holds the value and no other key changed; it throws only when the fault function says so |
| `StorageLike.StoreRemove` | packages/core/useStorage/index.ts:29 | after `removeItem` the key is absent and no other key changed; it throws only when the fault function says so |
| `StorageLike.Storage.constructor` | packages/core/useStorage/index.ts:26-30 | a store starts with the given items and faults |
| `StorageLike.Storage.GetItem` | packages/core/useStorage/index.ts:27 | implements `StoreGet` without changing the store |
| `StorageLike.Storage.SetItem` | packages/core/useStorage/index.ts:28 | implements `StoreSet`; on a fault the items are unchanged |
| `StorageLike.Storage.RemoveItem` | packages/core/useStorage/index.ts:29 | implements `StoreRemove`; on a fault the items are unchanged |
| `UseStorage.ReadStep` | packages/core/useStorage/index.ts:145-163 | no store or a foreign event key changes nothing. Only the cell's key can change, at most one error is logged, and the store changes only by writing the serialized default after a null raw value. The cell only takes the initial value after a null raw value, or a value decoded from the raw text |
| `UseStorage.FlushStep` | packages/core/useStorage/index.ts:170-183 | the cell is untouched, only the key can change, and at most one error is logged. An error leaves the store as it was. Without an error, a null or undefined value leaves the key absent, and any other value leaves the key holding `write(value)` |
| `UseStorage.ReadIgnores` | packages/core/useStorage/index.ts:146-147 | with no store, or an event for another key or a cleared store, nothing changes |
| `UseStorage.ReadGetFails` | packages/core/useStorage/index.ts:149-161 | a throwing `getItem` appends exactly its exception to the log and changes nothing else |
| `UseStorage.ReadNullRaw` | packages/core/useStorage/index.ts:150-155 | a null raw value (missing key or event) resets the cell to the initial value. One `setItem` of the serialized default follows exactly when `writeDefaults` holds and the initial value is not null. A failure of write or setItem is logged once, and the reset stays |
| `UseStorage.ReadDecodes` | packages/core/useStorage/index.ts:156-161 | non-null raw text never writes the store. The cell takes `read(text)`, or on a failure keeps its value and exactly one error is logged |
| `Serializers.StorageSerializers` | packages/core/useStorage/index.ts:32-61 | states each entry's read and write, for any stored text: boolean reads `raw === 'true'`, number reads `Number.parseFloat(raw)`, any and string read the text unchanged, object reads `JSON.parse(raw)`, map reads `new Map(JSON.parse(raw))` (`ParseMap`), set reads `new Set(JSON.parse(raw))` (`ParseSet`); boolean, number, any and string write `String(v)`, object writes `JSON.stringify(v)`, and map and set share one write, `JSON.stringify` of the entry list |
| `Serializers.StringifyEntries` | packages/core/useStorage/index.ts:55-59 | writing a map or set succeeds exactly on maps, sets and arrays and otherwise throws a TypeError; a map is written as its `[key, value]` pairs, a set as its `[v, v]` pairs |
| `Serializers.ParseMap` | packages/core/useStorage/index.ts:54 | reading a map passes on a `JSON.parse` failure; otherwise it is `new Map` of the parsed value, a map with distinct keys |
| `Serializers.ParseSet` | packages/core/useStorage/index.ts:58 | reading a set passes on a `JSON.parse` failure; otherwise it is `new Set` of the parsed value, a set of distinct elements |
| `Serializers.FlatSetSerializer` | packages/core/useStorage/index.ts:57-60 | the corrected set serializer reads like the table's set entry and writes a set as the flat list of its elements |
| `Decimal.IntToString` | packages/core/useStorage/index.ts:43 | the decimal text of an integer is non-empty, starts with '-' exactly for negative numbers, and is digits after that sign |
| `Decimal.ParseInteger` | packages/core/useStorage/index.ts:42 | reading an integer prefix fails exactly when, after leading white space and one optional sign, no digit follows |
| `UseStorage.RawValue` | packages/core/useStorage/index.ts:150 | the raw text is the event's `newValue` when there is an event; otherwise `getItem(key)`, which throws exactly when the store's fault says so and is null exactly when the key is absent |
| `UseStorage.FlushRemoves` | packages/core/useStorage/index.ts:174-181 | a null or undefined cell value removes the key; a failing removeItem is logged once and changes nothing else |
| `UseStorage.FlushSets` | packages/core/useStorage/index.ts:177-181 | any other value is set as `write(value)`; a failing write or setItem is logged once and changes nothing else |
| `UseStorage.EventAgreesWithGetItem` | packages/core/useStorage/index.ts:150 | an event carrying the stored text has the same effect as reading the key from a store that never throws |
| `UseStorage.ReloadAfterFlush` | packages/core/useStorage/index.ts:150-183 | writing the cell and reading it back puts `read(write(v))` in the cell, and the key keeps the written text |
| `UseStorage.ReloadAfterRemove` | packages/core/useStorage/index.ts:150-176 | clearing the cell and reading back resets it to the initial value. The default is written back only when `writeDefaults` holds and the default is not null |
| `UseStorage.MapCellSurvivesReload` | packages/core/useStorage/index.ts:53-56 | a map cell holds the same map after a write and a reload |
| `UseStorage.SetCellCorruptedByReload` | packages/core/useStorage/index.ts:57-60 | a set cell holds the set of its `[v, v]` pairs after a write and a reload; it is unchanged exactly when the set is empty |
| `UseStorage.FlatSetCellSurvivesReload` | packages/core/useStorage/index.ts:143 | with the flat set serializer given explicitly, a set cell survives a reload |
| `UseStorage.StorageRef.constructor` | packages/core/useStorage/index.ts:120-165 | the cell starts at the initial value with an empty log and the selected serializer, then runs one `read()` |
| `UseStorage.StorageRef.OnError` | packages/core/useStorage/index.ts:134-136 | the handler appends the error to the log and changes nothing else |
| `UseStorage.StorageRef.Read` | packages/core/useStorage/index.ts:145-163 | the cell, the store and the log end as `ReadStep` says |
| `UseStorage.StorageRef.Assign` | packages/core/useStorage/index.ts:142 | a user's assignment sets the cell's value and nothing else |
| `UseStorage.StorageRef.Flush` | packages/core/useStorage/index.ts:170-183 | the store and the log end as `FlushStep` says |

## Left out

- Vue reactivity (`ref`/`shallowRef`, `watchWithFilter`, the `flush`, `deep`, `shallow` and `eventFilter` options) is left out. The watcher callback is the method `Flush`, invoked once per accepted change. Which changes are accepted, and when, is the framework's scheduling.
- Event subscription is left out: `useEventListener(window, 'storage', …)`, the `setTimeout(…, 0)` deferral, and the `window` and `listenToStorageChanges` options. An event is one atomic call of `Read(Some(event))`.
- `JSON.parse` and `JSON.stringify` are foreign calls. They are a `JsonCodec` parameter. Their round trip is the hypothesis `RoundTrips`, not a proved fact.
- Number values are unbounded integers or NaN. Fractions, exponents, `Infinity` and `-0` are not modelled. Nor is the exponent notation `String` uses from 10^21 up. `Js.ParseFloat` reads the integer prefix only, where `Number.parseFloat` would also read a fractional part or exponent.
- `guessSerializerType` (`./guess`) is not part of this model. The type tag is a constructor parameter.
- `StorageLikeAsync` and `SerializerAsync` are declared but `useStorage` never uses them.
- The default `onError` writes to the console. Every `onError` is modelled as appending to the log `errors`, so a handler that itself throws is not covered.
- `unref(initialValue)` is left out. The initial value is a plain value, not a ref.
- Keys of a `Map` and elements of a `Set` are compared structurally. JavaScript compares objects by identity, so two equal-looking arrays are two keys there.
- `String(v)` of a plain object is "[object Object]". Objects with their own `toString` or `valueOf`, symbols, bigints and functions are not values of the model.
- `StorageRef` values are immutable and `Assign` replaces the whole value. In the code `data` wraps the very object `rawInit` names (`packages/core/useStorage/index.ts:139-142`), so an in-place edit of an object cell also edits `rawInit`, and a later reset then writes the edited object. This aliasing is not modelled.
- The option defaults `writeDefaults = true` and an absent `serializer` are the defaults of `UseStorage.Options`. The default store `defaultWindow?.localStorage` is not: the store is always a constructor argument, `null` standing for no store.
- `UseStorage.Accepts` has no contract of its own. `UseStorage.ReadIgnores` states what it decides: without a store, or for an event on another key, `read` changes nothing.
- `meta/packages.ts` is a build manifest and has no behaviour to model.

## Findings

| source | as written | input that shows it | evidently intended | confidence | as-written member | corrected member |
|---|---|---|---|---|---|---|
| packages/core/useStorage/index.ts:57-60 | the set entry writes `JSON.stringify(Array.from(v.entries()))`, which is the `[v, v]` pairs, but reads `new Set(JSON.parse(raw))`, a set of whatever the list holds | `new Set([1])` is stored as `[[1,1]]` and read back as a set holding the array `[1,1]` | write the flat list of elements, so that every set reads back unchanged | not executed | `Serializers.SetRoundTripYieldsPairs` | `Serializers.FlatSetRoundTrip` |

The cell-level consequence is `UseStorage.SetCellCorruptedByReload`. The table
`Serializers.StorageSerializers` keeps the code as written. The corrected pair
`Serializers.FlatSetSerializer` is what a caller supplies as `options.serializer`.
`UseStorage.FlatSetCellSurvivesReload` shows a set cell then survives a reload.
