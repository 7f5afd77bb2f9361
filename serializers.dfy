/** The serializer registry: seven type tags, each with a `read` from the stored
    text to a value and a `write` from a value to the stored text. */
module Serializers {
  import opened Wrappers
  import opened Js
  import opened JsCollections

  /** The type tag that picks a built-in serializer. */
  datatype Tag = Boolean | Object | Number | Any | String | Map | Set

  /** A read/write pair; either direction may throw. */
  datatype Serializer = Serializer(read: string -> Result<Value, Exception>, write: Value -> Result<string, Exception>)

  /** `JSON.stringify(Array.from(v.entries()))`: the write of the map entry and,
      unchanged, of the set entry. */
  function StringifyEntries(json: JsonCodec, v: Value): (r: Result<string, Exception>)
    ensures r.Ok? <==> v.MapOf? || v.SetOf? || v.Arr?
    ensures r.Err? ==> r.error == TypeError
    ensures v.MapOf? ==> r == Ok(json.stringify(Arr(EntryArrays(v.entries))))
    ensures v.SetOf? ==> r == Ok(json.stringify(Arr(SetEntryArrays(v.elems))))
  {
    match Entries(v)
    case Err(e) => Err(e)
    case Ok(items) => Ok(json.stringify(Arr(items)))
  }

  /** `new Map(JSON.parse(raw))`. */
  function ParseMap(json: JsonCodec, raw: string): (r: Result<Value, Exception>)
    ensures json.parse(raw).Err? ==> r == json.parse(raw)
    ensures json.parse(raw).Ok? ==> r == NewMap(json.parse(raw).value)
    ensures r.Ok? ==> r.value.MapOf? && DistinctKeys(r.value.entries)
  {
    match json.parse(raw)
    case Err(e) => Err(e)
    case Ok(v) => NewMap(v)
  }

  /** `new Set(JSON.parse(raw))`. */
  function ParseSet(json: JsonCodec, raw: string): (r: Result<Value, Exception>)
    ensures json.parse(raw).Err? ==> r == json.parse(raw)
    ensures json.parse(raw).Ok? ==> r == NewSet(json.parse(raw).value)
    ensures r.Ok? ==> r.value.SetOf? && Distinct(r.value.elems)
  {
    match json.parse(raw)
    case Err(e) => Err(e)
    case Ok(v) => NewSet(v)
  }

  /** The table of built-in serializers. */
  function StorageSerializers(json: JsonCodec, tag: Tag): (s: Serializer)
    ensures tag in {Boolean, Number, String, Any} ==> forall v :: s.write(v) == Ok(ToJsString(v))
    ensures tag in {String, Any} ==> forall raw :: s.read(raw) == Ok(Str(raw))
    ensures tag in {Map, Set} ==> forall v :: s.write(v) == StringifyEntries(json, v)
    ensures tag == Boolean ==> forall raw :: s.read(raw) == Ok(Bool(raw == "true"))
    ensures tag == Number ==> forall raw :: s.read(raw) == Ok(ParseFloat(raw))
    ensures tag == Object ==> forall raw :: s.read(raw) == json.parse(raw)
    ensures tag == Object ==> forall v :: s.write(v) == Ok(json.stringify(v))
    ensures tag == Map ==> forall raw :: s.read(raw) == ParseMap(json, raw)
    ensures tag == Set ==> forall raw :: s.read(raw) == ParseSet(json, raw)
  {
    match tag
    case Boolean => Serializer(raw => Ok(Bool(raw == "true")), v => Ok(ToJsString(v)))
    case Object => Serializer(raw => json.parse(raw), v => Ok(json.stringify(v)))
    case Number => Serializer(raw => Ok(ParseFloat(raw)), v => Ok(ToJsString(v)))
    case Any => Serializer(raw => Ok(Str(raw)), v => Ok(ToJsString(v)))
    case String => Serializer(raw => Ok(Str(raw)), v => Ok(ToJsString(v)))
    case Map => Serializer(raw => ParseMap(json, raw), v => StringifyEntries(json, v))
    case Set => Serializer(raw => ParseSet(json, raw), v => StringifyEntries(json, v))
  }

  /** `options.serializer ?? StorageSerializers[type]`: an explicit serializer
      always wins over the table. */
  function SelectSerializer(explicit: Option<Serializer>, json: JsonCodec, tag: Tag): (s: Serializer)
    ensures explicit.Some? ==> s == explicit.value
    ensures explicit.None? ==> s == StorageSerializers(json, tag)
  {
    match explicit
    case Some(custom) => custom
    case None => StorageSerializers(json, tag)
  }

  /** The boolean entry reads `true` from exactly the text "true" and never throws;
      every other text, "True" and "1" included, reads as `false`. */
  lemma BooleanRead(json: JsonCodec, raw: string)
    ensures var r := StorageSerializers(json, Boolean).read(raw);
            r.Ok? && r.value.Bool? && (r.value.b <==> raw == "true")
  {
  }

  lemma BooleanRoundTrip(json: JsonCodec, b: bool)
    ensures var s := StorageSerializers(json, Boolean);
            s.write(Bool(b)).Ok? && s.read(s.write(Bool(b)).value) == Ok(Bool(b))
  {
  }

  /** The string and any entries read the stored text as it is, so every
      string comes back unchanged. */
  lemma TextRoundTrip(json: JsonCodec, tag: Tag, text: string)
    requires tag == String || tag == Any
    ensures StorageSerializers(json, tag).read(text) == Ok(Str(text))
    ensures var s := StorageSerializers(json, tag);
            s.write(Str(text)) == Ok(text) && s.read(s.write(Str(text)).value) == Ok(Str(text))
  {
  }

  lemma ObjectRoundTrip(json: JsonCodec, v: Value)
    requires RoundTrips(json) && IsJson(v)
    ensures var s := StorageSerializers(json, Object);
            s.write(v).Ok? && s.read(s.write(v).value) == Ok(v)
  {
  }

  /** Integers survive the number entry; reading text with no leading digits gives NaN. */
  lemma NumberRoundTrip(json: JsonCodec, n: int)
    ensures var s := StorageSerializers(json, Number);
            s.write(Num(n)).Ok? && s.read(s.write(Num(n)).value) == Ok(Num(n))
  {
    NumberTextRoundTrip(n);
  }

  lemma EntryArraysAreJson(es: seq<(Value, Value)>)
    requires forall i | 0 <= i < |es| :: IsJson(es[i].0) && IsJson(es[i].1)
    ensures IsJson(Arr(EntryArrays(es)))
  {
    var items := EntryArrays(es);
    forall i | 0 <= i < |items| ensures IsJson(items[i]) {
      var pair := [es[i].0, es[i].1];
      assert forall j | 0 <= j < 2 :: IsJson(pair[j]);
    }
  }

  lemma SetEntryArraysAreJson(xs: seq<Value>)
    requires forall i | 0 <= i < |xs| :: IsJson(xs[i])
    ensures IsJson(Arr(SetEntryArrays(xs)))
  {
    var items := SetEntryArrays(xs);
    forall i | 0 <= i < |items| ensures IsJson(items[i]) {
      var pair := [xs[i], xs[i]];
      assert forall j | 0 <= j < 2 :: IsJson(pair[j]);
    }
  }

  /** A map whose keys and values are JSON values comes back equal, entry order
      included, from the map entry. */
  lemma MapRoundTrip(json: JsonCodec, es: seq<(Value, Value)>)
    requires RoundTrips(json)
    requires DistinctKeys(es)
    requires forall i | 0 <= i < |es| :: IsJson(es[i].0) && IsJson(es[i].1)
    ensures var s := StorageSerializers(json, Map);
            s.write(MapOf(es)).Ok? && s.read(s.write(MapOf(es)).value) == Ok(MapOf(es))
  {
    var items := EntryArrays(es);
    EntryArraysAreJson(es);
    assert json.parse(json.stringify(Arr(items))) == Ok(Arr(items));
    NewMapOfEntries(es);
  }

  lemma SetEntryArraysDistinct(xs: seq<Value>)
    requires Distinct(xs)
    ensures Distinct(SetEntryArrays(xs))
  {
    var ps := SetEntryArrays(xs);
    forall i, j | 0 <= i < j < |ps| ensures ps[i] != ps[j] {
      assert ps[i].items[0] == xs[i] && ps[j].items[0] == xs[j];
    }
  }

  /** The set entry writes the `[v, v]` pairs of `Set.prototype.entries` but reads
      a set of whatever the list holds: a set comes back as the set of its pairs,
      so exactly the empty set survives the round trip. */
  lemma SetRoundTripYieldsPairs(json: JsonCodec, xs: seq<Value>)
    requires RoundTrips(json)
    requires Distinct(xs)
    requires forall i | 0 <= i < |xs| :: IsJson(xs[i])
    ensures var s := StorageSerializers(json, Set);
            && s.write(SetOf(xs)).Ok?
            && s.read(s.write(SetOf(xs)).value) == Ok(SetOf(SetEntryArrays(xs)))
            && (s.read(s.write(SetOf(xs)).value) == Ok(SetOf(xs)) <==> xs == [])
  {
    var pairs := SetEntryArrays(xs);
    SetEntryArraysAreJson(xs);
    assert json.parse(json.stringify(Arr(pairs))) == Ok(Arr(pairs));
    SetEntryArraysDistinct(xs);
    NewSetOfDistinct(pairs);
    if xs != [] {
      assert pairs[0] == Arr([xs[0], xs[0]]);
      assert xs[0] in pairs[0].items;
      assert pairs != xs;
    }
  }

  /** `JSON.stringify([...v])`: the flat list of the values iterating `v` visits. */
  function StringifyElements(json: JsonCodec, v: Value): Result<string, Exception> {
    match Iterate(v)
    case Err(e) => Err(e)
    case Ok(items) => Ok(json.stringify(Arr(items)))
  }

  /** A set serializer whose write matches its read. */
  function FlatSetSerializer(json: JsonCodec): (s: Serializer)
    ensures forall raw :: s.read(raw) == StorageSerializers(json, Set).read(raw)
    ensures forall xs :: s.write(SetOf(xs)) == Ok(json.stringify(Arr(xs)))
  {
    Serializer(raw => ParseSet(json, raw), v => StringifyElements(json, v))
  }

  /** With the flat encoding every set of JSON values comes back unchanged. */
  lemma FlatSetRoundTrip(json: JsonCodec, xs: seq<Value>)
    requires RoundTrips(json)
    requires Distinct(xs)
    requires forall i | 0 <= i < |xs| :: IsJson(xs[i])
    ensures var s := FlatSetSerializer(json);
            s.write(SetOf(xs)).Ok? && s.read(s.write(SetOf(xs)).value) == Ok(SetOf(xs))
  {
    assert IsJson(Arr(xs));
    assert StringifyElements(json, SetOf(xs)) == Ok(json.stringify(Arr(xs)));
    assert json.parse(json.stringify(Arr(xs))) == Ok(Arr(xs));
    NewSetOfDistinct(xs);
  }
}
