/** The parts of JavaScript's `Map` and `Set` the map and set serializers use:
    building a collection from an iterable (`new Map(x)`, `new Set(x)`) and
    listing a collection's entries (`Array.from(x.entries())`). */
module JsCollections {
  import opened Wrappers
  import opened Js

  /** The entries of a map as two-element arrays `[key, value]`, as iterating a
      `Map` yields them. */
  function EntryArrays(es: seq<(Value, Value)>): (r: seq<Value>)
    ensures |r| == |es|
    ensures forall i | 0 <= i < |es| :: r[i] == Arr([es[i].0, es[i].1])
  {
    seq(|es|, i requires 0 <= i < |es| => Arr([es[i].0, es[i].1]))
  }

  /** The entries of a set as `Set.prototype.entries` yields them: `[v, v]`. */
  function SetEntryArrays(xs: seq<Value>): (r: seq<Value>)
    ensures |r| == |xs|
    ensures forall i | 0 <= i < |xs| :: r[i] == Arr([xs[i], xs[i]])
  {
    seq(|xs|, i requires 0 <= i < |xs| => Arr([xs[i], xs[i]]))
  }

  /** The values a `for…of` loop over `v` visits; a value that is not iterable
      throws a TypeError. A string yields its characters one by one. */
  function Iterate(v: Value): (r: Result<seq<Value>, Exception>)
    ensures r.Ok? <==> v.Arr? || v.Str? || v.MapOf? || v.SetOf?
    ensures r.Err? ==> r.error == TypeError
    ensures v.Arr? ==> r == Ok(v.items)
    ensures v.SetOf? ==> r == Ok(v.elems)
    ensures v.MapOf? ==> r == Ok(EntryArrays(v.entries))
    ensures v.Str? ==> r.Ok? && |r.value| == |v.s| && forall i | 0 <= i < |v.s| :: r.value[i] == Str([v.s[i]])
  {
    match v
    case Arr(xs) => Ok(xs)
    case Str(s) => Ok(seq(|s|, i requires 0 <= i < |s| => Str([s[i]])))
    case MapOf(es) => Ok(EntryArrays(es))
    case SetOf(xs) => Ok(xs)
    case _ => Err(TypeError)
  }

  /** The field of a plain object named `name`, `undefined` when absent. */
  function Field(fs: seq<(string, Value)>, name: string): (v: Value)
    ensures v.Undefined? || exists i | 0 <= i < |fs| :: fs[i] == (name, v)
    ensures (forall i | 0 <= i < |fs| :: fs[i].0 != name) ==> v == Undefined
    ensures forall i | 0 <= i < |fs| && fs[i].0 == name && (forall j | 0 <= j < i :: fs[j].0 != name) :: v == fs[i].1
  {
    if fs == [] then Undefined
    else if fs[0].0 == name then fs[0].1
    else Field(fs[1..], name)
  }

  /** `item[index]`: the element of an array or the field of a plain object
      named by the index; `undefined` when there is none. */
  function Property(item: Value, index: nat): Value {
    match item
    case Arr(xs) => if index < |xs| then xs[index] else Undefined
    case Obj(fs) => Field(fs, Decimal.IntToString(index))
    case _ => Undefined
  }

  /** `Map.prototype.set`: a present key keeps its position and takes the new
      value; a new key is appended. */
  function MapSet(es: seq<(Value, Value)>, k: Value, v: Value): (r: seq<(Value, Value)>)
    ensures (k, v) in r
    ensures forall e | e in r :: e == (k, v) || e in es
    ensures forall e | e in es && e.0 != k :: e in r
    ensures DistinctKeys(es) ==> DistinctKeys(r)
  {
    if es == [] then [(k, v)]
    else if es[0].0 == k then [(k, v)] + es[1..]
    else [es[0]] + MapSet(es[1..], k, v)
  }

  /** The loop of `new Map(iterable)`: every item must be an object; its
      properties 0 and 1 are set as key and value. */
  function AddEntries(acc: seq<(Value, Value)>, items: seq<Value>): (r: Result<seq<(Value, Value)>, Exception>)
    ensures r.Ok? <==> forall i | 0 <= i < |items| :: IsObject(items[i])
    ensures r.Err? ==> r.error == TypeError
    ensures r.Ok? && DistinctKeys(acc) ==> DistinctKeys(r.value)
    decreases items
  {
    if items == [] then Ok(acc)
    else if !IsObject(items[0]) then Err(TypeError)
    else AddEntries(MapSet(acc, Property(items[0], 0), Property(items[0], 1)), items[1..])
  }

  /** The key and value `new Map` takes from one item: its properties 0 and 1. */
  function PairOf(item: Value): (Value, Value) {
    (Property(item, 0), Property(item, 1))
  }

  /** Which entries the loop of `new Map` leaves: each comes from the start map
      or from an item; a start entry whose key no item names stays; and an
      item's pair stays when no later item names the same key (the last item
      for a key wins). */
  lemma {:induction false} AddEntriesContents(acc: seq<(Value, Value)>, items: seq<Value>)
    requires AddEntries(acc, items).Ok?
    ensures forall e | e in AddEntries(acc, items).value ::
      e in acc || exists i | 0 <= i < |items| :: e == PairOf(items[i])
    ensures forall e | e in acc && (forall i | 0 <= i < |items| :: Property(items[i], 0) != e.0) ::
      e in AddEntries(acc, items).value
    ensures forall i | 0 <= i < |items| && (forall j | i < j < |items| :: Property(items[j], 0) != Property(items[i], 0)) ::
      PairOf(items[i]) in AddEntries(acc, items).value
    decreases items
  {
    if items != [] {
      var p := PairOf(items[0]);
      var acc' := MapSet(acc, p.0, p.1);
      var tail := items[1..];
      var r := AddEntries(acc, items).value;
      assert AddEntries(acc', tail) == AddEntries(acc, items);
      AddEntriesContents(acc', tail);
      forall e | e in r
        ensures e in acc || exists i | 0 <= i < |items| :: e == PairOf(items[i])
      {
        if e in acc' {
          if e == p {
            assert e == PairOf(items[0]);
          }
        } else {
          var k :| 0 <= k < |tail| && e == PairOf(tail[k]);
          assert items[k + 1] == tail[k];
        }
      }
      forall e | e in acc && (forall i | 0 <= i < |items| :: Property(items[i], 0) != e.0)
        ensures e in r
      {
        assert Property(items[0], 0) != e.0;
        assert e in acc';
        forall i | 0 <= i < |tail| ensures Property(tail[i], 0) != e.0 {
          assert tail[i] == items[i + 1];
        }
      }
      forall i | 0 <= i < |items| && (forall j | i < j < |items| :: Property(items[j], 0) != Property(items[i], 0))
        ensures PairOf(items[i]) in r
      {
        if i == 0 {
          assert p in acc';
          forall j | 0 <= j < |tail| ensures Property(tail[j], 0) != p.0 {
            assert tail[j] == items[j + 1];
          }
        } else {
          assert tail[i - 1] == items[i];
          forall j | i - 1 < j < |tail| ensures Property(tail[j], 0) != Property(tail[i - 1], 0) {
            assert tail[j] == items[j + 1];
          }
        }
      }
    }
  }

  /** The loop of `new Set(iterable)`: each item not yet present is appended. */
  function AddElems(acc: seq<Value>, items: seq<Value>): (r: seq<Value>)
    ensures forall x :: x in r <==> x in acc || x in items
    ensures Distinct(acc) ==> Distinct(r)
    decreases items
  {
    if items == [] then acc
    else AddElems(if items[0] in acc then acc else acc + [items[0]], items[1..])
  }

  /** `new Map(v)`: null and undefined give an empty map. */
  function NewMap(v: Value): (r: Result<Value, Exception>)
    ensures r.Ok? <==> IsNullish(v) || (Iterate(v).Ok? && forall i | 0 <= i < |Iterate(v).value| :: IsObject(Iterate(v).value[i]))
    ensures r.Err? ==> r.error == TypeError
    ensures r.Ok? ==> r.value.MapOf? && DistinctKeys(r.value.entries)
  {
    if IsNullish(v) then Ok(MapOf([]))
    else
      match Iterate(v)
      case Err(e) => Err(e)
      case Ok(items) =>
        match AddEntries([], items)
        case Err(e) => Err(e)
        case Ok(es) => Ok(MapOf(es))
  }

  /** The entries of `new Map(v)`: none for null and undefined; otherwise each
      is some item's pair, and every item's pair whose key no later item names
      is present. */
  lemma NewMapContents(v: Value)
    requires NewMap(v).Ok?
    ensures IsNullish(v) ==> NewMap(v).value.entries == []
    ensures !IsNullish(v) ==> forall e | e in NewMap(v).value.entries ::
      exists i | 0 <= i < |Iterate(v).value| :: e == PairOf(Iterate(v).value[i])
    ensures !IsNullish(v) ==> forall i | 0 <= i < |Iterate(v).value|
      && (forall j | i < j < |Iterate(v).value| :: Property(Iterate(v).value[j], 0) != Property(Iterate(v).value[i], 0)) ::
      PairOf(Iterate(v).value[i]) in NewMap(v).value.entries
  {
    if !IsNullish(v) {
      AddEntriesContents([], Iterate(v).value);
    }
  }

  /** `new Set(v)`: null and undefined give an empty set; otherwise the set of
      the values iterating `v` visits. */
  function NewSet(v: Value): (r: Result<Value, Exception>)
    ensures r.Ok? <==> IsNullish(v) || Iterate(v).Ok?
    ensures r.Err? ==> r.error == TypeError
    ensures r.Ok? ==> r.value.SetOf? && Distinct(r.value.elems)
    ensures r.Ok? && !IsNullish(v) ==> forall x :: x in r.value.elems <==> x in Iterate(v).value
  {
    if IsNullish(v) then Ok(SetOf([]))
    else
      match Iterate(v)
      case Err(e) => Err(e)
      case Ok(items) => Ok(SetOf(AddElems([], items)))
  }

  /** `Array.from(v.entries())`: the method exists on maps, sets and arrays;
      on anything else calling it throws a TypeError. */
  function Entries(v: Value): (r: Result<seq<Value>, Exception>)
    ensures r.Ok? <==> v.MapOf? || v.SetOf? || v.Arr?
    ensures r.Err? ==> r.error == TypeError
    ensures v.MapOf? ==> r == Ok(EntryArrays(v.entries))
    ensures v.SetOf? ==> r == Ok(SetEntryArrays(v.elems))
    ensures v.Arr? ==> r.Ok? && |r.value| == |v.items|
                       && forall i | 0 <= i < |v.items| :: r.value[i] == Arr([Num(i), v.items[i]])
  {
    match v
    case MapOf(es) => Ok(EntryArrays(es))
    case SetOf(xs) => Ok(SetEntryArrays(xs))
    case Arr(xs) => Ok(seq(|xs|, i requires 0 <= i < |xs| => Arr([Num(i), xs[i]])))
    case _ => Err(TypeError)
  }

  lemma {:induction false} MapSetNewKey(es: seq<(Value, Value)>, k: Value, v: Value)
    requires forall i | 0 <= i < |es| :: es[i].0 != k
    ensures MapSet(es, k, v) == es + [(k, v)]
  {
    if es != [] {
      MapSetNewKey(es[1..], k, v);
      assert [es[0]] + (es[1..] + [(k, v)]) == es + [(k, v)];
    }
  }

  lemma FirstKeyFresh(acc: seq<(Value, Value)>, es: seq<(Value, Value)>)
    requires es != [] && DistinctKeys(acc + es)
    ensures forall i | 0 <= i < |acc| :: acc[i].0 != es[0].0
  {
    forall i | 0 <= i < |acc| ensures acc[i].0 != es[0].0 {
      assert (acc + es)[i] == acc[i] && (acc + es)[|acc|] == es[0];
    }
  }

  lemma AddEntriesOfPair(acc: seq<(Value, Value)>, e: (Value, Value), items: seq<Value>)
    requires items != [] && items[0] == Arr([e.0, e.1])
    ensures AddEntries(acc, items) == AddEntries(MapSet(acc, e.0, e.1), items[1..])
  {
  }

  lemma EntryArraysTail(es: seq<(Value, Value)>)
    requires es != []
    ensures EntryArrays(es)[1..] == EntryArrays(es[1..])
  {
  }

  lemma ShiftFirst<T>(acc: seq<T>, xs: seq<T>)
    requires xs != []
    ensures (acc + [xs[0]]) + xs[1..] == acc + xs
  {
  }

  lemma {:induction false} AddEntriesOfEntryArrays(acc: seq<(Value, Value)>, es: seq<(Value, Value)>)
    requires DistinctKeys(acc + es)
    ensures AddEntries(acc, EntryArrays(es)) == Ok(acc + es)
    decreases es
  {
    if es == [] {
      assert acc + es == acc;
    } else {
      var e := es[0];
      FirstKeyFresh(acc, es);
      MapSetNewKey(acc, e.0, e.1);
      AddEntriesOfPair(acc, e, EntryArrays(es));
      EntryArraysTail(es);
      ShiftFirst(acc, es);
      AddEntriesOfEntryArrays(acc + [e], es[1..]);
    }
  }

  /** Listing a map's entries and building a map from them gives the map back. */
  lemma NewMapOfEntries(es: seq<(Value, Value)>)
    requires DistinctKeys(es)
    ensures NewMap(Arr(EntryArrays(es))) == Ok(MapOf(es))
  {
    assert [] + es == es;
    AddEntriesOfEntryArrays([], es);
  }

  lemma {:induction false} AddElemsOfDistinct(acc: seq<Value>, xs: seq<Value>)
    requires Distinct(acc + xs)
    ensures AddElems(acc, xs) == acc + xs
    decreases xs
  {
    if xs == [] {
      assert acc + xs == acc;
    } else {
      assert xs[0] !in acc by {
        forall i | 0 <= i < |acc| ensures acc[i] != xs[0] {
          assert (acc + xs)[i] == acc[i] && (acc + xs)[|acc|] == xs[0];
        }
      }
      ShiftFirst(acc, xs);
      AddElemsOfDistinct(acc + [xs[0]], xs[1..]);
    }
  }

  /** A set built from an array of distinct values holds them in array order. */
  lemma NewSetOfDistinct(xs: seq<Value>)
    requires Distinct(xs)
    ensures NewSet(Arr(xs)) == Ok(SetOf(xs))
  {
    assert [] + xs == xs;
    AddElemsOfDistinct([], xs);
    assert Iterate(Arr(xs)) == Ok(xs);
  }
}
