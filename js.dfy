/** The JavaScript values a storage cell can hold, the exceptions the
    synchronisation code can meet, and the two coercions the serializers use:
    `String(v)` and `Number.parseFloat(s)`. */
module Js {
  import opened Wrappers
  import Decimal

  /** Exceptions thrown by the serializers, the JSON functions and the storage. */
  datatype Exception =
    | TypeError
    | SyntaxError
    | DomException(name: string)
    | Thrown(message: string)

  /** A JavaScript value. Numbers are integers or NaN. Plain objects keep their
      fields in the order listed; JavaScript enumerates integer-like keys first,
      ascending, so `Obj` also admits orders no JavaScript object has. Arrays,
      `Map`s and `Set`s keep insertion order. */
  datatype Value =
    | Undefined
    | Null
    | Bool(b: bool)
    | Num(n: int)
    | NaN
    | Str(s: string)
    | Arr(items: seq<Value>)
    | Obj(fields: seq<(string, Value)>)
    | MapOf(entries: seq<(Value, Value)>)
    | SetOf(elems: seq<Value>)

  /** `v == null` (loose equality): true of `null` and `undefined`. */
  predicate IsNullish(v: Value) {
    v.Undefined? || v.Null?
  }

  /** True of the values that are objects rather than primitives. */
  predicate IsObject(v: Value) {
    v.Arr? || v.Obj? || v.MapOf? || v.SetOf?
  }

  predicate Distinct<T(==)>(xs: seq<T>) {
    forall i, j | 0 <= i < j < |xs| :: xs[i] != xs[j]
  }

  predicate DistinctKeys<K(==), V>(es: seq<(K, V)>) {
    forall i, j | 0 <= i < j < |es| :: es[i].0 != es[j].0
  }

  /** The values `JSON.stringify` writes and `JSON.parse` reads back unchanged:
      null, booleans, numbers, strings, and arrays and plain objects of them. */
  ghost predicate IsJson(v: Value) {
    match v
    case Null => true
    case Bool(_) => true
    case Num(_) => true
    case Str(_) => true
    case Arr(xs) => forall i | 0 <= i < |xs| :: IsJson(xs[i])
    case Obj(fs) => DistinctKeys(fs) && forall i | 0 <= i < |fs| :: IsJson(fs[i].1)
    case _ => false
  }

  /** `JSON.stringify` and `JSON.parse`, which lie outside this model; parsing may
      throw (a `SyntaxError` on malformed text). */
  datatype JsonCodec = JsonCodec(stringify: Value -> string, parse: string -> Result<Value, Exception>)

  /** The property of the JSON functions the model relies on: every JSON value
      is read back unchanged from the text written for it. */
  ghost predicate RoundTrips(json: JsonCodec) {
    forall v | IsJson(v) :: json.parse(json.stringify(v)) == Ok(v)
  }

  /** Array.prototype.join with separator ",". */
  function Join(parts: seq<string>): string {
    if parts == [] then ""
    else if |parts| == 1 then parts[0]
    else Join(parts[..|parts| - 1]) + "," + parts[|parts| - 1]
  }

  /** `String(v)`. An array prints its elements joined by commas, with null and
      undefined elements printed empty; objects use the default `toString`. */
  function ToJsString(v: Value): (s: string)
    ensures v.Bool? ==> (s == "true" <==> v.b)
  {
    match v
    case Undefined => "undefined"
    case Null => "null"
    case Bool(b) => if b then "true" else "false"
    case Num(n) => Decimal.IntToString(n)
    case NaN => "NaN"
    case Str(s) => s
    case Arr(xs) =>
      Join(seq(|xs|, i requires 0 <= i < |xs| =>
        if IsNullish(xs[i]) then "" else ToJsString(xs[i])))
    case Obj(_) => "[object Object]"
    case MapOf(_) => "[object Map]"
    case SetOf(_) => "[object Set]"
  }

  /** `Number.parseFloat(s)`, on integers. */
  function ParseFloat(s: string): (v: Value)
    ensures v.Num? || v.NaN?
  {
    match Decimal.ParseInteger(s)
    case Some(n) => Num(n)
    case None => NaN
  }

  /** `String` then `Number.parseFloat` gives back every integer. */
  lemma NumberTextRoundTrip(n: int)
    ensures ParseFloat(ToJsString(Num(n))) == Num(n)
  {
    Decimal.IntTextRoundTrip(n);
  }
}
