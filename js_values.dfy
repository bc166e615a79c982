/**
 * JavaScript values as the test scripts see them: what `response.json()`
 * produces, the `undefined` of a missing property, JavaScript truthiness and
 * the `||` operator, property access that throws on `null`, and `===`.
 *
 * Numbers are integers: the scripts only compare and add counts and amounts.
 */
module JsValues {

  /** A value produced by `JSON.parse`. An object lists its own properties in
      JavaScript's enumeration order, each key once. */
  datatype Json =
    | Null
    | Bool(b: bool)
    | Num(n: int)
    | Str(s: string)
    | Arr(items: seq<Json>)
    | Obj(props: seq<Property>)

  datatype Property = Property(key: string, value: Json)

  /** A JavaScript value that may be `undefined` (a property that is absent). */
  datatype Value = Undefined | Defined(json: Json)

  /** The outcome of evaluating an expression that may throw a TypeError. */
  datatype Completion<T> = Normal(value: T) | Throws

  const UNKNOWN: Value := Defined(Str("Unknown"))

  /** JavaScript truthiness: `undefined`, `null`, `false`, `0` and `""` are
      falsy; every array and every object is truthy, the empty ones too. */
  predicate Truthy(v: Value) {
    match v
    case Undefined => false
    case Defined(j) =>
      match j
      case Null => false
      case Bool(b) => b
      case Num(n) => n != 0
      case Str(s) => s != ""
      case Arr(_) => true
      case Obj(_) => true
  }

  /** `a || b`: the left operand when it is truthy, otherwise the right one. */
  function Or(a: Value, b: Value): (r: Value)
    ensures r == a || r == b
    ensures Truthy(r) <==> Truthy(a) || Truthy(b)
    ensures Truthy(a) ==> r == a
    ensures !Truthy(a) ==> r == b
  {
    if Truthy(a) then a else b
  }

  /** The own property `key` of an object with properties `props`. */
  function Lookup(props: seq<Property>, key: string): (v: Value)
    ensures v.Undefined? <==> forall i :: 0 <= i < |props| ==> props[i].key != key
    ensures v.Defined? ==>
      exists i :: 0 <= i < |props| && props[i].key == key && props[i].value == v.json
  {
    if props == [] then Undefined
    else if props[0].key == key then Defined(props[0].value)
    else
      var rest := Lookup(props[1..], key);
      assert forall i :: 1 <= i < |props| ==> props[i] == props[1..][i - 1];
      rest
  }

  /** `j[key]` for a value that is not `null`. Arrays and primitives have none
      of the keys the scripts read, so those read `undefined`. */
  function OwnField(j: Json, key: string): Value {
    match j
    case Obj(props) => Lookup(props, key)
    case _ => Undefined
  }

  /** `v.key`: a TypeError when `v` is `undefined` or `null`. */
  function GetProperty(v: Value, key: string): (r: Completion<Value>)
    ensures r.Throws? <==> v == Undefined || v == Defined(Null)
    ensures r.Normal? ==> r.value == OwnField(v.json, key)
    ensures Truthy(v) ==> r.Normal?
  {
    match v
    case Undefined => Throws
    case Defined(Null) => Throws
    case Defined(j) => Normal(OwnField(j, key))
  }

  /** Whether `v` is an array or an object, which `===` compares by identity. */
  predicate IsReference(v: Value) {
    v.Defined? && (v.json.Arr? || v.json.Obj?)
  }

  /** `a === b` for two values produced by different parses: primitives are
      compared by value, while two arrays or objects are never the same one. */
  function StrictEquals(a: Value, b: Value): (r: bool)
    ensures r <==> a == b && !IsReference(a)
  {
    match (a, b)
    case (Undefined, Undefined) => true
    case (Defined(Null), Defined(Null)) => true
    case (Defined(Bool(x)), Defined(Bool(y))) => x == y
    case (Defined(Num(x)), Defined(Num(y))) => x == y
    case (Defined(Str(x)), Defined(Str(y))) => x == y
    case _ => false
  }

  /** Whether converting `j` to a string throws a TypeError, as a template
      literal `${j}` or a comparison `j > 0` does. An object inherits
      `toString` unless it has an own `toString` key; a parsed own key is data,
      never a function, so the conversion falls back to the inherited
      `valueOf`, which returns the object itself, and fails. An array converts
      by joining its elements, each converted in turn. */
  predicate ConversionThrows(j: Json) {
    match j
    case Obj(props) => Lookup(props, "toString").Defined?
    case Arr(items) => exists k :: 0 <= k < |items| && ConversionThrows(items[k])
    case _ => false
  }

  /** `${v}` throws; `undefined` converts to the text "undefined". */
  predicate StringConversionThrows(v: Value) {
    v.Defined? && ConversionThrows(v.json)
  }

  /** Only an array or an object can fail to convert, so two values that are
      `===`-equal always convert; an object with an own `toString` fails. */
  lemma PrimitivesConvert(v: Value, props: seq<Property>)
    ensures !IsReference(v) ==> !StringConversionThrows(v)
    ensures StringConversionThrows(Defined(Obj([Property("toString", Num(0))] + props)))
  {
  }

  /** What `JSON.stringify` returns: `undefined` for `undefined`, otherwise a
      JSON text. The text is left abstract and identified with the value it
      serialises. */
  datatype Serialised = NoText | Text(of: Json)

  function Stringify(v: Value): (t: Serialised)
    ensures t.NoText? <==> v.Undefined?
  {
    match v
    case Undefined => NoText
    case Defined(j) => Text(j)
  }

  /** Two values serialise to the same text exactly when they are equal. */
  lemma StringifyInjective(a: Value, b: Value)
    ensures Stringify(a) == Stringify(b) <==> a == b
  {
  }
}
