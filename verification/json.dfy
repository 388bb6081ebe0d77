/**
  Decoded JSON values as the upload handler sees them, together with the
  JavaScript notions the handler relies on: truthiness, the `||` operator and
  property reads that yield `undefined` for a missing key.
 */
module Json {

  datatype JsValue =
    | Absent                            // `undefined`: what reading a missing property yields
    | Null
    | Bool(b: bool)
    | Num(n: int)
    | Str(s: string)
    | Arr(items: seq<JsValue>)
    | Obj(fields: map<string, JsValue>)

  /** JavaScript truthiness: `undefined`, `null`, `false`, `0` and `""` are falsy;
      every array and every object, even an empty one, is truthy. */
  predicate Truthy(v: JsValue)
    ensures Nullish(v) ==> !Truthy(v)
    ensures v.Arr? || v.Obj? ==> Truthy(v)
  {
    match v
    case Absent => false
    case Null => false
    case Bool(b) => b
    case Num(n) => n != 0
    case Str(s) => s != ""
    case Arr(_) => true
    case Obj(_) => true
  }

  /** `null` and `undefined`: reading any property of these throws a TypeError. */
  predicate Nullish(v: JsValue) {
    v.Absent? || v.Null?
  }

  /** The expression `a || b`. */
  function Or(a: JsValue, b: JsValue): (r: JsValue)
    ensures r == a || r == b
    ensures Truthy(r) <==> Truthy(a) || Truthy(b)
    ensures Truthy(a) ==> r == a
    ensures !Truthy(a) ==> r == b
  {
    if Truthy(a) then a else b
  }

  /** The property read `v.key` on a value that is not nullish. Decoded JSON
      has no prototype properties under the keys the handler reads, so only
      an object's own fields are ever found. */
  function Get(v: JsValue, key: string): (r: JsValue)
    requires !Nullish(v)
    ensures r != Absent ==> v.Obj? && key in v.fields && r == v.fields[key]
    ensures v.Obj? && key in v.fields ==> r == v.fields[key]
  {
    if v.Obj? && key in v.fields then v.fields[key] else Absent
  }

  /** `||` is associative in the value it picks, so the two-level defaulting
      `a || b || c` reads the same however it is grouped. */
  lemma OrAssociative(a: JsValue, b: JsValue, c: JsValue)
    ensures Or(Or(a, b), c) == Or(a, Or(b, c))
  {
  }

  /** A falsy default never wins over a truthy operand, and a non-absent
      default makes the result non-absent. */
  lemma OrNeverAbsent(a: JsValue, d: JsValue)
    requires d != Absent
    ensures Or(a, d) != Absent
  {
  }
}
