/**
 * The JavaScript values the helper inspects: request payloads, parsed
 * response bodies and the fields of thrown errors. Numbers are modelled
 * as integers.
 */
module JsValues {

  datatype Value =
    | Undefined
    | Null
    | Bool(b: bool)
    | Num(n: int)
    | Str(s: string)
    | Arr(items: seq<Value>)
    | Obj(fields: map<string, Value>)

  /** JavaScript truthiness: what an `if (v)` or a `v || d` tests. */
  predicate Truthy(v: Value)
  {
    match v
    case Undefined => false
    case Null => false
    case Bool(b) => b
    case Num(n) => n != 0
    case Str(s) => s != ""
    case Arr(_) => true
    case Obj(_) => true
  }

  /** `a || b`: the left operand when it is truthy, the right one otherwise. */
  function Or(a: Value, b: Value): (r: Value)
    ensures r == a || r == b
    ensures Truthy(a) ==> r == a
    ensures Truthy(r) <==> Truthy(a) || Truthy(b)
  {
    if Truthy(a) then a else b
  }

  /** `v?.message`: an object's `message` property; undefined for anything else. */
  function MessageOf(v: Value): (r: Value)
    ensures r != Undefined ==> v.Obj? && "message" in v.fields && r == v.fields["message"]
    ensures v.Obj? && "message" in v.fields ==> r == v.fields["message"]
  {
    if v.Obj? && "message" in v.fields then v.fields["message"] else Undefined
  }
}
