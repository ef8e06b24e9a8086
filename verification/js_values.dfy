/** The JavaScript values that flow through the controllers: request-body
    fields, JSON.parse results, token payloads and the objects the
    controllers build and store. */
module JsValues {

  import opened Wrappers

  /** A JSON-like JavaScript value. Numbers are reals (JSON has no NaN or
      Infinity); objects are finite maps from property names to values. */
  datatype JsVal =
    | Undefined
    | Null
    | Bool(b: bool)
    | Num(n: real)
    | Str(s: string)
    | Arr(items: seq<JsVal>)
    | Obj(props: map<string, JsVal>)

  /** ECMAScript ToBoolean: `undefined`, `null`, `false`, `0` and `""` are falsy. */
  predicate Truthy(v: JsVal) {
    match v
    case Undefined => false
    case Null => false
    case Bool(b) => b
    case Num(n) => n != 0.0
    case Str(s) => s != ""
    case Arr(_) => true
    case Obj(_) => true
  }

  /** Values on which a plain property read `v.k` throws a TypeError. */
  predicate Nullish(v: JsVal) {
    v.Undefined? || v.Null?
  }

  /** `v?.k`: an own property of an object, `undefined` for anything else.
      The keys the controllers read (`title`, `mood`, `serious`, ...) are
      not properties of strings, numbers or arrays. */
  function Get(v: JsVal, k: string): (r: JsVal)
    ensures v.Obj? && k in v.props ==> r == v.props[k]
    ensures !v.Obj? || k !in v.props ==> r == Undefined
  {
    if v.Obj? && k in v.props then v.props[k] else Undefined
  }

  /** `a || b`: the left operand when it is truthy, the right one otherwise. */
  function Or(a: JsVal, b: JsVal): (r: JsVal)
    ensures Truthy(a) ==> r == a
    ensures !Truthy(a) ==> r == b
  {
    if Truthy(a) then a else b
  }

  /** `Array.isArray(v) ? v : []`, the normalisation applied to suggestion lists. */
  function ArrayOrEmpty(v: JsVal): (r: JsVal)
    ensures r.Arr?
    ensures v.Arr? ==> r == v
    ensures !v.Arr? ==> r.items == []
  {
    if v.Arr? then v else Arr([])
  }

  /** A string-valued field of the request body: absent, or a string. */
  predicate FilledIn(s: Option<string>) {
    s.Some? && s.value != ""
  }
}
