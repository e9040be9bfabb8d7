/**
 * JSON values as the server receives them from the upstream location API and
 * sends them to the browser, with the two JavaScript operations the handlers
 * apply to them: truthiness (`if (x)`, `a || b`) and property access `x.k`.
 */
module Json {
  import opened Wrappers

  datatype Json =
    | JNull
    | JBool(b: bool)
    | JNum(n: real)
    | JStr(s: string)
    | JArr(items: seq<Json>)
    | JObj(fields: map<string, Json>)

  /** ToBoolean: null, false, 0 and "" are falsy; arrays and objects are truthy. */
  predicate Truthy(j: Json) {
    match j
    case JNull => false
    case JBool(b) => b
    case JNum(n) => n != 0.0
    case JStr(s) => s != []
    case JArr(_) => true
    case JObj(_) => true
  }

  /** The value of `x.k`: `undefined` when the property is missing. */
  datatype Prop = Undefined | Defined(value: Json)

  predicate PropTruthy(p: Prop) {
    p.Defined? && Truthy(p.value)
  }

  /** Reading a property of null throws a TypeError. */
  datatype TypeError = TypeError

  /** `j.k`; only objects carry named properties in JSON. */
  function Get(j: Json, k: string): (r: Result<Prop, TypeError>)
    ensures r.Err? <==> j == JNull
    ensures r.Ok? && r.value.Defined? ==> j.JObj? && k in j.fields && r.value.value == j.fields[k]
    ensures j.JObj? && k in j.fields ==> r == Ok(Defined(j.fields[k]))
  {
    match j
    case JNull => Err(TypeError)
    case JObj(fs) => if k in fs then Ok(Defined(fs[k])) else Ok(Undefined)
    case _ => Ok(Undefined)
  }

  /** `a || b`: the left operand when it is truthy, otherwise the right one. */
  function Or(a: Prop, b: Prop): (r: Prop)
    ensures PropTruthy(a) ==> r == a
    ensures !PropTruthy(a) ==> r == b
  {
    if PropTruthy(a) then a else b
  }

  /** The object literal `{ ...fs, k: v }` when v is not undefined; a field set to undefined is left out by JSON.stringify. */
  function WithProp(fs: map<string, Json>, k: string, p: Prop): (r: map<string, Json>)
    ensures p.Defined? ==> k in r && r[k] == p.value
    ensures p.Undefined? ==> k !in r
    ensures forall f :: f in fs && f != k ==> f in r && r[f] == fs[f]
    ensures forall f :: f in r ==> f in fs || f == k
  {
    match p
    case Defined(v) => fs[k := v]
    case Undefined => fs - {k}
  }

  /** `point.k` for a point that is not null. */
  function Field(point: Json, k: string): (p: Prop)
    requires point != JNull
    ensures p == Get(point, k).value
  {
    Get(point, k).value
  }

  /** The record has field k exactly when p is defined, and then with p's value. */
  predicate FieldFrom(rec: Json, k: string, p: Prop)
    requires rec.JObj?
  {
    (k in rec.fields <==> p.Defined?) && (p.Defined? ==> rec.fields[k] == p.value)
  }

  /** The one-field object `{ k: p }`, empty when p is undefined. */
  function Entry(k: string, p: Prop): (m: map<string, Json>)
    ensures m.Keys == if p.Defined? then {k} else {}
    ensures p.Defined? ==> m[k] == p.value
  {
    if p.Defined? then map[k := p.value] else map[]
  }

  /** A reply body `{ error: message }`. */
  function ErrorBody(message: string): (j: Json)
    ensures j.JObj? && "error" in j.fields && j.fields["error"] == JStr(message)
  {
    JObj(map["error" := JStr(message)])
  }
}
