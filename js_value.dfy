/**
 * The slice of JavaScript value semantics the admin model runtime relies on:
 * truthiness, `||` and `&&` on values, property reads, object spread and
 * template-literal string conversion.
 */
module JsValue {
  import opened Wrappers

  /**
   * A JavaScript value. Numbers are integers (the runtime only stores ids,
   * counts and offsets in them); objects are maps from property name to value;
   * a function or component is opaque: `tag` identifies it and `captured` holds
   * what it closes over.
   */
  datatype Value =
    | Undefined
    | Null
    | Bool(b: bool)
    | Num(n: int)
    | Str(s: string)
    | Arr(elems: seq<Value>)
    | Obj(fields: map<string, Value>)
    | Fn(tag: string, captured: Value)

  /** The error a property read on `undefined` or `null` throws. */
  const TypeError: Value := Obj(map["name" := Str("TypeError")])

  predicate Nullish(v: Value) {
    v.Undefined? || v.Null?
  }

  /** JavaScript truthiness. */
  predicate Truthy(v: Value) {
    match v
    case Undefined => false
    case Null => false
    case Bool(b) => b
    case Num(n) => n != 0
    case Str(s) => s != ""
    case _ => true
  }

  /** `a || b` */
  function Or(a: Value, b: Value): (r: Value)
    ensures Truthy(a) ==> r == a
    ensures !Truthy(a) ==> r == b
  {
    if Truthy(a) then a else b
  }

  /** `a && b` */
  function And(a: Value, b: Value): (r: Value)
    ensures Truthy(a) ==> r == b
    ensures !Truthy(a) ==> r == a
  {
    if Truthy(a) then b else a
  }

  /** Reads an own property of an object: absent properties read as `undefined`. */
  function Field(m: map<string, Value>, k: string): Value {
    if k in m then m[k] else Undefined
  }

  /**
   * `v.k` on a value that is not `undefined` or `null` (on those JavaScript
   * throws). Properties of primitives, arrays and functions read as
   * `undefined`.
   */
  function Prop(v: Value, k: string): (r: Value)
    requires !Nullish(v)
    ensures v.Obj? && k in v.fields ==> r == v.fields[k]
    ensures !v.Obj? || k !in v.fields ==> r == Undefined
  {
    if v.Obj? then Field(v.fields, k) else Undefined
  }

  /** `v?.k` */
  function OptProp(v: Value, k: string): (r: Value)
    ensures Nullish(v) ==> r == Undefined
  {
    if Nullish(v) then Undefined else Prop(v, k)
  }

  /** The own properties `{...v}` copies: those of an object, none otherwise. */
  function Spread(v: Value): (m: map<string, Value>)
    ensures v.Obj? ==> m == v.fields
    ensures !v.Obj? ==> m == map[]
  {
    if v.Obj? then v.fields else map[]
  }

  /** `_.isEmpty(v)` from lodash. */
  predicate IsEmpty(v: Value) {
    match v
    case Arr(es) => es == []
    case Obj(m) => m == map[]
    case Str(s) => s == ""
    case _ => true
  }

  /**
   * Loose equality `a == b`, for the cases the runtime meets: values of one
   * kind compare by value, and `undefined` equals `null`.
   */
  predicate LooseEq(a: Value, b: Value) {
    (Nullish(a) && Nullish(b)) || (!Nullish(a) && a == b)
  }

  /** `x == true`: loose equality converts `true` to the number 1. */
  predicate LooseEqTrue(x: Value) {
    x == Bool(true) || x == Num(1) || x == Str("1")
  }

  function DigitChar(d: nat): char
    requires d < 10
  {
    "0123456789"[d]
  }

  function NatToString(n: nat): (s: string)
    ensures s != []
  {
    if n < 10 then [DigitChar(n)] else NatToString(n / 10) + [DigitChar(n % 10)]
  }

  function IntToString(n: int): string {
    if n < 0 then "-" + NatToString(-n) else NatToString(n)
  }

  /** `a.join(sep)` of already converted elements. */
  function Join(parts: seq<string>, sep: string): string {
    if |parts| == 0 then ""
    else if |parts| == 1 then parts[0]
    else Join(parts[..|parts| - 1], sep) + sep + parts[|parts| - 1]
  }

  /** String conversion as a template literal `${v}` performs it. */
  function ToDisplayString(v: Value): string {
    match v
    case Undefined => "undefined"
    case Null => "null"
    case Bool(b) => if b then "true" else "false"
    case Num(n) => IntToString(n)
    case Str(s) => s
    case Arr(es) =>
      // Array.prototype.toString joins with "," and writes holes, undefined and null as ""
      Join(seq(|es|, i requires 0 <= i < |es| =>
        if Nullish(es[i]) then "" else ToDisplayString(es[i])), ",")
    case Obj(_) => "[object Object]"
    case Fn(tag, _) => tag
  }

  /** Splits a property path on '.' (`"address.street"` is `["address", "street"]`). */
  function SplitPath(path: string): (parts: seq<string>)
    ensures |parts| >= 1
  {
    if |path| == 0 then [""]
    else
      var rest := SplitPath(path[1..]);
      if path[0] == '.' then [""] + rest
      else [[path[0]] + rest[0]] + rest[1..]
  }

  /** Follows `keys` from `v`, yielding `undefined` once a step meets `undefined` or `null`. */
  function Walk(v: Value, keys: seq<string>): Value
    decreases keys
  {
    if keys == [] then v
    else if Nullish(v) then Undefined
    else Walk(Prop(v, keys[0]), keys[1..])
  }

  /**
   * `_.get(obj, path)` from lodash for dotted paths: a property literally named
   * `path` wins; otherwise the path is split on '.' and followed.
   */
  function PathGet(obj: Value, path: string): (r: Value)
    ensures obj.Obj? && path in obj.fields ==> r == obj.fields[path]
    ensures Nullish(obj) ==> r == Undefined
  {
    if obj.Obj? && path in obj.fields then obj.fields[path]
    else if Nullish(obj) then Undefined
    else Walk(obj, SplitPath(path))
  }
}
