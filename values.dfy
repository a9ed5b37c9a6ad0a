/** JavaScript values as the shaper handles them: option bags, instance
    properties, schema descriptors and stored documents are all built from
    these. */
module Values {

  /** A JavaScript value. Numbers are integers here; a function is known by
      its source text, which is what converting it to a string yields. */
  datatype Value =
    | Undefined
    | Null
    | Bool(b: bool)
    | Num(n: int)
    | Str(s: string)
    | Fn(source: string)
    | Obj(fields: map<string, Value>)

  /** A plain object: its own enumerable properties. */
  type Doc = map<string, Value>

  /** `v == null` in JavaScript: loose equality with null holds for null and
      undefined and for nothing else. */
  predicate Nullish(v: Value) {
    v.Undefined? || v.Null?
  }

  /** The truth value JavaScript gives `v` in an `if`. */
  predicate Truthy(v: Value) {
    match v
    case Undefined => false
    case Null => false
    case Bool(b) => b
    case Num(n) => n != 0
    case Str(s) => s != ""
    case Fn(_) => true
    case Obj(_) => true
  }

  /** `d[k]` on a plain object: a missing property reads as undefined. */
  function Lookup(d: Doc, k: string): Value {
    if k in d then d[k] else Undefined
  }

  /** `v[k]` on a value that is not null or undefined (reading a property of
      those is a TypeError, which callers handle before). Strings, numbers,
      booleans and functions carry none of the property names read here. */
  function Get(v: Value, k: string): Value
    requires !Nullish(v)
  {
    if v.Obj? then Lookup(v.fields, k) else Undefined
  }

  /** Decimal digits of a natural number, most significant first. */
  function NatToDecimal(n: nat): (r: string)
    ensures |r| > 0 && forall i :: 0 <= i < |r| ==> '0' <= r[i] <= '9'
    decreases n
  {
    if n < 10 then ["0123456789"[n]]
    else NatToDecimal(n / 10) + ["0123456789"[n % 10]]
  }

  /** String(v), as a template literal `${v}` applies it. */
  function ToStr(v: Value): string {
    match v
    case Undefined => "undefined"
    case Null => "null"
    case Bool(b) => if b then "true" else "false"
    case Num(n) => if n < 0 then "-" + NatToDecimal(-n) else NatToDecimal(n)
    case Str(s) => s
    case Fn(source) => source
    case Obj(_) => "[object Object]"
  }

  /** Splitting at the first colon: when neither left part holds a colon,
      `a:b` determines `a` and `b`. */
  lemma {:induction false} ColonSplit(a: string, b: string, c: string, d: string)
    requires ':' !in a && ':' !in c
    requires a + ":" + b == c + ":" + d
    ensures a == c && b == d
  {
    var s, t := a + ":" + b, c + ":" + d;
    assert s[|a|] == ':' && t[|c|] == ':';
    assert forall i :: 0 <= i < |a| ==> s[i] == a[i];
    assert forall i :: 0 <= i < |c| ==> t[i] == c[i];
    assert |a| == |c|;
    assert a == s[..|a|];
    assert c == t[..|c|];
    assert b == s[|a| + 1..];
    assert d == t[|c| + 1..];
  }
}
