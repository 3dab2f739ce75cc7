/**
 * JavaScript values as the order route receives them from the parsed request
 * body, with the pieces of JavaScript semantics the core relies on:
 * truthiness (used by `||` defaults, `? :` and `!x` checks), property reads,
 * which throw a TypeError on `null` and `undefined`, and the length of a
 * string, which counts UTF-16 code units.
 */
module JsValues {

  datatype Option<+T> = None | Some(value: T)

  /** A JSON-like JavaScript value. Numbers are integers here (NaN and
      fractions are not modelled); `Undefined` is an absent property. */
  datatype Json =
    | Undefined
    | Null
    | Bool(b: bool)
    | Num(n: int)
    | Str(s: string)
    | Arr(elems: seq<Json>)
    | Obj(props: map<string, Json>)

  /** The exceptions evaluation can raise; the route catches them all. */
  datatype Thrown = TypeError

  datatype Result<+T> = Ok(value: T) | Throws(error: Thrown)

  /** JavaScript truthiness: `undefined`, `null`, `false`, `0` and `""` are
      falsy; every array and every object, even an empty one, is truthy. */
  predicate Truthy(v: Json)
  {
    match v
    case Undefined => false
    case Null => false
    case Bool(b) => b
    case Num(n) => n != 0
    case Str(s) => s != ""
    case Arr(_) => true
    case Obj(_) => true
  }

  /** `a || b` */
  function Or(a: Json, b: Json): Json
  {
    if Truthy(a) then a else b
  }

  /** `v.key` for a key that is not a built-in property of any value (such
      as "email" or "code"): reading it from `null` or `undefined` throws,
      from an object gives the own property or `undefined`, and from any
      other value gives `undefined`. */
  function Member(v: Json, key: string): (r: Result<Json>)
    ensures r.Throws? <==> v == Undefined || v == Null
    ensures v.Obj? && key in v.props ==> r == Ok(v.props[key])
    ensures r.Ok? && r.value != Undefined ==> v.Obj? && key in v.props
  {
    match v
    case Undefined => Throws(TypeError)
    case Null => Throws(TypeError)
    case Obj(props) => Ok(if key in props then props[key] else Undefined)
    case _ => Ok(Undefined)
  }

  /** `s.length`: a JavaScript string is a sequence of UTF-16 code units, so
      a character outside the Basic Multilingual Plane (U+10000 and above)
      is stored as a surrogate pair and counts twice. */
  function Utf16Length(s: string): (n: nat)
    ensures |s| <= n <= 2 * |s|
    ensures n == 0 <==> s == []
  {
    if s == [] then 0
    else (if s[0] as int >= 0x1_0000 then 2 else 1) + Utf16Length(s[1..])
  }

  /** Within the Basic Multilingual Plane the JavaScript length is the
      number of characters. */
  lemma {:induction false} Utf16LengthOfBmp(s: string)
    requires forall i :: 0 <= i < |s| ==> s[i] as int < 0x1_0000
    ensures Utf16Length(s) == |s|
  {
    if s != [] {
      assert forall i :: 0 <= i < |s| - 1 ==> s[1..][i] == s[i + 1];
      Utf16LengthOfBmp(s[1..]);
    }
  }

}
