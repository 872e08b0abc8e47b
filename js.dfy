/**
 * The slice of JavaScript's value space that the xAPI client inspects or
 * passes on: its presence checks use ECMAScript truthiness (`!x`, `x && …`),
 * and the statements it builds are plain object literals whose keys keep
 * their insertion order.
 */
module Js {

  /** A JavaScript value. Numbers are finite doubles seen as reals (so -0 and 0
      coincide) plus NaN; arrays and functions are objects. */
  datatype JsValue =
    | Undefined
    | Null
    | Bool(b: bool)
    | Num(n: real)
    | NaN
    | Str(s: string)
    | Obj(props: seq<Prop>)

  /** One own property of an object, in insertion order. */
  datatype Prop = Prop(key: string, value: JsValue)

  /** What `throw new Error(msg)` carries, the runtime's own `TypeError`, and
      a Web API `DOMException` with its name (such as "InvalidCharacterError"). */
  datatype Exception =
    | Error(message: string)
    | TypeError(message: string)
    | DOMException(name: string, message: string)

  /** The completion of an operation that either returns a value or throws. */
  datatype Result<+T> = Ok(value: T) | Throws(exn: Exception)

  datatype Option<+T> = None | Some(value: T)

  /** Every falsy value of the model: false, 0, "", null, undefined and NaN. */
  const FalsyValues: set<JsValue> := {Undefined, Null, Bool(false), Num(0.0), NaN, Str("")}

  /** ECMAScript ToBoolean: what `!v` negates and what `v && e` tests. */
  predicate Truthy(v: JsValue)
    ensures Truthy(v) <==> v !in FalsyValues
  {
    match v
    case Undefined => false
    case Null => false
    case Bool(b) => b
    case Num(n) => n != 0.0
    case NaN => false
    case Str(s) => s != ""
    case Obj(_) => true
  }

  /** JavaScript `a && b`: `a` itself when it is falsy, otherwise `b`. */
  function And(a: JsValue, b: JsValue): (r: JsValue)
    ensures !Truthy(a) ==> r == a
    ensures Truthy(a) ==> r == b
  {
    if Truthy(a) then b else a
  }

  /** The decimal text of an array or string index, as used for its key. */
  function DecimalString(n: nat): (s: string)
    ensures |s| >= 1
  {
    if n < 10 then ["0123456789"[n]] else DecimalString(n / 10) + ["0123456789"[n % 10]]
  }

  /** The own enumerable properties the object spread `...v` copies: an
      object's properties, a string's characters under their indices, and
      nothing for any other primitive (undefined, null, booleans, numbers). */
  function SpreadProps(v: JsValue): (ps: seq<Prop>)
    ensures !v.Obj? && !v.Str? ==> ps == []
    ensures v.Str? ==> |ps| == |v.s|
  {
    match v
    case Obj(props) => props
    case Str(s) => seq(|s|, i requires 0 <= i < |s| => Prop(DecimalString(i), Str([s[i]])))
    case _ => []
  }

  /** A string every character of which is a Latin-1 code unit
      (U+0000 to U+00FF), the only text `btoa` accepts. */
  predicate Latin1(s: string) {
    forall i :: 0 <= i < |s| ==> s[i] <= '\U{FF}'
  }

  /** Joining two strings with ":" gives Latin-1 text exactly when both
      strings are Latin-1 text. */
  lemma Latin1Join(a: string, b: string)
    ensures Latin1(a + ":" + b) <==> Latin1(a) && Latin1(b)
  {
    var t := a + ":" + b;
    if Latin1(t) {
      assert forall i :: 0 <= i < |a| ==> a[i] == t[i];
      assert forall i :: 0 <= i < |b| ==> b[i] == t[|a| + 1 + i];
    }
  }

  /** The keys of a property list, in insertion order (what `Object.keys`
      returns for the statement object, none of whose keys is an array index). */
  function Keys(props: seq<Prop>): (ks: seq<string>)
    ensures |ks| == |props|
    ensures forall i :: 0 <= i < |props| ==> ks[i] == props[i].key
  {
    if props == [] then [] else [props[0].key] + Keys(props[1..])
  }

  /** Property read `o[key]`: the properties are searched in order, and an
      absent key reads as `undefined`. That the first match is the one read
      is stated by the lemma `GetAt`. */
  function Get(props: seq<Prop>, key: string): (v: JsValue)
    ensures key !in Keys(props) ==> v == Undefined
    ensures key in Keys(props) ==> Prop(key, v) in props
  {
    if props == [] then Undefined
    else if props[0].key == key then props[0].value
    else Get(props[1..], key)
  }

  /** Reading a property whose key no earlier property has gives its value. */
  lemma {:induction false} GetAt(props: seq<Prop>, i: nat)
    requires i < |props|
    requires forall j :: 0 <= j < i ==> props[j].key != props[i].key
    ensures Get(props, props[i].key) == props[i].value
  {
    if i > 0 {
      GetAt(props[1..], i - 1);
    }
  }
}
