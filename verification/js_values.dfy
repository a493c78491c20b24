/** JavaScript values as far as the session logic observes them: optional
    values, truthiness, the `||` operator and `String.prototype.startsWith`. */
module Js {

  /** An optional value: `None` stands for `undefined` (or `null`). */
  datatype Option<+T> = None | Some(value: T) {

    /** Returns the value, or `default` when absent (the `??` operator). */
    function GetOr(default: T): T {
      match this
      case Some(v) => v
      case None => default
    }
  }

  /** A JavaScript value as seen by a truthiness test. Objects, arrays and
      functions are `Composite`; `id` only keeps distinct ones apart. */
  datatype JsValue =
    | Undefined
    | Null
    | Bool(b: bool)
    | Num(x: real)
    | NaN
    | Str(s: string)
    | Composite(id: nat)

  /** JavaScript truthiness: `false`, `0`, `NaN`, `""`, `null` and
      `undefined` are falsy, everything else is truthy. */
  predicate Truthy(v: JsValue) {
    match v
    case Undefined => false
    case Null => false
    case NaN => false
    case Bool(b) => b
    case Num(x) => x != 0.0
    case Str(s) => s != ""
    case Composite(_) => true
  }

  /** The JavaScript value of an optional string. */
  function OfOptional(o: Option<string>): JsValue {
    match o
    case None => Undefined
    case Some(s) => Str(s)
  }

  /** `!!o` for an optional string: present and non-empty. */
  predicate Present(o: Option<string>) {
    Truthy(OfOptional(o))
  }

  lemma PresentMeansNonEmpty(o: Option<string>)
    ensures Present(o) <==> o.Some? && o.value != ""
  {
  }

  /** The `a || b` operator: `a` when it is truthy, otherwise `b`. */
  function Or(a: JsValue, b: JsValue): JsValue {
    if Truthy(a) then a else b
  }

  /** `s.startsWith(prefix)`, compared one character at a time. */
  function StartsWith(s: string, prefix: string): (b: bool)
    ensures b <==> |prefix| <= |s| && s[..|prefix|] == prefix
  {
    if |prefix| == 0 then true
    else if |s| == 0 then false
    else
      assert |prefix| <= |s| ==> s[..|prefix|] == [s[0]] + s[1..][..|prefix| - 1];
      assert prefix == [prefix[0]] + prefix[1..];
      s[0] == prefix[0] && StartsWith(s[1..], prefix[1..])
  }
}
