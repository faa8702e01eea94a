/** Values as the TypeScript sources see them at run time: the untyped results
    of model bindings, parsed JSON bodies and storage entries. */
module Js {
  import opened Text

  /** An octet, the element type of ArrayBuffer and Uint8Array. */
  newtype byte = x: int | 0 <= x < 256

  datatype Option<+T> = None | Some(value: T)

  /** A settled promise: fulfilled with a value, or rejected with an Error's message. */
  datatype Outcome<+T> = Ok(value: T) | Fail(message: string)

  /** A JavaScript value. Numbers are integers here; an ArrayBuffer holds its bytes. */
  datatype JsValue =
    | Undefined
    | Null
    | Bool(b: bool)
    | Num(n: int)
    | Str(s: string)
    | Arr(items: seq<JsValue>)
    | Obj(props: map<string, JsValue>)
    | Buffer(bytes: seq<byte>)

  /** `!!v` */
  predicate Truthy(v: JsValue)
  {
    match v
    case Undefined => false
    case Null => false
    case Bool(b) => b
    case Num(n) => n != 0
    case Str(s) => s != ""
    case _ => true
  }

  /** `v === null || v === undefined`, the values `??` and `?.` treat as missing. */
  predicate Nullish(v: JsValue)
  {
    v.Undefined? || v.Null?
  }

  /** `typeof v === "object"` for a value that is not null. */
  predicate IsObjectLike(v: JsValue)
  {
    v.Arr? || v.Obj? || v.Buffer?
  }

  /** `key in v`: a property lookup; only plain objects carry named properties here. */
  predicate HasProp(v: JsValue, key: string)
  {
    v.Obj? && key in v.props
  }

  /** `!!v && typeof v === "object" && key in v`, the shape test used by every endpoint. */
  predicate IsObjectWith(v: JsValue, key: string)
    ensures IsObjectWith(v, key) ==> v.Obj?
  {
    Truthy(v) && IsObjectLike(v) && HasProp(v, key)
  }

  /** `v[key]` on a value that is not nullish: a missing property reads as undefined. */
  function Get(v: JsValue, key: string): (r: JsValue)
    ensures HasProp(v, key) ==> r == v.props[key]
    ensures !HasProp(v, key) ==> r == Undefined
  {
    if v.Obj? && key in v.props then v.props[key] else Undefined
  }

  /** `v[i]` for an array index. */
  function Index(v: JsValue, i: nat): (r: JsValue)
    ensures v.Arr? && i < |v.items| ==> r == v.items[i]
  {
    if v.Arr? && i < |v.items| then v.items[i] else Undefined
  }

  /** The decimal rendering of an integer, as `String(n)` gives it. */
  function DecimalString(n: int): (r: string)
    ensures |r| > 0
    decreases if n < 0 then 1 - n else n
  {
    if n < 0 then "-" + DecimalString(-n)
    else if n < 10 then [DigitChar(n)]
    else DecimalString(n / 10) + [DigitChar(n % 10)]
  }

  function DigitChar(d: int): (c: char)
    requires 0 <= d < 10
    ensures '0' <= c <= '9'
  {
    ('0' as int + d) as char
  }

  /** `String(v)`; an array joins its elements with "," and renders null and
      undefined elements as the empty string, as `Array.prototype.join` does. */
  function ToJsString(v: JsValue): string
  {
    match v
    case Undefined => "undefined"
    case Null => "null"
    case Bool(b) => if b then "true" else "false"
    case Num(n) => DecimalString(n)
    case Str(s) => s
    case Arr(items) => JoinElements(items, ",")
    case Obj(_) => "[object Object]"
    case Buffer(_) => "[object ArrayBuffer]"
  }

  /** `new Error(raw || fallback)` caught as `err` and read as `err.message || outer`. */
  function RaisedMessage(raw: JsValue, fallback: string, outer: string): (r: string)
    ensures Truthy(raw) && ToJsString(raw) != "" ==> r == ToJsString(raw)
    ensures !Truthy(raw) && fallback != "" ==> r == fallback
    ensures fallback != "" && outer != "" ==> r != ""
  {
    var m := if Truthy(raw) then ToJsString(raw) else fallback;
    if m == "" then outer else m
  }

  /** `items.join(sep)` */
  function JoinElements(items: seq<JsValue>, sep: string): string
    decreases items
  {
    if items == [] then ""
    else
      var head := if Nullish(items[0]) then "" else ToJsString(items[0]);
      if |items| == 1 then head else head + sep + JoinElements(items[1..], sep)
  }

  lemma {:induction false} JoinStrings(ts: seq<string>)
    ensures JoinElements(seq(|ts|, i requires 0 <= i < |ts| => Str(ts[i])), "") == Concat(ts)
  {
    var items := seq(|ts|, i requires 0 <= i < |ts| => Str(ts[i]));
    if |ts| > 1 {
      var rest := seq(|ts| - 1, i requires 0 <= i < |ts| - 1 => Str(ts[1..][i]));
      assert items[1..] == rest;
      JoinStrings(ts[1..]);
    }
  }
}
