/**
 * The JavaScript values and built-ins that the gateway (a Cloudflare Worker)
 * and the browser client rely on, reduced to what their code observes:
 * truthiness, `String(v)` coercion, property access that yields `undefined`,
 * `startsWith`, `split(' ')`, `a || b`, and the outcome of an async call that
 * either resolves or throws an `Error`.
 */
module JsValues {

  /** An element of a `Uint8Array`. */
  type byte = x: int | 0 <= x < 256

  datatype Option<T> = None | Some(value: T)

  /** A scalar JavaScript value as it appears in request bodies, headers, query strings and storage. */
  datatype JsVal = Undefined | Null | Str(s: string)

  /** `!!v`: `undefined`, `null` and the empty string are falsy, every other string is truthy. */
  predicate Truthy(v: JsVal) {
    v.Str? && v.s != ""
  }

  /**
   * `String(v)`: the coercion that `localStorage.setItem`, `URLSearchParams`,
   * template literals and `Headers` apply to their values.
   */
  function ToJsString(v: JsVal): string {
    match v
    case Undefined => "undefined"
    case Null => "null"
    case Str(s) => s
  }

  /** `v || fallback` where the fallback is a string: the value when it is truthy, otherwise the fallback. */
  function OrElse(v: JsVal, fallback: string): string {
    if Truthy(v) then v.s else fallback
  }

  /** A JSON object after `JSON.parse`, with its properties. */
  type JsObject = map<string, JsVal>

  /** Property access `o.key`: `undefined` when the object has no such property. */
  function Prop(o: JsObject, key: string): JsVal {
    if key in o then o[key] else Undefined
  }

  /**
   * What `await something.json()` produces: text that is not JSON (the call
   * throws), the literal `null` (property access on it throws), a number,
   * string or boolean (every property of it is `undefined`), or an object.
   */
  datatype Json = NotJson | JsonNull | JsonScalar | JsonObject(fields: JsObject)

  /** The message an `Error` carries: either a string the code wrote, or the engine's own wording for a `TypeError`/`SyntaxError`. */
  datatype ErrorMessage = Message(text: string) | EngineMessage

  /** The settled state of an async call: it resolves with a value or throws an `Error`. */
  datatype Outcome<T> = Ok(value: T) | Thrown(error: ErrorMessage)

  /** `await response.json()` as a value: it throws when the text is not JSON. */
  function ParseJson(j: Json): (r: Outcome<Json>)
    ensures r.Ok? <==> !j.NotJson?
    ensures r.Ok? ==> r.value == j
  {
    if j.NotJson? then Thrown(EngineMessage) else Ok(j)
  }

  /** `value.key` on parsed JSON: a `TypeError` on `null`, `undefined` on a scalar, the property on an object. */
  function Member(j: Json, key: string): (r: Outcome<JsVal>)
    requires !j.NotJson?
    ensures r.Thrown? <==> j.JsonNull?
    ensures j.JsonScalar? ==> r == Ok(Undefined)
  {
    match j
    case JsonNull => Thrown(EngineMessage)
    case JsonScalar => Ok(Undefined)
    case JsonObject(f) => Ok(Prop(f, key))
  }

  /** `s.startsWith(prefix)`. */
  predicate StartsWith(s: string, prefix: string) {
    |prefix| <= |s| && s[..|prefix|] == prefix
  }

  /** `s.split(sep)` for a one-character separator: the maximal runs between separators, in order. */
  function Split(s: string, sep: char): (parts: seq<string>)
    ensures |parts| >= 1
    ensures forall i :: 0 <= i < |parts| ==> sep !in parts[i]
    ensures sep in s ==> |parts| >= 2
    ensures Join(parts, sep) == s
  {
    if s == [] then [""]
    else if s[0] == sep then [""] + Split(s[1..], sep)
    else
      var rest := Split(s[1..], sep);
      [[s[0]] + rest[0]] + rest[1..]
  }

  /** `parts.join(sep)`: the inverse of `Split`. */
  function Join(parts: seq<string>, sep: char): string
    requires |parts| >= 1
  {
    if |parts| == 1 then parts[0] else parts[0] + [sep] + Join(parts[1..], sep)
  }

  /** The longest prefix of `s` that does not contain `sep`. */
  function TakeUntil(s: string, sep: char): (t: string)
    ensures |t| <= |s| && t == s[..|t|] && sep !in t
    ensures |t| < |s| ==> s[|t|] == sep
  {
    if s == [] || s[0] == sep then "" else [s[0]] + TakeUntil(s[1..], sep)
  }

  /** The first segment of a split is the text before the first separator. */
  lemma {:induction false} SplitFirst(s: string, sep: char)
    ensures Split(s, sep)[0] == TakeUntil(s, sep)
  {
    if s != [] && s[0] != sep {
      SplitFirst(s[1..], sep);
    }
  }

  /**
   * After a prefix that ends in the separator and contains it nowhere else,
   * the second segment of the split is the text up to the next separator.
   */
  lemma {:induction false} SplitSecond(prefix: string, rest: string, sep: char)
    requires |prefix| >= 1 && prefix[|prefix| - 1] == sep
    requires sep !in prefix[..|prefix| - 1]
    ensures |Split(prefix + rest, sep)| >= 2
    ensures Split(prefix + rest, sep)[1] == TakeUntil(rest, sep)
  {
    var s := prefix + rest;
    assert s[|prefix| - 1] == sep;
    if |prefix| == 1 {
      assert s[1..] == rest;
      SplitFirst(rest, sep);
    } else {
      assert s[1..] == prefix[1..] + rest;
      assert prefix[1..][..|prefix[1..]| - 1] == prefix[..|prefix| - 1][1..];
      SplitSecond(prefix[1..], rest, sep);
    }
  }
}
