/**
 * Request bodies as JavaScript sees them after `request.json()`, and the
 * truthiness tests (`if (!url)`) the handlers apply to their fields.
 */
module Json {
  import opened Wrappers

  /** A JSON value; `Undefined` stands for a field the body does not have. */
  datatype JsValue =
    | Undefined
    | Null
    | Bool(b: bool)
    | Number(n: real)
    | Str(s: string)
    | Array(items: seq<JsValue>)
    | Object(fields: map<string, JsValue>)

  /** JavaScript truthiness; JSON cannot carry NaN, so 0 is the only falsy number. */
  predicate Truthy(v: JsValue) {
    match v
    case Undefined => false
    case Null => false
    case Bool(b) => b
    case Number(n) => n != 0.0
    case Str(s) => s != []
    case Array(_) => true
    case Object(_) => true
  }

  /** `Array.isArray`. */
  predicate IsArray(v: JsValue) {
    v.Array?
  }

  /**
   * The property key a value becomes when it indexes an object (`table[v]`):
   * `String(v)` for everything JSON can carry. An array is the comma-join of
   * its elements, where `null` and `undefined` elements are empty. `None` is
   * the text of a number, which this model does not spell out; it is made of
   * digits, a sign, a point, an exponent or `Infinity`.
   */
  function PropertyKey(v: JsValue): (k: Option<string>)
    ensures v.Str? ==> k == Some(v.s)
    decreases v, 1, 0
  {
    match v
    case Undefined => Some("undefined")
    case Null => Some("null")
    case Bool(b) => Some(if b then "true" else "false")
    case Number(_) => None
    case Str(s) => Some(s)
    case Array(items) => JoinKeys(v, |items|)
    case Object(_) => Some("[object Object]")
  }

  /** `Array.prototype.join` over the first `n` elements of the array `v`. */
  function JoinKeys(v: JsValue, n: nat): (k: Option<string>)
    requires v.Array? && n <= |v.items|
    decreases v, 0, n
  {
    if n == 0 then Some("")
    else
      var e := v.items[n - 1];
      var last := if e.Undefined? || e.Null? then Some("") else PropertyKey(e);
      if n == 1 then last
      else
        var init := JoinKeys(v, n - 1);
        if init.Some? && last.Some? then Some(init.value + "," + last.value) else None
  }

  /** An array of one element is indexed by that element's own key; `[null]` is the empty key. */
  lemma SingletonKey(e: JsValue)
    ensures PropertyKey(Array([e])) == if e.Undefined? || e.Null? then Some("") else PropertyKey(e)
  {
  }

  /** The join of two or more elements always holds a comma. */
  lemma JoinHasComma(v: JsValue, n: nat)
    requires v.Array? && 2 <= n <= |v.items| && JoinKeys(v, n).Some?
    ensures ',' in JoinKeys(v, n).value
  {
    var e := v.items[n - 1];
    var last := if e.Undefined? || e.Null? then Some("") else PropertyKey(e);
    var init := JoinKeys(v, n - 1);
    assert JoinKeys(v, n).value == init.value + "," + last.value;
    assert (init.value + "," + last.value)[|init.value|] == ',';
  }

  /** A key of an array of two or more elements holds a comma. */
  lemma LongArrayKey(items: seq<JsValue>)
    requires 2 <= |items| && PropertyKey(Array(items)).Some?
    ensures ',' in PropertyKey(Array(items)).value
  {
    JoinHasComma(Array(items), |items|);
  }

  /** Reading a field of the parsed body; a missing key reads as `undefined`. */
  function Field(body: map<string, JsValue>, name: string): (v: JsValue)
    ensures name !in body ==> v == Undefined
  {
    if name in body then body[name] else Undefined
  }
}
