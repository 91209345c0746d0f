/** Decoded JSON values as both the Python backend (dicts from Firestore, parsed
    Gemini replies) and the JavaScript frontend (props, response bodies) see
    them, with each language's truthiness and the Python rules that make a
    comparison or a `.get` raise. A JavaScript `undefined` (a missing property)
    is `None` of an `Option<Json>`. */
module JsonValue {
  import opened Wrappers

  datatype Json =
    | JNull
    | JBool(b: bool)
    | JNum(n: real)
    | JStr(s: string)
    | JArr(items: seq<Json>)
    | JObj(fields: map<string, Json>)

  /** A Python dict decoded from a document or a JSON object. */
  type Dict = map<string, Json>

  /** A Firestore document: its id and its decoded data. */
  datatype Doc = Doc(id: string, data: Dict)

  /** The exceptions a modelled Python expression can raise. */
  datatype PyError = TypeError | AttributeError | ValueError | KeyError(key: string)

  // ---------------------------------------------------------------- Python

  /** `d.get(k, default)`. */
  function PyGet(d: Dict, k: string, default: Json): (v: Json)
    ensures k in d ==> v == d[k]
    ensures k !in d ==> v == default
  {
    if k in d then d[k] else default
  }

  /** `d.get(k, {})` followed by a further `.get`: the value must be a dict,
      otherwise the next `.get` raises AttributeError. */
  function PyGetDict(d: Dict, k: string): (r: Result<Dict, PyError>)
    ensures k !in d ==> r == Ok(map[])
    ensures r.Ok? <==> (k !in d || d[k].JObj?)
  {
    match PyGet(d, k, JObj(map[]))
    case JObj(f) => Ok(f)
    case _ => Err(AttributeError)
  }

  /** Python truthiness: None, False, 0, "", [] and {} are false. */
  predicate PyTruthy(v: Json) {
    match v
    case JNull => false
    case JBool(b) => b
    case JNum(n) => n != 0.0
    case JStr(s) => s != ""
    case JArr(items) => |items| > 0
    case JObj(fields) => |fields| > 0
  }

  /** The falsy values of Python are exactly None, False, 0, "", [] and {}. */
  lemma PyFalsyValues(v: Json)
    ensures !PyTruthy(v) <==>
      v == JNull || v == JBool(false) || v == JNum(0.0) || v == JStr("") || v == JArr([]) || v == JObj(map[])
  {
    if v.JObj? && |v.fields| == 0 {
      assert v.fields == map[];
    }
  }

  /** A dict key, set member or Counter element must be hashable: lists
      and dicts are not, and every scalar is. */
  predicate Hashable(v: Json): (b: bool)
    ensures b <==> v.JNull? || v.JBool? || v.JNum? || v.JStr?
  {
    !v.JArr? && !v.JObj?
  }

  /** `isinstance(v, (int, float))`: a Python bool is an int, so it counts. */
  function PyNumber(v: Json): (r: Option<real>)
    ensures r.Some? <==> (v.JNum? || v.JBool?)
    ensures v.JNum? ==> r == Some(v.n)
  {
    match v
    case JNum(n) => Some(n)
    case JBool(b) => Some(if b then 1.0 else 0.0)
    case _ => None
  }

  /** `v < x` for a float `x`: raises TypeError unless `v` is a number. */
  function PyLess(v: Json, x: real): (r: Result<bool, PyError>)
    ensures r.Ok? <==> PyNumber(v).Some?
    ensures r.Ok? ==> r.value == (PyNumber(v).value < x)
  {
    match PyNumber(v)
    case Some(n) => Ok(n < x)
    case None => Err(TypeError)
  }

  /** `v > x` for a float `x`. */
  function PyGreater(v: Json, x: real): (r: Result<bool, PyError>)
    ensures r.Ok? <==> PyNumber(v).Some?
    ensures r.Ok? ==> r.value == (PyNumber(v).value > x)
  {
    match PyNumber(v)
    case Some(n) => Ok(n > x)
    case None => Err(TypeError)
  }

  /** `v <= x` for a float `x`. */
  function PyAtMost(v: Json, x: real): (r: Result<bool, PyError>)
    ensures r.Ok? <==> PyNumber(v).Some?
    ensures r.Ok? ==> r.value == (PyNumber(v).value <= x)
  {
    match PyNumber(v)
    case Some(n) => Ok(n <= x)
    case None => Err(TypeError)
  }

  // ------------------------------------------------------------ JavaScript

  /** JavaScript truthiness of a possibly-undefined value (NaN is not modelled). */
  predicate JsTruthy(v: Option<Json>) {
    match v
    case None => false
    case Some(JNull) => false
    case Some(JBool(b)) => b
    case Some(JNum(n)) => n != 0.0
    case Some(JStr(s)) => s != ""
    case Some(JArr(_)) => true
    case Some(JObj(_)) => true
  }

  /** The falsy values of JavaScript (NaN aside) are undefined, null, false,
      0 and "". */
  lemma JsFalsyValues(v: Option<Json>)
    ensures !JsTruthy(v) <==>
      v == None || v == Some(JNull) || v == Some(JBool(false)) || v == Some(JNum(0.0)) || v == Some(JStr(""))
  {
  }

  /** Unlike Python, JavaScript takes an empty list or object as true. */
  lemma EmptyContainersSplit()
    ensures JsTruthy(Some(JArr([]))) && !PyTruthy(JArr([]))
    ensures JsTruthy(Some(JObj(map[]))) && !PyTruthy(JObj(map[]))
  {
  }

  /** Property read `o.k` on a value that is neither `null` nor `undefined`
      (JsRead adds the throw): undefined unless `o` is an object holding a
      named key `k`. */
  function JsProp(o: Option<Json>, k: string): (r: Option<Json>)
    ensures r.Some? <==> (o.Some? && o.value.JObj? && k in o.value.fields)
  {
    if o.Some? && o.value.JObj? && k in o.value.fields then Some(o.value.fields[k]) else None
  }

  /** What a modelled JavaScript expression throws: reading a property of
      `null` or `undefined` is a TypeError, and so is calling a method a
      value does not have. */
  datatype JsError = JsTypeError

  /** `o.k` for a named key (neither an index nor `length`), as JavaScript
      evaluates it: it throws on `null` and `undefined`, and is undefined on
      any other value that is not an object holding `k`. */
  function JsRead(o: Option<Json>, k: string): (r: Result<Option<Json>, JsError>)
    ensures r.Err? <==> (o.None? || o.value.JNull?)
    ensures o.Some? && o.value.JObj? && k in o.value.fields ==> r == Ok(Some(o.value.fields[k]))
    ensures o.Some? && !o.value.JNull? && !(o.value.JObj? && k in o.value.fields) ==> r == Ok(None)
  {
    if o.None? || o.value.JNull? then Err(JsTypeError) else Ok(JsProp(o, k))
  }

  /** `o[0]`: the first item of a list, the first character of a text, the
      key "0" of an object; it throws on `null` and `undefined`. */
  function JsFirst(o: Option<Json>): (r: Result<Option<Json>, JsError>)
    ensures r.Err? <==> (o.None? || o.value.JNull?)
    ensures o.Some? && o.value.JArr? ==>
      r == Ok(if |o.value.items| > 0 then Some(o.value.items[0]) else None)
    ensures o.Some? && o.value.JStr? ==>
      r == Ok(if |o.value.s| > 0 then Some(JStr([o.value.s[0]])) else None)
    ensures o.Some? && (o.value.JNum? || o.value.JBool?) ==> r == Ok(None)
  {
    match o
    case None => Err(JsTypeError)
    case Some(JNull) => Err(JsTypeError)
    case Some(JArr(items)) => Ok(if |items| > 0 then Some(items[0]) else None)
    case Some(JStr(s)) => Ok(if |s| > 0 then Some(JStr([s[0]])) else None)
    case Some(JObj(fields)) => Ok(if "0" in fields then Some(fields["0"]) else None)
    case Some(_) => Ok(None)
  }

  /** JavaScript's `Number(v)`, `None` standing for NaN. How a text reads as
      a number (white space, decimal and hexadecimal forms, `Infinity`) is
      the parameter `textNumber`. A list reads through its text: the empty
      list is "" and so 0, a one-item list is the text of its item, and two
      or more items are joined with a comma, which is never a number. */
  function JsToNumber(v: Json, textNumber: string -> Option<real>): (r: Option<real>)
    ensures v.JNum? ==> r == Some(v.n)
    ensures v.JBool? ==> r == Some(if v.b then 1.0 else 0.0)
    ensures v.JNull? ==> r == Some(0.0)
    ensures v.JStr? ==> r == textNumber(v.s)
    ensures v.JObj? ==> r.None?
    ensures v.JArr? && |v.items| >= 2 ==> r.None?
    ensures v.JArr? && |v.items| == 0 ==> r == Some(0.0)
  {
    match v
    case JNull => Some(0.0)
    case JBool(b) => Some(if b then 1.0 else 0.0)
    case JNum(n) => Some(n)
    case JStr(s) => textNumber(s)
    case JObj(_) => None
    case JArr(items) =>
      if |items| == 0 then Some(0.0)
      else if |items| >= 2 then None
      else match items[0]
        // `String([null])` is "", and `String([true])` is "true"
        case JNull => Some(0.0)
        case JBool(_) => None
        case _ => JsToNumber(items[0], textNumber)
  }

  /** `a || b`: `a` when it is truthy, otherwise `b`. */
  function JsOr(a: Option<Json>, b: Json): (r: Json)
    ensures JsTruthy(a) ==> Some(r) == a
    ensures !JsTruthy(a) ==> r == b
  {
    if JsTruthy(a) then a.value else b
  }
}
