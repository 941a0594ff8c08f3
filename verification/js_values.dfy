/** The JavaScript values the handlers inspect: decoded JSON, `typeof`, truthiness, property
    reads and writes, and the two ways of asking whether an object has a key. */
module JsValues {
  import opened Wrappers

  /** A value as JavaScript holds it after `JSON.parse`. Arrays are objects in JavaScript, so
      besides their items they can carry named properties (`extra`). Numbers are integers here. */
  datatype Json =
    | JNull
    | JBool(b: bool)
    | JNum(n: int)
    | JStr(s: string)
    | JArr(items: seq<Json>, extra: map<string, Json>)
    | JObj(fields: map<string, Json>)

  /** JavaScript's `typeof`: `null` and arrays both report "object". */
  function TypeOf(v: Json): (t: string)
    ensures t == "object" <==> (v.JNull? || v.JArr? || v.JObj?)
    ensures t in {"object", "boolean", "number", "string"}
  {
    match v
    case JBool(_) => "boolean"
    case JNum(_) => "number"
    case JStr(_) => "string"
    case _ => "object"
  }

  /** Truthiness of a read value; `None` stands for `undefined`. */
  function Truthy(v: Option<Json>): (t: bool)
    ensures !t <==> v in {None, Some(JNull), Some(JBool(false)), Some(JNum(0)), Some(JStr(""))}
  {
    match v
    case None => false
    case Some(JNull) => false
    case Some(JBool(b)) => b
    case Some(JNum(n)) => n != 0
    case Some(JStr(s)) => s != ""
    case Some(_) => true
  }

  /** The names every object inherits from `Object.prototype`. */
  const ObjectPrototypeNames: set<string> :=
    {"constructor", "hasOwnProperty", "isPrototypeOf", "propertyIsEnumerable", "toLocaleString",
     "toString", "valueOf", "__proto__", "__defineGetter__", "__defineSetter__",
     "__lookupGetter__", "__lookupSetter__"}

  /** The names every array inherits from `Array.prototype` (ES2015). */
  const ArrayPrototypeNames: set<string> :=
    {"concat", "copyWithin", "entries", "every", "fill", "filter", "find", "findIndex", "forEach",
     "indexOf", "join", "keys", "lastIndexOf", "map", "pop", "push", "reduce", "reduceRight",
     "reverse", "shift", "slice", "some", "sort", "splice", "unshift", "values"}

  predicate IsDigits(s: string) {
    forall i :: 0 <= i < |s| ==> '0' <= s[i] <= '9'
  }

  function DecimalValue(s: string): nat
    requires IsDigits(s)
  {
    if |s| == 0 then 0 else DecimalValue(s[..|s| - 1]) * 10 + (s[|s| - 1] as int - '0' as int)
  }

  /** The array index a property name denotes: a canonical decimal numeral. */
  function ArrayIndex(key: string): (i: Option<nat>)
    ensures i.Some? <==> |key| > 0 && IsDigits(key) && (key[0] == '0' ==> |key| == 1)
  {
    if |key| > 0 && IsDigits(key) && (key[0] != '0' || |key| == 1) then
      Some(DecimalValue(key))
    else None
  }

  /** Whether `v` holds `key` as an own property (`v` an object or array). */
  predicate OwnKey(v: Json, key: string) {
    match v
    case JObj(fields) => key in fields
    case JArr(items, extra) =>
      || (ArrayIndex(key).Some? && ArrayIndex(key).value < |items|)
      || key == "length"
      || key in extra
    case _ => false
  }

  /** Reading `v[key]` for an own property; every other read gives `undefined`. The strings'
      `length` is the one primitive property covered. */
  function Get(v: Json, key: string): (r: Option<Json>)
    ensures (v.JObj? || v.JArr?) ==> (r.Some? <==> OwnKey(v, key))
    ensures v.JObj? ==> (r.Some? <==> key in v.fields) && (r.Some? ==> r.value == v.fields[key])
    ensures v.JNull? || v.JBool? || v.JNum? ==> r.None?
  {
    match v
    case JObj(fields) => if key in fields then Some(fields[key]) else None
    case JArr(items, extra) =>
      var i := ArrayIndex(key);
      if i.Some? && i.value < |items| then Some(items[i.value])
      else if key == "length" then Some(JNum(|items|))
      else if key in extra then Some(extra[key])
      else None
    case JStr(s) => if key == "length" then Some(JNum(|s|)) else None
    case _ => None
  }

  /** A name that can be written as a named property, on an array as well as on an object. */
  predicate Nameable(key: string) {
    ArrayIndex(key).None? && key != "length"
  }

  /** The assignment `v[key] = x` on an object or array. */
  function Put(v: Json, key: string, x: Json): (r: Json)
    requires v.JObj? || v.JArr?
    requires Nameable(key)
    ensures r.JObj? == v.JObj? && r.JArr? == v.JArr?
    ensures Get(r, key) == Some(x)
    ensures forall k :: k != key ==> Get(r, k) == Get(v, k)
  {
    match v
    case JObj(fields) => JObj(fields[key := x])
    case JArr(items, extra) => JArr(items, extra[key := x])
  }

  /** JavaScript's `key in v`: `None` when the operator throws (`v` is `null` or a primitive);
      otherwise inherited names match too. */
  function InOperator(key: string, v: Json): (r: Option<bool>)
    ensures r.Some? <==> (v.JObj? || v.JArr?)
    ensures r.Some? ==> (r.value <==> OwnKey(v, key) || key in ObjectPrototypeNames
                                      || (v.JArr? && key in ArrayPrototypeNames))
  {
    match v
    case JObj(fields) => Some(key in fields || key in ObjectPrototypeNames)
    case JArr(_, _) => Some(OwnKey(v, key) || key in ArrayPrototypeNames || key in ObjectPrototypeNames)
    case _ => None
  }

  /** `Object.prototype.hasOwnProperty.call(v, key)` on a value of type "object": `None` when it
      throws, which is for `null`. */
  function HasOwnProperty(v: Json, key: string): (r: Option<bool>)
    requires TypeOf(v) == "object"
    ensures r.None? <==> v.JNull?
    ensures r.Some? ==> (r.value <==> Get(v, key).Some?)
  {
    if v.JNull? then None else Some(OwnKey(v, key))
  }
}
