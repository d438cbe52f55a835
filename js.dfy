/** Values of the JavaScript runtime that the client layer handles:
    optional values (`undefined`/`null`), thrown errors, JSON documents,
    and the truthiness tests and `||` defaults the source relies on. */
module Js {

  /** A value that may be missing.  Where the source treats `undefined`
      and `null` alike, `None` stands for either; otherwise the member
      using it says which one it means. */
  datatype Option<+T> = None | Some(value: T) {
    function GetOr(default: T): T {
      if Some? then value else default
    }
  }

  /** A thrown JavaScript error: its `name` (constructor) and its `message`. */
  datatype JsError = JsError(name: string, message: string)

  /** `new Error(message)` */
  function NewError(message: string): JsError {
    JsError("Error", message)
  }

  /** `Error.prototype.toString`: "name: message", dropping an empty part. */
  function ErrorToString(e: JsError): (s: string)
    ensures e.name == "" ==> s == e.message
    ensures e.message == "" ==> s == e.name
    ensures e.name != "" && e.message != "" ==> |s| == |e.name| + 2 + |e.message|
  {
    if e.name == "" then e.message
    else if e.message == "" then e.name
    else e.name + ": " + e.message
  }

  /** The outcome of an async operation: its resolved value, or the error it throws. */
  datatype Result<+T> = Ok(value: T) | Err(error: JsError)

  /** Truthiness of a value that is a string, `undefined` or `null`. */
  predicate Truthy(s: Option<string>) {
    s.Some? && s.value != ""
  }

  /** Truthiness of a value that is a number, `undefined` or `null`. */
  predicate TruthyNum(n: Option<int>) {
    n.Some? && n.value != 0
  }

  /** `a || b` on string-or-missing values. */
  function Or(a: Option<string>, b: Option<string>): (r: Option<string>)
    ensures Truthy(a) ==> r == a
    ensures !Truthy(a) ==> r == b
  {
    if Truthy(a) then a else b
  }

  /** `a || fallback` where the fallback is a string literal. */
  function OrElse(a: Option<string>, fallback: string): (r: string)
    ensures Truthy(a) ==> r == a.value
    ensures !Truthy(a) ==> r == fallback
  {
    if Truthy(a) then a.value else fallback
  }

  /** A JSON document. Numbers are integers; object fields keep their insertion order. */
  datatype Json =
    | Null
    | Bool(b: bool)
    | Num(n: int)
    | Str(s: string)
    | Arr(items: seq<Json>)
    | Obj(fields: seq<Field>)

  datatype Field = Field(key: string, value: Json)

  /** JavaScript truthiness of a JSON value. */
  predicate JsonTruthy(j: Json) {
    match j
    case Null => false
    case Bool(b) => b
    case Num(n) => n != 0
    case Str(s) => s != ""
    case Arr(_) => true
    case Obj(_) => true
  }

  /** Position of the LAST field with this key, or -1 when there is none. */
  function LastIndexOf(fields: seq<Field>, key: string): (i: int)
    ensures -1 <= i < |fields|
    ensures i >= 0 ==> fields[i].key == key
    ensures forall j :: i < j < |fields| ==> fields[j].key != key
  {
    if |fields| == 0 then -1
    else if fields[|fields| - 1].key == key then |fields| - 1
    else LastIndexOf(fields[..|fields| - 1], key)
  }

  /** The property names every object literal inherits from `Object.prototype`:
      looking one of them up in a literal finds a function (or, for
      `__proto__`, the prototype itself) instead of `undefined`. */
  const PrototypeNames := {"constructor", "__defineGetter__", "__defineSetter__", "hasOwnProperty",
                           "__lookupGetter__", "__lookupSetter__", "isPrototypeOf", "propertyIsEnumerable",
                           "toString", "valueOf", "__proto__", "toLocaleString"}

  /** Property read on a parsed object: the last field with that key wins, as in `JSON.parse`. */
  function Lookup(fields: seq<Field>, key: string): (r: Option<Json>)
    ensures r.None? <==> forall i :: 0 <= i < |fields| ==> fields[i].key != key
  {
    var i := LastIndexOf(fields, key);
    if i < 0 then None else Some(fields[i].value)
  }

  /** `obj.key`; `None` is `undefined` (missing key, or not an object). */
  function Get(j: Json, key: string): Option<Json> {
    if j.Obj? then Lookup(j.fields, key) else None
  }

  /** `obj.key` read as a string: a field holding a non-string counts as missing. */
  function GetString(j: Json, key: string): (r: Option<string>)
    ensures r.Some? <==> Get(j, key).Some? && Get(j, key).value.Str?
    ensures r.Some? ==> Get(j, key) == Some(Str(r.value))
  {
    match Get(j, key)
    case Some(Str(s)) => Some(s)
    case _ => None
  }

  /** The TypeError V8 throws when a property of `null` is read. */
  function NullPropertyError(key: string): JsError {
    JsError("TypeError", "Cannot read properties of null (reading '" + key + "')")
  }

  /** The TypeError V8 throws when a property of `undefined` is read. */
  function UndefinedPropertyError(key: string): JsError {
    JsError("TypeError", "Cannot read properties of undefined (reading '" + key + "')")
  }

  /** The TypeError V8 throws when a non-function is called; `callee` is the call's source text. */
  function NotAFunctionError(callee: string): JsError {
    JsError("TypeError", callee + " is not a function")
  }

  /** `value.key` on a parsed document: `null` throws, any other non-object gives `undefined`. */
  function ReadProperty(j: Json, key: string): (r: Result<Option<Json>>)
    ensures r.Err? <==> j.Null?
    ensures r.Err? ==> r.error == NullPropertyError(key)
    ensures r.Ok? ==> r.value == Get(j, key)
  {
    if j.Null? then Err(NullPropertyError(key)) else Ok(Get(j, key))
  }

  /** The object's keys, in order. */
  function Keys(fields: seq<Field>): (ks: seq<string>)
    ensures |ks| == |fields|
    ensures forall i :: 0 <= i < |fields| ==> ks[i] == fields[i].key
  {
    if |fields| == 0 then [] else Keys(fields[..|fields| - 1]) + [fields[|fields| - 1].key]
  }

  /** Appending a field makes it the one read back under its key; other keys are unaffected. */
  lemma LookupAppend(fields: seq<Field>, f: Field, key: string)
    ensures Lookup(fields + [f], key) == if f.key == key then Some(f.value) else Lookup(fields, key)
  {
    assert (fields + [f])[..|fields|] == fields;
  }

  /** No two fields of the object share a key. */
  predicate DistinctKeys(fields: seq<Field>) {
    forall i, j :: 0 <= i < j < |fields| ==> fields[i].key != fields[j].key
  }

  /** In an object without repeated keys every field is the one read back under its key. */
  lemma LookupDistinct(fields: seq<Field>, i: nat)
    requires DistinctKeys(fields) && i < |fields|
    ensures Lookup(fields, fields[i].key) == Some(fields[i].value)
  {
    var k := LastIndexOf(fields, fields[i].key);
    assert k >= i;
  }

  /** JavaScript truthiness of a value that may be `undefined`. */
  predicate Present(v: Option<Json>) {
    v.Some? && JsonTruthy(v.value)
  }

  /** `v || fallback` on a value that may be `undefined`. */
  function JsonOr(v: Option<Json>, fallback: Json): (r: Json)
    ensures Present(v) ==> r == v.value
    ensures !Present(v) ==> r == fallback
  {
    if Present(v) then v.value else fallback
  }

  /** An object field whose value is `undefined` is dropped by `JSON.stringify`. */
  function OptionalField(key: string, value: Option<Json>): (fs: seq<Field>)
    ensures value.None? ==> fs == []
    ensures value.Some? ==> fs == [Field(key, value.value)]
  {
    if value.Some? then [Field(key, value.value)] else []
  }

  /** An optional field read back: present exactly when it was added. */
  lemma LookupAppendOptional(fields: seq<Field>, key: string, value: Option<Json>, k: string)
    ensures Lookup(fields + OptionalField(key, value), k) == if k == key && value.Some? then value else Lookup(fields, k)
  {
    if value.Some? {
      LookupAppend(fields, Field(key, value.value), k);
    } else {
      assert fields + OptionalField(key, value) == fields;
    }
  }

  /** The keys of a concatenation are the concatenated keys. */
  lemma KeysAppend(a: seq<Field>, b: seq<Field>)
    ensures Keys(a + b) == Keys(a) + Keys(b)
  {
  }

  /** `if (value) obj[key] = value` on an object literal, for a value decided beforehand:
      the key is added at the end exactly when there is a value. */
  function WithOptional(fields: seq<Field>, key: string, value: Option<Json>): (fs: seq<Field>)
    ensures Keys(fs) == Keys(fields) + (if value.Some? then [key] else [])
  {
    KeysAppend(fields, OptionalField(key, value));
    fields + OptionalField(key, value)
  }

  /** Reading a key back after `WithOptional`. */
  lemma WithOptionalLookup(fields: seq<Field>, key: string, value: Option<Json>, k: string)
    ensures Lookup(WithOptional(fields, key, value), k) == if k == key && value.Some? then value else Lookup(fields, k)
  {
    LookupAppendOptional(fields, key, value, k);
  }

  /** A string-or-undefined value as JSON: `undefined` drops the field, a string stays a string. */
  function StrOrAbsent(s: Option<string>): Option<Json> {
    if s.Some? then Some(Str(s.value)) else None
  }

  /** A string-or-null value as JSON where `null` is kept. */
  function StrOrNull(s: Option<string>): Json {
    if s.Some? then Str(s.value) else Null
  }

  /** A string sent only when it is truthy. */
  function TruthyStr(s: Option<string>): (v: Option<Json>)
    ensures v.Some? <==> Truthy(s)
    ensures v.Some? ==> v.value == Str(s.value)
  {
    if Truthy(s) then Some(Str(s.value)) else None
  }
}
