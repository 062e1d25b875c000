/** A JSON value as `serde_json::Value` holds it. serde_json's default map is
    ordered by key, so a Dafny map loses nothing but duplicate keys, which
    serde_json also collapses. Floating-point numbers are not modelled: every
    number is an integer. */
module Json {
  import opened Base

  datatype Json =
    | Null
    | Bool(b: bool)
    | Int(i: int)
    | Str(s: string)
    | Arr(items: seq<Json>)
    | Obj(fields: map<string, Json>)

  /** `Value::get(key)`: a field of an object; every other value has none. */
  function Get(j: Json, key: string): (r: Option<Json>)
    ensures r.Some? <==> j.Obj? && key in j.fields
  {
    if j.Obj? && key in j.fields then Some(j.fields[key]) else None
  }

  /** `value.get(key).and_then(|v| v.as_str())`. */
  function GetStr(j: Json, key: string): (r: Option<string>)
    ensures r.Some? <==> Get(j, key).Some? && Get(j, key).value.Str?
  {
    match Get(j, key)
    case Some(Str(s)) => Some(s)
    case _ => None
  }

  /** `value.get(key).and_then(|v| v.as_bool())`. */
  function GetBool(j: Json, key: string): (r: Option<bool>)
    ensures r.Some? <==> Get(j, key).Some? && Get(j, key).value.Bool?
  {
    match Get(j, key)
    case Some(Bool(b)) => Some(b)
    case _ => None
  }

  /** `value.get(key).and_then(|v| v.as_array())`. */
  function GetArr(j: Json, key: string): (r: Option<seq<Json>>)
    ensures r.Some? <==> Get(j, key).Some? && Get(j, key).value.Arr?
  {
    match Get(j, key)
    case Some(Arr(a)) => Some(a)
    case _ => None
  }

  /** `value.get(key).and_then(|v| v.as_u64())`: non-negative integers only. */
  function GetNat(j: Json, key: string): (r: Option<nat>)
    ensures r.Some? <==> Get(j, key).Some? && Get(j, key).value.Int? && Get(j, key).value.i >= 0
  {
    match Get(j, key)
    case Some(Int(n)) => if n >= 0 then Some(n) else None
    case _ => None
  }

  /** `value.get(key).and_then(|v| v.as_i64())`. */
  function GetInt(j: Json, key: string): (r: Option<int>)
    ensures r.Some? <==> Get(j, key).Some? && Get(j, key).value.Int?
  {
    match Get(j, key)
    case Some(Int(n)) => Some(n)
    case _ => None
  }

  /** `Value::is_object`. */
  predicate IsObject(j: Json) { j.Obj? }

  /** The result of serde decoding, field by field: `None` is a decode error. */
  type Decoded<T> = Option<T>

  /** A `String` field that must be present. */
  function ReqStr(j: Json, key: string): (r: Decoded<string>)
    ensures r.Some? <==> GetStr(j, key).Some?
  {
    GetStr(j, key)
  }

  /** An `Option<String>` field: absent or null is `None`, a string is kept,
      any other value fails the whole record. */
  function OptStr(j: Json, key: string): (r: Decoded<Option<string>>)
    ensures r == Some(None) <==> Get(j, key).None? || Get(j, key) == Some(Null)
    ensures r.Some? && r.value.Some? <==> GetStr(j, key).Some?
  {
    match Get(j, key)
    case None => Some(None)
    case Some(Null) => Some(None)
    case Some(Str(s)) => Some(Some(s))
    case Some(_) => None
  }

  /** An `Option<bool>` field. */
  function OptBool(j: Json, key: string): (r: Decoded<Option<bool>>)
    ensures r == Some(None) <==> Get(j, key).None? || Get(j, key) == Some(Null)
    ensures r.Some? && r.value.Some? <==> GetBool(j, key).Some?
  {
    match Get(j, key)
    case None => Some(None)
    case Some(Null) => Some(None)
    case Some(Bool(b)) => Some(Some(b))
    case Some(_) => None
  }

  /** An `Option<u32>` field: an integer in range, else a decode error. */
  function OptU32(j: Json, key: string): (r: Decoded<Option<nat>>)
    ensures r == Some(None) <==> Get(j, key).None? || Get(j, key) == Some(Null)
    ensures r.Some? && r.value.Some? ==> IsU32(r.value.value) && Get(j, key) == Some(Int(r.value.value))
  {
    match Get(j, key)
    case None => Some(None)
    case Some(Null) => Some(None)
    case Some(Int(n)) => if IsU32(n) then Some(Some(n)) else None
    case Some(_) => None
  }

  /** An `Option<serde_json::Value>` field: serde maps an explicit null to `None`. */
  function OptValue(j: Json, key: string): (r: Option<Json>)
    ensures r.Some? <==> Get(j, key).Some? && Get(j, key).value != Null
    ensures r.Some? ==> Get(j, key) == Some(r.value)
  {
    match Get(j, key)
    case Some(Null) => None
    case other => other
  }
}
