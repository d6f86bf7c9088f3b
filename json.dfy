/** The JSON values the adapters read and write (`serde_json::Value`), with
    the accessors the webhook parsers use. Numbers are kept as integers when
    they were written as integers, and as reals otherwise. */
module Json {
  import opened Wrappers

  datatype Json =
    | JNull
    | JBool(b: bool)
    | JInt(i: int)
    | JFloat(r: real)
    | JStr(s: string)
    | JArr(items: seq<Json>)
    | JObj(fields: map<string, Json>)

  const I64_MIN: int := -0x8000_0000_0000_0000
  const I64_MAX: int := 0x7FFF_FFFF_FFFF_FFFF

  /** `value.get(key)`: a member of an object; nothing for non-objects. */
  function Get(v: Json, key: string): (r: Option<Json>)
    ensures r.Some? <==> v.JObj? && key in v.fields
    ensures r.Some? ==> r.value == v.fields[key]
  {
    if v.JObj? && key in v.fields then Some(v.fields[key]) else None
  }

  /** `as_str`. */
  function AsStr(v: Json): (r: Option<string>)
    ensures r.Some? <==> v.JStr?
    ensures r.Some? ==> r.value == v.s
  {
    if v.JStr? then Some(v.s) else None
  }

  /** `as_f64`: any number. */
  function AsF64(v: Json): (r: Option<real>)
    ensures r.Some? <==> v.JInt? || v.JFloat?
    ensures v.JInt? ==> r == Some(v.i as real)
    ensures v.JFloat? ==> r == Some(v.r)
  {
    match v
    case JInt(i) => Some(i as real)
    case JFloat(x) => Some(x)
    case _ => None
  }

  /** `as_i64`: integers that fit in 64 signed bits. */
  function AsI64(v: Json): (r: Option<int>)
    ensures r.Some? <==> v.JInt? && I64_MIN <= v.i <= I64_MAX
    ensures r.Some? ==> r.value == v.i
  {
    if v.JInt? && I64_MIN <= v.i <= I64_MAX then Some(v.i) else None
  }

  /** `as_bool`. */
  function AsBool(v: Json): (r: Option<bool>)
    ensures r.Some? <==> v.JBool?
    ensures r.Some? ==> r.value == v.b
  {
    if v.JBool? then Some(v.b) else None
  }

  /** `as_array`. */
  function AsArray(v: Json): (r: Option<seq<Json>>)
    ensures r.Some? <==> v.JArr?
    ensures r.Some? ==> r.value == v.items
  {
    if v.JArr? then Some(v.items) else None
  }

  /** A field chain `v.get(k1).and_then(|x| x.get(k2))…` */
  function Path(v: Json, keys: seq<string>): (r: Option<Json>)
    ensures keys == [] ==> r == Some(v)
  {
    if keys == [] then Some(v)
    else
      match Get(v, keys[0])
      case None => None
      case Some(w) => Path(w, keys[1..])
  }

  /** `Value::from(x)` on an optional value: `null` when absent. */
  function OrNull(o: Option<Json>): Json {
    o.GetOr(JNull)
  }

  // ---------------------------------------------------------------------
  // Option chains: `o.and_then(|v| v.get(key))`, `o.and_then(|v| v.as_str())`, …

  function Field(o: Option<Json>, key: string): (r: Option<Json>)
    ensures r.Some? <==> o.Some? && o.value.JObj? && key in o.value.fields
  {
    if o.Some? then Get(o.value, key) else None
  }

  function StrOf(o: Option<Json>): (r: Option<string>)
    ensures r.Some? <==> o.Some? && o.value.JStr?
  {
    if o.Some? then AsStr(o.value) else None
  }

  function F64Of(o: Option<Json>): (r: Option<real>)
    ensures r.Some? <==> o.Some? && (o.value.JInt? || o.value.JFloat?)
  {
    if o.Some? then AsF64(o.value) else None
  }

  function I64Of(o: Option<Json>): (r: Option<int>)
    ensures r.Some? <==> o.Some? && o.value.JInt? && I64_MIN <= o.value.i <= I64_MAX
    ensures r.Some? ==> r.value == o.value.i
  {
    if o.Some? then AsI64(o.value) else None
  }

  function BoolOf(o: Option<Json>): (r: Option<bool>)
    ensures r.Some? <==> o.Some? && o.value.JBool?
  {
    if o.Some? then AsBool(o.value) else None
  }

  function ArrayOf(o: Option<Json>): (r: Option<seq<Json>>)
    ensures r.Some? <==> o.Some? && o.value.JArr?
  {
    if o.Some? then AsArray(o.value) else None
  }
}
