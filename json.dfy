/** An already-parsed JSON value and the accessors of Android's org.json that the
    provider-data conversion uses: JSONArray.getJSONObject, JSONObject.getString,
    getInt and getJSONArray. Each accessor returns None where org.json throws
    JSONException. */
module Json {
  import opened Optional
  import opened Decimal

  /** Android's JSON tokener reads an integer literal as an Integer or a Long. */
  newtype Int64 = x: int | -0x8000_0000_0000_0000 <= x < 0x8000_0000_0000_0000

  datatype Json =
    | JNull
    | JBool(b: bool)
    | JInt(n: Int64)
    | JStr(s: string)
    | JArr(items: seq<Json>)
    | JObj(fields: map<string, Json>)
  {
    /** A value that org.json can coerce to a string without serialising it. */
    predicate IsScalar() {
      !JArr? && !JObj?
    }
  }

  const INT_MIN: int := -0x8000_0000
  const INT_MAX: int := 0x7fff_ffff
  const TWO_TO_32: int := 0x1_0000_0000

  /** The range of a Java int. */
  predicate IsInt32(x: int) {
    INT_MIN <= x <= INT_MAX
  }

  /** Long.intValue(): keeps the low 32 bits, as a signed number. */
  function Wrap32(x: int): (r: int)
    ensures IsInt32(r)
    ensures (x - r) % TWO_TO_32 == 0
    ensures IsInt32(x) ==> r == x
  {
    var r := (x - INT_MIN) % TWO_TO_32 + INT_MIN;
    assert x - r == (x - INT_MIN) / TWO_TO_32 * TWO_TO_32;
    r
  }

  /** The Java cast (int) of a double with an integral value: saturates at the int range. */
  function Clamp32(x: int): (r: int)
    ensures IsInt32(r)
    ensures IsInt32(x) ==> r == x
    ensures x < INT_MIN ==> r == INT_MIN
    ensures x > INT_MAX ==> r == INT_MAX
  {
    if x < INT_MIN then INT_MIN else if x > INT_MAX then INT_MAX else x
  }

  /** JSONArray.getJSONObject(i) applied to the element at i: only an object is accepted. */
  function AsObject(v: Json): (r: Option<map<string, Json>>)
    ensures r.Some? <==> v.JObj?
    ensures r.Some? ==> r.value == v.fields
  {
    match v
    case JObj(fields) => Some(fields)
    case _ => None
  }

  /** JSONObject.getJSONArray(key): the key must be present and hold an array. */
  function GetJsonArray(obj: map<string, Json>, key: string): (r: Option<seq<Json>>)
    ensures r.Some? <==> key in obj && obj[key].JArr?
    ensures r.Some? ==> r.value == obj[key].items
  {
    if key in obj && obj[key].JArr? then Some(obj[key].items) else None
  }

  /** The string Android's org.json coerces a value to: a string as it is, a number in
      decimal, a boolean as "true" or "false", JSON null as "null". */
  function ToText(v: Json): (r: Option<string>)
    ensures r.Some? <==> v.IsScalar()
    ensures v.JStr? ==> r == Some(v.s)
  {
    match v
    case JStr(s) => Some(s)
    case JInt(n) => Some(IntToText(n as int))
    case JBool(b) => Some(if b then "true" else "false")
    case JNull => Some("null")
    case _ => None
  }

  /** JSONObject.getString(key): the key must be present and its value coercible. */
  function GetString(obj: map<string, Json>, key: string): (r: Option<string>)
    ensures r.Some? <==> key in obj && obj[key].IsScalar()
    ensures key in obj && obj[key].JStr? ==> r == Some(obj[key].s)
  {
    if key in obj then ToText(obj[key]) else None
  }

  /** The int Android's org.json coerces a value to: an Integer as it is, a Long through
      intValue(), a numeric string through (int) Double.parseDouble. */
  function ToInt(v: Json): (r: Option<int>)
    ensures r.Some? ==> IsInt32(r.value)
    ensures r.Some? <==> v.JInt? || (v.JStr? && ParseInt(v.s).Some?)
    ensures v.JInt? && IsInt32(v.n as int) ==> r == Some(v.n as int)
  {
    match v
    case JInt(n) => Some(Wrap32(n as int))
    case JStr(s) =>
      var x :- ParseInt(s);
      Some(Clamp32(x))
    case _ => None
  }

  /** JSONObject.getInt(key): the key must be present and its value coercible. */
  function GetInt(obj: map<string, Json>, key: string): (r: Option<int>)
    ensures r.Some? ==> IsInt32(r.value)
    ensures r.Some? <==> key in obj && (obj[key].JInt? || (obj[key].JStr? && ParseInt(obj[key].s).Some?))
  {
    if key in obj then ToInt(obj[key]) else None
  }

  /** getInt reads back the decimal text getString gives for the same int. */
  lemma IntTextCoercesBack(n: int)
    requires IsInt32(n)
    ensures ToInt(JStr(IntToText(n))) == Some(n)
  {
    IntTextRoundTrip(n);
  }
}
