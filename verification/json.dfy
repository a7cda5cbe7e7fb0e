/** The JSON document model the parser reads (org.json's JSONObject and
    JSONArray), with the accessors it calls. An accessor that Java lets throw
    JSONException returns Err here. */
module Json {
  import opened Wrappers
  import JavaLang

  /** A number is held as org.json's tokenizer leaves it: its value, and whether
      its literal was written without fraction or exponent. Such a literal that
      fits in a long is kept as an Integer or a Long; every other number is kept
      as a Double. */
  datatype Json =
    | Null
    | Bool(b: bool)
    | Num(n: real, integerLiteral: bool)
    | Str(s: string)
    | Arr(items: seq<Json>)
    | Obj(fields: map<string, Json>)

  type JsonObject = map<string, Json>
  type JsonArray = seq<Json>

  /** Why an accessor threw JSONException. */
  datatype JsonException =
    | NoSuchKey(key: string)
    | IndexOutOfRange(index: int)
    | TypeMismatch(expected: string)

  type JResult<T> = Result<T, JsonException>

  /** JSONObject.has */
  predicate Has(o: JsonObject, key: string) {
    key in o
  }

  /** JSONObject.get: the value mapped to key, or an exception when there is none. */
  function Get(o: JsonObject, key: string): (r: JResult<Json>)
    ensures r.Ok? <==> key in o
    ensures r.Ok? ==> r.value == o[key]
  {
    if key in o then Ok(o[key]) else Err(NoSuchKey(key))
  }

  /** JSONObject.getString */
  function GetString(o: JsonObject, key: string): (r: JResult<string>)
    ensures r.Ok? <==> key in o && o[key].Str?
    ensures r.Ok? ==> o[key] == Str(r.value)
  {
    var v :- Get(o, key);
    if v.Str? then Ok(v.s) else Err(TypeMismatch("String"))
  }

  /** JSONObject.getDouble */
  function GetDouble(o: JsonObject, key: string): (r: JResult<real>)
    ensures r.Ok? <==> key in o && o[key].Num?
    ensures r.Ok? ==> o[key].n == r.value
  {
    var v :- Get(o, key);
    if v.Num? then Ok(v.n) else Err(TypeMismatch("double"))
  }

  /** Whether the tokenizer keeps a number as an Integer or a Long. */
  predicate IsLong(v: Json)
    requires v.Num?
  {
    v.integerLiteral && v.n == v.n.Floor as real &&
    JavaLang.LONG_MIN <= v.n.Floor <= JavaLang.LONG_MAX
  }

  /** Number.intValue of the number org.json holds: Long.intValue keeps the low
      32 bits, Double.intValue truncates and saturates. */
  function IntValue(v: Json): int
    requires v.Num?
  {
    if IsLong(v) then JavaLang.LongToInt(v.n.Floor) else JavaLang.DoubleToInt(v.n)
  }

  /** intValue always gives an int. An integer literal within the range of long
      wraps modulo 2^32 and is kept as it is when it fits in an int; any other
      number is truncated toward zero and saturated at the bounds of int. */
  lemma IntValueSpec(v: Json)
    requires v.Num?
    ensures JavaLang.INT_MIN <= IntValue(v) <= JavaLang.INT_MAX
    ensures IsLong(v) ==> (v.n.Floor - IntValue(v)) % 0x1_0000_0000 == 0
    ensures IsLong(v) && JavaLang.INT_MIN as real <= v.n <= JavaLang.INT_MAX as real ==> IntValue(v) as real == v.n
    ensures !IsLong(v) && 0.0 <= v.n <= JavaLang.INT_MAX as real ==>
              IntValue(v) as real <= v.n < IntValue(v) as real + 1.0
    ensures !IsLong(v) && JavaLang.INT_MIN as real <= v.n < 0.0 ==>
              IntValue(v) as real - 1.0 < v.n <= IntValue(v) as real
    ensures !IsLong(v) && v.n >= JavaLang.INT_MAX as real ==> IntValue(v) == JavaLang.INT_MAX
    ensures !IsLong(v) && v.n <= JavaLang.INT_MIN as real ==> IntValue(v) == JavaLang.INT_MIN
  {
    JavaLang.LongToIntSpec(v.n.Floor);
    JavaLang.DoubleToIntSpec(v.n);
  }

  /** The same value read by getInt differs with how it was written: 3000000000
      is a Long and wraps, 3000000000.0 is a Double and saturates. */
  lemma LongLiteralWraps()
    ensures IntValue(Num(3000000000.0, true)) == -1294967296
    ensures IntValue(Num(3000000000.0, false)) == JavaLang.INT_MAX
  {
  }

  /** JSONObject.getInt: a number, narrowed by its intValue. */
  function GetInt(o: JsonObject, key: string): (r: JResult<int>)
    ensures r.Ok? <==> key in o && o[key].Num?
    ensures r.Ok? ==> JavaLang.INT_MIN <= r.value <= JavaLang.INT_MAX
    ensures r.Ok? ==> r.value == IntValue(o[key])
  {
    var v :- Get(o, key);
    if v.Num? then (IntValueSpec(v); Ok(IntValue(v))) else Err(TypeMismatch("int"))
  }

  /** JSONObject.getJSONArray */
  function GetArray(o: JsonObject, key: string): (r: JResult<JsonArray>)
    ensures r.Ok? <==> key in o && o[key].Arr?
    ensures r.Ok? ==> o[key] == Arr(r.value)
  {
    var v :- Get(o, key);
    if v.Arr? then Ok(v.items) else Err(TypeMismatch("JSONArray"))
  }

  /** JSONObject.getJSONObject */
  function GetObject(o: JsonObject, key: string): (r: JResult<JsonObject>)
    ensures r.Ok? <==> key in o && o[key].Obj?
    ensures r.Ok? ==> o[key] == Obj(r.value)
  {
    var v :- Get(o, key);
    if v.Obj? then Ok(v.fields) else Err(TypeMismatch("JSONObject"))
  }

  /** JSONArray.getJSONObject */
  function ArrayGetObject(a: JsonArray, i: nat): (r: JResult<JsonObject>)
    ensures r.Ok? <==> i < |a| && a[i].Obj?
    ensures r.Ok? ==> a[i] == Obj(r.value)
  {
    if i >= |a| then Err(IndexOutOfRange(i))
    else if a[i].Obj? then Ok(a[i].fields)
    else Err(TypeMismatch("JSONObject"))
  }

  /** JSONArray.getDouble */
  function ArrayGetDouble(a: JsonArray, i: nat): (r: JResult<real>)
    ensures r.Ok? <==> i < |a| && a[i].Num?
    ensures r.Ok? ==> a[i].n == r.value
  {
    if i >= |a| then Err(IndexOutOfRange(i))
    else if a[i].Num? then Ok(a[i].n)
    else Err(TypeMismatch("double"))
  }
}
