/**
 * The typed process variables both decoders produce. The two decoder source
 * files declare identical `JsonValue`, `JsonVar`, `BoolVar`, `StringVar` and
 * `ProcessInstanceVariable` types; the model declares them once.
 */
module Variables {
  import opened Wrappers
  import opened Json
  import opened Serde

  /** The engine's description of a Json variable (the `value` of a Json entry). */
  datatype JsonValue = JsonValue(
    dataFormatName: string,
    value: Value,
    isString: bool,
    isObject: bool,
    isBoolean: bool,
    isNumber: bool,
    isArray: bool,
    isNull: bool,
    nodeType: string)

  /** `ProcessInstanceVariable`: exactly one payload kind per variable. */
  datatype ProcessVariable =
    | JsonVar(jsonValue: JsonValue, valueInfo: map<string, Value>)
    | BoolVar(boolValue: bool, valueInfo: map<string, Value>)
    | StringVar(stringValue: string, valueInfo: map<string, Value>)

  type Variables = map<string, ProcessVariable>

  /** The three `type` strings the decoders understand. */
  predicate IsKnownType(typ: string)
  {
    typ == "Json" || typ == "Boolean" || typ == "String"
  }

  /** The `type` string a variable was decoded from. */
  function TypeTag(v: ProcessVariable): (t: string)
    ensures IsKnownType(t)
  {
    match v
    case JsonVar(_, _) => "Json"
    case BoolVar(_, _) => "Boolean"
    case StringVar(_, _) => "String"
  }

  /**
   * The fields a `JsonValue` needs, looked up in an object whose repeated
   * keys have already collapsed to their last value.
   */
  predicate JsonValueShape(m: map<string, Value>)
  {
    && "dataFormatName" in m && m["dataFormatName"].Str?
    && "value" in m
    && "string" in m && m["string"].Bool?
    && "object" in m && m["object"].Bool?
    && "boolean" in m && m["boolean"].Bool?
    && "number" in m && m["number"].Bool?
    && "array" in m && m["array"].Bool?
    && "null" in m && m["null"].Bool?
    && "nodeType" in m && m["nodeType"].Str?
  }

  /**
   * `serde_json::from_value::<JsonValue>`: the nine fields (camelCase names,
   * `null` for the null flag) of an already parsed value. That value is a
   * map, so a key written twice in the text counts once, with its last value.
   */
  function DecodeJsonValue(v: Value): (r: Option<JsonValue>)
    ensures r.Some? <==> v.Object? && JsonValueShape(ToMap(v.members))
    ensures r.Some? ==> var m := ToMap(v.members);
      r.value == JsonValue(m["dataFormatName"].s, m["value"], m["string"].b, m["object"].b, m["boolean"].b,
        m["number"].b, m["array"].b, m["null"].b, m["nodeType"].s)
  {
    if v.Object? && JsonValueShape(ToMap(v.members)) then Some(FromFields(ToMap(v.members))) else None
  }

  /** The record read from the fields of a well-shaped object. */
  function FromFields(m: map<string, Value>): JsonValue
    requires JsonValueShape(m)
  {
    JsonValue(m["dataFormatName"].s, m["value"], m["string"].b, m["object"].b, m["boolean"].b,
      m["number"].b, m["array"].b, m["null"].b, m["nodeType"].s)
  }

  /**
   * Each field of a decoded description holds the value of the last member
   * carrying its name, whatever came before it.
   */
  lemma JsonValueFieldLastWins(v: Value, i: int)
    requires v.Object? && LastOf(v.members, i) && DecodeJsonValue(v).Some?
    ensures var jv, key, x := DecodeJsonValue(v).value, v.members[i].0, v.members[i].1;
      && (key == "dataFormatName" ==> x == Str(jv.dataFormatName))
      && (key == "value" ==> x == jv.value)
      && (key == "string" ==> x == Bool(jv.isString))
      && (key == "object" ==> x == Bool(jv.isObject))
      && (key == "boolean" ==> x == Bool(jv.isBoolean))
      && (key == "number" ==> x == Bool(jv.isNumber))
      && (key == "array" ==> x == Bool(jv.isArray))
      && (key == "null" ==> x == Bool(jv.isNull))
      && (key == "nodeType" ==> x == Str(jv.nodeType))
  {
    ToMapLastWins(v.members, i);
  }

  /** A description whose `dataFormatName` is written twice: "a", then "b". */
  const RepeatedFormatName: Value := Object([
    ("dataFormatName", Str("a")), ("dataFormatName", Str("b")), ("value", Number(1)),
    ("string", Bool(false)), ("object", Bool(false)), ("boolean", Bool(false)),
    ("number", Bool(true)), ("array", Bool(false)), ("null", Bool(false)),
    ("nodeType", Str("NUMBER"))])

  /** The repeated field does not make the description invalid: the later "b" is read. */
  lemma RepeatedFieldKeepsLast()
    ensures DecodeJsonValue(RepeatedFormatName)
      == Some(JsonValue("b", Number(1), false, false, false, true, false, false, "NUMBER"))
  {
    var jv := JsonValue("b", Number(1), false, false, false, true, false, false, "NUMBER");
    var enc := EncodeJsonValue(jv).members;
    assert RepeatedFormatName.members == [("dataFormatName", Str("a"))] + enc;
    ToMapCons(("dataFormatName", Str("a")), enc);
    EncodedFieldsRead(jv);
    KeyAlreadyPresent("dataFormatName", Str("a"), ToMap(enc));
    JsonValueRoundTrip(jv);
  }

  lemma KeyAlreadyPresent<K, V>(k: K, v: V, m: map<K, V>)
    requires k in m
    ensures map[k := v] + m == m
  {
  }

  /** The derived `Serialize` of `JsonValue`: the nine fields in declaration order, camelCase names. */
  function EncodeJsonValue(jv: JsonValue): (v: Value)
    ensures v.Object? && |v.members| == 9
  {
    Object([
      ("dataFormatName", Str(jv.dataFormatName)), ("value", jv.value),
      ("string", Bool(jv.isString)), ("object", Bool(jv.isObject)), ("boolean", Bool(jv.isBoolean)),
      ("number", Bool(jv.isNumber)), ("array", Bool(jv.isArray)), ("null", Bool(jv.isNull)),
      ("nodeType", Str(jv.nodeType))])
  }

  lemma EncodedKeysDistinct(jv: JsonValue)
    ensures DistinctKeys(EncodeJsonValue(jv).members)
  {
  }

  /** Each of the nine encoded members is what the collapsed object holds under its key. */
  lemma EncodedFieldsRead(jv: JsonValue)
    ensures var m := ToMap(EncodeJsonValue(jv).members);
      JsonValueShape(m)
      && m["dataFormatName"] == Str(jv.dataFormatName) && m["value"] == jv.value
      && m["string"] == Bool(jv.isString) && m["object"] == Bool(jv.isObject)
      && m["boolean"] == Bool(jv.isBoolean) && m["number"] == Bool(jv.isNumber)
      && m["array"] == Bool(jv.isArray) && m["null"] == Bool(jv.isNull)
      && m["nodeType"] == Str(jv.nodeType)
  {
    var ms := EncodeJsonValue(jv).members;
    EncodedKeysDistinct(jv);
    ToMapDistinct(ms, 0); ToMapDistinct(ms, 1); ToMapDistinct(ms, 2);
    ToMapDistinct(ms, 3); ToMapDistinct(ms, 4); ToMapDistinct(ms, 5);
    ToMapDistinct(ms, 6); ToMapDistinct(ms, 7); ToMapDistinct(ms, 8);
  }

  /** What the derived `Serialize` writes, the derived `Deserialize` reads back unchanged. */
  lemma JsonValueRoundTrip(jv: JsonValue)
    ensures DecodeJsonValue(EncodeJsonValue(jv)) == Some(jv)
  {
    EncodedFieldsRead(jv);
  }
}
