/**
 * Payloads taken from the decoders' unit tests and from the documented
 * wire examples, as parsed JSON.
 */
module Fixtures {
  import opened Wrappers
  import opened Json
  import opened Serde
  import opened Variables

  /** The engine's description of a Json variable holding an array. */
  const ChecklistJsonValue: Value := Object([
    ("dataFormatName", Str("application/json")), ("value", Bool(false)),
    ("string", Bool(false)), ("object", Bool(false)), ("boolean", Bool(false)),
    ("number", Bool(false)), ("array", Bool(true)), ("null", Bool(false)),
    ("nodeType", Str("ARRAY"))])

  /** Both decoders' `test_module_parsing`: a Json entry and a Boolean entry in map shape. */
  const JsonAndBooleanMap: Value := Object([
    ("checklist_vj3ler", Object([("type", Str("Json")), ("value", ChecklistJsonValue), ("valueInfo", Object([]))])),
    ("checkbox_6ow5yg", Object([("type", Str("Boolean")), ("value", Bool(true)), ("valueInfo", Object([]))]))])

  /** One Boolean variable `k` in map shape. */
  const SingleBooleanMap: Value :=
    Object([("k", Object([("type", Str("Boolean")), ("value", Bool(true)), ("valueInfo", Object([]))]))])

  /** A flat entry list whose one entry carries fields the decoder does not know. */
  const FlatEntryWithExtras: Value := Array([Object([
    ("type", Str("String")), ("value", Str("x")), ("valueInfo", Object([])), ("name", Str("n")),
    ("id", Str("f9bac09f")), ("processInstanceId", Str("f2d4da42")), ("caseInstanceId", Null)])])

  /** The fixture's Json value is a well-formed engine description of an array. */
  lemma ChecklistJsonValueDecodes()
    ensures DecodeJsonValue(ChecklistJsonValue)
      == Some(JsonValue("application/json", Bool(false), false, false, false, false, true, false, "ARRAY"))
  {
    var jv := JsonValue("application/json", Bool(false), false, false, false, false, true, false, "ARRAY");
    assert ChecklistJsonValue == EncodeJsonValue(jv);
    JsonValueRoundTrip(jv);
  }
}
