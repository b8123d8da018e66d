/**
 * The handler-facing types of `src/types.rs`: output variables and their
 * constructors, the BPMN business error, and the handler signature.
 */
module Types {
  import opened Wrappers
  import opened Json
  import opened Variables
  import StrictDecoder

  /** Rust's `i32` and `i64`. */
  type I32 = x: int | -0x8000_0000 <= x < 0x8000_0000
  type I64 = x: int | -0x8000_0000_0000_0000 <= x < 0x8000_0000_0000_0000

  /** A variable a handler hands back to the engine: `{value, type, valueInfo}` on the wire. */
  datatype OutVariable = OutVariable(value: Value, typ: string, valueInfo: map<string, Value>)

  type Inputs = Variables
  type Outputs = map<string, OutVariable>

  // ---------------------------------------------------------------------
  // Output constructors
  // ---------------------------------------------------------------------

  function OutString(s: string): (o: OutVariable)
    ensures o.typ == "String" && o.value == Str(s) && o.valueInfo == map[]
  {
    OutVariable(Str(s), "String", map[])
  }

  function OutBool(b: bool): (o: OutVariable)
    ensures o.typ == "Boolean" && o.value == Bool(b) && o.valueInfo == map[]
  {
    OutVariable(Bool(b), "Boolean", map[])
  }

  function OutInteger(n: I32): (o: OutVariable)
    ensures o.typ == "Integer" && o.value == Number(n) && o.valueInfo == map[]
  {
    OutVariable(Number(n), "Integer", map[])
  }

  function OutLong(n: I64): (o: OutVariable)
    ensures o.typ == "Long" && o.value == Number(n) && o.valueInfo == map[]
  {
    OutVariable(Number(n), "Long", map[])
  }

  /** The value info that marks a Json output as serialised JSON text. */
  const SerializedJsonInfo: map<string, Value> := map["serializationDataFormat" := Str("application/json")]

  /**
   * A Json output carries the compact serialisation of `v` as a string,
   * tagged with the serialisation format.
   */
  function OutJson(v: Value): (o: OutVariable)
    ensures o.typ == "Json" && o.valueInfo == SerializedJsonInfo
    ensures o.value.Str? && o.value.s == Serialize(v)
  {
    OutVariable(Str(Serialize(v)), "Json", SerializedJsonInfo)
  }

  /** The wire value of a Json output is never the value itself, not even for a string. */
  lemma OutJsonNeverRaw(v: Value)
    ensures OutJson(v).value != v
  {
    if v.Str? {
      SerializedStringIsLonger(v.s);
    }
  }

  /** `{"a":1}` goes on the wire as the string `"{\"a\":1}"`. */
  lemma OutJsonExample()
    ensures OutJson(Object([("a", Number(1))])).value == Str("{\"a\":1}")
    ensures OutJson(Object([("a", Number(1))])).valueInfo["serializationDataFormat"] == Str("application/json")
  {
    assert Serialize(Number(1)) == "1";
    assert Quote("a") == "\"a\"";
  }

  /** The entry the engine reports back for a stored output variable. */
  function EchoedEntry(o: OutVariable): StrictDecoder.Entry
  {
    StrictDecoder.Entry(o.typ, o.value, o.valueInfo)
  }

  /** String and Boolean outputs read back, through the strict coercion, as the value written. */
  lemma ScalarOutputsReadBack(s: string, b: bool)
    ensures StrictDecoder.Coerce(EchoedEntry(OutString(s))) == Ok(StringVar(s, map[]))
    ensures StrictDecoder.Coerce(EchoedEntry(OutBool(b))) == Ok(BoolVar(b, map[]))
  {
  }

  /** The decoders know no numeric type: Integer and Long outputs do not read back. */
  lemma NumericOutputsDoNotReadBack(n: I32, m: I64)
    ensures StrictDecoder.Coerce(EchoedEntry(OutInteger(n))) == Err(StrictDecoder.UnknownType("Integer"))
    ensures StrictDecoder.Coerce(EchoedEntry(OutLong(m))) == Err(StrictDecoder.UnknownType("Long"))
  {
  }

  // ---------------------------------------------------------------------
  // BPMN business errors
  // ---------------------------------------------------------------------

  /** A business error: the engine routes the process along the matching error boundary. */
  datatype BpmnError = BpmnError(code: string, message: Option<string>)

  function NewBpmnError(code: string, message: string): (e: BpmnError)
    ensures e.code == code && e.message == Some(message)
  {
    BpmnError(code, Some(message))
  }

  function WithCodeOnly(code: string): (e: BpmnError)
    ensures e.code == code && e.message.None?
  {
    BpmnError(code, None)
  }

  const DisplayPrefix: string := "BPMN Error "

  /** The `Display` text: `BPMN Error <code>`, then `: <message>` when there is one. */
  function Display(e: BpmnError): (r: string)
    ensures |r| >= |DisplayPrefix + e.code| && r[..|DisplayPrefix + e.code|] == DisplayPrefix + e.code
    ensures e.message.None? <==> r == DisplayPrefix + e.code
  {
    match e.message
    case Some(m) => DisplayPrefix + e.code + ": " + m
    case None => DisplayPrefix + e.code
  }

  /** The text always starts with the prefix and the code, and the message can be cut back out of it. */
  lemma DisplayParts(e: BpmnError)
    ensures |Display(e)| >= |DisplayPrefix + e.code|
    ensures Display(e)[..|DisplayPrefix + e.code|] == DisplayPrefix + e.code
    ensures e.message.None? ==> Display(e) == DisplayPrefix + e.code
    ensures e.message.Some? ==> Display(e)[|DisplayPrefix + e.code|..] == ": " + e.message.value
  {
  }

  /** A message, even an empty one, shows in the text. */
  lemma DisplayShowsMessage(code: string, message: string)
    ensures Display(NewBpmnError(code, message)) != Display(WithCodeOnly(code))
  {
    assert |Display(NewBpmnError(code, message))| > |Display(WithCodeOnly(code))|;
  }

  // ---------------------------------------------------------------------
  // Handlers
  // ---------------------------------------------------------------------

  /**
   * What a handler's boxed error is, as the polling loop sees it: a
   * `BpmnError`, or any other error known only by its `Display` text.
   */
  datatype HandlerError = Business(bpmn: BpmnError) | Technical(text: string)

  /** `err.to_string()`: a business error shows its `Display` text, any other error its own text. */
  function ErrorText(err: HandlerError): (r: string)
    ensures err.Business? ==> |r| >= |DisplayPrefix| && r[..|DisplayPrefix|] == DisplayPrefix
    ensures err.Technical? ==> r == err.text
  {
    match err
    case Business(e) => Display(e)
    case Technical(text) => text
  }

  /** `ExternalTaskFn`: a plain function from the input variables to outputs or an error. */
  type TaskFn = Inputs -> Result<Outputs, HandlerError>
}
