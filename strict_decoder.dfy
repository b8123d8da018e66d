/**
 * The decoder the library and the binary link (`src/process_variables/mod.rs`):
 * one accepted shape, a JSON object mapping each variable name to an entry
 * `{type, value, valueInfo}`. Malformed text or a value that does not fit its
 * declared type makes the source panic; the model states those cases as
 * preconditions.
 */
module StrictDecoder {
  import opened Wrappers
  import opened Json
  import opened Serde
  import opened Variables
  import Fixtures

  /** One entry of the payload; `type` and `valueInfo` are required. */
  datatype Entry = Entry(typ: string, value: Value, valueInfo: map<string, Value>)

  datatype DecodeError =
    | Malformed             // the input is not a name -> entry object
    | NoValidEntries        // "no valid entries found"
    | UnknownType(typ: string)
    | Mismatch              // the value does not fit the declared type

  /**
   * The derived `Deserialize` of an entry: an object in which `type` (a string),
   * `value` (anything) and `valueInfo` (an object) each appear exactly once;
   * other members are ignored.
   */
  function DecodeEntry(v: Value): (r: Option<Entry>)
    ensures r.Some? <==> (v.Object?
      && Count(v.members, "type") == 1 && Get(v.members, "type").value.Str?
      && Count(v.members, "value") == 1
      && Count(v.members, "valueInfo") == 1 && Get(v.members, "valueInfo").value.Object?)
    ensures r.Some? ==> Get(v.members, "type") == Some(Str(r.value.typ))
    ensures r.Some? ==> Get(v.members, "value") == Some(r.value.value)
    ensures r.Some? ==> r.value.valueInfo == ToMap(Get(v.members, "valueInfo").value.members)
  {
    if !v.Object? then None
    else
      var ms := v.members;
      var typ :- Required(ms, "type", AsString);
      var value :- Required(ms, "value", AsAny);
      var valueInfo :- Required(ms, "valueInfo", AsValueMap);
      Some(Entry(typ, value, valueInfo))
  }

  /** `HashMap<String, Entry>`: an object whose every member is an entry, keyed by the member names. */
  function DecodeEntries(v: Value): (r: Option<map<string, Entry>>)
    ensures r.Some? <==> v.Object? && forall i :: 0 <= i < |v.members| ==> DecodeEntry(v.members[i].1).Some?
    ensures r.Some? ==> forall k :: k in r.value <==> Count(v.members, k) > 0
  {
    AsMapOf(v, DecodeEntry)
  }

  /** Turning one entry into a variable, with no tolerance for a value of the wrong kind. */
  function Coerce(e: Entry): (r: Result<ProcessVariable, DecodeError>)
    ensures r.Ok? ==> TypeTag(r.value) == e.typ && r.value.valueInfo == e.valueInfo
    ensures r == Err(UnknownType(e.typ)) <==> !IsKnownType(e.typ)
    ensures r.Err? ==> r.error == Mismatch || r.error == UnknownType(e.typ)
    ensures e.typ == "Boolean" ==> (r.Ok? <==> e.value.Bool?) && (r.Ok? ==> r.value.boolValue == e.value.b)
    ensures e.typ == "String" ==> (r.Ok? <==> e.value.Str?) && (r.Ok? ==> r.value.stringValue == e.value.s)
    ensures e.typ == "Json" ==> (r.Ok? <==> DecodeJsonValue(e.value).Some?)
    ensures e.typ == "Json" && r.Ok? ==> Some(r.value.jsonValue) == DecodeJsonValue(e.value)
  {
    if e.typ == "Json" then
      match DecodeJsonValue(e.value)
      case Some(jv) => Ok(JsonVar(jv, e.valueInfo))
      case None => Err(Mismatch)
    else if e.typ == "Boolean" then
      match AsBool(e.value)
      case Some(b) => Ok(BoolVar(b, e.valueInfo))
      case None => Err(Mismatch)
    else if e.typ == "String" then
      match AsString(e.value)
      case Some(s) => Ok(StringVar(s, e.valueInfo))
      case None => Err(Mismatch)
    else Err(UnknownType(e.typ))
  }

  /**
   * `Deserialize for ProcessInstanceVariable`: decodes a name -> entry map and
   * converts the first entry met while iterating it. Hash-map iteration order
   * is unspecified, so the model may pick any entry.
   */
  method Deserialize(v: Value) returns (r: Result<ProcessVariable, DecodeError>)
    ensures DecodeEntries(v).None? ==> r == Err(Malformed)
    ensures DecodeEntries(v) == Some(map[]) ==> r == Err(NoValidEntries)
    ensures DecodeEntries(v).Some? && DecodeEntries(v).value != map[] ==>
      exists k :: k in DecodeEntries(v).value && r == Coerce(DecodeEntries(v).value[k])
    ensures DecodeEntries(v).Some? && |DecodeEntries(v).value| == 1 ==>
      forall k :: k in DecodeEntries(v).value ==> r == Coerce(DecodeEntries(v).value[k])
  {
    var decoded := DecodeEntries(v);
    if decoded.None? {
      return Err(Malformed);
    }
    var entries := decoded.value;
    if entries == map[] {
      return Err(NoValidEntries);
    }
    var key :| key in entries;
    r := Coerce(entries[key]);
    if |entries| == 1 {
      forall k | k in entries ensures k == key {
        OnlyKey(entries, key, k);
      }
    }
  }

  lemma OnlyKey<K, V>(m: map<K, V>, a: K, b: K)
    requires |m| == 1 && a in m && b in m
    ensures a == b
  {
    if a != b {
      assert {a, b} <= m.Keys;
      assert |{a, b}| == 2;
      SubsetCardinality({a, b}, m.Keys);
    }
  }

  lemma {:induction false} SubsetCardinality<K>(a: set<K>, b: set<K>)
    requires a <= b
    ensures |a| <= |b|
    decreases b
  {
    if a != {} {
      var x :| x in a;
      SubsetCardinality(a - {x}, b - {x});
    }
  }

  /** Every entry of a known type holds a value of that type, so no conversion panics. */
  predicate AllFit(entries: map<string, Entry>)
  {
    forall k :: k in entries ==> Coerce(entries[k]) != Err(Mismatch)
  }

  /** The text is one name -> entry object whose entries all fit: the parse does not panic. */
  predicate Parsable(p: Payload)
  {
    WholeDocument(p).Some? && DecodeEntries(p.values[0]).Some? && AllFit(DecodeEntries(p.values[0]).value)
  }

  /** The variables the parse produces from a decoded entry map. */
  function KnownVariables(entries: map<string, Entry>): (r: Variables)
    requires AllFit(entries)
    ensures forall k :: k in r <==> k in entries && IsKnownType(entries[k].typ)
    ensures forall k :: k in r ==> TypeTag(r[k]) == entries[k].typ && r[k].valueInfo == entries[k].valueInfo
    ensures forall k :: k in r ==> Ok(r[k]) == Coerce(entries[k])
  {
    map k | k in entries && IsKnownType(entries[k].typ) :: Converted(entries[k])
  }

  /** The variable an entry of a known type converts to, when it fits. */
  function Converted(e: Entry): (v: ProcessVariable)
    requires IsKnownType(e.typ) && Coerce(e) != Err(Mismatch)
    ensures Ok(v) == Coerce(e)
    ensures TypeTag(v) == e.typ && v.valueInfo == e.valueInfo
  {
    Coerce(e).value
  }

  /**
   * `parse_process_instance_variables`: the text must be a name -> entry
   * object (the source unwraps the parse); then every entry is converted.
   */
  method ParseVariables(p: Payload) returns (result: Variables)
    requires Parsable(p)
    ensures result == KnownVariables(DecodeEntries(p.values[0]).value)
  {
    var entries := DecodeEntries(p.values[0]).value;
    result := CollectKnown(entries);
  }

  /**
   * The loop of the parse: every entry of a known type lands under its own
   * name; entries of any other type are skipped.
   */
  method CollectKnown(entries: map<string, Entry>) returns (result: Variables)
    requires AllFit(entries)
    ensures result == KnownVariables(entries)
  {
    result := map[];
    var todo := entries.Keys;
    while todo != {}
      invariant todo <= entries.Keys
      invariant CollectedExcept(entries, todo, result)
      decreases todo
    {
      var key :| key in todo;
      var entry := entries[key];
      if !IsKnownType(entry.typ) {
        SkipStep(entries, todo, result, key);
        todo := todo - {key};
        continue;
      }
      var coerced := Coerce(entry);
      // The source unwraps here; AllFit rules out the panic.
      assert coerced.Ok?;
      CollectStep(entries, todo, result, key);
      todo := todo - {key};
      result := result[key := coerced.value];
    }
    CollectedAll(entries, result);
  }

  /** `result` holds the converted known entries of every name outside `todo`. */
  ghost predicate CollectedExcept(entries: map<string, Entry>, todo: set<string>, result: Variables)
  {
    && (forall k :: k in result <==> k in entries && k !in todo && IsKnownType(entries[k].typ))
    && (forall k :: k in result ==> Ok(result[k]) == Coerce(entries[k]))
  }

  lemma SkipStep(entries: map<string, Entry>, todo: set<string>, result: Variables, key: string)
    requires key in entries && !IsKnownType(entries[key].typ)
    requires key in todo && CollectedExcept(entries, todo, result)
    ensures CollectedExcept(entries, todo - {key}, result)
  {
  }

  lemma CollectStep(entries: map<string, Entry>, todo: set<string>, result: Variables, key: string)
    requires key in entries && IsKnownType(entries[key].typ) && Coerce(entries[key]).Ok?
    requires key in todo && CollectedExcept(entries, todo, result)
    ensures CollectedExcept(entries, todo - {key}, result[key := Coerce(entries[key]).value])
  {
  }

  lemma CollectedAll(entries: map<string, Entry>, result: Variables)
    requires AllFit(entries)
    requires CollectedExcept(entries, {}, result)
    ensures result == KnownVariables(entries)
  {
    assert result.Keys == KnownVariables(entries).Keys;
  }

  /** The parse never invents a name: the result has at most as many variables as the payload has entries. */
  lemma ResultNoLarger(entries: map<string, Entry>)
    requires AllFit(entries)
    ensures KnownVariables(entries).Keys <= entries.Keys
    ensures |KnownVariables(entries)| <= |entries|
  {
    SubsetCardinality(KnownVariables(entries).Keys, entries.Keys);
  }

  /** The entries of the unit test's payload. */
  const FixtureEntries: map<string, Entry> := map[
    "checklist_vj3ler" := Entry("Json", Fixtures.ChecklistJsonValue, map[]),
    "checkbox_6ow5yg" := Entry("Boolean", Bool(true), map[])]

  /** The variables the unit test's payload must give. */
  const FixtureVariables: Variables := map[
    "checklist_vj3ler" := JsonVar(JsonValue("application/json", Bool(false), false, false, false, false, true, false, "ARRAY"), map[]),
    "checkbox_6ow5yg" := BoolVar(true, map[])]

  /** An entry written with its three fields once each decodes to exactly those fields. */
  lemma EntryDecodes(v: Value)
    requires v.Object? && |v.members| == 3
    requires v.members[0] == ("type", v.members[0].1) && v.members[0].1.Str?
    requires v.members[1].0 == "value" && v.members[2] == ("valueInfo", Object([]))
    ensures DecodeEntry(v) == Some(Entry(v.members[0].1.s, v.members[1].1, map[]))
  {
    var ms := v.members;
    assert DistinctKeys(ms);
    LookupDistinct(ms, 0); LookupDistinct(ms, 1); LookupDistinct(ms, 2);
  }

  /** The unit test's payload decodes to its two entries. */
  lemma JsonAndBooleanEntries()
    ensures DecodeEntries(Fixtures.JsonAndBooleanMap) == Some(FixtureEntries)
  {
    var members := Fixtures.JsonAndBooleanMap.members;
    EntryDecodes(members[0].1);
    EntryDecodes(members[1].1);
    MembersToMapSnoc([], members[0], DecodeEntry);
    MembersToMapSnoc([members[0]], members[1], DecodeEntry);
    assert members == [] + [members[0]] + [members[1]];
  }

  lemma ChecklistConverts()
    ensures Coerce(FixtureEntries["checklist_vj3ler"]) == Ok(FixtureVariables["checklist_vj3ler"])
  {
    Fixtures.ChecklistJsonValueDecodes();
  }

  lemma CheckboxConverts()
    ensures Coerce(FixtureEntries["checkbox_6ow5yg"]) == Ok(FixtureVariables["checkbox_6ow5yg"])
  {
  }

  /** The known variables are fixed entry by entry: a map is the result once each entry converts to it. */
  lemma KnownVariablesPointwise(entries: map<string, Entry>, expected: Variables)
    requires entries.Keys == expected.Keys
    requires forall k :: k in entries ==> Coerce(entries[k]) == Ok(expected[k])
    ensures AllFit(entries) && KnownVariables(entries) == expected
  {
  }

  lemma FixtureConverts()
    ensures AllFit(FixtureEntries) && KnownVariables(FixtureEntries) == FixtureVariables
  {
    assert FixtureEntries.Keys == FixtureVariables.Keys;
    forall k | k in FixtureEntries
      ensures Coerce(FixtureEntries[k]) == Ok(FixtureVariables[k])
    {
      if k == "checklist_vj3ler" {
        ChecklistConverts();
      } else {
        CheckboxConverts();
      }
    }
    KnownVariablesPointwise(FixtureEntries, FixtureVariables);
  }

  /**
   * The unit test's two-entry Json + Boolean payload parses without panicking
   * to a non-empty map holding both variables.
   */
  lemma JsonAndBooleanFixture()
    ensures Parsable(Payload([Fixtures.JsonAndBooleanMap], false))
    ensures KnownVariables(DecodeEntries(Fixtures.JsonAndBooleanMap).value) == FixtureVariables
    ensures |KnownVariables(DecodeEntries(Fixtures.JsonAndBooleanMap).value)| > 0
  {
    JsonAndBooleanEntries();
    FixtureConverts();
    assert "checkbox_6ow5yg" in FixtureVariables;
  }
}
