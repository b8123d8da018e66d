/**
 * The tolerant decoder of `src/structures/process_variables.rs`. It accepts
 * the several payload shapes the engine's variable endpoints return, never
 * fails, and degrades per entry instead of rejecting the payload. (The crate
 * never declares this file as a module; the library links the strict decoder
 * instead.)
 */
module TolerantDecoder {
  import opened Wrappers
  import opened Json
  import opened Serde
  import opened Variables
  import StrictDecoder
  import Fixtures

  /** One entry of the payload; here `name` is optional and defaults to "". */
  datatype Entry = Entry(typ: string, name: string, value: Value, valueInfo: map<string, Value>)

  /**
   * The derived `Deserialize` of an entry: an object in which `type` (a string),
   * `value` (anything) and `valueInfo` (an object) each appear exactly once and
   * `name`, when present, once and as a string; other members are ignored.
   */
  function DecodeEntry(v: Value): (r: Option<Entry>)
    ensures r.Some? <==> (v.Object?
      && Count(v.members, "type") == 1 && Get(v.members, "type").value.Str?
      && (Count(v.members, "name") == 0 || (Count(v.members, "name") == 1 && Get(v.members, "name").value.Str?))
      && Count(v.members, "value") == 1
      && Count(v.members, "valueInfo") == 1 && Get(v.members, "valueInfo").value.Object?)
    ensures r.Some? ==> Get(v.members, "type") == Some(Str(r.value.typ))
    ensures r.Some? ==> Get(v.members, "value") == Some(r.value.value)
    ensures r.Some? ==> r.value.valueInfo == ToMap(Get(v.members, "valueInfo").value.members)
    ensures r.Some? && Count(v.members, "name") == 0 ==> r.value.name == ""
    ensures r.Some? && Count(v.members, "name") == 1 ==> Get(v.members, "name") == Some(Str(r.value.name))
  {
    if !v.Object? then None
    else
      var ms := v.members;
      var typ :- Required(ms, "type", AsString);
      var name :- WithDefault(ms, "name", AsString, "");
      var value :- Required(ms, "value", AsAny);
      var valueInfo :- Required(ms, "valueInfo", AsValueMap);
      Some(Entry(typ, name, value, valueInfo))
  }

  /** Shape 1: `HashMap<String, Entry>`. */
  function DecodeEntryMap(v: Value): Option<map<string, Entry>>
  {
    AsMapOf(v, DecodeEntry)
  }

  /** Shape 2: `Vec<Entry>`, each entry carrying its own name. */
  function DecodeEntryList(v: Value): Option<seq<Entry>>
  {
    AsSeqOf(v, DecodeEntry)
  }

  /** Shape 3: `Vec<HashMap<String, Entry>>`. */
  function DecodeMapList(v: Value): Option<seq<map<string, Entry>>>
  {
    AsSeqOf(v, DecodeEntryMap)
  }

  // ---------------------------------------------------------------------
  // Typed accessors
  // ---------------------------------------------------------------------

  function AsBool(v: ProcessVariable): (r: Option<bool>)
    ensures r.Some? <==> v.BoolVar?
    ensures v.BoolVar? ==> r == Some(v.boolValue)
  {
    match v
    case BoolVar(b, _) => Some(b)
    case _ => None
  }

  function AsStr(v: ProcessVariable): (r: Option<string>)
    ensures r.Some? <==> v.StringVar?
    ensures v.StringVar? ==> r == Some(v.stringValue)
  {
    match v
    case StringVar(s, _) => Some(s)
    case _ => None
  }

  /** The inner `value` of the engine's Json description, not the description itself. */
  function AsJson(v: ProcessVariable): (r: Option<Value>)
    ensures r.Some? <==> v.JsonVar?
    ensures v.JsonVar? ==> r == Some(v.jsonValue.value)
  {
    match v
    case JsonVar(j, _) => Some(j.value)
    case _ => None
  }

  /** Every variable answers exactly one accessor: the one of its own kind. */
  lemma ExactlyOneAccessor(v: ProcessVariable)
    ensures (if AsBool(v).Some? then 1 else 0) + (if AsStr(v).Some? then 1 else 0)
          + (if AsJson(v).Some? then 1 else 0) == 1
    ensures AsBool(v).Some? <==> TypeTag(v) == "Boolean"
    ensures AsStr(v).Some? <==> TypeTag(v) == "String"
    ensures AsJson(v).Some? <==> TypeTag(v) == "Json"
  {
  }

  // ---------------------------------------------------------------------
  // Per-entry conversion (`insert_entry`)
  // ---------------------------------------------------------------------

  /** What a Json entry becomes when its value is not a valid Json description. */
  const Placeholder: JsonValue := JsonValue("", Null, false, false, false, false, false, true, "")

  /**
   * The conversion of one entry: a value of the wrong kind falls back to
   * `false`, `""` or the placeholder; an unknown type yields nothing.
   */
  function Convert(e: Entry): (r: Option<ProcessVariable>)
    ensures r.None? <==> !IsKnownType(e.typ)
    ensures r.Some? ==> TypeTag(r.value) == e.typ && r.value.valueInfo == e.valueInfo
    ensures e.typ == "Boolean" ==> r.value.boolValue == (e.value.Bool? && e.value.b)
    ensures e.typ == "String" ==> r.value.stringValue == (if e.value.Str? then e.value.s else "")
    ensures e.typ == "Json" && DecodeJsonValue(e.value).Some? ==> r.value.jsonValue == DecodeJsonValue(e.value).value
    ensures e.typ == "Json" && DecodeJsonValue(e.value).None? ==> r.value.jsonValue == Placeholder
  {
    if e.typ == "Json" then
      var jv := match DecodeJsonValue(e.value) case Some(jv) => jv case None => Placeholder;
      Some(JsonVar(jv, e.valueInfo))
    else if e.typ == "Boolean" then
      Some(BoolVar(match Serde.AsBool(e.value) case Some(b) => b case None => false, e.valueInfo))
    else if e.typ == "String" then
      Some(StringVar(match Serde.AsString(e.value) case Some(s) => s case None => "", e.valueInfo))
    else None
  }

  /** The placeholder says "null" and nothing else. */
  lemma PlaceholderIsNull()
    ensures Placeholder.value == Null && Placeholder.isNull
    ensures !Placeholder.isString && !Placeholder.isObject && !Placeholder.isBoolean
    ensures !Placeholder.isNumber && !Placeholder.isArray
    ensures Placeholder.dataFormatName == "" && Placeholder.nodeType == ""
  {
  }

  /** `insert_entry`: a known entry lands under `name`, replacing any earlier one. */
  function InsertEntry(result: Variables, name: string, e: Entry): (r: Variables)
    ensures IsKnownType(e.typ) ==> r == result[name := Convert(e).value]
    ensures !IsKnownType(e.typ) ==> r == result
  {
    match Convert(e)
    case Some(v) => result[name := v]
    case None => result
  }

  // ---------------------------------------------------------------------
  // The shapes, as specification functions
  // ---------------------------------------------------------------------

  /** The variables of one name -> entry map. */
  function MapVariables(entries: map<string, Entry>): (r: Variables)
    ensures forall k :: k in r <==> k in entries && IsKnownType(entries[k].typ)
    ensures forall k :: k in r ==> Some(r[k]) == Convert(entries[k])
  {
    map k | k in entries && IsKnownType(entries[k].typ) :: Convert(entries[k]).value
  }

  /** A flat entry is inserted only when it carries a non-empty name. */
  function InsertNamed(result: Variables, e: Entry): (r: Variables)
    ensures result.Keys <= r.Keys
  {
    if e.name != "" then InsertEntry(result, e.name, e) else result
  }

  /** Flat entries inserted one after the other: no name is ever removed. */
  function FoldEntries(result: Variables, entries: seq<Entry>): (r: Variables)
    ensures result.Keys <= r.Keys
    decreases |entries|
  {
    if |entries| == 0 then result else FoldEntries(InsertNamed(result, entries[0]), entries[1..])
  }

  /** Name -> entry maps inserted one after the other: no name is ever removed. */
  function FoldMaps(result: Variables, maps: seq<map<string, Entry>>): (r: Variables)
    ensures result.Keys <= r.Keys
    decreases |maps|
  {
    if |maps| == 0 then result else FoldMaps(result + MapVariables(maps[0]), maps[1..])
  }

  /**
   * Shape 4a: top-level values read as entries until the first one that is
   * not an entry; the flag records whether a named entry was seen. No name
   * is removed, a set flag stays set, and while it is unset nothing changes.
   */
  function EntryStream(result: Variables, anyParsed: bool, values: seq<Value>): (r: (Variables, bool))
    ensures result.Keys <= r.0.Keys
    ensures anyParsed ==> r.1
    ensures !r.1 ==> r.0 == result
    decreases |values|
  {
    if |values| == 0 then (result, anyParsed)
    else
      match DecodeEntry(values[0])
      case None => (result, anyParsed)
      case Some(e) =>
        if e.name != "" then EntryStream(InsertEntry(result, e.name, e), true, values[1..])
        else EntryStream(result, anyParsed, values[1..])
  }

  /** Shape 4b: top-level values read as name -> entry maps until the first one that is not; no name is removed. */
  function MapStream(result: Variables, values: seq<Value>): (r: Variables)
    ensures result.Keys <= r.Keys
    decreases |values|
  {
    if |values| == 0 then result
    else
      match DecodeEntryMap(values[0])
      case None => result
      case Some(m) => MapStream(result + MapVariables(m), values[1..])
  }

  /**
   * `parse_process_instance_variables`: the shapes tried in order, the first
   * that decodes wins; it never fails, and a text without a complete value
   * gives no variables.
   */
  function Parse(p: Payload): (r: Variables)
    ensures |p.values| == 0 ==> r == map[]
  {
    var doc := WholeDocument(p);
    if doc.Some? && DecodeEntryMap(doc.value).Some? then
      MapVariables(DecodeEntryMap(doc.value).value)
    else if doc.Some? && DecodeEntryList(doc.value).Some? then
      FoldEntries(map[], DecodeEntryList(doc.value).value)
    else if doc.Some? && DecodeMapList(doc.value).Some? then
      FoldMaps(map[], DecodeMapList(doc.value).value)
    else
      var (result, anyParsed) := EntryStream(map[], false, p.values);
      if anyParsed then result else MapStream(result, p.values)
  }

  // ---------------------------------------------------------------------
  // The imperative decoder
  // ---------------------------------------------------------------------

  /** The loop `for (name, entry) in map { insert_entry(..) }`, in hash order. */
  method InsertAll(start: Variables, entries: map<string, Entry>) returns (result: Variables)
    ensures result == start + MapVariables(entries)
  {
    result := start;
    var todo := entries.Keys;
    while todo != {}
      invariant todo <= entries.Keys
      invariant InsertedExcept(start, entries, todo, result)
      decreases todo
    {
      var name :| name in todo;
      InsertStep(start, entries, todo, result, name);
      todo := todo - {name};
      result := InsertEntry(result, name, entries[name]);
    }
    InsertedAll(start, entries, result);
  }

  /** `result` is `start` with every known entry outside `todo` inserted. */
  ghost predicate InsertedExcept(start: Variables, entries: map<string, Entry>, todo: set<string>, result: Variables)
  {
    && (forall k :: k in result <==> k in start || (k in entries && k !in todo && IsKnownType(entries[k].typ)))
    && (forall k :: k in result ==>
          result[k] == if k in entries && k !in todo && IsKnownType(entries[k].typ) then Convert(entries[k]).value else start[k])
  }

  lemma InsertStep(start: Variables, entries: map<string, Entry>, todo: set<string>, result: Variables, name: string)
    requires todo <= entries.Keys && name in todo
    requires InsertedExcept(start, entries, todo, result)
    ensures InsertedExcept(start, entries, todo - {name}, InsertEntry(result, name, entries[name]))
  {
  }

  lemma InsertedAll(start: Variables, entries: map<string, Entry>, result: Variables)
    requires InsertedExcept(start, entries, {}, result)
    ensures result == start + MapVariables(entries)
  {
    assert result.Keys == (start + MapVariables(entries)).Keys;
  }

  /** Strategy 2's loop: flat entries inserted under their names, unnamed ones skipped. */
  method InsertFlatEntries(entries: seq<Entry>) returns (result: Variables)
    ensures result == FoldEntries(map[], entries)
  {
    result := map[];
    for i := 0 to |entries|
      invariant FoldEntries(result, entries[i..]) == FoldEntries(map[], entries)
    {
      assert entries[i..][1..] == entries[i + 1..];
      if entries[i].name == "" {
        continue;
      }
      result := InsertEntry(result, entries[i].name, entries[i]);
    }
  }

  /** Strategy 3's loop: one name -> entry map after the other. */
  method InsertMaps(maps: seq<map<string, Entry>>) returns (result: Variables)
    ensures result == FoldMaps(map[], maps)
  {
    result := map[];
    for i := 0 to |maps|
      invariant FoldMaps(result, maps[i..]) == FoldMaps(map[], maps)
    {
      assert maps[i..][1..] == maps[i + 1..];
      result := InsertAll(result, maps[i]);
    }
  }

  /** Strategy 4a's loop: entries read one chunk at a time until a chunk is not an entry. */
  method ReadEntryStream(values: seq<Value>) returns (result: Variables, anyParsed: bool)
    ensures (result, anyParsed) == EntryStream(map[], false, values)
  {
    result := map[];
    anyParsed := false;
    var i := 0;
    while i < |values|
      invariant 0 <= i <= |values|
      invariant EntryStream(result, anyParsed, values[i..]) == EntryStream(map[], false, values)
    {
      assert values[i..][1..] == values[i + 1..];
      var next := DecodeEntry(values[i]);
      if next.None? {
        break;
      }
      var entry := next.value;
      if entry.name != "" {
        result := InsertEntry(result, entry.name, entry);
        anyParsed := true;
      }
      i := i + 1;
    }
  }

  /** Strategy 4b's loop: maps read one chunk at a time until a chunk is not a map. */
  method ReadMapStream(start: Variables, values: seq<Value>) returns (result: Variables)
    ensures result == MapStream(start, values)
  {
    result := start;
    var j := 0;
    while j < |values|
      invariant 0 <= j <= |values|
      invariant MapStream(result, values[j..]) == MapStream(start, values)
    {
      assert values[j..][1..] == values[j + 1..];
      var next := DecodeEntryMap(values[j]);
      if next.None? {
        break;
      }
      result := InsertAll(result, next.value);
      j := j + 1;
    }
  }

  /** `parse_process_instance_variables` as the source runs it. */
  method ParseVariables(p: Payload) returns (result: Variables)
    ensures result == Parse(p)
  {
    var doc := WholeDocument(p);

    // Strategy 1: a single name -> entry object.
    if doc.Some? {
      var parsedMap := DecodeEntryMap(doc.value);
      if parsedMap.Some? {
        result := InsertAll(map[], parsedMap.value);
        return;
      }
    }

    // Strategy 2: an array of flat entries carrying `name`.
    if doc.Some? {
      var parsedEntries := DecodeEntryList(doc.value);
      if parsedEntries.Some? {
        result := InsertFlatEntries(parsedEntries.value);
        return;
      }
    }

    // Strategy 3: an array of name -> entry objects.
    if doc.Some? {
      var parsedMaps := DecodeMapList(doc.value);
      if parsedMaps.Some? {
        result := InsertMaps(parsedMaps.value);
        return;
      }
    }

    // Strategy 4a: concatenated entries, up to the first chunk that is not one.
    var anyParsed;
    result, anyParsed := ReadEntryStream(p.values);
    if anyParsed {
      return;
    }

    // Strategy 4b: concatenated name -> entry maps, continuing from 4a's result.
    result := ReadMapStream(result, p.values);
  }

  // ---------------------------------------------------------------------
  // The tolerant file's own `Deserialize` for a single variable
  // ---------------------------------------------------------------------

  /** The strict coercion of one entry, ignoring its name. */
  function Coerce(e: Entry): (r: Result<ProcessVariable, StrictDecoder.DecodeError>)
    ensures r.Ok? ==> Some(r.value) == Convert(e)
    ensures r.Err? && IsKnownType(e.typ) ==> r.error == StrictDecoder.Mismatch
  {
    StrictDecoder.Coerce(StrictDecoder.Entry(e.typ, e.value, e.valueInfo))
  }

  /**
   * `Deserialize for ProcessInstanceVariable` in this file: a name -> entry
   * map whose first entry in hash order is coerced strictly.
   */
  method Deserialize(v: Value) returns (r: Result<ProcessVariable, StrictDecoder.DecodeError>)
    ensures DecodeEntryMap(v).None? ==> r == Err(StrictDecoder.Malformed)
    ensures DecodeEntryMap(v) == Some(map[]) ==> r == Err(StrictDecoder.NoValidEntries)
    ensures DecodeEntryMap(v).Some? && DecodeEntryMap(v).value != map[] ==>
      exists k :: k in DecodeEntryMap(v).value && r == Coerce(DecodeEntryMap(v).value[k])
    ensures DecodeEntryMap(v).Some? && |DecodeEntryMap(v).value| == 1 ==>
      forall k :: k in DecodeEntryMap(v).value ==> r == Coerce(DecodeEntryMap(v).value[k])
  {
    var decoded := DecodeEntryMap(v);
    if decoded.None? {
      return Err(StrictDecoder.Malformed);
    }
    var entries := decoded.value;
    if entries == map[] {
      return Err(StrictDecoder.NoValidEntries);
    }
    var key :| key in entries;
    r := Coerce(entries[key]);
    if |entries| == 1 {
      forall k | k in entries ensures k == key {
        StrictDecoder.OnlyKey(entries, key, k);
      }
    }
  }

  /** Where the strict coercion succeeds, the tolerant conversion agrees with it. */
  lemma StrictAgreesWhereItSucceeds(e: Entry)
    requires StrictDecoder.Coerce(StrictDecoder.Entry(e.typ, e.value, e.valueInfo)).Ok?
    ensures Convert(e) == Some(StrictDecoder.Coerce(StrictDecoder.Entry(e.typ, e.value, e.valueInfo)).value)
  {
  }

  // ---------------------------------------------------------------------
  // Properties of the shapes
  // ---------------------------------------------------------------------

  /** Shape 1: exactly the known-typed names, each converted from its entry. */
  lemma ObjectShape(p: Payload, m: map<string, Entry>)
    requires WholeDocument(p).Some? && DecodeEntryMap(WholeDocument(p).value) == Some(m)
    ensures forall k :: k in Parse(p) <==> k in m && IsKnownType(m[k].typ)
    ensures forall k :: k in Parse(p) ==> TypeTag(Parse(p)[k]) == m[k].typ && Parse(p)[k].valueInfo == m[k].valueInfo
  {
  }

  /** `{}` and `[]` are taken by the first two shapes and give no variables. */
  lemma EmptyDocuments()
    ensures Parse(Payload([Object([])], false)) == map[]
    ensures Parse(Payload([Array([])], false)) == map[]
  {
    assert DecodeEntryMap(Array([])).None?;
  }

  /** Folding flat entries: a name is present iff it was present or some named entry of a known type carries it. */
  lemma {:induction false} FoldEntriesKeys(acc: Variables, entries: seq<Entry>)
    ensures forall k :: k in FoldEntries(acc, entries) <==>
      k in acc || exists i :: 0 <= i < |entries| && entries[i].name == k && k != "" && IsKnownType(entries[i].typ)
    decreases |entries|
  {
    if |entries| > 0 {
      var rest := entries[1..];
      FoldEntriesKeys(InsertNamed(acc, entries[0]), rest);
      forall k ensures k in FoldEntries(acc, entries) <==>
        k in acc || exists i :: 0 <= i < |entries| && entries[i].name == k && k != "" && IsKnownType(entries[i].typ)
      {
        if exists i :: 0 <= i < |entries| && entries[i].name == k && k != "" && IsKnownType(entries[i].typ) {
          var i :| 0 <= i < |entries| && entries[i].name == k && k != "" && IsKnownType(entries[i].typ);
          if i > 0 {
            assert rest[i - 1] == entries[i];
          }
        }
        if exists i :: 0 <= i < |rest| && rest[i].name == k && k != "" && IsKnownType(rest[i].typ) {
          var i :| 0 <= i < |rest| && rest[i].name == k && k != "" && IsKnownType(rest[i].typ);
          assert entries[i + 1] == rest[i];
        }
      }
    }
  }

  /** Folding one more flat entry is inserting it into the fold of the others. */
  lemma {:induction false} FoldEntriesSnoc(acc: Variables, entries: seq<Entry>, e: Entry)
    ensures FoldEntries(acc, entries + [e]) == InsertNamed(FoldEntries(acc, entries), e)
    decreases |entries|
  {
    if |entries| > 0 {
      assert (entries + [e])[1..] == entries[1..] + [e];
      FoldEntriesSnoc(InsertNamed(acc, entries[0]), entries[1..], e);
    }
  }

  /** In a flat array a later entry with the same name overwrites an earlier one. */
  lemma LaterEntryWins(acc: Variables, entries: seq<Entry>, e: Entry)
    requires e.name != "" && IsKnownType(e.typ)
    ensures e.name in FoldEntries(acc, entries + [e])
    ensures Some(FoldEntries(acc, entries + [e])[e.name]) == Convert(e)
  {
    FoldEntriesSnoc(acc, entries, e);
  }

  /** An unnamed entry or one of an unknown type leaves the result as it was. */
  lemma SkippedEntryChangesNothing(acc: Variables, entries: seq<Entry>, e: Entry)
    requires e.name == "" || !IsKnownType(e.typ)
    ensures FoldEntries(acc, entries + [e]) == FoldEntries(acc, entries)
  {
    FoldEntriesSnoc(acc, entries, e);
  }

  /** Folding one more map is adding its variables over the fold of the others. */
  lemma {:induction false} FoldMapsSnoc(acc: Variables, maps: seq<map<string, Entry>>, m: map<string, Entry>)
    ensures FoldMaps(acc, maps + [m]) == FoldMaps(acc, maps) + MapVariables(m)
    decreases |maps|
  {
    if |maps| > 0 {
      assert (maps + [m])[1..] == maps[1..] + [m];
      FoldMapsSnoc(acc + MapVariables(maps[0]), maps[1..], m);
    }
  }

  /** Folding maps: a name is present iff it was present or some map holds it with a known type. */
  lemma {:induction false} FoldMapsKeys(acc: Variables, maps: seq<map<string, Entry>>)
    ensures forall k :: k in FoldMaps(acc, maps) <==>
      k in acc || exists i :: 0 <= i < |maps| && k in maps[i] && IsKnownType(maps[i][k].typ)
    decreases |maps|
  {
    if |maps| > 0 {
      var last := maps[|maps| - 1];
      var init := maps[..|maps| - 1];
      assert maps == init + [last];
      FoldMapsSnoc(acc, init, last);
      FoldMapsKeys(acc, init);
      MapsKeysStep(acc, init, last, FoldMaps(acc, init));
    }
  }

  /** Adding one more map's variables adds exactly its names of a known type. */
  lemma MapsKeysStep(acc: Variables, init: seq<map<string, Entry>>, last: map<string, Entry>, before: Variables)
    requires forall k :: k in before <==>
      k in acc || exists i :: 0 <= i < |init| && k in init[i] && IsKnownType(init[i][k].typ)
    ensures var maps := init + [last];
      forall k :: k in before + MapVariables(last) <==>
        k in acc || exists i :: 0 <= i < |maps| && k in maps[i] && IsKnownType(maps[i][k].typ)
  {
    var maps: seq<map<string, Entry>> := init + [last];
    assert maps[|init|] == last;
    forall k: string ensures k in before + MapVariables(last) <==>
      k in acc || exists i :: 0 <= i < |maps| && k in maps[i] && IsKnownType(maps[i][k].typ)
    {
      var inLast := k in last && IsKnownType(last[k].typ);
      assert k in MapVariables(last) <==> inLast;
      if inLast {
        assert k in maps[|init|] && IsKnownType(maps[|init|][k].typ);
      }
      if exists i :: 0 <= i < |maps| && k in maps[i] && IsKnownType(maps[i][k].typ) {
        var i :| 0 <= i < |maps| && k in maps[i] && IsKnownType(maps[i][k].typ);
        if i < |init| {
          assert init[i] == maps[i];
        }
      }
      if exists i :: 0 <= i < |init| && k in init[i] && IsKnownType(init[i][k].typ) {
        var i :| 0 <= i < |init| && k in init[i] && IsKnownType(init[i][k].typ);
        assert maps[i] == init[i];
      }
    }
  }

  /** The entry stream ignores everything from the first value that is not an entry. */
  lemma {:induction false} EntryStreamStops(acc: Variables, anyParsed: bool, values: seq<Value>, i: nat)
    requires i < |values| && DecodeEntry(values[i]).None?
    ensures EntryStream(acc, anyParsed, values) == EntryStream(acc, anyParsed, values[..i])
    decreases i
  {
    if i > 0 && DecodeEntry(values[0]).Some? {
      assert values[..i][1..] == values[1..][..i - 1];
      var e := DecodeEntry(values[0]).value;
      if e.name != "" {
        EntryStreamStops(InsertEntry(acc, e.name, e), true, values[1..], i - 1);
      } else {
        EntryStreamStops(acc, anyParsed, values[1..], i - 1);
      }
    }
  }

  /** The map stream ignores everything from the first value that is not a name -> entry map. */
  lemma {:induction false} MapStreamStops(acc: Variables, values: seq<Value>, i: nat)
    requires i < |values| && DecodeEntryMap(values[i]).None?
    ensures MapStream(acc, values) == MapStream(acc, values[..i])
    decreases i
  {
    if i > 0 && DecodeEntryMap(values[0]).Some? {
      assert values[..i][1..] == values[1..][..i - 1];
      MapStreamStops(acc + MapVariables(DecodeEntryMap(values[0]).value), values[1..], i - 1);
    }
  }

  /** An entry stream that saw no named entry has left the result as it found it. */
  lemma {:induction false} EntryStreamWithoutNames(acc: Variables, anyParsed: bool, values: seq<Value>)
    ensures anyParsed ==> EntryStream(acc, anyParsed, values).1
    ensures !EntryStream(acc, anyParsed, values).1 ==> EntryStream(acc, anyParsed, values).0 == acc
    decreases |values|
  {
    if |values| > 0 && DecodeEntry(values[0]).Some? {
      var e := DecodeEntry(values[0]).value;
      if e.name != "" {
        EntryStreamWithoutNames(InsertEntry(acc, e.name, e), true, values[1..]);
      } else {
        EntryStreamWithoutNames(acc, anyParsed, values[1..]);
      }
    }
  }

  /**
   * When no whole-document shape applies and the entry stream finds no named
   * entry, the result is what the map stream reads from scratch.
   */
  lemma FallsThroughToMapStream(p: Payload)
    requires WholeDocument(p).Some? ==>
      DecodeEntryMap(WholeDocument(p).value).None? && DecodeEntryList(WholeDocument(p).value).None?
      && DecodeMapList(WholeDocument(p).value).None?
    requires !EntryStream(map[], false, p.values).1
    ensures Parse(p) == MapStream(map[], p.values)
  {
    EntryStreamWithoutNames(map[], false, p.values);
  }

  /** A payload in none of the shapes gives no variables, rather than an error. */
  lemma UnreadableGivesEmpty(p: Payload)
    requires WholeDocument(p).Some? ==>
      DecodeEntryMap(WholeDocument(p).value).None? && DecodeEntryList(WholeDocument(p).value).None?
      && DecodeMapList(WholeDocument(p).value).None?
    requires |p.values| > 0 ==> DecodeEntry(p.values[0]).None? && DecodeEntryMap(p.values[0]).None?
    ensures Parse(p) == map[]
  {
  }

  /** `{"invalid":}` is malformed before its first value ends. */
  lemma InvalidTextGivesEmpty()
    ensures Parse(Payload([], true)) == map[]
  {
  }

  /** Fields other than type, name, value and valueInfo do not affect an entry. */
  lemma ExtraFieldsIgnored(members: seq<(string, Value)>, extra: seq<(string, Value)>)
    requires Count(extra, "type") == 0 && Count(extra, "name") == 0
    requires Count(extra, "value") == 0 && Count(extra, "valueInfo") == 0
    ensures DecodeEntry(Object(members + extra)) == DecodeEntry(Object(members))
  {
    CountAppend(members, extra, "type");
    CountAppend(members, extra, "name");
    CountAppend(members, extra, "value");
    CountAppend(members, extra, "valueInfo");
    GetAppend(members, extra, "type");
    GetAppend(members, extra, "name");
    GetAppend(members, extra, "value");
    GetAppend(members, extra, "valueInfo");
  }

  // ---------------------------------------------------------------------
  // The unit tests' payloads
  // ---------------------------------------------------------------------

  /** The entries of `test_module_parsing`'s payload; neither carries a name. */
  const FixtureEntries: map<string, Entry> := map[
    "checklist_vj3ler" := Entry("Json", "", Fixtures.ChecklistJsonValue, map[]),
    "checkbox_6ow5yg" := Entry("Boolean", "", Bool(true), map[])]

  lemma ChecklistEntryDecodes()
    ensures DecodeEntry(Fixtures.JsonAndBooleanMap.members[0].1) == Some(FixtureEntries["checklist_vj3ler"])
  {
    var ms := Fixtures.JsonAndBooleanMap.members[0].1.members;
    CountZero(ms, "name");
    assert DistinctKeys(ms);
    LookupDistinct(ms, 0); LookupDistinct(ms, 1); LookupDistinct(ms, 2);
  }

  lemma CheckboxEntryDecodes()
    ensures DecodeEntry(Fixtures.JsonAndBooleanMap.members[1].1) == Some(FixtureEntries["checkbox_6ow5yg"])
  {
    var ms := Fixtures.JsonAndBooleanMap.members[1].1.members;
    CountZero(ms, "name");
    assert DistinctKeys(ms);
    LookupDistinct(ms, 0); LookupDistinct(ms, 1); LookupDistinct(ms, 2);
  }

  lemma JsonAndBooleanEntries()
    ensures DecodeEntryMap(Fixtures.JsonAndBooleanMap) == Some(FixtureEntries)
  {
    var members := Fixtures.JsonAndBooleanMap.members;
    ChecklistEntryDecodes();
    CheckboxEntryDecodes();
    MembersToMapSnoc([], members[0], DecodeEntry);
    MembersToMapSnoc([members[0]], members[1], DecodeEntry);
    assert members == [] + [members[0]] + [members[1]];
  }

  lemma ChecklistConverts()
    ensures Convert(FixtureEntries["checklist_vj3ler"]) == Some(StrictDecoder.FixtureVariables["checklist_vj3ler"])
  {
    Fixtures.ChecklistJsonValueDecodes();
  }

  /** The mapped variables are fixed entry by entry: a map is the result once each entry converts to it. */
  lemma MapVariablesPointwise(entries: map<string, Entry>, expected: Variables)
    requires entries.Keys == expected.Keys
    requires forall k :: k in entries ==> Convert(entries[k]) == Some(expected[k])
    ensures MapVariables(entries) == expected
  {
  }

  lemma CheckboxConverts()
    ensures Convert(FixtureEntries["checkbox_6ow5yg"]) == Some(StrictDecoder.FixtureVariables["checkbox_6ow5yg"])
  {
  }

  lemma FixtureConverts()
    ensures MapVariables(FixtureEntries) == StrictDecoder.FixtureVariables
  {
    assert FixtureEntries.Keys == StrictDecoder.FixtureVariables.Keys;
    forall k | k in FixtureEntries
      ensures Convert(FixtureEntries[k]) == Some(StrictDecoder.FixtureVariables[k])
    {
      if k == "checklist_vj3ler" {
        ChecklistConverts();
      } else {
        CheckboxConverts();
      }
    }
    MapVariablesPointwise(FixtureEntries, StrictDecoder.FixtureVariables);
  }

  /** `test_module_parsing`: the map-shape payload gives the same two variables as the strict decoder. */
  lemma JsonAndBooleanParses()
    ensures Parse(Payload([Fixtures.JsonAndBooleanMap], false)) == StrictDecoder.FixtureVariables
    ensures Parse(Payload([Fixtures.JsonAndBooleanMap], false)) != map[]
  {
    var p := Payload([Fixtures.JsonAndBooleanMap], false);
    JsonAndBooleanEntries();
    assert WholeDocument(p) == Some(Fixtures.JsonAndBooleanMap);
    assert Parse(p) == MapVariables(FixtureEntries);
    FixtureConverts();
    assert "checkbox_6ow5yg" in StrictDecoder.FixtureVariables;
  }

  /** A single Boolean variable in map shape reads back as `true`. */
  lemma SingleBooleanParses()
    ensures Parse(Payload([Fixtures.SingleBooleanMap], false)) == map["k" := BoolVar(true, map[])]
    ensures AsBool(Parse(Payload([Fixtures.SingleBooleanMap], false))["k"]) == Some(true)
  {
    var p := Payload([Fixtures.SingleBooleanMap], false);
    var members := Fixtures.SingleBooleanMap.members;
    var ms := members[0].1.members;
    var entry := Entry("Boolean", "", Bool(true), map[]);
    CountZero(ms, "name");
    assert DistinctKeys(ms);
    LookupDistinct(ms, 0); LookupDistinct(ms, 1); LookupDistinct(ms, 2);
    assert DecodeEntry(members[0].1) == Some(entry);
    MembersToMapSnoc([], members[0], DecodeEntry);
    assert members == [] + [members[0]];
    assert WholeDocument(p) == Some(Fixtures.SingleBooleanMap);
    assert Parse(p) == MapVariables(map["k" := entry]);
    assert Convert(entry) == Some(BoolVar(true, map[]));
    MapVariablesPointwise(map["k" := entry], map["k" := BoolVar(true, map[])]);
  }

  /**
   * `test_module_parsing_complex_json_sequence`, cut to one entry: a flat
   * entry array whose entry carries extra fields gives the named variable.
   */
  lemma FlatItemDecodes()
    ensures DecodeEntry(Fixtures.FlatEntryWithExtras.items[0]) == Some(Entry("String", "n", Str("x"), map[]))
  {
    var ms := Fixtures.FlatEntryWithExtras.items[0].members;
    assert DistinctKeys(ms);
    FieldAt(ms, 0, AsString, ""); FieldAt(ms, 3, AsString, "");
    FieldAt(ms, 1, AsAny, Null); FieldAt(ms, 2, AsValueMap, map[]);
  }

  lemma FlatListDecodes()
    ensures DecodeEntryMap(Fixtures.FlatEntryWithExtras).None?
    ensures DecodeEntryList(Fixtures.FlatEntryWithExtras) == Some([Entry("String", "n", Str("x"), map[])])
  {
    FlatItemDecodes();
    var list := DecodeEntryList(Fixtures.FlatEntryWithExtras);
    assert list.Some? && |list.value| == 1;
    assert list.value == [list.value[0]];
  }

  lemma FlatEntryParses()
    ensures Parse(Payload([Fixtures.FlatEntryWithExtras], false)) == map["n" := StringVar("x", map[])]
    ensures AsStr(Parse(Payload([Fixtures.FlatEntryWithExtras], false))["n"]) == Some("x")
  {
    var e := Entry("String", "n", Str("x"), map[]);
    FlatListDecodes();
    assert FoldEntries(map[], [e]) == map["n" := StringVar("x", map[])] by {
      assert [e][1..] == [];
    }
  }
}
