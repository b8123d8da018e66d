# operaton-task-worker, modelled in Dafny

This project models the core of `operaton-task-worker`, a Rust external-task worker for the Operaton / Camunda 7 process engine. The worker runs a polling pass over and over:

1. It lists the open external tasks.
2. For each listed task, in order, it locks it for a lease.
3. It fetches the process-instance variables and decodes them into typed process variables (Json, Boolean, String).
4. It looks up a handler by its activity id and runs it on those variables.
5. It reports the handler's result to the engine: a completion with output variables, a BPMN business error, or a technical failure without retries.

The model is split into one module per concern:

| module | models |
|---|---|
| `Json` | parsed JSON values and the compact serialiser (`to_string`) |
| `Serde` | what derived `Deserialize` and serde_json's `HashMap`/`Vec` impls accept |
| `Variables` | the typed process variables shared by both decoders |
| `StrictDecoder` | `src/process_variables/mod.rs` |
| `TolerantDecoder` | `src/structures/process_variables.rs` |
| `Types` | `src/types.rs` |
| `Registry` | `src/registry.rs` |
| `Structures` | `src/structures.rs` |
| `Settings` | `src/settings.rs` |
| `Polling` | `src/polling.rs` |
| `MainBinary` | `src/main.rs` |
| `KeyOrder` | one admissible hash-map iteration order |
| `Fixtures` | the unit tests' payloads |

Each pure part (decoding, output construction, the configuration builders, the registry lookup, one polling pass) is a function. Each loop of the source is a method with loop invariants, proved equal to that function. The polling pass is described by the calls it makes to the engine, in order:

- listing;
- lock (worker id, lease in ms);
- fetch variables;
- dispatch to a handler;
- complete, BPMN error or failure report;
- a `Panic` record when the linked decoder panics.

The engine's answers are parameters fixed in advance: which tasks are listed, which locks succeed, and which variable body comes back (or a transport error).

## Where the code and its description disagree (the model follows the code)

- **Which decoder is linked.** The tolerant multi-strategy decoder is described as the one that decodes variables. The crate instead declares `process_variables` (`src/lib.rs:22`, `src/main.rs:6`). `get_process_instance_variables` calls that file's strict `parse_process_instance_variables` (`src/api.rs:170`), which unwraps the parse (`src/process_variables/mod.rs:114`, 119, 123, 127). `src/structures/process_variables.rs` is never declared as a module.
  - The polling pass therefore takes the decoder as a parameter. `Polling.StrictVariables` is what the code links; a malformed body yields `Panic`. `Polling.TolerantVariables` is the tolerant decoder.
  - Both decoders are modelled in full.
- **Lock duration.** `Settings.ConfigParams` has a configurable `lock_duration` (default 60 000 ms). Both polling loops ignore it and always ask for a 60 000 ms lease (`src/polling.rs:32`, `src/main.rs:94`). The polling loop takes the `Structures` configuration, which has no lock duration at all.
- **Reports.** Not every discovered task gets a terminal report. A task whose lock fails, or whose activity id has no handler, gets none (`Polling.AtMostOneReport` states exactly when a report is made). The binary's own loop (`src/main.rs:116-118`) only logs a handler error and reports nothing.

## Model

| member | source | states |
|---|---|---|
| Json.WholeDocument | src/structures/process_variables.rs:182 | `serde_json::from_str` of a whole document succeeds exactly when the text is one JSON value with nothing after it, and yields that value |
| Json.ToMap | src/process_variables/mod.rs:69-70 | a parsed object held as a map (`valueInfo`, a nested `serde_json::Value`) has exactly the object's keys |
| Json.ToMapLastWins | src/process_variables/mod.rs:69-70 | under each key the map holds the value of the last member carrying that key |
| Json.ToMapCons | src/process_variables/mod.rs:69-70 | a member placed before the others counts only where no later member carries its key |
| Json.ToMapDistinct | src/process_variables/mod.rs:69-70 | in an object without repeated keys, each member's key holds that member's own value |
| Json.Serialize | src/types.rs:72 | `Value::to_string` gives a non-empty text; arrays are bracketed by `[` `]`, objects by `{` `}`, strings by quotes, and null is `null` |
| Serde.Required | src/process_variables/mod.rs:62-71 | a required field of a derived struct decodes only when its key occurs exactly once; a missing key is an error |
| Serde.WithDefault | src/structures/process_variables.rs:86-88 | a `#[serde(default)]` field reads as the default when absent and is an error when repeated |
| Serde.FieldAt | src/process_variables/mod.rs:62-71 | in an object without repeated keys, a required or defaulted field reads exactly its own member's value |
| Serde.AsBool | src/process_variables/mod.rs:123 | `from_value::<bool>` succeeds exactly on a JSON boolean |
| Serde.AsString | src/process_variables/mod.rs:127 | `from_value::<String>` succeeds exactly on a JSON string |
| Serde.AsMapOf | src/process_variables/mod.rs:114 | a `HashMap` decodes only from a JSON object |
| Serde.MembersToMap | src/process_variables/mod.rs:114 | a `HashMap` decodes exactly when every member value decodes; its keys are exactly the object's keys, and each key holds the decoded value of the last member carrying it |
| Serde.MembersToMapSnoc | src/process_variables/mod.rs:114 | one more member that decodes is one more update of the map, at its key, after all earlier ones |
| Serde.AsSeqOf | src/structures/process_variables.rs:190 | a `Vec` decodes exactly from an array whose every item decodes, with the same length and item i decoded from element i |
| Serde.ItemsToSeq | src/structures/process_variables.rs:190 | the element-wise part of `Vec` decoding: succeeds iff every item decodes, same length, same order |
| Variables.TypeTag | src/process_variables/mod.rs:55-59 | every typed variable carries one of the three known type names |
| Variables.DecodeJsonValue | src/process_variables/mod.rs:6-27 | `from_value::<JsonValue>` of an already parsed value succeeds exactly when it is an object whose collapsed fields are all present with the right kinds (strings, booleans, any `value`); the nine fields are then those members' values |
| Variables.JsonValueFieldLastWins | src/process_variables/mod.rs:6-27 | each field of a decoded description holds the value of the last member carrying its name |
| Variables.RepeatedFieldKeepsLast | src/process_variables/mod.rs:119 | a description whose `dataFormatName` is written twice, "a" then "b", still decodes, with "b" |
| Variables.EncodeJsonValue | src/process_variables/mod.rs:6-27 | the derived `Serialize` writes an object of the nine camelCase fields |
| Variables.EncodedKeysDistinct | src/process_variables/mod.rs:6-27 | the nine serialised field names are pairwise distinct (`null_val` is renamed to `null`) |
| Variables.EncodedFieldsRead | src/process_variables/mod.rs:6-27 | the collapsed serialised object has all nine fields, each holding its serialised member |
| Variables.JsonValueRoundTrip | src/process_variables/mod.rs:6-27 | deserialising the serialised `JsonValue` gives back the same value, for every value |
| Fixtures.ChecklistJsonValueDecodes | src/process_variables/mod.rs:143 | the Json variable description of the unit test's payload decodes |
| StrictDecoder.DecodeEntries | src/process_variables/mod.rs:114 | the body decodes as a name -> entry map exactly when it is an object whose every member is an entry; its names are exactly the object's keys |
| StrictDecoder.DecodeEntry | src/process_variables/mod.rs:62-71 | an `Entry` decodes exactly from an object in which `type` (a string), `value` and `valueInfo` (an object) each appear once; the three fields are those members, `valueInfo` collapsed to a map |
| StrictDecoder.Coerce | src/process_variables/mod.rs:83-106 | an unknown type name is rejected with that name; Boolean/String succeed exactly on a JSON boolean/string and keep it; Json succeeds exactly when the value decodes as a `JsonValue`; the type and valueInfo are kept |
| StrictDecoder.Deserialize | src/process_variables/mod.rs:73-111 | a malformed map is an error, an empty map is "no valid entries", otherwise the result is the coercion of one entry (of the only entry when there is one) |
| StrictDecoder.KnownVariables | src/process_variables/mod.rs:116-133 | the result has exactly the names whose entry has a known type; each is that entry's successful coercion, with its type and valueInfo |
| StrictDecoder.ParseVariables | src/process_variables/mod.rs:113-135 | on a body that is one name -> entry object whose known entries all coerce, the result is `KnownVariables` of that object |
| StrictDecoder.CollectKnown | src/process_variables/mod.rs:115-134 | the loop over the entries builds exactly `KnownVariables`, skipping unknown types |
| StrictDecoder.ResultNoLarger | src/process_variables/mod.rs:116-133 | the result's names are among the input names, so it is never larger |
| StrictDecoder.KnownVariablesPointwise | src/process_variables/mod.rs:116-133 | a result is fixed entry by entry: if every entry coerces to the expected variable, the result is the expected map |
| StrictDecoder.JsonAndBooleanEntries | src/process_variables/mod.rs:143 | the unit test's payload decodes to its two entries |
| StrictDecoder.ChecklistConverts | src/process_variables/mod.rs:118-121 | the test's Json entry coerces to the expected Json variable |
| StrictDecoder.CheckboxConverts | src/process_variables/mod.rs:122-125 | the test's Boolean entry coerces to the expected Boolean variable |
| StrictDecoder.FixtureConverts | src/process_variables/mod.rs:116-133 | every entry of the test payload fits, and the conversion is the expected two-variable map |
| StrictDecoder.JsonAndBooleanFixture | src/process_variables/mod.rs:141-147 | `test_module_parsing`: the payload parses without a panic to a non-empty map holding both variables |
| TolerantDecoder.DecodeEntry | src/structures/process_variables.rs:80-94 | an `Entry` decodes exactly from an object in which `type` (a string), `value` and `valueInfo` (an object) each appear once and `name` at most once, as a string; the fields are those members, and a missing `name` reads as empty |
| TolerantDecoder.AsBool | src/structures/process_variables.rs:60-65 | some exactly for a Boolean variable, holding its value |
| TolerantDecoder.AsStr | src/structures/process_variables.rs:66-71 | some exactly for a String variable, holding its text |
| TolerantDecoder.AsJson | src/structures/process_variables.rs:72-77 | some exactly for a Json variable, holding the inner JSON value |
| TolerantDecoder.ExactlyOneAccessor | src/structures/process_variables.rs:59-77 | for every variable exactly one accessor answers, the one named by its type tag |
| TolerantDecoder.Convert | src/structures/process_variables.rs:147-175 | unknown type yields nothing; otherwise type and valueInfo kept, a non-boolean reads as `false`, a non-string as `""`, an undecodable Json value as the placeholder |
| TolerantDecoder.PlaceholderIsNull | src/structures/process_variables.rs:152-162 | the fallback Json description is null, with every other flag false and empty names |
| TolerantDecoder.InsertEntry | src/structures/process_variables.rs:146-177 | a known entry overwrites its name with its conversion; an unknown one leaves the map unchanged |
| TolerantDecoder.MapVariables | src/structures/process_variables.rs:182-186 | an object map yields exactly its known-type names, each with its entry's conversion |
| TolerantDecoder.InsertAll | src/structures/process_variables.rs:183-185 | the insertion loop over a map yields the starting map overridden by `MapVariables` |
| TolerantDecoder.InsertFlatEntries | src/structures/process_variables.rs:190-195 | the flat-list loop yields the fold that skips unnamed entries |
| TolerantDecoder.InsertMaps | src/structures/process_variables.rs:199-205 | the loop over a list of maps yields their fold, later maps winning |
| TolerantDecoder.ReadEntryStream | src/structures/process_variables.rs:208-226 | the entry-stream loop yields the stream function's result and "any parsed" flag |
| TolerantDecoder.ReadMapStream | src/structures/process_variables.rs:231-248 | the map-stream loop yields the stream function's result |
| TolerantDecoder.ParseVariables | src/structures/process_variables.rs:136-255 | the whole imperative decoder computes `Parse`: the four strategies tried in order |
| TolerantDecoder.Coerce | src/structures/process_variables.rs:106-128 | a successful strict coercion agrees with `Convert`; a known type can fail only with a mismatch |
| TolerantDecoder.Deserialize | src/structures/process_variables.rs:96-134 | malformed map is an error, empty map is "no valid entries", otherwise one entry's coercion (the only one's when there is one) |
| TolerantDecoder.StrictAgreesWhereItSucceeds | src/structures/process_variables.rs:147-173 | wherever the strict decoder's coercion succeeds, the tolerant conversion gives the same variable |
| TolerantDecoder.ObjectShape | src/structures/process_variables.rs:181-187 | for an object map the result has exactly its known-type names, each with the entry's type and valueInfo |
| TolerantDecoder.EmptyDocuments | src/structures/process_variables.rs:181-196 | `{}` and `[]` both give no variables |
| TolerantDecoder.Parse | src/structures/process_variables.rs:136-255 | the decoder never fails, and a text that holds no complete value gives no variables |
| TolerantDecoder.FoldEntries | src/structures/process_variables.rs:190-195 | inserting flat entries one after the other never removes a name |
| TolerantDecoder.FoldMaps | src/structures/process_variables.rs:199-205 | inserting a list of maps one after the other never removes a name |
| TolerantDecoder.EntryStream | src/structures/process_variables.rs:208-229 | the entry stream never removes a name, a set "any parsed" flag stays set, and while the flag is unset nothing changes |
| TolerantDecoder.MapStream | src/structures/process_variables.rs:231-248 | the map stream never removes a name |
| TolerantDecoder.InsertNamed | src/structures/process_variables.rs:191-194 | inserting one flat entry never removes a name |
| TolerantDecoder.FoldEntriesKeys | src/structures/process_variables.rs:190-195 | after the flat list, a name is present iff it was before or some named entry of a known type carries it |
| TolerantDecoder.FoldEntriesSnoc | src/structures/process_variables.rs:191-194 | folding one more entry is one more insertion at the end |
| TolerantDecoder.LaterEntryWins | src/structures/process_variables.rs:176 | the last named entry of a known type determines its name's variable |
| TolerantDecoder.SkippedEntryChangesNothing | src/structures/process_variables.rs:192 | an unnamed or unknown-type entry leaves the result unchanged |
| TolerantDecoder.FoldMapsSnoc | src/structures/process_variables.rs:200-204 | one more map in the list overrides the result with its variables |
| TolerantDecoder.FoldMapsKeys | src/structures/process_variables.rs:199-205 | after a list of maps, a name is present iff it was before or some map has it with a known type |
| TolerantDecoder.EntryStreamStops | src/structures/process_variables.rs:212-226 | the entry stream stops at the first value that is not an entry: nothing after it counts |
| TolerantDecoder.MapStreamStops | src/structures/process_variables.rs:234-248 | the map stream stops at the first value that is not a map |
| TolerantDecoder.EntryStreamWithoutNames | src/structures/process_variables.rs:211-229 | if no named entry is read the stream changes nothing, and once one is read the flag stays set |
| TolerantDecoder.FallsThroughToMapStream | src/structures/process_variables.rs:208-248 | when no whole-document shape fits and no named entry streams, the result is the map stream's |
| TolerantDecoder.UnreadableGivesEmpty | src/structures/process_variables.rs:208-254 | when no shape fits and the first value is neither an entry nor a map, the result is empty and nothing panics |
| TolerantDecoder.InvalidTextGivesEmpty | src/structures/process_variables.rs:208-254 | the input of `test_module_parsing_invalid` (src/structures/process_variables.rs:278-281, which itself checks nothing), `{"invalid":}`, gives no variables: the never-fails promise of the fallback strategies |
| TolerantDecoder.ExtraFieldsIgnored | src/structures/process_variables.rs:80-94 | members other than `type`, `name`, `value`, `valueInfo` do not change how an entry decodes |
| TolerantDecoder.ChecklistEntryDecodes | src/structures/process_variables.rs:263 | the test's Json entry decodes |
| TolerantDecoder.CheckboxEntryDecodes | src/structures/process_variables.rs:263 | the test's Boolean entry decodes |
| TolerantDecoder.JsonAndBooleanEntries | src/structures/process_variables.rs:263 | the test payload decodes as a name -> entry map with both entries |
| TolerantDecoder.ChecklistConverts | src/structures/process_variables.rs:148-165 | the test's Json entry converts to the same variable as in the strict decoder |
| TolerantDecoder.CheckboxConverts | src/structures/process_variables.rs:166-169 | the test's Boolean entry converts to the same variable as in the strict decoder |
| TolerantDecoder.MapVariablesPointwise | src/structures/process_variables.rs:182-186 | a map result is fixed entry by entry |
| TolerantDecoder.FixtureConverts | src/structures/process_variables.rs:182-186 | the test payload's entries convert to the strict decoder's expected map |
| TolerantDecoder.JsonAndBooleanParses | src/structures/process_variables.rs:261-267 | `test_module_parsing`: the payload gives the two expected variables, so the map is not empty |
| TolerantDecoder.SingleBooleanParses | src/structures/process_variables.rs:181-187 | a one-entry Boolean object reads back through `as_bool` |
| TolerantDecoder.FlatItemDecodes | src/structures/process_variables.rs:269-276 | a flat-list entry with extra engine fields decodes to its type, name and value |
| TolerantDecoder.FlatListDecodes | src/structures/process_variables.rs:189-196 | an array of named entries is not an object map and decodes as a flat list |
| TolerantDecoder.FlatEntryParses | src/structures/process_variables.rs:269-276 | `test_module_parsing_complex_json_sequence`-shaped input: the named String entry reads back through `as_str` |
| Types.OutString | src/types.rs:20-26 | a String output holding the text, with empty valueInfo |
| Types.OutBool | src/types.rs:28-35 | a Boolean output holding the flag, with empty valueInfo |
| Types.OutInteger | src/types.rs:37-44 | an Integer output holding a 32-bit number, with empty valueInfo |
| Types.OutLong | src/types.rs:46-53 | a Long output holding a 64-bit number, with empty valueInfo |
| Types.OutJson | src/types.rs:64-76 | a Json output whose value is the compact serialised text of the JSON, tagged `serializationDataFormat: application/json` |
| Types.OutJsonNeverRaw | src/types.rs:71-72 | a Json output never carries the raw JSON value itself, always its text |
| Types.OutJsonExample | src/types.rs:64-76 | `{"a":1}` is sent as the string `{"a":1}` with the format tag |
| Types.ScalarOutputsReadBack | src/types.rs:20-35 | a String or Boolean output, echoed back by the engine, decodes to the same variable |
| Types.NumericOutputsDoNotReadBack | src/types.rs:37-53 | an Integer or Long output, echoed back, is an unknown type to the decoder |
| Types.NewBpmnError | src/types.rs:86-88 | the error keeps the code and carries the message |
| Types.WithCodeOnly | src/types.rs:89-91 | the error keeps the code and has no message |
| Types.Display | src/types.rs:94-101 | the text starts with `BPMN Error <code>`, and is exactly that when there is no message |
| Types.ErrorText | src/types.rs:94-101 | a BPMN error's text is its `Display` text and starts with `BPMN Error `; any other error's text is its own, the `to_string()` that src/polling.rs:70 sends as a failure message |
| Types.DisplayParts | src/types.rs:94-101 | the text is `BPMN Error <code>`, followed by `: <message>` exactly when there is a message |
| Types.DisplayShowsMessage | src/types.rs:94-101 | an error with a message never displays like the same code without one |
| Registry.AllNames | src/registry.rs:19-21 | the names, one per handler, in registration order |
| Registry.Lookup | src/registry.rs:10-17 | nothing exactly when the name is not among `all_names` |
| Registry.Find | src/registry.rs:10-17 | the search loop returns the first handler with that name |
| Registry.FirstRegistrationWins | src/registry.rs:11-14 | the first handler registered under a name is the one found |
| Registry.RegisterLater | src/registry.rs:10-17 | a later registration never shadows an earlier one, and is found when the name was missing |
| Registry.TwoHandlers | src/registry.rs:10-21 | with handlers `h1` and `h2`, each name finds its own function, an unknown name finds none, and both are listed |
| Structures.Default | src/structures.rs:76-95 | `http://localhost:8080`, no credentials, 500 ms, `operaton_task_worker` |
| Structures.WithUrl | src/structures.rs:50-54 | sets the URL and keeps every other field |
| Structures.WithAuth | src/structures.rs:56-61 | sets the credentials and keeps every other field |
| Structures.WithPollInterval | src/structures.rs:63-67 | sets the interval and keeps every other field |
| Structures.WithWorkerId | src/structures.rs:69-73 | sets the worker id and keeps every other field |
| Structures.BuildersOverrideAndCommute | src/structures.rs:50-73 | a builder applied twice keeps the later value, and builders of different fields commute |
| Structures.FullBuildIgnoresStart | src/structures.rs:50-73 | applying all four builders gives the same configuration whatever the start |
| Structures.BuilderPattern | src/structures.rs:145-158 | the builder test's configuration has the five expected fields |
| Structures.AsU64 | src/structures.rs:108 | `usize` decodes exactly from a number in 0 .. 2^64 - 1 |
| Structures.AsOptionalString | src/structures.rs:110 | null reads as none, a string as some, anything else is an error |
| Structures.OptionalField | src/structures.rs:110 | a missing `workerId` reads as none |
| Structures.DecodeServiceTask | src/structures.rs:97-111 | a task decodes exactly from an object in which the seven required camelCase fields each appear once with their kinds, `priority` within `usize`, and `workerId` is absent or once as null or a string; every field is read from its member, a missing or null `workerId` as none |
| Structures.DecodeTaskList | src/api.rs:28-30 | the listing decodes exactly when it is an array whose every task decodes, one task per element |
| Structures.NullBusinessKeyFailsListing | src/structures.rs:109 | one task with a null business key makes the whole listing fail |
| Settings.Default | src/settings.rs:101-123 | the same defaults as `Structures`, plus a 60 000 ms lock duration |
| Settings.WithUrl | src/settings.rs:69-73 | sets the URL and keeps every other field |
| Settings.WithAuth | src/settings.rs:75-80 | sets the credentials and keeps every other field |
| Settings.WithPollInterval | src/settings.rs:82-86 | sets the interval and keeps every other field |
| Settings.WithWorkerId | src/settings.rs:88-92 | sets the worker id and keeps every other field |
| Settings.WithLockDuration | src/settings.rs:94-98 | sets the lock duration and keeps every other field |
| Settings.WithoutLock | src/settings.rs:19-46 | forgetting the lock duration keeps the five shared fields |
| Settings.AgreesWithStructures | src/settings.rs:69-112 | the defaults and each shared builder agree with `Structures` once the lock duration is forgotten, and the lock builder changes nothing else |
| Settings.BuilderPattern | src/settings.rs:129-150 | both settings tests: the built configuration's six fields, and the default lock duration |
| KeyOrder.Sorted | src/main.rs:376 | the names of a map listed once each, in one fixed order |
| Polling.StrictVariables | src/api.rs:170 | the linked decoder answers exactly when the strict parse does not panic, and then with the variables of the decoded entries |
| Polling.TolerantVariables | src/structures/process_variables.rs:136-255 | the tolerant decoder always answers, with `Parse` |
| Polling.TaskInputs | src/polling.rs:37-40 | a failed variables request reads as no variables; a body is what the decoder makes of it |
| Polling.Report | src/polling.rs:45-77 | a success is completed, a `BpmnError` is reported as a BPMN error, anything else as a failure with 0 retries, 0 timeout and no details |
| Polling.TaskCalls | src/polling.rs:31-82 | a task's calls start with its lock request and stop there when the lock fails, then fetch its variables; a panic happens exactly when the decoder fails, is the last call, and no task lists tasks |
| Polling.BatchCalls | src/polling.rs:30-83 | a batch's calls end at its first panic and never list tasks |
| Polling.CycleCalls | src/polling.rs:22-87 | a pass lists the tasks once, first; a failed listing is the whole pass; a panic ends the pass |
| Polling.ChainStopsAtPanic | src/polling.rs:30-83 | when no task goes on after a panic, no batch does |
| Polling.PanicStops | src/polling.rs:30 | once a task has panicked, the remaining tasks of the batch add no call |
| Polling.ChainSingle | src/polling.rs:30 | a one-task batch makes exactly that task's calls |
| Polling.ChainAppend | src/polling.rs:30-83 | without a panic, a batch's calls are its parts' calls one after the other |
| Polling.ChainCallsFromSteps | src/polling.rs:30-83 | every call of a batch is made for one of its tasks |
| Polling.ChainNoPanic | src/polling.rs:30-83 | when no single task panics, the batch does not |
| Polling.ChainLocks | src/polling.rs:30-35 | when each task locks once, the batch locks the tasks in listing order |
| Polling.ChainReports | src/polling.rs:30-83 | when each task gets at most one report, a batch gets at most one per task |
| Polling.ChainPointwise | src/polling.rs:30-83 | two per-task behaviours that agree on every task give the same batch |
| Polling.ProcessTask | src/polling.rs:31-82 | the loop body makes exactly the calls `TaskCalls` describes |
| Polling.ProcessBatch | src/polling.rs:30-83 | the `for` loop makes exactly the calls `BatchCalls` describes, stopping at a panic |
| Polling.PollOnce | src/polling.rs:22-87 | one pass lists the tasks, then processes the batch if the listing succeeded |
| Polling.HandlerResultReported | src/polling.rs:43-77 | a locked task with a handler is dispatched with its inputs and gets exactly the report of the handler's result |
| Polling.SkippedTaskNotReported | src/polling.rs:32-82 | a task whose lock fails, whose decoding panics or that has no handler is neither dispatched nor reported |
| Polling.AtMostOneReport | src/polling.rs:32-82 | a task gets at most one report, and one exactly when its lock succeeds, its variables decode and a handler is registered |
| Polling.FetchErrorIsEmptyVariables | src/polling.rs:37-40 | a failed variables request is processed exactly like a body that decodes to no variables |
| Polling.ListingFailureEndsPass | src/polling.rs:22-86 | when the listing fails, the pass makes no other call |
| Polling.FixedLeaseNoRetries | src/polling.rs:32-76 | every lock asks for 60 000 ms under the configured worker id, and every failure report asks for no retry |
| Polling.ReportsPerBatch | src/polling.rs:30-83 | a batch makes at most one report per listed task |
| Polling.TaskLocksOnce | src/polling.rs:32 | each task is locked exactly once, under its own id |
| Polling.EveryTaskAttempted | src/polling.rs:30-35 | without a panic, every listed task is locked, once, in listing order |
| Polling.PassReports | src/polling.rs:22-30 | a pass's reports are its batch's reports |
| Polling.CompletionScenario | src/polling.rs:45-51 | one task, handler succeeds: exactly one completion with the handler's outputs |
| Polling.BusinessErrorScenario | src/polling.rs:53-65 | one task, handler raises BPMN error `E1`: exactly one BPMN error report with code `E1` and the message |
| Polling.NoHandlerScenario | src/polling.rs:80-82 | a task without a handler gets no report and the next task is processed as if alone |
| Polling.LockFailureScenario | src/polling.rs:32-35 | a task whose lock fails costs only the lock request; the next task is processed as if alone |
| Polling.StrictDecoderPanics | src/process_variables/mod.rs:114 | with the linked decoder, an invalid variables body panics right after the fetch and no later task is attempted |
| Polling.TolerantDecoderDegrades | src/polling.rs:37-40 | with the tolerant decoder, the same body is processed like a failed fetch: no variables |
| Polling.TolerantPassNeverPanics | src/polling.rs:30-40 | with the tolerant decoder, no pass panics and every listed task is locked in order |
| MainBinary.KeysSummary | src/main.rs:376-377 | the summary is an object with the single member `keys`, an array with one item per input variable |
| MainBinary.ExampleEcho | src/main.rs:371-381 | exactly two outputs: `workerResponse = "ok"` and a Json `summary` of the input names |
| MainBinary.SummaryNamesEachInputOnce | src/main.rs:376-377 | the summary is `{"keys": [...]}` naming every input variable exactly once |
| MainBinary.EmptySummary | src/main.rs:376-377 | with no inputs the summary is `{"keys": []}` |
| MainBinary.EmptySummaryText | src/main.rs:377-378 | that summary is sent as the text `{"keys":[]}` |
| MainBinary.EchoOfNothing | src/main.rs:371-381 | echoing no inputs sends the summary text `{"keys":[]}` |
| MainBinary.GetScannedFiles | src/main.rs:383-387 | always succeeds with the single output `FILENAMES = "TEST"` |
| MainBinary.MapServiceTaskToFunction | src/main.rs:314-321 | a function exactly for `example_echo` and `ServiceTask_GetScannedFiles`, the same as a registry of those two |
| MainBinary.ExampleHandlersSucceed | src/main.rs:371-387 | both mapped handlers succeed on every input |
| MainBinary.MainTaskCalls | src/main.rs:92-124 | as in the library: the lock request first, alone when it fails, then the fetch; a panic exactly when the decoder fails, as the last call; no listing |
| MainBinary.MainBatchCalls | src/main.rs:92-125 | the binary's batch ends at its first panic and never lists tasks |
| MainBinary.MainCycleCalls | src/main.rs:84-128 | the binary's pass lists the tasks once, first; a failed listing is the whole pass; a panic ends the pass |
| MainBinary.MainDispatchedCalls | src/main.rs:104-119 | a dispatched task's calls are lock, fetch, dispatch, and a completion only when the handler succeeds |
| MainBinary.MainProcessTask | src/main.rs:93-124 | the binary's loop body makes exactly the calls `MainTaskCalls` describes |
| MainBinary.MainProcessBatch | src/main.rs:92-125 | the binary's `for` loop makes exactly the calls `MainBatchCalls` describes |
| MainBinary.MainPollOnce | src/main.rs:84-128 | one pass of the binary lists the tasks, then processes the batch |
| MainBinary.MainTaskReportsOnlyCompletions | src/main.rs:108-119 | for one task, the binary's only possible report is a completion; a handler error produces none |
| MainBinary.MainReportsOnlyCompletions | src/main.rs:108-119 | the binary's pass never reports a BPMN error or a failure, only completions |
| MainBinary.MainMatchesLibraryPass | src/main.rs:92-125 | with its two handlers, which never fail, the binary's pass makes the same calls as the library's pass |

## Left out

- HTTP transport (`src/api.rs` other than the decoder it calls, reqwest, basic auth, URLs and query strings): the listing, lock and variables requests are answers given in advance. A failed request is an absent answer.
- The results of the complete, BPMN-error and failure requests: the source only logs them. The model records the request.
- JSON text, lexing and number formats: a text is the sequence of top-level values it parses into, plus whether it ends in a syntax error. Numbers are integers. serde_json's `Map` is member lists in stored order, so the serialiser writes members in that order rather than serde_json's key-sorted order.
- `out_double` (`src/types.rs:56-62`): floating point is not modelled.
- Serde's acceptance of a struct written as a JSON array of its fields: not modelled. Only the object form is decoded.
- The endless `loop` and the `sleep` between passes: one pass is modelled.
- Also left out: environment loading (`load_config_from_env`, `load_config`) and `Url::parse`; a URL is its text.
- Repeated keys inside a parsed `serde_json::Value`: the model keeps an object's members as a list, repeated keys included, where serde_json's map keeps only the last. Every reader of such a value (`Json.ToMap`, `Serde.MembersToMap`, `Variables.DecodeJsonValue`) collapses them the same way, so the variables that come out are the same; only the stored `value` of a Json variable may still list a repeated key.
- The `inventory` collection and the registration macro: the registry is the sequence of handlers in the order the collector yields them.
- Logging, `println!` and `dbg!`: no effect on the result.
- Hash-map iteration order: loops over a `HashMap` use an arbitrary pick (`:|`) and are proved order-independent where the source is.
- A panic is a `Panic` record that ends the pass. The process exit that follows is not modelled.
- The getters of `ConfigParams` and `ServiceTask`: they are the datatypes' fields.
- StrictDecoder.ParseVariables: requires a body that does not make the source panic. The panicking case is stated by `Polling.StrictVariables`, which answers nothing for exactly those bodies.
- StrictDecoder.Deserialize: states that the result is the coercion of some entry, not of the first in hash order, since that order is unspecified.
- MainBinary.ExampleEcho: the summary lists the names in one fixed (lexicographic) order. The source's order is the hash map's, which is unspecified.
- Polling.ProcessBatch: a task whose handler result cannot be reported still counts as reported. The outcome of the report request is not modelled.

## Findings

| source | as written | input that shows it | evidently intended | confidence | as-written member | corrected member |
|---|---|---|---|---|---|---|
| src/process_variables/mod.rs:114 (reached from src/api.rs:170 and src/polling.rs:37) | the linked decoder unwraps the parse, so a variables body that is not a name -> entry object panics the worker in the middle of a batch, and no later listed task is attempted | a variables body `{"invalid":}` (the tolerant decoder's own invalid-input test) | degrade to no variables, as a failed variables request already does (`unwrap_or_else` at src/polling.rs:37-40) and as the tolerant decoder does | medium, not executed | Polling.StrictDecoderPanics | Polling.TolerantPassNeverPanics |
