/**
 * The binary of `src/main.rs`: its fixed activity -> function mapping, the
 * two example handlers, and its own copy of the polling pass, which logs a
 * handler's error instead of reporting it. Its `OutVariable` and `out_*`
 * helpers are the ones of `Types`.
 */
module MainBinary {
  import opened Wrappers
  import opened Json
  import opened Types
  import opened Registry
  import opened Structures
  import opened Polling
  import KeyOrder

  /** `example_echo`'s summary: `{"keys": [..]}`, the input names in the order of `KeyOrder`. */
  function KeysSummary(input: Inputs): (r: Value)
    ensures r.Object? && |r.members| == 1 && r.members[0].0 == "keys"
    ensures r.members[0].1.Array? && |r.members[0].1.items| == |input|
  {
    var names := KeyOrder.Sorted(input.Keys);
    Object([("keys", Array(seq(|names|, i requires 0 <= i < |names| => Str(names[i]))))])
  }

  /** `example_echo`: acknowledges with `workerResponse = "ok"` and a Json summary of the input names. */
  function ExampleEcho(input: Inputs): (r: Result<Outputs, HandlerError>)
    ensures r.Ok? && "workerResponse" in r.value && "summary" in r.value && |r.value| == 2
    ensures r.value["workerResponse"] == OutString("ok")
    ensures r.value["summary"] == OutJson(KeysSummary(input))
  {
    Ok(map["workerResponse" := OutString("ok"), "summary" := OutJson(KeysSummary(input))])
  }

  /** The summary names every input variable exactly once. */
  lemma SummaryNamesEachInputOnce(input: Inputs)
    ensures KeysSummary(input).Object? && |KeysSummary(input).members| == 1
    ensures KeysSummary(input).members[0].0 == "keys"
    ensures var items := KeysSummary(input).members[0].1.items;
      |items| == |input|
      && (forall k :: k in input <==> Str(k) in items)
      && (forall i, j :: 0 <= i < j < |items| ==> items[i] != items[j])
  {
    var names := KeyOrder.Sorted(input.Keys);
    var items := KeysSummary(input).members[0].1.items;
    forall k ensures k in input <==> Str(k) in items {
      if k in input {
        var i :| 0 <= i < |names| && names[i] == k;
        assert items[i] == Str(k);
      }
    }
  }

  lemma EmptySummary()
    ensures KeysSummary(map[]) == Object([("keys", Array([]))])
  {
    var empty: Inputs := map[];
    assert empty.Keys == {};
    assert |KeyOrder.Sorted(empty.Keys)| == 0;
    assert |KeysSummary(empty).members[0].1.items| == 0;
  }

  lemma EmptySummaryText()
    ensures Serialize(Object([("keys", Array([]))])) == "{\"keys\":[]}"
  {
    assert Quote("keys") == "\"keys\"";
  }

  /** With no input variables the summary goes out as the text `{"keys":[]}`. */
  lemma EchoOfNothing()
    ensures ExampleEcho(map[]).value["summary"].value == Str("{\"keys\":[]}")
  {
    EmptySummary();
    EmptySummaryText();
  }

  /** `get_scanned_files`: always `FILENAMES = "TEST"`, whatever the input. */
  function GetScannedFiles(input: Inputs): (r: Result<Outputs, HandlerError>)
    ensures r == Ok(map["FILENAMES" := OutString("TEST")])
  {
    Ok(map["FILENAMES" := OutString("TEST")])
  }

  /** The binary's handlers, as a registry would list them. */
  const ExampleHandlers: seq<Handler> :=
    [Handler("example_echo", ExampleEcho), Handler("ServiceTask_GetScannedFiles", GetScannedFiles)]

  /** `map_service_task_to_function`: exactly the two example activities have a function. */
  function MapServiceTaskToFunction(activityId: string): (r: Option<TaskFn>)
    ensures r.Some? <==> activityId == "example_echo" || activityId == "ServiceTask_GetScannedFiles"
    ensures r == Lookup(ExampleHandlers, activityId)
  {
    match activityId
    case "example_echo" => Some(ExampleEcho)
    case "ServiceTask_GetScannedFiles" => Some(GetScannedFiles)
    case _ => None
  }

  /** Neither example handler ever fails. */
  lemma ExampleHandlersSucceed(activityId: string, input: Inputs)
    requires MapServiceTaskToFunction(activityId).Some?
    ensures MapServiceTaskToFunction(activityId).value(input).Ok?
  {
  }

  // ---------------------------------------------------------------------
  // The binary's polling pass
  // ---------------------------------------------------------------------

  /**
   * The calls made for one task: as in the library, except that a handler
   * error is only logged. The lock request comes first, and a panic happens
   * exactly when the lock is granted and the variables cannot be decoded.
   */
  function MainTaskCalls(config: ConfigParams, decode: Decoder, t: Fetched): (r: seq<Call>)
    ensures |r| >= 1 && r[0] == Lock(t.task.id, config.id, LockDurationMs)
    ensures |r| == 1 <==> !t.lockSucceeds
    ensures t.lockSucceeds ==> r[1] == FetchVariables(t.task.processInstanceId)
    ensures Panic in r <==> t.lockSucceeds && TaskInputs(decode, t).None?
    ensures StopsAtPanic(r) && ListTasks !in r
  {
    var lock := Lock(t.task.id, config.id, LockDurationMs);
    if !t.lockSucceeds then [lock]
    else
      var fetch := FetchVariables(t.task.processInstanceId);
      match TaskInputs(decode, t)
      case None => [lock, fetch, Panic]
      case Some(inputs) =>
        match MapServiceTaskToFunction(t.task.activityId)
        case None => [lock, fetch]
        case Some(f) =>
          match f(inputs)
          case Ok(out) => [lock, fetch, Dispatch(t.task.id, inputs), Complete(t.task.id, config.id, out)]
          case Err(_) => [lock, fetch, Dispatch(t.task.id, inputs)]
  }

  /** The binary's per-task step. */
  function MainTaskStep(config: ConfigParams, decode: Decoder): Fetched -> seq<Call>
  {
    t => MainTaskCalls(config, decode, t)
  }

  /** The binary's calls for a batch: a panic ends it, and it lists nothing. */
  function MainBatchCalls(config: ConfigParams, decode: Decoder, tasks: seq<Fetched>): (r: seq<Call>)
    ensures StopsAtPanic(r) && ListTasks !in r
  {
    var step := MainTaskStep(config, decode);
    ChainStopsAtPanic(step, tasks);
    ChainCallsFromSteps(step, tasks);
    Chain(step, tasks)
  }

  /** The binary's pass: one listing, first; nothing more if it fails; a panic ends the pass. */
  function MainCycleCalls(config: ConfigParams, decode: Decoder, fetched: Option<seq<Fetched>>): (r: seq<Call>)
    ensures |r| >= 1 && r[0] == ListTasks && ListTasks !in r[1..]
    ensures fetched.None? ==> |r| == 1
    ensures StopsAtPanic(r)
  {
    var rest := match fetched
      case None => []
      case Some(tasks) => MainBatchCalls(config, decode, tasks);
    assert ([ListTasks] + rest)[1..] == rest;
    [ListTasks] + rest
  }

  /** The body of the binary's `for service_task in service_tasks { .. }`. */
  method MainProcessTask(config: ConfigParams, decode: Decoder, t: Fetched) returns (calls: seq<Call>)
    ensures calls == MainTaskCalls(config, decode, t)
  {
    calls := [Lock(t.task.id, config.id, LockDurationMs)];
    if !t.lockSucceeds {
      return;
    }
    calls := calls + [FetchVariables(t.task.processInstanceId)];
    var inputs: Inputs := map[];
    if t.body.Some? {
      var decoded := decode(t.body.value);
      if decoded.None? {
        calls := calls + [Panic];
        return;
      }
      inputs := decoded.value;
    }
    match MapServiceTaskToFunction(t.task.activityId) {
      case None =>
      case Some(f) =>
        MainDispatchedCalls(config, decode, t, inputs, f);
        calls := calls + [Dispatch(t.task.id, inputs)];
        var result := f(inputs);
        if result.Ok? {
          calls := calls + [Complete(t.task.id, config.id, result.value)];
        }
    }
  }

  /** A dispatched task's calls: lock, fetch, dispatch, then a completion only when the handler succeeds. */
  lemma MainDispatchedCalls(config: ConfigParams, decode: Decoder, t: Fetched, inputs: Inputs, f: TaskFn)
    requires t.lockSucceeds && TaskInputs(decode, t) == Some(inputs)
    requires MapServiceTaskToFunction(t.task.activityId) == Some(f)
    ensures var prefix := [Lock(t.task.id, config.id, LockDurationMs), FetchVariables(t.task.processInstanceId), Dispatch(t.task.id, inputs)];
      MainTaskCalls(config, decode, t) == if f(inputs).Ok? then prefix + [Complete(t.task.id, config.id, f(inputs).value)] else prefix
  {
  }

  /** The binary's `for service_task in service_tasks { .. }`. */
  method MainProcessBatch(config: ConfigParams, decode: Decoder, tasks: seq<Fetched>) returns (log: seq<Call>)
    ensures log == MainBatchCalls(config, decode, tasks)
  {
    log := [];
    for i := 0 to |tasks|
      invariant log == MainBatchCalls(config, decode, tasks[..i])
      invariant Panic !in log
    {
      assert tasks[..i + 1][..i] == tasks[..i];
      var calls := MainProcessTask(config, decode, tasks[i]);
      log := log + calls;
      if Panic in calls {
        PanicStops(MainTaskStep(config, decode), tasks, i + 1);
        return;
      }
    }
    assert tasks[..|tasks|] == tasks;
  }

  /** The body of the binary's `loop { .. }`, up to the sleep. */
  method MainPollOnce(config: ConfigParams, decode: Decoder, fetched: Option<seq<Fetched>>) returns (log: seq<Call>)
    ensures log == MainCycleCalls(config, decode, fetched)
  {
    log := [ListTasks];
    if fetched.None? {
      return;
    }
    var calls := MainProcessBatch(config, decode, fetched.value);
    log := log + calls;
  }

  /** For one task, the binary's only possible report is a completion. */
  lemma MainTaskReportsOnlyCompletions(config: ConfigParams, decode: Decoder, t: Fetched)
    ensures forall c :: c in MainTaskCalls(config, decode, t) && IsReport(c) ==> c.Complete?
  {
    var lock := Lock(t.task.id, config.id, LockDurationMs);
    var fetch := FetchVariables(t.task.processInstanceId);
    if t.lockSucceeds && TaskInputs(decode, t).Some? && MapServiceTaskToFunction(t.task.activityId).Some? {
      var inputs := TaskInputs(decode, t).value;
      var f := MapServiceTaskToFunction(t.task.activityId).value;
      if f(inputs).Ok? {
        assert MainTaskCalls(config, decode, t)
          == [lock, fetch, Dispatch(t.task.id, inputs), Complete(t.task.id, config.id, f(inputs).value)];
      }
    }
  }

  /** The binary never reports a BPMN error or a failure: its only reports are completions. */
  lemma MainReportsOnlyCompletions(config: ConfigParams, decode: Decoder, tasks: seq<Fetched>)
    ensures forall c :: c in MainBatchCalls(config, decode, tasks) && IsReport(c) ==> c.Complete?
  {
    var step := MainTaskStep(config, decode);
    ChainCallsFromSteps(step, tasks);
    forall c | c in Chain(step, tasks) && IsReport(c)
      ensures c.Complete?
    {
      var i :| 0 <= i < |tasks| && c in step(tasks[i]);
      MainTaskReportsOnlyCompletions(config, decode, tasks[i]);
    }
  }

  /**
   * Because both example handlers succeed, the binary's pass makes exactly
   * the calls the library's pass makes with the example handlers registered.
   */
  lemma MainMatchesLibraryPass(config: ConfigParams, decode: Decoder, tasks: seq<Fetched>)
    ensures MainBatchCalls(config, decode, tasks) == BatchCalls(config, ExampleHandlers, decode, tasks)
  {
    forall i | 0 <= i < |tasks|
      ensures MainTaskStep(config, decode)(tasks[i]) == TaskStep(config, ExampleHandlers, decode)(tasks[i])
    {
      var t := tasks[i];
      if t.lockSucceeds && TaskInputs(decode, t).Some? && MapServiceTaskToFunction(t.task.activityId).Some? {
        ExampleHandlersSucceed(t.task.activityId, TaskInputs(decode, t).value);
      }
    }
    ChainPointwise(MainTaskStep(config, decode), TaskStep(config, ExampleHandlers, decode), tasks);
  }
}
