/**
 * One pass of the polling loop of `src/polling.rs`. The engine's answers are
 * fixed in advance (which tasks are listed, which locks succeed, which
 * variable bodies come back), and the pass is described by the calls it
 * makes, in order.
 */
module Polling {
  import opened Wrappers
  import opened Json
  import opened Variables
  import opened Types
  import opened Registry
  import opened Structures
  import StrictDecoder
  import TolerantDecoder

  /** What the worker asks of the engine, and the two local events that matter. */
  datatype Call =
    | ListTasks
    | Lock(taskId: string, workerId: string, durationMs: int)
    | FetchVariables(processInstanceId: string)
    | Dispatch(taskId: string, inputs: Inputs)
    | Complete(taskId: string, workerId: string, variables: Outputs)
    | ReportBpmnError(taskId: string, code: string, errorMessage: Option<string>, errorVariables: Option<Outputs>)
    | ReportFailure(taskId: string, failureMessage: string, details: Option<string>, retries: int, retryTimeout: int)
    | Panic

  predicate IsReport(c: Call)
  {
    c.Complete? || c.ReportBpmnError? || c.ReportFailure?
  }

  /** The lock lease the loop asks for, whatever the configuration says. */
  const LockDurationMs: int := 60_000

  /** One listed task and the engine's answers about it. */
  datatype Fetched = Fetched(task: ServiceTask, lockSucceeds: bool, body: Option<Payload>)

  /** A variables decoder; none means it panics. */
  type Decoder = Payload -> Option<Inputs>

  /** The decoder the library links: `unwrap` on the strict parse. */
  function StrictVariables(p: Payload): (r: Option<Inputs>)
    ensures r.Some? <==> StrictDecoder.Parsable(p)
    ensures r.Some? ==> r.value == StrictDecoder.KnownVariables(StrictDecoder.DecodeEntries(p.values[0]).value)
  {
    if StrictDecoder.Parsable(p) then
      Some(StrictDecoder.KnownVariables(StrictDecoder.DecodeEntries(p.values[0]).value))
    else None
  }

  /** The tolerant decoder, which never panics. */
  function TolerantVariables(p: Payload): (r: Option<Inputs>)
    ensures r == Some(TolerantDecoder.Parse(p))
  {
    Some(TolerantDecoder.Parse(p))
  }

  /** The handler's input: a transport error reads as no variables. */
  function TaskInputs(decode: Decoder, t: Fetched): (r: Option<Inputs>)
    ensures t.body.None? ==> r == Some(map[])
    ensures t.body.Some? ==> r == decode(t.body.value)
  {
    match t.body
    case None => Some(map[])
    case Some(p) => decode(p)
  }

  /** The report for a handler's result: complete, BPMN error or failure without retries. */
  function Report(taskId: string, workerId: string, result: Result<Outputs, HandlerError>): (c: Call)
    ensures IsReport(c)
    ensures c.Complete? <==> result.Ok?
    ensures c.ReportBpmnError? <==> result.Err? && result.error.Business?
    ensures c.ReportFailure? ==> c.retries == 0 && c.retryTimeout == 0 && c.details.None?
  {
    match result
    case Ok(out) => Complete(taskId, workerId, out)
    case Err(Business(e)) => ReportBpmnError(taskId, e.code, e.message, None)
    case Err(err) => ReportFailure(taskId, ErrorText(err), None, 0, 0)
  }

  /** A panic ends the calls: it can only be the last one. */
  predicate StopsAtPanic(calls: seq<Call>)
  {
    forall i :: 0 <= i < |calls| && calls[i] == Panic ==> i == |calls| - 1
  }

  /**
   * The calls made for one task: the lock request first, and a panic exactly
   * when the lock is granted and the variables cannot be decoded.
   */
  function TaskCalls(config: ConfigParams, handlers: seq<Handler>, decode: Decoder, t: Fetched): (r: seq<Call>)
    ensures |r| >= 1 && r[0] == Lock(t.task.id, config.id, LockDurationMs)
    ensures |r| == 1 <==> !t.lockSucceeds
    ensures t.lockSucceeds ==> r[1] == FetchVariables(t.task.processInstanceId)
    ensures Panic in r <==> t.lockSucceeds && TaskInputs(decode, t).None?
    ensures StopsAtPanic(r) && ListTasks !in r
  {
    var lock := Lock(t.task.id, config.id, LockDurationMs);
    if !t.lockSucceeds then [lock]
    else
      var fetch := FetchVariables(t.task.processInstanceId);
      match TaskInputs(decode, t)
      case None => [lock, fetch, Panic]
      case Some(inputs) =>
        match Lookup(handlers, t.task.activityId)
        case None => [lock, fetch]
        case Some(f) => [lock, fetch, Dispatch(t.task.id, inputs), Report(t.task.id, config.id, f(inputs))]
  }

  /**
   * The calls made for a batch: `step` for each task in listing order, and
   * nothing more once one of them has panicked.
   */
  function Chain(step: Fetched -> seq<Call>, tasks: seq<Fetched>): seq<Call>
    decreases |tasks|
  {
    if |tasks| == 0 then []
    else
      var before := Chain(step, tasks[..|tasks| - 1]);
      if Panic in before then before else before + step(tasks[|tasks| - 1])
  }

  /** The library's per-task step. */
  function TaskStep(config: ConfigParams, handlers: seq<Handler>, decode: Decoder): Fetched -> seq<Call>
  {
    t => TaskCalls(config, handlers, decode, t)
  }

  /** The calls the library makes for a batch: a panic ends it, and it lists nothing. */
  function BatchCalls(config: ConfigParams, handlers: seq<Handler>, decode: Decoder, tasks: seq<Fetched>): (r: seq<Call>)
    ensures StopsAtPanic(r) && ListTasks !in r
  {
    var step := TaskStep(config, handlers, decode);
    ChainStopsAtPanic(step, tasks);
    ChainCallsFromSteps(step, tasks);
    Chain(step, tasks)
  }

  /**
   * One pass: list the open tasks once, first; if that fails, nothing more
   * happens before the sleep; a panic ends the pass.
   */
  function CycleCalls(config: ConfigParams, handlers: seq<Handler>, decode: Decoder, fetched: Option<seq<Fetched>>): (r: seq<Call>)
    ensures |r| >= 1 && r[0] == ListTasks && ListTasks !in r[1..]
    ensures fetched.None? ==> |r| == 1
    ensures StopsAtPanic(r)
  {
    var rest := match fetched
      case None => []
      case Some(tasks) => BatchCalls(config, handlers, decode, tasks);
    assert ([ListTasks] + rest)[1..] == rest;
    [ListTasks] + rest
  }

  /** When no step goes on after a panic, no batch does either. */
  lemma {:induction false} ChainStopsAtPanic(step: Fetched -> seq<Call>, ts: seq<Fetched>)
    requires forall i :: 0 <= i < |ts| ==> StopsAtPanic(step(ts[i]))
    ensures StopsAtPanic(Chain(step, ts))
    decreases |ts|
  {
    if |ts| > 0 {
      var n := |ts|;
      var before := Chain(step, ts[..n - 1]);
      ChainStopsAtPanic(step, ts[..n - 1]);
      if Panic !in before {
        var last := step(ts[n - 1]);
        assert StopsAtPanic(last);
        forall i | 0 <= i < |before + last| && (before + last)[i] == Panic
          ensures i == |before + last| - 1
        {
          if i >= |before| {
            assert last[i - |before|] == Panic;
          }
        }
      }
    }
  }

  /** Once a prefix of the batch has panicked, the rest of the batch adds nothing. */
  lemma {:induction false} PanicStops(step: Fetched -> seq<Call>, tasks: seq<Fetched>, i: nat)
    requires i <= |tasks| && Panic in Chain(step, tasks[..i])
    ensures Chain(step, tasks) == Chain(step, tasks[..i])
    decreases |tasks| - i
  {
    if i < |tasks| {
      var n := |tasks|;
      assert tasks[..n - 1][..i] == tasks[..i];
      PanicStops(step, tasks[..n - 1], i);
    } else {
      assert tasks[..i] == tasks;
    }
  }

  lemma ChainSingle(step: Fetched -> seq<Call>, t: Fetched)
    ensures Chain(step, [t]) == step(t)
  {
    assert [t][..0] == [];
  }

  /** Without a panic in the first part, a batch is its first part followed by the rest. */
  lemma {:induction false} ChainAppend(step: Fetched -> seq<Call>, ts: seq<Fetched>, us: seq<Fetched>)
    requires Panic !in Chain(step, ts)
    ensures Chain(step, ts + us) == Chain(step, ts) + Chain(step, us)
    decreases |us|
  {
    if |us| == 0 {
      assert ts + us == ts;
    } else {
      var n := |us|;
      var first := Chain(step, ts);
      var rest := Chain(step, us[..n - 1]);
      assert (ts + us)[..|ts + us| - 1] == ts + us[..n - 1];
      assert (ts + us)[|ts + us| - 1] == us[n - 1];
      ChainAppend(step, ts, us[..n - 1]);
      assert Panic in first + rest <==> Panic in rest;
    }
  }

  /** Every call of a batch is a call of one of its tasks' steps. */
  lemma {:induction false} ChainCallsFromSteps(step: Fetched -> seq<Call>, ts: seq<Fetched>)
    ensures forall c :: c in Chain(step, ts) ==> exists i :: 0 <= i < |ts| && c in step(ts[i])
    decreases |ts|
  {
    if |ts| > 0 {
      var n := |ts|;
      ChainCallsFromSteps(step, ts[..n - 1]);
      forall c | c in Chain(step, ts)
        ensures exists i :: 0 <= i < n && c in step(ts[i])
      {
        if c !in Chain(step, ts[..n - 1]) {
          assert c in step(ts[n - 1]);
        } else {
          var i :| 0 <= i < n - 1 && c in step(ts[..n - 1][i]);
          assert ts[..n - 1][i] == ts[i];
        }
      }
    }
  }

  /** A batch whose steps do not panic does not panic. */
  lemma {:induction false} ChainNoPanic(step: Fetched -> seq<Call>, ts: seq<Fetched>)
    requires forall i :: 0 <= i < |ts| ==> Panic !in step(ts[i])
    ensures Panic !in Chain(step, ts)
    decreases |ts|
  {
    if |ts| > 0 {
      ChainNoPanic(step, ts[..|ts| - 1]);
    }
  }

  /** When each step locks its own task once, a batch without a panic locks its tasks in order. */
  lemma {:induction false} ChainLocks(step: Fetched -> seq<Call>, ts: seq<Fetched>)
    requires forall i :: 0 <= i < |ts| ==> Locked(step(ts[i])) == [ts[i].task.id]
    requires Panic !in Chain(step, ts)
    ensures Locked(Chain(step, ts)) == TaskIds(ts)
    decreases |ts|
  {
    if |ts| > 0 {
      var n := |ts|;
      var before := Chain(step, ts[..n - 1]);
      assert Panic !in before;
      ChainLocks(step, ts[..n - 1]);
      LockedAppend(before, step(ts[n - 1]));
      assert TaskIds(ts) == TaskIds(ts[..n - 1]) + [ts[n - 1].task.id];
    }
  }

  /** When each step reports at most once, a batch has at most one report per task. */
  lemma {:induction false} ChainReports(step: Fetched -> seq<Call>, ts: seq<Fetched>)
    requires forall i :: 0 <= i < |ts| ==> |Reports(step(ts[i]))| <= 1
    ensures |Reports(Chain(step, ts))| <= |ts|
    decreases |ts|
  {
    if |ts| > 0 {
      var n := |ts|;
      var before := Chain(step, ts[..n - 1]);
      ChainReports(step, ts[..n - 1]);
      if Panic !in before {
        ReportsAppend(before, step(ts[n - 1]));
      }
    }
  }

  /** Steps that agree on the tasks give the same batch. */
  lemma {:induction false} ChainPointwise(s1: Fetched -> seq<Call>, s2: Fetched -> seq<Call>, ts: seq<Fetched>)
    requires forall i :: 0 <= i < |ts| ==> s1(ts[i]) == s2(ts[i])
    ensures Chain(s1, ts) == Chain(s2, ts)
    decreases |ts|
  {
    if |ts| > 0 {
      ChainPointwise(s1, s2, ts[..|ts| - 1]);
    }
  }

  /** The body of `for service_task in service_tasks { .. }`: one task, from lock to report. */
  method ProcessTask(config: ConfigParams, handlers: seq<Handler>, decode: Decoder, t: Fetched)
    returns (calls: seq<Call>)
    ensures calls == TaskCalls(config, handlers, decode, t)
  {
    calls := [Lock(t.task.id, config.id, LockDurationMs)];
    if !t.lockSucceeds {
      return;
    }
    calls := calls + [FetchVariables(t.task.processInstanceId)];
    var inputs: Inputs := map[];
    if t.body.Some? {
      var decoded := decode(t.body.value);
      if decoded.None? {
        calls := calls + [Panic];
        return;
      }
      inputs := decoded.value;
    }
    var handler := Find(handlers, t.task.activityId);
    if handler.None? {
      return;
    }
    calls := calls + [Dispatch(t.task.id, inputs)];
    var result := handler.value(inputs);
    match result {
      case Ok(outputs) =>
        calls := calls + [Complete(t.task.id, config.id, outputs)];
      case Err(err) =>
        if err.Business? {
          calls := calls + [ReportBpmnError(t.task.id, err.bpmn.code, err.bpmn.message, None)];
        } else {
          calls := calls + [ReportFailure(t.task.id, ErrorText(err), None, 0, 0)];
        }
    }
  }

  /** `for service_task in service_tasks { .. }`: the tasks one after the other. */
  method ProcessBatch(config: ConfigParams, handlers: seq<Handler>, decode: Decoder, tasks: seq<Fetched>)
    returns (log: seq<Call>)
    ensures log == BatchCalls(config, handlers, decode, tasks)
  {
    log := [];
    for i := 0 to |tasks|
      invariant log == BatchCalls(config, handlers, decode, tasks[..i])
      invariant Panic !in log
    {
      assert tasks[..i + 1][..i] == tasks[..i];
      var calls := ProcessTask(config, handlers, decode, tasks[i]);
      log := log + calls;
      if Panic in calls {
        PanicStops(TaskStep(config, handlers, decode), tasks, i + 1);
        return;
      }
    }
    assert tasks[..|tasks|] == tasks;
  }

  /** The body of `loop { .. }` in `start_polling_loop`, up to the sleep. */
  method PollOnce(config: ConfigParams, handlers: seq<Handler>, decode: Decoder, fetched: Option<seq<Fetched>>)
    returns (log: seq<Call>)
    ensures log == CycleCalls(config, handlers, decode, fetched)
  {
    log := [ListTasks];
    if fetched.None? {
      return;
    }
    var calls := ProcessBatch(config, handlers, decode, fetched.value);
    log := log + calls;
  }

  // ---------------------------------------------------------------------
  // Properties of a pass
  // ---------------------------------------------------------------------

  /** The reports among the calls, in order. */
  function Reports(calls: seq<Call>): (r: seq<Call>)
    ensures |r| <= |calls|
    ensures forall i :: 0 <= i < |r| ==> IsReport(r[i])
    decreases |calls|
  {
    if |calls| == 0 then []
    else (if IsReport(calls[0]) then [calls[0]] else []) + Reports(calls[1..])
  }

  lemma {:induction false} ReportsAppend(a: seq<Call>, b: seq<Call>)
    ensures Reports(a + b) == Reports(a) + Reports(b)
    decreases |a|
  {
    if |a| > 0 {
      assert (a + b)[0] == a[0];
      assert (a + b)[1..] == a[1..] + b;
      ReportsAppend(a[1..], b);
    } else {
      assert a + b == b;
    }
  }

  /** The ids of the tasks a lock was requested for, in order. */
  function Locked(calls: seq<Call>): seq<string>
    decreases |calls|
  {
    if |calls| == 0 then []
    else (if calls[0].Lock? then [calls[0].taskId] else []) + Locked(calls[1..])
  }

  lemma {:induction false} LockedAppend(a: seq<Call>, b: seq<Call>)
    ensures Locked(a + b) == Locked(a) + Locked(b)
    decreases |a|
  {
    if |a| > 0 {
      assert (a + b)[0] == a[0];
      assert (a + b)[1..] == a[1..] + b;
      LockedAppend(a[1..], b);
    } else {
      assert a + b == b;
    }
  }

  /** Calls holding no report, or no lock, contribute nothing to `Reports`, or to `Locked`. */
  lemma {:induction false} NothingToCollect(calls: seq<Call>)
    ensures (forall i :: 0 <= i < |calls| ==> !IsReport(calls[i])) ==> Reports(calls) == []
    ensures (forall i :: 0 <= i < |calls| ==> !calls[i].Lock?) ==> Locked(calls) == []
    decreases |calls|
  {
    if |calls| > 0 {
      NothingToCollect(calls[1..]);
    }
  }

  function TaskIds(tasks: seq<Fetched>): (ids: seq<string>)
    ensures |ids| == |tasks|
    ensures forall i :: 0 <= i < |tasks| ==> ids[i] == tasks[i].task.id
  {
    seq(|tasks|, i requires 0 <= i < |tasks| => tasks[i].task.id)
  }

  /**
   * A task that is locked, decoded and has a handler is dispatched with its
   * variables and gets exactly one report, the one its handler's result calls for.
   */
  lemma HandlerResultReported(config: ConfigParams, handlers: seq<Handler>, decode: Decoder, t: Fetched, f: TaskFn, inputs: Inputs)
    requires t.lockSucceeds && TaskInputs(decode, t) == Some(inputs)
    requires Lookup(handlers, t.task.activityId) == Some(f)
    ensures Dispatch(t.task.id, inputs) in TaskCalls(config, handlers, decode, t)
    ensures f(inputs).Ok? ==>
      Reports(TaskCalls(config, handlers, decode, t)) == [Complete(t.task.id, config.id, f(inputs).value)]
    ensures f(inputs).Err? && f(inputs).error.Business? ==>
      Reports(TaskCalls(config, handlers, decode, t))
        == [ReportBpmnError(t.task.id, f(inputs).error.bpmn.code, f(inputs).error.bpmn.message, None)]
    ensures f(inputs).Err? && f(inputs).error.Technical? ==>
      Reports(TaskCalls(config, handlers, decode, t)) == [ReportFailure(t.task.id, f(inputs).error.text, None, 0, 0)]
  {
    var lock := Lock(t.task.id, config.id, LockDurationMs);
    var prefix := [lock, FetchVariables(t.task.processInstanceId), Dispatch(t.task.id, inputs)];
    var report := Report(t.task.id, config.id, f(inputs));
    assert TaskCalls(config, handlers, decode, t) == prefix + [report];
    ReportsAppend(prefix, [report]);
    NothingToCollect(prefix);
    assert Reports([report]) == [report] by {
      assert [report][1..] == [];
    }
  }

  /** A task whose lock fails, whose decoding panics, or that has no handler is neither dispatched nor reported. */
  lemma SkippedTaskNotReported(config: ConfigParams, handlers: seq<Handler>, decode: Decoder, t: Fetched)
    requires !t.lockSucceeds || TaskInputs(decode, t).None? || t.task.activityId !in AllNames(handlers)
    ensures Reports(TaskCalls(config, handlers, decode, t)) == []
    ensures forall c :: c in TaskCalls(config, handlers, decode, t) ==> !c.Dispatch?
  {
    NothingToCollect(TaskCalls(config, handlers, decode, t));
  }

  /** A task gets at most one report, and gets one exactly when it is dispatched. */
  lemma AtMostOneReport(config: ConfigParams, handlers: seq<Handler>, decode: Decoder, t: Fetched)
    ensures |Reports(TaskCalls(config, handlers, decode, t))| <= 1
    ensures |Reports(TaskCalls(config, handlers, decode, t))| == 1 <==>
      t.lockSucceeds && TaskInputs(decode, t).Some? && t.task.activityId in AllNames(handlers)
  {
    if t.lockSucceeds && TaskInputs(decode, t).Some? && t.task.activityId in AllNames(handlers) {
      HandlerResultReported(config, handlers, decode, t, Lookup(handlers, t.task.activityId).value, TaskInputs(decode, t).value);
    } else {
      SkippedTaskNotReported(config, handlers, decode, t);
    }
  }

  /** A failed variables request is handled exactly like a body that decodes to no variables. */
  lemma FetchErrorIsEmptyVariables(config: ConfigParams, handlers: seq<Handler>, decode: Decoder, t: Fetched, p: Payload)
    requires t.body.None? && decode(p) == Some(map[])
    ensures TaskCalls(config, handlers, decode, t) == TaskCalls(config, handlers, decode, t.(body := Some(p)))
  {
  }

  /** When the listing fails, the pass makes no other call. */
  lemma ListingFailureEndsPass(config: ConfigParams, handlers: seq<Handler>, decode: Decoder)
    ensures CycleCalls(config, handlers, decode, None) == [ListTasks]
  {
  }

  /** Every lock asks for 60 000 ms under the configured worker id, and no failure report asks for a retry. */
  lemma FixedLeaseNoRetries(config: ConfigParams, handlers: seq<Handler>, decode: Decoder, ts: seq<Fetched>)
    ensures forall c :: c in BatchCalls(config, handlers, decode, ts) && c.Lock? ==>
      c.durationMs == LockDurationMs && c.workerId == config.id
    ensures forall c :: c in BatchCalls(config, handlers, decode, ts) && c.ReportFailure? ==>
      c.retries == 0 && c.retryTimeout == 0 && c.details.None?
  {
    var step := TaskStep(config, handlers, decode);
    ChainCallsFromSteps(step, ts);
    forall c | c in BatchCalls(config, handlers, decode, ts)
      ensures c.Lock? ==> c.durationMs == LockDurationMs && c.workerId == config.id
      ensures c.ReportFailure? ==> c.retries == 0 && c.retryTimeout == 0 && c.details.None?
    {
      var i :| 0 <= i < |ts| && c in step(ts[i]);
      assert c in TaskCalls(config, handlers, decode, ts[i]);
    }
  }

  /** Each task gets at most one report in a pass. */
  lemma ReportsPerBatch(config: ConfigParams, handlers: seq<Handler>, decode: Decoder, ts: seq<Fetched>)
    ensures |Reports(BatchCalls(config, handlers, decode, ts))| <= |ts|
  {
    forall i | 0 <= i < |ts|
      ensures |Reports(TaskStep(config, handlers, decode)(ts[i]))| <= 1
    {
      AtMostOneReport(config, handlers, decode, ts[i]);
    }
    ChainReports(TaskStep(config, handlers, decode), ts);
  }

  /** Every task's calls start with the request to lock it, and hold no other lock request. */
  lemma TaskLocksOnce(config: ConfigParams, handlers: seq<Handler>, decode: Decoder, t: Fetched)
    ensures Locked(TaskCalls(config, handlers, decode, t)) == [t.task.id]
  {
    var calls := TaskCalls(config, handlers, decode, t);
    assert calls[0].Lock?;
    NothingToCollect(calls[1..]);
  }

  /** Unless decoding panics, a lock is requested for every listed task, once, in listing order. */
  lemma EveryTaskAttempted(config: ConfigParams, handlers: seq<Handler>, decode: Decoder, ts: seq<Fetched>)
    requires Panic !in BatchCalls(config, handlers, decode, ts)
    ensures Locked(BatchCalls(config, handlers, decode, ts)) == TaskIds(ts)
  {
    forall i | 0 <= i < |ts|
      ensures Locked(TaskStep(config, handlers, decode)(ts[i])) == [ts[i].task.id]
    {
      TaskLocksOnce(config, handlers, decode, ts[i]);
    }
    ChainLocks(TaskStep(config, handlers, decode), ts);
  }

  // ---------------------------------------------------------------------
  // Scenarios
  // ---------------------------------------------------------------------

  /** The reports of a pass are the reports of its batch. */
  lemma PassReports(config: ConfigParams, handlers: seq<Handler>, decode: Decoder, ts: seq<Fetched>)
    ensures Reports(CycleCalls(config, handlers, decode, Some(ts))) == Reports(BatchCalls(config, handlers, decode, ts))
  {
    ReportsAppend([ListTasks], BatchCalls(config, handlers, decode, ts));
    NothingToCollect([ListTasks]);
  }

  /** One task for the registered `h1`, locked, with no variables, whose handler succeeds: exactly one completion. */
  lemma CompletionScenario(config: ConfigParams, decode: Decoder, f: TaskFn, t: Fetched, name: string, out: OutVariable)
    requires t.task.activityId == "h1" && t.lockSucceeds && TaskInputs(decode, t) == Some(map[])
    requires f(map[]) == Ok(map[name := out])
    ensures Reports(CycleCalls(config, [Handler("h1", f)], decode, Some([t])))
      == [Complete(t.task.id, config.id, map[name := out])]
  {
    HandlerResultReported(config, [Handler("h1", f)], decode, t, f, map[]);
    ChainSingle(TaskStep(config, [Handler("h1", f)], decode), t);
    PassReports(config, [Handler("h1", f)], decode, [t]);
  }

  /** The same task whose handler raises the business error `E1`: exactly one BPMN error report carrying `E1`. */
  lemma BusinessErrorScenario(config: ConfigParams, decode: Decoder, f: TaskFn, t: Fetched, message: Option<string>)
    requires t.task.activityId == "h1" && t.lockSucceeds && TaskInputs(decode, t) == Some(map[])
    requires f(map[]) == Err(Business(BpmnError("E1", message)))
    ensures Reports(CycleCalls(config, [Handler("h1", f)], decode, Some([t])))
      == [ReportBpmnError(t.task.id, "E1", message, None)]
  {
    HandlerResultReported(config, [Handler("h1", f)], decode, t, f, map[]);
    ChainSingle(TaskStep(config, [Handler("h1", f)], decode), t);
    PassReports(config, [Handler("h1", f)], decode, [t]);
  }

  /** A task without a handler gets no report and the next task is processed as if it were alone. */
  lemma NoHandlerScenario(config: ConfigParams, handlers: seq<Handler>, decode: Decoder, a: Fetched, b: Fetched)
    requires a.task.activityId !in AllNames(handlers) && TaskInputs(decode, a).Some?
    ensures Reports(TaskCalls(config, handlers, decode, a)) == []
    ensures BatchCalls(config, handlers, decode, [a, b])
         == TaskCalls(config, handlers, decode, a) + TaskCalls(config, handlers, decode, b)
  {
    SkippedTaskNotReported(config, handlers, decode, a);
    var step := TaskStep(config, handlers, decode);
    ChainSingle(step, a);
    ChainSingle(step, b);
    ChainAppend(step, [a], [b]);
    assert [a] + [b] == [a, b];
  }

  /** A task whose lock fails costs only the lock request; the next task is processed as if it were alone. */
  lemma LockFailureScenario(config: ConfigParams, handlers: seq<Handler>, decode: Decoder, a: Fetched, b: Fetched)
    requires !a.lockSucceeds
    ensures BatchCalls(config, handlers, decode, [a, b])
         == [Lock(a.task.id, config.id, LockDurationMs)] + TaskCalls(config, handlers, decode, b)
  {
    var step := TaskStep(config, handlers, decode);
    ChainSingle(step, a);
    ChainSingle(step, b);
    ChainAppend(step, [a], [b]);
    assert [a] + [b] == [a, b];
  }

  // ---------------------------------------------------------------------
  // The decoder the loop links
  // ---------------------------------------------------------------------

  /**
   * As written: a variables body that is not a well-formed name -> entry
   * object (here `{"invalid":}`) makes the strict decoder panic, and no
   * later task of the batch is attempted.
   */
  lemma StrictDecoderPanics(config: ConfigParams, handlers: seq<Handler>, t: Fetched, rest: seq<Fetched>)
    requires t.lockSucceeds && t.body == Some(Payload([], true))
    ensures TaskCalls(config, handlers, StrictVariables, t)
      == [Lock(t.task.id, config.id, LockDurationMs), FetchVariables(t.task.processInstanceId), Panic]
    ensures BatchCalls(config, handlers, StrictVariables, [t] + rest) == TaskCalls(config, handlers, StrictVariables, t)
  {
    assert ([t] + rest)[..1] == [t];
    ChainSingle(TaskStep(config, handlers, StrictVariables), t);
    PanicStops(TaskStep(config, handlers, StrictVariables), [t] + rest, 1);
  }

  /** Corrected: with the tolerant decoder the same body reads as no variables, as after a failed fetch. */
  lemma TolerantDecoderDegrades(config: ConfigParams, handlers: seq<Handler>, t: Fetched)
    requires t.body == Some(Payload([], true))
    ensures TaskCalls(config, handlers, TolerantVariables, t)
         == TaskCalls(config, handlers, TolerantVariables, t.(body := None))
  {
    TolerantDecoder.InvalidTextGivesEmpty();
    FetchErrorIsEmptyVariables(config, handlers, TolerantVariables, t.(body := None), Payload([], true));
  }

  /** Corrected: with the tolerant decoder no pass panics, so every listed task is attempted. */
  lemma TolerantPassNeverPanics(config: ConfigParams, handlers: seq<Handler>, ts: seq<Fetched>)
    ensures Panic !in BatchCalls(config, handlers, TolerantVariables, ts)
    ensures Locked(BatchCalls(config, handlers, TolerantVariables, ts)) == TaskIds(ts)
  {
    ChainNoPanic(TaskStep(config, handlers, TolerantVariables), ts);
    EveryTaskAttempted(config, handlers, TolerantVariables, ts);
  }

}
