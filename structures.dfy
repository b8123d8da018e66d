/**
 * `src/structures.rs`: the worker's configuration (without a lock duration)
 * with its builder methods and defaults, and the open external task the
 * engine lists.
 */
module Structures {
  import opened Wrappers
  import opened Json
  import opened Serde

  /** Rust's `usize` on a 64-bit target, and `u64`. */
  type U64 = x: int | 0 <= x < 0x1_0000_0000_0000_0000

  /** The base URL, kept as the text it was given. */
  type Url = string

  datatype ConfigParams = ConfigParams(url: Url, username: string, password: string, pollInterval: U64, id: string)

  const DefaultUrl: Url := "http://localhost:8080"
  const DefaultPollInterval: U64 := 500
  const DefaultWorkerId: string := "operaton_task_worker"

  /** `ConfigParams::default()`: local engine, no authentication, 500 ms polling. */
  function Default(): (c: ConfigParams)
    ensures c.url == DefaultUrl && c.username == "" && c.password == ""
    ensures c.pollInterval == 500 && c.id == "operaton_task_worker"
  {
    ConfigParams(DefaultUrl, "", "", DefaultPollInterval, DefaultWorkerId)
  }

  function WithUrl(c: ConfigParams, url: Url): (r: ConfigParams)
    ensures r.url == url
    ensures r.username == c.username && r.password == c.password
    ensures r.pollInterval == c.pollInterval && r.id == c.id
  {
    c.(url := url)
  }

  function WithAuth(c: ConfigParams, username: string, password: string): (r: ConfigParams)
    ensures r.username == username && r.password == password
    ensures r.url == c.url && r.pollInterval == c.pollInterval && r.id == c.id
  {
    c.(username := username, password := password)
  }

  function WithPollInterval(c: ConfigParams, pollInterval: U64): (r: ConfigParams)
    ensures r.pollInterval == pollInterval
    ensures r.url == c.url && r.username == c.username && r.password == c.password && r.id == c.id
  {
    c.(pollInterval := pollInterval)
  }

  function WithWorkerId(c: ConfigParams, id: string): (r: ConfigParams)
    ensures r.id == id
    ensures r.url == c.url && r.username == c.username && r.password == c.password
    ensures r.pollInterval == c.pollInterval
  {
    c.(id := id)
  }

  /** Each builder overrides an earlier call of itself, and builders of different fields commute. */
  lemma BuildersOverrideAndCommute(c: ConfigParams, u1: Url, u2: Url, n: string, p: string, i: U64, w: string)
    ensures WithUrl(WithUrl(c, u1), u2) == WithUrl(c, u2)
    ensures WithPollInterval(WithPollInterval(c, i), 0) == WithPollInterval(c, 0)
    ensures WithAuth(WithUrl(c, u1), n, p) == WithUrl(WithAuth(c, n, p), u1)
    ensures WithWorkerId(WithPollInterval(c, i), w) == WithPollInterval(WithWorkerId(c, w), i)
    ensures WithUrl(WithWorkerId(c, w), u1) == WithWorkerId(WithUrl(c, u1), w)
  {
  }

  /** Setting every field makes the starting configuration irrelevant. */
  lemma FullBuildIgnoresStart(c: ConfigParams, d: ConfigParams, u: Url, n: string, p: string, i: U64, w: string)
    ensures WithWorkerId(WithPollInterval(WithAuth(WithUrl(c, u), n, p), i), w)
         == WithWorkerId(WithPollInterval(WithAuth(WithUrl(d, u), n, p), i), w)
  {
  }

  /** `test_config_params_builder_pattern`. */
  lemma BuilderPattern()
    ensures var c := WithWorkerId(WithPollInterval(WithAuth(WithUrl(Default(), "http://localhost:8080"), "user", "pass"), 1000), "operaton_task_worker");
      c.url == "http://localhost:8080" && c.username == "user" && c.password == "pass"
      && c.pollInterval == 1000 && c.id == "operaton_task_worker"
  {
  }

  // ---------------------------------------------------------------------
  // Open external tasks
  // ---------------------------------------------------------------------

  /** An open external task as the engine lists it (camelCase on the wire). */
  datatype ServiceTask = ServiceTask(
    id: string,
    activityId: string,
    processInstanceId: string,
    suspended: bool,
    topicName: string,
    priority: U64,
    businessKey: string,
    workerId: Option<string>)

  function AsU64(v: Value): (r: Option<U64>)
    ensures r.Some? <==> v.Number? && 0 <= v.n < 0x1_0000_0000_0000_0000
  {
    if v.Number? && 0 <= v.n < 0x1_0000_0000_0000_0000 then Some(v.n as U64) else None
  }

  /** `Option<String>`: null is none, a string is some, anything else is an error. */
  function AsOptionalString(v: Value): (r: Option<Option<string>>)
    ensures r == Some(None) <==> v.Null?
    ensures r.Some? && r.value.Some? <==> v.Str?
  {
    if v.Null? then Some(None) else if v.Str? then Some(Some(v.s)) else None
  }

  /** An `Option` field of a derived struct may also be missing, which reads as none. */
  function OptionalField(members: seq<(string, Value)>, key: string): (r: Option<Option<string>>)
    ensures Count(members, key) == 0 ==> r == Some(None)
  {
    if Count(members, key) == 0 then Some(None) else Required(members, key, AsOptionalString)
  }

  /**
   * The derived `Deserialize` of `ServiceTask`: an object in which the seven
   * required fields each appear exactly once with their kinds (`priority` a
   * number in the range of `usize`), and `workerId` is absent, or once and
   * null or a string; other members are ignored.
   */
  function DecodeServiceTask(v: Value): (r: Option<ServiceTask>)
    ensures r.Some? <==> (v.Object?
      && Count(v.members, "id") == 1 && Get(v.members, "id").value.Str?
      && Count(v.members, "activityId") == 1 && Get(v.members, "activityId").value.Str?
      && Count(v.members, "processInstanceId") == 1 && Get(v.members, "processInstanceId").value.Str?
      && Count(v.members, "suspended") == 1 && Get(v.members, "suspended").value.Bool?
      && Count(v.members, "topicName") == 1 && Get(v.members, "topicName").value.Str?
      && Count(v.members, "priority") == 1 && AsU64(Get(v.members, "priority").value).Some?
      && Count(v.members, "businessKey") == 1 && Get(v.members, "businessKey").value.Str?
      && (Count(v.members, "workerId") == 0
          || (Count(v.members, "workerId") == 1 && (Get(v.members, "workerId").value.Null? || Get(v.members, "workerId").value.Str?))))
    ensures r.Some? ==> Get(v.members, "id") == Some(Str(r.value.id))
    ensures r.Some? ==> Get(v.members, "activityId") == Some(Str(r.value.activityId))
    ensures r.Some? ==> Get(v.members, "processInstanceId") == Some(Str(r.value.processInstanceId))
    ensures r.Some? ==> Get(v.members, "suspended") == Some(Bool(r.value.suspended))
    ensures r.Some? ==> Get(v.members, "topicName") == Some(Str(r.value.topicName))
    ensures r.Some? ==> Get(v.members, "priority") == Some(Number(r.value.priority as int))
    ensures r.Some? ==> Get(v.members, "businessKey") == Some(Str(r.value.businessKey))
    ensures r.Some? ==> (r.value.workerId.None? <==> Count(v.members, "workerId") == 0 || Get(v.members, "workerId") == Some(Null))
    ensures r.Some? && r.value.workerId.Some? ==> Get(v.members, "workerId") == Some(Str(r.value.workerId.value))
  {
    if !v.Object? then None
    else
      var ms := v.members;
      var id :- Required(ms, "id", AsString);
      var activityId :- Required(ms, "activityId", AsString);
      var processInstanceId :- Required(ms, "processInstanceId", AsString);
      var suspended :- Required(ms, "suspended", AsBool);
      var topicName :- Required(ms, "topicName", AsString);
      var priority :- Required(ms, "priority", AsU64);
      var businessKey :- Required(ms, "businessKey", AsString);
      var workerId :- OptionalField(ms, "workerId");
      Some(ServiceTask(id, activityId, processInstanceId, suspended, topicName, priority, businessKey, workerId))
  }

  /** The listing of open tasks, `Vec<ServiceTask>`: one task that does not decode fails the whole listing. */
  function DecodeTaskList(v: Value): (r: Option<seq<ServiceTask>>)
    ensures r.Some? <==> v.Array? && forall i :: 0 <= i < |v.items| ==> DecodeServiceTask(v.items[i]).Some?
    ensures r.Some? ==> |r.value| == |v.items|
  {
    AsSeqOf(v, DecodeServiceTask)
  }

  /** A task without a business key (sent as null) makes the whole listing undecodable. */
  lemma NullBusinessKeyFailsListing(items: seq<Value>, i: nat)
    requires i < |items| && items[i].Object? && Get(items[i].members, "businessKey") == Some(Null)
    ensures DecodeTaskList(Array(items)).None?
  {
  }
}
