/**
 * `src/settings.rs`: the configuration the library exports, which adds a
 * lock duration to the fields of `Structures.ConfigParams`.
 */
module Settings {
  import Structures
  type U64 = Structures.U64
  type Url = Structures.Url

  datatype ConfigParams = ConfigParams(
    url: Url, username: string, password: string, pollInterval: U64, id: string, lockDuration: U64)

  const DefaultLockDuration: U64 := 60_000

  /** `ConfigParams::default()`: the defaults of `Structures` and a 60 s lock. */
  function Default(): (c: ConfigParams)
    ensures c.url == Structures.DefaultUrl && c.username == "" && c.password == ""
    ensures c.pollInterval == 500 && c.id == "operaton_task_worker"
    ensures c.lockDuration == 60_000
  {
    ConfigParams(Structures.DefaultUrl, "", "", Structures.DefaultPollInterval, Structures.DefaultWorkerId, DefaultLockDuration)
  }

  function WithUrl(c: ConfigParams, url: Url): (r: ConfigParams)
    ensures r.url == url
    ensures r.username == c.username && r.password == c.password
    ensures r.pollInterval == c.pollInterval && r.id == c.id && r.lockDuration == c.lockDuration
  {
    c.(url := url)
  }

  function WithAuth(c: ConfigParams, username: string, password: string): (r: ConfigParams)
    ensures r.username == username && r.password == password
    ensures r.url == c.url && r.pollInterval == c.pollInterval && r.id == c.id
    ensures r.lockDuration == c.lockDuration
  {
    c.(username := username, password := password)
  }

  function WithPollInterval(c: ConfigParams, pollInterval: U64): (r: ConfigParams)
    ensures r.pollInterval == pollInterval
    ensures r.url == c.url && r.username == c.username && r.password == c.password
    ensures r.id == c.id && r.lockDuration == c.lockDuration
  {
    c.(pollInterval := pollInterval)
  }

  function WithWorkerId(c: ConfigParams, id: string): (r: ConfigParams)
    ensures r.id == id
    ensures r.url == c.url && r.username == c.username && r.password == c.password
    ensures r.pollInterval == c.pollInterval && r.lockDuration == c.lockDuration
  {
    c.(id := id)
  }

  function WithLockDuration(c: ConfigParams, lockDuration: U64): (r: ConfigParams)
    ensures r.lockDuration == lockDuration
    ensures r.url == c.url && r.username == c.username && r.password == c.password
    ensures r.pollInterval == c.pollInterval && r.id == c.id
  {
    c.(lockDuration := lockDuration)
  }

  /** Without its lock duration a configuration is a `Structures.ConfigParams`. */
  function WithoutLock(c: ConfigParams): (r: Structures.ConfigParams)
    ensures r.url == c.url && r.username == c.username && r.password == c.password
    ensures r.pollInterval == c.pollInterval && r.id == c.id
  {
    Structures.ConfigParams(c.url, c.username, c.password, c.pollInterval, c.id)
  }

  /** The two configurations agree on defaults and on every shared builder. */
  lemma AgreesWithStructures(c: ConfigParams, u: Url, n: string, p: string, i: U64, w: string, l: U64)
    ensures WithoutLock(Default()) == Structures.Default()
    ensures WithoutLock(WithUrl(c, u)) == Structures.WithUrl(WithoutLock(c), u)
    ensures WithoutLock(WithAuth(c, n, p)) == Structures.WithAuth(WithoutLock(c), n, p)
    ensures WithoutLock(WithPollInterval(c, i)) == Structures.WithPollInterval(WithoutLock(c), i)
    ensures WithoutLock(WithWorkerId(c, w)) == Structures.WithWorkerId(WithoutLock(c), w)
    ensures WithoutLock(WithLockDuration(c, l)) == WithoutLock(c)
  {
  }

  /** `test_config_params_builder_pattern` and `test_default_lock_duration`. */
  lemma BuilderPattern()
    ensures var c := WithLockDuration(WithWorkerId(WithPollInterval(WithAuth(WithUrl(Default(), "http://localhost:8080"), "user", "pass"), 1000), "operaton_task_worker"), 12_345);
      c.url == "http://localhost:8080" && c.username == "user" && c.password == "pass"
      && c.pollInterval == 1000 && c.id == "operaton_task_worker" && c.lockDuration == 12_345
    ensures Default().lockDuration == DefaultLockDuration
  {
  }
}
