/**
 The settings the core reads (app/config.py): their default values, the Redis
 connection URL and the production flag. Loading them from the environment is
 not modelled; a `Settings` value is simply given.
 */
module Config {
  import opened Common

  /** `REDIS_DB: str | int`. */
  datatype RedisDb = DbNumber(n: int) | DbName(name: string)

  datatype Settings = Settings(
    debug: bool,
    redisHost: string,
    redisPort: int,
    redisDb: RedisDb,
    redisPassword: Option<string>,
    redisCacheTtl: int,
    maxRetries: int,
    retryMultiplier: real,
    retryMinWait: real,
    retryMaxWait: real)

  /** The defaults declared on the settings class. */
  const Defaults: Settings := Settings(
    debug := false,
    redisHost := "localhost",
    redisPort := 6379,
    redisDb := DbNumber(0),
    redisPassword := None,
    redisCacheTtl := 3600,
    maxRetries := 3,
    retryMultiplier := 2.0,
    retryMinWait := 1.0,
    retryMaxWait := 10.0)

  /** Python truthiness of an optional string: `None` and `""` are false. */
  predicate Truthy(s: Option<string>)
  {
    s.Some? && s.value != ""
  }

  function DbText(db: RedisDb): string
  {
    match db
    case DbNumber(n) => IntToString(n)
    case DbName(name) => name
  }

  /** `host:port/db`, the part of the URL that does not depend on the password. */
  function Address(s: Settings): string
  {
    s.redisHost + ":" + IntToString(s.redisPort) + "/" + DbText(s.redisDb)
  }

  /** `get_redis_url()`: credentials appear exactly when the password is truthy;
      an empty password is treated like no password. */
  function RedisUrl(s: Settings): (url: string)
    ensures |url| >= 8 && url[..8] == "redis://"
    ensures Truthy(s.redisPassword) ==> url == "redis://:" + s.redisPassword.value + "@" + Address(s)
    ensures !Truthy(s.redisPassword) ==> url == "redis://" + Address(s)
  {
    if Truthy(s.redisPassword) then
      "redis://:" + s.redisPassword.value + "@" + Address(s)
    else
      "redis://" + Address(s)
  }

  /** `is_production()`. */
  function IsProduction(s: Settings): (r: bool)
    ensures r <==> !s.debug
  {
    !s.debug
  }

  /** A password only inserts the `:password@` credentials segment after the
      scheme; everything else in the URL is the same as without one. */
  lemma PasswordOnlyAddsCredentials(s: Settings, pw: string)
    requires pw != ""
    ensures RedisUrl(s.(redisPassword := Some(pw)))
         == "redis://:" + pw + "@" + RedisUrl(s.(redisPassword := None))[8..]
  {
    var bare := RedisUrl(s.(redisPassword := None));
    assert bare == "redis://" + Address(s);
    assert bare[8..] == Address(s);
  }

  /** The defaults the core relies on: a one-hour cache TTL, three attempts,
      a backoff window whose lower end is below its upper end, and the URL
      `redis://localhost:6379/0`. */
  lemma DefaultsUsedByCore()
    ensures Defaults.redisCacheTtl == 3600
    ensures Defaults.maxRetries == 3
    ensures Defaults.retryMinWait <= Defaults.retryMaxWait
    ensures IsProduction(Defaults)
    ensures RedisUrl(Defaults) == "redis://localhost:6379/0"
  {
    assert IntToString(6379) == "6379" by {
      assert NatToString(6379) == NatToString(637) + ['9'];
      assert NatToString(637) == NatToString(63) + ['7'];
      assert NatToString(63) == NatToString(6) + ['3'];
    }
  }
}
