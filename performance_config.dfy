/**
 * The performance settings (internal/provider/performance_config.go): their defaults, the
 * environment overrides, and Validate's repair of out-of-range values.
 *
 * Go's `int` and `time.Duration` are 64-bit here; durations are nanoseconds. The environment is
 * a map (an unset variable reads as ""), and strconv.ParseBool, strconv.Atoi and
 * time.ParseDuration are parameters that either give a value or fail.
 */
module PerformanceConfiguration {
  import opened Wrappers

  const MinInt64: int := -0x8000_0000_0000_0000
  const MaxInt64: int := 0x7FFF_FFFF_FFFF_FFFF

  /** A Go `int` / `time.Duration` on a 64-bit platform. */
  newtype Int64 = x: int | MinInt64 <= x <= MaxInt64

  /**
   * Two's-complement wrap-around into 64 bits of an exact result that is at most one wrap away,
   * as the sum or double of two `int` values is.
   */
  function Wrap64(x: int): (r: Int64)
    requires 2 * MinInt64 <= x <= 2 * MaxInt64 + 1
    ensures MinInt64 <= x <= MaxInt64 ==> r as int == x
    ensures r as int == x || r as int == x - 0x1_0000_0000_0000_0000 || r as int == x + 0x1_0000_0000_0000_0000
  {
    if x > MaxInt64 then (x - 0x1_0000_0000_0000_0000) as Int64
    else if x < MinInt64 then (x + 0x1_0000_0000_0000_0000) as Int64
    else x as Int64
  }

  const Millisecond: Int64 := 1_000_000
  const Second: Int64 := 1_000_000_000
  const Minute: Int64 := 60_000_000_000

  /** The fifteen settings, as a value. */
  datatype Settings = Settings(
    cacheEnabled: bool,
    cacheTTL: Int64,
    rateLimitEnabled: bool,
    rateLimitPerSecond: Int64,
    rateLimitBurst: Int64,
    batchEnabled: bool,
    batchSize: Int64,
    batchTimeout: Int64,
    maxIdleConns: Int64,
    maxOpenConns: Int64,
    connMaxLifetime: Int64,
    connMaxIdleTime: Int64,
    requestTimeout: Int64,
    retryAttempts: Int64,
    retryDelay: Int64)

  /** DefaultPerformanceConfig's values. */
  const Defaults: Settings := Settings(
    cacheEnabled := true, cacheTTL := 5 * Minute,
    rateLimitEnabled := true, rateLimitPerSecond := 10, rateLimitBurst := 20,
    batchEnabled := true, batchSize := 10, batchTimeout := 100 * Millisecond,
    maxIdleConns := 10, maxOpenConns := 20, connMaxLifetime := 30 * Minute, connMaxIdleTime := 10 * Minute,
    requestTimeout := 30 * Second, retryAttempts := 3, retryDelay := 1 * Second)

  // ---------------------------------------------------------------- Validate

  /** Validate's rule for one setting: a value that is not positive is replaced by `fallback`. */
  function PositiveOr(v: Int64, fallback: Int64): (r: Int64)
    ensures v > 0 ==> r == v
    ensures v <= 0 ==> r == fallback
  {
    if v <= 0 then fallback else v
  }

  /** Validate's rule for the retry count: a negative count is replaced by `fallback`. */
  function NonNegativeOr(v: Int64, fallback: Int64): (r: Int64)
    ensures v >= 0 ==> r == v
    ensures v < 0 ==> r == fallback
  {
    if v < 0 then fallback else v
  }

  /**
   * Validate's rule for the burst: a burst that is not positive becomes twice the per-second
   * limit, multiplied in 64-bit `int`.
   */
  function RepairedBurst(burst: Int64, perSecond: Int64): (r: Int64)
    ensures burst > 0 ==> r == burst
    ensures burst <= 0 ==> r == Wrap64(perSecond as int * 2)
  {
    if burst <= 0 then Wrap64(perSecond as int * 2) else burst
  }

  /**
   * Validate's effect: each numeric setting out of range is reset to its default value (the
   * values Validate writes are exactly DefaultPerformanceConfig's), except the burst, which
   * becomes twice the already repaired per-second limit; the flags are kept.
   */
  function Validated(s: Settings): (r: Settings)
    ensures r.cacheEnabled == s.cacheEnabled && r.rateLimitEnabled == s.rateLimitEnabled
            && r.batchEnabled == s.batchEnabled
  {
    var perSecond := PositiveOr(s.rateLimitPerSecond, Defaults.rateLimitPerSecond);
    s.(rateLimitPerSecond := perSecond,
       rateLimitBurst := RepairedBurst(s.rateLimitBurst, perSecond),
       batchSize := PositiveOr(s.batchSize, Defaults.batchSize),
       batchTimeout := PositiveOr(s.batchTimeout, Defaults.batchTimeout),
       maxIdleConns := PositiveOr(s.maxIdleConns, Defaults.maxIdleConns),
       maxOpenConns := PositiveOr(s.maxOpenConns, Defaults.maxOpenConns),
       connMaxLifetime := PositiveOr(s.connMaxLifetime, Defaults.connMaxLifetime),
       connMaxIdleTime := PositiveOr(s.connMaxIdleTime, Defaults.connMaxIdleTime),
       requestTimeout := PositiveOr(s.requestTimeout, Defaults.requestTimeout),
       retryAttempts := NonNegativeOr(s.retryAttempts, Defaults.retryAttempts),
       retryDelay := PositiveOr(s.retryDelay, Defaults.retryDelay),
       cacheTTL := PositiveOr(s.cacheTTL, Defaults.cacheTTL))
  }

  /**
   * After Validate every limit, size and duration is positive and the retry count is not
   * negative; the burst is positive whenever doubling the per-second limit fits in an `int`.
   */
  lemma ValidatedIsInRange(s: Settings)
    ensures var r := Validated(s);
            && r.rateLimitPerSecond > 0 && r.batchSize > 0 && r.batchTimeout > 0
            && r.maxIdleConns > 0 && r.maxOpenConns > 0 && r.connMaxLifetime > 0 && r.connMaxIdleTime > 0
            && r.requestTimeout > 0 && r.retryAttempts >= 0 && r.retryDelay > 0 && r.cacheTTL > 0
            && (r.rateLimitPerSecond as int * 2 <= MaxInt64 ==> r.rateLimitBurst > 0)
  {
  }

  /** A setting already in range is left as it is; zero retries is in range. */
  lemma ValidatedKeepsInRange(s: Settings)
    ensures var r := Validated(s);
            && (s.rateLimitPerSecond > 0 ==> r.rateLimitPerSecond == s.rateLimitPerSecond)
            && (s.rateLimitBurst > 0 ==> r.rateLimitBurst == s.rateLimitBurst)
            && (s.batchSize > 0 ==> r.batchSize == s.batchSize)
            && (s.batchTimeout > 0 ==> r.batchTimeout == s.batchTimeout)
            && (s.maxIdleConns > 0 ==> r.maxIdleConns == s.maxIdleConns)
            && (s.maxOpenConns > 0 ==> r.maxOpenConns == s.maxOpenConns)
            && (s.connMaxLifetime > 0 ==> r.connMaxLifetime == s.connMaxLifetime)
            && (s.connMaxIdleTime > 0 ==> r.connMaxIdleTime == s.connMaxIdleTime)
            && (s.requestTimeout > 0 ==> r.requestTimeout == s.requestTimeout)
            && (s.retryAttempts >= 0 ==> r.retryAttempts == s.retryAttempts)
            && (s.retryDelay > 0 ==> r.retryDelay == s.retryDelay)
            && (s.cacheTTL > 0 ==> r.cacheTTL == s.cacheTTL)
  {
  }

  /** A missing burst follows the limit: a zero limit and a zero burst become 10 and 20. */
  lemma BurstFollowsLimit(s: Settings)
    ensures s.rateLimitPerSecond <= 0 && s.rateLimitBurst <= 0 ==>
              Validated(s).rateLimitPerSecond == 10 && Validated(s).rateLimitBurst == 20
    ensures 0 < s.rateLimitPerSecond && s.rateLimitPerSecond as int * 2 <= MaxInt64 && s.rateLimitBurst <= 0 ==>
              Validated(s).rateLimitBurst as int == 2 * s.rateLimitPerSecond as int
  {
  }

  /** A negative retry count is reset to 3. */
  lemma NegativeRetriesReset(s: Settings)
    requires s.retryAttempts < 0
    ensures Validated(s).retryAttempts == 3
  {
  }

  /** The doubling wraps: a limit of 2^62 with a zero burst leaves the burst negative. */
  lemma BurstCanWrapNegative()
    ensures Validated(Defaults.(rateLimitPerSecond := 0x4000_0000_0000_0000, rateLimitBurst := 0)).rateLimitBurst as int
            == MinInt64
  {
  }

  /** Validating twice is validating once. */
  lemma ValidatedIdempotent(s: Settings)
    ensures Validated(Validated(s)) == Validated(s)
  {
  }

  /** The defaults are already valid. */
  lemma DefaultsAreValid()
    ensures Validated(Defaults) == Defaults
  {
  }

  // ---------------------------------------------------------------- the environment

  /** strconv.ParseBool, strconv.Atoi and time.ParseDuration: a value, or None for an error. */
  datatype Parsers = Parsers(
    parseBool: string -> Option<bool>,
    atoi: string -> Option<Int64>,
    parseDuration: string -> Option<Int64>)

  /** os.Getenv: "" for an unset variable. */
  function Getenv(env: map<string, string>, name: string): string {
    if name in env then env[name] else ""
  }

  /** One override: `val` replaces `current` only when it is non-empty and parses. */
  function Override<T>(current: T, val: string, parse: string -> Option<T>): (r: T)
    ensures val == "" || parse(val).None? ==> r == current
    ensures val != "" && parse(val).Some? ==> r == parse(val).value
  {
    if val != "" && parse(val).Some? then parse(val).value else current
  }

  function LoadCache(s: Settings, env: map<string, string>, p: Parsers): Settings {
    s.(cacheEnabled := Override(s.cacheEnabled, Getenv(env, "SEVALLA_CACHE_ENABLED"), p.parseBool),
       cacheTTL := Override(s.cacheTTL, Getenv(env, "SEVALLA_CACHE_TTL"), p.parseDuration))
  }

  function LoadRateLimit(s: Settings, env: map<string, string>, p: Parsers): Settings {
    s.(rateLimitEnabled := Override(s.rateLimitEnabled, Getenv(env, "SEVALLA_RATE_LIMIT_ENABLED"), p.parseBool),
       rateLimitPerSecond := Override(s.rateLimitPerSecond, Getenv(env, "SEVALLA_RATE_LIMIT_PER_SECOND"), p.atoi),
       rateLimitBurst := Override(s.rateLimitBurst, Getenv(env, "SEVALLA_RATE_LIMIT_BURST"), p.atoi))
  }

  function LoadBatch(s: Settings, env: map<string, string>, p: Parsers): Settings {
    s.(batchEnabled := Override(s.batchEnabled, Getenv(env, "SEVALLA_BATCH_ENABLED"), p.parseBool),
       batchSize := Override(s.batchSize, Getenv(env, "SEVALLA_BATCH_SIZE"), p.atoi),
       batchTimeout := Override(s.batchTimeout, Getenv(env, "SEVALLA_BATCH_TIMEOUT"), p.parseDuration))
  }

  function LoadConnection(s: Settings, env: map<string, string>, p: Parsers): Settings {
    s.(maxIdleConns := Override(s.maxIdleConns, Getenv(env, "SEVALLA_MAX_IDLE_CONNS"), p.atoi),
       maxOpenConns := Override(s.maxOpenConns, Getenv(env, "SEVALLA_MAX_OPEN_CONNS"), p.atoi),
       connMaxLifetime := Override(s.connMaxLifetime, Getenv(env, "SEVALLA_CONN_MAX_LIFETIME"), p.parseDuration),
       connMaxIdleTime := Override(s.connMaxIdleTime, Getenv(env, "SEVALLA_CONN_MAX_IDLE_TIME"), p.parseDuration))
  }

  function LoadRequest(s: Settings, env: map<string, string>, p: Parsers): Settings {
    s.(requestTimeout := Override(s.requestTimeout, Getenv(env, "SEVALLA_REQUEST_TIMEOUT"), p.parseDuration),
       retryAttempts := Override(s.retryAttempts, Getenv(env, "SEVALLA_RETRY_ATTEMPTS"), p.atoi),
       retryDelay := Override(s.retryDelay, Getenv(env, "SEVALLA_RETRY_DELAY"), p.parseDuration))
  }

  /** LoadPerformanceConfigFromEnv's result: the defaults with the five groups loaded in turn. */
  function FromEnv(env: map<string, string>, p: Parsers): Settings {
    LoadRequest(LoadConnection(LoadBatch(LoadRateLimit(LoadCache(Defaults, env, p), env, p), env, p), env, p), env, p)
  }

  /** The settings, named. */
  datatype Field =
    | CacheEnabled | CacheTTL | RateLimitEnabled | RateLimitPerSecond | RateLimitBurst
    | BatchEnabled | BatchSize | BatchTimeout | MaxIdleConns | MaxOpenConns
    | ConnMaxLifetime | ConnMaxIdleTime | RequestTimeout | RetryAttempts | RetryDelay

  /** The environment variable each setting reads. */
  function VarName(f: Field): string {
    match f
    case CacheEnabled => "SEVALLA_CACHE_ENABLED"
    case CacheTTL => "SEVALLA_CACHE_TTL"
    case RateLimitEnabled => "SEVALLA_RATE_LIMIT_ENABLED"
    case RateLimitPerSecond => "SEVALLA_RATE_LIMIT_PER_SECOND"
    case RateLimitBurst => "SEVALLA_RATE_LIMIT_BURST"
    case BatchEnabled => "SEVALLA_BATCH_ENABLED"
    case BatchSize => "SEVALLA_BATCH_SIZE"
    case BatchTimeout => "SEVALLA_BATCH_TIMEOUT"
    case MaxIdleConns => "SEVALLA_MAX_IDLE_CONNS"
    case MaxOpenConns => "SEVALLA_MAX_OPEN_CONNS"
    case ConnMaxLifetime => "SEVALLA_CONN_MAX_LIFETIME"
    case ConnMaxIdleTime => "SEVALLA_CONN_MAX_IDLE_TIME"
    case RequestTimeout => "SEVALLA_REQUEST_TIMEOUT"
    case RetryAttempts => "SEVALLA_RETRY_ATTEMPTS"
    case RetryDelay => "SEVALLA_RETRY_DELAY"
  }

  /** How a variable's text is read: strconv.ParseBool, strconv.Atoi or time.ParseDuration. */
  datatype Syntax = BoolSyntax | IntSyntax | DurationSyntax

  function SyntaxOf(f: Field): Syntax {
    match f
    case CacheEnabled | RateLimitEnabled | BatchEnabled => BoolSyntax
    case RateLimitPerSecond | RateLimitBurst | BatchSize | MaxIdleConns | MaxOpenConns | RetryAttempts => IntSyntax
    case CacheTTL | BatchTimeout | ConnMaxLifetime | ConnMaxIdleTime | RequestTimeout | RetryDelay => DurationSyntax
  }

  /** A setting's value, whatever its type. */
  datatype Value = Flag(b: bool) | Number(n: Int64)

  function Get(s: Settings, f: Field): Value {
    match f
    case CacheEnabled => Flag(s.cacheEnabled)
    case CacheTTL => Number(s.cacheTTL)
    case RateLimitEnabled => Flag(s.rateLimitEnabled)
    case RateLimitPerSecond => Number(s.rateLimitPerSecond)
    case RateLimitBurst => Number(s.rateLimitBurst)
    case BatchEnabled => Flag(s.batchEnabled)
    case BatchSize => Number(s.batchSize)
    case BatchTimeout => Number(s.batchTimeout)
    case MaxIdleConns => Number(s.maxIdleConns)
    case MaxOpenConns => Number(s.maxOpenConns)
    case ConnMaxLifetime => Number(s.connMaxLifetime)
    case ConnMaxIdleTime => Number(s.connMaxIdleTime)
    case RequestTimeout => Number(s.requestTimeout)
    case RetryAttempts => Number(s.retryAttempts)
    case RetryDelay => Number(s.retryDelay)
  }

  /** A variable's text read with the setting's own parser. */
  function ParsedAs(p: Parsers, f: Field, raw: string): Option<Value> {
    match SyntaxOf(f)
    case BoolSyntax => (match p.parseBool(raw) case Some(b) => Some(Flag(b)) case None => None)
    case IntSyntax => (match p.atoi(raw) case Some(n) => Some(Number(n)) case None => None)
    case DurationSyntax => (match p.parseDuration(raw) case Some(n) => Some(Number(n)) case None => None)
  }

  /** The value a setting is loaded with, from the environment, over `current`. */
  function Loaded(current: Value, env: map<string, string>, p: Parsers, f: Field): Value {
    var raw := Getenv(env, VarName(f));
    if raw != "" && ParsedAs(p, f, raw).Some? then ParsedAs(p, f, raw).value else current
  }

  /** The loader that reads each setting. */
  datatype Group = CacheGroup | RateLimitGroup | BatchGroup | ConnectionGroup | RequestGroup

  function GroupOf(f: Field): Group {
    match f
    case CacheEnabled | CacheTTL => CacheGroup
    case RateLimitEnabled | RateLimitPerSecond | RateLimitBurst => RateLimitGroup
    case BatchEnabled | BatchSize | BatchTimeout => BatchGroup
    case MaxIdleConns | MaxOpenConns | ConnMaxLifetime | ConnMaxIdleTime => ConnectionGroup
    case RequestTimeout | RetryAttempts | RetryDelay => RequestGroup
  }

  // Each loader loads its own group's settings and leaves every other setting as it was.

  lemma LoadCacheReadsOwnFields(s: Settings, env: map<string, string>, p: Parsers, f: Field)
    ensures Get(LoadCache(s, env, p), f) == if GroupOf(f) == CacheGroup then Loaded(Get(s, f), env, p, f) else Get(s, f)
  {
  }

  lemma LoadRateLimitReadsOwnFields(s: Settings, env: map<string, string>, p: Parsers, f: Field)
    ensures Get(LoadRateLimit(s, env, p), f) == if GroupOf(f) == RateLimitGroup then Loaded(Get(s, f), env, p, f) else Get(s, f)
  {
  }

  lemma LoadBatchReadsOwnFields(s: Settings, env: map<string, string>, p: Parsers, f: Field)
    ensures Get(LoadBatch(s, env, p), f) == if GroupOf(f) == BatchGroup then Loaded(Get(s, f), env, p, f) else Get(s, f)
  {
  }

  lemma LoadConnectionReadsOwnFields(s: Settings, env: map<string, string>, p: Parsers, f: Field)
    ensures Get(LoadConnection(s, env, p), f) == if GroupOf(f) == ConnectionGroup then Loaded(Get(s, f), env, p, f) else Get(s, f)
  {
  }

  lemma LoadRequestReadsOwnFields(s: Settings, env: map<string, string>, p: Parsers, f: Field)
    ensures Get(LoadRequest(s, env, p), f) == if GroupOf(f) == RequestGroup then Loaded(Get(s, f), env, p, f) else Get(s, f)
  {
  }

  /**
   * Every setting loaded from the environment is its default unless its own variable is set to
   * text its own parser accepts, in which case it is the parsed value.
   */
  lemma FromEnvReadsOwnVariable(env: map<string, string>, p: Parsers, f: Field)
    ensures Get(FromEnv(env, p), f) == Loaded(Get(Defaults, f), env, p, f)
  {
    var s1 := LoadCache(Defaults, env, p);
    var s2 := LoadRateLimit(s1, env, p);
    var s3 := LoadBatch(s2, env, p);
    var s4 := LoadConnection(s3, env, p);
    LoadCacheReadsOwnFields(Defaults, env, p, f);
    LoadRateLimitReadsOwnFields(s1, env, p, f);
    LoadBatchReadsOwnFields(s2, env, p, f);
    LoadConnectionReadsOwnFields(s3, env, p, f);
    LoadRequestReadsOwnFields(s4, env, p, f);
  }

  /** Two environments that agree on a setting's variable give that setting the same value. */
  lemma FromEnvFieldDependsOnlyOnItsVariable(env1: map<string, string>, env2: map<string, string>, p: Parsers, f: Field)
    requires Getenv(env1, VarName(f)) == Getenv(env2, VarName(f))
    ensures Get(FromEnv(env1, p), f) == Get(FromEnv(env2, p), f)
  {
    FromEnvReadsOwnVariable(env1, p, f);
    FromEnvReadsOwnVariable(env2, p, f);
  }

  /** With no variable set, the loaded settings are the defaults. */
  lemma EmptyEnvironmentGivesDefaults(p: Parsers)
    ensures FromEnv(map[], p) == Defaults
  {
    var r := FromEnv(map[], p);
    forall f: Field
      ensures Get(r, f) == Get(Defaults, f)
    {
      FromEnvReadsOwnVariable(map[], p, f);
    }
    assert Get(r, CacheTTL) == Get(Defaults, CacheTTL) && Get(r, CacheEnabled) == Get(Defaults, CacheEnabled);
    assert Get(r, RateLimitEnabled) == Get(Defaults, RateLimitEnabled);
    assert Get(r, RateLimitPerSecond) == Get(Defaults, RateLimitPerSecond) && Get(r, RateLimitBurst) == Get(Defaults, RateLimitBurst);
    assert Get(r, BatchEnabled) == Get(Defaults, BatchEnabled) && Get(r, BatchSize) == Get(Defaults, BatchSize);
    assert Get(r, BatchTimeout) == Get(Defaults, BatchTimeout) && Get(r, MaxIdleConns) == Get(Defaults, MaxIdleConns);
    assert Get(r, MaxOpenConns) == Get(Defaults, MaxOpenConns) && Get(r, ConnMaxLifetime) == Get(Defaults, ConnMaxLifetime);
    assert Get(r, ConnMaxIdleTime) == Get(Defaults, ConnMaxIdleTime) && Get(r, RequestTimeout) == Get(Defaults, RequestTimeout);
    assert Get(r, RetryAttempts) == Get(Defaults, RetryAttempts) && Get(r, RetryDelay) == Get(Defaults, RetryDelay);
  }

  // ---------------------------------------------------------------- the mutable config

  /**
   * PerformanceConfig, the struct the loaders and Validate update through a pointer. Its fifteen
   * fields are held as one Settings value, which each statement of the source updates in turn.
   */
  class PerformanceConfig {
    var settings: Settings

    /** DefaultPerformanceConfig. */
    constructor Default()
      ensures settings == Defaults
    {
      settings := Defaults;
    }

    /** loadCacheConfig. */
    method LoadCacheConfig(env: map<string, string>, p: Parsers)
      modifies this
      ensures settings == LoadCache(old(settings), env, p)
    {
      settings := settings.(cacheEnabled := Override(settings.cacheEnabled, Getenv(env, "SEVALLA_CACHE_ENABLED"), p.parseBool));
      settings := settings.(cacheTTL := Override(settings.cacheTTL, Getenv(env, "SEVALLA_CACHE_TTL"), p.parseDuration));
    }

    /** loadRateLimitConfig. */
    method LoadRateLimitConfig(env: map<string, string>, p: Parsers)
      modifies this
      ensures settings == LoadRateLimit(old(settings), env, p)
    {
      settings := settings.(rateLimitEnabled := Override(settings.rateLimitEnabled, Getenv(env, "SEVALLA_RATE_LIMIT_ENABLED"), p.parseBool));
      settings := settings.(rateLimitPerSecond := Override(settings.rateLimitPerSecond, Getenv(env, "SEVALLA_RATE_LIMIT_PER_SECOND"), p.atoi));
      settings := settings.(rateLimitBurst := Override(settings.rateLimitBurst, Getenv(env, "SEVALLA_RATE_LIMIT_BURST"), p.atoi));
    }

    /** loadBatchConfig. */
    method LoadBatchConfig(env: map<string, string>, p: Parsers)
      modifies this
      ensures settings == LoadBatch(old(settings), env, p)
    {
      settings := settings.(batchEnabled := Override(settings.batchEnabled, Getenv(env, "SEVALLA_BATCH_ENABLED"), p.parseBool));
      settings := settings.(batchSize := Override(settings.batchSize, Getenv(env, "SEVALLA_BATCH_SIZE"), p.atoi));
      settings := settings.(batchTimeout := Override(settings.batchTimeout, Getenv(env, "SEVALLA_BATCH_TIMEOUT"), p.parseDuration));
    }

    /** loadConnectionConfig. */
    method LoadConnectionConfig(env: map<string, string>, p: Parsers)
      modifies this
      ensures settings == LoadConnection(old(settings), env, p)
    {
      settings := settings.(maxIdleConns := Override(settings.maxIdleConns, Getenv(env, "SEVALLA_MAX_IDLE_CONNS"), p.atoi));
      settings := settings.(maxOpenConns := Override(settings.maxOpenConns, Getenv(env, "SEVALLA_MAX_OPEN_CONNS"), p.atoi));
      settings := settings.(connMaxLifetime := Override(settings.connMaxLifetime, Getenv(env, "SEVALLA_CONN_MAX_LIFETIME"), p.parseDuration));
      settings := settings.(connMaxIdleTime := Override(settings.connMaxIdleTime, Getenv(env, "SEVALLA_CONN_MAX_IDLE_TIME"), p.parseDuration));
    }

    /** loadRequestConfig. */
    method LoadRequestConfig(env: map<string, string>, p: Parsers)
      modifies this
      ensures settings == LoadRequest(old(settings), env, p)
    {
      settings := settings.(requestTimeout := Override(settings.requestTimeout, Getenv(env, "SEVALLA_REQUEST_TIMEOUT"), p.parseDuration));
      settings := settings.(retryAttempts := Override(settings.retryAttempts, Getenv(env, "SEVALLA_RETRY_ATTEMPTS"), p.atoi));
      settings := settings.(retryDelay := Override(settings.retryDelay, Getenv(env, "SEVALLA_RETRY_DELAY"), p.parseDuration));
    }

    /** Validate: repairs the settings in place, one setting at a time; it always returns a nil error. */
    method Validate() returns (err: Option<string>)
      modifies this
      ensures settings == Validated(old(settings))
      ensures err == None
    {
      settings := settings.(rateLimitPerSecond := PositiveOr(settings.rateLimitPerSecond, Defaults.rateLimitPerSecond));
      settings := settings.(rateLimitBurst := RepairedBurst(settings.rateLimitBurst, settings.rateLimitPerSecond));
      settings := settings.(batchSize := PositiveOr(settings.batchSize, Defaults.batchSize));
      settings := settings.(batchTimeout := PositiveOr(settings.batchTimeout, Defaults.batchTimeout));
      settings := settings.(maxIdleConns := PositiveOr(settings.maxIdleConns, Defaults.maxIdleConns));
      settings := settings.(maxOpenConns := PositiveOr(settings.maxOpenConns, Defaults.maxOpenConns));
      settings := settings.(connMaxLifetime := PositiveOr(settings.connMaxLifetime, Defaults.connMaxLifetime));
      settings := settings.(connMaxIdleTime := PositiveOr(settings.connMaxIdleTime, Defaults.connMaxIdleTime));
      settings := settings.(requestTimeout := PositiveOr(settings.requestTimeout, Defaults.requestTimeout));
      settings := settings.(retryAttempts := NonNegativeOr(settings.retryAttempts, Defaults.retryAttempts));
      settings := settings.(retryDelay := PositiveOr(settings.retryDelay, Defaults.retryDelay));
      settings := settings.(cacheTTL := PositiveOr(settings.cacheTTL, Defaults.cacheTTL));
      err := None;
    }
  }

  /** LoadPerformanceConfigFromEnv: a fresh default config with the five groups loaded in turn. */
  method LoadPerformanceConfigFromEnv(env: map<string, string>, p: Parsers) returns (config: PerformanceConfig)
    ensures fresh(config)
    ensures config.settings == FromEnv(env, p)
  {
    config := new PerformanceConfig.Default();
    config.LoadCacheConfig(env, p);
    config.LoadRateLimitConfig(env, p);
    config.LoadBatchConfig(env, p);
    config.LoadConnectionConfig(env, p);
    config.LoadRequestConfig(env, p);
  }
}
