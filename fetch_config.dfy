/**
 * The key-fetch configuration data classes of the two library generations
 * and how the verifier hands them to the JWKS provider builder
 * (`JwkProviderBuilder(URL(url)).cached(...).rateLimited(...)`).
 */
module FetchConfig {
  import opened Kotlin

  datatype TimeUnit = NANOSECONDS | MICROSECONDS | MILLISECONDS | SECONDS | MINUTES | HOURS | DAYS

  /** How many nanoseconds one unit stands for. */
  function NanosPerUnit(u: TimeUnit): nat {
    match u
    case NANOSECONDS => 1
    case MICROSECONDS => 1_000
    case MILLISECONDS => 1_000_000
    case SECONDS => 1_000_000_000
    case MINUTES => 60_000_000_000
    case HOURS => 3_600_000_000_000
    case DAYS => 86_400_000_000_000
  }

  /** A `kotlin.time.Duration` (and the `java.time.Duration` it converts to), in nanoseconds. */
  datatype Duration = Duration(nanoseconds: int)

  /** `n.hours`. */
  function Hours(n: int): Duration {
    Duration(n * NanosPerUnit(HOURS))
  }

  /** The cache settings of the multiplatform library: size and a `Duration`. */
  datatype CacheConfig = CacheConfig(cacheSize: int, expiresIn: Duration)

  /** The rate-limit switch of the multiplatform library. */
  datatype RateLimitedConfig = RateLimitedConfig(enabled: bool)

  /** The cache settings of the earlier library: size, an amount and its unit. */
  datatype UnitCacheConfig = UnitCacheConfig(cacheSize: int, expiresIn: int, timeUnit: TimeUnit)

  /** The token-bucket settings of the earlier library. */
  datatype BucketRateLimitedConfig = BucketRateLimitedConfig(bucketSize: int, refillRate: int, timeUnit: TimeUnit)

  /** `FetchFirebaseAppCheckPublicKeyConfig`, in either generation's shape. */
  datatype FetchPublicKeyConfig =
    | DurationFetchConfig(cacheConfiguration: CacheConfig, rateLimitedConfig: RateLimitedConfig)
    | UnitFetchConfig(unitCacheConfiguration: UnitCacheConfig, bucketRateLimitedConfig: BucketRateLimitedConfig)

  const DefaultCacheConfig := CacheConfig(10, Hours(24))
  const DefaultRateLimitedConfig := RateLimitedConfig(true)
  /** `FetchFirebaseAppCheckPublicKeyConfig()` of the multiplatform library. */
  const DefaultDurationFetchConfig := DurationFetchConfig(DefaultCacheConfig, DefaultRateLimitedConfig)

  const DefaultUnitCacheConfig := UnitCacheConfig(10, 24, HOURS)
  const DefaultBucketRateLimitedConfig := BucketRateLimitedConfig(10, 1, MINUTES)
  /** `FetchFirebaseAppCheckPublicKeyConfig()` of the earlier library. */
  const DefaultUnitFetchConfig := UnitFetchConfig(DefaultUnitCacheConfig, DefaultBucketRateLimitedConfig)

  /** The `.cached(...)` call the builder receives. */
  datatype CachePolicy =
    | CachedFor(size: int, expiresIn: Duration)
    | CachedForUnits(size: int, amount: int, unit: TimeUnit)

  /** The `.rateLimited(...)` call the builder receives. */
  datatype RateLimitPolicy =
    | RateLimitedSwitch(enabled: bool)
    | RateLimitedBucket(bucketSize: int, refillRate: int, unit: TimeUnit)

  /** Everything the JWKS provider is built from. */
  datatype ProviderSettings = ProviderSettings(url: string, cache: CachePolicy, rateLimit: RateLimitPolicy)

  /** The provider the verifier builds for `url` and `config`, afresh on each fetch. */
  function ProviderSettingsFor(url: string, config: FetchPublicKeyConfig): (p: ProviderSettings)
    ensures p.url == url
    ensures config.DurationFetchConfig? <==> p.cache.CachedFor?
  {
    match config
    case DurationFetchConfig(cache, rateLimited) =>
      ProviderSettings(url, CachedFor(cache.cacheSize, cache.expiresIn), RateLimitedSwitch(rateLimited.enabled))
    case UnitFetchConfig(cache, bucket) =>
      ProviderSettings(url, CachedForUnits(cache.cacheSize, cache.expiresIn, cache.timeUnit),
                       RateLimitedBucket(bucket.bucketSize, bucket.refillRate, bucket.timeUnit))
  }

  /** Reads the configuration back from what the builder received. */
  function ConfigOf(p: ProviderSettings): Option<FetchPublicKeyConfig> {
    match (p.cache, p.rateLimit)
    case (CachedFor(size, d), RateLimitedSwitch(enabled)) =>
      Some(DurationFetchConfig(CacheConfig(size, d), RateLimitedConfig(enabled)))
    case (CachedForUnits(size, amount, unit), RateLimitedBucket(bucket, refill, refillUnit)) =>
      Some(UnitFetchConfig(UnitCacheConfig(size, amount, unit), BucketRateLimitedConfig(bucket, refill, refillUnit)))
    case _ => None
  }

  /** Nothing is lost on the way to the builder: every configured value reaches it. */
  lemma ProviderSettingsRoundTrip(url: string, config: FetchPublicKeyConfig)
    ensures ConfigOf(ProviderSettingsFor(url, config)) == Some(config)
  {
  }

  /** The cache lifetime the builder is asked for, in nanoseconds. */
  function CacheLifetime(c: CachePolicy): int {
    match c
    case CachedFor(_, d) => d.nanoseconds
    case CachedForUnits(_, amount, unit) => amount * NanosPerUnit(unit)
  }

  /**
   * Both generations' defaults ask for a cache of 10 keys kept for 24 hours;
   * the multiplatform one turns rate limiting on, the earlier one uses a
   * bucket of 10 refilled by 1 per minute.
   */
  lemma DefaultFetchConfigs(url: string)
    ensures var p := ProviderSettingsFor(url, DefaultDurationFetchConfig);
      p.cache.size == 10 && CacheLifetime(p.cache) == 86_400_000_000_000 && p.rateLimit == RateLimitedSwitch(true)
    ensures var q := ProviderSettingsFor(url, DefaultUnitFetchConfig);
      q.cache.size == 10 && CacheLifetime(q.cache) == 86_400_000_000_000 && q.rateLimit == RateLimitedBucket(10, 1, MINUTES)
  {
  }
}
