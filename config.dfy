/** Application settings and the check run on them at start-up (app/core/config.py). */
module Config {
  import opened Wrappers
  import Strings

  const DefaultSecretKey: string := "change-me-in-production"

  datatype Settings = Settings(
    databaseUrl: string,
    secretKey: string,
    algorithm: string,
    accessTokenExpireMinutes: int,
    autoCreateTables: bool,
    environment: string,
    logLevel: string,
    redisUrl: Option<string>,
    jwtIssuer: string,
    jwtAudience: string,
    authRateLimitPerMinute: int,
    socialRateLimitPerMinute: int,
    jikanBaseUrl: string,
    externalApiTimeoutSeconds: int,
    externalCacheTtlSeconds: int,
    enableAnimeSyncJob: bool,
    animeSyncIntervalMinutes: int,
    externalApiMaxRetries: int,
    externalApiBackoffSeconds: real,
    enableRuntimeMigrations: bool,
    requireAlembicInProduction: bool)

  /** The values used when no environment variable overrides them. */
  function Defaults(): (s: Settings)
    ensures s.secretKey == DefaultSecretKey && s.environment == "development"
    ensures s.enableRuntimeMigrations && s.requireAlembicInProduction
    ensures s.externalApiMaxRetries == 3 && s.externalApiBackoffSeconds == 0.5
    ensures s.externalCacheTtlSeconds == 3600 && s.authRateLimitPerMinute == 30
  {
    Settings(
      databaseUrl := "sqlite:///./anime.db",
      secretKey := DefaultSecretKey,
      algorithm := "HS256",
      accessTokenExpireMinutes := 60,
      autoCreateTables := true,
      environment := "development",
      logLevel := "INFO",
      redisUrl := None,
      jwtIssuer := "anime-manager",
      jwtAudience := "anime-manager-users",
      authRateLimitPerMinute := 30,
      socialRateLimitPerMinute := 120,
      jikanBaseUrl := "https://api.jikan.moe/v4",
      externalApiTimeoutSeconds := 20,
      externalCacheTtlSeconds := 3600,
      enableAnimeSyncJob := false,
      animeSyncIntervalMinutes := 60,
      externalApiMaxRetries := 3,
      externalApiBackoffSeconds := 0.5,
      enableRuntimeMigrations := true,
      requireAlembicInProduction := true)
  }

  const SecretKeyError: string := "SECRET_KEY must be changed in production"
  const MigrationsError: string :=
    "Disable runtime migrations in production and use Alembic migrations"

  predicate IsProduction(s: Settings) {
    Strings.Lower(s.environment) == "production"
  }

  /**
   * `validate_security`: in production the default secret is refused first,
   * then runtime migrations while Alembic is required; any other settings
   * object is returned unchanged.
   */
  function ValidateSecurity(s: Settings): (r: Result<Settings, string>)
    ensures r.Ok? ==> r.value == s
    ensures !IsProduction(s) ==> r == Ok(s)
    ensures IsProduction(s) && s.secretKey == DefaultSecretKey ==> r == Err(SecretKeyError)
    ensures IsProduction(s) && s.secretKey != DefaultSecretKey ==>
      (r == Err(MigrationsError) <==> s.requireAlembicInProduction && s.enableRuntimeMigrations)
    ensures r.Err? <==>
      IsProduction(s) && (s.secretKey == DefaultSecretKey || (s.requireAlembicInProduction && s.enableRuntimeMigrations))
  {
    if IsProduction(s) && s.secretKey == DefaultSecretKey then Err(SecretKeyError)
    else if IsProduction(s) && s.requireAlembicInProduction && s.enableRuntimeMigrations then Err(MigrationsError)
    else Ok(s)
  }

  /** The defaults, deployed with ENVIRONMENT set to any casing of "production", fail on the secret. */
  lemma DefaultsFailInProduction(environment: string)
    requires Strings.Lower(environment) == "production"
    ensures ValidateSecurity(Defaults().(environment := environment)) == Err(SecretKeyError)
  {
  }

  /** With a changed secret, production still fails while both migration flags keep their defaults. */
  lemma ProductionNeedsMigrationFlagOff(secret: string)
    requires secret != DefaultSecretKey
    ensures ValidateSecurity(Defaults().(environment := "production", secretKey := secret)) == Err(MigrationsError)
    ensures ValidateSecurity(Defaults().(environment := "production", secretKey := secret,
                                         enableRuntimeMigrations := false)).Ok?
  {
    LowerProduction();
    var s := Defaults().(environment := "production", secretKey := secret);
    var t := Defaults().(environment := "production", secretKey := secret, enableRuntimeMigrations := false);
    assert IsProduction(s) && IsProduction(t);
    assert s.requireAlembicInProduction && s.enableRuntimeMigrations && !t.enableRuntimeMigrations;
  }

  lemma LowerProduction()
    ensures Strings.Lower("production") == "production"
  {
    var p := "production";
    assert forall i :: 0 <= i < |p| ==> Strings.LowerChar(p[i]) == p[i];
  }
}
