/** The configuration classes of `config.py`, evaluated against an explicit
    environment instead of `os.environ`, and the database connection target
    that `DatabaseManager` derives from them. */
module Config {
  import opened Outcomes
  import opened Text

  /** The process environment. */
  type Env = map<string, string>

  /** `os.environ.get(key)`. */
  function EnvGet(env: Env, key: string): Option<string> {
    if key in env then Some(env[key]) else None
  }

  const PostgresScheme: string := "postgres://"
  const PostgresqlScheme: string := "postgresql://"
  const SqliteScheme: string := "sqlite:///"
  const DefaultSecretKey: string := "dev-key-change-in-production"

  /** `os.environ.get('FLASK_ENV', 'production')`. */
  function FlaskEnv(env: Env): string {
    EnvGet(env, "FLASK_ENV").GetOr("production")
  }

  /** The class attribute `DATABASE_URL`: the environment's value, with a
      leading `postgres://` rewritten once to `postgresql://`. */
  function DatabaseUrlSetting(url: Option<string>): (r: Option<string>)
    ensures url.Some? && StartsWith(url.value, PostgresScheme) ==>
              r == Some(PostgresqlScheme + url.value[|PostgresScheme|..])
    ensures !(url.Some? && StartsWith(url.value, PostgresScheme)) ==> r == url
    ensures r.Some? ==> !StartsWith(r.value, PostgresScheme)
  {
    if url.Some? && url.value != "" && StartsWith(url.value, PostgresScheme) then
      var rewritten := ReplaceFirst(url.value, PostgresScheme, PostgresqlScheme);
      assert rewritten[8] != PostgresScheme[8];
      Some(rewritten)
    else url
  }

  /** Applying the rewrite to its own output changes nothing. */
  lemma DatabaseUrlSettingIdempotent(url: Option<string>)
    ensures DatabaseUrlSetting(DatabaseUrlSetting(url)) == DatabaseUrlSetting(url)
  {
  }

  /** The classes of `config.py`. */
  datatype ConfigClass = BaseConfig | DevelopmentConfig | ProductionConfig

  /** The class attributes the model tracks. */
  datatype Settings = Settings(
    secretKey: string,
    flaskEnv: string,
    debug: bool,
    sessionCookieSecure: bool,
    databaseUrl: Option<string>)

  /** The attributes of `cls` when the module is imported under `env`;
      the subclasses override some of `Config`'s and inherit the rest. */
  function SettingsOf(cls: ConfigClass, env: Env): (s: Settings)
    ensures cls == BaseConfig ==> (s.debug <==> FlaskEnv(env) == "development")
    ensures cls == BaseConfig ==> (s.sessionCookieSecure <==> FlaskEnv(env) == "production")
    ensures cls == ProductionConfig ==> !s.debug && s.sessionCookieSecure && s.flaskEnv == "production"
    ensures cls == DevelopmentConfig ==> s.debug && s.flaskEnv == "development"
    ensures s.secretKey != ""
  {
    var secret := EnvGet(env, "SECRET_KEY");
    var base := Settings(
      if secret.Some? && secret.value != "" then secret.value else DefaultSecretKey,
      FlaskEnv(env),
      FlaskEnv(env) == "development",
      FlaskEnv(env) == "production",
      DatabaseUrlSetting(EnvGet(env, "DATABASE_URL")));
    match cls
    case BaseConfig => base
    case DevelopmentConfig => base.(debug := true, flaskEnv := "development")
    case ProductionConfig => base.(debug := false, flaskEnv := "production", sessionCookieSecure := true)
  }

  /** In the base configuration debug mode and secure-only session cookies
      exclude each other. */
  lemma BaseDebugExcludesSecureCookie(env: Env)
    ensures !(SettingsOf(BaseConfig, env).debug && SettingsOf(BaseConfig, env).sessionCookieSecure)
  {
  }

  /** `DevelopmentConfig` overrides `DEBUG` and `FLASK_ENV` but inherits
      `SESSION_COOKIE_SECURE` computed from the environment, so with
      `FLASK_ENV` unset it runs in debug mode with secure-only cookies. */
  lemma DevelopmentInheritsCookieFlag(env: Env)
    ensures SettingsOf(DevelopmentConfig, env).sessionCookieSecure <==> FlaskEnv(env) == "production"
    ensures "FLASK_ENV" !in env ==>
              SettingsOf(DevelopmentConfig, env).debug && SettingsOf(DevelopmentConfig, env).sessionCookieSecure
  {
  }

  /** `Config.is_production()`: a `DATABASE_URL` is set, even an empty one. */
  predicate IsProduction(env: Env): (b: bool)
    ensures b <==> EnvGet(env, "DATABASE_URL").Some?
    ensures EnvGet(env, "DATABASE_URL") == Some("") ==> b
  {
    "DATABASE_URL" in env
  }

  /** The URL a PostgreSQL connection uses for the environment's raw
      `DATABASE_URL`, stated without the rewrite function: a leading
      `postgres://` becomes `postgresql://`, anything else is kept. */
  ghost function ProductionUrl(raw: string): string {
    if StartsWith(raw, PostgresScheme) then PostgresqlScheme + raw[|PostgresScheme|..] else raw
  }

  /** `Config.get_database_url()`, with `SQLITE_DB_PATH` rendered as `sqlitePath`. */
  function DatabaseUrl(env: Env, sqlitePath: string): (url: string)
    ensures IsProduction(env) ==> url == ProductionUrl(env["DATABASE_URL"])
    ensures !IsProduction(env) ==> StartsWith(url, SqliteScheme) && url[|SqliteScheme|..] == sqlitePath
  {
    if IsProduction(env) then DatabaseUrlSetting(EnvGet(env, "DATABASE_URL")).value
    else SqliteScheme + sqlitePath
  }

  /** The file name `DatabaseManager.get_connection` hands to
      `sqlite3.connect`: every `sqlite:///` removed from the URL. */
  function SqlitePathOf(url: string): (path: string)
    ensures !Contains(url, SqliteScheme) ==> path == url
    ensures |path| <= |url|
    ensures Contains(url, SqliteScheme) ==> |path| < |url|
  {
    RemovingShortens(url, SqliteScheme);
    ReplaceAll(url, SqliteScheme, "")
  }

  lemma {:induction false} RemovingShortens(s: string, p: string)
    requires |p| > 0
    ensures |ReplaceAll(s, p, "")| <= |s|
    ensures Contains(s, p) ==> |ReplaceAll(s, p, "")| < |s|
    decreases |s|
  {
    if StartsWith(s, p) {
      RemovingShortens(s[|p|..], p);
    } else if |s| > 0 {
      RemovingShortens(s[1..], p);
    }
  }

  /** Outside production, stripping the scheme from the URL that
      `get_database_url` built gives back the configured path exactly when
      the path does not itself contain `sqlite:///`. */
  lemma SqlitePathRoundTrip(env: Env, sqlitePath: string)
    requires !IsProduction(env)
    ensures SqlitePathOf(DatabaseUrl(env, sqlitePath)) == sqlitePath
        <==> !Contains(sqlitePath, SqliteScheme)
  {
    var url := SqliteScheme + sqlitePath;
    assert StartsWith(url, SqliteScheme);
    assert url[|SqliteScheme|..] == sqlitePath;
    RemovingShortens(sqlitePath, SqliteScheme);
  }

  /** Where `DatabaseManager` connects. */
  datatype Connection = PostgresServer(url: string) | SqliteFile(path: string)

  /** `DatabaseManager.__init__` and `get_connection`: PostgreSQL at the
      configured URL when `DATABASE_URL` is set, otherwise the SQLite file
      named by the URL. */
  function ConnectionTarget(env: Env, sqlitePath: string): (c: Connection)
    ensures IsProduction(env) <==> c.PostgresServer?
    ensures IsProduction(env) ==> !StartsWith(c.url, PostgresScheme)
    ensures IsProduction(env) ==> c.url == ProductionUrl(env["DATABASE_URL"])
    ensures !IsProduction(env) && !Contains(sqlitePath, SqliteScheme) ==> c == SqliteFile(sqlitePath)
  {
    if IsProduction(env) then
      PostgresServer(SettingsOf(BaseConfig, env).databaseUrl.value)
    else
      SqlitePathRoundTrip(env, sqlitePath);
      SqliteFile(SqlitePathOf(DatabaseUrl(env, sqlitePath)))
  }

  const ConfigTable: map<string, ConfigClass> := map[
    "development" := DevelopmentConfig,
    "production" := ProductionConfig,
    "default" := ProductionConfig]

  /** `get_config(config_name)`: a missing name falls back to `FLASK_ENV`
      (itself defaulting to `production`); unknown names get `ProductionConfig`. */
  function GetConfig(name: Option<string>, env: Env): (c: ConfigClass)
    ensures c != BaseConfig
    ensures c == DevelopmentConfig <==> name.GetOr(FlaskEnv(env)) == "development"
    ensures name.None? && "FLASK_ENV" !in env ==> c == ProductionConfig
  {
    var key := if name.None? then FlaskEnv(env) else name.value;
    if key in ConfigTable then ConfigTable[key] else ProductionConfig
  }
}
