/**
  The production database URL: Heroku hands out `postgres://` URLs, which
  SQLAlchemy only accepts as `postgresql://`. The `DATABASE_URL` environment
  variable is an input (`None` when unset); `create_engine` is left out and the
  engine is represented by the settings it would receive.
*/
module Production {
  import opened Wrappers

  const HerokuScheme: string := "postgres://"
  const SqlAlchemyScheme: string := "postgresql://"

  predicate StartsWith(s: string, prefix: string)
  {
    |prefix| <= |s| && s[..|prefix|] == prefix
  }

  /** `target` occurs somewhere in `s`. */
  predicate Occurs(s: string, target: string)
    decreases |s|
  {
    |target| <= |s| && (s[..|target|] == target || (|s| > 0 && Occurs(s[1..], target)))
  }

  /**
    Python's `s.replace(target, replacement, 1)` for a non-empty `target`: the
    first occurrence, if any, is replaced. A leading occurrence gives
    `replacement` followed by the rest; without an occurrence `s` is unchanged;
    with one, the length changes by the difference of the two lengths.
  */
  function ReplaceFirst(s: string, target: string, replacement: string): (r: string)
    requires |target| > 0
    ensures StartsWith(s, target) ==> r == replacement + s[|target|..]
    ensures !Occurs(s, target) ==> r == s
    ensures Occurs(s, target) ==> |r| == |s| - |target| + |replacement|
    decreases |s|
  {
    if |s| < |target| then s
    else if s[..|target|] == target then replacement + s[|target|..]
    else [s[0]] + ReplaceFirst(s[1..], target, replacement)
  }

  /**
    `get_production_db_url`: `None` when the variable is unset; a URL with the
    Heroku scheme gets the SQLAlchemy scheme, its remainder kept as it is (only
    the leading occurrence is replaced); any other URL is returned unchanged.
  */
  function GetProductionDbUrl(env: Option<string>): (r: Option<string>)
    ensures env.None? <==> r.None?
    ensures env.Some? && StartsWith(env.value, HerokuScheme) ==>
      r == Some(SqlAlchemyScheme + env.value[|HerokuScheme|..])
    ensures env.Some? && !StartsWith(env.value, HerokuScheme) ==> r == env
    ensures r.Some? ==> !StartsWith(r.value, HerokuScheme)
  {
    match env
    case None => None
    case Some(dbUrl) =>
      if StartsWith(dbUrl, HerokuScheme) then
        assert SqlAlchemyScheme[..|HerokuScheme|] != HerokuScheme by {
          assert SqlAlchemyScheme[8] != HerokuScheme[8];
        }
        Some(ReplaceFirst(dbUrl, HerokuScheme, SqlAlchemyScheme))
      else Some(dbUrl)
  }

  /** Rewriting twice is rewriting once. */
  lemma RewriteIdempotent(env: Option<string>)
    ensures GetProductionDbUrl(GetProductionDbUrl(env)) == GetProductionDbUrl(env)
  {
  }

  /** The settings `create_engine` receives. */
  datatype EngineConfig = EngineConfig(url: string, poolPrePing: bool, poolRecycle: int)

  /** The error raised when no URL is configured. */
  datatype ConfigError = ValueError(message: string)

  /**
    `create_production_engine`: an unset or empty URL (both falsy in Python) is
    refused; otherwise the engine is built on the rewritten URL.
  */
  function CreateProductionEngine(env: Option<string>): (r: Result<EngineConfig, ConfigError>)
    ensures r.Failure? <==> env.None? || env.value == ""
    ensures r.Failure? ==> r.error == ValueError("DATABASE_URL environment variable is required")
    ensures r.Success? ==>
      && Some(r.value.url) == GetProductionDbUrl(env)
      && r.value.poolPrePing && r.value.poolRecycle == 300
  {
    var dbUrl := GetProductionDbUrl(env);
    if dbUrl.None? || dbUrl.value == "" then
      Failure(ValueError("DATABASE_URL environment variable is required"))
    else
      Success(EngineConfig(dbUrl.value, true, 300))
  }
}
