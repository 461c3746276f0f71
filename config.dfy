/**
 * `Config` (config.go): the default settings, the guard chain that
 * validates a configuration, and the branch of `LoadConfig` that needs no
 * file.
 */
module Config {
  import opened Wrappers

  datatype DatabaseConfig = DatabaseConfig(
    host: string, port: int, database: string,
    username: string, password: string, charset: string)

  datatype PathsConfig = PathsConfig(baseDir: string, darmsDir: string, outputDir: string, tempDir: string)

  datatype SqlConfig = SqlConfig(encoding: string, batchSize: int, useTransaction: bool, useIgnore: bool)

  datatype LoggingConfig = LoggingConfig(level: string, format: string, outputFile: string)

  datatype Config = Config(database: DatabaseConfig, paths: PathsConfig, sql: SqlConfig, logging: LoggingConfig)

  /** The errors `ValidateConfig` returns, one per guard; the level error quotes the offending level. */
  datatype ConfigError =
    | EmptyBaseDir
    | EmptyDarmsDir
    | EmptyOutputDir
    | EmptyHost
    | NonPositivePort
    | EmptyDatabaseName
    | NonPositiveBatchSize
    | InvalidLevel(level: string)

  /** The keys of `validLevels`, lines 165-171. */
  const ValidLevels: set<string> := {"debug", "info", "warning", "error", "fatal"}

  /** Whether the guard that reports `e` rejects `c`. */
  predicate Fails(c: Config, e: ConfigError) {
    match e
    case EmptyBaseDir => c.paths.baseDir == ""
    case EmptyDarmsDir => c.paths.darmsDir == ""
    case EmptyOutputDir => c.paths.outputDir == ""
    case EmptyHost => c.database.host == ""
    case NonPositivePort => c.database.port <= 0
    case EmptyDatabaseName => c.database.database == ""
    case NonPositiveBatchSize => c.sql.batchSize <= 0
    case InvalidLevel(level) => level == c.logging.level && level !in ValidLevels
  }

  /** The position of each guard in the chain. */
  function Rank(e: ConfigError): nat {
    match e
    case EmptyBaseDir => 0
    case EmptyDarmsDir => 1
    case EmptyOutputDir => 2
    case EmptyHost => 3
    case NonPositivePort => 4
    case EmptyDatabaseName => 5
    case NonPositiveBatchSize => 6
    case InvalidLevel(_) => 7
  }

  /**
   * `ValidateConfig`, lines 132-178: `None` exactly when no guard fails,
   * otherwise the error of the first guard, in source order, that fails.
   */
  function ValidateConfig(c: Config): (r: Option<ConfigError>)
    ensures r.None? ==> forall e :: !Fails(c, e)
    ensures r.Some? ==> Fails(c, r.value) && forall e :: Rank(e) < Rank(r.value) ==> !Fails(c, e)
  {
    if c.paths.baseDir == "" then Some(EmptyBaseDir)
    else if c.paths.darmsDir == "" then Some(EmptyDarmsDir)
    else if c.paths.outputDir == "" then Some(EmptyOutputDir)
    else if c.database.host == "" then Some(EmptyHost)
    else if c.database.port <= 0 then Some(NonPositivePort)
    else if c.database.database == "" then Some(EmptyDatabaseName)
    else if c.sql.batchSize <= 0 then Some(NonPositiveBatchSize)
    else if c.logging.level !in ValidLevels then Some(InvalidLevel(c.logging.level))
    else None
  }

  /** `DefaultConfig`, lines 52-80; the defaults pass validation. */
  function DefaultConfig(): (c: Config)
    ensures ValidateConfig(c) == None
    ensures c.database.port == 3306 && c.sql.batchSize == 100 && c.logging.level == "info"
  {
    Config(
      DatabaseConfig("localhost", 3306, "silfae", "root", "", "latin1"),
      PathsConfig(".", "darms", "inserts", "temp"),
      SqlConfig("latin1", 100, true, true),
      LoggingConfig("info", "text", ""))
  }

  /**
   * `LoadConfig`, lines 83-107. Reading and decoding the file is not
   * modelled: `fromFile` is what those steps produce for a non-empty path.
   */
  function LoadConfig(path: string, fromFile: Result<Config, string>): (r: Result<Config, string>)
    ensures path == "" ==> r == Ok(DefaultConfig()) && ValidateConfig(r.value) == None
    ensures path != "" ==> r == fromFile
  {
    if path == "" then Ok(DefaultConfig()) else fromFile
  }

  /**
   * The individual rules: each emptiness or positivity guard alone rejects,
   * even when everything else is valid, and a level is accepted exactly
   * when it is one of the five names.
   */
  lemma RejectionRules(c: Config)
    ensures c.paths.baseDir == "" || c.paths.darmsDir == "" || c.paths.outputDir == "" ==> ValidateConfig(c).Some?
    ensures c.database.host == "" || c.database.port <= 0 || c.database.database == "" ==> ValidateConfig(c).Some?
    ensures c.sql.batchSize <= 0 ==> ValidateConfig(c).Some?
    ensures c.logging.level !in ValidLevels ==> ValidateConfig(c).Some?
    ensures ValidateConfig(c) == None <==>
      c.paths.baseDir != "" && c.paths.darmsDir != "" && c.paths.outputDir != ""
      && c.database.host != "" && c.database.port > 0 && c.database.database != ""
      && c.sql.batchSize > 0 && c.logging.level in ValidLevels
  {
    if c.logging.level !in ValidLevels {
      assert Fails(c, InvalidLevel(c.logging.level));
    }
  }

  /** A missing directory is reported before any database problem, which is reported before a bad level. */
  lemma ExampleOrder()
    ensures ValidateConfig(DefaultConfig().(paths := PathsConfig(".", "", "", "temp"))) == Some(EmptyDarmsDir)
    ensures ValidateConfig(DefaultConfig().(database := DefaultConfig().database.(port := 0),
                                            logging := LoggingConfig("verbose", "text", ""))) == Some(NonPositivePort)
    ensures ValidateConfig(DefaultConfig().(logging := LoggingConfig("verbose", "text", ""))) == Some(InvalidLevel("verbose"))
  {
  }
}
