/** The data-source configuration of the service: which backend (H2 or
    Oracle) the connection pool is set up for, the pool's settings, and
    whether the backend's schema script is run at start-up. */
module Config {
  import opened Text
  import opened Wrappers

  datatype Backend = H2 | Oracle

  /** The schema scripts on the class path. */
  datatype Script = SchemaH2 | SchemaOracle

  function ScriptFile(script: Script): string {
    match script
    case SchemaH2 => "schema-h2.sql"
    case SchemaOracle => "schema-oracle.sql"
  }

  /** The script each backend's initialisation loads. */
  function ScriptFor(backend: Backend): Script {
    match backend
    case H2 => SchemaH2
    case Oracle => SchemaOracle
  }

  /** H2 loads "schema-h2.sql" and Oracle "schema-oracle.sql": each backend
      has its own script file, and the two never coincide. */
  lemma ScriptFileFor(backend: Backend)
    ensures ScriptFile(ScriptFor(backend)) == if backend == H2 then "schema-h2.sql" else "schema-oracle.sql"
    ensures forall other: Backend :: other != backend ==> ScriptFile(ScriptFor(other)) != ScriptFile(ScriptFor(backend))
  {
  }

  /** The injected configuration properties. Integer properties are kept
      unbounded; `connectionTimeout` is a Java long. */
  datatype Settings = Settings(
    dbType: string,
    oracleUrl: string,
    oracleUsername: string,
    oraclePassword: string,
    oracleAutoInit: bool,
    h2FilePath: string,
    h2AutoInit: bool,
    h2Username: string,
    h2Password: string,
    maxPoolSize: int,
    minIdle: int,
    connectionTimeout: int)

  /** The value every property takes when it is not configured. */
  const DefaultSettings := Settings(
    dbType := "oracle",
    oracleUrl := "",
    oracleUsername := "",
    oraclePassword := "",
    oracleAutoInit := false,
    h2FilePath := "./data/ptlog",
    h2AutoInit := true,
    h2Username := "sa",
    h2Password := "",
    maxPoolSize := 10,
    minIdle := 2,
    connectionTimeout := 30000)

  const IdleTimeout := 600000
  const MaxLifetime := 1800000

  /** `"h2".equalsIgnoreCase(dbType)`. */
  predicate IsH2(dbType: string) {
    EqualsIgnoreCase("h2", dbType)
  }

  /** `"oracle".equalsIgnoreCase(dbType)`. */
  predicate IsOracle(dbType: string) {
    EqualsIgnoreCase("oracle", dbType)
  }

  /** The two spellings the H2 test accepts are exactly "h2" and "H2". */
  lemma IsH2Spellings(dbType: string)
    ensures IsH2(dbType) <==> dbType == "h2" || dbType == "H2"
  {
  }

  /** The Oracle test accepts every string that lower-cases, letter by
      letter, to "oracle", and nothing that names H2. */
  lemma IsOracleSpellings(dbType: string)
    ensures IsOracle(dbType) <==> |dbType| == 6 && forall i :: 0 <= i < 6 ==> ToLowerAscii(dbType[i]) == "oracle"[i]
    ensures !(IsOracle(dbType) && IsH2(dbType))
  {
  }

  /** The backend `dataSource()` configures: H2 for "h2" in any letter case,
      Oracle for everything else. */
  function SelectBackend(dbType: string): (b: Backend)
    ensures b == H2 <==> dbType == "h2" || dbType == "H2"
  {
    if IsH2(dbType) then H2 else Oracle
  }

  /** The backend whose schema initialisation `dataSource()` runs, if any. */
  function InitTarget(settings: Settings): (r: Option<Backend>)
    ensures r.Some? ==> r.value == SelectBackend(settings.dbType)
    ensures settings.dbType == "oracle" ==> r == if settings.oracleAutoInit then Some(Oracle) else None
  {
    if IsH2(settings.dbType) && settings.h2AutoInit then Some(H2)
    else if IsOracle(settings.dbType) && settings.oracleAutoInit then Some(Oracle)
    else None
  }

  /** Initialisation is attempted exactly when the backend's name and its own
      auto-init flag both say so, and always for the backend that was
      configured. A dbType that is neither name configures Oracle and never
      initialises anything. */
  lemma InitTargetRule(settings: Settings)
    ensures InitTarget(settings).Some? <==>
      (IsH2(settings.dbType) && settings.h2AutoInit) || (IsOracle(settings.dbType) && settings.oracleAutoInit)
    ensures InitTarget(settings).Some? ==> InitTarget(settings).value == SelectBackend(settings.dbType)
    ensures !IsH2(settings.dbType) && !IsOracle(settings.dbType) ==>
      SelectBackend(settings.dbType) == Oracle && InitTarget(settings) == None
  {
  }

  /** Left unconfigured, the service uses Oracle and runs no schema script. */
  lemma DefaultsUseOracleWithoutInit()
    ensures SelectBackend(DefaultSettings.dbType) == Oracle
    ensures InitTarget(DefaultSettings) == None
  {
  }

  const H2UrlPrefix := "jdbc:h2:file:"
  const H2UrlOptions := ";MODE=Oracle;AUTO_SERVER=TRUE;DB_CLOSE_DELAY=-1"

  /** The JDBC URL `configureH2` builds from the database file path. */
  function H2Url(h2FilePath: string): (url: string)
    ensures H2FilePathOf(url) == Some(h2FilePath)
  {
    H2UrlPrefix + h2FilePath + H2UrlOptions
  }

  /** The file path inside an H2 URL of that shape, if it has the shape. */
  function H2FilePathOf(url: string): Option<string> {
    if |url| >= |H2UrlPrefix| + |H2UrlOptions|
       && url[..|H2UrlPrefix|] == H2UrlPrefix
       && url[|url| - |H2UrlOptions|..] == H2UrlOptions
    then Some(url[|H2UrlPrefix|..|url| - |H2UrlOptions|])
    else None
  }

  /** The URL holds the file path verbatim between the fixed prefix and the
      fixed options, and every URL of that shape comes from its path. */
  lemma H2UrlRoundTrip(h2FilePath: string, url: string)
    ensures H2FilePathOf(H2Url(h2FilePath)) == Some(h2FilePath)
    ensures H2FilePathOf(url) == Some(h2FilePath) ==> H2Url(h2FilePath) == url
  {
  }

  /** What the table-existence query in `schemaExists` produced: an
      exception, a result without rows, or a first row with its count. */
  datatype ProbeResult = ProbeThrows | NoRow | FirstRow(count: int)

  /** `schemaExists`: the first row's count is positive. */
  predicate SchemaExists(probe: ProbeResult)
    ensures probe.ProbeThrows? || probe.NoRow? ==> !SchemaExists(probe)
    ensures SchemaExists(probe) ==> probe.count >= 1
  {
    probe.FirstRow? && probe.count > 0
  }

  /** The scripts one start-up runs, given whether the init method obtains
      its connection and what the existence probe produced. */
  function ScriptsRun(settings: Settings, connects: bool, probe: ProbeResult): (r: seq<Script>)
    ensures |r| <= 1
    ensures forall s :: s in r ==> s == ScriptFor(SelectBackend(settings.dbType))
    ensures !connects ==> r == []
  {
    match InitTarget(settings)
    case None => []
    case Some(backend) => if connects && !SchemaExists(probe) then [ScriptFor(backend)] else []
  }

  /** At most one script runs per start-up, and one runs exactly when
      initialisation is due, a connection is obtained and the probe did not
      find the table (a failing probe counts as "absent"); it is always the
      script of the configured backend. */
  lemma ScriptsRunRule(settings: Settings, connects: bool, probe: ProbeResult)
    ensures |ScriptsRun(settings, connects, probe)| <= 1
    ensures ScriptsRun(settings, connects, probe) != [] <==>
      InitTarget(settings).Some? && connects && !(probe.FirstRow? && probe.count > 0)
    ensures ScriptsRun(settings, connects, probe) != [] ==>
      ScriptsRun(settings, connects, probe) == [ScriptFor(SelectBackend(settings.dbType))]
    ensures probe.ProbeThrows? && connects && InitTarget(settings).Some? ==> ScriptsRun(settings, connects, probe) != []
  {
  }

  /** The pool configuration object the settings are written into. */
  class HikariConfig {
    var jdbcUrl: string
    var username: string
    var password: string
    var driverClassName: string
    var maximumPoolSize: int
    var minimumIdle: int
    var connectionTimeout: int
    var idleTimeout: int
    var maxLifetime: int
    var dataSourceProperties: map<string, string>

    constructor ()
      ensures dataSourceProperties == map[]
    {
      jdbcUrl, username, password, driverClassName := "", "", "", "";
      maximumPoolSize, minimumIdle, connectionTimeout, idleTimeout, maxLifetime := 0, 0, 0, 0, 0;
      dataSourceProperties := map[];
    }
  }

  /** The configuration bean, with the scripts its start-up has run so far. */
  class DatabaseConfig {
    const settings: Settings
    var scriptsRun: seq<Script>

    constructor (settings: Settings)
      ensures this.settings == settings && scriptsRun == []
    {
      this.settings := settings;
      scriptsRun := [];
    }

    /** `dataSource()`: configure the pool for the selected backend, apply
        the common pool settings, then run the schema initialisation the
        settings call for. `connects` says whether that initialisation gets
        a connection and `probe` what its existence query produced; its
        failures are swallowed and the pool is returned regardless. */
    method DataSource(connects: bool, probe: ProbeResult) returns (config: HikariConfig)
      modifies this
      ensures fresh(config)
      ensures SelectBackend(settings.dbType) == H2 ==>
        && config.jdbcUrl == H2Url(settings.h2FilePath)
        && config.username == settings.h2Username
        && config.password == settings.h2Password
        && config.driverClassName == "org.h2.Driver"
      ensures SelectBackend(settings.dbType) == Oracle ==>
        && config.jdbcUrl == settings.oracleUrl
        && config.username == settings.oracleUsername
        && config.password == settings.oraclePassword
        && config.driverClassName == "oracle.jdbc.OracleDriver"
      ensures config.maximumPoolSize == settings.maxPoolSize
      ensures config.minimumIdle == settings.minIdle
      ensures config.connectionTimeout == settings.connectionTimeout
      ensures config.idleTimeout == IdleTimeout && config.maxLifetime == MaxLifetime
      ensures config.dataSourceProperties
           == map["cachePrepStmts" := "true", "prepStmtCacheSize" := "250", "prepStmtCacheSqlLimit" := "2048"]
      ensures scriptsRun == old(scriptsRun) + ScriptsRun(settings, connects, probe)
    {
      config := new HikariConfig();
      if IsH2(settings.dbType) {
        ConfigureH2(config);
      } else {
        ConfigureOracle(config);
      }

      config.maximumPoolSize := settings.maxPoolSize;
      config.minimumIdle := settings.minIdle;
      config.connectionTimeout := settings.connectionTimeout;
      config.idleTimeout := IdleTimeout;
      config.maxLifetime := MaxLifetime;

      config.dataSourceProperties := config.dataSourceProperties["cachePrepStmts" := "true"];
      config.dataSourceProperties := config.dataSourceProperties["prepStmtCacheSize" := "250"];
      config.dataSourceProperties := config.dataSourceProperties["prepStmtCacheSqlLimit" := "2048"];

      if IsH2(settings.dbType) && settings.h2AutoInit {
        InitializeSchema(H2, connects, probe);
      } else if IsOracle(settings.dbType) && settings.oracleAutoInit {
        InitializeSchema(Oracle, connects, probe);
      }
    }

    /** `configureH2`. */
    method ConfigureH2(config: HikariConfig)
      modifies config
      ensures config.jdbcUrl == H2Url(settings.h2FilePath)
      ensures config.username == settings.h2Username && config.password == settings.h2Password
      ensures config.driverClassName == "org.h2.Driver"
      ensures config.dataSourceProperties == old(config.dataSourceProperties)
      ensures config.maximumPoolSize == old(config.maximumPoolSize) && config.minimumIdle == old(config.minimumIdle)
      ensures config.connectionTimeout == old(config.connectionTimeout)
      ensures config.idleTimeout == old(config.idleTimeout) && config.maxLifetime == old(config.maxLifetime)
    {
      var url := H2UrlPrefix + settings.h2FilePath + H2UrlOptions;
      config.jdbcUrl := url;
      config.username := settings.h2Username;
      config.password := settings.h2Password;
      config.driverClassName := "org.h2.Driver";
    }

    /** `configureOracle`. */
    method ConfigureOracle(config: HikariConfig)
      modifies config
      ensures config.jdbcUrl == settings.oracleUrl
      ensures config.username == settings.oracleUsername && config.password == settings.oraclePassword
      ensures config.driverClassName == "oracle.jdbc.OracleDriver"
      ensures config.dataSourceProperties == old(config.dataSourceProperties)
      ensures config.maximumPoolSize == old(config.maximumPoolSize) && config.minimumIdle == old(config.minimumIdle)
      ensures config.connectionTimeout == old(config.connectionTimeout)
      ensures config.idleTimeout == old(config.idleTimeout) && config.maxLifetime == old(config.maxLifetime)
    {
      config.jdbcUrl := settings.oracleUrl;
      config.username := settings.oracleUsername;
      config.password := settings.oraclePassword;
      config.driverClassName := "oracle.jdbc.OracleDriver";
    }

    /** `initializeH2Schema` / `initializeOracleSchema`: skip when the
        connection cannot be had or the table exists, else run the backend's
        script once. */
    method InitializeSchema(backend: Backend, connects: bool, probe: ProbeResult)
      modifies this
      ensures scriptsRun == old(scriptsRun) + (if connects && !SchemaExists(probe) then [ScriptFor(backend)] else [])
    {
      if !connects {
        return;
      }
      if SchemaExists(probe) {
        return;
      }
      scriptsRun := scriptsRun + [ScriptFor(backend)];
    }
  }
}
