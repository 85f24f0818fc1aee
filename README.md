# PT-Log core in Dafny

PT-Log is a small REST service that records performance-test runs. Each
project owns a series of test-log rows in the `PTLOG` table. When a row is
inserted, the service gives it a name `<NN>_<PREFIX>_<Testnamn>`:

- `NN` is one more than the project's current row count, zero-padded to two
  digits;
- `PREFIX` is a three-letter code for the test type;
- `Testnamn` is the name the caller supplied.

The service runs against Oracle or an embedded H2 database. At start-up it
may run a schema script for the chosen backend.

This project models two parts of the service and proves properties of them:

- **`PtLog` (`ptlog.dfy`)** covers the handlers `createProject`,
  `countRowsForProject`, `insertLog` and `updateAnalys`, and the
  required-field check `getRequiredField`.
  - The two tables, `PTLOG` and the `NAMN` column of `PTLOG_PROJEKT`, are
    `seq` fields of the class `Tables`. Each handler is a method that changes
    those fields the way its SQL statement does.
  - The pure parts are functions: the `%02d` ordinal, the type `switch`, the
    assembled test name and the field check.
  - Proved properties:
    - the name reads back as its ordinal and Testnamn;
    - type prefixes follow a fixed table;
    - the update touches exactly the matching rows;
    - an insert raises one project's count by one;
    - under sequential access, each row's ordinal is one more than the number
      of earlier rows of its project, so names are unique within a project.
- **`Config` (`database_config.dfy`)** covers `dataSource`, `configureH2`,
  `configureOracle`, the two schema-initialisation methods and
  `schemaExists`.
  - The pool configuration is a class that the methods change through its
    fields.
  - Each schema script run is recorded as an event in the field
    `DatabaseConfig.scriptsRun`.
  - Proved properties:
    - how the backend is chosen;
    - the exact H2 URL;
    - when a script runs (at most one per start-up, and only under the
      stated conditions);
    - the defaults.
- **`Text` (`text.dfy`)** writes out the `java.lang.String` behaviour these
  depend on: decimal formatting, `trim()` and `equalsIgnoreCase`.
- **`Wrappers` (`wrappers.dfy`)** holds `Option` and `Result`.

I/O becomes parameters:

- `Exec` says whether a JDBC statement runs or throws `SQLException`: while
  connecting, while executing, or while closing the statement and connection
  after it ran. Connections auto-commit, so when closing fails the change is
  already made, yet the handler still answers INTERNAL_SERVER_ERROR.
- `datumParses` says whether `Instant.parse` accepts Datum.
- `connects` and `ProbeResult` say what the schema initialisation's
  connection and its metadata query did.
- `Response.Unhandled` stands for an exception that the handler does not
  catch.

### Where the code differs from the service's design description

The model follows the code:

- The type match is an exact, case-sensitive `switch` on six Swedish names.
  There is no case folding, no English short forms and no default `REF`
  prefix. An unknown type gets no prefix.
- Pacing and general configuration entries (`PAC`, `GEN`), archive/restore,
  project deletion and project listing by archive state do not exist in the
  code.
- A failure while initialising the schema is logged and swallowed. Start-up
  continues and the data source is still returned; the failure is not fatal.
- Counting and inserting are two separate statements with no transaction
  around them. The uniqueness result holds only for sequential inserts.

## Model

| member | source | states |
|---|---|---|
| Text.DecimalRoundTrip | src/main/java/se/ptlog/PtLog.java:212 | the decimal digits printed for a non-negative int read back as that number |
| Text.OrdinalFormat | src/main/java/se/ptlog/PtLog.java:212 | `%02d` of n is all digits, two wide below 10 and otherwise exactly as wide as n's digits (it widens and is never cut), starts with '0' below 10, ends with n's digits and denotes n |
| Text.Ordinal | src/main/java/se/ptlog/PtLog.java:212 | `%02d` of a count is all digits and at least two wide |
| Text.OrdinalInjective | src/main/java/se/ptlog/PtLog.java:212 | different counts give different ordinals |
| Text.TrimStart | src/main/java/se/ptlog/PtLog.java:140 | the result is a suffix of the input, everything removed is a character up to U+0020, and the result does not start with one |
| Text.TrimEnd | src/main/java/se/ptlog/PtLog.java:140 | the result is a prefix of the input, everything removed is a character up to U+0020, and the result does not end with one |
| Text.TrimEmptyIffBlank | src/main/java/se/ptlog/PtLog.java:140 | `trim().isEmpty()` holds exactly when every character is U+0020 or below |
| Text.TrimFixed | src/main/java/se/ptlog/PtLog.java:140-150 | a string with nothing trimmable at either end is left unchanged by `trim()` |
| Text.TrimShape | src/main/java/se/ptlog/PtLog.java:150 | the trimmed name is a substring of the input, has nothing trimmable at either end, and trimming again changes nothing |
| PtLog.GetRequiredField | src/main/java/se/ptlog/PtLog.java:296-301 | fails with the field's name exactly when the field is absent or JSON null; otherwise returns its text, an empty string included |
| PtLog.RequireAll | src/main/java/se/ptlog/PtLog.java:191-201 | on success every listed field is present and the values come back in order; on failure the error names a missing field and every field before it is present, so it is the first missing one in the order checked |
| PtLog.RequireAllSucceedsIff | src/main/java/se/ptlog/PtLog.java:191-201 | the check passes exactly when every listed field is present and not null |
| PtLog.TypePrefix | src/main/java/se/ptlog/PtLog.java:214-221 | the prefix the switch adds is either empty or four characters ending in '_' |
| PtLog.TypePrefixTable | src/main/java/se/ptlog/PtLog.java:214-221 | each of the six exact type names gets its code and '_'; every other string gets no prefix, including other letter case; a prefix is three capitals and '_' and identifies its type |
| PtLog.UnknownTypeNoPrefix | src/main/java/se/ptlog/PtLog.java:214-223 | a type outside the six names gives `<NN>_<Testnamn>`, with no default prefix |
| PtLog.TestName | src/main/java/se/ptlog/PtLog.java:212-223 | the stored name ends with the caller's Testnamn verbatim and is at least three characters longer (two-digit ordinal and '_') |
| PtLog.TestNameParts | src/main/java/se/ptlog/PtLog.java:212-223 | the stored name starts with the padded ordinal of count+1 and '_', reads back as ordinal count+1 followed by prefix+Testnamn, and ends with Testnamn verbatim |
| PtLog.TestNamesDiffer | src/main/java/se/ptlog/PtLog.java:204-223 | inserts that see different counts store different names |
| PtLog.TestNameExample | src/main/java/se/ptlog/PtLog.java:212-223 | count 3, "Belastningstest", "Checkout" gives "04_BEL_Checkout" |
| PtLog.TestNameNoCaseFolding | src/main/java/se/ptlog/PtLog.java:214-223 | count 3, lower-case "belastningstest", "Checkout" gives "04_Checkout": no prefix |
| PtLog.TestNameWidens | src/main/java/se/ptlog/PtLog.java:212-223 | count 99, "Maxtest", "Peak" gives "100_MAX_Peak": the ordinal widens to three digits |
| PtLog.CountFor | src/main/java/se/ptlog/PtLog.java:161-173 | the `COUNT(*)` of a project's rows is at most the number of rows |
| PtLog.CountForAppend | src/main/java/se/ptlog/PtLog.java:225-237 | appending one row raises its project's count by one and leaves every other project's count unchanged |
| PtLog.CountForBounds | src/main/java/se/ptlog/PtLog.java:161-173 | the count is at most the number of rows and is zero exactly when no row has that PROJEKT |
| PtLog.MatchCount | src/main/java/se/ptlog/PtLog.java:272-281 | the rows the ANALYS update matches are at most the project's rows |
| PtLog.SetAnalys | src/main/java/se/ptlog/PtLog.java:272-281 | the update keeps the number of rows |
| PtLog.SetAnalysAt | src/main/java/se/ptlog/PtLog.java:272-281 | the update sets ANALYS on exactly the rows that match both PROJEKT and TESTNAMN and leaves all other rows and all other columns unchanged |
| PtLog.NoMatchUnchanged | src/main/java/se/ptlog/PtLog.java:281-286 | zero rows are affected exactly when no row matches, and then the table is unchanged |
| PtLog.SetAnalysIdempotent | src/main/java/se/ptlog/PtLog.java:272-281 | repeating the same update changes nothing more |
| PtLog.SetAnalysKeepsCounts | src/main/java/se/ptlog/PtLog.java:272-281 | the update keeps every project's row count, so it does not disturb later ordinals |
| PtLog.UniqueWithinProject | src/main/java/se/ptlog/PtLog.java:204-237 | when every row is numbered after its predecessors, no two rows of one project share a name |
| PtLog.InsertKeepsNumbering | src/main/java/se/ptlog/PtLog.java:204-237 | appending the row `insertLog` builds keeps sequential numbering |
| PtLog.WellNumberedSetAnalys | src/main/java/se/ptlog/PtLog.java:272-281 | the ANALYS update keeps sequential numbering |
| PtLog.Tables.CreateProject | src/main/java/se/ptlog/PtLog.java:137-159 | an absent, null or blank Projekt gives BAD_REQUEST and changes nothing; otherwise the trimmed name is appended to PTLOG_PROJEKT and OK echoes the name as sent; a SQL failure while connecting or executing gives INTERNAL_SERVER_ERROR and changes nothing; a failure while closing gives INTERNAL_SERVER_ERROR with the name already inserted; PTLOG is never touched |
| PtLog.Tables.CountRowsForProject | src/main/java/se/ptlog/PtLog.java:161-173 | returns the number of PTLOG rows whose PROJEKT equals the argument, or the SQL failure's message (a failure while closing included) |
| PtLog.Tables.InsertLog | src/main/java/se/ptlog/PtLog.java:175-244 | invalid JSON and the first missing field give BAD_REQUEST; a failed count gives INTERNAL_SERVER_ERROR; an unparseable Datum escapes the handler; otherwise exactly one row with the computed name and NULL ANALYS is appended and its name reported; a failure while connecting or executing leaves both tables unchanged, a failure while closing gives INTERNAL_SERVER_ERROR with the row already appended; PTLOG_PROJEKT is never touched, and sequential numbering is kept |
| PtLog.Tables.UpdateAnalys | src/main/java/se/ptlog/PtLog.java:246-294 | once the statement runs, the table becomes the update of the old table; NOT_FOUND exactly when no row matched, otherwise OK with the matched count; a failure while closing gives INTERNAL_SERVER_ERROR after the update is made; a failure while connecting or executing leaves the table unchanged; row counts and numbering are kept |
| Config.IsH2Spellings | src/main/java/se/ptlog/config/DatabaseConfig.java:66 | `"h2".equalsIgnoreCase(dbType)` holds exactly for "h2" and "H2" |
| Config.IsOracleSpellings | src/main/java/se/ptlog/config/DatabaseConfig.java:89 | the Oracle test accepts exactly the six-letter strings that lower-case to "oracle", and never a string that also names H2 |
| Config.SelectBackend | src/main/java/se/ptlog/config/DatabaseConfig.java:66-70 | H2 is chosen exactly for dbType "h2" or "H2" |
| Config.InitTarget | src/main/java/se/ptlog/config/DatabaseConfig.java:87-91 | the backend initialised is always the one configured; for dbType "oracle" it is Oracle exactly when oracleAutoInit is set |
| Config.InitTargetRule | src/main/java/se/ptlog/config/DatabaseConfig.java:87-91 | init is attempted exactly when (h2 and h2AutoInit) or (oracle and oracleAutoInit), and always for the configured backend; an unrecognised dbType configures Oracle and never initialises |
| Config.DefaultsUseOracleWithoutInit | src/main/java/se/ptlog/config/DatabaseConfig.java:23-60 | with every property at its default, the service configures Oracle and runs no schema script |
| Config.H2Url | src/main/java/se/ptlog/config/DatabaseConfig.java:97 | the file path reads back out of the URL it builds |
| Config.H2UrlRoundTrip | src/main/java/se/ptlog/config/DatabaseConfig.java:97 | the H2 URL holds the file path verbatim between "jdbc:h2:file:" and ";MODE=Oracle;AUTO_SERVER=TRUE;DB_CLOSE_DELAY=-1", and every URL of that shape comes from its path |
| Config.SchemaExists | src/main/java/se/ptlog/config/DatabaseConfig.java:154-178 | a probe that throws or yields no row counts as "no table"; an existing table means a count of at least one |
| Config.ScriptsRun | src/main/java/se/ptlog/config/DatabaseConfig.java:116-152 | at most one script per start-up, always the configured backend's, and none without a connection |
| Config.ScriptFileFor | src/main/java/se/ptlog/config/DatabaseConfig.java:116-152 | H2 loads "schema-h2.sql" and Oracle "schema-oracle.sql", two different files |
| Config.ScriptsRunRule | src/main/java/se/ptlog/config/DatabaseConfig.java:116-178 | at most one script runs per start-up; one runs exactly when init is due, a connection is obtained and the probe found no first row with count > 0 (a probe that throws counts as absent); it is the configured backend's script |
| Config.DatabaseConfig.DataSource | src/main/java/se/ptlog/config/DatabaseConfig.java:62-94 | H2 URL, credentials and driver for "h2" in any letter case, Oracle's for every other dbType; pool size, min idle and timeout from the settings with idle timeout 600000 and max lifetime 1800000 whatever the backend; the statement-cache properties; the scripts run are exactly those of the rule; a data source is always returned |
| Config.DatabaseConfig.ConfigureH2 | src/main/java/se/ptlog/config/DatabaseConfig.java:96-105 | sets the H2 URL, the H2 user and password and the H2 driver; the pool sizes, timeouts and data-source properties stay as they were |
| Config.DatabaseConfig.ConfigureOracle | src/main/java/se/ptlog/config/DatabaseConfig.java:107-114 | sets the Oracle URL, user, password and driver; the pool sizes, timeouts and data-source properties stay as they were |
| Config.DatabaseConfig.InitializeSchema | src/main/java/se/ptlog/config/DatabaseConfig.java:116-152 | skips when no connection is obtained or the table exists; otherwise records one run of the backend's script; failures do not propagate |

## Left out

- `getData`, `OraSQL`, `getAllProjekts`, `healthcheck`, `main` and
  `ColorLogger` are not modelled. They read rows through JDBC with an
  ordering chosen by the SQL engine, or they are HTTP and logging glue.
- HTTP mapping, CORS and headers are not modelled. A handler's answer is a
  status and a body text.
- JSON parsing is not modelled. The body is either invalid JSON with its
  message, or a map from field name to JSON null or the field's `asText()`.
  `createProject` binds its body to `Map<String,String>`. The web framework
  rejects a body that does not bind before the handler runs, so that case is
  not modelled.
- PtLog.Tables.CountRowsForProject: the `return 0` for a query with no result
  row (line 172) is not modelled. `COUNT(*)` without `GROUP BY` always
  returns one row, so that branch cannot be reached.
- PtLog.Tables.InsertLog: the count is a Java `int`, and `count + 1` would
  overflow at 2^31 - 1 rows. Counts are unbounded here.
- Text.OrdinalFormat: assumes a default locale whose digits are ASCII.
  `String.format` uses the locale's zero digit.
- Datum is kept as the request's text. Timestamp conversion and time zones
  are not modelled. Whether `Instant.parse` or `Timestamp.from` rejects
  Datum is the parameter `datumParses`; that exception is not caught by the
  handler.
- SQL comparisons are exact string equality. Oracle, and H2 in Oracle mode,
  store an empty string as NULL. That would make an empty Projekt match no
  row; this is not modelled.
- The schema scripts are not modelled. Their constraints (for example a
  unique project name) show up only as the `Exec` failure parameter. The
  `ARKIVERAD` column is never written by the code and is not modelled.
- Concurrent requests are not modelled. Inserts are sequential, and the
  count-then-insert race between two requests for one project is outside the
  model.
- Config.DatabaseConfig.DataSource: building the Hikari pool is not modelled.
  The pool can fail to start, which is fatal at start-up. The HikariConfig
  setters are field assignments: the library's own validation is not
  modelled (for example, it rejects a pool size below 1), nor are the
  defaults of a fresh `HikariConfig`.
- Config.DatabaseConfig.InitializeSchema: records each started script run.
  It does not model whether the script completes; a failing script is logged
  and swallowed. The text of the two metadata queries is not modelled; only
  what they return is.
- Spring applies each property default separately. `DefaultSettings` is the
  case where no property is set. How property strings are parsed into
  booleans and numbers is not modelled.
- Text.CharEqualsIgnoreCase folds letter case for ASCII only. For the two
  words compared here, "h2" and "oracle", this matches Java exactly: no
  non-ASCII character changes case onto one of their letters.
- Logging is not modelled.
