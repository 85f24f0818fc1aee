/** The request handlers of the PT-Log service over its two tables, PTLOG
    (one row per test run) and PTLOG_PROJEKT (project names). The handlers
    reach the tables through JDBC; here the tables are the fields of one
    object and each SQL statement is the change it makes to them. */
module PtLog {
  import opened Text
  import opened Wrappers

  /** A field of the parsed JSON body: JSON null, or any other value as
      Jackson's `asText()` renders it. */
  datatype JsonValue = JsonNull | JsonText(text: string)

  /** The request body after `readTree`: either text that is not JSON (with
      the parser's message) or the top-level node's fields. A top-level value
      that is not an object has no fields. */
  datatype Body = InvalidJson(message: string) | Node(fields: map<string, JsonValue>)

  datatype Status = Ok | BadRequest | NotFound | InternalServerError

  /** What a handler answers: a status with a text body, or an exception the
      handler does not catch, which the web framework answers instead. */
  datatype Response = Response(status: Status, body: string) | Unhandled

  /** How one JDBC statement goes: it runs, or `SQLException` with the given
      message is thrown while connecting, while executing, or while closing
      the statement and connection after it ran. Connections auto-commit, so
      in the last case the statement's change is already made. */
  datatype Exec = Done | ConnectFails(message: string) | ExecuteFails(message: string) | CloseFails(message: string)
  {
    /** The statement ran and its change is committed. */
    predicate Executed() {
      Done? || CloseFails?
    }
  }

  /** A PTLOG row. DATUM is kept as the request's text; ANALYS is NULL until
      an update sets it. */
  datatype LogRow = LogRow(
    datum: string,
    typ: string,
    testnamn: string,
    syfte: string,
    analys: Option<string>,
    projekt: string,
    testare: string)

  // ---------------------------------------------------------------------
  // Required fields

  /** `node.hasNonNull(name)`: the field is there and is not JSON null. */
  predicate Present(fields: map<string, JsonValue>, name: string) {
    name in fields && fields[name].JsonText?
  }

  /** `getRequiredField`: the field's text, or the field's name as the
      failure when it is absent or null. An empty string is a value. */
  function GetRequiredField(fields: map<string, JsonValue>, name: string): (r: Result<string>)
    ensures r.Success? <==> Present(fields, name)
    ensures r.Success? ==> fields[name] == JsonText(r.value)
    ensures r.Failure? ==> r.error == name
  {
    if name in fields && fields[name].JsonText? then Success(fields[name].text) else Failure(name)
  }

  /** `getRequiredField` applied to each name in turn, stopping at the first
      failure: all the values in order, or the first name that is missing. */
  function RequireAll(fields: map<string, JsonValue>, names: seq<string>): (r: Result<seq<string>>)
    ensures r.Success? ==> |r.value| == |names|
    ensures r.Success? ==> forall i :: 0 <= i < |names| ==> Present(fields, names[i]) && fields[names[i]] == JsonText(r.value[i])
    ensures r.Failure? ==> exists k :: 0 <= k < |names| && names[k] == r.error && !Present(fields, names[k])
                                      && forall j :: 0 <= j < k ==> Present(fields, names[j])
  {
    if names == [] then Success([])
    else
      match GetRequiredField(fields, names[0])
      case Failure(e) => Failure(e)
      case Success(v) =>
        match RequireAll(fields, names[1..])
        case Failure(e) =>
          ghost var k :| 0 <= k < |names[1..]| && names[1..][k] == e && !Present(fields, names[1..][k])
                         && forall j :: 0 <= j < k ==> Present(fields, names[1..][j]);
          assert names[k + 1] == e && forall j :: 0 <= j < k + 1 ==> Present(fields, names[j]);
          Failure(e)
        case Success(vs) => Success([v] + vs)
  }

  /** A request passes the check exactly when every listed field is present. */
  lemma RequireAllSucceedsIff(fields: map<string, JsonValue>, names: seq<string>)
    ensures RequireAll(fields, names).Success? <==> forall i :: 0 <= i < |names| ==> Present(fields, names[i])
  {
  }

  const InsertFields: seq<string> := ["Datum", "Typ", "Testnamn", "Syfte", "Projekt", "Testare"]

  const UpdateFields: seq<string> := ["Projekt", "Testnamn", "Analys"]

  // ---------------------------------------------------------------------
  // Test names

  /** The prefix the `switch` in `insertLog` puts before the test name: an
      exact, case-sensitive match on six Swedish type names; any other type
      gets no prefix. */
  function TypePrefix(typ: string): (r: string)
    ensures r == "" || (|r| == 4 && r[3] == '_')
  {
    match typ
    case "Referenstest" => "REF_"
    case "Belastningstest" => "BEL_"
    case "Utmattningstest" => "UTM_"
    case "Maxtest" => "MAX_"
    case "Skapa" => "SKA_"
    case "Verifikationstest" => "VER_"
    case _ => ""
  }

  /** The type names the switch recognises, each with its three-letter code. */
  const KnownTypes: seq<(string, string)> := [
    ("Referenstest", "REF"),
    ("Belastningstest", "BEL"),
    ("Utmattningstest", "UTM"),
    ("Maxtest", "MAX"),
    ("Skapa", "SKA"),
    ("Verifikationstest", "VER")]

  predicate IsUpperAsciiLetter(c: char) {
    'A' <= c <= 'Z'
  }

  /** The switch agrees with the table: a listed type gets its code and an
      underscore, every other string (other letter case included) nothing;
      a prefix is three capital letters and an underscore, and tells the
      type apart from every other. */
  lemma TypePrefixTable(typ: string)
    ensures forall k :: 0 <= k < |KnownTypes| && KnownTypes[k].0 == typ ==> TypePrefix(typ) == KnownTypes[k].1 + "_"
    ensures TypePrefix(typ) != "" <==> exists k :: 0 <= k < |KnownTypes| && KnownTypes[k].0 == typ
    ensures TypePrefix(typ) != "" ==>
      |TypePrefix(typ)| == 4 && TypePrefix(typ)[3] == '_' &&
      forall i :: 0 <= i < 3 ==> IsUpperAsciiLetter(TypePrefix(typ)[i])
    ensures forall other: string :: TypePrefix(other) == TypePrefix(typ) != "" ==> other == typ
  {
    assert forall k :: 0 <= k < |KnownTypes| ==> TypePrefix(KnownTypes[k].0) == KnownTypes[k].1 + "_";
    match typ
    case "Referenstest" => assert KnownTypes[0].0 == typ;
    case "Belastningstest" => assert KnownTypes[1].0 == typ;
    case "Utmattningstest" => assert KnownTypes[2].0 == typ;
    case "Maxtest" => assert KnownTypes[3].0 == typ;
    case "Skapa" => assert KnownTypes[4].0 == typ;
    case "Verifikationstest" => assert KnownTypes[5].0 == typ;
    case _ =>
  }

  /** The stored TESTNAMN for a project that already has `count` rows:
      `<NN>_<PREFIX>_<Testnamn>`, or `<NN>_<Testnamn>` for an unknown type. */
  function TestName(count: nat, typ: string, testnamn: string): (r: string)
    ensures |r| >= |testnamn| + 3 && r[|r| - |testnamn|..] == testnamn
  {
    Ordinal(count + 1) + "_" + TypePrefix(typ) + testnamn
  }

  /** The ordinal a stored name begins with: the decimal number before the
      first underscore, if the name starts with digits and an underscore. */
  function OrdinalOf(name: string): Option<nat> {
    var digits := LeadingDigits(name);
    if digits != [] && |digits| < |name| && name[|digits|] == '_' then Some(DecimalValue(digits)) else None
  }

  /** What follows the ordinal and its underscore. */
  function AfterOrdinal(name: string): string {
    var digits := LeadingDigits(name);
    if digits != [] && |digits| < |name| && name[|digits|] == '_' then name[|digits| + 1..] else name
  }

  /** A name made of a non-empty digit string, an underscore and a rest
      reads back as that number and that rest. */
  lemma SplitOrdinal(digits: string, rest: string)
    requires digits != [] && AllDigits(digits)
    ensures OrdinalOf(digits + "_" + rest) == Some(DecimalValue(digits))
    ensures AfterOrdinal(digits + "_" + rest) == rest
  {
    var name := digits + "_" + rest;
    assert name == digits + ("_" + rest);
    LeadingDigitsOf(digits, "_" + rest);
    assert name[|digits|] == '_';
    assert name[|digits| + 1..] == rest;
  }

  /** A stored name reads back as `count + 1` followed by the type prefix
      and the caller's Testnamn unchanged; it starts with the padded ordinal
      and an underscore and ends with Testnamn. */
  lemma TestNameParts(count: nat, typ: string, testnamn: string)
    ensures OrdinalOf(TestName(count, typ, testnamn)) == Some(count + 1)
    ensures AfterOrdinal(TestName(count, typ, testnamn)) == TypePrefix(typ) + testnamn
    ensures TestName(count, typ, testnamn)[..|Ordinal(count + 1)| + 1] == Ordinal(count + 1) + "_"
    ensures |TestName(count, typ, testnamn)| >= |testnamn|
    ensures TestName(count, typ, testnamn)[|TestName(count, typ, testnamn)| - |testnamn|..] == testnamn
  {
    var o := Ordinal(count + 1);
    var rest := TypePrefix(typ) + testnamn;
    var name := TestName(count, typ, testnamn);
    assert name == o + "_" + rest;
    OrdinalFormat(count + 1);
    SplitOrdinal(o, rest);
  }

  /** For a type the switch does not list, the name is just the ordinal and
      Testnamn: no default prefix is added. */
  lemma UnknownTypeNoPrefix(count: nat, typ: string, testnamn: string)
    requires forall k :: 0 <= k < |KnownTypes| ==> KnownTypes[k].0 != typ
    ensures TestName(count, typ, testnamn) == Ordinal(count + 1) + "_" + testnamn
  {
    TypePrefixTable(typ);
  }

  /** Two inserts that see different row counts store different names. */
  lemma TestNamesDiffer(c1: nat, t1: string, n1: string, c2: nat, t2: string, n2: string)
    requires c1 != c2
    ensures TestName(c1, t1, n1) != TestName(c2, t2, n2)
  {
    TestNameParts(c1, t1, n1);
    TestNameParts(c2, t2, n2);
  }

  /** The name a Belastningstest run "Checkout" gets as the project's
      fourth row. */
  lemma TestNameExample()
    ensures TestName(3, "Belastningstest", "Checkout") == "04_BEL_Checkout"
  {
  }

  /** The type match does not fold letter case: a lower-case type name gets
      no prefix. */
  lemma TestNameNoCaseFolding()
    ensures TestName(3, "belastningstest", "Checkout") == "04_Checkout"
  {
  }

  /** From the hundredth row on, the ordinal has three digits. */
  lemma TestNameWidens()
    ensures TestName(99, "Maxtest", "Peak") == "100_MAX_Peak"
  {
  }

  // ---------------------------------------------------------------------
  // The PTLOG table as a sequence of rows

  /** `SELECT COUNT(*) FROM ptlog WHERE PROJEKT = ?`. */
  function CountFor(rows: seq<LogRow>, projekt: string): (r: nat)
    ensures r <= |rows|
  {
    if rows == [] then 0
    else CountFor(rows[..|rows| - 1], projekt) + (if rows[|rows| - 1].projekt == projekt then 1 else 0)
  }

  lemma CountForAppend(rows: seq<LogRow>, row: LogRow, projekt: string)
    ensures CountFor(rows + [row], projekt) == CountFor(rows, projekt) + (if row.projekt == projekt then 1 else 0)
  {
  }

  /** The count is at most the number of rows and is zero exactly when no
      row belongs to the project. */
  lemma {:induction false} CountForBounds(rows: seq<LogRow>, projekt: string)
    ensures CountFor(rows, projekt) <= |rows|
    ensures CountFor(rows, projekt) == 0 <==> forall i :: 0 <= i < |rows| ==> rows[i].projekt != projekt
  {
    if rows != [] {
      var init := rows[..|rows| - 1];
      CountForBounds(init, projekt);
      assert forall i :: 0 <= i < |init| ==> init[i] == rows[i];
    }
  }

  /** Counting over a longer prefix never gives less. */
  lemma {:induction false} CountForPrefixMonotone(rows: seq<LogRow>, m: nat, n: nat, projekt: string)
    requires m <= n <= |rows|
    ensures CountFor(rows[..m], projekt) <= CountFor(rows[..n], projekt)
  {
    if m < n {
      CountForPrefixMonotone(rows, m, n - 1, projekt);
      assert rows[..n][..n - 1] == rows[..n - 1];
    }
  }

  /** The count depends on the PROJEKT column only. */
  lemma {:induction false} CountForSameProjects(a: seq<LogRow>, b: seq<LogRow>, projekt: string)
    requires |a| == |b|
    requires forall k :: 0 <= k < |a| ==> a[k].projekt == b[k].projekt
    ensures CountFor(a, projekt) == CountFor(b, projekt)
  {
    if a != [] {
      CountForSameProjects(a[..|a| - 1], b[..|b| - 1], projekt);
    }
  }

  predicate Matches(row: LogRow, projekt: string, testnamn: string) {
    row.projekt == projekt && row.testnamn == testnamn
  }

  /** Rows the WHERE clause of the ANALYS update selects. */
  function MatchCount(rows: seq<LogRow>, projekt: string, testnamn: string): (r: nat)
    ensures r <= CountFor(rows, projekt)
  {
    if rows == [] then 0
    else MatchCount(rows[..|rows| - 1], projekt, testnamn) + (if Matches(rows[|rows| - 1], projekt, testnamn) then 1 else 0)
  }

  /** `UPDATE PTLOG SET ANALYS = ? WHERE PROJEKT = ? AND TESTNAMN = ?`. */
  function SetAnalys(rows: seq<LogRow>, projekt: string, testnamn: string, analys: string): (r: seq<LogRow>)
    ensures |r| == |rows|
  {
    if rows == [] then []
    else
      var last := rows[|rows| - 1];
      SetAnalys(rows[..|rows| - 1], projekt, testnamn, analys)
        + [if Matches(last, projekt, testnamn) then last.(analys := Some(analys)) else last]
  }

  /** Row by row, the update sets ANALYS on the matching rows and leaves
      every other row, and every other column, as it was. */
  lemma {:induction false} SetAnalysAt(rows: seq<LogRow>, projekt: string, testnamn: string, analys: string, i: nat)
    requires i < |rows|
    ensures SetAnalys(rows, projekt, testnamn, analys)[i]
         == if Matches(rows[i], projekt, testnamn) then rows[i].(analys := Some(analys)) else rows[i]
  {
    if i < |rows| - 1 {
      SetAnalysAt(rows[..|rows| - 1], projekt, testnamn, analys, i);
    }
  }

  /** The update affects no row exactly when no row matches, and then the
      table is unchanged. */
  lemma {:induction false} NoMatchUnchanged(rows: seq<LogRow>, projekt: string, testnamn: string, analys: string)
    ensures MatchCount(rows, projekt, testnamn) == 0 <==> forall i :: 0 <= i < |rows| ==> !Matches(rows[i], projekt, testnamn)
    ensures MatchCount(rows, projekt, testnamn) == 0 ==> SetAnalys(rows, projekt, testnamn, analys) == rows
  {
    if rows != [] {
      var init := rows[..|rows| - 1];
      NoMatchUnchanged(init, projekt, testnamn, analys);
      assert forall i :: 0 <= i < |init| ==> init[i] == rows[i];
      assert rows == init + [rows[|rows| - 1]];
    }
  }

  /** Setting the same analysis twice is the same as setting it once. */
  lemma {:induction false} SetAnalysIdempotent(rows: seq<LogRow>, projekt: string, testnamn: string, analys: string)
    ensures SetAnalys(SetAnalys(rows, projekt, testnamn, analys), projekt, testnamn, analys)
         == SetAnalys(rows, projekt, testnamn, analys)
  {
    var once := SetAnalys(rows, projekt, testnamn, analys);
    var twice := SetAnalys(once, projekt, testnamn, analys);
    forall i | 0 <= i < |rows| ensures twice[i] == once[i] {
      SetAnalysAt(rows, projekt, testnamn, analys, i);
      SetAnalysAt(once, projekt, testnamn, analys, i);
    }
  }

  /** The update keeps every project's row count. */
  lemma {:induction false} SetAnalysKeepsCounts(rows: seq<LogRow>, projekt: string, testnamn: string, analys: string, other: string)
    ensures CountFor(SetAnalys(rows, projekt, testnamn, analys), other) == CountFor(rows, other)
  {
    var u := SetAnalys(rows, projekt, testnamn, analys);
    forall k | 0 <= k < |rows| ensures u[k].projekt == rows[k].projekt {
      SetAnalysAt(rows, projekt, testnamn, analys, k);
    }
    CountForSameProjects(u, rows, other);
  }

  /** Row `i` carries as ordinal one more than the number of earlier rows of
      its project. */
  ghost predicate NumberedAt(rows: seq<LogRow>, i: nat)
    requires i < |rows|
  {
    OrdinalOf(rows[i].testnamn) == Some(CountFor(rows[..i], rows[i].projekt) + 1)
  }

  /** Sequential numbering: every row is numbered after the rows before it.
      Inserts made one at a time through `InsertLog` keep this. */
  ghost predicate WellNumbered(rows: seq<LogRow>) {
    forall i :: 0 <= i < |rows| ==> NumberedAt(rows, i)
  }

  /** Under sequential numbering no two rows of one project share a name. */
  lemma UniqueWithinProject(rows: seq<LogRow>, i: nat, j: nat)
    requires WellNumbered(rows)
    requires i < j < |rows| && rows[i].projekt == rows[j].projekt
    ensures rows[i].testnamn != rows[j].testnamn
  {
    var p := rows[i].projekt;
    assert NumberedAt(rows, i) && NumberedAt(rows, j);
    assert rows[..i + 1][..i] == rows[..i];
    assert CountFor(rows[..i + 1], p) == CountFor(rows[..i], p) + 1;
    CountForPrefixMonotone(rows, i + 1, j, p);
  }

  lemma WellNumberedAppend(rows: seq<LogRow>, row: LogRow)
    requires WellNumbered(rows)
    requires OrdinalOf(row.testnamn) == Some(CountFor(rows, row.projekt) + 1)
    ensures WellNumbered(rows + [row])
  {
    var s := rows + [row];
    forall i | 0 <= i < |s| ensures NumberedAt(s, i) {
      if i < |rows| {
        assert NumberedAt(rows, i);
        assert s[..i] == rows[..i] && s[i] == rows[i];
      } else {
        assert s[..i] == rows;
      }
    }
  }

  /** The row `InsertLog` appends keeps the numbering. */
  lemma InsertKeepsNumbering(rows: seq<LogRow>, datum: string, typ: string, testnamn: string,
                             syfte: string, projekt: string, testare: string)
    ensures WellNumbered(rows) ==>
      WellNumbered(rows + [LogRow(datum, typ, TestName(CountFor(rows, projekt), typ, testnamn), syfte, None, projekt, testare)])
  {
    if WellNumbered(rows) {
      TestNameParts(CountFor(rows, projekt), typ, testnamn);
      WellNumberedAppend(rows, LogRow(datum, typ, TestName(CountFor(rows, projekt), typ, testnamn), syfte, None, projekt, testare));
    }
  }

  lemma WellNumberedSetAnalys(rows: seq<LogRow>, projekt: string, testnamn: string, analys: string)
    requires WellNumbered(rows)
    ensures WellNumbered(SetAnalys(rows, projekt, testnamn, analys))
  {
    var u := SetAnalys(rows, projekt, testnamn, analys);
    forall k | 0 <= k < |rows| ensures u[k].projekt == rows[k].projekt && u[k].testnamn == rows[k].testnamn {
      SetAnalysAt(rows, projekt, testnamn, analys, k);
    }
    forall i | 0 <= i < |u| ensures NumberedAt(u, i) {
      assert NumberedAt(rows, i);
      CountForSameProjects(u[..i], rows[..i], u[i].projekt);
    }
  }

  // ---------------------------------------------------------------------
  // The handlers

  class Tables {
    /** PTLOG, in insertion order. */
    var ptlog: seq<LogRow>
    /** The NAMN column of PTLOG_PROJEKT, in insertion order. */
    var projekts: seq<string>

    constructor ()
      ensures ptlog == [] && projekts == []
      ensures WellNumbered(ptlog)
    {
      ptlog := [];
      projekts := [];
    }

    /** POST /createProject: a missing, null or blank `Projekt` is a bad
        request and touches nothing; otherwise the trimmed name is inserted. */
    method CreateProject(payload: map<string, JsonValue>, exec: Exec) returns (resp: Response)
      modifies this
      ensures ptlog == old(ptlog)
      ensures !Present(payload, "Projekt") || IsBlank(payload["Projekt"].text) ==>
        resp == Response(BadRequest, "Projekt name is required") && projekts == old(projekts)
      ensures Present(payload, "Projekt") && !IsBlank(payload["Projekt"].text) ==>
        var name := payload["Projekt"].text;
        && projekts == (if exec.Executed() then old(projekts) + [Trim(name)] else old(projekts))
        && resp == if exec.Done? then Response(Ok, "Inserted project: " + name + " (1 row(s))")
                   else Response(InternalServerError, "Database error: " + exec.message)
    {
      if !Present(payload, "Projekt") {
        return Response(BadRequest, "Projekt name is required");
      }
      var projektName := payload["Projekt"].text;
      TrimEmptyIffBlank(projektName);
      if Trim(projektName) == [] {
        return Response(BadRequest, "Projekt name is required");
      }
      if !exec.Executed() {
        return Response(InternalServerError, "Database error: " + exec.message);
      }
      projekts := projekts + [Trim(projektName)];
      if exec.CloseFails? {
        // the row is committed before closing the statement throws
        return Response(InternalServerError, "Database error: " + exec.message);
      }
      // executeUpdate reports the one row inserted
      resp := Response(Ok, "Inserted project: " + projektName + " (1 row(s))");
    }

    /** `countRowsForProject`: the number of PTLOG rows of the project, or the
        SQLException's message. */
    method CountRowsForProject(projekt: string, exec: Exec) returns (r: Result<nat>)
      ensures exec.Done? ==> r == Success(CountFor(ptlog, projekt))
      ensures !exec.Done? ==> r == Failure(exec.message)
    {
      if !exec.Done? {
        return Failure(exec.message);
      }
      r := Success(CountFor(ptlog, projekt));
    }

    /** POST /insert. `count` and `insert` say how the two statements go;
        `datumParses` says whether `Instant.parse` accepts Datum. */
    method InsertLog(body: Body, count: Exec, datumParses: bool, insert: Exec) returns (resp: Response)
      modifies this
      ensures projekts == old(projekts)
      ensures body.InvalidJson? ==> resp == Response(BadRequest, "Invalid JSON: " + body.message) && ptlog == old(ptlog)
      ensures body.Node? && RequireAll(body.fields, InsertFields).Failure? ==>
        resp == Response(BadRequest, "Missing required field: " + RequireAll(body.fields, InsertFields).error)
        && ptlog == old(ptlog)
      ensures body.Node? && RequireAll(body.fields, InsertFields).Success? ==>
        var v := RequireAll(body.fields, InsertFields).value;
        var name := TestName(CountFor(old(ptlog), v[4]), v[1], v[2]);
        if !count.Done? then
          resp == Response(InternalServerError, "Failed to count rows: " + count.message) && ptlog == old(ptlog)
        else if insert.ConnectFails? then
          resp == Response(InternalServerError, "Database error: " + insert.message) && ptlog == old(ptlog)
        else if !datumParses then
          resp == Unhandled && ptlog == old(ptlog)
        else if insert.ExecuteFails? then
          resp == Response(InternalServerError, "Database error: " + insert.message) && ptlog == old(ptlog)
        else
          && ptlog == old(ptlog) + [LogRow(v[0], v[1], name, v[3], None, v[4], v[5])]
          && resp == if insert.Done? then Response(Ok, "Inserted 1 row(s) with testnamn: " + name)
                     else Response(InternalServerError, "Database error: " + insert.message)
      ensures WellNumbered(old(ptlog)) ==> WellNumbered(ptlog)
    {
      if body.InvalidJson? {
        return Response(BadRequest, "Invalid JSON: " + body.message);
      }
      var values := RequireAll(body.fields, InsertFields);
      if values.Failure? {
        return Response(BadRequest, "Missing required field: " + values.error);
      }
      var datum, typ, testnamn, syfte, projekt, testare :=
        values.value[0], values.value[1], values.value[2], values.value[3], values.value[4], values.value[5];

      var counted := CountRowsForProject(projekt, count);
      if counted.Failure? {
        return Response(InternalServerError, "Failed to count rows: " + counted.error);
      }
      var counterStr := Ordinal(counted.value + 1);
      testnamn := TypePrefix(typ) + testnamn;
      testnamn := counterStr + "_" + testnamn;
      assert testnamn == TestName(counted.value, typ, values.value[2]);

      if insert.ConnectFails? {
        return Response(InternalServerError, "Database error: " + insert.message);
      }
      if !datumParses {
        return Unhandled;
      }
      if insert.ExecuteFails? {
        return Response(InternalServerError, "Database error: " + insert.message);
      }
      InsertKeepsNumbering(ptlog, datum, typ, values.value[2], syfte, projekt, testare);
      ptlog := ptlog + [LogRow(datum, typ, testnamn, syfte, None, projekt, testare)];
      if insert.CloseFails? {
        // the row is committed before closing the statement throws
        return Response(InternalServerError, "Database error: " + insert.message);
      }
      // executeUpdate reports the one row inserted
      resp := Response(Ok, "Inserted 1 row(s) with testnamn: " + testnamn);
    }

    /** PUT /updateAnalys: sets ANALYS on the rows matching both Projekt and
        Testnamn; NOT_FOUND when none matched. */
    method UpdateAnalys(body: Body, exec: Exec) returns (resp: Response)
      modifies this
      ensures projekts == old(projekts)
      ensures body.InvalidJson? ==> resp == Response(BadRequest, "Invalid JSON: " + body.message) && ptlog == old(ptlog)
      ensures body.Node? && RequireAll(body.fields, UpdateFields).Failure? ==>
        resp == Response(BadRequest, "Missing required field: " + RequireAll(body.fields, UpdateFields).error)
        && ptlog == old(ptlog)
      ensures body.Node? && RequireAll(body.fields, UpdateFields).Success? ==>
        var v := RequireAll(body.fields, UpdateFields).value;
        var matched := MatchCount(old(ptlog), v[0], v[1]);
        if !exec.Executed() then
          resp == Response(InternalServerError, "Database error: " + exec.message) && ptlog == old(ptlog)
        else
          && ptlog == SetAnalys(old(ptlog), v[0], v[1], v[2])
          && (exec.CloseFails? ==> resp == Response(InternalServerError, "Database error: " + exec.message))
          && (exec.Done? && matched == 0 ==>
                resp == Response(NotFound, "No row found with Projekt: " + v[0] + " and Testnamn: " + v[1]))
          && (exec.Done? && matched != 0 ==>
                resp == Response(Ok, "Updated " + NatToDecimal(matched) + " row(s) for Projekt: " + v[0] + ", Testnamn: " + v[1]))
      ensures WellNumbered(old(ptlog)) ==> WellNumbered(ptlog)
      ensures forall p :: CountFor(ptlog, p) == CountFor(old(ptlog), p)
    {
      if body.InvalidJson? {
        return Response(BadRequest, "Invalid JSON: " + body.message);
      }
      var values := RequireAll(body.fields, UpdateFields);
      if values.Failure? {
        return Response(BadRequest, "Missing required field: " + values.error);
      }
      var projekt, testnamn, analys := values.value[0], values.value[1], values.value[2];

      if !exec.Executed() {
        return Response(InternalServerError, "Database error: " + exec.message);
      }
      var rows := MatchCount(ptlog, projekt, testnamn);
      if WellNumbered(ptlog) {
        WellNumberedSetAnalys(ptlog, projekt, testnamn, analys);
      }
      forall p {
        SetAnalysKeepsCounts(ptlog, projekt, testnamn, analys, p);
      }
      ptlog := SetAnalys(ptlog, projekt, testnamn, analys);
      if exec.CloseFails? {
        // the update is committed before closing the statement throws
        return Response(InternalServerError, "Database error: " + exec.message);
      }

      if rows == 0 {
        return Response(NotFound, "No row found with Projekt: " + projekt + " and Testnamn: " + testnamn);
      }
      resp := Response(Ok, "Updated " + NatToDecimal(rows) + " row(s) for Projekt: " + projekt + ", Testnamn: " + testnamn);
    }
  }
}
