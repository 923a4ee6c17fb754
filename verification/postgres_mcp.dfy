/** The database tools of the analysis agent (`enem_ai_analyst/tools/postgres_mcp.py`):
    the read-only guard and the failure classification of `execute_sql`, the
    schema text of one table, and the listing of every table's schema. The
    database, the connection and the environment lookups are one oracle,
    `Database`; only the string logic around them is modelled. */
module PostgresMcp {
  import opened Wrappers
  import opened Text
  import opened JsonText

  /** What the database answers. `tableNames` is the list of tables of the
      public schema, `columnsOf(t)` the `(column_name, data_type)` rows that
      describe table `t`, `run(q)` the records of query `q` as the JSON text
      `DataFrame.to_json(orient='records')` prints; a `Failure` carries the
      text of the exception raised on the way (connection, SQL or driver). */
  datatype Database = Database(
    tableNames: Result<seq<string>, string>,
    columnsOf: string -> Result<seq<(string, string)>, string>,
    run: string -> Result<string, string>)

  // ---------------------------------------------------------------------
  // The read-only guard

  const SecurityMessage := "Security Error: Only SELECT statements are allowed."

  /** `query.strip().upper().startswith("SELECT")`. */
  predicate IsSelectQuery(query: string) {
    StartsWith(Upper(Strip(query)), "SELECT")
  }

  /** After `k` whitespace characters, `query` spells SELECT in some mix of cases. */
  predicate SelectAfterSpace(query: string, k: nat) {
    k + 6 <= |query| && AllSpace(query[..k]) && Upper(query[k..k + 6]) == "SELECT"
  }

  /** The guard accepts exactly the queries that, after leading whitespace,
      begin with the word SELECT in any case; what follows the six letters
      is never looked at. */
  lemma SelectGuardIff(query: string)
    ensures IsSelectQuery(query) <==> exists k :: 0 <= k <= |query| && SelectAfterSpace(query, k)
  {
    if IsSelectQuery(query) {
      var l := LStrip(query);
      var k := |query| - |l|;
      var r := RStrip(l);
      assert Strip(query) == r;
      assert l == query[k..];
      assert r[..6] == query[k..k + 6];
      UpperSlice(r, 0, 6);
      assert SelectAfterSpace(query, k);
    }
    forall k | 0 <= k <= |query| && SelectAfterSpace(query, k)
      ensures IsSelectQuery(query)
    {
      SelectAfterSpaceAccepted(query, k);
    }
  }

  lemma SelectAfterSpaceAccepted(query: string, k: nat)
    requires SelectAfterSpace(query, k)
    ensures IsSelectQuery(query)
  {
    var p := query[k..k + 6];
    SelectWordEnds(p);
    var l := query[k..];
    assert l[0] == p[0] && l[5] == p[5];
    assert query == query[..k] + l;
    LStripAfterSpace(query[..k], l);
    assert LStrip(query) == l;
    RStripKeeps(l, 6);
    assert l[..6] == p;
    UpperSlice(RStrip(l), 0, 6);
  }

  /** The word SELECT, in any case, neither starts nor ends with whitespace. */
  lemma SelectWordEnds(p: string)
    requires |p| == 6 && Upper(p) == "SELECT"
    ensures !IsSpace(p[0]) && !IsSpace(p[5])
  {
    assert UpperChar(p[0]) == 'S' && UpperChar(p[5]) == 'T';
  }

  /** The guard ignores case and leading blanks. */
  lemma LowerCaseQueryAccepted(query: string)
    requires query == "  select * from t"
    ensures IsSelectQuery(query)
  {
    assert query[..2] == "  ";
    assert query[2..8] == "select";
    LowerSelectUpper(query[2..8]);
    SelectAfterSpaceAccepted(query, 2);
  }

  lemma LowerSelectUpper(p: string)
    requires p == "select"
    ensures Upper(p) == "SELECT"
  {
    assert UpperChar('s') == 'S' && UpperChar('e') == 'E' && UpperChar('l') == 'L';
    assert UpperChar('c') == 'C' && UpperChar('t') == 'T';
  }

  /** Python upper-cases the long s to S, so `ſelect` passes the guard. */
  lemma LongSQueryAccepted(query: string)
    requires query == "\U{17f}elect 1"
    ensures IsSelectQuery(query)
  {
    var p := query[..6];
    assert p == "\U{17f}elect";
    assert UpperChar(p[0]) == 'S' && UpperChar('e') == 'E' && UpperChar('l') == 'L';
    assert UpperChar('c') == 'C' && UpperChar('t') == 'T';
    assert Upper(p) == "SELECT";
    assert query[..0] == "" && query[0..6] == p;
    SelectAfterSpaceAccepted(query, 0);
  }

  /** Only the prefix is checked: a SELECT followed by a writing statement passes. */
  lemma ChainedStatementAccepted(query: string)
    requires query == "SELECT 1; DROP TABLE t"
    ensures IsSelectQuery(query)
  {
    assert query[..0] == "" && query[0..6] == "SELECT";
    SelectAfterSpaceAccepted(query, 0);
  }

  lemma DeleteRejected(query: string)
    requires query == "DELETE FROM t"
    ensures !IsSelectQuery(query)
  {
    assert query[0] == 'D' && query[|query| - 1] == 't';
    StripOfTrimmed("", query, "");
    assert "" + query + "" == query;
    assert Strip(query) == query;
    assert Upper(Strip(query))[..6][0] == 'D';
  }

  // ---------------------------------------------------------------------
  // Classifying a failed query

  const ReadOnlyMarker := "read-only transaction"
  const SecurityHead := "Database Security Error"
  const ReadOnlyPrefix := SecurityHead + ": Attempted to perform a write operation on a read-only connection. Original error: "
  const QueryFailedPrefix := "Database query failed: "

  /** The message `execute_sql` reports for an exception with text `error`:
      the original text is kept at the end, and the message is a security
      error exactly when the text mentions a read-only transaction in any case. */
  function FailureMessage(error: string): (m: string)
    ensures |m| >= |error| && m[|m| - |error|..] == error
    ensures StartsWith(m, SecurityHead) <==> Contains(Lower(error), ReadOnlyMarker)
  {
    if Contains(Lower(error), ReadOnlyMarker) then
      var m := ReadOnlyPrefix + error;
      assert m[..|SecurityHead|] == SecurityHead;
      m
    else
      var m := QueryFailedPrefix + error;
      assert m[9] == 'q' && SecurityHead[9] == 'S';
      m
  }

  /** The marker is recognised whatever its case in the exception text. */
  lemma ReadOnlyInAnyCase(error: string, marker: string)
    requires Contains(error, marker) && Lower(marker) == ReadOnlyMarker
    ensures StartsWith(FailureMessage(error), SecurityHead)
  {
    ContainsLower(error, marker);
  }

  /** `execute_sql(query)`: the guard is decided first, from the query text
      alone; an accepted query's records are returned as the database prints
      them, and its failure is reported as an error object. */
  function ExecuteSql(db: Database, query: string): (r: string)
    ensures !IsSelectQuery(query) ==> r == ErrorObject(SecurityMessage)
    ensures !IsSelectQuery(query) ==> ErrorMessageOf(r) == Some(SecurityMessage)
    ensures IsSelectQuery(query) && db.run(query).Success? ==> r == db.run(query).value
    ensures IsSelectQuery(query) && db.run(query).Failure? ==>
      ErrorMessageOf(r) == Some(FailureMessage(db.run(query).error))
  {
    if !IsSelectQuery(query) then
      ErrorObjectRoundTrip(SecurityMessage);
      ErrorObject(SecurityMessage)
    else
      match db.run(query)
      case Success(records) => records
      case Failure(e) =>
        ErrorObjectRoundTrip(FailureMessage(e));
        ErrorObject(FailureMessage(e))
  }

  /** A rejected query never reaches the database: the answer is the same
      whatever the database would have done. */
  lemma RejectionIgnoresDatabase(db1: Database, db2: Database, query: string)
    requires !IsSelectQuery(query)
    ensures ExecuteSql(db1, query) == ExecuteSql(db2, query)
  {
    assert ExecuteSql(db1, query) == ErrorObject(SecurityMessage);
  }

  // ---------------------------------------------------------------------
  // The schema text of one table

  function NotFoundMessage(table: string): string {
    "Table '" + table + "' not found or has no columns."
  }

  function SchemaHeader(table: string): string {
    "**Table: `" + table + "`**\n"
  }

  function ColumnLine(column: (string, string)): string {
    "- `" + column.0 + "` (" + column.1 + ")\n"
  }

  /** One line per row, in row order. */
  function ColumnLines(rows: seq<(string, string)>): string
    decreases |rows|
  {
    if |rows| == 0 then "" else ColumnLines(rows[..|rows| - 1]) + ColumnLine(rows[|rows| - 1])
  }

  /** What `_get_table_schema_with_connection` returns for the rows the
      database gives for `table`; it is an error object exactly when there
      are no rows. */
  function SchemaText(table: string, rows: seq<(string, string)>): (t: string)
    ensures StartsWith(t, ErrorObjectHead) <==> |rows| == 0
  {
    if |rows| == 0 then
      ErrorObjectRoundTrip(NotFoundMessage(table));
      ErrorObject(NotFoundMessage(table))
    else
      var t := SchemaHeader(table) + ColumnLines(rows);
      assert t[0] == '*' && ErrorObjectHead[0] == '{';
      t
  }

  /** `_get_table_schema_with_connection`, with its `+=` loop over the rows. */
  method TableSchemaText(table: string, rows: seq<(string, string)>) returns (text: string)
    ensures text == SchemaText(table, rows)
  {
    if |rows| == 0 {
      return ErrorObject(NotFoundMessage(table));
    }
    text := SchemaHeader(table);
    for i := 0 to |rows|
      invariant text == SchemaHeader(table) + ColumnLines(rows[..i])
    {
      assert rows[..i + 1][..i] == rows[..i];
      text := text + ColumnLine(rows[i]);
    }
    assert rows[..|rows|] == rows;
  }

  lemma {:induction false} ColumnLinesAppend(a: seq<(string, string)>, b: seq<(string, string)>)
    ensures ColumnLines(a + b) == ColumnLines(a) + ColumnLines(b)
    decreases |b|
  {
    if |b| == 0 {
      assert a + b == a;
    } else {
      var front, last := b[..|b| - 1], b[|b| - 1];
      assert (a + b)[..|a + b| - 1] == a + front;
      assert (a + b)[|a + b| - 1] == last;
      ColumnLinesAppend(a, front);
      var x, y, z := ColumnLines(a), ColumnLines(front), ColumnLine(last);
      assert ColumnLines(a + b) == (x + y) + z;
      assert ColumnLines(b) == y + z;
      assert (x + y) + z == x + (y + z);
    }
  }

  /** Row `k`'s line comes after the lines of the rows before it and before
      the lines of the rows after it. */
  lemma ColumnLinesInRowOrder(rows: seq<(string, string)>, k: nat)
    requires k < |rows|
    ensures ColumnLines(rows) == ColumnLines(rows[..k]) + ColumnLine(rows[k]) + ColumnLines(rows[k + 1..])
  {
    var front, back := rows[..k + 1], rows[k + 1..];
    assert rows == front + back;
    ColumnLinesAppend(front, back);
    assert front[..|front| - 1] == rows[..k] && front[|front| - 1] == rows[k];
    assert ColumnLines(front) == ColumnLines(rows[..k]) + ColumnLine(rows[k]);
  }

  const SchemaFailedPrefix := "Failed to get table schema: "

  /** `get_table_schema(table)` called without a connection: it opens its
      own, and an exception on the way becomes an error object. (Called with
      a connection, as the listing does, it is `SchemaText` and an exception
      propagates to the caller.) */
  function GetTableSchema(db: Database, table: string): (t: string)
    ensures db.columnsOf(table).Success? ==> t == SchemaText(table, db.columnsOf(table).value)
    ensures db.columnsOf(table).Failure? ==>
      ErrorMessageOf(t) == Some(SchemaFailedPrefix + db.columnsOf(table).error)
    ensures StartsWith(t, ErrorObjectHead) <==>
      db.columnsOf(table).Failure? || |db.columnsOf(table).value| == 0
  {
    match db.columnsOf(table)
    case Success(rows) => SchemaText(table, rows)
    case Failure(e) =>
      ErrorObjectRoundTrip(SchemaFailedPrefix + e);
      ErrorObject(SchemaFailedPrefix + e)
  }

  // ---------------------------------------------------------------------
  // Listing every table's schema

  const NoTablesMessage := "No tables found in the public schema."
  const ListFailedPrefix := "Failed to list tables and schemas: "

  /** How `list_tables_and_schemas` adds one table's schema text: a text
      containing "error" anywhere is reported as an error for that table. */
  function Entry(table: string, schema: string): string {
    if Contains(schema, "error") then "Error for table " + table + ": " + schema + "\n\n"
    else schema + "\n"
  }

  /** The entries of `names`, in order, or the text of the first lookup that
      raised. */
  function Schemas(db: Database, names: seq<string>): Result<string, string>
    decreases |names|
  {
    if |names| == 0 then Success("")
    else
      match Schemas(db, names[..|names| - 1])
      case Failure(e) => Failure(e)
      case Success(text) =>
        var table := names[|names| - 1];
        match db.columnsOf(table)
        case Failure(e) => Failure(e)
        case Success(rows) => Success(text + Entry(table, SchemaText(table, rows)))
  }

  /** `list_tables_and_schemas()`. */
  function Listing(db: Database): string {
    match db.tableNames
    case Failure(e) => ErrorObject(ListFailedPrefix + e)
    case Success(names) =>
      if |names| == 0 then ErrorObject(NoTablesMessage)
      else
        match Schemas(db, names)
        case Failure(e) => ErrorObject(ListFailedPrefix + e)
        case Success(text) => Strip(text)
  }

  /** Once the lookups of a prefix of the tables have failed, later tables
      do not change the outcome. */
  lemma {:induction false} SchemasFailureSticks(db: Database, names: seq<string>, k: nat)
    requires k <= |names| && Schemas(db, names[..k]).Failure?
    ensures Schemas(db, names) == Schemas(db, names[..k])
    decreases |names| - k
  {
    if k < |names| {
      assert names[..k + 1][..k] == names[..k];
      SchemasFailureSticks(db, names, k + 1);
    } else {
      assert names[..k] == names;
    }
  }

  /** The loop of `list_tables_and_schemas`: the first table whose lookup
      raises ends the listing with an error object. */
  method ListTablesAndSchemas(db: Database) returns (text: string)
    ensures text == Listing(db)
  {
    if db.tableNames.Failure? {
      return ErrorObject(ListFailedPrefix + db.tableNames.error);
    }
    var names := db.tableNames.value;
    if |names| == 0 {
      return ErrorObject(NoTablesMessage);
    }
    var all := "";
    for i := 0 to |names|
      invariant Schemas(db, names[..i]) == Success(all)
    {
      var table := names[i];
      assert names[..i + 1][..i] == names[..i];
      match db.columnsOf(table)
      case Failure(e) =>
        SchemasFailureSticks(db, names, i + 1);
        return ErrorObject(ListFailedPrefix + e);
      case Success(rows) =>
        var schema := TableSchemaText(table, rows);
        if Contains(schema, "error") {
          all := all + ("Error for table " + table + ": " + schema + "\n\n");
        } else {
          all := all + (schema + "\n");
        }
    }
    assert names[..|names|] == names;
    return Strip(all);
  }

  /** The first character of every entry: 'E' for a flagged table, '*' for
      a schema header. */
  lemma EntryStart(table: string, rows: seq<(string, string)>)
    ensures var e := Entry(table, SchemaText(table, rows)); |e| > 0 && (e[0] == 'E' || e[0] == '*')
  {
    if |rows| == 0 {
      ErrorObjectRoundTrip(NotFoundMessage(table));
    }
  }

  lemma {:induction false} SchemasStart(db: Database, names: seq<string>)
    requires |names| > 0 && Schemas(db, names).Success?
    ensures var t := Schemas(db, names).value; |t| > 0 && (t[0] == 'E' || t[0] == '*')
    decreases |names|
  {
    var table := names[|names| - 1];
    var rows := db.columnsOf(table).value;
    EntryStart(table, rows);
    if |names| > 1 {
      SchemasStart(db, names[..|names| - 1]);
    }
  }

  /** The listing is an error object exactly when the table list could not
      be read, is empty, or the lookup of some table raised; a table that
      merely has no columns is reported inside the listing. */
  lemma ListingErrorIff(db: Database)
    ensures StartsWith(Listing(db), ErrorObjectHead) <==>
      (db.tableNames.Failure? || |db.tableNames.value| == 0 || Schemas(db, db.tableNames.value).Failure?)
  {
    match db.tableNames
    case Failure(e) =>
      ErrorObjectRoundTrip(ListFailedPrefix + e);
    case Success(names) =>
      if |names| == 0 {
        ErrorObjectRoundTrip(NoTablesMessage);
      } else {
        match Schemas(db, names)
        case Failure(e) =>
          ErrorObjectRoundTrip(ListFailedPrefix + e);
        case Success(text) =>
          SchemasStart(db, names);
          StrippedListingStart(text);
      }
  }

  lemma StrippedListingStart(text: string)
    requires |text| > 0 && (text[0] == 'E' || text[0] == '*')
    ensures !StartsWith(Strip(text), ErrorObjectHead)
  {
    assert LStrip(text) == text;
    RStripKeeps(text, 1);
    assert Strip(text)[0] == text[0];
    assert ErrorObjectHead[0] == '{';
  }

  // ---------------------------------------------------------------------
  // The "error" test misreports ordinary names

  /** As written, a table with a column, a type or a name containing "error"
      is listed as an error although its schema was read correctly. */
  lemma ErrorInColumnNameMisreported(table: string, rows: seq<(string, string)>, k: nat)
    requires k < |rows| && Contains(rows[k].0, "error")
    ensures |rows| > 0 && !StartsWith(SchemaText(table, rows), ErrorObjectHead)
    ensures Entry(table, SchemaText(table, rows)) ==
      "Error for table " + table + ": " + SchemaText(table, rows) + "\n\n"
  {
    ColumnNameInLines(rows, k, "error");
    var lines := ColumnLines(rows);
    ContainsWithin(SchemaHeader(table), lines, "", "error");
    assert SchemaHeader(table) + lines + "" == SchemaText(table, rows);
  }

  /** A column name's text appears in the lines that describe the columns. */
  lemma ColumnNameInLines(rows: seq<(string, string)>, k: nat, part: string)
    requires k < |rows| && Contains(rows[k].0, part)
    ensures Contains(ColumnLines(rows), part)
  {
    var typePart := "` (" + rows[k].1 + ")\n";
    ContainsWithin("- `", rows[k].0, typePart, part);
    assert ColumnLine(rows[k]) == "- `" + rows[k].0 + typePart;
    ColumnLinesInRowOrder(rows, k);
    ContainsWithin(ColumnLines(rows[..k]), ColumnLine(rows[k]), ColumnLines(rows[k + 1..]), part);
  }

  /** The concrete case: table `results` with one column `error_code`. */
  lemma MisreportedExample(table: string, rows: seq<(string, string)>)
    requires table == "results" && rows == [("error_code", "integer")]
    ensures Entry(table, SchemaText(table, rows)) ==
      "Error for table results: " + ("**Table: `results`**\n" + "- `error_code` (integer)\n") + "\n\n"
  {
    assert rows[0].0[..5] == "error";
    ContainsAt(rows[0].0, "error", 0);
    ErrorInColumnNameMisreported(table, rows, 0);
    ExampleSchemaText(table, rows);
    assert "Error for table " + table + ": " == "Error for table results: ";
  }

  lemma ExampleSchemaText(table: string, rows: seq<(string, string)>)
    requires table == "results" && rows == [("error_code", "integer")]
    ensures SchemaText(table, rows) == "**Table: `results`**\n" + "- `error_code` (integer)\n"
  {
    assert rows[..0] == [];
    assert ColumnLines(rows) == ColumnLine(rows[0]) == "- `error_code` (integer)\n";
    assert SchemaHeader(table) == "**Table: `results`**\n";
  }

  /** What the test evidently means: a schema text that is itself an error object. */
  function CorrectedEntry(table: string, schema: string): string {
    if StartsWith(schema, ErrorObjectHead) then "Error for table " + table + ": " + schema + "\n\n"
    else schema + "\n"
  }

  /** With the corrected test, a table is reported as an error exactly when
      the database gave no columns for it, whatever its names contain; for
      such a table the corrected entry is the one the code writes. */
  lemma CorrectedEntryFlagsOnlyMissingTables(table: string, rows: seq<(string, string)>)
    ensures CorrectedEntry(table, SchemaText(table, rows)) ==
      if |rows| == 0 then "Error for table " + table + ": " + ErrorObject(NotFoundMessage(table)) + "\n\n"
      else SchemaText(table, rows) + "\n"
    ensures |rows| == 0 ==> CorrectedEntry(table, SchemaText(table, rows)) == Entry(table, SchemaText(table, rows))
  {
    if |rows| == 0 {
      ErrorObjectRoundTrip(NotFoundMessage(table));
    }
  }
}
