/** The earlier database tool (`enem-ai-analyst/tools/postgres_mcp.py`):
    the same read-only guard as the later one, and a single error message
    for every failure of the query. */
module DraftPostgresMcp {
  import opened Wrappers
  import opened Text
  import opened JsonText
  import PostgresMcp

  /** `execute_sql(query)`, where `run(query)` stands for connecting with
      psycopg2 and reading the records (or the text of the exception raised). */
  function ExecuteSql(run: string -> Result<string, string>, query: string): (r: string)
    ensures !PostgresMcp.IsSelectQuery(query) ==> ErrorMessageOf(r) == Some(PostgresMcp.SecurityMessage)
    ensures PostgresMcp.IsSelectQuery(query) && run(query).Success? ==> r == run(query).value
    ensures PostgresMcp.IsSelectQuery(query) && run(query).Failure? ==>
      ErrorMessageOf(r) == Some(PostgresMcp.QueryFailedPrefix + run(query).error)
  {
    if !PostgresMcp.IsSelectQuery(query) then
      ErrorObjectRoundTrip(PostgresMcp.SecurityMessage);
      ErrorObject(PostgresMcp.SecurityMessage)
    else
      match run(query)
      case Success(records) => records
      case Failure(e) =>
        ErrorObjectRoundTrip(PostgresMcp.QueryFailedPrefix + e);
        ErrorObject(PostgresMcp.QueryFailedPrefix + e)
  }

  /** A failure mentioning a read-only transaction is worded differently by
      the two tools; any other failure is worded alike. */
  lemma FailureAnswers(e: string)
    ensures ErrorObject(PostgresMcp.FailureMessage(e)) == ErrorObject(PostgresMcp.QueryFailedPrefix + e)
        <==> !Contains(Lower(e), PostgresMcp.ReadOnlyMarker)
  {
    var m, q := PostgresMcp.FailureMessage(e), PostgresMcp.QueryFailedPrefix + e;
    if Contains(Lower(e), PostgresMcp.ReadOnlyMarker) {
      ErrorObjectRoundTrip(m);
      ErrorObjectRoundTrip(q);
      assert m[9] == PostgresMcp.SecurityHead[9] == 'S';
      assert q[9] == 'q';
    } else {
      assert m == q;
    }
  }

  /** The two tools answer alike, except that the later one reports a
      failure mentioning a read-only transaction as a security error. */
  lemma AgreesWithLaterTool(db: PostgresMcp.Database, query: string)
    ensures ExecuteSql(db.run, query) == PostgresMcp.ExecuteSql(db, query) <==>
      !(PostgresMcp.IsSelectQuery(query) && db.run(query).Failure? &&
        Contains(Lower(db.run(query).error), PostgresMcp.ReadOnlyMarker))
  {
    if PostgresMcp.IsSelectQuery(query) && db.run(query).Failure? {
      var e := db.run(query).error;
      assert ExecuteSql(db.run, query) == ErrorObject(PostgresMcp.QueryFailedPrefix + e);
      assert PostgresMcp.ExecuteSql(db, query) == ErrorObject(PostgresMcp.FailureMessage(e));
      FailureAnswers(e);
    }
  }
}
