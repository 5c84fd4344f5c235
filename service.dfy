/** RAG/service.py: the DatabaseChatbotService, which picks the schema text
    for the prompt (live description or the static file), asks the language
    model for SQL, and lets the query reach the database only after the
    validator accepted it. The model's reply, the parser, the file and the
    database's answer are inputs. */
module Service {
  import opened Wrappers
  import opened Text
  import opened SqlUtils
  import opened Rows
  import opened Database

  // The messages are written in short pieces so that the verifier can
  // look at their characters.
  const FileUnavailable := "Database schema " + "description file " + "not found or " + "could not be read."
  const FallbackTrigger := "Error retrieving " + "schema details"
  const LlmFailure := "Xin lỗi, tôi " + "gặp sự cố khi " + "tạo truy vấn SQL."
  const SqlRejected := "Xin lỗi, truy " + "vấn SQL được " + "tạo ra không " + "hợp lệ hoặc bị " + "cấm vì lý do " + "bảo mật."

  /** get_schema_description_from_file: the file's content, or a fixed
      message when it is missing or cannot be read (`None`). */
  function SchemaFromFile(file: Option<string>): string
  {
    if file.Some? then file.value else FileUnavailable
  }

  /** The test that sends get_schema_description to the file. */
  predicate FallsBack(description: string)
  {
    StartsWith(description, FallbackTrigger) || Contains(description, NotFoundMarker)
  }

  /** What get_schema_description returns for the connector's text. */
  function ChooseSchema(description: string, file: Option<string>): string
  {
    if FallsBack(description) then SchemaFromFile(file) else description
  }

  /** The test that makes process_query return the schema text itself. */
  predicate BlocksQuery(schema: string)
  {
    schema == "" || StartsWith(schema, "Error") || Contains(schema, NotFoundMarker)
  }

  /** The tuples process_query returns: one message, or the query, its rows
      and their table. */
  datatype Reply = Refused(message: string) | Answered(sql: string, rows: seq<Row>, formatted: string)

  /** The text of get_schema_description for a connector. */
  function ServiceSchema(connector: DatabaseConnector, inspector: Inspector, file: Option<string>): string
    reads connector
  {
    ChooseSchema(DescribeSchema(connector.engine.Some?, connector.allowedTables, connector.blacklistedColumns, inspector), file)
  }

  class DatabaseChatbotService {
    const connector: DatabaseConnector
    /** The content of the file at db_context_path; None when it is missing
        or cannot be read. */
    const contextFile: Option<string>

    constructor (connector: DatabaseConnector, contextFile: Option<string>)
      ensures this.connector == connector && this.contextFile == contextFile
    {
      this.connector := connector;
      this.contextFile := contextFile;
    }

    /** get_schema_description: the live description, or the file when the
        live one failed in the way the service tests for. */
    method GetSchemaDescription(inspector: Inspector) returns (schema: string)
      ensures schema == ServiceSchema(connector, inspector, contextFile)
    {
      var dbSchemaDescription := connector.GetSchemaDescription(inspector);
      if StartsWith(dbSchemaDescription, FallbackTrigger) || Contains(dbSchemaDescription, NotFoundMarker) {
        return SchemaFromFile(contextFile);
      }
      return dbSchemaDescription;
    }

    /** process_query. `llmReply` is what the model generated (None when
        the call raised), `parse` is the SQL parser, and `fetched` the rows
        the database returns for the query (None when execution raises). */
    method ProcessQuery(inspector: Inspector, llmReply: Option<string>, parse: string -> Parse,
                        fetched: Option<seq<Row>>) returns (reply: Reply)
      modifies connector`executed
      ensures var schema := ServiceSchema(connector, inspector, contextFile);
        if BlocksQuery(schema) then
          reply == Refused(schema) && connector.executed == old(connector.executed)
        else if llmReply.None? then
          reply == Refused(LlmFailure) && connector.executed == old(connector.executed)
        else
          var sql := CleanSqlQuery(llmReply.value);
          if !ValidSql(sql, parse(sql), connector.allowedTables) then
            reply == Refused(SqlRejected) && connector.executed == old(connector.executed)
          else
            var rows := if connector.engine.None? || fetched.None? then [] else fetched.value;
            reply == Answered(sql, rows, RenderTable(rows)) && connector.executed == old(connector.executed) + [sql]
      /** Only a query the validator accepted ever reaches the database. */
      ensures connector.executed == old(connector.executed)
              || (reply.Answered? && connector.executed == old(connector.executed) + [reply.sql]
                  && ValidSql(reply.sql, parse(reply.sql), connector.allowedTables))
    {
      var dbSchema := GetSchemaDescription(inspector);
      if dbSchema == "" || StartsWith(dbSchema, "Error") || Contains(dbSchema, NotFoundMarker) {
        return Refused(dbSchema);
      }
      if llmReply.None? {
        return Refused(LlmFailure);
      }
      var sqlCleaned := CleanSqlQuery(llmReply.value);
      var valid := IsValidSql(sqlCleaned, parse(sqlCleaned), connector.allowedTables);
      if !valid {
        return Refused(SqlRejected);
      }
      var rawResults := connector.ExecuteQuery(sqlCleaned, fetched);
      var formattedResultsString := FormatResults(rawResults);
      return Answered(sqlCleaned, rawResults, formattedResultsString);
    }
  }

  // ---------------------------------------------------------------------
  // Which schema texts reach the language model

  /** The connector's text never starts with "Error": it opens with
      "Database Schema". */
  lemma DescribeSchemaOpening(connected: bool, allowed: set<string>, blacklisted: set<string>, inspector: Inspector)
    ensures var r := DescribeSchema(connected, allowed, blacklisted, inspector);
      |r| > 0 && r[0] == 'D'
  {
    var r := DescribeSchema(connected, allowed, blacklisted, inspector);
    if connected {
      DescribeSchemaCases(connected, allowed, blacklisted, inspector);
      assert r[0] == SchemaHeader[0];
    }
  }

  /** The service falls back to the file exactly when the connector's text
      contains the "nothing found" marker: the "Error retrieving schema
      details" prefix it also tests for never occurs. */
  lemma FallbackOnlyOnMarker(connected: bool, allowed: set<string>, blacklisted: set<string>, inspector: Inspector)
    ensures var r := DescribeSchema(connected, allowed, blacklisted, inspector);
      FallsBack(r) <==> Contains(r, NotFoundMarker)
  {
    DescribeSchemaOpening(connected, allowed, blacklisted, inspector);
  }

  /** A text without the letter K cannot contain the marker. */
  lemma WithoutMarker(s: string)
    requires 'K' !in s
    ensures !Contains(s, NotFoundMarker)
  {
    if Contains(s, NotFoundMarker) {
      ContainsFirstChar(s, NotFoundMarker);
    }
  }

  /** The connector's own failure texts neither send the service to the
      file nor stop process_query: they go to the language model as the
      schema. */
  lemma ConnectorFailuresReachModel(connected: bool, allowed: set<string>, blacklisted: set<string>,
                                    inspector: Inspector, file: Option<string>)
    requires !connected || inspector.tableNames.None? || inspector.viewNames.None?
    ensures var r := DescribeSchema(connected, allowed, blacklisted, inspector);
      && (r == ConnectionFailure || r == SchemaHeader + DetailsError)
      && ChooseSchema(r, file) == r
      && !BlocksQuery(r)
  {
    FailureTextsPass();
  }

  /** Neither failure text of the connector sends the service to the file
      or stops process_query. */
  lemma FailureTextsPass()
    ensures !FallsBack(ConnectionFailure) && !BlocksQuery(ConnectionFailure)
    ensures !FallsBack(SchemaHeader + DetailsError) && !BlocksQuery(SchemaHeader + DetailsError)
  {
    assert 'K' !in ConnectionFailure && ConnectionFailure[0] == 'D';
    PassesThrough(ConnectionFailure);
    DetailsErrorPasses();
  }

  lemma DetailsErrorPasses()
    ensures !FallsBack(SchemaHeader + DetailsError) && !BlocksQuery(SchemaHeader + DetailsError)
  {
    assert 'K' !in SchemaHeader && 'K' !in DetailsError;
    var t := SchemaHeader + DetailsError;
    assert t[0] == SchemaHeader[0] == 'D';
    PassesThrough(t);
  }

  /** A text that opens with 'D' and has no letter K goes to the language
      model as it is. */
  lemma PassesThrough(s: string)
    requires s != [] && s[0] == 'D' && 'K' !in s
    ensures !FallsBack(s) && !BlocksQuery(s)
  {
    assert FallbackTrigger[0] == 'E';
    WithoutMarker(s);
  }

  /** When no table or view is allowlisted, the service uses the file, and
      a missing file's message is not one process_query stops on. */
  lemma NothingAllowedUsesFile(allowed: set<string>, blacklisted: set<string>, inspector: Inspector, file: Option<string>)
    requires inspector.tableNames.Some? && inspector.viewNames.Some?
    requires forall x :: x in inspector.tableNames.value + inspector.viewNames.value ==> Lower(x) !in allowed
    ensures ChooseSchema(DescribeSchema(true, allowed, blacklisted, inspector), file) == SchemaFromFile(file)
    ensures file.None? ==> !BlocksQuery(SchemaFromFile(file))
  {
    DescribeSchemaCases(true, allowed, blacklisted, inspector);
    MarkerInNothingAllowed();
    FileMessageReachesModel();
  }

  /** The missing-file message is not one process_query stops on. */
  lemma FileMessageReachesModel()
    ensures !BlocksQuery(FileUnavailable)
  {
    assert 'K' !in FileUnavailable && FileUnavailable[0] == 'D';
    WithoutMarker(FileUnavailable);
  }

  /** The "nothing allowed" text carries the marker. */
  lemma MarkerInNothingAllowed()
    ensures Contains(SchemaHeader + NothingAllowed, NotFoundMarker)
  {
    var rest := NothingAllowed[|NotFoundMarker|..];
    assert NothingAllowed == NotFoundMarker + rest;
    ContainsMiddle(SchemaHeader, NotFoundMarker, rest);
    assert SchemaHeader + NotFoundMarker + rest == SchemaHeader + NothingAllowed;
  }
}
