/** RAG/database.py: the DatabaseConnector, which builds the connection URL
    from the environment, describes the allowlisted part of the live schema
    to the language model, and runs validated queries. The SQLAlchemy engine
    and its inspector are outside the model: what they answer is an input. */
module Database {
  import opened Wrappers
  import opened Text
  import opened Env
  import opened Rows

  /** One entry of the inspector's column list: name, declared type as
      `str()` renders it, the primary-key and index flags, and the comment
      ("" when there is none). */
  datatype Column = Column(name: string, colType: string, primaryKey: bool, index: bool, comment: string)

  /** What the schema inspector answers. `None` for a list of names means
      that call raised (as does failing to create the inspector); a table
      missing from `columns` is one for which `get_columns` raises. */
  datatype Inspector = Inspector(
    tableNames: Option<seq<string>>,
    viewNames: Option<seq<string>>,
    columns: map<string, seq<Column>>)

  // The messages are written in short pieces so that the verifier can
  // look at their characters.
  const ConnectionFailure := "Database Schema: " + "Error retrieving " + "schema due to " + "connection failure."
  const SchemaHeader := "Database Schema " + "(Allowed Tables " + "and Columns - " + "excluding " + "blacklisted):\n"
  const NotFoundMarker := "Không " + "tìm thấy bảng " + "hoặc views nào"
  const NothingAllowed := NotFoundMarker + " được phép " + "truy vấn theo " + "cấu hình " + "ALLOWED_TABLES " + "trong database " + "thực tế.\n"
  const NoVisibleColumns := "  Không có cột " + "nào được phép " + "hiển thị.\n"
  const DetailsError := "Error retrieving " + "schema details " + "from database.\n"

  // ---------------------------------------------------------------------
  // Schema description

  /** The tables and views whose lower-cased name is allowlisted, in the
      order given and with their own spelling. */
  function AllowedEntities(names: seq<string>, allowed: set<string>): seq<string>
  {
    if names == [] then []
    else
      var last := names[|names| - 1];
      AllowedEntities(names[..|names| - 1], allowed) + (if Lower(last) in allowed then [last] else [])
  }

  /** The columns whose lower-cased name is not blacklisted, in order. */
  function AllowedColumns(columns: seq<Column>, blacklisted: set<string>): seq<Column>
  {
    if columns == [] then []
    else
      var last := columns[|columns| - 1];
      AllowedColumns(columns[..|columns| - 1], blacklisted) + (if Lower(last.name) !in blacklisted then [last] else [])
  }

  /** The tab-separated fields of the column at 1-based `position`. */
  function ColumnInfo(position: nat, column: Column): string
  {
    "    " + NatToString(position) + "\t" + column.name
      + "\t" + (if column.primaryKey then "Khóa Chính" else "")
      + "\t" + (if column.index then "Chỉ mục" else "")
      + "\t" + column.colType
  }

  /** The line for the column at 1-based `position`: the comment is
      appended only when there is one. */
  function ColumnLine(position: nat, column: Column): string
  {
    ColumnInfo(position, column) + (if column.comment != "" then ": " + column.comment else "") + "\n"
  }

  /** The lines of `columns`, numbered from 1. */
  function ColumnLines(columns: seq<Column>): string
  {
    if columns == [] then ""
    else ColumnLines(columns[..|columns| - 1]) + ColumnLine(|columns|, columns[|columns| - 1])
  }

  function SectionTitle(name: string): string
  {
    "\n-Bảng '" + name + "':\n"
  }

  /** What follows the title of an entity's section: its allowed columns,
      or a note that none may be shown. */
  function SectionBody(columns: seq<Column>, blacklisted: set<string>): string
  {
    var shown := AllowedColumns(columns, blacklisted);
    if shown == [] then NoVisibleColumns else ColumnLines(shown)
  }

  /** The section of one allowed entity. */
  function TableSection(name: string, columns: seq<Column>, blacklisted: set<string>): string
  {
    SectionTitle(name) + SectionBody(columns, blacklisted)
  }

  /** The text built for the allowed entities so far; `Broken` once
      `get_columns` raised, with the title of the entity it raised for
      already written. */
  datatype Progress = Done(text: string) | Broken(text: string)

  function DescribeEntities(names: seq<string>, inspector: Inspector, blacklisted: set<string>): Progress
  {
    if names == [] then Done("")
    else
      var name := names[|names| - 1];
      match DescribeEntities(names[..|names| - 1], inspector, blacklisted)
      case Broken(text) => Broken(text)
      case Done(text) =>
        if name in inspector.columns then Done(text + TableSection(name, inspector.columns[name], blacklisted))
        else Broken(text + SectionTitle(name))
  }

  /** What get_schema_description returns. */
  function DescribeSchema(connected: bool, allowed: set<string>, blacklisted: set<string>, inspector: Inspector): string
  {
    if !connected then ConnectionFailure
    else if inspector.tableNames.None? || inspector.viewNames.None? then SchemaHeader + DetailsError
    else
      var entities := AllowedEntities(inspector.tableNames.value + inspector.viewNames.value, allowed);
      if entities == [] then SchemaHeader + NothingAllowed
      else
        match DescribeEntities(entities, inspector, blacklisted)
        case Done(text) => SchemaHeader + text
        case Broken(text) => SchemaHeader + text + DetailsError
  }

  /** One more entity whose columns can be read adds its section. */
  lemma DescribeEntitiesStep(names: seq<string>, k: nat, inspector: Inspector, blacklisted: set<string>, text: string)
    requires k < |names| && names[k] in inspector.columns
    requires DescribeEntities(names[..k], inspector, blacklisted) == Done(text)
    ensures DescribeEntities(names[..k + 1], inspector, blacklisted)
            == Done(text + TableSection(names[k], inspector.columns[names[k]], blacklisted))
  {
    assert names[..k + 1][..k] == names[..k];
  }

  /** An entity whose columns cannot be read breaks the description
      after its title. */
  lemma DescribeEntitiesFails(names: seq<string>, k: nat, inspector: Inspector, blacklisted: set<string>, text: string)
    requires k < |names| && names[k] !in inspector.columns
    requires DescribeEntities(names[..k], inspector, blacklisted) == Done(text)
    ensures DescribeEntities(names, inspector, blacklisted) == Broken(text + SectionTitle(names[k]))
  {
    assert names[..k + 1][..k] == names[..k];
    BrokenPersists(names, k + 1, inspector, blacklisted);
  }

  /** Once `get_columns` raised, the later entities add nothing. */
  lemma {:induction false} BrokenPersists(names: seq<string>, k: nat, inspector: Inspector, blacklisted: set<string>)
    requires k <= |names|
    requires DescribeEntities(names[..k], inspector, blacklisted).Broken?
    ensures DescribeEntities(names, inspector, blacklisted) == DescribeEntities(names[..k], inspector, blacklisted)
    decreases |names| - k
  {
    if k < |names| {
      assert names[..k + 1][..k] == names[..k];
      BrokenPersists(names, k + 1, inspector, blacklisted);
    } else {
      assert names[..k] == names;
    }
  }

  // ---------------------------------------------------------------------
  // Properties of the schema description

  /** An entity is described exactly when its lower-cased name is
      allowlisted. */
  lemma {:induction false} AllowedEntitiesMembers(names: seq<string>, allowed: set<string>, x: string)
    ensures x in AllowedEntities(names, allowed) <==> x in names && Lower(x) in allowed
  {
    if names != [] {
      var init := names[..|names| - 1];
      assert names == init + [names[|names| - 1]];
      AllowedEntitiesMembers(init, allowed, x);
    }
  }

  /** Filtering keeps the order: the tables' part comes before the views'. */
  lemma {:induction false} AllowedEntitiesConcat(tables: seq<string>, views: seq<string>, allowed: set<string>)
    ensures AllowedEntities(tables + views, allowed) == AllowedEntities(tables, allowed) + AllowedEntities(views, allowed)
    decreases |views|
  {
    if views == [] {
      assert tables + views == tables;
    } else {
      var init := views[..|views| - 1];
      assert (tables + views)[..|tables + views| - 1] == tables + init;
      AllowedEntitiesConcat(tables, init, allowed);
    }
  }

  /** No blacklisted column is ever shown, and every other one is. */
  lemma {:induction false} AllowedColumnsMembers(columns: seq<Column>, blacklisted: set<string>, c: Column)
    ensures c in AllowedColumns(columns, blacklisted) <==> c in columns && Lower(c.name) !in blacklisted
  {
    if columns != [] {
      var init := columns[..|columns| - 1];
      assert columns == init + [columns[|columns| - 1]];
      AllowedColumnsMembers(init, blacklisted, c);
    }
  }

  /** The column lines, one per column, the k-th (from 0) numbered k + 1. */
  function NumberedLines(columns: seq<Column>): (lines: seq<string>)
    ensures |lines| == |columns|
  {
    seq(|columns|, k requires 0 <= k < |columns| => ColumnLine(k + 1, columns[k]))
  }

  /** The listing is the numbered lines, one after the other. */
  lemma {:induction false} ColumnLinesNumbered(columns: seq<Column>)
    ensures ColumnLines(columns) == Join("", NumberedLines(columns))
  {
    if columns != [] {
      var init := columns[..|columns| - 1];
      ColumnLinesNumbered(init);
      assert NumberedLines(columns) == NumberedLines(init) + [ColumnLine(|columns|, columns[|columns| - 1])];
      JoinAppend(NumberedLines(init), ColumnLine(|columns|, columns[|columns| - 1]));
    }
  }

  /** The description runs to the end exactly when get_columns succeeds
      for every allowed entity; it breaks off otherwise. */
  lemma {:induction false} DescribeEntitiesDone(names: seq<string>, inspector: Inspector, blacklisted: set<string>)
    ensures DescribeEntities(names, inspector, blacklisted).Done? <==> forall i :: 0 <= i < |names| ==> names[i] in inspector.columns
  {
    if names != [] {
      var init := names[..|names| - 1];
      DescribeEntitiesDone(init, inspector, blacklisted);
      DescribeEntitiesLast(names, inspector, blacklisted);
      AllKnownSplit(names, init, inspector.columns);
    }
  }

  /** The last entity decides whether a description that ran so far runs
      to the end. */
  lemma DescribeEntitiesLast(names: seq<string>, inspector: Inspector, blacklisted: set<string>)
    requires names != []
    ensures DescribeEntities(names, inspector, blacklisted).Done?
            <==> DescribeEntities(names[..|names| - 1], inspector, blacklisted).Done? && names[|names| - 1] in inspector.columns
  {
  }

  /** Every name is a key exactly when every name but the last is and the
      last one is. */
  lemma AllKnownSplit<V>(names: seq<string>, init: seq<string>, m: map<string, V>)
    requires names != [] && init == names[..|names| - 1]
    ensures (forall i :: 0 <= i < |names| ==> names[i] in m)
            <==> (forall i :: 0 <= i < |init| ==> init[i] in m) && names[|names| - 1] in m
  {
    assert forall i :: 0 <= i < |init| ==> init[i] == names[i];
  }

  /** The description of at least one entity opens with a section title. */
  lemma {:induction false} DescribeEntitiesOpens(names: seq<string>, inspector: Inspector, blacklisted: set<string>)
    requires names != []
    ensures StartsWith(DescribeEntities(names, inspector, blacklisted).text, SectionTitle(names[0]))
  {
    var init := names[..|names| - 1];
    if init == [] {
      assert names[0] == names[|names| - 1];
    } else {
      DescribeEntitiesOpens(init, inspector, blacklisted);
      var t := DescribeEntities(init, inspector, blacklisted).text;
      match DescribeEntities(init, inspector, blacklisted)
      case Broken(_) =>
      case Done(_) =>
        var name := names[|names| - 1];
        if name in inspector.columns {
          StartsWithConcat(t, TableSection(name, inspector.columns[name], blacklisted), SectionTitle(names[0]));
        } else {
          StartsWithConcat(t, SectionTitle(name), SectionTitle(names[0]));
        }
    }
  }

  /** What get_schema_description returns, by case: the connection failure
      text without an engine, and otherwise the header followed by the
      note that nothing is allowed exactly when no table or view is
      allowlisted. */
  lemma DescribeSchemaCases(connected: bool, allowed: set<string>, blacklisted: set<string>, inspector: Inspector)
    ensures var r := DescribeSchema(connected, allowed, blacklisted, inspector);
      && (r == ConnectionFailure <==> !connected)
      && (connected ==> StartsWith(r, SchemaHeader))
      && (r == SchemaHeader + NothingAllowed <==>
            connected && inspector.tableNames.Some? && inspector.viewNames.Some?
            && forall x :: x in inspector.tableNames.value + inspector.viewNames.value ==> Lower(x) !in allowed)
  {
    var r := DescribeSchema(connected, allowed, blacklisted, inspector);
    assert |ConnectionFailure| < |SchemaHeader|;
    if connected {
      DescribeSchemaHeader(allowed, blacklisted, inspector);
      if inspector.tableNames.Some? && inspector.viewNames.Some? {
        var names := inspector.tableNames.value + inspector.viewNames.value;
        if forall x :: x in names ==> Lower(x) !in allowed {
          NoneAllowed(names, allowed);
        } else {
          var x :| x in names && Lower(x) in allowed;
          SomeAllowedDescribed(allowed, blacklisted, inspector, x);
        }
      } else {
        DetailsErrorIsNotNothingAllowed();
      }
    }
  }

  /** With an engine, the description opens with the schema header. */
  lemma DescribeSchemaHeader(allowed: set<string>, blacklisted: set<string>, inspector: Inspector)
    ensures StartsWith(DescribeSchema(true, allowed, blacklisted, inspector), SchemaHeader)
  {
    var r := DescribeSchema(true, allowed, blacklisted, inspector);
    StartsWithConcat(SchemaHeader, r[|SchemaHeader|..], SchemaHeader);
    assert r == SchemaHeader + r[|SchemaHeader|..];
  }

  /** Names none of which is allowlisted leave nothing to describe. */
  lemma NoneAllowed(names: seq<string>, allowed: set<string>)
    requires forall x :: x in names ==> Lower(x) !in allowed
    ensures AllowedEntities(names, allowed) == []
  {
    var entities := AllowedEntities(names, allowed);
    if entities != [] {
      AllowedEntitiesMembers(names, allowed, entities[0]);
      assert false;
    }
  }

  /** One allowlisted name gives a section, not the nothing-allowed note. */
  lemma SomeAllowedDescribed(allowed: set<string>, blacklisted: set<string>, inspector: Inspector, x: string)
    requires inspector.tableNames.Some? && inspector.viewNames.Some?
    requires x in inspector.tableNames.value + inspector.viewNames.value && Lower(x) in allowed
    ensures DescribeSchema(true, allowed, blacklisted, inspector) != SchemaHeader + NothingAllowed
  {
    var r := DescribeSchema(true, allowed, blacklisted, inspector);
    var names := inspector.tableNames.value + inspector.viewNames.value;
    var entities := AllowedEntities(names, allowed);
    AllowedEntitiesMembers(names, allowed, x);
    DescribeEntitiesOpens(entities, inspector, blacklisted);
    var t := DescribeEntities(entities, inspector, blacklisted).text;
    assert t[0] == '\n';
    assert r[|SchemaHeader|] == t[0];
    assert NothingAllowed == "K" + NothingAllowed[1..];
    assert (SchemaHeader + NothingAllowed)[|SchemaHeader|] == 'K';
  }

  /** The details error is not the nothing-allowed note. */
  lemma DetailsErrorIsNotNothingAllowed()
    ensures SchemaHeader + DetailsError != SchemaHeader + NothingAllowed
  {
    assert NothingAllowed == "K" + NothingAllowed[1..];
    assert DetailsError == "Error" + DetailsError[5..];
    assert (SchemaHeader + DetailsError)[|SchemaHeader|] == 'E';
    assert (SchemaHeader + NothingAllowed)[|SchemaHeader|] == 'K';
  }

  /** When an inspector call raises, the description ends with the details
      error: when a name list is unavailable or an allowed entity's columns
      cannot be read. (A description that ran to the end can end with the
      same text too, through a column comment.) */
  lemma DescribeSchemaDetailsError(allowed: set<string>, blacklisted: set<string>, inspector: Inspector)
    requires inspector.tableNames.None? || inspector.viewNames.None?
             || exists x :: x in inspector.tableNames.value + inspector.viewNames.value
                  && Lower(x) in allowed && x !in inspector.columns
    ensures StartsWith(DescribeSchema(true, allowed, blacklisted, inspector), SchemaHeader)
    ensures EndsWith(DescribeSchema(true, allowed, blacklisted, inspector), DetailsError)
  {
    DescribeSchemaCases(true, allowed, blacklisted, inspector);
    if inspector.tableNames.Some? && inspector.viewNames.Some? {
      var names := inspector.tableNames.value + inspector.viewNames.value;
      var entities := AllowedEntities(names, allowed);
      var x :| x in names && Lower(x) in allowed && x !in inspector.columns;
      AllowedEntitiesMembers(names, allowed, x);
      var i :| 0 <= i < |entities| && entities[i] == x;
      DescribeEntitiesDone(entities, inspector, blacklisted);
    }
  }

  // ---------------------------------------------------------------------
  // Connection URL

  /** The URL the constructor hands to create_engine: DATABASE_URL when it
      is set and non-empty, else one assembled from the DB_* variables with
      their defaults, or none when the database, user name or password is
      missing. */
  function DatabaseUrl(env: Environment): Option<string>
  {
    var dbUrl := Lookup(env, "DATABASE_URL");
    if dbUrl != "" then Some(dbUrl)
    else
      var connection := Getenv(env, "DB_CONNECTION", "mysql+mysqlconnector");
      var host := Getenv(env, "DB_HOST", "localhost");
      var port := Getenv(env, "DB_PORT", "3306");
      var database := Lookup(env, "DB_DATABASE");
      var username := Lookup(env, "DB_USERNAME");
      var password := Lookup(env, "DB_PASSWORD");
      if database == "" || username == "" || password == "" then None
      else Some(connection + "://" + username + ":" + password + "@" + host + ":" + port + "/" + database)
  }

  /** A non-empty DATABASE_URL takes precedence over every DB_* variable. */
  lemma DatabaseUrlPrecedence(env: Environment, other: Environment)
    requires Lookup(env, "DATABASE_URL") != ""
    requires "DATABASE_URL" in other && other["DATABASE_URL"] == env["DATABASE_URL"]
    ensures DatabaseUrl(env) == DatabaseUrl(other) == Some(env["DATABASE_URL"])
  {
  }

  /** Without DATABASE_URL there is a URL exactly when the database, the
      user name and the password are all given. */
  lemma DatabaseUrlNeedsCredentials(env: Environment)
    requires Lookup(env, "DATABASE_URL") == ""
    ensures DatabaseUrl(env).Some? <==>
      Lookup(env, "DB_DATABASE") != "" && Lookup(env, "DB_USERNAME") != "" && Lookup(env, "DB_PASSWORD") != ""
  {
  }

  /** With only the credentials given, the driver, host and port default to
      MySQL Connector on localhost:3306. */
  lemma DatabaseUrlDefaults(database: string, username: string, password: string)
    requires database != "" && username != "" && password != ""
    ensures DatabaseUrl(map["DB_DATABASE" := database, "DB_USERNAME" := username, "DB_PASSWORD" := password])
            == Some("mysql+mysqlconnector://" + username + ":" + password + "@localhost:3306/" + database)
  {
    var env := map["DB_DATABASE" := database, "DB_USERNAME" := username, "DB_PASSWORD" := password];
    assert env.Keys == {"DB_DATABASE", "DB_USERNAME", "DB_PASSWORD"};
    assert "DATABASE_URL" !in env by {
      assert "DATABASE_URL"[1] != "DB_DATABASE"[1];
      assert "DATABASE_URL"[1] != "DB_USERNAME"[1];
    }
    assert "DB_CONNECTION" !in env by {
      assert "DB_CONNECTION"[3] != "DB_DATABASE"[3];
      assert "DB_CONNECTION"[3] != "DB_USERNAME"[3];
      assert "DB_CONNECTION"[3] != "DB_PASSWORD"[3];
    }
    assert "DB_HOST" !in env by {
      assert "DB_HOST"[3] != "DB_DATABASE"[3];
      assert "DB_HOST"[3] != "DB_USERNAME"[3];
      assert "DB_HOST"[3] != "DB_PASSWORD"[3];
    }
    assert "DB_PORT" !in env by {
      assert "DB_PORT"[3] != "DB_DATABASE"[3];
      assert "DB_PORT"[3] != "DB_USERNAME"[3];
      assert "DB_PORT"[4] != "DB_PASSWORD"[4];
    }
    assert Lookup(env, "DB_DATABASE") == database && Lookup(env, "DB_USERNAME") == username
        && Lookup(env, "DB_PASSWORD") == password;
    assert "mysql+mysqlconnector" + "://" + username + ":" + password + "@" + "localhost" + ":" + "3306" + "/" + database
        == "mysql+mysqlconnector://" + username + ":" + password + "@localhost:3306/" + database;
  }

  class DatabaseConnector {
    /** The URL of the engine create_engine built, or None. */
    var engine: Option<string>
    const allowedTables: set<string>
    const blacklistedColumns: set<string>
    /** Every query handed to execute_query, in order. */
    ghost var executed: seq<string>

    /** `createEngine(url)` tells whether create_engine accepts the URL. */
    constructor (env: Environment, allowedTables: set<string>, blacklistedColumns: set<string>,
                 createEngine: string -> bool)
      ensures this.allowedTables == allowedTables && this.blacklistedColumns == blacklistedColumns
      ensures engine == (var url := DatabaseUrl(env); if url.Some? && createEngine(url.value) then url else None)
      ensures executed == []
    {
      this.allowedTables := allowedTables;
      this.blacklistedColumns := blacklistedColumns;
      executed := [];
      var dbUrl := Lookup(env, "DATABASE_URL");
      var complete := true;
      if dbUrl == "" {
        var dbConnection := Getenv(env, "DB_CONNECTION", "mysql+mysqlconnector");
        var dbHost := Getenv(env, "DB_HOST", "localhost");
        var dbPort := Getenv(env, "DB_PORT", "3306");
        var dbDatabase := Lookup(env, "DB_DATABASE");
        var dbUsername := Lookup(env, "DB_USERNAME");
        var dbPassword := Lookup(env, "DB_PASSWORD");
        if dbDatabase == "" || dbUsername == "" || dbPassword == "" {
          // the source logs the missing variables and leaves the engine unset
          complete := false;
        } else {
          dbUrl := dbConnection + "://" + dbUsername + ":" + dbPassword + "@" + dbHost + ":" + dbPort + "/" + dbDatabase;
        }
      }
      if complete && createEngine(dbUrl) {
        engine := Some(dbUrl);
      } else {
        engine := None;
      }
    }

    /** execute_query: the rows the database returns for `query`
        (`fetched`, None when execution raises), or none at all without an
        engine. Every call is recorded in `executed`. */
    method ExecuteQuery(query: string, fetched: Option<seq<Row>>) returns (rows: seq<Row>)
      modifies this`executed
      ensures executed == old(executed) + [query]
      ensures rows == if engine.None? || fetched.None? then [] else fetched.value
    {
      executed := executed + [query];
      if engine.None? {
        return [];
      }
      rows := if fetched.Some? then fetched.value else [];
    }

    /** get_schema_description, with the source's loops over the entity
        names and over the allowed entities. */
    method GetSchemaDescription(inspector: Inspector) returns (description: string)
      ensures description == DescribeSchema(engine.Some?, allowedTables, blacklistedColumns, inspector)
    {
      if engine.None? {
        return ConnectionFailure;
      }
      var schemaDescription := SchemaHeader;
      if inspector.tableNames.None? || inspector.viewNames.None? {
        return schemaDescription + DetailsError;
      }
      var allEntityNames := inspector.tableNames.value + inspector.viewNames.value;
      var allowedPhysicalEntities := SelectAllowed(allEntityNames, allowedTables);
      if allowedPhysicalEntities == [] {
        return schemaDescription + NothingAllowed;
      }
      var text, failed := DescribeAllowed(allowedPhysicalEntities, inspector, blacklistedColumns);
      schemaDescription := schemaDescription + text;
      if failed {
        schemaDescription := schemaDescription + DetailsError;
      }
      return schemaDescription;
    }
  }

  /** The loop of get_schema_description over the allowed entities: the
      text it appends, and whether `get_columns` raised on the way. */
  method DescribeAllowed(entities: seq<string>, inspector: Inspector, blacklisted: set<string>)
    returns (text: string, failed: bool)
    ensures DescribeEntities(entities, inspector, blacklisted) == if failed then Broken(text) else Done(text)
  {
    text := "";
    for t := 0 to |entities|
      invariant DescribeEntities(entities[..t], inspector, blacklisted) == Done(text)
    {
      var tableName := entities[t];
      ghost var before := text;
      text := text + SectionTitle(tableName);
      if tableName !in inspector.columns {
        DescribeEntitiesFails(entities, t, inspector, blacklisted, before);
        return text, true;
      }
      var lines := DescribeTableColumns(inspector.columns[tableName], blacklisted);
      DescribeEntitiesStep(entities, t, inspector, blacklisted, before);
      ConcatAssoc(before, SectionTitle(tableName), lines);
      text := text + lines;
    }
    assert entities[..|entities|] == entities;
    return text, false;
  }

  /** The loop of get_schema_description that keeps the allowlisted
      tables and views. */
  method SelectAllowed(allEntityNames: seq<string>, allowedTables: set<string>) returns (allowedPhysicalEntities: seq<string>)
    ensures allowedPhysicalEntities == AllowedEntities(allEntityNames, allowedTables)
  {
    allowedPhysicalEntities := [];
    for i := 0 to |allEntityNames|
      invariant allowedPhysicalEntities == AllowedEntities(allEntityNames[..i], allowedTables)
    {
      assert allEntityNames[..i + 1][..i] == allEntityNames[..i];
      if Lower(allEntityNames[i]) in allowedTables {
        allowedPhysicalEntities := allowedPhysicalEntities + [allEntityNames[i]];
      }
    }
    assert allEntityNames[..|allEntityNames|] == allEntityNames;
  }

  /** The part of get_schema_description that lists one entity's allowed
      columns. */
  method DescribeTableColumns(columns: seq<Column>, blacklisted: set<string>) returns (lines: string)
    ensures lines == SectionBody(columns, blacklisted)
  {
    var allowedColumns := AllowedColumns(columns, blacklisted);
    if allowedColumns == [] {
      return NoVisibleColumns;
    }
    lines := DescribeColumns(allowedColumns);
  }

  /** The enumerate loop of get_schema_description over the allowed
      columns of one entity. */
  method DescribeColumns(allowedColumns: seq<Column>) returns (lines: string)
    ensures lines == ColumnLines(allowedColumns)
  {
    lines := "";
    for i := 0 to |allowedColumns|
      invariant lines == ColumnLines(allowedColumns[..i])
    {
      var col := allowedColumns[i];
      var colInfo := ColumnInfo(i + 1, col);
      if col.comment != "" {
        ConcatAssoc(colInfo, ": ", col.comment);
        colInfo := colInfo + ": " + col.comment;
      }
      assert allowedColumns[..i + 1][..i] == allowedColumns[..i];
      ConcatAssoc(lines, colInfo, "\n");
      lines := lines + colInfo + "\n";
    }
    assert allowedColumns[..|allowedColumns|] == allowedColumns;
  }
}
