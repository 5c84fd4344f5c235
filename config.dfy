/** RAG/config.py: AppConfig, which reads the database connection string
    and the language-model settings from the environment and refuses an
    incomplete configuration with a ValueError (here a `Failure` carrying
    its message). */
module Config {
  import opened Wrappers
  import opened Text
  import opened Env

  /** The settings of a configuration that was accepted. */
  datatype AppConfig = AppConfig(
    dbConnectionString: string,
    llmProvider: string,
    llmApiKey: string,
    llmModel: string)

  const DbConfigError := "Cấu hình Database (DB_CONNECTION_STRING hoặc biến riêng lẻ) chưa đầy đủ hoặc không hợp lệ trong .env."
  const DefaultOpenAiModel := "gpt-3.5-turbo"

  /** The ValueError message for a missing API key. */
  function KeyMissing(provider: string): string
  {
    if provider == "gemini" then "GEMINI_API_KEY chưa được cấu hình trong .env."
    else if provider == "openai" then "OPENAI_API_KEY chưa được cấu hình trong .env."
    else "API Key cho LLM Provider '" + provider + "' chưa được cấu hình trong .env."
  }

  /** The ValueError message for a missing model name. */
  function ModelMissing(provider: string): string
  {
    if provider == "gemini" then "GEMINI_MODEL chưa được cấu hình trong .env."
    else if provider == "openai" then "OPENAI_MODEL chưa được cấu hình trong .env."
    else "Tên model cho LLM Provider '" + provider + "' chưa được cấu hình trong .env."
  }

  /** The MySQL URL written out: the password and the port, with their
      separators, only when they are given. */
  function MysqlUrl(user: string, password: string, host: string, port: string, name: string): string
  {
    "mysql+mysqlconnector://" + user + (if password != "" then ":" + password else "")
      + "@" + host + (if port != "" then ":" + port else "") + "/" + name
  }

  /** The connection string, "" when there is none: DB_CONNECTION_STRING
      when it is non-empty, else a MySQL URL built from the separate
      variables when the host, database name and user are given and the
      driver (lower-cased, 'mysql' by default) is MySQL. */
  function DbConnectionString(env: Environment): string
  {
    var full := Lookup(env, "DB_CONNECTION_STRING");
    if full != "" then full
    else
      var host := Lookup(env, "DB_HOST");
      var name := Lookup(env, "DB_NAME");
      var user := Lookup(env, "DB_USER");
      var driver := Lower(Getenv(env, "DB_DRIVER", "mysql"));
      if host != "" && name != "" && user != "" && driver == "mysql" then
        MysqlUrl(user, Lookup(env, "DB_PASSWORD"), host, Lookup(env, "DB_PORT"), name)
      else ""
  }

  /** The provider, lower-cased, 'gemini' by default. */
  function Provider(env: Environment): string
  {
    Lower(Getenv(env, "LLM_PROVIDER", "gemini"))
  }

  /** The API key and model the provider reads; both "" for a provider
      the source does not know. OPENAI_MODEL defaults only when unset. */
  function ProviderSettings(env: Environment, provider: string): (string, string)
  {
    if provider == "gemini" then (Lookup(env, "GEMINI_API_KEY"), Lookup(env, "GEMINI_MODEL"))
    else if provider == "openai" then (Lookup(env, "OPENAI_API_KEY"), Getenv(env, "OPENAI_MODEL", DefaultOpenAiModel))
    else ("", "")
  }

  /** What AppConfig() yields for an environment: the database check first,
      then the key, then the model. */
  function Configure(env: Environment): Result<AppConfig, string>
  {
    var connection := DbConnectionString(env);
    if connection == "" then Failure(DbConfigError)
    else
      var provider := Provider(env);
      var (key, model) := ProviderSettings(env, provider);
      if key == "" then Failure(KeyMissing(provider))
      else if model == "" then Failure(ModelMissing(provider))
      else Success(AppConfig(connection, provider, key, model))
  }

  /** AppConfig.__init__, branch by branch, with the URL assembled from a
      list of parts that is then joined. */
  method LoadAppConfig(env: Environment) returns (r: Result<AppConfig, string>)
    ensures r == Configure(env)
  {
    var dbConnectionString := "";
    var dbConnStrFull := Lookup(env, "DB_CONNECTION_STRING");
    if dbConnStrFull != "" {
      dbConnectionString := dbConnStrFull;
    } else {
      var dbHost := Lookup(env, "DB_HOST");
      var dbPort := Lookup(env, "DB_PORT");
      var dbName := Lookup(env, "DB_NAME");
      var dbUser := Lookup(env, "DB_USER");
      var dbPassword := Lookup(env, "DB_PASSWORD");
      var dbDriver := Lower(Getenv(env, "DB_DRIVER", "mysql"));
      if dbHost != "" && dbName != "" && dbUser != "" {
        if dbDriver == "mysql" {
          var connStrParts := ["mysql+mysqlconnector://" + dbUser];
          if dbPassword != "" {
            connStrParts := connStrParts + [":" + dbPassword];
          }
          connStrParts := connStrParts + ["@" + dbHost];
          if dbPort != "" {
            connStrParts := connStrParts + [":" + dbPort];
          }
          connStrParts := connStrParts + ["/" + dbName];
          dbConnectionString := JoinParts(connStrParts, dbUser, dbPassword, dbHost, dbPort, dbName);
        }
      }
    }
    if dbConnectionString == "" {
      return Failure(DbConfigError);
    }

    var llmProvider := Lower(Getenv(env, "LLM_PROVIDER", "gemini"));
    var llmApiKey, llmModel;
    if llmProvider == "gemini" {
      llmApiKey := Lookup(env, "GEMINI_API_KEY");
      llmModel := Lookup(env, "GEMINI_MODEL");
    } else if llmProvider == "openai" {
      llmApiKey := Lookup(env, "OPENAI_API_KEY");
      llmModel := Getenv(env, "OPENAI_MODEL", DefaultOpenAiModel);
    } else {
      llmApiKey := "";
      llmModel := "";
    }
    if llmApiKey == "" {
      return Failure(KeyMissing(llmProvider));
    }
    if llmModel == "" {
      return Failure(ModelMissing(llmProvider));
    }
    return Success(AppConfig(dbConnectionString, llmProvider, llmApiKey, llmModel));
  }

  /** `"".join(conn_str_parts)` on the parts the constructor collected. */
  method JoinParts(parts: seq<string>, user: string, password: string, host: string, port: string, name: string)
    returns (joined: string)
    requires parts == UrlParts(user, password, host, port, name)
    ensures joined == MysqlUrl(user, password, host, port, name)
  {
    joined := "";
    for i := 0 to |parts|
      invariant joined == Join("", parts[..i])
    {
      JoinAppend(parts[..i], parts[i]);
      assert parts[..i + 1] == parts[..i] + [parts[i]];
      joined := joined + parts[i];
    }
    assert parts[..|parts|] == parts;
    MysqlUrlParts(user, password, host, port, name);
  }

  // ---------------------------------------------------------------------
  // Properties of the configuration

  /** conn_str_parts: the pieces of the URL, the password and the port
      only when they are given. */
  function UrlParts(user: string, password: string, host: string, port: string, name: string): seq<string>
  {
    ["mysql+mysqlconnector://" + user] + (if password != "" then [":" + password] else [])
      + ["@" + host] + (if port != "" then [":" + port] else []) + ["/" + name]
  }

  /** The URL is the join of the parts the constructor collects. */
  lemma MysqlUrlParts(user: string, password: string, host: string, port: string, name: string)
    ensures Join("", UrlParts(user, password, host, port, name)) == MysqlUrl(user, password, host, port, name)
  {
    var p0 := "mysql+mysqlconnector://" + user;
    var pwText := if password != "" then ":" + password else "";
    var ptText := if port != "" then ":" + port else "";
    var a := [p0] + (if password != "" then [":" + password] else []);
    var b := a + ["@" + host];
    var c := b + (if port != "" then [":" + port] else []);
    assert UrlParts(user, password, host, port, name) == c + ["/" + name];
    assert Join("", a) == p0 + pwText by {
      if password != "" { JoinAppend([p0], ":" + password); }
    }
    JoinAppend(a, "@" + host);
    ConcatAssoc(p0 + pwText, "@", host);
    assert Join("", c) == Join("", b) + ptText by {
      if port != "" { JoinAppend(b, ":" + port); } else { assert c == b; }
    }
    JoinAppend(c, "/" + name);
    ConcatAssoc(Join("", c), "/", name);
  }


  /** The database settings are checked before anything about the model:
      without a connection string the configuration is refused with the
      database message, whatever the provider settings. */
  lemma DatabaseCheckedFirst(env: Environment, llm: Environment)
    requires DbConnectionString(env) == ""
    requires forall k :: k in llm ==> k !in {"DB_CONNECTION_STRING", "DB_HOST", "DB_NAME", "DB_USER", "DB_PASSWORD", "DB_PORT", "DB_DRIVER"}
    ensures Configure(env + llm) == Failure(DbConfigError)
  {
    var merged := env + llm;
    forall k | k in {"DB_CONNECTION_STRING", "DB_HOST", "DB_NAME", "DB_USER", "DB_PASSWORD", "DB_PORT", "DB_DRIVER"}
      ensures Lookup(merged, k) == Lookup(env, k) && Getenv(merged, k, "mysql") == Getenv(env, k, "mysql")
    {
      assert k !in llm;
    }
    assert DbConnectionString(merged) == DbConnectionString(env);
  }

  /** Without DB_CONNECTION_STRING there is a connection string exactly
      when the host, database name and user are given and the driver is
      MySQL; otherwise the configuration is refused with the database
      message. */
  lemma IncompleteDatabaseRefused(env: Environment)
    requires Lookup(env, "DB_CONNECTION_STRING") == ""
    ensures DbConnectionString(env) == "" <==>
      Lookup(env, "DB_HOST") == "" || Lookup(env, "DB_NAME") == "" || Lookup(env, "DB_USER") == ""
      || Lower(Getenv(env, "DB_DRIVER", "mysql")) != "mysql"
    ensures DbConnectionString(env) == "" ==> Configure(env) == Failure(DbConfigError)
  {
    var url := MysqlUrl(Lookup(env, "DB_USER"), Lookup(env, "DB_PASSWORD"), Lookup(env, "DB_HOST"),
                        Lookup(env, "DB_PORT"), Lookup(env, "DB_NAME"));
    assert |url| > 0;
  }

  /** The API key is checked before the model: for Gemini or OpenAI
      without its key, the key message is given whatever the model
      variable holds. */
  lemma KeyCheckedBeforeModel(env: Environment)
    requires DbConnectionString(env) != ""
    requires Provider(env) == "gemini" || Provider(env) == "openai"
    requires Lookup(env, if Provider(env) == "gemini" then "GEMINI_API_KEY" else "OPENAI_API_KEY") == ""
    ensures Configure(env) == Failure(KeyMissing(Provider(env)))
  {
  }

  /** An accepted configuration has a connection string, a supported
      provider, an API key and a model. */
  lemma AcceptedConfigComplete(env: Environment)
    requires Configure(env).Success?
    ensures var c := Configure(env).value;
      c.dbConnectionString != "" && c.llmProvider in {"gemini", "openai"} && c.llmApiKey != "" && c.llmModel != ""
  {
  }

  /** A provider other than Gemini or OpenAI is always refused for its API
      key: the model-name message for such a provider is never reached. */
  lemma UnsupportedProviderRefused(env: Environment)
    requires DbConnectionString(env) != ""
    requires Provider(env) != "gemini" && Provider(env) != "openai"
    ensures Configure(env) == Failure("API Key cho LLM Provider '" + Provider(env) + "' chưa được cấu hình trong .env.")
  {
  }

  /** OPENAI_MODEL falls back to gpt-3.5-turbo only when it is unset; set
      to "" it is refused. */
  lemma OpenAiModelDefault(env: Environment)
    requires DbConnectionString(env) != "" && Provider(env) == "openai" && Lookup(env, "OPENAI_API_KEY") != ""
    ensures "OPENAI_MODEL" !in env ==> Configure(env).Success? && Configure(env).value.llmModel == DefaultOpenAiModel
    ensures "OPENAI_MODEL" in env && env["OPENAI_MODEL"] == "" ==> Configure(env) == Failure("OPENAI_MODEL chưa được cấu hình trong .env.")
  {
  }

  /** Without DB_CONNECTION_STRING the driver is matched without regard to
      ASCII case, and the URL is the MySQL one. */
  lemma SeparateVariablesGiveMysqlUrl(env: Environment)
    requires Lookup(env, "DB_CONNECTION_STRING") == ""
    requires Lookup(env, "DB_HOST") != "" && Lookup(env, "DB_NAME") != "" && Lookup(env, "DB_USER") != ""
    requires "DB_DRIVER" !in env || Lower(env["DB_DRIVER"]) == "mysql"
    ensures DbConnectionString(env) == MysqlUrl(Lookup(env, "DB_USER"), Lookup(env, "DB_PASSWORD"),
                                                Lookup(env, "DB_HOST"), Lookup(env, "DB_PORT"), Lookup(env, "DB_NAME"))
  {
    if "DB_DRIVER" !in env {
      assert Lower("mysql") == "mysql";
    }
  }
}
