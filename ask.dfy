/** The `POST /ask` handler (main.py, lines 50-103) as a straight-line function
    with early returns.  The completion service and the database are oracles:
    total functions from a prompt, or from a SQL text, to either a result or
    the text of the exception they raised.  The response carries the outcome
    and the list of oracle calls the handler made, in order, so that "the
    service is never called" is a statement about that list. */
module AskHandler {
  import opened PyStr
  import opened SqlCleanup
  import opened Config
  import opened Prompt

  /** What an oracle call gives back: its value, or the text of the exception it raised. */
  datatype Result<T> = Ok(value: T) | Failed(cause: string)

  /** One call into an oracle. */
  datatype Call = Complete(prompt: string) | Execute(sql: string)

  /** The tagged outcome of one request.  Every outcome but `Success` is sent
      back as an object with the single key "error" whose value is `message`;
      `ExecutionError` also keeps apart the SQL text that failed, which the
      message embeds. */
  datatype Outcome<Row> =
    | ConfigError(message: string)
    | GenerationError(message: string)
    | ExecutionError(message: string, sql: string)
    | Success(rows: seq<Row>)

  datatype Response<Row> = Response(outcome: Outcome<Row>, calls: seq<Call>)

  const EngineMissingMessage: string :=
    "A conexão com o banco de dados não foi configurada corretamente no servidor."
  const CompletionFailurePrefix: string := "Erro ao chamar a API da OpenAI: "
  const ExecutionFailurePrefix: string := "Erro ao executar a consulta no banco de dados: "
  const FailedSqlOpening: string := "\n[SQL Gerado que falhou: "
  const FailedSqlClosing: string := "]"

  /** The error text for a failed query: the driver's message, then the exact
      SQL that was sent, verbatim and in full. */
  function ExecutionFailureMessage(cause: string, sql: string): (message: string)
    ensures OccursAt(message, cause, |ExecutionFailurePrefix|)
    ensures OccursAt(message, sql, |ExecutionFailurePrefix| + |cause| + |FailedSqlOpening|)
    ensures Contains(message, sql)
  {
    var m := Fill(ExecutionFailurePrefix, cause, FailedSqlOpening, sql, FailedSqlClosing);
    assert OccursAt(m, sql, |ExecutionFailurePrefix| + |cause| + |FailedSqlOpening|);
    m
  }

  /** The request passes the two configuration checks. */
  predicate Configured(app: App) {
    app.engine.Some? && !SchemaMisconfigured(app.schema)
  }

  /** Handle one question.  The oracle calls made are a prefix of: the
      completion call with the prompt built from the schema and the question,
      then the database call with the cleaned reply; the number made tells
      which stage ended the request. */
  function AskMyData<Row>(app: App, question: string,
                          complete: string -> Result<string>,
                          execute: string -> Result<seq<Row>>): (resp: Response<Row>)
    ensures resp.calls == [] <==> resp.outcome.ConfigError?
    ensures |resp.calls| == 1 <==> resp.outcome.GenerationError?
    ensures |resp.calls| == 2 <==> resp.outcome.ExecutionError? || resp.outcome.Success?
    ensures resp.calls != [] ==> resp.calls[0] == Complete(BuildPrompt(app.schema, question))
    ensures |resp.calls| == 2 ==>
              complete(BuildPrompt(app.schema, question)).Ok?
              && resp.calls[1] == Execute(CleanGeneratedSql(complete(BuildPrompt(app.schema, question)).value))
  {
    if app.engine.None? then
      Response(ConfigError(EngineMissingMessage), [])
    else if SchemaMisconfigured(app.schema) then
      Response(ConfigError(app.schema), [])
    else
      var prompt := BuildPrompt(app.schema, question);
      match complete(prompt)
      case Failed(cause) =>
        Response(GenerationError(CompletionFailurePrefix + cause), [Complete(prompt)])
      case Ok(raw) =>
        var sql := CleanGeneratedSql(raw);
        var calls := [Complete(prompt), Execute(sql)];
        match execute(sql)
        case Failed(cause) => Response(ExecutionError(ExecutionFailureMessage(cause, sql), sql), calls)
        case Ok(rows) => Response(Success(rows), calls)
  }

  // ---------------------------------------------------------------------------
  // Configuration gating

  /** Without an engine the request ends with the database-configuration error
      before anything else, whatever the schema and whatever the oracles. */
  lemma EngineMissingShortCircuits<Row>(app: App, question: string,
                                        complete: string -> Result<string>, execute: string -> Result<seq<Row>>,
                                        complete': string -> Result<string>, execute': string -> Result<seq<Row>>)
    requires app.engine.None?
    ensures AskMyData(app, question, complete, execute) == Response(ConfigError(EngineMissingMessage), [])
    ensures AskMyData(app, question, complete, execute) == AskMyData(app, question, complete', execute')
  {
  }

  /** With an engine but a schema carrying the marker, the schema text itself is
      the error and no oracle is called. */
  lemma SchemaErrorShortCircuits<Row>(app: App, question: string,
                                      complete: string -> Result<string>, execute: string -> Result<seq<Row>>,
                                      complete': string -> Result<string>, execute': string -> Result<seq<Row>>)
    requires app.engine.Some? && SchemaMisconfigured(app.schema)
    ensures AskMyData(app, question, complete, execute) == Response(ConfigError(app.schema), [])
    ensures AskMyData(app, question, complete, execute) == AskMyData(app, question, complete', execute')
  {
  }

  /** A process started with a database but with neither the schema variable
      nor the schema file answers every question with the sentinel, calling no
      oracle. */
  lemma NoSchemaSourceAnswersSentinel<Row>(dbUrl: Option<string>, envSchema: Option<string>, question: string,
                                           complete: string -> Result<string>, execute: string -> Result<seq<Row>>)
    requires Truthy(dbUrl) && !Truthy(envSchema)
    ensures AskMyData(Startup(dbUrl, envSchema, None), question, complete, execute)
         == Response(ConfigError(SchemaErrorSentinel), [])
  {
    SentinelIsMisconfigured();
  }

  // ---------------------------------------------------------------------------
  // After the gate

  /** A failed completion call ends the request with a generation error and the
      database is never called. */
  lemma GenerationFailureSkipsDatabase<Row>(app: App, question: string,
                                            complete: string -> Result<string>,
                                            execute: string -> Result<seq<Row>>, execute': string -> Result<seq<Row>>)
    requires Configured(app)
    requires complete(BuildPrompt(app.schema, question)).Failed?
    ensures AskMyData(app, question, complete, execute)
         == Response(GenerationError(CompletionFailurePrefix + complete(BuildPrompt(app.schema, question)).cause),
                     [Complete(BuildPrompt(app.schema, question))])
    ensures AskMyData(app, question, complete, execute) == AskMyData(app, question, complete, execute')
  {
  }

  /** A failed database call ends the request with an execution error whose
      message holds the driver's message and the exact cleaned SQL. */
  lemma ExecutionFailureReportsSql<Row>(app: App, question: string, raw: string,
                                        complete: string -> Result<string>, execute: string -> Result<seq<Row>>)
    requires Configured(app)
    requires complete(BuildPrompt(app.schema, question)) == Ok(raw)
    requires execute(CleanGeneratedSql(raw)).Failed?
    ensures var resp := AskMyData(app, question, complete, execute);
            && resp.outcome.ExecutionError?
            && resp.outcome.sql == CleanGeneratedSql(raw)
            && Contains(resp.outcome.message, CleanGeneratedSql(raw))
            && Contains(resp.outcome.message, execute(CleanGeneratedSql(raw)).cause)
  {
  }

  /** A successful database call returns its rows unchanged. */
  lemma SuccessReturnsRows<Row>(app: App, question: string, raw: string, rows: seq<Row>,
                                complete: string -> Result<string>, execute: string -> Result<seq<Row>>)
    requires Configured(app)
    requires complete(BuildPrompt(app.schema, question)) == Ok(raw)
    requires execute(CleanGeneratedSql(raw)) == Ok(rows)
    ensures AskMyData(app, question, complete, execute).outcome == Success(rows)
  {
  }

  // ---------------------------------------------------------------------------
  // Properties of every request

  /** Whatever the completion service replies, the SQL sent to the database has
      no fence, no line break and no surrounding whitespace. */
  lemma ExecutedSqlIsClean<Row>(app: App, question: string,
                                complete: string -> Result<string>, execute: string -> Result<seq<Row>>)
    ensures forall k | 0 <= k < |AskMyData(app, question, complete, execute).calls| ::
              var call := AskMyData(app, question, complete, execute).calls[k];
              call.Execute? ==> !Contains(call.sql, Fence) && '\n' !in call.sql && '\r' !in call.sql && Trimmed(call.sql)
  {
  }

  /** Asking the same question twice under the same configuration sends the
      completion service the same prompt, however the oracles behave. */
  lemma SameQuestionSamePrompt<Row>(app: App, question: string,
                                    complete: string -> Result<string>, execute: string -> Result<seq<Row>>,
                                    complete': string -> Result<string>, execute': string -> Result<seq<Row>>)
    ensures var first := AskMyData(app, question, complete, execute);
            var second := AskMyData(app, question, complete', execute');
            && (first.calls == [] <==> second.calls == [])
            && (first.calls != [] ==> first.calls[0] == second.calls[0] == Complete(BuildPrompt(app.schema, question)))
  {
  }
}
