/** Start-up configuration (main.py, lines 12-43): whether a database engine
    exists, and where the schema description comes from.  The environment
    variables and the local schema file are inputs here: `None` is an unset
    variable or a missing file. */
module Config {
  import opened PyStr

  datatype Option<T> = None | Some(value: T)

  /** Python truthiness of an optional string: set and not empty. */
  predicate Truthy(v: Option<string>) {
    v.Some? && v.value != ""
  }

  /** The engine created from a connection string; connecting is left to the database oracle. */
  datatype Engine = Engine(url: string)

  /** An engine exists exactly when the connection string is set and not empty. */
  function EngineFor(dbUrl: Option<string>): (engine: Option<Engine>)
    ensures engine.Some? <==> Truthy(dbUrl)
    ensures engine.Some? ==> engine.value.url == dbUrl.value
  {
    if Truthy(dbUrl) then Some(Engine(dbUrl.value)) else None
  }

  /** What the loader returns when neither source of a schema exists. */
  const SchemaErrorSentinel: string := "ERRO DE CONFIGURAÇÃO DO SCHEMA"
  /** What the handler looks for in the schema text to detect a configuration error. */
  const SchemaErrorMarker: string := "ERRO DE CONFIGURAÇÃO"

  /** The schema description: the environment value when it is set and not empty,
      else the file's contents when the file exists (an empty file included),
      else the sentinel. */
  function LoadSchema(envSchema: Option<string>, schemaFile: Option<string>): (schema: string)
    ensures Truthy(envSchema) ==> schema == envSchema.value
    ensures !Truthy(envSchema) && schemaFile.Some? ==> schema == schemaFile.value
    ensures !Truthy(envSchema) && schemaFile.None? ==> schema == SchemaErrorSentinel
  {
    if Truthy(envSchema) then envSchema.value
    else match schemaFile
      case Some(contents) => contents
      case None => SchemaErrorSentinel
  }

  /** The handler's test for a schema that signals a configuration error. */
  predicate SchemaMisconfigured(schema: string) {
    Contains(schema, SchemaErrorMarker)
  }

  /** The sentinel is caught by the handler's test. */
  lemma SentinelIsMisconfigured()
    ensures SchemaMisconfigured(SchemaErrorSentinel)
  {
    assert SchemaErrorSentinel[..|SchemaErrorMarker|] == SchemaErrorMarker;
    assert OccursAt(SchemaErrorSentinel, SchemaErrorMarker, 0);
  }

  /** The handler rejects the loaded schema exactly when no source existed, or
      when the source that was used itself contains the marker text. */
  lemma LoadedSchemaMisconfigured(envSchema: Option<string>, schemaFile: Option<string>)
    ensures SchemaMisconfigured(LoadSchema(envSchema, schemaFile))
        <==> if Truthy(envSchema) then SchemaMisconfigured(envSchema.value)
             else schemaFile.None? || SchemaMisconfigured(schemaFile.value)
  {
    if !Truthy(envSchema) && schemaFile.None? {
      SentinelIsMisconfigured();
    }
  }

  /** The process-wide state fixed at import time and only read afterwards. */
  datatype App = App(engine: Option<Engine>, schema: string)

  /** Import-time initialisation from the three configuration inputs. */
  function Startup(dbUrl: Option<string>, envSchema: Option<string>, schemaFile: Option<string>): (app: App)
    ensures app.engine.Some? <==> Truthy(dbUrl)
    ensures app.schema == LoadSchema(envSchema, schemaFile)
  {
    App(EngineFor(dbUrl), LoadSchema(envSchema, schemaFile))
  }
}
