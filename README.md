# The `/ask` request pipeline of copilotPowerBi, in Dafny

copilotPowerBi is a small web service that turns a question in natural language
into PostgreSQL with a language-model completion service, runs the query and
returns the rows. Everything it decides lives in `main.py`. This project
models that file's request pipeline as pure functions and proves properties
about them:

- **Start-up configuration** (`Config`, `config.dfy`). An engine exists only
  when the connection string is set and not empty. The schema description
  comes from the environment variable when that is set and not empty, else
  from the local schema file when it exists, else it is the sentinel
  `"ERRO DE CONFIGURAÇÃO DO SCHEMA"`. The two environment variables and the
  file are optional input strings here.
- **Prompt construction** (`Prompt`, `prompt.dfy`). The fixed Portuguese
  template, character for character, with the schema and the question
  inserted verbatim.
- **Completion-text cleanup** (`SqlCleanup`, `cleanup.dfy`). The chained
  expression on line 88. It removes every "```sql", then every "```", turns
  each `\n` and then each `\r` into one space, and strips surrounding
  whitespace. It rests on models of Python's `in`, `str.replace` and
  `str.strip()` (`PyStr`, `pystr.dfy`). Those are written out as the
  language defines them: a left-to-right scan over non-overlapping matches,
  and the full `str.isspace` character set.
- **The handler** (`AskHandler`, `ask.dfy`). A straight-line function with
  early returns. It yields a tagged outcome (`ConfigError`,
  `GenerationError`, `ExecutionError(message, sql)`, `Success(rows)`) and the
  list of oracle calls it made. The completion service and the database are
  oracles: total functions that return a value or the text of the exception
  they raised.

What the code does, and the model with it:

- The cleanup does not collapse runs of whitespace: `"\r\n"` becomes two
  spaces.
- "```sql" is the only tag the cleanup knows. `"```postgresql"` leaves
  `postgresql` behind, and `"```sqlite"` leaves `ite`.
- There is no separate `sql_que_falhou` field in the error response. The failed
  SQL is embedded in the single `"error"` message, after
  `"\n[SQL Gerado que falhou: "`. `ExecutionError` keeps the SQL apart only
  so that properties can name it.
- No value sanitizer exists. Rows come back exactly as the database oracle
  gave them.
- Every error is returned with the framework's default status. The code sets
  no 5xx status.
- The schema check is a substring test for `"ERRO DE CONFIGURAÇÃO"`. A schema
  from the environment or the file that contains that text is rejected as
  well.

## Model

| member | source | states |
|---|---|---|
| `PyStr.Contains` | main.py:57 | defines Python's `p in s`: `p` occurs at some index of `s` |
| `PyStr.Replace` | main.py:88 | defines `s.replace(pat, rep)` as a left-to-right scan that replaces non-overlapping occurrences; replacing by text of the pattern's length keeps the length, and deleting never lengthens |
| `PyStr.ReplaceAbsent` | main.py:88 | `replace` leaves a string unchanged when the pattern does not occur in it |
| `PyStr.ReplaceCharPointwise` | main.py:88 | replacing one character by one character keeps the length and maps each position: an occurrence becomes exactly one replacement, every other character stays |
| `PyStr.IsSpace` | main.py:88 | defines the whitespace set `strip()` removes (`str.isspace`: code points 9-13 and 28-32, U+0085, U+00A0, U+1680, U+2000-U+200A, U+2028, U+2029, U+202F, U+205F, U+3000); space, tab, line feed and carriage return are in it; the backtick, ASCII letters and digits are not |
| `PyStr.LeadingSpace` | main.py:88 | the length of the longest all-whitespace prefix (all before it whitespace, the next character not) |
| `PyStr.TrailingSpace` | main.py:88 | the length of the longest all-whitespace suffix |
| `PyStr.Strip` | main.py:88 | `strip()` gives a string with no whitespace at either end that is the input with only whitespace taken off both sides |
| `PyStr.StripPadded` | main.py:88 | those two properties determine `strip()`: whitespace put around a trimmed string is exactly what it removes |
| `PyStr.StripTrimmed` | main.py:88 | `strip()` leaves a string without surrounding whitespace unchanged |
| `SqlCleanup.RemoveFences` | main.py:88 | the first two `replace` calls, "```sql" then "```" removed: no "```" is left and the text never grows |
| `SqlCleanup.SpaceOutLineBreaks` | main.py:88 | defines the third and fourth `replace` calls, each `\n` and then each `\r` turned into one space; `SqlCleanup.SpacingIsPointwise` states what it computes |
| `SqlCleanup.CleanGeneratedSql` | main.py:88 | the cleaned SQL contains no "```", no `\n`, no `\r`, and no leading or trailing whitespace, whatever the reply |
| `SqlCleanup.NoFenceAfterRemoval` | main.py:88 | removing every "```" left to right cannot join backticks into a new fence: at most two consecutive backticks remain |
| `SqlCleanup.SpaceEachLineBreak` | main.py:88 | the reference reading of the line-break rule keeps the length (each `\n` or `\r` becomes one space, so "\r\n" becomes two) |
| `SqlCleanup.SpacingIsPointwise` | main.py:88 | the two `replace` calls on line breaks equal the pointwise reference: each `\n` or `\r` becomes one space and every other character stays where it was |
| `SqlCleanup.CleanupRules` | main.py:88 | the cleanup equals: fences removed, then each line break replaced by one space, then surrounding whitespace stripped |
| `SqlCleanup.CleanPassesThrough` | main.py:88 | text with no "```", no line break and no surrounding whitespace passes through unchanged |
| `SqlCleanup.CleanIdempotent` | main.py:88 | cleaning cleaned SQL changes nothing |
| `SqlCleanup.RemovalDropsTrailingFence` | main.py:88 | a trailing "```" after backtick-free text is all that fence removal takes out |
| `SqlCleanup.SqlTagOnlyAtStart` | main.py:88 | in backtick-free text between two fences, "```sql" can occur only at the start |
| `SqlCleanup.CleanSqlFencedReply` | main.py:88 | backtick-free text starting with "sql" between two fences cleans to the text after "sql", line breaks spaced, stripped |
| `SqlCleanup.CleanOtherFencedReply` | main.py:88 | backtick-free text not starting with "sql" between two fences keeps all of that text, tag included |
| `SqlCleanup.CleanFencedCrlf` | main.py:88 | "```sql\r\nSELECT 1\r\n```" cleans to "SELECT 1" |
| `SqlCleanup.CleanOtherTagLeavesTag` | main.py:88 | "```postgresql\nSELECT 1\n```" cleans to "postgresql SELECT 1" |
| `SqlCleanup.CleanSqlPrefixedTagLeavesRest` | main.py:88 | "```sqlite\nSELECT 1\n```" cleans to "ite SELECT 1" |
| `Config.EngineFor` | main.py:16-20 | an engine exists exactly when the connection string is set and not empty, and it is built from that string |
| `Config.Truthy` | main.py:16-30 | defines the truth test `if schema:` and `if not db_connection_str:` apply to an optional string: set and not empty |
| `Config.LoadSchema` | main.py:23-40 | the schema is the environment value when it is set and not empty, else the file contents when the file exists, else the sentinel |
| `Config.SchemaMisconfigured` | main.py:57 | defines the handler's schema check: the schema text contains "ERRO DE CONFIGURAÇÃO" as a substring |
| `Config.SentinelIsMisconfigured` | main.py:40 | the sentinel contains the marker the handler tests for |
| `Config.LoadedSchemaMisconfigured` | main.py:29-40 | the loaded schema is rejected exactly when no source existed or the source used contains the marker |
| `Config.Startup` | main.py:13-43 | the process state holds an engine exactly when the connection string is truthy, and the loaded schema |
| `Prompt.Fill` | main.py:62-76 | filling the template's two holes puts both values verbatim at fixed offsets between the fixed parts |
| `Prompt.FillDeterminesValues` | main.py:62-76 | once either value's length is known, the filled text determines both values |
| `Prompt.BuildPrompt` | main.py:62-76 | the prompt starts with the fixed introduction, holds the schema, the rules and the question verbatim at fixed offsets, and ends with the fixed closing |
| `Prompt.PromptDeterminesInputs` | main.py:62-76 | two requests get the same prompt exactly when schema and question are the same, given that the two schemas or the two questions have equal length (in particular, under one fixed schema the prompt determines the question) |
| `AskHandler.ExecutionFailureMessage` | main.py:103 | the execution error message holds the driver's message and the exact SQL verbatim |
| `AskHandler.AskMyData` | main.py:50-103 | the oracle calls are a prefix of [completion with the built prompt, database with the cleaned reply]; no calls means a configuration error, one a generation error, two an execution error or success |
| `AskHandler.EngineMissingShortCircuits` | main.py:55-56 | without an engine the response is the database-configuration error, whatever the schema and the oracles, and no oracle is called |
| `AskHandler.SchemaErrorShortCircuits` | main.py:57-58 | with an engine and a schema containing the marker, the response is the schema text as the error, and no oracle is called |
| `AskHandler.NoSchemaSourceAnswersSentinel` | main.py:29-58 | with a database but neither schema source, every request answers with the sentinel and calls no oracle |
| `AskHandler.GenerationFailureSkipsDatabase` | main.py:78-94 | a failed completion call gives the generation error with the cause, and the database is never called |
| `AskHandler.ExecutionFailureReportsSql` | main.py:96-103 | a failed database call gives an execution error whose message contains the exact cleaned SQL and the driver's message |
| `AskHandler.SuccessReturnsRows` | main.py:96-101 | a successful database call returns its rows unchanged |
| `AskHandler.ExecutedSqlIsClean` | main.py:88-99 | any SQL sent to the database has no fence, no line break and no surrounding whitespace |
| `AskHandler.SameQuestionSamePrompt` | main.py:62-84 | the same question under the same configuration sends the same prompt, whatever the oracles do |

## Left out

- FastAPI routing, the pydantic request model and the `GET /` greeting (main.py:3-9, 47-51, 106-108) are framework plumbing.
- The OpenAI client call, with its model name and temperature (main.py:80-87), is a network call. It is the completion oracle here.
- An absent `message.content` makes `.replace` raise, and the handler catches that as a generation error. The model folds this into the completion oracle's failure.
- `create_engine`, `engine.connect`, `read_sql_query` and `to_dict` (main.py:20, 98-101) are database I/O. They are the database oracle, which returns rows of an abstract type or the exception text. An invalid connection string that makes `create_engine` raise at import time is not modelled.
- Reading `os.getenv` and `schema.txt` (main.py:12-13, 29, 35-37) is I/O. The values are optional inputs. Only a missing file is modelled; other read errors at import time are not.
- The `openai.api_key` assignment (main.py:12) affects only the oracle.
- The `print` calls only log.
- `str(e)` of the exceptions is whatever text the oracles report.
- Lone surrogates (U+D800 to U+DFFF), which a Python `str` can hold, are not Dafny characters. No operation modelled here treats them specially: they are neither whitespace nor part of a pattern.
- Python's `replace` with an empty pattern is not modelled, because the code never uses one.
