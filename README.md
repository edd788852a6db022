# n8n deployment CLI — a Dafny model

This project models the decision logic of a small command-line tool that
deploys and checks an n8n workflow-automation instance. It has three parts:

- **Configuration** (`config.dfy`). The settings snapshot is read from the
  process environment, with a default for every absent variable. Boolean
  flags mean "lower-cases to `true`". Validation reports the violated
  requirements in a fixed order and never stops early.
- **Health check** (`health_check.dfy`). The prober resolves its base URL,
  issues one GET of `<base>/healthz`, and classifies what happened: a
  response, a timeout, a request error, or an exception it does not catch.
  The database check depends only on the configured database type. The
  combined report derives an overall status.
- **Command line** (`cli.dfy`). This covers:
  - the exit codes of `health` and `validate`;
  - the redacted `info` report;
  - the argument vectors of `test` and `lint`;
  - the `format` loop, which stops at the first failing command;
  - the dispatch in `main`, with 130 for a keyboard interrupt and 1 for an
    escaped exception.

`text.dfy` holds the string helpers: ASCII lower-casing, decimal parsing and
decimal rendering. `wrappers.dfy` holds `Option` and `Result`.

External effects are inputs to the model:

- The environment is a `map<string, string>`.
- The HTTP client is a *transport*, a function from the requested URL and
  the timeout to an outcome.
- `subprocess.run` is a *runner*, a function from an argument vector to a
  return code or a raised exception.
- An exception that escapes a command handler is an `Interruption`
  argument of `Cli.Run`.

`Config.Validate` and the builders `Cli.RunTests`, `Cli.RunLint` and
`Cli.RunFormat` are methods, because the source builds lists step by step
and loops over commands. Each is proved equal to a reference function:
`Problems`, `PytestArgv`, `LintArgv`, and `SequenceExitCode`/`Executed`.
The properties are lemmas about those functions.

A few facts about the code that the model keeps as they are:

- The protocol setting is any string, as the source declares it (`str`, src/config.py:15).
- The webhook URL is a string that defaults to empty (src/config.py:16).
- An exception escaping the prober makes `health` exit with 1, the same
  code as an unhealthy report (cli.py:84-86).
- The not-applicable database result also carries the key `"message"`
  (src/health_check.py:42).

## Model

| member | source | states |
|---|---|---|
| Text.Lower | src/config.py:19 | lower-casing keeps the length and maps each character by its ASCII lower case |
| Text.ParseNat | src/config.py:14 | a parse succeeds exactly on non-empty decimal digit strings |
| Text.NatToString | src/health_check.py:18 | a port renders as a digit string without leading zeros |
| Text.ParseNatToString | src/health_check.py:18 | rendering a number and parsing it back gives the number |
| Text.NatToStringInjective | src/health_check.py:18 | distinct numbers render as distinct digit strings |
| Config.ParseFlag | src/config.py:19 | a flag is true exactly when its text is t-r-u-e in any letter case |
| Config.ParseFlagExamples | src/config.py:34 | "TRUE", "true", "True" are true; "false", "", "yes" are false |
| Config.FirstMalformed | src/config.py:14-44 | the chosen variable is one of the names and is malformed; none exists exactly when all are well-formed |
| Config.FirstMalformedIsFirst | src/config.py:14-44 | every integer variable read before the failing one was well-formed |
| Config.FirstMalformedUnfolded | src/config.py:14-44 | the integer variables are checked in reading order: port, DB port, timeout, max timeout, Redis port |
| Config.Load | src/config.py:14-52 | the snapshot is built exactly when no integer variable is malformed; otherwise the error names the first malformed one and its value |
| Config.LoadDefaults | src/config.py:14-52 | each absent variable yields its default: 5678, "https", "admin", "postgresdb", 5432, "n8n", "regular", 3600, 7200, "info", "console", "UTC", and true for both flags |
| Config.DefaultLiterals | src/config.py:14 | the integer defaults parse to the numbers they spell |
| Config.LoadOverrides | src/config.py:14-52 | each set variable is taken verbatim; integer variables are taken by their decimal value |
| Config.LoadFlags | src/config.py:19 | both flags are true exactly when the variable, or "true" if absent, lower-cases to "true" |
| Config.LoadRedis | src/config.py:42-45 | Redis host, port and password are absent exactly when their variables are; a present host and password are the variables' text, a present port is the variable's decimal value |
| Config.Rank | src/config.py:57-76 | each check has a position in the check table |
| Config.Validate | src/config.py:55-76 | the if-chain returns exactly the reference report `Problems(c)` |
| Config.ProblemsUnfolded | src/config.py:57-76 | the report is the six checks' messages, in source order |
| Config.MessageInjective | src/config.py:59-74 | different checks have different messages |
| Config.Select | src/config.py:57-76 | the selected checks are exactly the broken ones among the input, and there are no more of them than the input has |
| Config.ReportSelect | src/config.py:57-76 | the report lists, message for message, the broken checks |
| Config.SelectIncreasing | src/config.py:57-76 | selecting broken checks keeps the table order |
| Config.ReportMember | src/config.py:57-76 | a check's message is in a report exactly when the check is listed and broken |
| Config.ProblemsReport | src/config.py:57-76 | a message is reported exactly when its check is broken |
| Config.RulesIncreasing | src/config.py:57-76 | the check table lists each check once, in order |
| Config.ProblemsOrdered | src/config.py:57-76 | at most six messages, in check order, with no duplicates, one per broken check |
| Config.ProblemsCount | src/config.py:57-76 | the number of messages equals the number of broken checks |
| Config.DistinctCardinality | src/config.py:57-76 | a strictly ordered list of checks has as many distinct members as entries |
| Config.ValidIff | src/config.py:55-76 | the report is empty exactly when the four requirements hold, in both directions |
| Config.MissingEncryptionKeyReported | src/config.py:59-60 | an empty encryption key is always reported, and first |
| Config.MissingJwtSecretReported | src/config.py:62-63 | an empty JWT secret is always reported |
| Config.AuthPasswordReported | src/config.py:65-66 | the auth-password message appears exactly when auth is active and the password is empty |
| Config.DatabaseChecksOnlyForPostgres | src/config.py:68 | without PostgreSQL, only the first three checks can report |
| Config.DatabaseChecksForPostgres | src/config.py:68-74 | with PostgreSQL, each of host, user and password reports exactly when it is empty |
| Config.DatabaseChecksOrder | src/config.py:68-74 | with all three empty, the report ends with the host, user and password messages, in that order |
| HealthCheck.CheckResult.Keys | src/health_check.py:27-50 | a result's keys are "status" plus exactly one key per present field ("status_code", "response_time_ms", "error", "message", "type"), and no other |
| HealthCheck.NewHealthChecker | src/health_check.py:16-19 | a non-empty given URL is used verbatim; otherwise "http://localhost:" followed by the port's decimal rendering, which has no leading zero and parses back to the port; the URL is never empty |
| HealthCheck.LocalUrlInjective | src/health_check.py:18 | distinct ports give distinct default URLs |
| HealthCheck.HealthUrl | src/health_check.py:25 | the requested URL is the base URL followed by "/healthz" |
| HealthCheck.Classify | src/health_check.py:27-37 | 200 gives healthy and any other code unhealthy, both with status code and response time only; a timeout gives exactly {unhealthy, error "timeout"}; a request error gives unhealthy with its description and no status code; any other exception escapes |
| HealthCheck.CheckHealth | src/health_check.py:21-37 | the prober is never not-applicable, and it is healthy exactly when the /healthz request answered 200 |
| HealthCheck.CheckHealthOneRequest | src/health_check.py:24-25 | the result depends on the transport only through the one /healthz request with the checker's timeout |
| HealthCheck.CheckDatabase | src/health_check.py:39-47 | not-applicable with "Not using PostgreSQL" exactly when the type is not "postgresdb"; otherwise healthy with the type; never unhealthy |
| HealthCheck.Combine | src/health_check.py:57-69 | overall healthy exactly when n8n is healthy and the database is healthy or not-applicable; the checks map has exactly the keys n8n and database, holding the sub-results unchanged |
| HealthCheck.FullHealthCheck | src/health_check.py:52-69 | fails exactly when the prober raised; otherwise holds the prober's and the database check's results under their names |
| HealthCheck.FullHealthyIff | src/health_check.py:52-69 | the report is healthy exactly when /healthz answered 200 |
| HealthCheck.HealthyWithoutPostgres | src/health_check.py:52-69 | a 200 answer in 50 ms with SQLite gives overall healthy, n8n healthy with code 200, and a not-applicable database |
| HealthCheck.UnhealthyOn503 | src/health_check.py:57-61 | a 503 answer gives an unhealthy report whatever the database says |
| Cli.HealthExitCode | cli.py:82-86 | exit 0 exactly when the check completed and the report is healthy, otherwise 1 |
| Cli.HealthCommand | cli.py:59-86 | exit 0 exactly when the /healthz request of the resolved checker answered 200, otherwise 1 |
| Cli.HealthCommandCatches | cli.py:84-86 | an exception escaping the prober gives exit 1 |
| Cli.ValidateCommand | cli.py:89-110 | exit 0 exactly when validation finds no problem, which holds exactly when the four requirements are met; otherwise 1 |
| Cli.Presence | cli.py:135-136 | a secret is shown as "Set" exactly when it is non-empty, and otherwise as "Not set" |
| Cli.InfoReport | cli.py:113-137 | 14 lines exactly when the Redis host is set and non-empty (the Redis section), otherwise 12; the encryption key and JWT secret lines show presence only |
| Cli.InfoRedactsSecrets | cli.py:113-137 | the report is the same for any secrets with the same emptiness, and for any passwords |
| Cli.InfoShowsPresenceOnly | cli.py:135-136 | every line about a secret shows "Set" or "Not set" |
| Cli.InfoCommand | cli.py:139 | the info command exits with 0 |
| Cli.ExitCodeOf | cli.py:161-166 | a run's code is its return code, or 1 when running it raised |
| Cli.RunTests | cli.py:142-166 | the in-place command is the reference pytest vector, and the exit code is its run's code |
| Cli.PytestArgvShape | cli.py:149-159 | base "python -m pytest tests/", at most one selector, "-v" right after it, and the three coverage flags after "-v" exactly when asked for |
| Cli.UnitPrecedence | cli.py:151-154 | with --unit, the unit selector is used and the integration selector is not |
| Cli.IntegrationSelected | cli.py:153-154 | with only --integration, the integration selector is used and the unit selector is not |
| Cli.VerboseOnce | cli.py:156 | "-v" occurs exactly once |
| Cli.RunLint | cli.py:169-186 | the in-place command is the reference ruff vector, and the exit code is its run's code |
| Cli.LintArgvFix | cli.py:176-179 | the base command is kept, and "--fix" is added exactly when asked for |
| Cli.Executed | cli.py:201-208 | no more commands run than are listed |
| Cli.RunFormat | cli.py:189-211 | the loop returns the reference sequence code and runs exactly the reference number of commands |
| Cli.SequenceExitCodeSpec | cli.py:201-211 | the sequence code is 0 exactly when every command succeeds, and then all ran; otherwise it is the code of the last command run, and every earlier one succeeded |
| Cli.FormatExitCode | cli.py:196-211 | a failing format run returns its code after one command; otherwise the check-and-fix run's code is returned after two |
| Cli.Run | cli.py:214-244 | no command gives 1; an interrupt gives 130; another escaped exception gives 1; an unknown command gives 1; otherwise the result is the subcommand's exit code |

## Left out

- The HTTP client, `async`/`await` and the client context manager are not modelled. They are replaced by a transport function: a URL and a timeout to an outcome.
- Elapsed time is a natural number of milliseconds passed through unchanged. The source derives it from a float (`total_seconds() * 1000`).
- Logging calls are not modelled. They have no effect on results.
- The `except Exception` in `check_database` is not modelled. Nothing in its `try` block can raise.
- `load_dotenv` and real `os.getenv` access are not modelled. The environment is an injected map.
- Integer parsing accepts only non-empty ASCII digit strings. Python's `int()` also accepts surrounding whitespace, a sign and underscores; the model treats those inputs as a load failure. A failed parse is a `Load` error, not an exception at import time.
- `Text.Lower` lower-cases ASCII letters only and leaves every other character unchanged. Unicode `str.lower()` also maps non-ASCII letters.
- Terminal printing, the banner lines, the emoji and the health status loop are not modelled. The printing loop in `health_command` only prints and has no effect on its exit code. `InfoReport` keeps each line's title and value without bullet or emoji.
- argparse (`setup_parser`) is not modelled, and neither are its defaults (timeout 10, no URL). Parsed arguments are `Cli.Command` values. `UnknownCmd` stands for the `else` branch of `main`, which argparse itself never reaches.
- `subprocess.run` is not modelled. It is a runner function from an argument vector to a return code or a raised exception.
- `Cli.Run`: an exception escaping a handler is an input, not something raised at a specific point of the handler. The source runs the handler up to that point first, which matters only for output.
- `run_tests.py` and `healthcheck.js` are not part of this model. They only invoke processes or probe the network and exit on the status.
- The integration tests (which look at files, Docker and YAML) and the test fixtures are not part of this model.
- A failure to load the configuration happens at import time, before `main` runs. `Cli.Run` takes a loaded snapshot.
- The test suite overrides class attributes of `Config`. The model builds another snapshot instead, so those overrides are not modelled.
