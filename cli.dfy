/**
  The command-line front end (cli.py): exit codes of the health and validate
  commands, the redacted info report, the argument vectors of the test, lint
  and format commands, and the dispatch of `main`. A subprocess is abstracted
  as a runner from argument vector to what the run produced.
 */
module Cli {
  import opened Wrappers
  import opened Text
  import opened Config
  import opened HealthCheck

  // ---------------------------------------------------------------------
  // health and validate
  // ---------------------------------------------------------------------

  /** The exit code for a full health check; a `Failure` is an exception caught by the command. */
  function HealthExitCode(result: Result<HealthReport, string>): (code: int)
    ensures code == 0 || code == 1
    ensures code == 0 <==> result.Success? && result.value.status == Healthy
  {
    match result
    case Success(report) => if report.status == Healthy then 0 else 1
    case Failure(_) => 1
  }

  /** `health_command`: probe with the given address override and timeout, then map to an exit code. */
  function HealthCommand(url: Option<string>, timeout: int, c: Snapshot, transport: Transport): (code: int)
    ensures code == 0 || code == 1
    ensures var h := NewHealthChecker(url, timeout, c);
      code == 0 <==> transport(HealthUrl(h), timeout).Response? && transport(HealthUrl(h), timeout).statusCode == 200
  {
    var h := NewHealthChecker(url, timeout, c);
    FullHealthyIff(h, c, transport);
    HealthExitCode(FullHealthCheck(h, c, transport))
  }

  /** An exception escaping the prober (not a timeout, not a request error) gives exit code 1. */
  lemma HealthCommandCatches(url: Option<string>, timeout: int, c: Snapshot, transport: Transport)
    requires transport(HealthUrl(NewHealthChecker(url, timeout, c)), timeout).UnexpectedError?
    ensures HealthCommand(url, timeout, c, transport) == 1
  {
  }

  /** `validate_command`: 0 exactly when the snapshot has no problem. */
  method ValidateCommand(c: Snapshot) returns (code: int)
    ensures code == 0 || code == 1
    ensures code == 0 <==> Problems(c) == []
    ensures code == 0 <==>
      && c.encryptionKey != ""
      && c.jwtSecret != ""
      && (!c.basicAuthActive || c.basicAuthPassword != "")
      && (c.dbType != Postgres || (c.dbHost != "" && c.dbUser != "" && c.dbPassword != ""))
  {
    var errors := Validate(c);
    ValidIff(c);
    if errors == [] {
      code := 0;
    } else {
      code := 1;
    }
  }

  // ---------------------------------------------------------------------
  // info
  // ---------------------------------------------------------------------

  /** One line of the info report, without its bullet and emoji. */
  datatype InfoLine = InfoLine(title: string, value: string)

  /** An empty setting is shown as "Not set". */
  function OrNotSet(s: string): string {
    if s == "" then "Not set" else s
  }

  /** A secret is shown only as present or absent. */
  function Presence(secret: string): (shown: string)
    ensures shown == "Set" <==> secret != ""
    ensures shown == "Set" || shown == "Not set"
  {
    if secret != "" then "Set" else "Not set"
  }

  /** Python's rendering of a boolean. */
  function BoolText(b: bool): string {
    if b then "True" else "False"
  }

  /** Python's rendering of an optional integer. */
  function OptionalNatText(n: Option<nat>): string {
    match n
    case Some(v) => NatToString(v)
    case None => "None"
  }

  /** The Redis section is shown only when the host is set and not empty. */
  function RedisLines(c: Snapshot): seq<InfoLine> {
    if c.redisHost.Some? && c.redisHost.value != "" then
      [InfoLine("Host", c.redisHost.value), InfoLine("Port", OptionalNatText(c.redisPort))]
    else
      []
  }

  /** `info_command`: the configuration, the optional Redis section, then security. */
  function InfoReport(c: Snapshot): (lines: seq<InfoLine>)
    ensures |lines| == 12 || |lines| == 14
    ensures |lines| == 14 <==> c.redisHost.Some? && c.redisHost.value != ""
    ensures lines[|lines| - 3] == InfoLine("Encryption Key", Presence(c.encryptionKey))
    ensures lines[|lines| - 2] == InfoLine("JWT Secret", Presence(c.jwtSecret))
  {
    [ InfoLine("N8N Port", NatToString(c.n8nPort)),
      InfoLine("N8N Protocol", c.n8nProtocol),
      InfoLine("Webhook URL", OrNotSet(c.webhookUrl)),
      InfoLine("Database Type", c.dbType),
      InfoLine("Database Host", OrNotSet(c.dbHost)),
      InfoLine("Basic Auth", if c.basicAuthActive then "Enabled" else "Disabled"),
      InfoLine("Execution Mode", c.executionsMode),
      InfoLine("Timezone", c.timezone),
      InfoLine("Log Level", c.logLevel) ]
    + RedisLines(c)
    + [ InfoLine("Encryption Key", Presence(c.encryptionKey)),
        InfoLine("JWT Secret", Presence(c.jwtSecret)),
        InfoLine("Secure Cookie", BoolText(c.secureCookie)) ]
  }

  /**
    Redaction: the report does not depend on the values of the encryption key
    and the JWT secret beyond whether they are empty, nor on any password.
   */
  lemma InfoRedactsSecrets(c: Snapshot, key: string, jwt: string, authPassword: string,
                           dbPassword: string, redisPassword: Option<string>)
    requires (key == "") == (c.encryptionKey == "")
    requires (jwt == "") == (c.jwtSecret == "")
    ensures InfoReport(c.(encryptionKey := key, jwtSecret := jwt, basicAuthPassword := authPassword,
                          dbPassword := dbPassword, redisPassword := redisPassword))
         == InfoReport(c)
  {
  }

  /** The secrets appear on their own two lines only, where they are shown as "Set" or "Not set". */
  lemma InfoShowsPresenceOnly(c: Snapshot)
    ensures forall i :: 0 <= i < |InfoReport(c)| ==>
      InfoReport(c)[i].title in {"Encryption Key", "JWT Secret"} ==> InfoReport(c)[i].value in {"Set", "Not set"}
  {
  }

  /** `info_command` always exits with 0. */
  function InfoCommand(c: Snapshot): (r: (int, seq<InfoLine>))
    ensures r.0 == 0 && r.1 == InfoReport(c)
  {
    (0, InfoReport(c))
  }

  // ---------------------------------------------------------------------
  // subprocesses: test and lint
  // ---------------------------------------------------------------------

  /** What `subprocess.run` produced: a return code, or an exception. */
  datatype RunOutcome = Exited(code: int) | Raised(description: string)

  /** The subprocess runner: argument vector to outcome. */
  type Runner = seq<string> -> RunOutcome

  /** A command's exit code: the return code, or 1 when running it raised. */
  function ExitCodeOf(outcome: RunOutcome): (code: int)
    ensures outcome.Exited? ==> code == outcome.code
    ensures outcome.Raised? ==> code == 1
  {
    match outcome
    case Exited(rc) => rc
    case Raised(_) => 1
  }

  datatype TestOptions = TestOptions(unit: bool, integration: bool, coverage: bool)

  function PytestBase(): seq<string> {
    ["python", "-m", "pytest", "tests/"]
  }

  function CoverageFlags(): seq<string> {
    ["--cov=src", "--cov-report=term-missing", "--cov-report=html"]
  }

  /** The test selector: unit wins over integration. */
  function Selector(opts: TestOptions): seq<string> {
    if opts.unit then ["unit/", "-m", "unit"]
    else if opts.integration then ["integration/", "-m", "integration"]
    else []
  }

  /** The pytest argument vector, as a reference definition. */
  function PytestArgv(opts: TestOptions): seq<string> {
    PytestBase() + Selector(opts) + ["-v"] + (if opts.coverage then CoverageFlags() else [])
  }

  /** `run_tests`: build the command by extending it in place, then run it. */
  method RunTests(opts: TestOptions, run: Runner) returns (code: int)
    ensures code == ExitCodeOf(run(PytestArgv(opts)))
  {
    var cmd := ["python", "-m", "pytest", "tests/"];
    if opts.unit {
      cmd := cmd + ["unit/", "-m", "unit"];
    } else if opts.integration {
      cmd := cmd + ["integration/", "-m", "integration"];
    }
    assert cmd == PytestBase() + Selector(opts);
    cmd := cmd + ["-v"];
    if opts.coverage {
      cmd := cmd + ["--cov=src", "--cov-report=term-missing", "--cov-report=html"];
    }
    assert cmd == PytestArgv(opts);
    code := ExitCodeOf(run(cmd));
  }

  /**
    The shape of the pytest command: the base, at most one selector, "-v"
    right after it, and the coverage flags, when asked for, after "-v".
   */
  lemma {:induction false} PytestArgvShape(opts: TestOptions)
    ensures var argv := PytestArgv(opts); var v := 4 + |Selector(opts)|;
      && argv[..4] == ["python", "-m", "pytest", "tests/"]
      && (|Selector(opts)| == 0 || |Selector(opts)| == 3)
      && v < |argv| && argv[v] == "-v"
      && (opts.coverage <==> |argv| == v + 4)
      && (opts.coverage ==> argv[v + 1..] == CoverageFlags())
      && (!opts.coverage ==> |argv| == v + 1)
  {
  }

  /** `--unit` takes precedence: its selector is used and the integration one is not. */
  lemma UnitPrecedence(opts: TestOptions)
    requires opts.unit
    ensures "unit/" in PytestArgv(opts) && "integration/" !in PytestArgv(opts)
  {
  }

  /** `--integration` alone selects the integration tests. */
  lemma IntegrationSelected(opts: TestOptions)
    requires opts.integration && !opts.unit
    ensures "integration/" in PytestArgv(opts) && "unit/" !in PytestArgv(opts)
  {
  }

  /** "-v" is always there, exactly once. */
  lemma {:induction false} VerboseOnce(opts: TestOptions)
    ensures |set i | 0 <= i < |PytestArgv(opts)| && PytestArgv(opts)[i] == "-v"| == 1
  {
    var argv := PytestArgv(opts);
    var v := 4 + |Selector(opts)|;
    PytestArgvShape(opts);
    forall i | 0 <= i < |argv| && i != v ensures argv[i] != "-v" {
      if i < v {
        assert argv[i] == (PytestBase() + Selector(opts))[i];
      } else {
        assert argv[i] == CoverageFlags()[i - v - 1];
      }
    }
    assert (set i | 0 <= i < |argv| && argv[i] == "-v") == {v};
  }

  function LintBase(): seq<string> {
    ["python", "-m", "ruff", "check", "src/", "tests/"]
  }

  /** The ruff check argument vector, as a reference definition. */
  function LintArgv(fix: bool): seq<string> {
    LintBase() + (if fix then ["--fix"] else [])
  }

  /** `run_lint`: append "--fix" when asked, then run. */
  method RunLint(fix: bool, run: Runner) returns (code: int)
    ensures code == ExitCodeOf(run(LintArgv(fix)))
  {
    var cmd := ["python", "-m", "ruff", "check", "src/", "tests/"];
    if fix {
      cmd := cmd + ["--fix"];
    }
    assert cmd == LintArgv(fix);
    code := ExitCodeOf(run(cmd));
  }

  /** "--fix" is there exactly when asked for; the base command is unchanged. */
  lemma LintArgvFix(fix: bool)
    ensures LintArgv(fix)[..6] == LintBase()
    ensures "--fix" in LintArgv(fix) <==> fix
    ensures |LintArgv(fix)| == if fix then 7 else 6
  {
  }

  // ---------------------------------------------------------------------
  // format: commands run in order, the first failure stops the sequence
  // ---------------------------------------------------------------------

  function FormatCommands(): seq<seq<string>> {
    [["python", "-m", "ruff", "format", "src/", "tests/"],
     ["python", "-m", "ruff", "check", "--fix", "src/", "tests/"]]
  }

  /** The exit code of running `cmds` in order, stopping at the first non-zero code. */
  function SequenceExitCode(run: Runner, cmds: seq<seq<string>>): int {
    if cmds == [] then 0
    else if ExitCodeOf(run(cmds[0])) != 0 then ExitCodeOf(run(cmds[0]))
    else SequenceExitCode(run, cmds[1..])
  }

  /** How many of `cmds` are run: all up to and including the first that fails. */
  function Executed(run: Runner, cmds: seq<seq<string>>): (n: nat)
    ensures n <= |cmds|
  {
    if cmds == [] then 0
    else if ExitCodeOf(run(cmds[0])) != 0 then 1
    else 1 + Executed(run, cmds[1..])
  }

  /**
    `run_format`: run each command; return the first non-zero exit code at
    once, and 0 when every command succeeded. `executed` counts the runs.
   */
  method RunFormat(run: Runner) returns (code: int, executed: nat)
    ensures code == SequenceExitCode(run, FormatCommands())
    ensures executed == Executed(run, FormatCommands())
  {
    var commands := FormatCommands();
    var i := 0;
    executed := 0;
    while i < |commands|
      invariant 0 <= i <= |commands| && executed == i
      invariant SequenceExitCode(run, commands) == SequenceExitCode(run, commands[i..])
      invariant Executed(run, commands) == i + Executed(run, commands[i..])
    {
      var rc := ExitCodeOf(run(commands[i]));
      executed := executed + 1;
      if rc != 0 {
        code := rc;
        return;
      }
      assert commands[i..][1..] == commands[i + 1..];
      i := i + 1;
    }
    code := 0;
  }

  /**
    A sequence succeeds exactly when each command does; otherwise its code is
    the first failure's, and the commands after it are not run.
   */
  lemma {:induction false} SequenceExitCodeSpec(run: Runner, cmds: seq<seq<string>>)
    ensures SequenceExitCode(run, cmds) == 0 <==> forall k :: 0 <= k < |cmds| ==> ExitCodeOf(run(cmds[k])) == 0
    ensures SequenceExitCode(run, cmds) == 0 ==> Executed(run, cmds) == |cmds|
    ensures SequenceExitCode(run, cmds) != 0 ==>
      var n := Executed(run, cmds);
      && 0 < n
      && SequenceExitCode(run, cmds) == ExitCodeOf(run(cmds[n - 1]))
      && forall k :: 0 <= k < n - 1 ==> ExitCodeOf(run(cmds[k])) == 0
  {
    if cmds != [] && ExitCodeOf(run(cmds[0])) == 0 {
      var rest := cmds[1..];
      SequenceExitCodeSpec(run, rest);
      forall k | 0 < k < |cmds| ensures cmds[k] == rest[k - 1] {
      }
    }
  }

  /** The format command: 0 when both commands succeed, else the first failure's code. */
  lemma FormatExitCode(run: Runner)
    ensures var first := ExitCodeOf(run(FormatCommands()[0]));
      var second := ExitCodeOf(run(FormatCommands()[1]));
      && (first != 0 ==> SequenceExitCode(run, FormatCommands()) == first && Executed(run, FormatCommands()) == 1)
      && (first == 0 ==> SequenceExitCode(run, FormatCommands()) == second && Executed(run, FormatCommands()) == 2)
  {
  }

  // ---------------------------------------------------------------------
  // main
  // ---------------------------------------------------------------------

  /** The parsed subcommand with its options. */
  datatype Command =
    | HealthCmd(url: Option<string>, timeout: int)
    | ValidateCmd
    | InfoCmd
    | TestCmd(options: TestOptions)
    | LintCmd(fix: bool)
    | FormatCmd
    | UnknownCmd(name: string)

  /**
    An exception escaping the command handler: a user interrupt, or any other
    exception no handler caught.
   */
  datatype Interruption = NoInterruption | KeyboardInterrupt | OtherException

  /** `main`: no command gives 1; otherwise dispatch, with 130 for an interrupt and 1 for an exception. */
  method Run(command: Option<Command>, c: Snapshot, transport: Transport, run: Runner,
             interruption: Interruption) returns (code: int)
    ensures command.None? ==> code == 1
    ensures command.Some? && interruption == KeyboardInterrupt ==> code == 130
    ensures command.Some? && interruption == OtherException ==> code == 1
    ensures command.Some? && interruption == NoInterruption ==>
      match command.value
      case HealthCmd(url, timeout) => code == HealthCommand(url, timeout, c, transport)
      case ValidateCmd => (code == 0 <==> Problems(c) == []) && (code == 0 || code == 1)
      case InfoCmd => code == 0
      case TestCmd(opts) => code == ExitCodeOf(run(PytestArgv(opts)))
      case LintCmd(fix) => code == ExitCodeOf(run(LintArgv(fix)))
      case FormatCmd => code == SequenceExitCode(run, FormatCommands())
      case UnknownCmd(_) => code == 1
  {
    if command.None? {
      return 1;
    }
    match interruption
    case KeyboardInterrupt =>
      code := 130;
    case OtherException =>
      code := 1;
    case NoInterruption =>
      match command.value
      case HealthCmd(url, timeout) =>
        code := HealthCommand(url, timeout, c, transport);
      case ValidateCmd =>
        code := ValidateCommand(c);
      case InfoCmd =>
        code := InfoCommand(c).0;
      case TestCmd(opts) =>
        code := RunTests(opts, run);
      case LintCmd(fix) =>
        code := RunLint(fix, run);
      case FormatCmd =>
        var executed;
        code, executed := RunFormat(run);
      case UnknownCmd(_) =>
        code := 1;
  }
}
