/**
  The configuration snapshot of the n8n deployment (src/config.py): every
  setting is read once from the process environment, with a default when the
  variable is absent, and `Validate` lists the cross-field problems of a
  snapshot in a fixed order.
 */
module Config {
  import opened Wrappers
  import opened Text

  /** The process environment, as the snapshot factory sees it. */
  type Env = map<string, string>

  /** The one relational database type the deployment knows about. */
  const Postgres := "postgresdb"

  datatype Snapshot = Snapshot(
    // n8n
    n8nPort: nat,
    n8nProtocol: string,
    webhookUrl: string,
    // authentication
    basicAuthActive: bool,
    basicAuthUser: string,
    basicAuthPassword: string,
    // database
    dbType: string,
    dbHost: string,
    dbPort: nat,
    dbDatabase: string,
    dbUser: string,
    dbPassword: string,
    // security
    encryptionKey: string,
    jwtSecret: string,
    secureCookie: bool,
    // execution
    executionsMode: string,
    executionsTimeout: nat,
    executionsTimeoutMax: nat,
    // Redis queue: absent variables stay absent
    redisHost: Option<string>,
    redisPort: Option<nat>,
    redisPassword: Option<string>,
    // logging and time zone
    logLevel: string,
    logOutput: string,
    timezone: string)

  /** `os.getenv(name, default)`: a variable that is set, even to "", wins. */
  function Lookup(env: Env, name: string, default: string): string {
    if name in env then env[name] else default
  }

  function LookupOptional(env: Env, name: string): Option<string> {
    if name in env then Some(env[name]) else None
  }

  /** A boolean setting is true exactly when its lower-cased text is "true". */
  function ParseFlag(value: string): (b: bool)
    ensures b <==> |value| == 4
                   && (value[0] == 't' || value[0] == 'T')
                   && (value[1] == 'r' || value[1] == 'R')
                   && (value[2] == 'u' || value[2] == 'U')
                   && (value[3] == 'e' || value[3] == 'E')
  {
    var low := Lower(value);
    if low == "true" then
      assert |value| == 4 && low[0] == 't' && low[1] == 'r' && low[2] == 'u' && low[3] == 'e';
      true
    else
      false
  }

  /** Flags match "true" in any letter case and nothing else. */
  lemma ParseFlagExamples()
    ensures ParseFlag("TRUE") && ParseFlag("true") && ParseFlag("True")
    ensures !ParseFlag("false") && !ParseFlag("") && !ParseFlag("yes") && !ParseFlag("truee")
  {
  }

  /** Why a snapshot could not be built: an integer setting did not parse. */
  datatype LoadError = InvalidInteger(name: string, value: string)

  /** The integer settings, in the order the snapshot reads them. */
  function IntegerVariables(): seq<string> {
    ["N8N_PORT", "DB_POSTGRESDB_PORT", "EXECUTIONS_TIMEOUT", "EXECUTIONS_TIMEOUT_MAX",
     "QUEUE_BULL_REDIS_PORT"]
  }

  /** The variable is set to something that is not a decimal number. */
  predicate Malformed(env: Env, name: string) {
    name in env && !IsDigitString(env[name])
  }

  /** The first of `names` whose variable is malformed, if any. */
  function FirstMalformed(env: Env, names: seq<string>): (r: Option<string>)
    ensures r.Some? ==> r.value in names && Malformed(env, r.value)
    ensures r.None? <==> forall k :: 0 <= k < |names| ==> !Malformed(env, names[k])
  {
    if names == [] then None
    else if Malformed(env, names[0]) then Some(names[0])
    else FirstMalformed(env, names[1..])
  }

  /** The name `FirstMalformed` picks comes after well-formed ones only. */
  lemma {:induction false} FirstMalformedIsFirst(env: Env, names: seq<string>, k: nat)
    requires k < |names| && FirstMalformed(env, names) == Some(names[k])
    requires forall i, j :: 0 <= i < j < |names| ==> names[i] != names[j]
    ensures forall j :: 0 <= j < k ==> !Malformed(env, names[j])
  {
    if !Malformed(env, names[0]) {
      if k > 0 {
        FirstMalformedIsFirst(env, names[1..], k - 1);
        forall j | 0 < j < k ensures !Malformed(env, names[j]) {
          assert names[j] == names[1..][j - 1];
        }
      }
    }
  }

  /** The integer settings checked one after the other, in reading order. */
  lemma FirstMalformedUnfolded(env: Env)
    ensures FirstMalformed(env, IntegerVariables()) ==
      if Malformed(env, "N8N_PORT") then Some("N8N_PORT")
      else if Malformed(env, "DB_POSTGRESDB_PORT") then Some("DB_POSTGRESDB_PORT")
      else if Malformed(env, "EXECUTIONS_TIMEOUT") then Some("EXECUTIONS_TIMEOUT")
      else if Malformed(env, "EXECUTIONS_TIMEOUT_MAX") then Some("EXECUTIONS_TIMEOUT_MAX")
      else if Malformed(env, "QUEUE_BULL_REDIS_PORT") then Some("QUEUE_BULL_REDIS_PORT")
      else None
  {
    var n0 := IntegerVariables();
    var n1 := ["DB_POSTGRESDB_PORT", "EXECUTIONS_TIMEOUT", "EXECUTIONS_TIMEOUT_MAX", "QUEUE_BULL_REDIS_PORT"];
    var n2 := ["EXECUTIONS_TIMEOUT", "EXECUTIONS_TIMEOUT_MAX", "QUEUE_BULL_REDIS_PORT"];
    var n3 := ["EXECUTIONS_TIMEOUT_MAX", "QUEUE_BULL_REDIS_PORT"];
    var n4 := ["QUEUE_BULL_REDIS_PORT"];
    assert n0[1..] == n1 && n1[1..] == n2 && n2[1..] == n3 && n3[1..] == n4 && n4[1..] == [];
    assert FirstMalformed(env, n4) == if Malformed(env, n4[0]) then Some(n4[0]) else None;
    assert FirstMalformed(env, n3) == if Malformed(env, n3[0]) then Some(n3[0]) else FirstMalformed(env, n4);
    assert FirstMalformed(env, n2) == if Malformed(env, n2[0]) then Some(n2[0]) else FirstMalformed(env, n3);
    assert FirstMalformed(env, n1) == if Malformed(env, n1[0]) then Some(n1[0]) else FirstMalformed(env, n2);
    assert FirstMalformed(env, n0) == if Malformed(env, n0[0]) then Some(n0[0]) else FirstMalformed(env, n1);
  }

  function EnvInt(env: Env, name: string, default: string): Result<nat, LoadError>
    requires IsDigitString(default)
  {
    var text := Lookup(env, name, default);
    match ParseNat(text)
    case Some(n) => Success(n)
    case None => Failure(InvalidInteger(name, text))
  }

  function EnvOptionalInt(env: Env, name: string): Result<Option<nat>, LoadError> {
    if name !in env then Success(None)
    else match ParseNat(env[name])
      case Some(n) => Success(Some(n))
      case None => Failure(InvalidInteger(name, env[name]))
  }

  /**
    The snapshot factory. It fails on the first integer setting, in reading
    order, whose value is not a decimal number; the failure names it.
   */
  function Load(env: Env): (r: Result<Snapshot, LoadError>)
    ensures r.Success? <==> FirstMalformed(env, IntegerVariables()).None?
    ensures r.Failure? ==>
      var name := FirstMalformed(env, IntegerVariables()).value;
      r.error == InvalidInteger(name, env[name])
  {
    FirstMalformedUnfolded(env);
    var port :- EnvInt(env, "N8N_PORT", "5678");
    var dbPort :- EnvInt(env, "DB_POSTGRESDB_PORT", "5432");
    var timeout :- EnvInt(env, "EXECUTIONS_TIMEOUT", "3600");
    var timeoutMax :- EnvInt(env, "EXECUTIONS_TIMEOUT_MAX", "7200");
    var redisPort :- EnvOptionalInt(env, "QUEUE_BULL_REDIS_PORT");
    Success(Snapshot(
      port,
      Lookup(env, "N8N_PROTOCOL", "https"),
      Lookup(env, "WEBHOOK_URL", ""),
      ParseFlag(Lookup(env, "N8N_BASIC_AUTH_ACTIVE", "true")),
      Lookup(env, "N8N_BASIC_AUTH_USER", "admin"),
      Lookup(env, "N8N_BASIC_AUTH_PASSWORD", ""),
      Lookup(env, "DB_TYPE", Postgres),
      Lookup(env, "DB_POSTGRESDB_HOST", ""),
      dbPort,
      Lookup(env, "DB_POSTGRESDB_DATABASE", "n8n"),
      Lookup(env, "DB_POSTGRESDB_USER", ""),
      Lookup(env, "DB_POSTGRESDB_PASSWORD", ""),
      Lookup(env, "N8N_ENCRYPTION_KEY", ""),
      Lookup(env, "N8N_JWT_SECRET", ""),
      ParseFlag(Lookup(env, "N8N_SECURE_COOKIE", "true")),
      Lookup(env, "EXECUTIONS_MODE", "regular"),
      timeout,
      timeoutMax,
      LookupOptional(env, "QUEUE_BULL_REDIS_HOST"),
      redisPort,
      LookupOptional(env, "QUEUE_BULL_REDIS_PASSWORD"),
      Lookup(env, "N8N_LOG_LEVEL", "info"),
      Lookup(env, "N8N_LOG_OUTPUT", "console"),
      Lookup(env, "GENERIC_TIMEZONE", "UTC")))
  }

  /** Every absent variable takes its documented default. */
  lemma LoadDefaults(env: Env)
    requires Load(env).Success?
    ensures "N8N_PORT" !in env ==> Load(env).value.n8nPort == 5678
    ensures "N8N_PROTOCOL" !in env ==> Load(env).value.n8nProtocol == "https"
    ensures "WEBHOOK_URL" !in env ==> Load(env).value.webhookUrl == ""
    ensures "N8N_BASIC_AUTH_ACTIVE" !in env ==> Load(env).value.basicAuthActive
    ensures "N8N_BASIC_AUTH_USER" !in env ==> Load(env).value.basicAuthUser == "admin"
    ensures "N8N_BASIC_AUTH_PASSWORD" !in env ==> Load(env).value.basicAuthPassword == ""
    ensures "DB_TYPE" !in env ==> Load(env).value.dbType == "postgresdb"
    ensures "DB_POSTGRESDB_HOST" !in env ==> Load(env).value.dbHost == ""
    ensures "DB_POSTGRESDB_PORT" !in env ==> Load(env).value.dbPort == 5432
    ensures "DB_POSTGRESDB_DATABASE" !in env ==> Load(env).value.dbDatabase == "n8n"
    ensures "DB_POSTGRESDB_USER" !in env ==> Load(env).value.dbUser == ""
    ensures "DB_POSTGRESDB_PASSWORD" !in env ==> Load(env).value.dbPassword == ""
    ensures "N8N_ENCRYPTION_KEY" !in env ==> Load(env).value.encryptionKey == ""
    ensures "N8N_JWT_SECRET" !in env ==> Load(env).value.jwtSecret == ""
    ensures "N8N_SECURE_COOKIE" !in env ==> Load(env).value.secureCookie
    ensures "EXECUTIONS_MODE" !in env ==> Load(env).value.executionsMode == "regular"
    ensures "EXECUTIONS_TIMEOUT" !in env ==> Load(env).value.executionsTimeout == 3600
    ensures "EXECUTIONS_TIMEOUT_MAX" !in env ==> Load(env).value.executionsTimeoutMax == 7200
    ensures "N8N_LOG_LEVEL" !in env ==> Load(env).value.logLevel == "info"
    ensures "N8N_LOG_OUTPUT" !in env ==> Load(env).value.logOutput == "console"
    ensures "GENERIC_TIMEZONE" !in env ==> Load(env).value.timezone == "UTC"
  {
    DefaultLiterals();
  }

  /** The integer defaults parse to the numbers they spell. */
  lemma DefaultLiterals()
    ensures ParseNat("5678") == Some(5678) && ParseNat("5432") == Some(5432)
    ensures ParseNat("3600") == Some(3600) && ParseNat("7200") == Some(7200)
    ensures ParseFlag("true")
  {
    assert "5678"[..3] == "567" && "567"[..2] == "56" && "56"[..1] == "5" && "5"[..0] == "";
    assert "5432"[..3] == "543" && "543"[..2] == "54" && "54"[..1] == "5";
    assert "3600"[..3] == "360" && "360"[..2] == "36" && "36"[..1] == "3" && "3"[..0] == "";
    assert "7200"[..3] == "720" && "720"[..2] == "72" && "72"[..1] == "7" && "7"[..0] == "";
  }

  /** A variable that is set is taken as it is (integers: by its decimal value). */
  lemma LoadOverrides(env: Env)
    requires Load(env).Success?
    ensures var c := Load(env).value;
      && ("N8N_PORT" in env ==> ParseNat(env["N8N_PORT"]) == Some(c.n8nPort))
      && ("N8N_PROTOCOL" in env ==> c.n8nProtocol == env["N8N_PROTOCOL"])
      && ("WEBHOOK_URL" in env ==> c.webhookUrl == env["WEBHOOK_URL"])
      && ("N8N_BASIC_AUTH_USER" in env ==> c.basicAuthUser == env["N8N_BASIC_AUTH_USER"])
      && ("N8N_BASIC_AUTH_PASSWORD" in env ==> c.basicAuthPassword == env["N8N_BASIC_AUTH_PASSWORD"])
      && ("DB_TYPE" in env ==> c.dbType == env["DB_TYPE"])
      && ("DB_POSTGRESDB_HOST" in env ==> c.dbHost == env["DB_POSTGRESDB_HOST"])
      && ("DB_POSTGRESDB_PORT" in env ==> ParseNat(env["DB_POSTGRESDB_PORT"]) == Some(c.dbPort))
      && ("DB_POSTGRESDB_DATABASE" in env ==> c.dbDatabase == env["DB_POSTGRESDB_DATABASE"])
      && ("DB_POSTGRESDB_USER" in env ==> c.dbUser == env["DB_POSTGRESDB_USER"])
      && ("DB_POSTGRESDB_PASSWORD" in env ==> c.dbPassword == env["DB_POSTGRESDB_PASSWORD"])
      && ("N8N_ENCRYPTION_KEY" in env ==> c.encryptionKey == env["N8N_ENCRYPTION_KEY"])
      && ("N8N_JWT_SECRET" in env ==> c.jwtSecret == env["N8N_JWT_SECRET"])
      && ("EXECUTIONS_MODE" in env ==> c.executionsMode == env["EXECUTIONS_MODE"])
      && ("EXECUTIONS_TIMEOUT" in env ==> ParseNat(env["EXECUTIONS_TIMEOUT"]) == Some(c.executionsTimeout))
      && ("EXECUTIONS_TIMEOUT_MAX" in env ==> ParseNat(env["EXECUTIONS_TIMEOUT_MAX"]) == Some(c.executionsTimeoutMax))
      && ("N8N_LOG_LEVEL" in env ==> c.logLevel == env["N8N_LOG_LEVEL"])
      && ("N8N_LOG_OUTPUT" in env ==> c.logOutput == env["N8N_LOG_OUTPUT"])
      && ("GENERIC_TIMEZONE" in env ==> c.timezone == env["GENERIC_TIMEZONE"])
  {
  }

  /**
    The boolean settings are true exactly when the variable, or the default
    "true" when it is absent, lower-cases to "true".
   */
  lemma LoadFlags(env: Env)
    requires Load(env).Success?
    ensures var c := Load(env).value;
      && (c.basicAuthActive <==> Lower(Lookup(env, "N8N_BASIC_AUTH_ACTIVE", "true")) == "true")
      && (c.secureCookie <==> Lower(Lookup(env, "N8N_SECURE_COOKIE", "true")) == "true")
  {
  }

  /** The Redis settings are absent exactly when their variables are. */
  lemma LoadRedis(env: Env)
    requires Load(env).Success?
    ensures var c := Load(env).value;
      && (c.redisPort.None? <==> "QUEUE_BULL_REDIS_PORT" !in env)
      && (c.redisPort.Some? ==> ParseNat(env["QUEUE_BULL_REDIS_PORT"]) == Some(c.redisPort.value))
      && (c.redisHost.None? <==> "QUEUE_BULL_REDIS_HOST" !in env)
      && (c.redisHost.Some? ==> c.redisHost.value == env["QUEUE_BULL_REDIS_HOST"])
      && (c.redisPassword.None? <==> "QUEUE_BULL_REDIS_PASSWORD" !in env)
      && (c.redisPassword.Some? ==> c.redisPassword.value == env["QUEUE_BULL_REDIS_PASSWORD"])
  {
  }

  // ---------------------------------------------------------------------
  // Validation
  // ---------------------------------------------------------------------

  /** The checks of `Validate`, one constructor per message it can produce. */
  datatype Rule =
    | EncryptionKeyRequired
    | JwtSecretRequired
    | AuthPasswordRequired
    | DbHostRequired
    | DbUserRequired
    | DbPasswordRequired

  /** The checks in the order their messages are reported. */
  function Rules(): seq<Rule> {
    [EncryptionKeyRequired, JwtSecretRequired, AuthPasswordRequired,
     DbHostRequired, DbUserRequired, DbPasswordRequired]
  }

  /** The position of a check in `Rules()`. */
  function Rank(rule: Rule): (k: nat)
    ensures k < |Rules()| && Rules()[k] == rule
  {
    match rule
    case EncryptionKeyRequired => 0
    case JwtSecretRequired => 1
    case AuthPasswordRequired => 2
    case DbHostRequired => 3
    case DbUserRequired => 4
    case DbPasswordRequired => 5
  }

  /** The snapshot breaks the check. */
  predicate Violates(c: Snapshot, rule: Rule) {
    match rule
    case EncryptionKeyRequired => c.encryptionKey == ""
    case JwtSecretRequired => c.jwtSecret == ""
    case AuthPasswordRequired => c.basicAuthActive && c.basicAuthPassword == ""
    case DbHostRequired => c.dbType == Postgres && c.dbHost == ""
    case DbUserRequired => c.dbType == Postgres && c.dbUser == ""
    case DbPasswordRequired => c.dbType == Postgres && c.dbPassword == ""
  }

  function Message(rule: Rule): string {
    match rule
    case EncryptionKeyRequired => "N8N_ENCRYPTION_KEY is required"
    case JwtSecretRequired => "N8N_JWT_SECRET is required"
    case AuthPasswordRequired => "N8N_BASIC_AUTH_PASSWORD is required when basic auth is active"
    case DbHostRequired => "DB_POSTGRESDB_HOST is required for PostgreSQL"
    case DbUserRequired => "DB_POSTGRESDB_USER is required for PostgreSQL"
    case DbPasswordRequired => "DB_POSTGRESDB_PASSWORD is required for PostgreSQL"
  }

  /** The message of a check the snapshot breaks, or nothing. */
  function Emit(c: Snapshot, rule: Rule): seq<string> {
    if Violates(c, rule) then [Message(rule)] else []
  }

  /** The messages of the broken checks among `rules`, in their order there. */
  function Report(c: Snapshot, rules: seq<Rule>): seq<string> {
    if rules == [] then [] else Report(c, rules[..|rules| - 1]) + Emit(c, rules[|rules| - 1])
  }

  /** The reference definition of validation: the report over the whole check table. */
  function Problems(c: Snapshot): seq<string> {
    Report(c, Rules())
  }

  /**
    `Config.validate`: every check runs, in order, and each broken one appends
    its message; nothing short-circuits.
   */
  method Validate(c: Snapshot) returns (errors: seq<string>)
    ensures errors == Problems(c)
  {
    errors := [];
    if c.encryptionKey == "" {
      errors := errors + [Message(EncryptionKeyRequired)];
    }
    assert errors == Emit(c, EncryptionKeyRequired);
    if c.jwtSecret == "" {
      errors := errors + [Message(JwtSecretRequired)];
    }
    assert errors == Emit(c, EncryptionKeyRequired) + Emit(c, JwtSecretRequired);
    if c.basicAuthActive && c.basicAuthPassword == "" {
      errors := errors + [Message(AuthPasswordRequired)];
    }
    ghost var front := errors;
    assert front == Emit(c, EncryptionKeyRequired) + Emit(c, JwtSecretRequired) + Emit(c, AuthPasswordRequired);
    if c.dbType == Postgres {
      if c.dbHost == "" {
        errors := errors + [Message(DbHostRequired)];
      }
      assert errors == front + Emit(c, DbHostRequired);
      if c.dbUser == "" {
        errors := errors + [Message(DbUserRequired)];
      }
      assert errors == front + Emit(c, DbHostRequired) + Emit(c, DbUserRequired);
      if c.dbPassword == "" {
        errors := errors + [Message(DbPasswordRequired)];
      }
    }
    assert errors == front + Emit(c, DbHostRequired) + Emit(c, DbUserRequired) + Emit(c, DbPasswordRequired);
    ProblemsUnfolded(c);
  }

  /** The check table written out: the report is the six checks' messages in turn. */
  lemma ProblemsUnfolded(c: Snapshot)
    ensures Problems(c) ==
      Emit(c, EncryptionKeyRequired) + Emit(c, JwtSecretRequired) + Emit(c, AuthPasswordRequired)
      + Emit(c, DbHostRequired) + Emit(c, DbUserRequired) + Emit(c, DbPasswordRequired)
  {
    var r6 := Rules();
    var r5 := [EncryptionKeyRequired, JwtSecretRequired, AuthPasswordRequired, DbHostRequired, DbUserRequired];
    var r4 := [EncryptionKeyRequired, JwtSecretRequired, AuthPasswordRequired, DbHostRequired];
    var r3 := [EncryptionKeyRequired, JwtSecretRequired, AuthPasswordRequired];
    var r2 := [EncryptionKeyRequired, JwtSecretRequired];
    var r1 := [EncryptionKeyRequired];
    assert r6[..5] == r5 && r5[..4] == r4 && r4[..3] == r3 && r3[..2] == r2 && r2[..1] == r1 && r1[..0] == [];
    assert Report(c, r1) == Emit(c, EncryptionKeyRequired);
    assert Report(c, r2) == Report(c, r1) + Emit(c, JwtSecretRequired);
    assert Report(c, r3) == Report(c, r2) + Emit(c, AuthPasswordRequired);
    assert Report(c, r4) == Report(c, r3) + Emit(c, DbHostRequired);
    assert Report(c, r5) == Report(c, r4) + Emit(c, DbUserRequired);
    assert Report(c, r6) == Report(c, r5) + Emit(c, DbPasswordRequired);
  }

  /** Different checks report different messages. */
  lemma MessageInjective(a: Rule, b: Rule)
    requires Message(a) == Message(b)
    ensures a == b
  {
  }

  /** The ranks strictly increase along the sequence: no check twice, table order kept. */
  predicate Increasing(rules: seq<Rule>) {
    forall i, j :: 0 <= i < j < |rules| ==> Rank(rules[i]) < Rank(rules[j])
  }

  /** The checks in `rules` that the snapshot breaks, in their order there. */
  function Select(c: Snapshot, rules: seq<Rule>): (broken: seq<Rule>)
    ensures |broken| <= |rules|
    ensures forall r :: r in broken <==> r in rules && Violates(c, r)
  {
    if rules == [] then []
    else
      var last := rules[|rules| - 1];
      Select(c, rules[..|rules| - 1]) + (if Violates(c, last) then [last] else [])
  }

  /** The checks `c` breaks, in table order. */
  function BrokenRules(c: Snapshot): seq<Rule> {
    Select(c, Rules())
  }

  /** The report is, message for message, the list of broken checks. */
  lemma {:induction false} ReportSelect(c: Snapshot, rules: seq<Rule>)
    ensures |Report(c, rules)| == |Select(c, rules)|
    ensures forall i :: 0 <= i < |Report(c, rules)| ==> Report(c, rules)[i] == Message(Select(c, rules)[i])
  {
    if rules != [] {
      ReportSelect(c, rules[..|rules| - 1]);
    }
  }

  /** `Select` keeps the order of its input. */
  lemma {:induction false} SelectIncreasing(c: Snapshot, rules: seq<Rule>)
    requires Increasing(rules)
    ensures Increasing(Select(c, rules))
  {
    if rules != [] {
      var init, last := rules[..|rules| - 1], rules[|rules| - 1];
      SelectIncreasing(c, init);
      forall r | r in Select(c, init) ensures Rank(r) < Rank(last) {
        var j :| 0 <= j < |init| && init[j] == r;
        assert rules[j] == r;
      }
    }
  }

  /** A check's message is in the report of `rules` exactly when the check is there and broken. */
  lemma {:induction false} ReportMember(c: Snapshot, rules: seq<Rule>, rule: Rule)
    ensures Message(rule) in Report(c, rules) <==> rule in rules && Violates(c, rule)
  {
    if rules != [] {
      var init, last := rules[..|rules| - 1], rules[|rules| - 1];
      ReportMember(c, init, rule);
      assert rules == init + [last];
      if Message(rule) in Emit(c, last) {
        MessageInjective(rule, last);
      }
    }
  }

  /** A check's message is reported exactly when the snapshot breaks the check. */
  lemma ProblemsReport(c: Snapshot, rule: Rule)
    ensures Message(rule) in Problems(c) <==> Violates(c, rule)
  {
    var rules := Rules();
    assert rules[Rank(rule)] == rule;
    ReportMember(c, rules, rule);
  }

  /** The check table lists every check once, in rank order. */
  lemma RulesIncreasing()
    ensures Increasing(Rules())
  {
  }

  /**
    The messages follow the check order, none is repeated, and there are at
    most six: one per broken check.
   */
  lemma ProblemsOrdered(c: Snapshot)
    ensures |Problems(c)| == |BrokenRules(c)| <= 6
    ensures Increasing(BrokenRules(c))
    ensures forall i :: 0 <= i < |Problems(c)| ==> Problems(c)[i] == Message(BrokenRules(c)[i])
    ensures forall i, j :: 0 <= i < j < |Problems(c)| ==> Problems(c)[i] != Problems(c)[j]
  {
    var rules := Rules();
    RulesIncreasing();
    SelectIncreasing(c, rules);
    ReportSelect(c, rules);
    var broken := Select(c, rules);
    var problems := Report(c, rules);
    forall i, j | 0 <= i < j < |problems| ensures problems[i] != problems[j] {
      assert Rank(broken[i]) < Rank(broken[j]);
      if problems[i] == problems[j] {
        MessageInjective(broken[i], broken[j]);
      }
    }
  }

  /** The number of messages is the number of broken checks. */
  lemma ProblemsCount(c: Snapshot)
    ensures |Problems(c)| == |set r | r in Rules() && Violates(c, r)|
  {
    var rules := Rules();
    RulesIncreasing();
    SelectIncreasing(c, rules);
    ReportSelect(c, rules);
    var broken := Select(c, rules);
    assert (set r | r in rules && Violates(c, r)) == (set r | r in broken);
    DistinctCardinality(broken);
  }

  lemma {:induction false} DistinctCardinality(rules: seq<Rule>)
    requires Increasing(rules)
    ensures |set r | r in rules| == |rules|
  {
    if rules != [] {
      var rest := rules[1..];
      DistinctCardinality(rest);
      assert (set r | r in rules) == {rules[0]} + (set r | r in rest);
    }
  }

  /** The snapshot is valid exactly when every requirement holds. */
  lemma ValidIff(c: Snapshot)
    ensures Problems(c) == [] <==>
      && c.encryptionKey != ""
      && c.jwtSecret != ""
      && (!c.basicAuthActive || c.basicAuthPassword != "")
      && (c.dbType != Postgres || (c.dbHost != "" && c.dbUser != "" && c.dbPassword != ""))
  {
    ProblemsUnfolded(c);
  }

  /** A missing encryption key is always reported, first, whatever else is wrong. */
  lemma MissingEncryptionKeyReported(c: Snapshot)
    requires c.encryptionKey == ""
    ensures |Problems(c)| > 0 && Problems(c)[0] == "N8N_ENCRYPTION_KEY is required"
  {
    ProblemsUnfolded(c);
  }

  /** A missing JWT secret is always reported, whatever else is wrong. */
  lemma MissingJwtSecretReported(c: Snapshot)
    requires c.jwtSecret == ""
    ensures "N8N_JWT_SECRET is required" in Problems(c)
  {
    ProblemsReport(c, JwtSecretRequired);
  }

  /** The basic-auth password message appears iff auth is active and the password empty. */
  lemma AuthPasswordReported(c: Snapshot)
    ensures "N8N_BASIC_AUTH_PASSWORD is required when basic auth is active" in Problems(c)
      <==> c.basicAuthActive && c.basicAuthPassword == ""
  {
    ProblemsReport(c, AuthPasswordRequired);
  }

  /** No database message is reported unless the database type is PostgreSQL. */
  lemma DatabaseChecksOnlyForPostgres(c: Snapshot)
    requires c.dbType != Postgres
    ensures Problems(c) == Emit(c, EncryptionKeyRequired) + Emit(c, JwtSecretRequired) + Emit(c, AuthPasswordRequired)
  {
    ProblemsUnfolded(c);
  }

  /** For PostgreSQL, host, user and password each report their own message. */
  lemma DatabaseChecksForPostgres(c: Snapshot)
    requires c.dbType == Postgres
    ensures Message(DbHostRequired) in Problems(c) <==> c.dbHost == ""
    ensures Message(DbUserRequired) in Problems(c) <==> c.dbUser == ""
    ensures Message(DbPasswordRequired) in Problems(c) <==> c.dbPassword == ""
  {
    ProblemsReport(c, DbHostRequired);
    ProblemsReport(c, DbUserRequired);
    ProblemsReport(c, DbPasswordRequired);
  }

  /** With all three missing, the database messages close the list as host, user, password. */
  lemma DatabaseChecksOrder(c: Snapshot)
    requires c.dbType == Postgres && c.dbHost == "" && c.dbUser == "" && c.dbPassword == ""
    ensures |Problems(c)| >= 3
    ensures Problems(c)[|Problems(c)| - 3..] ==
      [Message(DbHostRequired), Message(DbUserRequired), Message(DbPasswordRequired)]
  {
    ProblemsUnfolded(c);
  }
}
