/**
  The health prober of the deployment (src/health_check.py): one GET of
  `<base>/healthz` classified into a check result, a placeholder database
  check that only looks at the configured database type, and the combined
  report. The HTTP client is abstracted as a transport: a function from the
  requested URL and the timeout to what the request produced.
 */
module HealthCheck {
  import opened Wrappers
  import opened Text
  import opened Config

  /** The values of a result's "status" key. */
  datatype Status = Healthy | Unhealthy | NotApplicable

  /**
    What one GET produced. `UnexpectedError` stands for an exception that is
    neither a timeout nor a request error: the prober does not catch it.
   */
  datatype TransportOutcome =
    | Response(statusCode: int, elapsedMs: nat)
    | Timeout
    | RequestError(description: string)
    | UnexpectedError(description: string)

  /** The HTTP client: requested URL and timeout in seconds to the outcome. */
  type Transport = (string, int) -> TransportOutcome

  /**
    A check's dictionary. Each optional field is a key that is present or
    absent: "status_code", "response_time_ms", "error", "message", "type".
   */
  datatype CheckResult = CheckResult(
    status: Status,
    statusCode: Option<int>,
    responseTimeMs: Option<nat>,
    error: Option<string>,
    message: Option<string>,
    dbType: Option<string>)
  {
    /** The keys of the dictionary. */
    function Keys(): (keys: set<string>)
      ensures "status" in keys
      ensures "status_code" in keys <==> statusCode.Some?
      ensures "response_time_ms" in keys <==> responseTimeMs.Some?
      ensures "error" in keys <==> error.Some?
      ensures "message" in keys <==> message.Some?
      ensures "type" in keys <==> dbType.Some?
      ensures keys <= {"status", "status_code", "response_time_ms", "error", "message", "type"}
    {
      {"status"}
      + (if statusCode.Some? then {"status_code"} else {})
      + (if responseTimeMs.Some? then {"response_time_ms"} else {})
      + (if error.Some? then {"error"} else {})
      + (if message.Some? then {"message"} else {})
      + (if dbType.Some? then {"type"} else {})
    }
  }

  /** `HealthChecker`: the address probed and the request timeout in seconds. */
  datatype HealthChecker = HealthChecker(baseUrl: string, timeout: int)

  /** The address used when none is given: the local service port. */
  function LocalUrl(port: nat): string {
    "http://localhost:" + NatToString(port)
  }

  /**
    `HealthChecker.__init__`: a given, non-empty address is used verbatim; a
    missing or empty one falls back to localhost on the configured port.
   */
  function NewHealthChecker(url: Option<string>, timeout: int, c: Snapshot): (h: HealthChecker)
    ensures h.timeout == timeout
    ensures url.Some? && url.value != "" ==> h.baseUrl == url.value
    ensures url.None? || url.value == "" ==>
      var prefix := "http://localhost:";
      && |h.baseUrl| > |prefix|
      && h.baseUrl[..|prefix|] == prefix
      && h.baseUrl[|prefix|..] == NatToString(c.n8nPort)
      && ParseNat(h.baseUrl[|prefix|..]) == Some(c.n8nPort)
    ensures h.baseUrl != ""
  {
    if url.Some? && url.value != "" then
      HealthChecker(url.value, timeout)
    else
      var prefix := "http://localhost:";
      var digits := NatToString(c.n8nPort);
      ParseNatToString(c.n8nPort);
      assert (prefix + digits)[..|prefix|] == prefix;
      assert (prefix + digits)[|prefix|..] == digits;
      HealthChecker(LocalUrl(c.n8nPort), timeout)
  }

  /** Distinct ports give distinct default addresses. */
  lemma LocalUrlInjective(m: nat, n: nat)
    requires LocalUrl(m) == LocalUrl(n)
    ensures m == n
  {
    var prefix := "http://localhost:";
    assert LocalUrl(m)[|prefix|..] == NatToString(m);
    assert LocalUrl(n)[|prefix|..] == NatToString(n);
    NatToStringInjective(m, n);
  }

  /** The one URL the prober requests. */
  function HealthUrl(h: HealthChecker): (url: string)
    ensures |url| == |h.baseUrl| + 8
    ensures url[..|h.baseUrl|] == h.baseUrl && url[|h.baseUrl|..] == "/healthz"
  {
    h.baseUrl + "/healthz"
  }

  /** How `check_health` turns the outcome of its request into a result. */
  function Classify(outcome: TransportOutcome): (r: Result<CheckResult, string>)
    ensures r.Failure? <==> outcome.UnexpectedError?
    ensures outcome.Response? ==>
      && r.Success?
      && (r.value.status == Healthy <==> outcome.statusCode == 200)
      && r.value.status != NotApplicable
      && r.value.statusCode == Some(outcome.statusCode)
      && r.value.responseTimeMs == Some(outcome.elapsedMs)
      && r.value.Keys() == {"status", "status_code", "response_time_ms"}
    ensures outcome.Timeout? ==>
      && r.Success?
      && r.value.status == Unhealthy && r.value.error == Some("timeout")
      && r.value.Keys() == {"status", "error"}
    ensures outcome.RequestError? ==>
      && r.Success?
      && r.value.status == Unhealthy && r.value.error == Some(outcome.description)
      && r.value.Keys() == {"status", "error"}
    ensures outcome.UnexpectedError? ==> r.error == outcome.description
  {
    match outcome
    case Response(code, ms) =>
      Success(CheckResult(if code == 200 then Healthy else Unhealthy, Some(code), Some(ms), None, None, None))
    case Timeout =>
      Success(CheckResult(Unhealthy, None, None, Some("timeout"), None, None))
    case RequestError(description) =>
      Success(CheckResult(Unhealthy, None, None, Some(description), None, None))
    case UnexpectedError(description) =>
      Failure(description)
  }

  /**
    `check_health`: one request to `<base>/healthz` with the checker's timeout.
    A `Failure` is an exception that escapes the prober.
   */
  function CheckHealth(h: HealthChecker, transport: Transport): (r: Result<CheckResult, string>)
    ensures r.Success? ==> r.value.status in {Healthy, Unhealthy}
    ensures r.Success? && r.value.status == Healthy <==>
      transport(HealthUrl(h), h.timeout).Response? && transport(HealthUrl(h), h.timeout).statusCode == 200
  {
    Classify(transport(HealthUrl(h), h.timeout))
  }

  /** The prober's result depends on the transport only through the /healthz request. */
  lemma CheckHealthOneRequest(h: HealthChecker, t1: Transport, t2: Transport)
    requires t1(HealthUrl(h), h.timeout) == t2(HealthUrl(h), h.timeout)
    ensures CheckHealth(h, t1) == CheckHealth(h, t2)
  {
  }

  /** `check_database`: a placeholder that only looks at the configured database type. */
  function CheckDatabase(c: Snapshot): (r: CheckResult)
    ensures r.status == NotApplicable <==> c.dbType != Postgres
    ensures r.status != Unhealthy
    ensures r.status == NotApplicable ==>
      r.message == Some("Not using PostgreSQL") && r.Keys() == {"status", "message"}
    ensures r.status == Healthy ==>
      r.dbType == Some(c.dbType) && r.Keys() == {"status", "type"}
  {
    if c.dbType != Postgres then
      CheckResult(NotApplicable, None, None, None, Some("Not using PostgreSQL"), None)
    else
      CheckResult(Healthy, None, None, None, None, Some(c.dbType))
  }

  /** The combined report: an overall status and the sub-results by name. */
  datatype HealthReport = HealthReport(status: Status, checks: map<string, CheckResult>)

  /** The body of `full_health_check` once both sub-results are known. */
  function Combine(health: CheckResult, database: CheckResult): (report: HealthReport)
    ensures report.status == Healthy <==>
      health.status == Healthy && database.status in {Healthy, NotApplicable}
    ensures report.status != NotApplicable
    ensures report.checks.Keys == {"n8n", "database"}
    ensures report.checks["n8n"] == health && report.checks["database"] == database
  {
    var overall :=
      if health.status == Healthy && database.status in {Healthy, NotApplicable} then Healthy else Unhealthy;
    HealthReport(overall, map["n8n" := health, "database" := database])
  }

  /** `full_health_check`: the prober, then the database check, combined. */
  function FullHealthCheck(h: HealthChecker, c: Snapshot, transport: Transport): (r: Result<HealthReport, string>)
    ensures r.Failure? <==> transport(HealthUrl(h), h.timeout).UnexpectedError?
    ensures r.Success? ==>
      && r.value.checks.Keys == {"n8n", "database"}
      && Success(r.value.checks["n8n"]) == CheckHealth(h, transport)
      && r.value.checks["database"] == CheckDatabase(c)
  {
    var health :- CheckHealth(h, transport);
    Success(Combine(health, CheckDatabase(c)))
  }

  /**
    The overall status is healthy exactly when /healthz answered 200: the
    database check never reports unhealthy.
   */
  lemma FullHealthyIff(h: HealthChecker, c: Snapshot, transport: Transport)
    ensures FullHealthCheck(h, c, transport).Success? && FullHealthCheck(h, c, transport).value.status == Healthy
      <==> transport(HealthUrl(h), h.timeout).Response? && transport(HealthUrl(h), h.timeout).statusCode == 200
  {
  }

  /** A 200 answer in 50 ms with a non-PostgreSQL database: everything is healthy or not applicable. */
  lemma HealthyWithoutPostgres(h: HealthChecker, c: Snapshot, transport: Transport)
    requires transport(HealthUrl(h), h.timeout) == Response(200, 50)
    requires c.dbType == "sqlite"
    ensures var r := FullHealthCheck(h, c, transport);
      && r.Success? && r.value.status == Healthy
      && r.value.checks["n8n"].status == Healthy && r.value.checks["n8n"].statusCode == Some(200)
      && r.value.checks["database"].status == NotApplicable
  {
  }

  /** A 503 answer makes the report unhealthy, whatever the database check says. */
  lemma UnhealthyOn503(h: HealthChecker, c: Snapshot, transport: Transport)
    requires transport(HealthUrl(h), h.timeout).Response? && transport(HealthUrl(h), h.timeout).statusCode == 503
    ensures var r := FullHealthCheck(h, c, transport);
      && r.Success? && r.value.status == Unhealthy
      && r.value.checks["n8n"].statusCode == Some(503)
  {
  }
}
