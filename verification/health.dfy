/**
 * The decisions of `src/health_checker.py`: the overall status from the collected
 * check results, the error and warning lines found in a container's log, and the
 * reading of Docker's health-status output. Running the commands is outside the
 * model; their exit status and output are inputs.
 */
module Health {
  import opened Wrappers
  import opened Text
  import opened OrderedMap

  // ---------------------------------------------------------------------------
  // Overall status

  datatype Status = Healthy | Warning | Critical

  /** One entry of `results["services"]`: `container_running` when the key is present, and `issues`. */
  datatype ServiceHealth = ServiceHealth(containerRunning: Option<bool>, issues: seq<string>)

  /** `results["vpn_status"]`: missing or empty, or a report that may carry `vpn_connected`. */
  datatype VpnStatus = NoVpnStatus | VpnReport(connected: Option<bool>)

  /** The results `_determine_overall_status` reads: `daemon_running` when present, the services, the VPN. */
  datatype HealthResults = HealthResults(daemonRunning: Option<bool>, services: seq<(string, ServiceHealth)>, vpn: VpnStatus)

  /** `get("container_running", False)` is true. */
  predicate Running(h: ServiceHealth) {
    h.containerRunning == Some(true)
  }

  /** A VPN report counts against the system only when it says it is disconnected. */
  predicate VpnDown(v: VpnStatus) {
    v.VpnReport? && v.connected == Some(false)
  }

  /** Something is critical: the daemon is not known to run, a service is not known to run, or the VPN is down. */
  predicate HasCritical(r: HealthResults) {
    || r.daemonRunning != Some(true)
    || (exists k | 0 <= k < |r.services| :: !Running(r.services[k].1))
    || VpnDown(r.vpn)
  }

  /** The number of services not known to run. */
  function Stopped(services: seq<(string, ServiceHealth)>): nat {
    if |services| == 0 then 0
    else Stopped(services[..|services| - 1]) + (if Running(services[|services| - 1].1) then 0 else 1)
  }

  /** The issues of the running services, all counted. */
  function IssueSum(services: seq<(string, ServiceHealth)>): nat {
    if |services| == 0 then 0
    else
      var h := services[|services| - 1].1;
      IssueSum(services[..|services| - 1]) + (if Running(h) then |h.issues| else 0)
  }

  /** Some service is counted as stopped exactly when one is not known to run. */
  lemma {:induction false} StoppedPositive(services: seq<(string, ServiceHealth)>)
    ensures Stopped(services) > 0 <==> exists k | 0 <= k < |services| :: !Running(services[k].1)
  {
    if |services| > 0 {
      var init := services[..|services| - 1];
      StoppedPositive(init);
      if exists k | 0 <= k < |init| :: !Running(init[k].1) {
        var k :| 0 <= k < |init| && !Running(init[k].1);
        assert services[k] == init[k];
      }
      if exists k | 0 <= k < |services| :: !Running(services[k].1) {
        var k :| 0 <= k < |services| && !Running(services[k].1);
        if k < |init| {
          assert init[k] == services[k];
        }
      }
    }
  }

  /**
   * `_determine_overall_status`: critical when anything is critical, otherwise a
   * warning when the running services report more than three issues, otherwise healthy.
   */
  method DetermineOverallStatus(r: HealthResults) returns (status: Status)
    ensures status == Critical <==> HasCritical(r)
    ensures status == Warning <==> !HasCritical(r) && IssueSum(r.services) > 3
    ensures status == Healthy <==> !HasCritical(r) && IssueSum(r.services) <= 3
  {
    var critical := 0;
    var warnings := 0;
    if r.daemonRunning != Some(true) {
      critical := critical + 1;
    }
    var i := 0;
    while i < |r.services|
      invariant 0 <= i <= |r.services|
      invariant critical == (if r.daemonRunning != Some(true) then 1 else 0) + Stopped(r.services[..i])
      invariant warnings == IssueSum(r.services[..i])
    {
      var h := r.services[i].1;
      assert r.services[..i + 1][..i] == r.services[..i];
      if !Running(h) {
        critical := critical + 1;
      } else if |h.issues| > 0 {
        warnings := warnings + |h.issues|;
      }
      i := i + 1;
    }
    assert r.services[..i] == r.services;
    StoppedPositive(r.services);
    if VpnDown(r.vpn) {
      critical := critical + 1;
    }
    if critical > 0 {
      status := Critical;
    } else if warnings > 3 {
      status := Warning;
    } else {
      status := Healthy;
    }
  }

  /** The issues of a stopped service never count as warnings: they are already critical. */
  lemma {:induction false} StoppedIssuesIgnored(services: seq<(string, ServiceHealth)>, id: string, h: ServiceHealth)
    requires !Running(h)
    ensures IssueSum(services + [(id, h)]) == IssueSum(services)
    ensures Stopped(services + [(id, h)]) == Stopped(services) + 1
  {
    assert (services + [(id, h)])[..|services|] == services;
  }

  // ---------------------------------------------------------------------------
  // Log analysis

  const ErrorPatterns: seq<string> := [
    "error", "fatal", "exception", "failed", "cannot", "unable", "connection refused", "timeout",
    "permission denied"
  ]

  const WarningPatterns: seq<string> := ["warning", "warn", "deprecated", "retry", "fallback"]

  /** Some pattern occurs in `s`. */
  predicate MatchesAny(s: string, patterns: seq<string>) {
    exists i | 0 <= i < |patterns| :: Contains(s, patterns[i])
  }

  /** What one log line is: blank, an error, a warning, or neither. Errors take precedence. */
  datatype LineKind = Blank | ErrorLine | WarningLine | Plain

  function Classify(line: string): LineKind {
    if Strip(line) == "" then Blank
    else if MatchesAny(Lower(line), ErrorPatterns) then ErrorLine
    else if MatchesAny(Lower(line), WarningPatterns) then WarningLine
    else Plain
  }

  /** The dictionary `_analyze_container_logs` returns. */
  datatype LogAnalysis = LogAnalysis(healthy: bool, errors: seq<string>, warnings: seq<string>)

  const CleanLog: LogAnalysis := LogAnalysis(true, [], [])

  /** Appending unless already present. */
  function AddOnce(xs: seq<string>, x: string): (r: seq<string>)
    ensures x in r
    ensures forall y :: y in r <==> y in xs || y == x
    ensures Distinct(xs) ==> Distinct(r)
  {
    if x in xs then xs else xs + [x]
  }

  /** One pass of the loop body over a line. */
  function Step(a: LogAnalysis, line: string): LogAnalysis {
    match Classify(line)
    case ErrorLine => LogAnalysis(false, AddOnce(a.errors, Strip(line)), a.warnings)
    case WarningLine => a.(warnings := AddOnce(a.warnings, Strip(line)))
    case _ => a
  }

  /** The loop over the lines, in order. */
  function Scan(lines: seq<string>): (r: LogAnalysis)
    ensures Distinct(r.errors) && Distinct(r.warnings)
    ensures r.healthy <==> r.errors == []
  {
    if |lines| == 0 then CleanLog else Step(Scan(lines[..|lines| - 1]), lines[|lines| - 1])
  }

  /** `split("\n")[-50:]`: at most the last `n` lines. */
  function LastLines(lines: seq<string>, n: nat): (r: seq<string>)
    ensures |r| == if |lines| <= n then |lines| else n
    ensures forall k | 0 <= k < |r| :: r[k] == lines[|lines| - |r| + k]
  {
    if |lines| <= n then lines else lines[|lines| - n..]
  }

  /** `_analyze_container_logs`, given the exit status and output of `docker logs --tail 100`. */
  function AnalyzeContainerLogs(exitCode: int, stdout: string): (r: LogAnalysis)
    ensures exitCode != 0 ==> r == CleanLog
    ensures Distinct(r.errors) && Distinct(r.warnings)
    ensures r.healthy <==> r.errors == []
  {
    if exitCode != 0 then CleanLog else Scan(LastLines(Split(stdout, '\n'), 50))
  }

  /** Each line's kind, with the stripped text the loop would record. */
  function Tags(lines: seq<string>): (r: seq<(LineKind, string)>)
    ensures |r| == |lines|
  {
    seq(|lines|, k requires 0 <= k < |lines| => (Classify(lines[k]), Strip(lines[k])))
  }

  /** The tags of all lines are those of the earlier lines, then the last line's. */
  lemma TagsSnoc(lines: seq<string>)
    requires |lines| > 0
    ensures Tags(lines) == Tags(lines[..|lines| - 1]) + [(Classify(lines[|lines| - 1]), Strip(lines[|lines| - 1]))]
  {
    var init := lines[..|lines| - 1];
    forall k | 0 <= k < |init| ensures Tags(lines)[k] == Tags(init)[k] {
      assert lines[k] == init[k];
    }
  }

  /** A text is an error exactly when some line classified as an error strips to it. */
  lemma {:induction false} ScanErrors(lines: seq<string>, x: string)
    ensures x in Scan(lines).errors <==> (ErrorLine, x) in Tags(lines)
  {
    if |lines| > 0 {
      ScanErrors(lines[..|lines| - 1], x);
      TagsSnoc(lines);
    }
  }

  /** A text is a warning exactly when some line classified as a warning strips to it. */
  lemma {:induction false} ScanWarnings(lines: seq<string>, x: string)
    ensures x in Scan(lines).warnings <==> (WarningLine, x) in Tags(lines)
  {
    if |lines| > 0 {
      ScanWarnings(lines[..|lines| - 1], x);
      TagsSnoc(lines);
    }
  }

  /** The log is healthy exactly when no line is an error. */
  lemma ScanHealthy(lines: seq<string>)
    ensures Scan(lines).healthy <==> forall k | 0 <= k < |lines| :: Classify(lines[k]) != ErrorLine
  {
    var tags := Tags(lines);
    if !Scan(lines).healthy {
      ScanErrors(lines, Scan(lines).errors[0]);
      var k :| 0 <= k < |tags| && tags[k] == (ErrorLine, Scan(lines).errors[0]);
      assert Classify(lines[k]) == ErrorLine;
    } else if exists k | 0 <= k < |lines| :: Classify(lines[k]) == ErrorLine {
      var k :| 0 <= k < |lines| && Classify(lines[k]) == ErrorLine;
      assert tags[k] == (ErrorLine, Strip(lines[k]));
      ScanErrors(lines, Strip(lines[k]));
    }
  }

  /** A line that is an error is never also a warning. */
  lemma ErrorNotWarning(line: string)
    requires Classify(line) == ErrorLine
    ensures Step(CleanLog, line).warnings == [] && Step(CleanLog, line).errors == [Strip(line)]
  { }

  /** Only the last fifty lines count: anything before them leaves the analysis unchanged. */
  lemma OnlyLastFifty(earlier: seq<string>, recent: seq<string>)
    requires |recent| == 50
    ensures LastLines(earlier + recent, 50) == recent
  {
    assert (earlier + recent)[|earlier|..] == recent;
  }

  // ---------------------------------------------------------------------------
  // Docker health status

  /**
   * `_check_container_health_status`: the stripped output of `docker inspect` is
   * "healthy", or empty when no health check is defined; a failed command is not healthy.
   */
  function HealthStatusAccepted(exitCode: int, stdout: string): (ok: bool)
    ensures ok ==> exitCode == 0
  {
    exitCode == 0 && (Strip(stdout) == "healthy" || Strip(stdout) == "")
  }

  /**
   * The status check accepts exactly a successful command whose output is "healthy"
   * or nothing at all, either one padded with whitespace.
   */
  lemma HealthStatusPadded(exitCode: int, stdout: string)
    ensures HealthStatusAccepted(exitCode, stdout) <==>
      exitCode == 0 && (PaddedWord(stdout, "healthy") || AllSpace(stdout))
  {
    StripToWord(stdout, "healthy");
    StripEmpty(stdout);
  }

  lemma HealthStatusExamples()
    ensures HealthStatusAccepted(0, "healthy")
    ensures HealthStatusAccepted(0, "")
    ensures HealthStatusAccepted(0, "healthy\n")
    ensures !HealthStatusAccepted(0, "unhealthy")
    ensures !HealthStatusAccepted(1, "healthy")
  {
    assert Strip("healthy") == "healthy";
    assert Strip("healthy\n") == "healthy" by {
      assert StripLeft("healthy\n") == "healthy\n";
      assert "healthy\n"[..|"healthy\n"| - 1] == "healthy";
    }
    assert Strip("unhealthy") == "unhealthy";
  }
}
