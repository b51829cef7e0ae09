/** `VolatilityRunner` from volatility_mcp_server.py: the object that runs
    `python vol.py <args>` and turns whatever happens into a string.

    The subprocess itself (spawn, `communicate`, `wait_for`, `kill`) is not
    modelled; what it does is an input, a `ProcessOutcome`, and `Call` is
    the classification `__call__` performs on it. */
module Runner {
  import opened Builtins

  /** The configuration `__init__` stores; the logger it also sets up is
      left out. */
  datatype VolatilityRunner = VolatilityRunner(python: string, script: string, dir: string, timeout: int)

  /** How the spawned command ended, as `__call__` observes it. Output is
      taken as already decoded text. */
  datatype ProcessOutcome =
    | Exited(returnCode: int, stdout: string, stderr: string)
    | TimedOut
    | Raised(message: string)  // any exception while spawning or waiting; `message` is `str(e)`

  /** The timeout the module-level runner is built with, in seconds. */
  const DefaultTimeout: int := 60

  const TimeoutPrefix: string := "Command timed out after "
  const FailurePrefix: string := "Command failed with return code "
  const ExceptionPrefix: string := "Exception running command "

  /** The argument vector that is executed: interpreter, script, then the
      plugin's arguments. */
  function Command(r: VolatilityRunner, cmdArgs: seq<string>): (cmd: seq<string>)
    ensures |cmd| == |cmdArgs| + 2
    ensures cmd[0] == r.python && cmd[1] == r.script && cmd[2..] == cmdArgs
  {
    [r.python, r.script] + cmdArgs
  }

  /** The command as logged and quoted in error messages. */
  function CommandLine(r: VolatilityRunner, cmdArgs: seq<string>): string {
    Join(Command(r, cmdArgs), ' ')
  }

  /** The logged command line is faithful to the executed vector whenever no
      argument contains a space: splitting it gives the vector back. */
  lemma CommandLineRecoversCommand(r: VolatilityRunner, cmdArgs: seq<string>)
    requires ' ' !in r.python && ' ' !in r.script
    requires forall i :: 0 <= i < |cmdArgs| ==> ' ' !in cmdArgs[i]
    ensures Split(CommandLine(r, cmdArgs), ' ') == Command(r, cmdArgs)
  {
    var cmd := Command(r, cmdArgs);
    forall i | 0 <= i < |cmd| ensures ' ' !in cmd[i] {
      if i >= 2 {
        assert cmd[i] == cmdArgs[i - 2];
      }
    }
    SplitJoin(cmd, ' ');
  }

  /** `timeout or self.timeout`: the per-call value unless it is missing or
      zero (both falsy in Python). */
  function EffectiveTimeout(perCall: Option<int>, default: int): (t: int)
    ensures perCall.Some? && perCall.value != 0 ==> t == perCall.value
    ensures perCall.None? || perCall.value == 0 ==> t == default
  {
    match perCall
    case Some(v) => if v != 0 then v else default
    case None => default
  }

  /** `VolatilityRunner.__call__`: the text returned for the given outcome.
      It is total: every outcome, including an exception, becomes a string. */
  function Call(r: VolatilityRunner, cmdArgs: seq<string>, timeout: Option<int>, outcome: ProcessOutcome): (text: string)
    ensures outcome.Exited? && outcome.returnCode == 0 ==> text == outcome.stdout
    ensures outcome.Exited? && outcome.returnCode != 0 ==> StartsWith(text, FailurePrefix) && EndsWith(text, outcome.stderr)
    ensures outcome.Exited? && outcome.returnCode != 0 ==> text == FailurePrefix + Str(outcome.returnCode) + ": " + outcome.stderr
    ensures outcome.TimedOut? ==> StartsWith(text, TimeoutPrefix) && EndsWith(text, CommandLine(r, cmdArgs))
    ensures outcome.TimedOut? ==> text == TimeoutPrefix + Str(EffectiveTimeout(timeout, r.timeout)) + " seconds: " + CommandLine(r, cmdArgs)
    ensures outcome.Raised? ==> StartsWith(text, ExceptionPrefix + CommandLine(r, cmdArgs)) && EndsWith(text, outcome.message)
  {
    var cmdStr := CommandLine(r, cmdArgs);
    match outcome
    case TimedOut =>
      var rest := Str(EffectiveTimeout(timeout, r.timeout)) + " seconds: ";
      ConcatEnds(TimeoutPrefix, rest + cmdStr);
      ConcatEnds(TimeoutPrefix + rest, cmdStr);
      TimeoutPrefix + rest + cmdStr
    case Exited(rc, out, err) =>
      if rc != 0 then
        ConcatEnds(FailurePrefix, Str(rc) + ": " + err);
        ConcatEnds(FailurePrefix + Str(rc) + ": ", err);
        FailurePrefix + Str(rc) + ": " + err
      else out
    case Raised(msg) =>
      ConcatEnds(ExceptionPrefix + cmdStr, ": " + msg);
      ConcatEnds(ExceptionPrefix + cmdStr + ": ", msg);
      ExceptionPrefix + cmdStr + ": " + msg
  }

  /** True of the outcomes whose report is an error message rather than the
      tool's own output. */
  predicate IsFailure(outcome: ProcessOutcome) {
    !(outcome.Exited? && outcome.returnCode == 0)
  }

  /** The exit code decides which stream is reported: on 0 the standard
      output verbatim (standard error is dropped), otherwise the code and
      standard error (standard output is dropped). */
  lemma ExitCodeSelectsStream(r: VolatilityRunner, cmdArgs: seq<string>, timeout: Option<int>,
                              rc: int, out1: string, err1: string, out2: string, err2: string)
    ensures rc == 0 ==> Call(r, cmdArgs, timeout, Exited(rc, out1, err1)) == out1
    ensures rc == 0 ==> Call(r, cmdArgs, timeout, Exited(rc, out1, err1)) == Call(r, cmdArgs, timeout, Exited(rc, out1, err2))
    ensures rc != 0 ==> Call(r, cmdArgs, timeout, Exited(rc, out1, err1)) == Call(r, cmdArgs, timeout, Exited(rc, out2, err1))
    ensures rc != 0 ==> StartsWith(Call(r, cmdArgs, timeout, Exited(rc, out1, err1)), FailurePrefix)
  {
  }

  /** Position of the first ':' in a failure report body `str(rc) + ": " + err`
      is the length of `str(rc)`, because a rendered integer holds no ':'. */
  lemma FailureBodySplits(rc: int, err: string)
    ensures IndexOf(Str(rc) + ": " + err, ':') == |Str(rc)|
  {
    var s := Str(rc) + ": " + err;
    assert s[|Str(rc)|] == ':';
    forall j | 0 <= j < |Str(rc)| ensures s[j] != ':' {
      assert s[j] == Str(rc)[j];
    }
  }

  /** Two failing outcomes that carry the same information: same kind, same
      exception text, same exit code and standard error. A non-zero exit's
      standard output is dropped by `__call__` and so is not compared. */
  predicate SameFailure(o1: ProcessOutcome, o2: ProcessOutcome) {
    match o1
    case TimedOut => o2.TimedOut?
    case Raised(m) => o2.Raised? && o2.message == m
    case Exited(rc, _, err) => o2.Exited? && o2.returnCode == rc && o2.stderr == err
  }

  /** The first character of a failure report separates exceptions from the
      rest, the ninth separates timeouts from non-zero exits. */
  lemma ReportMarkers(r: VolatilityRunner, cmdArgs: seq<string>, timeout: Option<int>, o: ProcessOutcome)
    requires IsFailure(o)
    ensures var m := Call(r, cmdArgs, timeout, o);
            |m| > 8 && m[0] == (if o.Raised? then 'E' else 'C')
            && (!o.Raised? ==> m[8] == (if o.TimedOut? then 't' else 'f'))
  {
    var m := Call(r, cmdArgs, timeout, o);
    var p := if o.Raised? then ExceptionPrefix else if o.TimedOut? then TimeoutPrefix else FailurePrefix;
    assert StartsWith(m, p);
    assert m[0] == m[..|p|][0] == p[0];
    assert m[8] == m[..|p|][8] == p[8];
  }

  /** A non-zero exit report names its code and standard error unambiguously. */
  lemma ExitReportInjective(rc1: int, err1: string, rc2: int, err2: string)
    requires Str(rc1) + ": " + err1 == Str(rc2) + ": " + err2
    ensures rc1 == rc2 && err1 == err2
  {
    var b := Str(rc1) + ": " + err1;
    FailureBodySplits(rc1, err1);
    FailureBodySplits(rc2, err2);
    assert Str(rc1) == b[..|Str(rc1)|] == Str(rc2);
    StrInjective(rc1, rc2);
    assert err1 == b[|Str(rc1)| + 2..] == err2;
  }

  /** Error reports are unambiguous: two failing outcomes of the same command
      that produce the same text carry the same information, so a caller can
      tell a timeout, a non-zero exit (with its code and standard error) and
      an exception apart from the text alone. */
  lemma {:induction false} FailureReportsDetermineOutcome(r: VolatilityRunner, cmdArgs: seq<string>, timeout: Option<int>,
                                                          o1: ProcessOutcome, o2: ProcessOutcome)
    requires IsFailure(o1) && IsFailure(o2)
    requires Call(r, cmdArgs, timeout, o1) == Call(r, cmdArgs, timeout, o2)
    ensures SameFailure(o1, o2)
  {
    ReportMarkers(r, cmdArgs, timeout, o1);
    ReportMarkers(r, cmdArgs, timeout, o2);
    match o1
    case TimedOut =>
    case Raised(msg1) =>
      RaisedReportInjective(r, cmdArgs, timeout, msg1, o2.message);
    case Exited(rc1, out1, err1) =>
      ExitedReportInjective(r, cmdArgs, timeout, rc1, out1, err1, o2.returnCode, o2.stdout, o2.stderr);
  }

  /** An exception report determines the exception text. */
  lemma RaisedReportInjective(r: VolatilityRunner, cmdArgs: seq<string>, timeout: Option<int>, msg1: string, msg2: string)
    requires Call(r, cmdArgs, timeout, Raised(msg1)) == Call(r, cmdArgs, timeout, Raised(msg2))
    ensures msg1 == msg2
  {
    CancelPrefix(ExceptionPrefix + CommandLine(r, cmdArgs) + ": ", msg1, msg2);
  }

  /** A non-zero exit report determines the exit code and standard error. */
  lemma ExitedReportInjective(r: VolatilityRunner, cmdArgs: seq<string>, timeout: Option<int>,
                              rc1: int, out1: string, err1: string, rc2: int, out2: string, err2: string)
    requires rc1 != 0 && rc2 != 0
    requires Call(r, cmdArgs, timeout, Exited(rc1, out1, err1)) == Call(r, cmdArgs, timeout, Exited(rc2, out2, err2))
    ensures rc1 == rc2 && err1 == err2
  {
    var b1, b2 := Str(rc1) + ": " + err1, Str(rc2) + ": " + err2;
    Reassociate(FailurePrefix, Str(rc1), ": ", err1);
    Reassociate(FailurePrefix, Str(rc2), ": ", err2);
    CancelPrefix(FailurePrefix, b1, b2);
    ExitReportInjective(rc1, err1, rc2, err2);
  }

  /** A four-part concatenation read as a prefix and the rest. */
  lemma Reassociate(a: string, b: string, c: string, d: string)
    ensures a + b + c + d == a + (b + c + d)
  {
    assert a + b + c == a + (b + c);
    assert (a + (b + c)) + d == a + ((b + c) + d);
  }

  /** The three configured paths `_validate_paths` checks, in its dict order. */
  function PathChecks(r: VolatilityRunner): seq<(string, string)> {
    [("Volatility Python", r.python), ("Volatility Script", r.script), ("Volatility Directory", r.dir)]
  }

  /** The `FileNotFoundError` for a configured path that does not exist. */
  function MissingPath(name: string, path: string): PyError {
    FileNotFoundError(name + " path does not exist: " + path)
  }

  /** `_validate_paths`: check each configured path in order and fail with
      `FileNotFoundError` naming the first that does not exist.
      `existing` is the set of paths for which `Path(p).exists()` holds. */
  method ValidatePaths(r: VolatilityRunner, existing: set<string>) returns (err: Option<PyError>)
    ensures err.None? <==> (forall k :: 0 <= k < |PathChecks(r)| ==> PathChecks(r)[k].1 in existing)
    ensures err.Some? ==> exists k :: 0 <= k < |PathChecks(r)|
                                     && PathChecks(r)[k].1 !in existing
                                     && (forall j :: 0 <= j < k ==> PathChecks(r)[j].1 in existing)
                                     && err.value == MissingPath(PathChecks(r)[k].0, PathChecks(r)[k].1)
  {
    var checks := PathChecks(r);
    var i := 0;
    while i < |checks|
      invariant 0 <= i <= |checks|
      invariant forall j :: 0 <= j < i ==> checks[j].1 in existing
    {
      var (name, path) := checks[i];
      if path !in existing {
        return Some(MissingPath(name, path));
      }
      i := i + 1;
    }
    return None;
  }

  /** `VolatilityRunner(...)`: store the configuration, then validate it;
      construction fails exactly when one of the three paths is missing. */
  method NewRunner(python: string, script: string, dir: string, timeout: int, existing: set<string>)
    returns (r: Result<VolatilityRunner, PyError>)
    ensures r.Ok? <==> python in existing && script in existing && dir in existing
    ensures r.Ok? ==> r.value == VolatilityRunner(python, script, dir, timeout)
    ensures python !in existing
            ==> r == Err(MissingPath("Volatility Python", python))
    ensures python in existing && script !in existing
            ==> r == Err(MissingPath("Volatility Script", script))
    ensures python in existing && script in existing && dir !in existing
            ==> r == Err(MissingPath("Volatility Directory", dir))
  {
    var candidate := VolatilityRunner(python, script, dir, timeout);
    var err := ValidatePaths(candidate, existing);
    if err.Some? {
      var k :| 0 <= k < 3 && PathChecks(candidate)[k].1 !in existing
               && (forall j :: 0 <= j < k ==> PathChecks(candidate)[j].1 in existing)
               && err.value == MissingPath(PathChecks(candidate)[k].0, PathChecks(candidate)[k].1);
      assert PathChecks(candidate)[0].1 == python && PathChecks(candidate)[1].1 == script && PathChecks(candidate)[2].1 == dir;
      if python !in existing {
        assert k == 0;
      } else if script !in existing {
        assert k == 1;
      } else {
        assert k == 2;
      }
      return Err(err.value);
    }
    assert PathChecks(candidate)[0].1 == python && PathChecks(candidate)[1].1 == script && PathChecks(candidate)[2].1 == dir;
    return Ok(candidate);
  }
}
