/** `BasePlugin` (plugins/base_plugin.py) and the shape every concrete
    plugin's `run` shares.

    Each plugin class in the source is a near-identical `run` method: validate
    the dump path, return the validation error unchanged if there is one,
    otherwise build `["-f", path, selector, ...flags]` and await the runner.
    Here a class is a record (`PluginClass`) whose `Form` says which `run`
    signature it has and which selector token it passes; `Plan` is the part
    of `run` that happens before the runner is awaited and `Run` is the whole
    method. The file system is an input: `resolve` stands for
    `Path(p).resolve()` and `regularFiles` for the paths on which
    `Path(p).is_file()` holds. */
module BasePlugin {
  import opened Builtins
  import opened Runner

  /** What `Path.resolve()` returns: an absolute path. */
  type AbsolutePath = p: string | |p| > 0 && p[0] == '/' witness "/"

  datatype FileSystem = FileSystem(resolve: string -> AbsolutePath, regularFiles: set<string>)

  const NotFoundPrefix: string := "Error: Memory dump file not found at "

  /** The sentinel every `run` tests the validation result against. */
  const ErrorSentinel: string := "Error"

  /** `validate_memory_dump`: the resolved absolute path when it names a
      regular file, otherwise an error message quoting the resolved path. */
  function ValidateMemoryDump(fs: FileSystem, path: string): (r: string)
    ensures r == fs.resolve(path) <==> fs.resolve(path) in fs.regularFiles
    ensures r != fs.resolve(path) ==> r == NotFoundPrefix + fs.resolve(path)
  {
    var resolved := fs.resolve(path);
    if resolved in fs.regularFiles then resolved else NotFoundPrefix + resolved
  }

  /** Validation succeeds exactly for an existing regular file, and the
      `startswith("Error")` test every `run` applies recognises the failure
      exactly: a resolved path begins with '/', never with "Error". The error
      quotes the resolved path, not the caller's string. */
  lemma ValidationSentinelIsExact(fs: FileSystem, path: string)
    ensures var r := ValidateMemoryDump(fs, path);
            && (StartsWith(r, ErrorSentinel) <==> fs.resolve(path) !in fs.regularFiles)
            && (!StartsWith(r, ErrorSentinel) ==> r == fs.resolve(path))
            && (StartsWith(r, ErrorSentinel) ==> r == NotFoundPrefix + fs.resolve(path))
  {
    var resolved := fs.resolve(path);
    if resolved in fs.regularFiles {
      assert resolved[0] == '/';
      assert !StartsWith(resolved, ErrorSentinel) by {
        if |ErrorSentinel| <= |resolved| {
          assert resolved[..|ErrorSentinel|][0] == '/';
        }
      }
    } else {
      var r := NotFoundPrefix + resolved;
      assert r[..|ErrorSentinel|] == NotFoundPrefix[..|ErrorSentinel|];
      assert NotFoundPrefix[..|ErrorSentinel|] == ErrorSentinel;
    }
  }

  /** The Python package a plugin class is defined in. */
  datatype Package = Windows | Linux | Mac | Common

  /** The signatures of `run` found in the catalogue, each with the selector
      token it hands to Volatility. */
  datatype Form =
    | PathOnly(selector: string)     // run(self, memory_dump_path)
    | WithKwArgs(selector: string)   // run(self, memory_dump_path, kw_args=None); kw_args is never read
    | OptionalPid(selector: string)  // run(self, memory_dump_path, pid=None); "--pid" only when given
    | RequiredPid(selector: string)  // run(self, memory_dump_path, pid)
    | RequiredKey(selector: string)  // run(self, memory_dump_path, key)
    | Help                           // run(self, memory_dump_path, plugin_name); the caller names the selector

  /** A plugin class: where it is defined, its name, its docstring and its `run`. */
  datatype PluginClass = PluginClass(package: Package, name: string, doc: Option<string>, form: Form)

  /** A plugin instance: `BasePlugin.__init__` stores the runner and nothing else. */
  datatype Plugin = Plugin(cls: PluginClass, runner: VolatilityRunner)

  /** The argument a caller passes to `run` after the path, if any. */
  datatype Extra =
    | Pid(pid: int)
    | Key(key: string)
    | PluginName(name: string)
    | KwArgs(kw: map<string, string>)

  /** The argument kinds each signature takes after the path, per its type hints. */
  predicate Accepts(form: Form, extra: Extra) {
    match form
    case PathOnly(_) => false
    case WithKwArgs(_) => extra.KwArgs?
    case OptionalPid(_) => extra.Pid?
    case RequiredPid(_) => extra.Pid?
    case RequiredKey(_) => extra.Key?
    case Help => extra.PluginName?
  }

  /** The name of the required parameter after the path, for the signatures
      that have one. */
  function RequiredParameter(form: Form): Option<string> {
    match form
    case RequiredPid(_) => Some("pid")
    case RequiredKey(_) => Some("key")
    case Help => Some("plugin_name")
    case _ => None
  }

  /** The `TypeError` Python raises, before the body runs, when a required
      positional argument is not supplied (Python 3.10 wording). */
  function MissingArgumentError(cls: PluginClass, parameter: string): PyError {
    TypeError(cls.name + ".run() missing 1 required positional argument: '" + parameter + "'")
  }

  /** The argument vector handed to the runner once `p` has been validated. */
  function ArgVector(form: Form, p: string, extra: Option<Extra>): (argv: seq<string>)
    requires extra.Some? ==> Accepts(form, extra.value)
    requires RequiredParameter(form).Some? ==> extra.Some?
    ensures 3 <= |argv| <= 5 && argv[0] == "-f" && argv[1] == p
    ensures argv[2] == if form.Help? then extra.value.name else form.selector
  {
    match form
    case PathOnly(s) => ["-f", p, s]
    case WithKwArgs(s) => ["-f", p, s]
    case OptionalPid(s) => ["-f", p, s] + (if extra.Some? then ["--pid", Str(extra.value.pid)] else [])
    case RequiredPid(s) => ["-f", p, s, "--pid", Str(extra.value.pid)]
    case RequiredKey(s) => ["-f", p, s, "--key", extra.value.key]
    case Help => ["-f", p, extra.value.name, "--help"]
  }

  /** What `run` does before awaiting the runner. */
  datatype Step =
    | Reply(text: string)         // returns without calling the runner
    | Spawn(argv: seq<string>)    // awaits the runner on this vector
    | Raise(error: PyError)       // raises

  /** The body of every `run`, up to the runner call. A required argument
      that is missing raises before anything else happens; otherwise the
      path is validated, and only a valid path reaches the runner. */
  function Plan(cls: PluginClass, fs: FileSystem, path: string, extra: Option<Extra>): (step: Step)
    requires extra.Some? ==> Accepts(cls.form, extra.value)
    ensures step.Raise? <==> RequiredParameter(cls.form).Some? && extra.None?
    ensures step.Reply? ==> step.text == NotFoundPrefix + fs.resolve(path)
    ensures step.Raise? ==> step.error == MissingArgumentError(cls, RequiredParameter(cls.form).value)
    ensures step.Spawn? ==> fs.resolve(path) in fs.regularFiles && step.argv == ArgVector(cls.form, fs.resolve(path), extra)
    ensures !step.Raise? ==> (step.Spawn? <==> fs.resolve(path) in fs.regularFiles)
  {
    match RequiredParameter(cls.form)
    case Some(parameter) =>
      if extra.None? then Raise(MissingArgumentError(cls, parameter))
      else SpawnIfValid(cls, fs, path, extra)
    case None => SpawnIfValid(cls, fs, path, extra)
  }

  function SpawnIfValid(cls: PluginClass, fs: FileSystem, path: string, extra: Option<Extra>): (step: Step)
    requires extra.Some? ==> Accepts(cls.form, extra.value)
    requires RequiredParameter(cls.form).Some? ==> extra.Some?
    ensures !step.Raise?
    ensures step.Reply? ==> step.text == NotFoundPrefix + fs.resolve(path)
    ensures step.Spawn? <==> fs.resolve(path) in fs.regularFiles
    ensures step.Spawn? ==> step.argv == ArgVector(cls.form, fs.resolve(path), extra)
  {
    var p := ValidateMemoryDump(fs, path);
    ValidationSentinelIsExact(fs, path);
    if StartsWith(p, ErrorSentinel) then Reply(p) else Spawn(ArgVector(cls.form, p, extra))
  }

  /** `await plugin.run(path[, extra])`: a string, or the exception it raises. */
  function Run(plugin: Plugin, fs: FileSystem, outcome: ProcessOutcome, path: string, extra: Option<Extra>): (r: Result<string, PyError>)
    requires extra.Some? ==> Accepts(plugin.cls.form, extra.value)
    ensures r.Err? <==> RequiredParameter(plugin.cls.form).Some? && extra.None?
    ensures r.Err? ==> r.error == MissingArgumentError(plugin.cls, RequiredParameter(plugin.cls.form).value)
    ensures r.Ok? ==> r.value == if fs.resolve(path) in fs.regularFiles
                                 then Call(plugin.runner, ArgVector(plugin.cls.form, fs.resolve(path), extra), None, outcome)
                                 else NotFoundPrefix + fs.resolve(path)
  {
    match Plan(plugin.cls, fs, path, extra)
    case Reply(text) => Ok(text)
    case Spawn(argv) => Ok(Call(plugin.runner, argv, None, outcome))
    case Raise(e) => Err(e)
  }

  /** A validation failure never reaches the runner: the error text is
      returned whatever the process would have done. */
  lemma ValidationErrorSkipsRunner(plugin: Plugin, fs: FileSystem, path: string, extra: Option<Extra>,
                                   o1: ProcessOutcome, o2: ProcessOutcome)
    requires extra.Some? ==> Accepts(plugin.cls.form, extra.value)
    requires RequiredParameter(plugin.cls.form).Some? ==> extra.Some?
    requires fs.resolve(path) !in fs.regularFiles
    ensures Run(plugin, fs, o1, path, extra) == Run(plugin, fs, o2, path, extra)
                                            == Ok(NotFoundPrefix + fs.resolve(path))
  {
  }

  /** With a valid path, `run` returns the runner's text verbatim, called on
      the planned vector with no per-call timeout. */
  lemma RunnerOutputIsReturned(plugin: Plugin, fs: FileSystem, path: string, extra: Option<Extra>, outcome: ProcessOutcome)
    requires extra.Some? ==> Accepts(plugin.cls.form, extra.value)
    requires RequiredParameter(plugin.cls.form).Some? ==> extra.Some?
    requires fs.resolve(path) in fs.regularFiles
    ensures Plan(plugin.cls, fs, path, extra) == Spawn(ArgVector(plugin.cls.form, fs.resolve(path), extra))
    ensures Run(plugin, fs, outcome, path, extra)
            == Ok(Call(plugin.runner, ArgVector(plugin.cls.form, fs.resolve(path), extra), None, outcome))
  {
  }

  /** The selector token of a form, or for `Help` the caller's plugin name. */
  function Token(form: Form, extra: Option<Extra>): string
    requires extra.Some? ==> Accepts(form, extra.value)
    requires RequiredParameter(form).Some? ==> extra.Some?
  {
    if form.Help? then extra.value.name else form.selector
  }

  /** The flags after the selector token: "--pid" with the decimal pid,
      "--key" with the key verbatim, or a trailing "--help". */
  function Flags(form: Form, extra: Option<Extra>): seq<string>
    requires extra.Some? ==> Accepts(form, extra.value)
    requires RequiredParameter(form).Some? ==> extra.Some?
  {
    match form
    case OptionalPid(_) => if extra.Some? then ["--pid", Str(extra.value.pid)] else []
    case RequiredPid(_) => ["--pid", Str(extra.value.pid)]
    case RequiredKey(_) => ["--key", extra.value.key]
    case Help => ["--help"]
    case _ => []
  }

  /** Every argument vector is `-f`, the validated path, one token, then the
      form's flags; path-only and keyword forms have exactly three elements. */
  lemma ArgVectorShape(form: Form, p: string, extra: Option<Extra>)
    requires extra.Some? ==> Accepts(form, extra.value)
    requires RequiredParameter(form).Some? ==> extra.Some?
    ensures ArgVector(form, p, extra) == ["-f", p, Token(form, extra)] + Flags(form, extra)
    ensures form.PathOnly? || form.WithKwArgs? || (form.OptionalPid? && extra.None?) ==> |ArgVector(form, p, extra)| == 3
    ensures form.RequiredPid? || (form.OptionalPid? && extra.Some?) ==> |ArgVector(form, p, extra)| == 5
  {
  }

  /** `kw_args` is never consulted: the vector is the same for any keyword
      dictionary and for none. */
  lemma KwArgsIgnored(selector: string, p: string, kw: map<string, string>)
    ensures ArgVector(WithKwArgs(selector), p, Some(KwArgs(kw))) == ArgVector(WithKwArgs(selector), p, None)
  {
  }

  /** The vector determines the request: for one form, equal vectors come
      from the same validated path and the same pid, key or plugin name. */
  lemma {:induction false} ArgVectorDeterminesRequest(form: Form, p1: string, e1: Option<Extra>, p2: string, e2: Option<Extra>)
    requires e1.Some? ==> Accepts(form, e1.value)
    requires e2.Some? ==> Accepts(form, e2.value)
    requires RequiredParameter(form).Some? ==> e1.Some? && e2.Some?
    requires !form.WithKwArgs?
    requires ArgVector(form, p1, e1) == ArgVector(form, p2, e2)
    ensures p1 == p2 && e1 == e2
  {
    var v := ArgVector(form, p1, e1);
    assert p1 == v[1] == p2;
    match form
    case PathOnly(_) =>
    case OptionalPid(_) =>
      assert e1.Some? <==> |v| == 5;
      assert e2.Some? <==> |v| == 5;
      if e1.Some? {
        assert Str(e1.value.pid) == v[4] == Str(e2.value.pid);
        StrInjective(e1.value.pid, e2.value.pid);
      }
    case RequiredPid(_) =>
      assert Str(e1.value.pid) == v[4] == Str(e2.value.pid);
      StrInjective(e1.value.pid, e2.value.pid);
    case RequiredKey(_) =>
      assert e1.value.key == v[4] == e2.value.key;
    case Help =>
      assert e1.value.name == v[2] == e2.value.name;
  }
}
