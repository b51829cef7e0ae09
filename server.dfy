/** volatility_mcp_server.py: the module-level start-up (one runner, then
    the four bulk registrations), and the tools the server exposes that are
    modelled here: `run_plugin`, `list_memory_dumps` and the checks of
    `download_symbols`.

    Everything the tools ask of the operating system is an input: the file
    system of a plugin run, the outcome of the spawned process, the result
    of `os.walk`, the formatted file sizes and the download itself. */
module Server {
  import opened Builtins
  import opened Runner
  import opened BasePlugin
  import opened Registry
  import WindowsPlugins
  import MacPlugins
  import CommonPlugins
  import LinuxPlugins

  // ---------------------------------------------------------------------
  // Start-up

  /** The registrations start-up performs, in order, on a table; an
      exception ends the sequence (and with it the import of the module). */
  function RegisterAll(t: PluginTable, families: seq<Family>): (r: Result<PluginTable, PyError>)
    requires Valid(t)
    ensures r.Ok? ==> Valid(r.value)
    ensures r.Ok? <==> forall i :: 0 <= i < |families| ==> Resolves(families[i])
    decreases |families|
  {
    if families == [] then Ok(t)
    else
      match RegisterAll(t, families[..|families| - 1])
      case Err(e) => Err(e)
      case Ok(t1) =>
        var (t2, e) := RegisterFamily(t1, families[|families| - 1]);
        if e.Some? then Err(e.value) else Ok(t2)
  }

  /** No key one family registers is a key another registers. */
  predicate Apart(f: Family, g: Family) {
    forall i, j :: 0 <= i < |f.exports| && 0 <= j < |g.exports| ==> f.prefix + f.exports[i] != g.prefix + g.exports[j]
  }

  /** Some family of the list registers `k`. */
  predicate WrittenBy(families: seq<Family>, k: string) {
    exists i :: 0 <= i < |families| && Writes(families[i], families[i].exports, k)
  }

  /** When every family resolves and no two share a key, the registrations
      all succeed, every family's names land intact (no later family
      overwrites an earlier one), and every other key keeps its entry. */
  lemma {:induction false} RegisterAllLands(t: PluginTable, families: seq<Family>)
    requires Valid(t)
    requires forall i :: 0 <= i < |families| ==> Resolves(families[i])
    requires forall i, j :: 0 <= i < j < |families| ==> Apart(families[i], families[j])
    ensures RegisterAll(t, families).Ok?
    ensures forall i :: 0 <= i < |families| ==> Lands(RegisterAll(t, families).value, families[i])
    ensures forall k :: !WrittenBy(families, k) ==>
              ((k in RegisterAll(t, families).value.plugins <==> k in t.plugins)
               && (k in t.plugins ==> RegisterAll(t, families).value.plugins[k] == t.plugins[k]))
    decreases |families|
  {
    if families != [] {
      var init := families[..|families| - 1];
      var last := families[|families| - 1];
      RegisterAllLands(t, init);
      var t1 := RegisterAll(t, init).value;
      RegisterNamesResolved(t1, last, last.exports);
      var r := RegisterAll(t, families).value;
      assert r == RegisterNames(t1, last, last.exports).0;
      forall i | 0 <= i < |families| - 1 ensures Lands(r, families[i]) {
        assert families[i] == init[i];
        LandsKept(t1, r, families[i], last);
      }
      assert Lands(r, last);
      forall k | !WrittenBy(families, k)
        ensures (k in r.plugins <==> k in t.plugins) && (k in t.plugins ==> r.plugins[k] == t.plugins[k])
      {
        assert !WrittenBy(init, k);
        assert !Writes(last, last.exports, k);
      }
    }
  }

  /** A family that landed before a registration it is apart from is
      still intact after it. */
  lemma LandsKept(t1: PluginTable, r: PluginTable, f: Family, last: Family)
    requires Lands(t1, f) && Apart(f, last)
    requires forall k :: !Writes(last, last.exports, k) ==>
               ((k in r.plugins <==> k in t1.plugins) && (k in t1.plugins ==> r.plugins[k] == t1.plugins[k]))
    ensures Lands(r, f)
  {
    forall j | 0 <= j < |f.exports|
      ensures f.prefix + f.exports[j] in r.plugins && r.plugins[f.prefix + f.exports[j]] == f.namespace[f.exports[j]]
    {
      assert !Writes(last, last.exports, f.prefix + f.exports[j]);
    }
  }

  /** Families whose prefixes differ in their first character never share
      a key. */
  lemma PrefixesApart(f: Family, g: Family)
    requires |f.prefix| > 0 && |g.prefix| > 0 && f.prefix[0] != g.prefix[0]
    ensures Apart(f, g)
  {
    forall i, j | 0 <= i < |f.exports| && 0 <= j < |g.exports|
      ensures f.prefix + f.exports[i] != g.prefix + g.exports[j]
    {
      assert (f.prefix + f.exports[i])[0] == f.prefix[0];
      assert (g.prefix + g.exports[j])[0] == g.prefix[0];
    }
  }

  /** A family whose prefix ends in '.' never shares a key with an
      unprefixed family whose names contain no '.'. */
  lemma DottedApartFromUndotted(f: Family, g: Family)
    requires |f.prefix| > 0 && f.prefix[|f.prefix| - 1] == '.'
    requires g.prefix == ""
    requires forall j :: 0 <= j < |g.exports| ==> '.' !in g.exports[j]
    ensures Apart(f, g)
  {
    forall i, j | 0 <= i < |f.exports| && 0 <= j < |g.exports|
      ensures f.prefix + f.exports[i] != g.prefix + g.exports[j]
    {
      var q := |f.prefix| - 1;
      assert (f.prefix + f.exports[i])[q] == '.';
      assert g.prefix + g.exports[j] == g.exports[j];
    }
  }

  /** The families in the order the module registers them (lines 149-152). */
  function StartupFamilies(linuxExports: seq<string>, linuxNamespace: map<string, PluginClass>): seq<Family> {
    [WindowsFamily, LinuxFamily(linuxExports, linuxNamespace), MacFamily, CommonFamily]
  }

  /** The registry as the module's import leaves it, or the exception that
      aborts the import. */
  function StartupTable(linuxExports: seq<string>, linuxNamespace: map<string, PluginClass>): (r: Result<PluginTable, PyError>)
    ensures r.Ok? <==> Resolves(LinuxFamily(linuxExports, linuxNamespace))
  {
    FamiliesResolve();
    FourResolve(WindowsFamily, LinuxFamily(linuxExports, linuxNamespace), MacFamily, CommonFamily);
    RegisterAll(Empty, StartupFamilies(linuxExports, linuxNamespace))
  }

  /** Four families all resolve exactly when each does. */
  lemma FourResolve(w: Family, l: Family, m: Family, c: Family)
    ensures (forall i :: 0 <= i < |[w, l, m, c]| ==> Resolves([w, l, m, c][i]))
            <==> Resolves(w) && Resolves(l) && Resolves(m) && Resolves(c)
  {
    var fs := [w, l, m, c];
    assert fs[0] == w && fs[1] == l && fs[2] == m && fs[3] == c;
  }

  /** The four families' keys are pairwise distinct: the prefixes begin
      with 'w', 'l' and 'm', and no common name has a '.'. */
  lemma StartupFamiliesApart(linuxExports: seq<string>, linuxNamespace: map<string, PluginClass>)
    ensures var l := LinuxFamily(linuxExports, linuxNamespace);
            && Apart(WindowsFamily, l) && Apart(WindowsFamily, MacFamily) && Apart(WindowsFamily, CommonFamily)
            && Apart(l, MacFamily) && Apart(l, CommonFamily) && Apart(MacFamily, CommonFamily)
  {
    var l := LinuxFamily(linuxExports, linuxNamespace);
    PrefixesApart(WindowsFamily, l);
    PrefixesApart(WindowsFamily, MacFamily);
    PrefixesApart(l, MacFamily);
    CommonPlugins.ExportsAreUndotted();
    DottedApartFromUndotted(WindowsFamily, CommonFamily);
    DottedApartFromUndotted(l, CommonFamily);
    DottedApartFromUndotted(MacFamily, CommonFamily);
  }

  /** Four resolving, pairwise apart families registered from empty: all
      land, and every key comes from one of them. */
  lemma RegisterFourLand(w: Family, l: Family, m: Family, c: Family)
    requires Resolves(w) && Resolves(l) && Resolves(m) && Resolves(c)
    requires Apart(w, l) && Apart(w, m) && Apart(w, c) && Apart(l, m) && Apart(l, c) && Apart(m, c)
    ensures RegisterAll(Empty, [w, l, m, c]).Ok?
    ensures var t := RegisterAll(Empty, [w, l, m, c]).value;
            && Lands(t, w) && Lands(t, l) && Lands(t, m) && Lands(t, c)
            && forall k :: k in t.plugins ==> WrittenBy([w, l, m, c], k)
  {
    var fs := [w, l, m, c];
    RegisterAllLands(Empty, fs);
    assert Lands(RegisterAll(Empty, fs).value, fs[0]);
    assert Lands(RegisterAll(Empty, fs).value, fs[1]);
    assert Lands(RegisterAll(Empty, fs).value, fs[2]);
    assert Lands(RegisterAll(Empty, fs).value, fs[3]);
  }

  /** When the linux export list resolves, start-up succeeds and the
      registry holds every windows, linux and mac name under its prefix and
      every common name bare, each bound to its package's class; nothing
      else is registered. */
  lemma StartupCatalogue(linuxExports: seq<string>, linuxNamespace: map<string, PluginClass>)
    requires Resolves(LinuxFamily(linuxExports, linuxNamespace))
    ensures StartupTable(linuxExports, linuxNamespace).Ok?
    ensures var t := StartupTable(linuxExports, linuxNamespace).value;
            && Lands(t, WindowsFamily) && Lands(t, LinuxFamily(linuxExports, linuxNamespace))
            && Lands(t, MacFamily) && Lands(t, CommonFamily)
            && forall k :: k in t.plugins ==> WrittenBy(StartupFamilies(linuxExports, linuxNamespace), k)
  {
    FamiliesResolve();
    StartupFamiliesApart(linuxExports, linuxNamespace);
    RegisterFourLand(WindowsFamily, LinuxFamily(linuxExports, linuxNamespace), MacFamily, CommonFamily);
  }

  /** A key listed among a family's prefixed names is one it writes. */
  lemma PrefixedWritten(f: Family, k: string)
    requires k in Prefixed(f.prefix, f.exports)
    ensures Writes(f, f.exports, k)
  {
    var i :| 0 <= i < |Prefixed(f.prefix, f.exports)| && Prefixed(f.prefix, f.exports)[i] == k;
  }

  /** A resolving family with distinct exports, registered on a table whose
      keys all come from families it is apart from, succeeds and appends
      its prefixed names in export order. */
  lemma AppendFamily(t: PluginTable, f: Family, before: seq<Family>)
    requires Valid(t) && Resolves(f) && NoDuplicates(f.exports)
    requires forall i :: 0 <= i < |before| ==> Apart(before[i], f)
    requires forall k :: k in t.order ==> WrittenBy(before, k)
    ensures RegisterFamily(t, f).1.None?
    ensures RegisterFamily(t, f).0.order == t.order + Prefixed(f.prefix, f.exports)
    ensures forall k :: k in RegisterFamily(t, f).0.order ==> WrittenBy(before + [f], k)
  {
    forall j | 0 <= j < |f.exports| ensures f.prefix + f.exports[j] !in t.plugins {
      if f.prefix + f.exports[j] in t.plugins {
        assert false;
      }
    }
    RegisterNamesAppends(t, f, f.exports);
    var all := before + [f];
    forall k | k in RegisterFamily(t, f).0.order ensures WrittenBy(all, k) {
      if k in t.order {
        var i :| 0 <= i < |before| && Writes(before[i], before[i].exports, k);
        assert all[i] == before[i];
      } else {
        PrefixedWritten(f, k);
        assert all[|before|] == f;
      }
    }
  }

  /** Four resolving, pairwise apart families with distinct export lists,
      registered from empty: the order holds each family's keys in export
      order, family after family. */
  lemma RegisterFourOrder(w: Family, l: Family, m: Family, c: Family)
    requires Resolves(w) && Resolves(l) && Resolves(m) && Resolves(c)
    requires Apart(w, l) && Apart(w, m) && Apart(w, c) && Apart(l, m) && Apart(l, c) && Apart(m, c)
    requires NoDuplicates(w.exports) && NoDuplicates(l.exports) && NoDuplicates(m.exports) && NoDuplicates(c.exports)
    ensures RegisterAll(Empty, [w, l, m, c]).Ok?
    ensures RegisterAll(Empty, [w, l, m, c]).value.order
            == Prefixed(w.prefix, w.exports) + Prefixed(l.prefix, l.exports)
               + Prefixed(m.prefix, m.exports) + Prefixed(c.prefix, c.exports)
  {
    RegisterFourSteps(w, l, m, c);
    AppendFamily(Empty, w, []);
    assert [] + [w] == [w];
    var t1 := RegisterFamily(Empty, w).0;
    AppendFamily(t1, l, [w]);
    assert [w] + [l] == [w, l];
    var t2 := RegisterFamily(t1, l).0;
    ApartFromAll([w, l], m);
    AppendFamily(t2, m, [w, l]);
    assert [w, l] + [m] == [w, l, m];
    var t3 := RegisterFamily(t2, m).0;
    ApartFromAll([w, l, m], c);
    AppendFamily(t3, c, [w, l, m]);
    assert RegisterAll(Empty, [w, l, m, c]) == Ok(RegisterFamily(t3, c).0);
    var pw, pl := Prefixed(w.prefix, w.exports), Prefixed(l.prefix, l.exports);
    assert t1.order == pw by {
      assert Empty.order + pw == pw;
    }
    assert t3.order == pw + pl + Prefixed(m.prefix, m.exports);
  }

  /** A family apart from each member of a short list is apart from every
      element of it. */
  lemma ApartFromAll(before: seq<Family>, f: Family)
    requires |before| <= 3
    requires |before| > 0 ==> Apart(before[0], f)
    requires |before| > 1 ==> Apart(before[1], f)
    requires |before| > 2 ==> Apart(before[2], f)
    ensures forall i :: 0 <= i < |before| ==> Apart(before[i], f)
  {
  }

  /** After start-up the registry's order, which is the order
      `list_plugins` reports, is the windows names, then the linux names,
      then the mac names, each under its prefix and in its `__all__` order,
      and last the bare common names. */
  lemma StartupOrder(linuxExports: seq<string>, linuxNamespace: map<string, PluginClass>)
    requires Resolves(LinuxFamily(linuxExports, linuxNamespace)) && NoDuplicates(linuxExports)
    ensures StartupTable(linuxExports, linuxNamespace).Ok?
    ensures StartupTable(linuxExports, linuxNamespace).value.order
            == Prefixed("windows.", WindowsPlugins.All) + Prefixed("linux.", linuxExports)
               + Prefixed("mac.", MacPlugins.All) + CommonPlugins.All
  {
    FamiliesResolve();
    StartupFamiliesApart(linuxExports, linuxNamespace);
    WindowsPlugins.ExportList();
    MacPlugins.ExportList();
    CommonPlugins.ExportList();
    RegisterFourOrder(WindowsFamily, LinuxFamily(linuxExports, linuxNamespace), MacFamily, CommonFamily);
    PrefixedEmpty(CommonPlugins.All);
  }

  /** One more family registered after a prefix of the list. */
  lemma RegisterAllStep(t: PluginTable, families: seq<Family>, k: nat)
    requires Valid(t) && k < |families|
    ensures RegisterAll(t, families[..k + 1])
            == match RegisterAll(t, families[..k])
               case Err(e) => Err(e)
               case Ok(t1) =>
                 var (t2, e) := RegisterFamily(t1, families[k]);
                 if e.Some? then Err(e.value) else Ok(t2)
  {
    assert families[..k + 1][..k] == families[..k];
  }

  /** Four registrations from empty, one after the other, stopping at the
      first exception. */
  lemma {:induction false} RegisterFourSteps(w: Family, l: Family, m: Family, c: Family)
    ensures RegisterAll(Empty, [w, l, m, c])
            == var (t1, e1) := RegisterFamily(Empty, w);
               if e1.Some? then Err(e1.value) else
               var (t2, e2) := RegisterFamily(t1, l);
               if e2.Some? then Err(e2.value) else
               var (t3, e3) := RegisterFamily(t2, m);
               if e3.Some? then Err(e3.value) else
               var (t4, e4) := RegisterFamily(t3, c);
               if e4.Some? then Err(e4.value) else Ok(t4)
  {
    var r1, r2, r3 := RegisterAll(Empty, [w]), RegisterAll(Empty, [w, l]), RegisterAll(Empty, [w, l, m]);
    assert r1 == Then(Ok(Empty), w) by {
      RegisterAllThen(Empty, [], w);
      assert [] + [w] == [w];
    }
    assert r2 == Then(r1, l) by {
      RegisterAllThen(Empty, [w], l);
      assert [w] + [l] == [w, l];
    }
    assert r3 == Then(r2, m) by {
      RegisterAllThen(Empty, [w, l], m);
      assert [w, l] + [m] == [w, l, m];
    }
    assert RegisterAll(Empty, [w, l, m, c]) == Then(r3, c) by {
      RegisterAllThen(Empty, [w, l, m], c);
      assert [w, l, m] + [c] == [w, l, m, c];
    }
    ThenFour(w, l, m, c);
  }

  /** Four `Then` steps from the empty table, written out. */
  lemma ThenFour(w: Family, l: Family, m: Family, c: Family)
    ensures Then(Then(Then(Then(Ok(Empty), w), l), m), c)
            == var (t1, e1) := RegisterFamily(Empty, w);
               if e1.Some? then Err(e1.value) else
               var (t2, e2) := RegisterFamily(t1, l);
               if e2.Some? then Err(e2.value) else
               var (t3, e3) := RegisterFamily(t2, m);
               if e3.Some? then Err(e3.value) else
               var (t4, e4) := RegisterFamily(t3, c);
               if e4.Some? then Err(e4.value) else Ok(t4)
  {
  }

  /** What registering one more family does to the result so far. */
  function Then(r: Result<PluginTable, PyError>, f: Family): Result<PluginTable, PyError>
    requires r.Ok? ==> Valid(r.value)
  {
    match r
    case Err(e) => Err(e)
    case Ok(t1) =>
      var (t2, e) := RegisterFamily(t1, f);
      if e.Some? then Err(e.value) else Ok(t2)
  }

  /** Registering a list and then one more family. */
  lemma RegisterAllThen(t: PluginTable, families: seq<Family>, f: Family)
    requires Valid(t)
    ensures RegisterAll(t, families + [f]) == Then(RegisterAll(t, families), f)
  {
    assert (families + [f])[..|families|] == families;
  }

  /** When the windows family resolves and the linux one does not, the
      registrations end with the `AttributeError` for the first missing
      linux name. */
  lemma RegisterFourFailsAt(w: Family, l: Family, m: Family, c: Family, k: nat)
    requires Resolves(w)
    requires k < |l.exports| && l.exports[k] !in l.namespace
    requires forall j :: 0 <= j < k ==> l.exports[j] in l.namespace
    ensures RegisterAll(Empty, [w, l, m, c]) == Err(MissingAttribute(l, l.exports[k]))
  {
    RegisterFourSteps(w, l, m, c);
    RegisterNamesResolved(Empty, w, w.exports);
    RegisterNamesStopsAtMissing(RegisterFamily(Empty, w).0, l, l.exports, k);
  }

  /** The text of `getattr`'s error on the linux package. */
  lemma LinuxMissingAttribute(linuxExports: seq<string>, linuxNamespace: map<string, PluginClass>, n: string)
    ensures MissingAttribute(LinuxFamily(linuxExports, linuxNamespace), n)
            == AttributeError("module 'plugins.linux' has no attribute '" + n + "'")
  {
    var m := "plugins.linux";
    assert "module '" + m + "' has no attribute '" == "module 'plugins.linux' has no attribute '";
  }

  /** When a linux export is missing from the package, the import of the
      server module fails with the `AttributeError` for the first such
      name. */
  lemma StartupFailsOnMissingLinuxName(linuxExports: seq<string>, linuxNamespace: map<string, PluginClass>, k: nat)
    requires k < |linuxExports| && linuxExports[k] !in linuxNamespace
    requires forall j :: 0 <= j < k ==> linuxExports[j] in linuxNamespace
    ensures StartupTable(linuxExports, linuxNamespace)
            == Err(AttributeError("module 'plugins.linux' has no attribute '" + linuxExports[k] + "'"))
  {
    FamiliesResolve();
    RegisterFourFailsAt(WindowsFamily, LinuxFamily(linuxExports, linuxNamespace), MacFamily, CommonFamily, k);
    LinuxMissingAttribute(linuxExports, linuxNamespace, linuxExports[k]);
  }

  /** The module's import: build the runner (60-second timeout), then the
      windows, linux, mac and common registrations, in that order. A missing
      configured path or a missing linux export aborts it with the
      exception. `existing` is the set of paths that exist. */
  method Startup(python: string, script: string, dir: string, existing: set<string>,
                 linuxExports: seq<string>, linuxNamespace: map<string, PluginClass>)
    returns (r: Result<VolatilityRunner, PyError>, factory: PluginFactory)
    ensures fresh(factory)
    ensures r.Ok? ==> r.value == VolatilityRunner(python, script, dir, DefaultTimeout)
    ensures python in existing && script in existing && dir in existing
            ==> (r.Ok? <==> StartupTable(linuxExports, linuxNamespace).Ok?)
                && (r.Ok? ==> StartupTable(linuxExports, linuxNamespace) == Ok(factory.Table()))
                && (r.Err? ==> StartupTable(linuxExports, linuxNamespace) == Err(r.error))
    ensures python !in existing
            ==> r == Err(MissingPath("Volatility Python", python))
    ensures python in existing && script !in existing
            ==> r == Err(MissingPath("Volatility Script", script))
    ensures python in existing && script in existing && dir !in existing
            ==> r == Err(MissingPath("Volatility Directory", dir))
  {
    factory := new PluginFactory();
    r := NewRunner(python, script, dir, DefaultTimeout, existing);
    if r.Err? {
      return;
    }
    RegisterFourSteps(WindowsFamily, LinuxFamily(linuxExports, linuxNamespace), MacFamily, CommonFamily);
    factory.RegisterWindowsPlugins(r.value);
    var err := factory.RegisterLinuxPlugins(r.value, linuxExports, linuxNamespace);
    if err.Some? {
      r := Err(err.value);
      return;
    }
    factory.RegisterMacPlugins(r.value);
    factory.RegisterCommonPlugins(r.value);
  }

  /** The module runner's timeout, as `run` never passes one of its own:
      a command that hangs is reported after 60 seconds. */
  lemma ModuleRunnerTimesOut(r: VolatilityRunner, cmdArgs: seq<string>)
    requires r.timeout == DefaultTimeout
    ensures Call(r, cmdArgs, None, TimedOut) == "Command timed out after 60 seconds: " + CommandLine(r, cmdArgs)
  {
    assert NatToString(6) == "6";
    assert Str(60) == "60";
  }

  // ---------------------------------------------------------------------
  // run_plugin

  const DispatchErrorPrefix: string := "Error running plugin: "

  /** `run_plugin(memory_dump_path, plugin_name)`: look the name up, build
      the plugin with the module runner and await `run` with the path alone.
      A `ValueError` becomes its message, any other exception is reported
      after `DispatchErrorPrefix`; a string always comes back. */
  function RunPlugin(t: PluginTable, runner: VolatilityRunner, fs: FileSystem, outcome: ProcessOutcome,
                     path: string, name: string): (out: string)
    ensures name !in t.plugins ==> out == NotFoundMessage(name)
    ensures name in t.plugins && RequiredParameter(t.plugins[name].form).Some?
            ==> out == DispatchErrorPrefix + MissingArgumentError(t.plugins[name], RequiredParameter(t.plugins[name].form).value).message
    ensures name in t.plugins && RequiredParameter(t.plugins[name].form).None?
            ==> out == if fs.resolve(path) in fs.regularFiles
                       then Call(runner, ArgVector(t.plugins[name].form, fs.resolve(path), None), None, outcome)
                       else NotFoundPrefix + fs.resolve(path)
  {
    match Lookup(t, name)
    case Err(e) => if e.ValueError? then e.message else DispatchErrorPrefix + e.message
    case Ok(cls) =>
      match Run(Plugin(cls, runner), fs, outcome, path, None)
      case Ok(text) => text
      case Err(e) => if e.ValueError? then e.message else DispatchErrorPrefix + e.message
  }

  /** For a plugin whose `run` needs no argument beyond the path, a dump
      that does not exist is reported the same way whatever the process
      would have done: the runner is never reached. */
  lemma DispatchValidatesFirst(t: PluginTable, runner: VolatilityRunner, fs: FileSystem, o1: ProcessOutcome,
                               o2: ProcessOutcome, path: string, name: string)
    requires name in t.plugins && RequiredParameter(t.plugins[name].form).None?
    requires fs.resolve(path) !in fs.regularFiles
    ensures RunPlugin(t, runner, fs, o1, path, name) == RunPlugin(t, runner, fs, o2, path, name)
    ensures StartsWith(RunPlugin(t, runner, fs, o1, path, name), ErrorSentinel)
  {
    ValidationSentinelIsExact(fs, path);
  }

  /** A name an export list holds is registered under the family's prefix. */
  lemma LandsAt(t: PluginTable, f: Family, n: string)
    requires Lands(t, f) && n in f.exports
    ensures n in f.namespace && f.prefix + n in t.plugins && t.plugins[f.prefix + n] == f.namespace[n]
  {
    var j :| 0 <= j < |f.exports| && f.exports[j] == n;
  }

  /** Where the windows registration puts the two classes whose `run`
      needs an argument beyond the path. */
  lemma WindowsArgumentPluginsAt(t: PluginTable)
    requires Lands(t, WindowsFamily)
    ensures "windows.MemMap" in t.plugins && t.plugins["windows.MemMap"] == WindowsPlugins.MemMap
    ensures "windows.RegistryPrintKey" in t.plugins && t.plugins["windows.RegistryPrintKey"] == WindowsPlugins.RegistryPrintKey
  {
    WindowsPlugins.ArgumentPluginsExported();
    var f := WindowsFamily;
    assert "MemMap" in f.exports && "RegistryPrintKey" in f.exports;
    LandsAt(t, f, "MemMap");
    LandsAt(t, f, "RegistryPrintKey");
    assert f.prefix == "windows.";
    WindowsArgumentPluginKeys();
  }

  lemma WindowsArgumentPluginKeys()
    ensures "windows." + "MemMap" == "windows.MemMap"
    ensures "windows." + "RegistryPrintKey" == "windows.RegistryPrintKey"
  {
  }

  /** The windows family lands whole at start-up. */
  lemma StartupWindows(linuxExports: seq<string>, linuxNamespace: map<string, PluginClass>)
    requires Resolves(LinuxFamily(linuxExports, linuxNamespace))
    ensures StartupTable(linuxExports, linuxNamespace).Ok?
    ensures Lands(StartupTable(linuxExports, linuxNamespace).value, WindowsFamily)
  {
    StartupCatalogue(linuxExports, linuxNamespace);
  }

  /** `run_plugin` only ever passes the path, so after start-up MemMap and
      RegistryPrintKey are registered yet can never run: whatever the dump
      and the process, the reply is the `TypeError` for the missing
      argument. */
  lemma ArgumentPluginsNeverRun(linuxExports: seq<string>, linuxNamespace: map<string, PluginClass>,
                                runner: VolatilityRunner, fs: FileSystem, outcome: ProcessOutcome, path: string)
    requires Resolves(LinuxFamily(linuxExports, linuxNamespace))
    ensures StartupTable(linuxExports, linuxNamespace).Ok?
    ensures var t := StartupTable(linuxExports, linuxNamespace).value;
            && RunPlugin(t, runner, fs, outcome, path, "windows.MemMap")
               == DispatchErrorPrefix + MissingArgumentError(WindowsPlugins.MemMap, "pid").message
            && RunPlugin(t, runner, fs, outcome, path, "windows.RegistryPrintKey")
               == DispatchErrorPrefix + MissingArgumentError(WindowsPlugins.RegistryPrintKey, "key").message
  {
    StartupWindows(linuxExports, linuxNamespace);
    WindowsArgumentPluginsFail(StartupTable(linuxExports, linuxNamespace).value, runner, fs, outcome, path);
  }

  /** The same for any table the windows family has landed in. */
  lemma WindowsArgumentPluginsFail(t: PluginTable, runner: VolatilityRunner, fs: FileSystem, outcome: ProcessOutcome, path: string)
    requires Lands(t, WindowsFamily)
    ensures RunPlugin(t, runner, fs, outcome, path, "windows.MemMap")
            == DispatchErrorPrefix + MissingArgumentError(WindowsPlugins.MemMap, "pid").message
    ensures RunPlugin(t, runner, fs, outcome, path, "windows.RegistryPrintKey")
            == DispatchErrorPrefix + MissingArgumentError(WindowsPlugins.RegistryPrintKey, "key").message
  {
    WindowsArgumentPluginsAt(t);
    RequiredArgumentFails(t, runner, fs, outcome, path, "windows.MemMap", "pid");
    RequiredArgumentFails(t, runner, fs, outcome, path, "windows.RegistryPrintKey", "key");
  }

  /** A registered plugin whose `run` requires an argument never gets past
      the call. */
  lemma RequiredArgumentFails(t: PluginTable, runner: VolatilityRunner, fs: FileSystem, outcome: ProcessOutcome,
                              path: string, name: string, p: string)
    requires name in t.plugins && RequiredParameter(t.plugins[name].form) == Some(p)
    ensures RunPlugin(t, runner, fs, outcome, path, name) == DispatchErrorPrefix + MissingArgumentError(t.plugins[name], p).message
  {
  }

  /** A key with no '.' can only have come from the unprefixed family. */
  lemma UndottedKeyIsUnprefixed(w: Family, l: Family, m: Family, c: Family, k: string)
    requires |w.prefix| > 0 && w.prefix[|w.prefix| - 1] == '.'
    requires |l.prefix| > 0 && l.prefix[|l.prefix| - 1] == '.'
    requires |m.prefix| > 0 && m.prefix[|m.prefix| - 1] == '.'
    requires c.prefix == ""
    requires '.' !in k && WrittenBy([w, l, m, c], k)
    ensures k in c.exports
  {
    var fs := [w, l, m, c];
    var i :| 0 <= i < 4 && Writes(fs[i], fs[i].exports, k);
    var j :| 0 <= j < |fs[i].exports| && k == fs[i].prefix + fs[i].exports[j];
    if i < 3 {
      assert false;
    } else {
      assert k == c.exports[j];
    }
  }

  /** With three dotted prefixes and one empty one, a name without a '.' is
      registered exactly when the unprefixed family exports it. */
  lemma UndottedNamesAreUnprefixed(t: PluginTable, w: Family, l: Family, m: Family, c: Family, name: string)
    requires |w.prefix| > 0 && w.prefix[|w.prefix| - 1] == '.'
    requires |l.prefix| > 0 && l.prefix[|l.prefix| - 1] == '.'
    requires |m.prefix| > 0 && m.prefix[|m.prefix| - 1] == '.'
    requires c.prefix == "" && Lands(t, c)
    requires forall k :: k in t.plugins ==> WrittenBy([w, l, m, c], k)
    requires '.' !in name
    ensures name in t.plugins <==> name in c.exports
  {
    if name in t.plugins {
      UndottedKeyIsUnprefixed(w, l, m, c, name);
    }
    if name in c.exports {
      LandsAt(t, c, name);
      assert c.prefix + name == name;
    }
  }

  /** After start-up a name without a '.' is registered exactly when it is
      in the common package's export list: the unexported common process
      plugins and PluginHelp are unknown names. */
  lemma StartupUndottedNames(linuxExports: seq<string>, linuxNamespace: map<string, PluginClass>, name: string)
    requires Resolves(LinuxFamily(linuxExports, linuxNamespace))
    requires '.' !in name
    ensures StartupTable(linuxExports, linuxNamespace).Ok?
    ensures name in StartupTable(linuxExports, linuxNamespace).value.plugins <==> name in CommonPlugins.All
  {
    StartupCatalogue(linuxExports, linuxNamespace);
    UndottedNamesAreUnprefixed(StartupTable(linuxExports, linuxNamespace).value,
                               WindowsFamily, LinuxFamily(linuxExports, linuxNamespace), MacFamily, CommonFamily, name);
  }

  /** `run_plugin("PluginHelp", ...)` and `run_plugin("PsList", ...)` answer
      that the plugin is not found. */
  lemma StartupUnexportedNamesUnknown(linuxExports: seq<string>, linuxNamespace: map<string, PluginClass>,
                                      runner: VolatilityRunner, fs: FileSystem, outcome: ProcessOutcome, path: string)
    requires Resolves(LinuxFamily(linuxExports, linuxNamespace))
    ensures StartupTable(linuxExports, linuxNamespace).Ok?
    ensures var t := StartupTable(linuxExports, linuxNamespace).value;
            && RunPlugin(t, runner, fs, outcome, path, "PluginHelp") == NotFoundMessage("PluginHelp")
            && RunPlugin(t, runner, fs, outcome, path, "PsList") == NotFoundMessage("PsList")
  {
    CommonPlugins.ExportList();
    UndottedLiterals();
    StartupUnknownName(linuxExports, linuxNamespace, runner, fs, outcome, path, "PluginHelp");
    StartupUnknownName(linuxExports, linuxNamespace, runner, fs, outcome, path, "PsList");
  }

  lemma UndottedLiterals()
    ensures '.' !in "PluginHelp" && '.' !in "PsList"
  {
  }

  /** An undotted name the common package does not export is unknown to
      `run_plugin` after start-up. */
  lemma StartupUnknownName(linuxExports: seq<string>, linuxNamespace: map<string, PluginClass>,
                           runner: VolatilityRunner, fs: FileSystem, outcome: ProcessOutcome, path: string, name: string)
    requires Resolves(LinuxFamily(linuxExports, linuxNamespace))
    requires '.' !in name && name !in CommonPlugins.All
    ensures StartupTable(linuxExports, linuxNamespace).Ok?
    ensures RunPlugin(StartupTable(linuxExports, linuxNamespace).value, runner, fs, outcome, path, name) == NotFoundMessage(name)
  {
    StartupUndottedNames(linuxExports, linuxNamespace, name);
  }

  /** The linux family lands whole at start-up. */
  lemma StartupLinux(linuxExports: seq<string>, linuxNamespace: map<string, PluginClass>)
    requires Resolves(LinuxFamily(linuxExports, linuxNamespace))
    ensures StartupTable(linuxExports, linuxNamespace).Ok?
    ensures Lands(StartupTable(linuxExports, linuxNamespace).value, LinuxFamily(linuxExports, linuxNamespace))
  {
    StartupCatalogue(linuxExports, linuxNamespace);
  }

  /** In a table the linux family has landed in (as it does at start-up,
      `StartupLinux`), when the linux package exports classes of
      plugins/linux/process_plugins.py, `run_plugin("linux.<name>")`
      validates the dump and, for an existing file, runs `-f`, the resolved
      path and the class's "linux." selector, and nothing more. */
  lemma LinuxDispatch(t: PluginTable, l: Family, n: string,
                      runner: VolatilityRunner, fs: FileSystem, outcome: ProcessOutcome, path: string)
    requires Lands(t, l) && l.prefix == "linux." && n in l.exports
    requires forall x :: x in l.namespace ==> l.namespace[x] in LinuxPlugins.Classes
    ensures "linux." + n in t.plugins
            && t.plugins["linux." + n].form.PathOnly?
            && StartsWith(t.plugins["linux." + n].form.selector, "linux.")
            && RunPlugin(t, runner, fs, outcome, path, "linux." + n)
               == if fs.resolve(path) in fs.regularFiles
                  then Call(runner, ["-f", fs.resolve(path), t.plugins["linux." + n].form.selector], None, outcome)
                  else NotFoundPrefix + fs.resolve(path)
  {
    LandsAt(t, l, n);
    LinuxPlugins.ClassIsPrefixed(t.plugins["linux." + n]);
    PathOnlyDispatch(t, runner, fs, outcome, path, "linux." + n);
  }

  /** A registered path-only plugin runs exactly `-f`, the resolved path and
      its selector once the dump is found. */
  lemma PathOnlyDispatch(t: PluginTable, runner: VolatilityRunner, fs: FileSystem, outcome: ProcessOutcome,
                         path: string, name: string)
    requires name in t.plugins && t.plugins[name].form.PathOnly?
    ensures RunPlugin(t, runner, fs, outcome, path, name)
            == if fs.resolve(path) in fs.regularFiles
               then Call(runner, ["-f", fs.resolve(path), t.plugins[name].form.selector], None, outcome)
               else NotFoundPrefix + fs.resolve(path)
  {
  }
}
