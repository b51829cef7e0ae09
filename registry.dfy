/** `PluginFactory` (plugins/plugin_factory.py): the class-level dictionary
    from registered names to plugin classes, and the four bulk
    registrations that fill it from the packages' export lists.

    A Python dict remembers insertion order, and overwriting a key keeps its
    place; the table is therefore a map together with the order of its keys.
    `PluginTable` and the functions on it are the specification; the class
    `PluginFactory` holds the same two pieces of state in fields and its
    methods are proved against those functions. */
module Registry {
  import opened Builtins
  import opened Runner
  import opened BasePlugin
  import WindowsPlugins
  import MacPlugins
  import CommonPlugins

  datatype PluginTable = PluginTable(plugins: map<string, PluginClass>, order: seq<string>)

  /** The keys in `order` are the keys of the map, each once. */
  predicate Valid(t: PluginTable) {
    && NoDuplicates(t.order)
    && (forall k :: k in t.plugins ==> k in t.order)
    && (forall i :: 0 <= i < |t.order| ==> t.order[i] in t.plugins)
  }

  const Empty: PluginTable := PluginTable(map[], [])

  /** `register_plugin`: insert, or silently overwrite an existing name; a
      new name goes to the end of the order, an existing one keeps its place. */
  function Register(t: PluginTable, name: string, cls: PluginClass): (r: PluginTable)
    requires Valid(t)
    ensures Valid(r)
    ensures r.plugins == t.plugins[name := cls]
    ensures |t.order| <= |r.order| && r.order[..|t.order|] == t.order
  {
    if name in t.plugins then PluginTable(t.plugins[name := cls], t.order)
    else PluginTable(t.plugins[name := cls], t.order + [name])
  }

  /** The `ValueError` text `get_plugin` raises for an unknown name. */
  function NotFoundMessage(name: string): string {
    "Plugin '" + name + "' not found"
  }

  /** `get_plugin`'s lookup: the registered class, or the `ValueError`. */
  function Lookup(t: PluginTable, name: string): (r: Result<PluginClass, PyError>)
    ensures r.Ok? <==> name in t.plugins
    ensures r.Ok? ==> r.value == t.plugins[name]
    ensures r.Err? ==> r.error == ValueError(NotFoundMessage(name))
  {
    if name !in t.plugins then Err(ValueError(NotFoundMessage(name))) else Ok(t.plugins[name])
  }

  /** After `register_plugin(n, c)` the name `n` yields `c`, every other
      name yields what it did before, and no entry moves in the order. */
  lemma {:induction false} RegisterThenLookup(t: PluginTable, n: string, c: PluginClass, k: string)
    requires Valid(t)
    ensures Lookup(Register(t, n, c), n) == Ok(c)
    ensures k != n ==> Lookup(Register(t, n, c), k) == Lookup(t, k)
    ensures n in t.plugins ==> Register(t, n, c).order == t.order
  {
  }

  const NoDescription: string := "No description available"

  /** The description `list_plugins` gives a class: its docstring, or the
      default when there is none (an empty docstring is falsy too). */
  function Description(cls: PluginClass): (d: string)
    ensures |d| > 0
    ensures d == NoDescription || (cls.doc.Some? && d == cls.doc.value)
  {
    if cls.doc.Some? && cls.doc.value != "" then cls.doc.value else NoDescription
  }

  /** `list_plugins`: one (name, description) pair per registered name, in
      registration order. */
  function Describe(t: PluginTable): (d: seq<(string, string)>)
    requires Valid(t)
    ensures |d| == |t.order|
    ensures forall i :: 0 <= i < |d| ==> d[i].0 == t.order[i] && d[i].1 == Description(t.plugins[t.order[i]])
  {
    seq(|t.order|, i requires 0 <= i < |t.order| => (t.order[i], Description(t.plugins[t.order[i]])))
  }

  /** The names listed are exactly the registered names, each once, and each
      comes with its class's docstring or the default. */
  lemma DescribeListsRegistry(t: PluginTable)
    requires Valid(t)
    ensures forall i, j :: 0 <= i < j < |Describe(t)| ==> Describe(t)[i].0 != Describe(t)[j].0
    ensures forall k :: k in t.plugins <==> exists i :: 0 <= i < |Describe(t)| && Describe(t)[i].0 == k
    ensures forall i :: 0 <= i < |Describe(t)| ==>
              Describe(t)[i].1 == (if t.plugins[Describe(t)[i].0].doc.Some? && t.plugins[Describe(t)[i].0].doc.value != ""
                                   then t.plugins[Describe(t)[i].0].doc.value else NoDescription)
  {
    var d := Describe(t);
    forall k | k in t.plugins ensures exists i :: 0 <= i < |d| && d[i].0 == k {
      var i :| 0 <= i < |t.order| && t.order[i] == k;
      assert d[i].0 == k;
    }
  }

  // ---------------------------------------------------------------------
  // Bulk registration

  /** A plugin package as the bulk registrations see it: its module name
      (for `getattr`'s error), the prefix its names get, its `__all__` and
      the attributes its `__init__` defines. */
  datatype Family = Family(moduleName: string, prefix: string, exports: seq<string>, namespace: map<string, PluginClass>)

  const WindowsFamily: Family := Family("plugins.windows", "windows.", WindowsPlugins.All, WindowsPlugins.Namespace)
  const MacFamily: Family := Family("plugins.mac", "mac.", MacPlugins.All, MacPlugins.Namespace)
  const CommonFamily: Family := Family("plugins.common", "", CommonPlugins.All, CommonPlugins.Namespace)

  /** The linux package's `__init__` is not part of this model: its export
      list and namespace are given. */
  function LinuxFamily(exports: seq<string>, namespace: map<string, PluginClass>): Family {
    Family("plugins.linux", "linux.", exports, namespace)
  }

  /** The `AttributeError` `getattr` raises for a name the package lacks. */
  function MissingAttribute(f: Family, name: string): PyError {
    AttributeError("module '" + f.moduleName + "' has no attribute '" + name + "'")
  }

  /** Every exported name is an attribute of the package. */
  predicate Resolves(f: Family) {
    forall i :: 0 <= i < |f.exports| ==> f.exports[i] in f.namespace
  }

  /** The windows, mac and common export lists name only attributes their
      packages define, so their registrations never raise. */
  lemma FamiliesResolve()
    ensures Resolves(WindowsFamily) && Resolves(MacFamily) && Resolves(CommonFamily)
  {
    WindowsPlugins.ExportsResolve();
    MacPlugins.ExportsResolve();
    CommonPlugins.ExportsResolve();
  }

  /** Every name of `f`'s export list is in `t` under `f`'s prefix, bound to
      the class the package defines under that name. */
  predicate Lands(t: PluginTable, f: Family) {
    forall j :: 0 <= j < |f.exports| ==>
      (f.exports[j] in f.namespace && f.prefix + f.exports[j] in t.plugins
       && t.plugins[f.prefix + f.exports[j]] == f.namespace[f.exports[j]])
  }

  /** The loop of a bulk registration over `names`: register each name under
      the prefix, stopping at the first name `getattr` cannot find; the
      entries registered before the failure stay. */
  function RegisterNames(t: PluginTable, f: Family, names: seq<string>): (r: (PluginTable, Option<PyError>))
    requires Valid(t)
    ensures Valid(r.0)
    ensures r.1.None? <==> forall i :: 0 <= i < |names| ==> names[i] in f.namespace
    ensures r.1.Some? ==> exists i :: 0 <= i < |names| && names[i] !in f.namespace && r.1.value == MissingAttribute(f, names[i])
    decreases |names|
  {
    if names == [] then (t, None)
    else
      var init := names[..|names| - 1];
      var (t1, e) := RegisterNames(t, f, init);
      var n := names[|names| - 1];
      assert forall i :: 0 <= i < |init| ==> init[i] == names[i];
      if e.Some? then (t1, e)
      else if n !in f.namespace then (t1, Some(MissingAttribute(f, n)))
      else (Register(t1, f.prefix + n, f.namespace[n]), None)
  }

  /** A whole bulk registration: the family's `__all__`, in order. */
  function RegisterFamily(t: PluginTable, f: Family): (r: (PluginTable, Option<PyError>))
    requires Valid(t)
    ensures Valid(r.0)
    ensures r.1.None? <==> Resolves(f)
  {
    RegisterNames(t, f, f.exports)
  }

  /** The keys a registration of `names` writes. */
  predicate Writes(f: Family, names: seq<string>, k: string) {
    exists i :: 0 <= i < |names| && k == f.prefix + names[i]
  }

  /** Registration only appends to the order: earlier entries keep their
      places. */
  lemma {:induction false} RegisterNamesKeepsOrder(t: PluginTable, f: Family, names: seq<string>)
    requires Valid(t)
    ensures var r := RegisterNames(t, f, names);
            |t.order| <= |r.0.order| && r.0.order[..|t.order|] == t.order
    decreases |names|
  {
    if names != [] {
      var init := names[..|names| - 1];
      RegisterNamesKeepsOrder(t, f, init);
      var t1 := RegisterNames(t, f, init).0;
      var r := RegisterNames(t, f, names).0;
      assert r.order[..|t1.order|] == t1.order;
      assert r.order[..|t.order|] == t1.order[..|t.order|];
    }
  }

  /** A key that a registration of `names` does not write is left alone,
      whether or not the registration fails part way. */
  lemma {:induction false} RegisterNamesFrame(t: PluginTable, f: Family, names: seq<string>, k: string)
    requires Valid(t)
    requires !Writes(f, names, k)
    ensures var r := RegisterNames(t, f, names);
            (k in r.0.plugins <==> k in t.plugins) && (k in t.plugins ==> r.0.plugins[k] == t.plugins[k])
    decreases |names|
  {
    if names != [] {
      var init := names[..|names| - 1];
      assert !Writes(f, init, k);
      assert k != f.prefix + names[|names| - 1];
      RegisterNamesFrame(t, f, init, k);
    }
  }

  /** When every name resolves, registration succeeds and each name `p`
      lands at `prefix + p` with the class `getattr` gives. */
  lemma {:induction false} RegisterNamesLands(t: PluginTable, f: Family, names: seq<string>)
    requires Valid(t)
    requires forall i :: 0 <= i < |names| ==> names[i] in f.namespace
    ensures var r := RegisterNames(t, f, names);
            && r.1.None?
            && (forall i :: 0 <= i < |names| ==>
                  (f.prefix + names[i] in r.0.plugins && r.0.plugins[f.prefix + names[i]] == f.namespace[names[i]]))
    decreases |names|
  {
    if names != [] {
      var init := names[..|names| - 1];
      var n := names[|names| - 1];
      RegisterNamesLands(t, f, init);
      var r := RegisterNames(t, f, names);
      forall i | 0 <= i < |names|
        ensures f.prefix + names[i] in r.0.plugins && r.0.plugins[f.prefix + names[i]] == f.namespace[names[i]]
      {
        if i < |names| - 1 {
          assert names[i] == init[i];
          if f.prefix + names[i] == f.prefix + n {
            CancelPrefix(f.prefix, names[i], n);
          }
        }
      }
    }
  }

  /** When every name resolves, registration succeeds, each name `p` lands at
      `prefix + p` with the class `getattr` gives, every other key is left
      as it was, and the earlier entries keep their places in the order. */
  lemma RegisterNamesResolved(t: PluginTable, f: Family, names: seq<string>)
    requires Valid(t)
    requires forall i :: 0 <= i < |names| ==> names[i] in f.namespace
    ensures var r := RegisterNames(t, f, names);
            && r.1.None?
            && (forall i :: 0 <= i < |names| ==>
                  (f.prefix + names[i] in r.0.plugins && r.0.plugins[f.prefix + names[i]] == f.namespace[names[i]]))
            && (forall k :: !Writes(f, names, k) ==>
                  ((k in r.0.plugins <==> k in t.plugins) && (k in t.plugins ==> r.0.plugins[k] == t.plugins[k])))
            && |t.order| <= |r.0.order| && r.0.order[..|t.order|] == t.order
  {
    RegisterNamesLands(t, f, names);
    RegisterNamesKeepsOrder(t, f, names);
    forall k | !Writes(f, names, k)
      ensures var r := RegisterNames(t, f, names);
              (k in r.0.plugins <==> k in t.plugins) && (k in t.plugins ==> r.0.plugins[k] == t.plugins[k])
    {
      RegisterNamesFrame(t, f, names, k);
    }
  }

  /** The keys a registration of `names` writes, in list order. */
  function Prefixed(prefix: string, names: seq<string>): (keys: seq<string>)
    ensures |keys| == |names| && forall i :: 0 <= i < |names| ==> keys[i] == prefix + names[i]
  {
    seq(|names|, i requires 0 <= i < |names| => prefix + names[i])
  }

  /** The empty prefix leaves the names as they are. */
  lemma PrefixedEmpty(names: seq<string>)
    ensures Prefixed("", names) == names
  {
    forall i | 0 <= i < |names| ensures Prefixed("", names)[i] == names[i] {
      assert "" + names[i] == names[i];
    }
  }

  /** Registering distinct, resolving names that are not registered yet
      appends their prefixed keys to the order, in the order of the list,
      after everything registered before. */
  lemma {:induction false} RegisterNamesAppends(t: PluginTable, f: Family, names: seq<string>)
    requires Valid(t)
    requires forall i :: 0 <= i < |names| ==> names[i] in f.namespace
    requires NoDuplicates(names)
    requires forall i :: 0 <= i < |names| ==> f.prefix + names[i] !in t.plugins
    ensures RegisterNames(t, f, names).0.order == t.order + Prefixed(f.prefix, names)
    decreases |names|
  {
    if names != [] {
      var init := names[..|names| - 1];
      assert forall i :: 0 <= i < |init| ==> init[i] == names[i];
      RegisterNamesAppends(t, f, init);
      LastNotWrittenBefore(f, names);
      RegisterNamesFrame(t, f, init, f.prefix + names[|names| - 1]);
      AppendLast(t, f, names);
    }
  }

  /** With distinct names, the last name's key is not written by the names
      before it. */
  lemma LastNotWrittenBefore(f: Family, names: seq<string>)
    requires names != [] && NoDuplicates(names)
    ensures !Writes(f, names[..|names| - 1], f.prefix + names[|names| - 1])
  {
    var init, n := names[..|names| - 1], names[|names| - 1];
    if Writes(f, init, f.prefix + n) {
      var i :| 0 <= i < |init| && f.prefix + n == f.prefix + init[i];
      assert init[i] == names[i] && i < |names| - 1;
      CancelPrefix(f.prefix, n, init[i]);
      assert false;
    }
  }

  /** The induction step of `RegisterNamesAppends`: a resolving last name
      whose key is new is appended after the keys of the names before it. */
  lemma AppendLast(t: PluginTable, f: Family, names: seq<string>)
    requires Valid(t) && names != []
    requires var r := RegisterNames(t, f, names[..|names| - 1]);
             r.1.None? && r.0.order == t.order + Prefixed(f.prefix, names[..|names| - 1])
             && f.prefix + names[|names| - 1] !in r.0.plugins
    requires names[|names| - 1] in f.namespace
    ensures RegisterNames(t, f, names).0.order == t.order + Prefixed(f.prefix, names)
  {
    var key, keys := f.prefix + names[|names| - 1], Prefixed(f.prefix, names[..|names| - 1]);
    PrefixedSnoc(f.prefix, names);
    assert (t.order + keys) + [key] == t.order + (keys + [key]);
  }

  /** The keys of a list are the keys of all but its last name, then the
      key of the last. */
  lemma PrefixedSnoc(prefix: string, names: seq<string>)
    requires names != []
    ensures Prefixed(prefix, names) == Prefixed(prefix, names[..|names| - 1]) + [prefix + names[|names| - 1]]
  {
    var init := Prefixed(prefix, names[..|names| - 1]);
    forall i | 0 <= i < |names| ensures Prefixed(prefix, names)[i] == (init + [prefix + names[|names| - 1]])[i] {
      if i < |names| - 1 {
        assert names[..|names| - 1][i] == names[i];
      }
    }
  }

  /** One more name registered after a successful prefix of the list. */
  lemma RegisterNamesStep(t: PluginTable, f: Family, names: seq<string>, i: nat)
    requires Valid(t) && i < |names|
    requires RegisterNames(t, f, names[..i]).1.None?
    ensures var t1 := RegisterNames(t, f, names[..i]).0;
            RegisterNames(t, f, names[..i + 1])
              == if names[i] in f.namespace then (Register(t1, f.prefix + names[i], f.namespace[names[i]]), None)
                 else (t1, Some(MissingAttribute(f, names[i])))
  {
    assert names[..i + 1][..i] == names[..i];
  }

  /** Once a registration has failed, the names after the failing one are
      never looked at. */
  lemma {:induction false} RegisterNamesErrorPersists(t: PluginTable, f: Family, names: seq<string>, m: nat)
    requires Valid(t) && m <= |names|
    requires RegisterNames(t, f, names[..m]).1.Some?
    ensures RegisterNames(t, f, names) == RegisterNames(t, f, names[..m])
    decreases |names|
  {
    if m < |names| {
      var init := names[..|names| - 1];
      assert init[..m] == names[..m];
      RegisterNamesErrorPersists(t, f, init, m);
    } else {
      assert names[..m] == names;
    }
  }

  /** Registration stops at the first name `getattr` cannot find: it raises
      `AttributeError` for that name, and the table holds exactly what the
      names before it registered. */
  lemma {:induction false} RegisterNamesStopsAtMissing(t: PluginTable, f: Family, names: seq<string>, m: nat)
    requires Valid(t)
    requires m < |names| && names[m] !in f.namespace
    requires forall j :: 0 <= j < m ==> names[j] in f.namespace
    ensures RegisterNames(t, f, names) == (RegisterNames(t, f, names[..m]).0, Some(MissingAttribute(f, names[m])))
    decreases |names|
  {
    var init := names[..|names| - 1];
    if m == |names| - 1 {
      assert init == names[..m];
      RegisterNamesResolved(t, f, init);
    } else {
      assert init[..m] == names[..m];
      RegisterNamesStopsAtMissing(t, f, init, m);
    }
  }

  /** Registering a name with the class it already has changes nothing. */
  lemma RegisterExisting(t: PluginTable, name: string, cls: PluginClass)
    requires Valid(t) && name in t.plugins && t.plugins[name] == cls
    ensures Register(t, name, cls) == t
  {
    assert t.plugins[name := cls] == t.plugins;
  }

  /** Re-running a bulk registration leaves the table unchanged: every name
      is overwritten with the class it already has. */
  lemma {:induction false} RegisterNamesIdempotent(t: PluginTable, f: Family, names: seq<string>)
    requires Valid(t)
    requires forall i :: 0 <= i < |names| ==> names[i] in f.namespace
    ensures var r := RegisterNames(t, f, names);
            RegisterNames(r.0, f, names) == r
  {
    var r := RegisterNames(t, f, names);
    RegisterNamesResolved(t, f, names);
    ReRegisterPrefix(r.0, f, names, |names|);
    assert names[..|names|] == names;
  }

  lemma {:induction false} ReRegisterPrefix(u: PluginTable, f: Family, names: seq<string>, m: nat)
    requires Valid(u) && m <= |names|
    requires forall i :: 0 <= i < |names| ==>
               (names[i] in f.namespace && f.prefix + names[i] in u.plugins
                && u.plugins[f.prefix + names[i]] == f.namespace[names[i]])
    ensures RegisterNames(u, f, names[..m]) == (u, None)
    decreases m
  {
    if m > 0 {
      var pre := names[..m];
      assert pre[..|pre| - 1] == names[..m - 1];
      ReRegisterPrefix(u, f, names, m - 1);
      RegisterExisting(u, f.prefix + names[m - 1], f.namespace[names[m - 1]]);
    }
  }

  // ---------------------------------------------------------------------
  // The registry object

  /** `PluginFactory`: `plugins` and `order` are the class-level `_plugins`
      dict and its key order. */
  class PluginFactory {
    var plugins: map<string, PluginClass>
    var order: seq<string>

    function Table(): PluginTable
      reads this
    {
      PluginTable(plugins, order)
    }

    /** The dict starts empty. */
    constructor ()
      ensures Table() == Empty
    {
      plugins := map[];
      order := [];
    }

    /** `register_plugin`. */
    method RegisterPlugin(name: string, cls: PluginClass)
      requires Valid(Table())
      modifies this
      ensures Table() == Register(old(Table()), name, cls)
    {
      if name !in plugins {
        order := order + [name];
      }
      plugins := plugins[name := cls];
    }

    /** `get_plugin`: an instance of exactly the registered class, holding
        the given runner, or the `ValueError` for an unknown name. The
        table is only read. */
    method GetPlugin(name: string, runner: VolatilityRunner) returns (r: Result<Plugin, PyError>)
      ensures r.Ok? <==> name in plugins
      ensures r.Ok? ==> r.value == Plugin(plugins[name], runner)
      ensures r.Err? ==> r.error == ValueError(NotFoundMessage(name))
    {
      if name !in plugins {
        return Err(ValueError("Plugin '" + name + "' not found"));
      }
      return Ok(Plugin(plugins[name], runner));
    }

    /** `list_plugins`. */
    function ListPlugins(): (d: seq<(string, string)>)
      reads this
      requires Valid(Table())
      ensures d == Describe(Table())
    {
      var o, p := order, plugins;
      seq(|o|, i requires 0 <= i < |o| => (o[i], Description(p[o[i]])))
    }

    /** The loop shared by the four `register_*_plugins` methods. */
    method RegisterExports(f: Family) returns (err: Option<PyError>)
      requires Valid(Table())
      modifies this
      ensures Valid(Table())
      ensures (Table(), err) == RegisterFamily(old(Table()), f)
    {
      ghost var t0 := Table();
      var i := 0;
      while i < |f.exports|
        invariant 0 <= i <= |f.exports|
        invariant Valid(Table())
        invariant RegisterNames(t0, f, f.exports[..i]) == (Table(), None)
      {
        var name := f.exports[i];
        RegisterNamesStep(t0, f, f.exports, i);
        if name !in f.namespace {
          err := Some(MissingAttribute(f, name));
          RegisterNamesErrorPersists(t0, f, f.exports, i + 1);
          return;
        }
        RegisterPlugin(f.prefix + name, f.namespace[name]);
        i := i + 1;
      }
      assert f.exports[..i] == f.exports;
      err := None;
    }

    /** `register_windows_plugins`; the runner argument is not used. */
    method RegisterWindowsPlugins(runner: VolatilityRunner)
      requires Valid(Table())
      modifies this
      ensures Valid(Table())
      ensures RegisterFamily(old(Table()), WindowsFamily) == (Table(), None)
    {
      FamiliesResolve();
      RegisterNamesResolved(Table(), WindowsFamily, WindowsFamily.exports);
      var _ := RegisterExports(WindowsFamily);
    }

    /** `register_linux_plugins`; the runner argument is not used. */
    method RegisterLinuxPlugins(runner: VolatilityRunner, exports: seq<string>, namespace: map<string, PluginClass>)
      returns (err: Option<PyError>)
      requires Valid(Table())
      modifies this
      ensures Valid(Table())
      ensures (Table(), err) == RegisterFamily(old(Table()), LinuxFamily(exports, namespace))
    {
      err := RegisterExports(LinuxFamily(exports, namespace));
    }

    /** `register_mac_plugins`; the runner argument is not used. */
    method RegisterMacPlugins(runner: VolatilityRunner)
      requires Valid(Table())
      modifies this
      ensures Valid(Table())
      ensures RegisterFamily(old(Table()), MacFamily) == (Table(), None)
    {
      FamiliesResolve();
      RegisterNamesResolved(Table(), MacFamily, MacFamily.exports);
      var _ := RegisterExports(MacFamily);
    }

    /** `register_common_plugins`; the runner argument is not used. */
    method RegisterCommonPlugins(runner: VolatilityRunner)
      requires Valid(Table())
      modifies this
      ensures Valid(Table())
      ensures RegisterFamily(old(Table()), CommonFamily) == (Table(), None)
    {
      FamiliesResolve();
      RegisterNamesResolved(Table(), CommonFamily, CommonFamily.exports);
      var _ := RegisterExports(CommonFamily);
    }
  }
}
