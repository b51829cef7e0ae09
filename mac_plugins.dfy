/** The mac plugin package (plugins/mac/): 23 plugin classes, all with the
    `run(path, kw_args=None)` signature, the namespace `__init__` imports
    and the `__all__` export list. */
module MacPlugins {
  import opened Builtins
  import opened BasePlugin

  // plugins/mac/process_plugins.py
  const PsList: PluginClass := PluginClass(Mac, "PsList", Some("Lists the processes present in a particular mac memory image"), WithKwArgs("mac.pslist.PsList"))
  const PsTree: PluginClass := PluginClass(Mac, "PsTree", Some("Plugin for listing processes in a tree based on their parent process ID"), WithKwArgs("mac.pstree.PsTree"))
  const Bash: PluginClass := PluginClass(Mac, "Bash", Some("Recovers bash command history from memory"), WithKwArgs("mac.bash.Bash"))
  const Check_syscall: PluginClass := PluginClass(Mac, "Check_syscall", Some("Check system call table for hooks"), WithKwArgs("mac.check_syscall.Check_syscall"))
  const Check_sysctl: PluginClass := PluginClass(Mac, "Check_sysctl", Some("Check sysctl handlers for hooks"), WithKwArgs("mac.check_sysctl.Check_sysctl"))
  const Check_trap_table: PluginClass := PluginClass(Mac, "Check_trap_table", Some("Check mach trap table for hooks"), WithKwArgs("mac.check_trap_table.Check_trap_table"))
  const Dmesg: PluginClass := PluginClass(Mac, "Dmesg", Some("Prints the kernel log buffer"), WithKwArgs("mac.dmesg.Dmesg"))
  const Ifconfig: PluginClass := PluginClass(Mac, "Ifconfig", Some("Lists network interface information for all devices"), WithKwArgs("mac.ifconfig.Ifconfig"))
  const Kauth_listeners: PluginClass := PluginClass(Mac, "Kauth_listeners", Some("Lists kauth listeners and their status"), WithKwArgs("mac.kauth_listeners.Kauth_listeners"))
  const Kauth_scopes: PluginClass := PluginClass(Mac, "Kauth_scopes", Some("Lists kauth scopes and their status"), WithKwArgs("mac.kauth_scopes.Kauth_scopes"))
  const Kevents: PluginClass := PluginClass(Mac, "Kevents", Some("Lists event handlers registered by processes"), WithKwArgs("mac.kevents.Kevents"))
  const List_Files: PluginClass := PluginClass(Mac, "List_Files", Some("Lists all open file descriptors for all processes"), WithKwArgs("mac.list_files.List_Files"))
  const Lsmod: PluginClass := PluginClass(Mac, "Lsmod", Some("Lists loaded kernel modules"), WithKwArgs("mac.lsmod.Lsmod"))
  const Lsof: PluginClass := PluginClass(Mac, "Lsof", Some("Lists all open file descriptors for all processes"), WithKwArgs("mac.lsof.Lsof"))
  const Malfind: PluginClass := PluginClass(Mac, "Malfind", Some("Lists process memory ranges that potentially contain injected code"), WithKwArgs("mac.malfind.Malfind"))
  const Mount: PluginClass := PluginClass(Mac, "Mount", Some("A module containing a collection of plugins that produce data typically found in Mac's mount command"), WithKwArgs("mac.mount.Mount"))
  const Netstat: PluginClass := PluginClass(Mac, "Netstat", Some("Lists all network connections for all processes"), WithKwArgs("mac.netstat.Netstat"))
  const Maps: PluginClass := PluginClass(Mac, "Maps", Some("Lists process memory ranges that potentially contain injected code"), WithKwArgs("mac.proc_maps.Maps"))
  const Psaux: PluginClass := PluginClass(Mac, "Psaux", Some("Recovers program command line arguments"), WithKwArgs("mac.psaux.Psaux"))
  const Socket_filters: PluginClass := PluginClass(Mac, "Socket_filters", Some("Enumerates kernel socket filters"), WithKwArgs("mac.socket_filters.Socket_filters"))
  const Timers: PluginClass := PluginClass(Mac, "Timers", Some("Check for malicious kernel timers"), WithKwArgs("mac.timers.Timers"))
  const Trustedbsd: PluginClass := PluginClass(Mac, "Trustedbsd", Some("Checks for malicious trustedbsd modules"), WithKwArgs("mac.trustedbsd.Trustedbsd"))
  const VFSevents: PluginClass := PluginClass(Mac, "VFSevents", Some("Lists processes that are filtering file system events"), WithKwArgs("mac.vfsevents.VFSevents"))

  /** The plugin classes `plugins/mac/__init__.py` imports, as `getattr` sees
      them; the submodules and module attributes it also binds are not
      plugin classes and are left out. */
  const Namespace: map<string, PluginClass> := map[
    "PsList" := PsList,
    "PsTree" := PsTree,
    "Bash" := Bash,
    "Check_syscall" := Check_syscall,
    "Check_sysctl" := Check_sysctl,
    "Check_trap_table" := Check_trap_table,
    "Dmesg" := Dmesg,
    "Ifconfig" := Ifconfig,
    "Kauth_listeners" := Kauth_listeners,
    "Kauth_scopes" := Kauth_scopes,
    "Kevents" := Kevents,
    "List_Files" := List_Files,
    "Lsmod" := Lsmod,
    "Lsof" := Lsof,
    "Malfind" := Malfind,
    "Mount" := Mount,
    "Netstat" := Netstat,
    "Maps" := Maps,
    "Psaux" := Psaux,
    "Socket_filters" := Socket_filters,
    "Timers" := Timers,
    "Trustedbsd" := Trustedbsd,
    "VFSevents" := VFSevents
  ]

  /** `__all__`: the names registered under "mac.", in this order. */
  const All: seq<string> := [
    "PsList",
    "PsTree",
    "Bash",
    "Check_syscall",
    "Check_sysctl",
    "Check_trap_table",
    "Dmesg",
    "Ifconfig",
    "Kauth_listeners",
    "Kauth_scopes",
    "Kevents",
    "List_Files",
    "Lsmod",
    "Lsof",
    "Malfind",
    "Mount",
    "Netstat",
    "Maps",
    "Psaux",
    "Socket_filters",
    "Timers",
    "Trustedbsd",
    "VFSevents"
  ]

  /** The classes of plugins/mac/process_plugins.py, in definition order,
      in two halves to keep the proofs about them small. */
  const Classes: seq<PluginClass> := FirstHalf + SecondHalf
  const FirstHalf: seq<PluginClass> := [PsList, PsTree, Bash, Check_syscall, Check_sysctl, Check_trap_table, Dmesg, Ifconfig, Kauth_listeners, Kauth_scopes, Kevents, List_Files]
  const SecondHalf: seq<PluginClass> := [Lsmod, Lsof, Malfind, Mount, Netstat, Maps, Psaux, Socket_filters, Timers, Trustedbsd, VFSevents]

  /** `__all__` holds 23 distinct names, from PsList first to VFSevents last. */
  lemma ExportList()
    ensures |All| == 23 && NoDuplicates(All)
    ensures All[0] == "PsList" && All[22] == "VFSevents"
  {
  }

  /** The exported names are exactly the imported ones, and each resolves
      to the mac class of that name. */
  lemma ExportsResolve()
    ensures forall i :: 0 <= i < |All| ==> All[i] in Namespace && Namespace[All[i]].name == All[i]
    ensures forall n :: n in Namespace ==> n in All && Namespace[n].package == Mac
  {
    ExportsAreImported();
    ImportsAreExported();
  }

  lemma ExportsAreImported()
    ensures forall i :: 0 <= i < |All| ==> All[i] in Namespace && Namespace[All[i]].name == All[i]
  {
    FirstExportsImported();
    LastExportsImported();
  }

  lemma FirstExportsImported()
    ensures forall i :: 0 <= i < 12 ==> All[i] in Namespace && Namespace[All[i]].name == All[i]
  {
  }

  lemma LastExportsImported()
    ensures forall i :: 12 <= i < |All| ==> All[i] in Namespace && Namespace[All[i]].name == All[i]
  {
  }

  lemma ImportsAreExported()
    ensures forall n :: n in Namespace ==> n in All && Namespace[n].package == Mac
  {
  }

  /** Every mac class takes optional keyword arguments and passes a fixed
      selector under "mac.". */
  lemma SelectorsArePrefixed()
    ensures forall c :: c in Classes ==> c.form.WithKwArgs? && StartsWith(c.form.selector, "mac.")
  {
    FirstHalfIsPrefixed();
    SecondHalfIsPrefixed();
  }

  lemma FirstHalfIsPrefixed()
    ensures forall c :: c in FirstHalf ==> c.form.WithKwArgs? && StartsWith(c.form.selector, "mac.")
  {
    FirstQuarterSelectors();
    SecondQuarterSelectors();
  }

  lemma FirstQuarterSelectors()
    ensures StartsWith(PsList.form.selector, "mac.") && StartsWith(PsTree.form.selector, "mac.")
    ensures StartsWith(Bash.form.selector, "mac.") && StartsWith(Check_syscall.form.selector, "mac.")
    ensures StartsWith(Check_sysctl.form.selector, "mac.") && StartsWith(Check_trap_table.form.selector, "mac.")
  {
  }

  lemma SecondQuarterSelectors()
    ensures StartsWith(Dmesg.form.selector, "mac.") && StartsWith(Ifconfig.form.selector, "mac.")
    ensures StartsWith(Kauth_listeners.form.selector, "mac.") && StartsWith(Kauth_scopes.form.selector, "mac.")
    ensures StartsWith(Kevents.form.selector, "mac.") && StartsWith(List_Files.form.selector, "mac.")
  {
  }

  lemma SecondHalfIsPrefixed()
    ensures forall c :: c in SecondHalf ==> c.form.WithKwArgs? && StartsWith(c.form.selector, "mac.")
  {
    ThirdQuarterSelectors();
    FourthQuarterSelectors();
  }

  lemma ThirdQuarterSelectors()
    ensures StartsWith(Lsmod.form.selector, "mac.") && StartsWith(Lsof.form.selector, "mac.")
    ensures StartsWith(Malfind.form.selector, "mac.") && StartsWith(Mount.form.selector, "mac.")
    ensures StartsWith(Netstat.form.selector, "mac.") && StartsWith(Maps.form.selector, "mac.")
  {
  }

  lemma FourthQuarterSelectors()
    ensures StartsWith(Psaux.form.selector, "mac.") && StartsWith(Socket_filters.form.selector, "mac.")
    ensures StartsWith(Timers.form.selector, "mac.") && StartsWith(Trustedbsd.form.selector, "mac.")
    ensures StartsWith(VFSevents.form.selector, "mac.")
  {
  }

  /** No two mac classes share a selector. */
  lemma SelectorsDistinct()
    ensures forall i, j :: 0 <= i < j < |Classes| ==> Classes[i].form.selector != Classes[j].form.selector
  {
  }

  /** Every mac vector is `-f`, the path and the selector, whatever keyword
      arguments are passed. */
  lemma KwArgsNeverConsulted(p: string, kw: map<string, string>)
    ensures forall c :: c in Classes ==>
              ArgVector(c.form, p, Some(KwArgs(kw))) == ArgVector(c.form, p, None) == ["-f", p, c.form.selector]
  {
    SelectorsArePrefixed();
  }

  /** Maps runs the proc_maps module; List_Files and Lsof share a docstring
      but not a selector. */
  lemma NotableSelectors()
    ensures Maps.form.selector == "mac.proc_maps.Maps"
    ensures List_Files.doc == Lsof.doc
    ensures List_Files.form.selector == "mac.list_files.List_Files" != Lsof.form.selector == "mac.lsof.Lsof"
  {
  }
}
