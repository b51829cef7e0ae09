/** The common plugin package (plugins/common/): plugins that run under
    unprefixed selectors. Its `__init__` imports and exports only the
    framework, scan and timeline classes; the process classes are defined
    but their import and export lines are commented out, and PluginHelp is
    defined but neither imported nor exported. */
module CommonPlugins {
  import opened Builtins
  import opened BasePlugin

  // plugins/common/framework_plugins.py
  const Banners: PluginClass := PluginClass(Common, "Banners", Some("Attempts to identify potential linux banners in an image"), WithKwArgs("banners.Banners"))
  const ConfigWriter: PluginClass := PluginClass(Common, "ConfigWriter", Some("Runs the automagics and both prints and outputs configuration in the output directory"), WithKwArgs("configwriter.ConfigWriter"))
  const FrameworkInfo: PluginClass := PluginClass(Common, "FrameworkInfo", Some("Plugin to list the various modular components of Volatility"), WithKwArgs("frameworkinfo.FrameworkInfo"))
  const IsfInfo: PluginClass := PluginClass(Common, "IsfInfo", Some("Determines information about the currently available ISF files, or a specific one"), WithKwArgs("isfinfo.IsfInfo"))
  const LayerWriter: PluginClass := PluginClass(Common, "LayerWriter", Some("Runs the automagics and writes out the primary layer produced by the stacker"), WithKwArgs("layerwriter.LayerWriter"))

  // plugins/common/scan_plugins.py
  const RegExScan: PluginClass := PluginClass(Common, "RegExScan", Some("Scans kernel memory using RegEx patterns"), PathOnly("regexscan.RegExScan"))
  const YaraScan: PluginClass := PluginClass(Common, "YaraScan", Some("Scans kernel memory using yara rules (string or file)"), PathOnly("yarascan.YaraScan"))
  const Vmscan: PluginClass := PluginClass(Common, "Vmscan", Some("Scans for Intel VT-d structures and generates VM volatility configs for them"), PathOnly("vmscan.Vmscan"))

  // plugins/common/timeline_plugins.py
  const Timeliner: PluginClass := PluginClass(Common, "Timeliner", Some("Runs all relevant plugins that provide time related information and orders the results by time"), PathOnly("timeliner.Timeliner"))
  const Timeline: PluginClass := PluginClass(Common, "Timeline", Some("Generates a timeline of events from memory"), PathOnly("timeliner.Timeline"))

  // plugins/common/help_plugins.py
  const PluginHelp: PluginClass := PluginClass(Common, "PluginHelp", Some("\n    Lists the command parameters for a given plugin by appending --help\n    to the plugin's name.\n    "), Help)

  // plugins/common/process_plugins.py
  const PsList: PluginClass := PluginClass(Common, "PsList", Some("Lists the processes present in a memory image"), PathOnly("pslist.PsList"))
  const PsTree: PluginClass := PluginClass(Common, "PsTree", Some("Plugin for listing processes in a tree based on their parent process ID"), PathOnly("pstree.PsTree"))
  const PsScan: PluginClass := PluginClass(Common, "PsScan", Some("Scans for processes present in a memory image"), PathOnly("psscan.PsScan"))
  const PsAux: PluginClass := PluginClass(Common, "PsAux", Some("Lists processes with their command line arguments"), PathOnly("psaux.PsAux"))
  const PsCallStack: PluginClass := PluginClass(Common, "PsCallStack", Some("Enumerates the call stack of each task"), PathOnly("pscallstack.PsCallStack"))
  const PIDHashTable: PluginClass := PluginClass(Common, "PIDHashTable", Some("Enumerates processes through the PID hash table"), PathOnly("pidhashtable.PIDHashTable"))

  /** The plugin classes `plugins/common/__init__.py` imports, as `getattr` sees
      them; the submodules and module attributes it also binds are not
      plugin classes and are left out. */
  const Namespace: map<string, PluginClass> := map[
    "Banners" := Banners,
    "ConfigWriter" := ConfigWriter,
    "FrameworkInfo" := FrameworkInfo,
    "IsfInfo" := IsfInfo,
    "LayerWriter" := LayerWriter,
    "RegExScan" := RegExScan,
    "YaraScan" := YaraScan,
    "Vmscan" := Vmscan,
    "Timeliner" := Timeliner,
    "Timeline" := Timeline
  ]

  /** `__all__`: the names registered without a prefix, in this order. */
  const All: seq<string> := [
    "Banners",
    "ConfigWriter",
    "FrameworkInfo",
    "IsfInfo",
    "LayerWriter",
    "RegExScan",
    "YaraScan",
    "Vmscan",
    "Timeliner",
    "Timeline"
  ]

  /** `__all__` holds exactly 10 distinct names; PluginHelp and the process
      classes are not among them and are not in the namespace either. */
  lemma ExportList()
    ensures |All| == 10 && NoDuplicates(All)
    ensures "PluginHelp" !in All && "PluginHelp" !in Namespace && "PsList" !in All
    ensures "PsList" !in Namespace && "PsTree" !in Namespace && "PsScan" !in Namespace && "PsAux" !in Namespace && "PsCallStack" !in Namespace && "PIDHashTable" !in Namespace
    ensures forall n :: n in Namespace ==> n !in ["PsList", "PsTree", "PsScan", "PsAux", "PsCallStack", "PIDHashTable"]
  {
  }

  /** The exported names are exactly the imported ones, and each resolves
      to the common class of that name. */
  lemma ExportsResolve()
    ensures forall i :: 0 <= i < |All| ==> All[i] in Namespace && Namespace[All[i]].name == All[i]
    ensures forall n :: n in Namespace ==> n in All && Namespace[n].package == Common
  {
  }

  /** No exported name contains a '.', so the unprefixed registrations
      cannot coincide with a "windows.", "linux." or "mac." name. */
  lemma ExportsAreUndotted()
    ensures forall i :: 0 <= i < |All| ==> '.' !in All[i]
  {
  }

  /** framework_plugins.py: unprefixed selectors; keyword arguments never
      alter the vector. */
  lemma FrameworkPluginVectors(p: string, kw: map<string, string>)
    ensures ArgVector(Banners.form, p, Some(KwArgs(kw))) == ArgVector(Banners.form, p, None) == ["-f", p, "banners.Banners"]
    ensures ArgVector(ConfigWriter.form, p, Some(KwArgs(kw))) == ArgVector(ConfigWriter.form, p, None) == ["-f", p, "configwriter.ConfigWriter"]
    ensures ArgVector(FrameworkInfo.form, p, Some(KwArgs(kw))) == ArgVector(FrameworkInfo.form, p, None) == ["-f", p, "frameworkinfo.FrameworkInfo"]
    ensures ArgVector(IsfInfo.form, p, Some(KwArgs(kw))) == ArgVector(IsfInfo.form, p, None) == ["-f", p, "isfinfo.IsfInfo"]
    ensures ArgVector(LayerWriter.form, p, Some(KwArgs(kw))) == ArgVector(LayerWriter.form, p, None) == ["-f", p, "layerwriter.LayerWriter"]
  {
  }

  /** scan_plugins.py: always three elements; no pattern or rule flag. */
  lemma ScanPluginVectors(p: string)
    ensures ArgVector(RegExScan.form, p, None) == ["-f", p, "regexscan.RegExScan"]
    ensures ArgVector(YaraScan.form, p, None) == ["-f", p, "yarascan.YaraScan"]
    ensures ArgVector(Vmscan.form, p, None) == ["-f", p, "vmscan.Vmscan"]
  {
  }

  /** timeline_plugins.py: two classes of one module, three elements each. */
  lemma TimelinePluginVectors(p: string)
    ensures ArgVector(Timeliner.form, p, None) == ["-f", p, "timeliner.Timeliner"]
    ensures ArgVector(Timeline.form, p, None) == ["-f", p, "timeliner.Timeline"]
  {
  }

  /** help_plugins.py: the caller's plugin name, verbatim, followed by a
      final "--help"; the name is a required argument. */
  lemma HelpPluginVector(p: string, pluginName: string)
    ensures RequiredParameter(PluginHelp.form) == Some("plugin_name")
    ensures ArgVector(PluginHelp.form, p, Some(PluginName(pluginName))) == ["-f", p, pluginName, "--help"]
  {
  }

  /** process_plugins.py: unprefixed selectors, path only. */
  lemma ProcessPluginVectors(p: string)
    ensures ArgVector(PsList.form, p, None) == ["-f", p, "pslist.PsList"]
    ensures ArgVector(PsTree.form, p, None) == ["-f", p, "pstree.PsTree"]
    ensures ArgVector(PsScan.form, p, None) == ["-f", p, "psscan.PsScan"]
    ensures ArgVector(PsAux.form, p, None) == ["-f", p, "psaux.PsAux"]
    ensures ArgVector(PsCallStack.form, p, None) == ["-f", p, "pscallstack.PsCallStack"]
    ensures ArgVector(PIDHashTable.form, p, None) == ["-f", p, "pidhashtable.PIDHashTable"]
  {
  }
}
