/** The windows plugin package (plugins/windows/): one record per plugin
    class, the package namespace its `__init__` builds by importing them, and
    its `__all__` export list, which fixes what is registered and in which
    order. */
module WindowsPlugins {
  import opened Builtins
  import opened BasePlugin

  // plugins/windows/process_plugins.py
  const PsList: PluginClass := PluginClass(Windows, "PsList", Some("Lists running processes"), WithKwArgs("windows.pslist.PsList"))
  const PsTree: PluginClass := PluginClass(Windows, "PsTree", Some("Shows process tree"), WithKwArgs("windows.pstree.PsTree"))
  const PsScan: PluginClass := PluginClass(Windows, "PsScan", Some("Scans for processes that might be hidden"), WithKwArgs("windows.psscan.PsScan"))

  // plugins/windows/memory_plugins.py
  const Malfind: PluginClass := PluginClass(Windows, "Malfind", Some("Lists process memory ranges that potentially contain injected code"), PathOnly("windows.malfind.Malfind"))
  const MemMap: PluginClass := PluginClass(Windows, "MemMap", Some("Shows the memory map for a specific process"), RequiredPid("windows.memmap.Memmap"))

  // plugins/windows/network_plugins.py
  const NetScan: PluginClass := PluginClass(Windows, "NetScan", Some("Lists all network connections for all processes"), PathOnly("windows.netscan.NetScan"))

  // plugins/windows/registry_plugins.py
  const RegistryHiveList: PluginClass := PluginClass(Windows, "RegistryHiveList", Some("Lists all registry hives in memory"), PathOnly("windows.registry.hivelist.HiveList"))
  const RegistryPrintKey: PluginClass := PluginClass(Windows, "RegistryPrintKey", Some("Prints the contents of a registry key"), RequiredKey("windows.registry.printkey.PrintKey"))

  // plugins/windows/system_plugins.py
  const SvcScan: PluginClass := PluginClass(Windows, "SvcScan", Some("Lists Windows services"), PathOnly("windows.svcscan.SvcScan"))
  const CmdLine: PluginClass := PluginClass(Windows, "CmdLine", Some("Shows process command line arguments"), PathOnly("windows.cmdline.CmdLine"))
  const DllList: PluginClass := PluginClass(Windows, "DllList", Some("Lists loaded DLLs for each process"), OptionalPid("windows.dlllist.DllList"))
  const Handles: PluginClass := PluginClass(Windows, "Handles", Some("Lists open handles for each process"), OptionalPid("windows.handles.Handles"))
  const FileScan: PluginClass := PluginClass(Windows, "FileScan", Some("Scans for file objects"), PathOnly("windows.filescan.FileScan"))
  const ImageInfo: PluginClass := PluginClass(Windows, "ImageInfo", Some("Gets information about a memory dump file"), PathOnly("windows.info.Info"))

  // plugins/windows/disk_plugins.py
  const ADSScan: PluginClass := PluginClass(Windows, "ADSScan", Some("Scans for Alternate Data Stream"), WithKwArgs("windows.mftscan.ADS"))
  const MFTScan: PluginClass := PluginClass(Windows, "MFTScan", Some("Scans for MFT FILE objects"), WithKwArgs("windows.mftscan.MFTScan"))
  const ResidentData: PluginClass := PluginClass(Windows, "ResidentData", Some("Scans for MFT Records with Resident Data"), WithKwArgs("windows.mftscan.ResidentData"))

  /** The plugin classes `plugins/windows/__init__.py` imports, as `getattr` sees
      them; the submodules and module attributes it also binds are not
      plugin classes and are left out. */
  const Namespace: map<string, PluginClass> := map[
    "PsList" := PsList,
    "PsTree" := PsTree,
    "PsScan" := PsScan,
    "Malfind" := Malfind,
    "MemMap" := MemMap,
    "NetScan" := NetScan,
    "RegistryHiveList" := RegistryHiveList,
    "RegistryPrintKey" := RegistryPrintKey,
    "SvcScan" := SvcScan,
    "CmdLine" := CmdLine,
    "DllList" := DllList,
    "Handles" := Handles,
    "FileScan" := FileScan,
    "ImageInfo" := ImageInfo,
    "ADSScan" := ADSScan,
    "MFTScan" := MFTScan,
    "ResidentData" := ResidentData
  ]

  /** `__all__`: the names registered under "windows.", in this order. */
  const All: seq<string> := [
    "PsList",
    "PsTree",
    "PsScan",
    "Malfind",
    "MemMap",
    "NetScan",
    "RegistryHiveList",
    "RegistryPrintKey",
    "SvcScan",
    "CmdLine",
    "DllList",
    "Handles",
    "FileScan",
    "ImageInfo",
    "ADSScan",
    "MFTScan",
    "ResidentData"
  ]

  /** `__all__` holds 17 distinct names, from PsList first to ResidentData
      last, and exports the two plugins whose `run` needs an extra argument. */
  lemma ExportList()
    ensures |All| == 17 && NoDuplicates(All)
    ensures All[0] == "PsList" && All[16] == "ResidentData"
    ensures "MemMap" in All && "RegistryPrintKey" in All
  {
  }

  /** Every exported name is imported, so the `getattr` of registration
      always succeeds; it yields the windows class of that name. The imports
      and the exports are the same set of names. */
  lemma ExportsResolve()
    ensures forall i :: 0 <= i < |All| ==> All[i] in Namespace && Namespace[All[i]].name == All[i]
    ensures forall n :: n in Namespace ==> n in All && Namespace[n].package == Windows
  {
  }

  /** The two classes whose `run` needs an argument beyond the path are
      exported under their own names. */
  lemma ArgumentPluginsExported()
    ensures "MemMap" in All && "MemMap" in Namespace && Namespace["MemMap"] == MemMap
    ensures "RegistryPrintKey" in All && "RegistryPrintKey" in Namespace && Namespace["RegistryPrintKey"] == RegistryPrintKey
  {
    ExportList();
  }

  /** Every windows class passes a selector under "windows.". */
  lemma SelectorsArePrefixed()
    ensures forall n :: n in Namespace ==> !Namespace[n].form.Help? && StartsWith(Namespace[n].form.selector, "windows.")
  {
    ProcessAndMemorySelectors();
    NetworkAndRegistrySelectors();
    SystemSelectors();
    DiskSelectors();
  }

  lemma ProcessAndMemorySelectors()
    ensures StartsWith(PsList.form.selector, "windows.") && StartsWith(PsTree.form.selector, "windows.")
    ensures StartsWith(PsScan.form.selector, "windows.") && StartsWith(Malfind.form.selector, "windows.")
    ensures StartsWith(MemMap.form.selector, "windows.")
  {
  }

  lemma NetworkAndRegistrySelectors()
    ensures StartsWith(NetScan.form.selector, "windows.")
    ensures StartsWith(RegistryHiveList.form.selector, "windows.") && StartsWith(RegistryPrintKey.form.selector, "windows.")
  {
  }

  lemma SystemSelectors()
    ensures StartsWith(SvcScan.form.selector, "windows.") && StartsWith(CmdLine.form.selector, "windows.")
    ensures StartsWith(DllList.form.selector, "windows.") && StartsWith(Handles.form.selector, "windows.")
    ensures StartsWith(FileScan.form.selector, "windows.") && StartsWith(ImageInfo.form.selector, "windows.")
  {
  }

  lemma DiskSelectors()
    ensures StartsWith(ADSScan.form.selector, "windows.") && StartsWith(MFTScan.form.selector, "windows.")
    ensures StartsWith(ResidentData.form.selector, "windows.")
  {
  }

  /** process_plugins.py: three-element vectors, whatever the keyword arguments. */
  lemma ProcessPluginVectors(p: string, kw: map<string, string>)
    ensures ArgVector(PsList.form, p, Some(KwArgs(kw))) == ArgVector(PsList.form, p, None) == ["-f", p, "windows.pslist.PsList"]
    ensures ArgVector(PsTree.form, p, Some(KwArgs(kw))) == ArgVector(PsTree.form, p, None) == ["-f", p, "windows.pstree.PsTree"]
    ensures ArgVector(PsScan.form, p, Some(KwArgs(kw))) == ArgVector(PsScan.form, p, None) == ["-f", p, "windows.psscan.PsScan"]
  {
  }

  /** memory_plugins.py: Malfind takes only the path; MemMap requires a pid
      and always produces a five-element vector ending in "--pid" and the
      decimal pid. */
  lemma MemoryPluginVectors(p: string, pid: int)
    ensures ArgVector(Malfind.form, p, None) == ["-f", p, "windows.malfind.Malfind"]
    ensures RequiredParameter(MemMap.form) == Some("pid")
    ensures ArgVector(MemMap.form, p, Some(Pid(pid))) == ["-f", p, "windows.memmap.Memmap", "--pid", Str(pid)]
  {
  }

  /** network_plugins.py: NetScan takes only the path, and no argument of
      any kind after it. */
  lemma NetworkPluginVectors(p: string, extra: Extra)
    ensures ArgVector(NetScan.form, p, None) == ["-f", p, "windows.netscan.NetScan"]
    ensures !Accepts(NetScan.form, extra)
  {
  }

  /** registry_plugins.py: RegistryPrintKey requires a key and passes it
      verbatim after "--key". */
  lemma RegistryPluginVectors(p: string, key: string)
    ensures ArgVector(RegistryHiveList.form, p, None) == ["-f", p, "windows.registry.hivelist.HiveList"]
    ensures RequiredParameter(RegistryPrintKey.form) == Some("key")
    ensures ArgVector(RegistryPrintKey.form, p, Some(Key(key))) == ["-f", p, "windows.registry.printkey.PrintKey", "--key", key]
  {
  }

  /** system_plugins.py: DllList and Handles add "--pid" and the decimal pid
      only when a pid is given. */
  lemma SystemPluginVectors(p: string, pid: int)
    ensures ArgVector(SvcScan.form, p, None) == ["-f", p, "windows.svcscan.SvcScan"]
    ensures ArgVector(CmdLine.form, p, None) == ["-f", p, "windows.cmdline.CmdLine"]
    ensures ArgVector(FileScan.form, p, None) == ["-f", p, "windows.filescan.FileScan"]
    ensures ArgVector(ImageInfo.form, p, None) == ["-f", p, "windows.info.Info"]
    ensures ArgVector(DllList.form, p, None) == ["-f", p, "windows.dlllist.DllList"]
    ensures ArgVector(DllList.form, p, Some(Pid(pid))) == ["-f", p, "windows.dlllist.DllList", "--pid", Str(pid)]
    ensures ArgVector(Handles.form, p, None) == ["-f", p, "windows.handles.Handles"]
    ensures ArgVector(Handles.form, p, Some(Pid(pid))) == ["-f", p, "windows.handles.Handles", "--pid", Str(pid)]
  {
  }

  /** disk_plugins.py: three-element vectors, whatever the keyword arguments. */
  lemma DiskPluginVectors(p: string, kw: map<string, string>)
    ensures ArgVector(ADSScan.form, p, Some(KwArgs(kw))) == ArgVector(ADSScan.form, p, None) == ["-f", p, "windows.mftscan.ADS"]
    ensures ArgVector(MFTScan.form, p, Some(KwArgs(kw))) == ArgVector(MFTScan.form, p, None) == ["-f", p, "windows.mftscan.MFTScan"]
    ensures ArgVector(ResidentData.form, p, Some(KwArgs(kw))) == ArgVector(ResidentData.form, p, None) == ["-f", p, "windows.mftscan.ResidentData"]
  {
  }
}
