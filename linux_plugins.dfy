/** The linux plugin package (plugins/linux/process_plugins.py): 47 plugin
    classes, each `run(path)` with a fixed selector. The package's
    `__init__` (its imports and `__all__`) is not part of this model; the
    registry takes the linux export list and namespace as parameters. */
module LinuxPlugins {
  import opened Builtins
  import opened BasePlugin

  // plugins/linux/process_plugins.py
  const PsList: PluginClass := PluginClass(Linux, "PsList", Some("Lists the processes present in a particular linux memory image"), PathOnly("linux.pslist.PsList"))
  const PsTree: PluginClass := PluginClass(Linux, "PsTree", Some("Plugin for listing processes in a tree based on their parent process ID"), PathOnly("linux.pstree.PsTree"))
  const PsScan: PluginClass := PluginClass(Linux, "PsScan", Some("Scans for processes present in a particular linux image"), PathOnly("linux.psscan.PsScan"))
  const PsAux: PluginClass := PluginClass(Linux, "PsAux", Some("Lists processes with their command line arguments"), PathOnly("linux.psaux.PsAux"))
  const PsCallStack: PluginClass := PluginClass(Linux, "PsCallStack", Some("Enumerates the call stack of each task"), PathOnly("linux.pscallstack.PsCallStack"))
  const PIDHashTable: PluginClass := PluginClass(Linux, "PIDHashTable", Some("Enumerates processes through the PID hash table"), PathOnly("linux.pidhashtable.PIDHashTable"))
  const Bash: PluginClass := PluginClass(Linux, "Bash", Some("Recovers bash command history from memory"), PathOnly("linux.bash.Bash"))
  const Boottime: PluginClass := PluginClass(Linux, "Boottime", Some("Shows the time the system was started"), PathOnly("linux.boottime.Boottime"))
  const Capabilities: PluginClass := PluginClass(Linux, "Capabilities", Some("Lists process capabilities"), PathOnly("linux.capabilities.Capabilities"))
  const Check_afinfo: PluginClass := PluginClass(Linux, "Check_afinfo", Some("Verifies the operation function pointers of network protocols"), PathOnly("linux.check_afinfo.Check_afinfo"))
  const Check_creds: PluginClass := PluginClass(Linux, "Check_creds", Some("Checks if any processes are sharing credential structures"), PathOnly("linux.check_creds.Check_creds"))
  const Check_idt: PluginClass := PluginClass(Linux, "Check_idt", Some("Checks if the IDT has been altered"), PathOnly("linux.check_idt.Check_idt"))
  const Check_modules: PluginClass := PluginClass(Linux, "Check_modules", Some("Compares module list to sysfs info, if available"), PathOnly("linux.check_modules.Check_modules"))
  const Check_syscall: PluginClass := PluginClass(Linux, "Check_syscall", Some("Check system call table for hooks"), PathOnly("linux.check_syscall.Check_syscall"))
  const EBPF: PluginClass := PluginClass(Linux, "EBPF", Some("Enumerate eBPF programs"), PathOnly("linux.ebpf.EBPF"))
  const Elfs: PluginClass := PluginClass(Linux, "Elfs", Some("Lists all memory mapped ELF files for all processes"), PathOnly("linux.elfs.Elfs"))
  const Envars: PluginClass := PluginClass(Linux, "Envars", Some("Lists processes with their environment variables"), PathOnly("linux.envars.Envars"))
  const Fbdev: PluginClass := PluginClass(Linux, "Fbdev", Some("Extract framebuffers from the fbdev graphics subsystem"), PathOnly("linux.graphics.fbdev.Fbdev"))
  const Hidden_modules: PluginClass := PluginClass(Linux, "Hidden_modules", Some("Carves memory to find hidden kernel modules"), PathOnly("linux.hidden_modules.Hidden_modules"))
  const IOMem: PluginClass := PluginClass(Linux, "IOMem", Some("Generates an output similar to /proc/iomem on a running system"), PathOnly("linux.iomem.IOMem"))
  const IpAddr: PluginClass := PluginClass(Linux, "IpAddr", Some("Lists network interface information for all devices"), PathOnly("linux.ip.Addr"))
  const IpLink: PluginClass := PluginClass(Linux, "IpLink", Some("Lists information about network interfaces similar to `ip link show`"), PathOnly("linux.ip.Link"))
  const Kallsyms: PluginClass := PluginClass(Linux, "Kallsyms", Some("Kallsyms symbols enumeration plugin"), PathOnly("linux.kallsyms.Kallsyms"))
  const Keyboard_notifiers: PluginClass := PluginClass(Linux, "Keyboard_notifiers", Some("Parses the keyboard notifier call chain"), PathOnly("linux.keyboard_notifiers.Keyboard_notifiers"))
  const Kmsg: PluginClass := PluginClass(Linux, "Kmsg", Some("Kernel log buffer reader"), PathOnly("linux.kmsg.Kmsg"))
  const Kthreads: PluginClass := PluginClass(Linux, "Kthreads", Some("Enumerates kthread functions"), PathOnly("linux.kthreads.Kthreads"))
  const LibraryList: PluginClass := PluginClass(Linux, "LibraryList", Some("Enumerate libraries loaded into processes"), PathOnly("linux.library_list.LibraryList"))
  const Lsmod: PluginClass := PluginClass(Linux, "Lsmod", Some("Lists loaded kernel modules"), PathOnly("linux.lsmod.Lsmod"))
  const Lsof: PluginClass := PluginClass(Linux, "Lsof", Some("Lists open files for each processes"), PathOnly("linux.lsof.Lsof"))
  const Malfind: PluginClass := PluginClass(Linux, "Malfind", Some("Lists process memory ranges that potentially contain injected code"), PathOnly("linux.malfind.Malfind"))
  const ModuleExtract: PluginClass := PluginClass(Linux, "ModuleExtract", Some("Recreates an ELF file from a specific address in the kernel"), PathOnly("linux.module_extract.ModuleExtract"))
  const Modxview: PluginClass := PluginClass(Linux, "Modxview", Some("Centralize lsmod, check_modules and hidden_modules results to efficiently spot modules presence and taints"), PathOnly("linux.modxview.Modxview"))
  const MountInfo: PluginClass := PluginClass(Linux, "MountInfo", Some("Lists mount points on processes mount namespaces"), PathOnly("linux.mountinfo.MountInfo"))
  const Netfilter: PluginClass := PluginClass(Linux, "Netfilter", Some("Lists Netfilter hooks"), PathOnly("linux.netfilter.Netfilter"))
  const Files: PluginClass := PluginClass(Linux, "Files", Some("Lists files from memory"), PathOnly("linux.pagecache.Files"))
  const InodePages: PluginClass := PluginClass(Linux, "InodePages", Some("Lists and recovers cached inode pages"), PathOnly("linux.pagecache.InodePages"))
  const RecoverFs: PluginClass := PluginClass(Linux, "RecoverFs", Some("Recovers the cached filesystem (directories, files, symlinks) into a compressed tarball"), PathOnly("linux.pagecache.RecoverFs"))
  const ProcMaps: PluginClass := PluginClass(Linux, "ProcMaps", Some("Lists all memory maps for all processes"), PathOnly("linux.proc.Maps"))
  const Ptrace: PluginClass := PluginClass(Linux, "Ptrace", Some("Enumerates ptrace's tracer and tracee tasks"), PathOnly("linux.ptrace.Ptrace"))
  const Sockstat: PluginClass := PluginClass(Linux, "Sockstat", Some("Lists all network connections for all processes"), PathOnly("linux.sockstat.Sockstat"))
  const CheckFtrace: PluginClass := PluginClass(Linux, "CheckFtrace", Some("Detect ftrace hooking"), PathOnly("linux.tracing.ftrace.CheckFtrace"))
  const PerfEvents: PluginClass := PluginClass(Linux, "PerfEvents", Some("Lists performance events for each process"), PathOnly("linux.tracing.perf_events.PerfEvents"))
  const CheckTracepoints: PluginClass := PluginClass(Linux, "CheckTracepoints", Some("Detect tracepoints hooking"), PathOnly("linux.tracing.tracepoints.CheckTracepoints"))
  const TtyCheck: PluginClass := PluginClass(Linux, "TtyCheck", Some("Checks tty devices for hooks"), PathOnly("linux.tty_check.tty_check"))
  const VmaRegExScan: PluginClass := PluginClass(Linux, "VmaRegExScan", Some("Scans all virtual memory areas for tasks using RegEx"), PathOnly("linux.vmaregexscan.VmaRegExScan"))
  const VmaYaraScan: PluginClass := PluginClass(Linux, "VmaYaraScan", Some("Scans all virtual memory areas for tasks using yara"), PathOnly("linux.vmayarascan.VmaYaraScan"))
  const VMCoreInfo: PluginClass := PluginClass(Linux, "VMCoreInfo", Some("Enumerate VMCoreInfo tables"), PathOnly("linux.vmcoreinfo.VMCoreInfo"))

  /** The classes in definition order, in 4 parts to keep the proofs
      about them small. */
  const Classes: seq<PluginClass> := Part1 + Part2 + Part3 + Part4
  const Part1: seq<PluginClass> := [PsList, PsTree, PsScan, PsAux, PsCallStack, PIDHashTable, Bash, Boottime, Capabilities, Check_afinfo, Check_creds, Check_idt]
  const Part2: seq<PluginClass> := [Check_modules, Check_syscall, EBPF, Elfs, Envars, Fbdev, Hidden_modules, IOMem, IpAddr, IpLink, Kallsyms, Keyboard_notifiers]
  const Part3: seq<PluginClass> := [Kmsg, Kthreads, LibraryList, Lsmod, Lsof, Malfind, ModuleExtract, Modxview, MountInfo, Netfilter, Files, InodePages]
  const Part4: seq<PluginClass> := [RecoverFs, ProcMaps, Ptrace, Sockstat, CheckFtrace, PerfEvents, CheckTracepoints, TtyCheck, VmaRegExScan, VmaYaraScan, VMCoreInfo]

  /** The selector a class hands to Volatility; `Help` has none of its own. */
  function SelectorOf(c: PluginClass): string {
    if c.form.Help? then "" else c.form.selector
  }

  function SelectorsOf(cs: seq<PluginClass>): (r: seq<string>)
    ensures |r| == |cs| && forall i :: 0 <= i < |cs| ==> r[i] == SelectorOf(cs[i])
  {
    seq(|cs|, i requires 0 <= i < |cs| => SelectorOf(cs[i]))
  }

  /** Every class in `cs` takes only the path and passes a selector that
      starts with "linux.". */
  predicate LinuxPathOnly(cs: seq<PluginClass>) {
    forall i :: 0 <= i < |cs| ==> cs[i].form.PathOnly? && StartsWith(SelectorOf(cs[i]), "linux.")
  }

  lemma {:induction false} SelectorsOfConcat(a: seq<PluginClass>, b: seq<PluginClass>)
    ensures SelectorsOf(a + b) == SelectorsOf(a) + SelectorsOf(b)
  {
    var l, r := SelectorsOf(a + b), SelectorsOf(a) + SelectorsOf(b);
    forall i | 0 <= i < |l| ensures l[i] == r[i] {
      if i < |a| {
        assert (a + b)[i] == a[i];
      } else {
        assert (a + b)[i] == b[i - |a|];
      }
    }
  }

  lemma {:induction false} LinuxPathOnlyConcat(a: seq<PluginClass>, b: seq<PluginClass>)
    requires LinuxPathOnly(a) && LinuxPathOnly(b)
    ensures LinuxPathOnly(a + b)
  {
    forall i | 0 <= i < |a + b|
      ensures (a + b)[i].form.PathOnly? && StartsWith(SelectorOf((a + b)[i]), "linux.")
    {
      if i < |a| {
        assert (a + b)[i] == a[i];
      } else {
        assert (a + b)[i] == b[i - |a|];
      }
    }
  }

  lemma {:induction false} DisjointConcat<T>(a: seq<T>, b: seq<T>, c: seq<T>)
    requires Disjoint(a, b) && Disjoint(a, c)
    ensures Disjoint(a, b + c)
  {
    forall i, j | 0 <= i < |a| && 0 <= j < |b + c| ensures a[i] != (b + c)[j] {
      if j < |b| {
        assert (b + c)[j] == b[j];
      } else {
        assert (b + c)[j] == c[j - |b|];
      }
    }
  }

  lemma Part1Selectors()
    ensures SelectorsOf(Part1) == ["linux.pslist.PsList", "linux.pstree.PsTree", "linux.psscan.PsScan", "linux.psaux.PsAux", "linux.pscallstack.PsCallStack", "linux.pidhashtable.PIDHashTable", "linux.bash.Bash", "linux.boottime.Boottime", "linux.capabilities.Capabilities", "linux.check_afinfo.Check_afinfo", "linux.check_creds.Check_creds", "linux.check_idt.Check_idt"]
  {
  }

  lemma Part1Distinct()
    ensures NoDuplicates(["linux.pslist.PsList", "linux.pstree.PsTree", "linux.psscan.PsScan", "linux.psaux.PsAux", "linux.pscallstack.PsCallStack", "linux.pidhashtable.PIDHashTable", "linux.bash.Bash", "linux.boottime.Boottime", "linux.capabilities.Capabilities", "linux.check_afinfo.Check_afinfo", "linux.check_creds.Check_creds", "linux.check_idt.Check_idt"])
  {
  }

  lemma Part1Prefixed()
    ensures forall i :: 0 <= i < |["linux.pslist.PsList", "linux.pstree.PsTree", "linux.psscan.PsScan", "linux.psaux.PsAux", "linux.pscallstack.PsCallStack", "linux.pidhashtable.PIDHashTable", "linux.bash.Bash", "linux.boottime.Boottime", "linux.capabilities.Capabilities", "linux.check_afinfo.Check_afinfo", "linux.check_creds.Check_creds", "linux.check_idt.Check_idt"]| ==> StartsWith(["linux.pslist.PsList", "linux.pstree.PsTree", "linux.psscan.PsScan", "linux.psaux.PsAux", "linux.pscallstack.PsCallStack", "linux.pidhashtable.PIDHashTable", "linux.bash.Bash", "linux.boottime.Boottime", "linux.capabilities.Capabilities", "linux.check_afinfo.Check_afinfo", "linux.check_creds.Check_creds", "linux.check_idt.Check_idt"][i], "linux.")
  {
    StartsWithByChars("linux.pslist.PsList", "linux.");
    StartsWithByChars("linux.pstree.PsTree", "linux.");
    StartsWithByChars("linux.psscan.PsScan", "linux.");
    StartsWithByChars("linux.psaux.PsAux", "linux.");
    StartsWithByChars("linux.pscallstack.PsCallStack", "linux.");
    StartsWithByChars("linux.pidhashtable.PIDHashTable", "linux.");
    StartsWithByChars("linux.bash.Bash", "linux.");
    StartsWithByChars("linux.boottime.Boottime", "linux.");
    StartsWithByChars("linux.capabilities.Capabilities", "linux.");
    StartsWithByChars("linux.check_afinfo.Check_afinfo", "linux.");
    StartsWithByChars("linux.check_creds.Check_creds", "linux.");
    StartsWithByChars("linux.check_idt.Check_idt", "linux.");
  }

  lemma Part1Facts()
    ensures LinuxPathOnly(Part1) && NoDuplicates(SelectorsOf(Part1))
  {
    Part1Selectors();
    Part1Distinct();
    Part1Prefixed();
  }

  lemma Part2Selectors()
    ensures SelectorsOf(Part2) == ["linux.check_modules.Check_modules", "linux.check_syscall.Check_syscall", "linux.ebpf.EBPF", "linux.elfs.Elfs", "linux.envars.Envars", "linux.graphics.fbdev.Fbdev", "linux.hidden_modules.Hidden_modules", "linux.iomem.IOMem", "linux.ip.Addr", "linux.ip.Link", "linux.kallsyms.Kallsyms", "linux.keyboard_notifiers.Keyboard_notifiers"]
  {
  }

  lemma Part2Distinct()
    ensures NoDuplicates(["linux.check_modules.Check_modules", "linux.check_syscall.Check_syscall", "linux.ebpf.EBPF", "linux.elfs.Elfs", "linux.envars.Envars", "linux.graphics.fbdev.Fbdev", "linux.hidden_modules.Hidden_modules", "linux.iomem.IOMem", "linux.ip.Addr", "linux.ip.Link", "linux.kallsyms.Kallsyms", "linux.keyboard_notifiers.Keyboard_notifiers"])
  {
  }

  lemma Part2Prefixed()
    ensures forall i :: 0 <= i < |["linux.check_modules.Check_modules", "linux.check_syscall.Check_syscall", "linux.ebpf.EBPF", "linux.elfs.Elfs", "linux.envars.Envars", "linux.graphics.fbdev.Fbdev", "linux.hidden_modules.Hidden_modules", "linux.iomem.IOMem", "linux.ip.Addr", "linux.ip.Link", "linux.kallsyms.Kallsyms", "linux.keyboard_notifiers.Keyboard_notifiers"]| ==> StartsWith(["linux.check_modules.Check_modules", "linux.check_syscall.Check_syscall", "linux.ebpf.EBPF", "linux.elfs.Elfs", "linux.envars.Envars", "linux.graphics.fbdev.Fbdev", "linux.hidden_modules.Hidden_modules", "linux.iomem.IOMem", "linux.ip.Addr", "linux.ip.Link", "linux.kallsyms.Kallsyms", "linux.keyboard_notifiers.Keyboard_notifiers"][i], "linux.")
  {
    StartsWithByChars("linux.check_modules.Check_modules", "linux.");
    StartsWithByChars("linux.check_syscall.Check_syscall", "linux.");
    StartsWithByChars("linux.ebpf.EBPF", "linux.");
    StartsWithByChars("linux.elfs.Elfs", "linux.");
    StartsWithByChars("linux.envars.Envars", "linux.");
    StartsWithByChars("linux.graphics.fbdev.Fbdev", "linux.");
    StartsWithByChars("linux.hidden_modules.Hidden_modules", "linux.");
    StartsWithByChars("linux.iomem.IOMem", "linux.");
    StartsWithByChars("linux.ip.Addr", "linux.");
    StartsWithByChars("linux.ip.Link", "linux.");
    StartsWithByChars("linux.kallsyms.Kallsyms", "linux.");
    StartsWithByChars("linux.keyboard_notifiers.Keyboard_notifiers", "linux.");
  }

  lemma Part2Facts()
    ensures LinuxPathOnly(Part2) && NoDuplicates(SelectorsOf(Part2))
  {
    Part2Selectors();
    Part2Distinct();
    Part2Prefixed();
  }

  lemma Part3Selectors()
    ensures SelectorsOf(Part3) == ["linux.kmsg.Kmsg", "linux.kthreads.Kthreads", "linux.library_list.LibraryList", "linux.lsmod.Lsmod", "linux.lsof.Lsof", "linux.malfind.Malfind", "linux.module_extract.ModuleExtract", "linux.modxview.Modxview", "linux.mountinfo.MountInfo", "linux.netfilter.Netfilter", "linux.pagecache.Files", "linux.pagecache.InodePages"]
  {
  }

  lemma Part3Distinct()
    ensures NoDuplicates(["linux.kmsg.Kmsg", "linux.kthreads.Kthreads", "linux.library_list.LibraryList", "linux.lsmod.Lsmod", "linux.lsof.Lsof", "linux.malfind.Malfind", "linux.module_extract.ModuleExtract", "linux.modxview.Modxview", "linux.mountinfo.MountInfo", "linux.netfilter.Netfilter", "linux.pagecache.Files", "linux.pagecache.InodePages"])
  {
  }

  lemma Part3Prefixed()
    ensures forall i :: 0 <= i < |["linux.kmsg.Kmsg", "linux.kthreads.Kthreads", "linux.library_list.LibraryList", "linux.lsmod.Lsmod", "linux.lsof.Lsof", "linux.malfind.Malfind", "linux.module_extract.ModuleExtract", "linux.modxview.Modxview", "linux.mountinfo.MountInfo", "linux.netfilter.Netfilter", "linux.pagecache.Files", "linux.pagecache.InodePages"]| ==> StartsWith(["linux.kmsg.Kmsg", "linux.kthreads.Kthreads", "linux.library_list.LibraryList", "linux.lsmod.Lsmod", "linux.lsof.Lsof", "linux.malfind.Malfind", "linux.module_extract.ModuleExtract", "linux.modxview.Modxview", "linux.mountinfo.MountInfo", "linux.netfilter.Netfilter", "linux.pagecache.Files", "linux.pagecache.InodePages"][i], "linux.")
  {
    StartsWithByChars("linux.kmsg.Kmsg", "linux.");
    StartsWithByChars("linux.kthreads.Kthreads", "linux.");
    StartsWithByChars("linux.library_list.LibraryList", "linux.");
    StartsWithByChars("linux.lsmod.Lsmod", "linux.");
    StartsWithByChars("linux.lsof.Lsof", "linux.");
    StartsWithByChars("linux.malfind.Malfind", "linux.");
    StartsWithByChars("linux.module_extract.ModuleExtract", "linux.");
    StartsWithByChars("linux.modxview.Modxview", "linux.");
    StartsWithByChars("linux.mountinfo.MountInfo", "linux.");
    StartsWithByChars("linux.netfilter.Netfilter", "linux.");
    StartsWithByChars("linux.pagecache.Files", "linux.");
    StartsWithByChars("linux.pagecache.InodePages", "linux.");
  }

  lemma Part3Facts()
    ensures LinuxPathOnly(Part3) && NoDuplicates(SelectorsOf(Part3))
  {
    Part3Selectors();
    Part3Distinct();
    Part3Prefixed();
  }

  lemma Part4Selectors()
    ensures SelectorsOf(Part4) == ["linux.pagecache.RecoverFs", "linux.proc.Maps", "linux.ptrace.Ptrace", "linux.sockstat.Sockstat", "linux.tracing.ftrace.CheckFtrace", "linux.tracing.perf_events.PerfEvents", "linux.tracing.tracepoints.CheckTracepoints", "linux.tty_check.tty_check", "linux.vmaregexscan.VmaRegExScan", "linux.vmayarascan.VmaYaraScan", "linux.vmcoreinfo.VMCoreInfo"]
  {
  }

  lemma Part4Distinct()
    ensures NoDuplicates(["linux.pagecache.RecoverFs", "linux.proc.Maps", "linux.ptrace.Ptrace", "linux.sockstat.Sockstat", "linux.tracing.ftrace.CheckFtrace", "linux.tracing.perf_events.PerfEvents", "linux.tracing.tracepoints.CheckTracepoints", "linux.tty_check.tty_check", "linux.vmaregexscan.VmaRegExScan", "linux.vmayarascan.VmaYaraScan", "linux.vmcoreinfo.VMCoreInfo"])
  {
  }

  lemma Part4Prefixed()
    ensures forall i :: 0 <= i < |["linux.pagecache.RecoverFs", "linux.proc.Maps", "linux.ptrace.Ptrace", "linux.sockstat.Sockstat", "linux.tracing.ftrace.CheckFtrace", "linux.tracing.perf_events.PerfEvents", "linux.tracing.tracepoints.CheckTracepoints", "linux.tty_check.tty_check", "linux.vmaregexscan.VmaRegExScan", "linux.vmayarascan.VmaYaraScan", "linux.vmcoreinfo.VMCoreInfo"]| ==> StartsWith(["linux.pagecache.RecoverFs", "linux.proc.Maps", "linux.ptrace.Ptrace", "linux.sockstat.Sockstat", "linux.tracing.ftrace.CheckFtrace", "linux.tracing.perf_events.PerfEvents", "linux.tracing.tracepoints.CheckTracepoints", "linux.tty_check.tty_check", "linux.vmaregexscan.VmaRegExScan", "linux.vmayarascan.VmaYaraScan", "linux.vmcoreinfo.VMCoreInfo"][i], "linux.")
  {
    Part4HeadPrefixed();
    Part4TailPrefixed();
  }

  lemma Part4HeadPrefixed()
    ensures StartsWith("linux.pagecache.RecoverFs", "linux.") && StartsWith("linux.proc.Maps", "linux.") && StartsWith("linux.ptrace.Ptrace", "linux.") && StartsWith("linux.sockstat.Sockstat", "linux.") && StartsWith("linux.tracing.ftrace.CheckFtrace", "linux.") && StartsWith("linux.tracing.perf_events.PerfEvents", "linux.")
  {
    StartsWithByChars("linux.pagecache.RecoverFs", "linux.");
    StartsWithByChars("linux.proc.Maps", "linux.");
    StartsWithByChars("linux.ptrace.Ptrace", "linux.");
    StartsWithByChars("linux.sockstat.Sockstat", "linux.");
    StartsWithByChars("linux.tracing.ftrace.CheckFtrace", "linux.");
    StartsWithByChars("linux.tracing.perf_events.PerfEvents", "linux.");
  }

  lemma Part4TailPrefixed()
    ensures StartsWith("linux.tracing.tracepoints.CheckTracepoints", "linux.") && StartsWith("linux.tty_check.tty_check", "linux.") && StartsWith("linux.vmaregexscan.VmaRegExScan", "linux.") && StartsWith("linux.vmayarascan.VmaYaraScan", "linux.") && StartsWith("linux.vmcoreinfo.VMCoreInfo", "linux.")
  {
    StartsWithByChars("linux.tracing.tracepoints.CheckTracepoints", "linux.");
    StartsWithByChars("linux.tty_check.tty_check", "linux.");
    StartsWithByChars("linux.vmaregexscan.VmaRegExScan", "linux.");
    StartsWithByChars("linux.vmayarascan.VmaYaraScan", "linux.");
    StartsWithByChars("linux.vmcoreinfo.VMCoreInfo", "linux.");
  }

  lemma Part4Facts()
    ensures LinuxPathOnly(Part4) && NoDuplicates(SelectorsOf(Part4))
  {
    Part4Selectors();
    Part4Distinct();
    Part4Prefixed();
  }

  lemma Part12Disjoint()
    ensures Disjoint(["linux.pslist.PsList", "linux.pstree.PsTree", "linux.psscan.PsScan", "linux.psaux.PsAux", "linux.pscallstack.PsCallStack", "linux.pidhashtable.PIDHashTable", "linux.bash.Bash", "linux.boottime.Boottime", "linux.capabilities.Capabilities", "linux.check_afinfo.Check_afinfo", "linux.check_creds.Check_creds", "linux.check_idt.Check_idt"], ["linux.check_modules.Check_modules", "linux.check_syscall.Check_syscall", "linux.ebpf.EBPF", "linux.elfs.Elfs", "linux.envars.Envars", "linux.graphics.fbdev.Fbdev", "linux.hidden_modules.Hidden_modules", "linux.iomem.IOMem", "linux.ip.Addr", "linux.ip.Link", "linux.kallsyms.Kallsyms", "linux.keyboard_notifiers.Keyboard_notifiers"])
  {
  }

  lemma Part12Apart()
    ensures Disjoint(SelectorsOf(Part1), SelectorsOf(Part2))
  {
    Part1Selectors();
    Part2Selectors();
    Part12Disjoint();
  }

  lemma Part13Disjoint()
    ensures Disjoint(["linux.pslist.PsList", "linux.pstree.PsTree", "linux.psscan.PsScan", "linux.psaux.PsAux", "linux.pscallstack.PsCallStack", "linux.pidhashtable.PIDHashTable", "linux.bash.Bash", "linux.boottime.Boottime", "linux.capabilities.Capabilities", "linux.check_afinfo.Check_afinfo", "linux.check_creds.Check_creds", "linux.check_idt.Check_idt"], ["linux.kmsg.Kmsg", "linux.kthreads.Kthreads", "linux.library_list.LibraryList", "linux.lsmod.Lsmod", "linux.lsof.Lsof", "linux.malfind.Malfind", "linux.module_extract.ModuleExtract", "linux.modxview.Modxview", "linux.mountinfo.MountInfo", "linux.netfilter.Netfilter", "linux.pagecache.Files", "linux.pagecache.InodePages"])
  {
  }

  lemma Part13Apart()
    ensures Disjoint(SelectorsOf(Part1), SelectorsOf(Part3))
  {
    Part1Selectors();
    Part3Selectors();
    Part13Disjoint();
  }

  lemma Part14Disjoint()
    ensures Disjoint(["linux.pslist.PsList", "linux.pstree.PsTree", "linux.psscan.PsScan", "linux.psaux.PsAux", "linux.pscallstack.PsCallStack", "linux.pidhashtable.PIDHashTable", "linux.bash.Bash", "linux.boottime.Boottime", "linux.capabilities.Capabilities", "linux.check_afinfo.Check_afinfo", "linux.check_creds.Check_creds", "linux.check_idt.Check_idt"], ["linux.pagecache.RecoverFs", "linux.proc.Maps", "linux.ptrace.Ptrace", "linux.sockstat.Sockstat", "linux.tracing.ftrace.CheckFtrace", "linux.tracing.perf_events.PerfEvents", "linux.tracing.tracepoints.CheckTracepoints", "linux.tty_check.tty_check", "linux.vmaregexscan.VmaRegExScan", "linux.vmayarascan.VmaYaraScan", "linux.vmcoreinfo.VMCoreInfo"])
  {
  }

  lemma Part14Apart()
    ensures Disjoint(SelectorsOf(Part1), SelectorsOf(Part4))
  {
    Part1Selectors();
    Part4Selectors();
    Part14Disjoint();
  }

  lemma Part23Disjoint()
    ensures Disjoint(["linux.check_modules.Check_modules", "linux.check_syscall.Check_syscall", "linux.ebpf.EBPF", "linux.elfs.Elfs", "linux.envars.Envars", "linux.graphics.fbdev.Fbdev", "linux.hidden_modules.Hidden_modules", "linux.iomem.IOMem", "linux.ip.Addr", "linux.ip.Link", "linux.kallsyms.Kallsyms", "linux.keyboard_notifiers.Keyboard_notifiers"], ["linux.kmsg.Kmsg", "linux.kthreads.Kthreads", "linux.library_list.LibraryList", "linux.lsmod.Lsmod", "linux.lsof.Lsof", "linux.malfind.Malfind", "linux.module_extract.ModuleExtract", "linux.modxview.Modxview", "linux.mountinfo.MountInfo", "linux.netfilter.Netfilter", "linux.pagecache.Files", "linux.pagecache.InodePages"])
  {
  }

  lemma Part23Apart()
    ensures Disjoint(SelectorsOf(Part2), SelectorsOf(Part3))
  {
    Part2Selectors();
    Part3Selectors();
    Part23Disjoint();
  }

  lemma Part24Disjoint()
    ensures Disjoint(["linux.check_modules.Check_modules", "linux.check_syscall.Check_syscall", "linux.ebpf.EBPF", "linux.elfs.Elfs", "linux.envars.Envars", "linux.graphics.fbdev.Fbdev", "linux.hidden_modules.Hidden_modules", "linux.iomem.IOMem", "linux.ip.Addr", "linux.ip.Link", "linux.kallsyms.Kallsyms", "linux.keyboard_notifiers.Keyboard_notifiers"], ["linux.pagecache.RecoverFs", "linux.proc.Maps", "linux.ptrace.Ptrace", "linux.sockstat.Sockstat", "linux.tracing.ftrace.CheckFtrace", "linux.tracing.perf_events.PerfEvents", "linux.tracing.tracepoints.CheckTracepoints", "linux.tty_check.tty_check", "linux.vmaregexscan.VmaRegExScan", "linux.vmayarascan.VmaYaraScan", "linux.vmcoreinfo.VMCoreInfo"])
  {
  }

  lemma Part24Apart()
    ensures Disjoint(SelectorsOf(Part2), SelectorsOf(Part4))
  {
    Part2Selectors();
    Part4Selectors();
    Part24Disjoint();
  }

  lemma Part34Disjoint()
    ensures Disjoint(["linux.kmsg.Kmsg", "linux.kthreads.Kthreads", "linux.library_list.LibraryList", "linux.lsmod.Lsmod", "linux.lsof.Lsof", "linux.malfind.Malfind", "linux.module_extract.ModuleExtract", "linux.modxview.Modxview", "linux.mountinfo.MountInfo", "linux.netfilter.Netfilter", "linux.pagecache.Files", "linux.pagecache.InodePages"], ["linux.pagecache.RecoverFs", "linux.proc.Maps", "linux.ptrace.Ptrace", "linux.sockstat.Sockstat", "linux.tracing.ftrace.CheckFtrace", "linux.tracing.perf_events.PerfEvents", "linux.tracing.tracepoints.CheckTracepoints", "linux.tty_check.tty_check", "linux.vmaregexscan.VmaRegExScan", "linux.vmayarascan.VmaYaraScan", "linux.vmcoreinfo.VMCoreInfo"])
  {
  }

  lemma Part34Apart()
    ensures Disjoint(SelectorsOf(Part3), SelectorsOf(Part4))
  {
    Part3Selectors();
    Part4Selectors();
    Part34Disjoint();
  }

  /** The 47 classes, from PsList to VMCoreInfo, all take only the path
      and pass distinct selectors under "linux.". */
  lemma {:induction false} CatalogueFacts()
    ensures |Classes| == 47 && Classes[0] == PsList && Classes[46] == VMCoreInfo
    ensures LinuxPathOnly(Classes) && NoDuplicates(SelectorsOf(Classes))
  {
    Part1Facts();
    Part2Facts();
    Part3Facts();
    Part4Facts();
    Part12Apart();
    Part13Apart();
    Part14Apart();
    Part23Apart();
    Part24Apart();
    Part34Apart();
    var s1, s2, s3, s4 := SelectorsOf(Part1), SelectorsOf(Part2), SelectorsOf(Part3), SelectorsOf(Part4);
    var tail3 := Part3 + Part4;
    var tail2 := Part2 + tail3;
    SelectorsOfConcat(Part3, Part4);
    NoDuplicatesConcat(s3, s4);
    LinuxPathOnlyConcat(Part3, Part4);
    DisjointConcat(s2, s3, s4);
    SelectorsOfConcat(Part2, tail3);
    NoDuplicatesConcat(s2, s3 + s4);
    LinuxPathOnlyConcat(Part2, tail3);
    DisjointConcat(s1, s3, s4);
    DisjointConcat(s1, s2, s3 + s4);
    SelectorsOfConcat(Part1, tail2);
    NoDuplicatesConcat(s1, s2 + (s3 + s4));
    LinuxPathOnlyConcat(Part1, tail2);
    assert Part1 + tail2 == Classes;
  }

  /** Every linux `run` takes only the path, and every selector starts with
      "linux.". */
  lemma SelectorsArePrefixed()
    ensures forall i :: 0 <= i < |Classes| ==> Classes[i].form.PathOnly? && StartsWith(SelectorOf(Classes[i]), "linux.")
  {
    CatalogueFacts();
  }

  /** One linux class at a time: path-only, under "linux.". */
  lemma ClassIsPrefixed(c: PluginClass)
    requires c in Classes
    ensures c.form.PathOnly? && StartsWith(c.form.selector, "linux.")
  {
    var i :| 0 <= i < |Classes| && Classes[i] == c;
    SelectorsArePrefixed();
  }

  /** No two linux classes share a selector. */
  lemma SelectorsDistinct()
    ensures forall i, j :: 0 <= i < j < |Classes| ==> SelectorOf(Classes[i]) != SelectorOf(Classes[j])
  {
    CatalogueFacts();
  }

  /** Every linux vector is `-f`, the path and the class's own selector. */
  lemma VectorsArePathOnly(p: string)
    ensures forall i :: 0 <= i < |Classes| ==> ArgVector(Classes[i].form, p, None) == ["-f", p, SelectorOf(Classes[i])]
  {
    CatalogueFacts();
  }

  /** The selectors that do not follow the `linux.<module>.<Class>` pattern
      of the class name. */
  lemma NotableSelectors()
    ensures IpAddr.form.selector == "linux.ip.Addr" && IpLink.form.selector == "linux.ip.Link"
    ensures Files.form.selector == "linux.pagecache.Files"
    ensures InodePages.form.selector == "linux.pagecache.InodePages"
    ensures RecoverFs.form.selector == "linux.pagecache.RecoverFs"
    ensures ProcMaps.form.selector == "linux.proc.Maps"
    ensures TtyCheck.form.selector == "linux.tty_check.tty_check"
    ensures Fbdev.form.selector == "linux.graphics.fbdev.Fbdev"
    ensures PsList.form.selector == "linux.pslist.PsList" && VMCoreInfo.form.selector == "linux.vmcoreinfo.VMCoreInfo"
  {
  }
}
