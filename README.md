# Volatility MCP server: plugin catalogue and dispatch, in Dafny

This project models the core of a Model Context Protocol server that exposes the
Volatility 3 memory-forensics framework as tools. The core is made of four parts.

- **Plugin factory.** `PluginFactory` keeps a process-wide table from plugin name to
  plugin class. It fills the table from the `__all__` export list of each plugin
  package:
  - the windows, linux and mac packages register under the prefixes `windows.`,
    `linux.` and `mac.`;
  - the common package registers undotted, under the bare name.
- **Plugins.** Each plugin class validates the memory-dump path and then asks the
  runner to start `vol.py -f <path> <selector> [flags]`. The model covers all 47
  linux, 23 mac, 17 windows and 17 common classes, each with its own selector and
  argument shape.
- **Runner.** `VolatilityRunner` builds the command line. It turns the process outcome
  into one reply string: the output on success, or a text that reports a timeout, a
  non-zero exit code or an exception.
- **Server.** At import time the server builds the runner with a 60-second timeout and
  registers the four families in the order windows, linux, mac, common. It then
  serves four tools: `list_available_plugins`, `run_plugin`, `list_memory_dumps` and
  `download_symbols`.

## Modelling choices

**Registry as a class.** The registry table is a Dafny `class`
(`Registry.PluginFactory`). Its fields are `plugins: map` and `order: seq`, because a
Python dict keeps insertion order and overwriting a key keeps that key's position.
Every method of the class is proved against a function on the value type
`PluginTable` (`Register`, `Lookup`, `Describe`, `RegisterNames`). The properties
are lemmas about those functions.

**Plugin `run` as a plan.** A plugin's `run` is a pure plan with three outcomes:
- reply with a text;
- raise a Python exception;
- spawn an argument vector.

The runner's `__call__` is a pure function (`Runner.Call`) of that vector and of an
abstract process outcome: exit code and decoded streams, a timeout, or a raised
exception.

**`run_plugin` passes only the path.** `run_plugin` calls `plugin.run(path)` with
nothing else. So:
- a class whose `run` has a required second parameter always raises `TypeError`.
  These are `windows.MemMap` (`pid`) and `windows.RegistryPrintKey` (`key`), and
  `run_plugin` reports the error as "Error running plugin: …"
  (`Server.ArgumentPluginsNeverRun`);
- optional arguments and `kw_args` always take their defaults.

The model still gives every class its full argument vector, so the vectors stay
checkable per class.

**Environment as parameters.**
- The file system is given by a path resolver and a set of regular files.
- Directory listing is given by a walk sequence and a size renderer.
- Existence checks are given by a set of existing paths.
- The linux package's `__all__` and namespace are parameters, because
  `plugins/linux/__init__.py` is not part of this model. Every result that depends on
  them states its hypothesis: each exported name resolves, and each resolved value is
  one of the 47 classes of `plugins/linux/process_plugins.py`.

**What the code does not do.**
- `run_plugin` passes only the path, so no extra keyword argument ever reaches a
  plugin (volatility_mcp_server.py:166-184).
- `list_memory_dumps` searches one directory, the argument or the current directory,
  and has no fallback list of other directories (volatility_mcp_server.py:186-218).

## Model

| member | source | states |
|---|---|---|
| Runner.Command | volatility_mcp_server.py:101 | the command is the interpreter, then the script, then exactly the given arguments |
| Runner.Call | volatility_mcp_server.py:86-139 | exit code 0 returns stdout; a non-zero code gives exactly "Command failed with return code <rc>: <stderr>"; a timeout gives exactly "Command timed out after <t> seconds: <command line>", where t is the effective timeout (the per-call value unless absent or 0, else the runner default); an exception gives "Exception running command " and the command line, ending with the exception text |
| Runner.CommandLineRecoversCommand | volatility_mcp_server.py:101-102 | when no word contains a space, splitting the logged command line on spaces gives back the command vector |
| Runner.EffectiveTimeout | volatility_mcp_server.py:115 | a per-call timeout is used unless it is absent or zero, in which case the runner's default applies |
| Runner.ExitCodeSelectsStream | volatility_mcp_server.py:126-134 | exit code 0 returns stdout whatever stderr holds; a non-zero code returns a "Command failed" text that does not depend on stdout |
| Runner.ReportMarkers | volatility_mcp_server.py:120-139 | timeout, failure and exception reports are told apart by their leading characters |
| Runner.ExitReportInjective | volatility_mcp_server.py:128 | the "<code>: <stderr>" body of a failure report determines both the exit code and the stderr text |
| Runner.FailureReportsDetermineOutcome | volatility_mcp_server.py:114-139 | two failing outcomes that give the same report were the same kind of failure, with the same exit code and stderr or the same exception message |
| Runner.ValidatePaths | volatility_mcp_server.py:72-84 | no error iff python, script and directory all exist; otherwise a FileNotFoundError names the first missing one, in checking order, with "<name> path does not exist: <path>" |
| Runner.NewRunner | volatility_mcp_server.py:35-84 | construction succeeds iff all three paths exist, keeping the four fields; otherwise it raises the FileNotFoundError "<name> path does not exist: <path>" for the first missing one, in the order python, script, directory |
| BasePlugin.ValidationSentinelIsExact | plugins/base_plugin.py:11-16 | validation starts with "Error" iff the resolved path is not a regular file; then it is the not-found text, otherwise it is exactly the resolved path |
| BasePlugin.ValidateMemoryDump | plugins/base_plugin.py:11-16 | the result is the resolved path exactly when it names a regular file; otherwise it is the not-found text quoting the resolved path |
| BasePlugin.ArgVector | plugins/windows/system_plugins.py:27-36 | every vector has 3 to 5 words: "-f", the validated path, then the selector, or for PluginHelp the caller's plugin name |
| BasePlugin.Run | plugins/windows/memory_plugins.py:17-22 | awaiting run raises exactly when a required argument is missing, with that parameter's TypeError; otherwise it returns the runner's reply for the class's vector on the resolved path, or the not-found text when the path is not a regular file |
| BasePlugin.Plan | plugins/windows/memory_plugins.py:17-22 | a plugin raises iff a required parameter is missing, and then the error is that parameter's TypeError; otherwise it spawns iff the resolved path is a regular file, with exactly the class's vector on that path, and replies with the not-found text if not |
| BasePlugin.ValidationErrorSkipsRunner | plugins/windows/system_plugins.py:7-12 | for a missing dump file the result does not depend on what the process would have done |
| BasePlugin.RunnerOutputIsReturned | plugins/windows/process_plugins.py:7-19 | for an existing dump file the plugin spawns the class's vector on the resolved path, and its result is the runner's reply for that vector |
| BasePlugin.ArgVectorShape | plugins/windows/system_plugins.py:27-36 | every vector is "-f", the path, the selector, then the flags; path-only and defaulted forms have 3 words, and a given pid gives 5 |
| BasePlugin.KwArgsIgnored | plugins/windows/process_plugins.py:7-19 | for classes that take `kw_args`, the vector is the same whatever keyword arguments are given |
| BasePlugin.ArgVectorDeterminesRequest | plugins/windows/system_plugins.py:27-36 | for forms that use their argument, equal vectors come from the same path and the same argument |
| WindowsPlugins.ExportList | plugins/windows/__init__.py:8-26 | the windows export list has 17 distinct names, from PsList to ResidentData, including MemMap and RegistryPrintKey |
| WindowsPlugins.ExportsResolve | plugins/windows/__init__.py:1-26 | every exported name is bound in the package namespace to the class of that name, and no other plugin class is bound |
| WindowsPlugins.ArgumentPluginsExported | plugins/windows/__init__.py:8-26 | MemMap and RegistryPrintKey are exported and bound to the classes that need a pid and a key |
| WindowsPlugins.SelectorsArePrefixed | plugins/windows/system_plugins.py:4-70 | every windows class has a selector that starts with "windows." |
| WindowsPlugins.ProcessPluginVectors | plugins/windows/process_plugins.py:4-47 | PsList, PsTree and PsScan pass "-f", the path and their selector, and ignore keyword arguments |
| WindowsPlugins.MemoryPluginVectors | plugins/windows/memory_plugins.py:4-22 | Malfind passes path and selector; MemMap requires pid and passes "--pid" with the decimal pid |
| WindowsPlugins.NetworkPluginVectors | plugins/windows/network_plugins.py:4-12 | NetScan passes path and selector and accepts no argument of any kind after the path |
| WindowsPlugins.RegistryPluginVectors | plugins/windows/registry_plugins.py:4-22 | HiveList passes path and selector; PrintKey requires key and passes "--key" with it |
| WindowsPlugins.SystemPluginVectors | plugins/windows/system_plugins.py:4-70 | SvcScan, CmdLine, FileScan and Info pass only path and selector; DllList and Handles add "--pid" only when given a pid |
| WindowsPlugins.DiskPluginVectors | plugins/windows/disk_plugins.py:4-35 | ADS, MFTScan and ResidentData pass path and their mftscan selector whatever keyword arguments are given |
| MacPlugins.ExportList | plugins/mac/__init__.py:9-33 | the mac export list has 23 distinct names, from PsList to VFSevents |
| MacPlugins.ExportsResolve | plugins/mac/__init__.py:1-33 | every exported name is bound to the class of that name, and no other plugin class is bound |
| MacPlugins.SelectorsArePrefixed | plugins/mac/process_plugins.py:4-323 | every mac class takes keyword arguments and has a selector that starts with "mac." |
| MacPlugins.SelectorsDistinct | plugins/mac/process_plugins.py:4-323 | no two mac classes run the same Volatility plugin |
| MacPlugins.KwArgsNeverConsulted | plugins/mac/process_plugins.py:4-323 | every mac class passes exactly "-f", the path and its selector, whatever keyword arguments are given |
| MacPlugins.NotableSelectors | plugins/mac/process_plugins.py:159-251 | List_Files and Lsof share a description but run different plugins; Maps runs mac.proc_maps.Maps |
| LinuxPlugins.CatalogueFacts | plugins/linux/process_plugins.py:4-471 | there are 47 linux classes, from PsList to VMCoreInfo, all path-only, with pairwise distinct selectors |
| LinuxPlugins.SelectorsArePrefixed | plugins/linux/process_plugins.py:4-471 | every linux class is path-only with a selector that starts with "linux." |
| LinuxPlugins.SelectorsDistinct | plugins/linux/process_plugins.py:4-471 | no two linux classes run the same Volatility plugin |
| LinuxPlugins.VectorsArePathOnly | plugins/linux/process_plugins.py:4-471 | every linux class passes exactly "-f", the path and its selector |
| LinuxPlugins.NotableSelectors | plugins/linux/process_plugins.py:182-442 | the selectors whose Volatility name differs from the class name (ip.Addr and ip.Link, the three pagecache plugins, proc.Maps, tty_check, graphics.fbdev) are as written |
| CommonPlugins.ExportList | plugins/common/__init__.py:1-23 | the common export list has 10 distinct names; PluginHelp is neither exported nor bound, and the six unprefixed process classes are not bound in the package namespace |
| CommonPlugins.ExportsResolve | plugins/common/__init__.py:1-23 | every exported name is bound to the class of that name, and no other plugin class is bound |
| CommonPlugins.ExportsAreUndotted | plugins/common/__init__.py:6-23 | no common export contains a dot |
| CommonPlugins.FrameworkPluginVectors | plugins/common/framework_plugins.py:4-72 | the five framework classes pass path and selector, whatever keyword arguments are given |
| CommonPlugins.ScanPluginVectors | plugins/common/scan_plugins.py:4-32 | RegExScan, YaraScan and Vmscan pass path and selector |
| CommonPlugins.TimelinePluginVectors | plugins/common/timeline_plugins.py:4-22 | Timeliner and Timeline pass path and their timeliner selector |
| CommonPlugins.HelpPluginVector | plugins/common/help_plugins.py:3-14 | PluginHelp requires plugin_name and passes it, followed by "--help", in the selector position |
| CommonPlugins.ProcessPluginVectors | plugins/common/process_plugins.py:4-62 | the six unprefixed process classes pass path and their bare selector |
| Registry.Register | plugins/plugin_factory.py:11-13 | registering maps the name to the class, leaves every other entry alone and keeps the earlier order as a prefix |
| Registry.RegisterThenLookup | plugins/plugin_factory.py:11-20 | a registered name looks up to its class, other lookups are unchanged, and re-registering a known name keeps the order |
| Registry.Lookup | plugins/plugin_factory.py:16-19 | lookup succeeds iff the name is registered, with its class; otherwise ValueError "Plugin '<name>' not found" |
| Registry.Description | plugins/plugin_factory.py:26 | a description is never empty: it is the docstring or "No description available" |
| Registry.Describe | plugins/plugin_factory.py:22-28 | the listing has one pair per registered name, in insertion order, each with its class's description |
| Registry.DescribeListsRegistry | plugins/plugin_factory.py:22-28 | the listing has each registered name exactly once, and nothing else, each with its docstring or "No description available" when the docstring is missing or empty |
| Registry.FamiliesResolve | plugins/plugin_factory.py:30-60 | every name in the windows, mac and common export lists resolves in its package namespace |
| Registry.RegisterNames | plugins/plugin_factory.py:34-36 | bulk registration keeps the table well formed, and raises iff some name of the list is not an attribute of the package, with the AttributeError for such a name |
| Registry.RegisterFamily | plugins/plugin_factory.py:30-60 | registering a package's `__all__` raises iff some exported name does not resolve |
| Registry.RegisterNamesKeepsOrder | plugins/plugin_factory.py:34-36 | bulk registration only appends to the insertion order |
| Registry.RegisterNamesAppends | plugins/plugin_factory.py:34-36 | registering distinct, resolving names that are not yet registered appends their prefixed keys to the order, in list order |
| Registry.RegisterNamesFrame | plugins/plugin_factory.py:34-36 | bulk registration leaves every key it does not write unchanged |
| Registry.RegisterNamesLands | plugins/plugin_factory.py:34-36 | when every exported name resolves, registration succeeds and the prefixed name maps to the namespace's class |
| Registry.RegisterNamesResolved | plugins/plugin_factory.py:30-36 | all of the above at once: success, the prefixed names land, other keys and the earlier order are kept |
| Registry.RegisterNamesErrorPersists | plugins/plugin_factory.py:34-36 | once an export fails to resolve, the later names change nothing |
| Registry.RegisterNamesStopsAtMissing | plugins/plugin_factory.py:34-35 | the first unresolved export raises AttributeError for that name, and the table keeps the entries registered before it |
| Registry.RegisterExisting | plugins/plugin_factory.py:13 | registering a name again with the same class leaves the table unchanged |
| Registry.RegisterNamesIdempotent | plugins/plugin_factory.py:30-36 | running the same bulk registration twice gives the same table as running it once |
| Registry.PluginFactory.constructor | plugins/plugin_factory.py:8 | the table starts empty |
| Registry.PluginFactory.RegisterPlugin | plugins/plugin_factory.py:11-13 | the new table is the old one with the name registered |
| Registry.PluginFactory.GetPlugin | plugins/plugin_factory.py:15-20 | a plugin instance of the registered class bound to the runner, or ValueError "Plugin '<name>' not found" |
| Registry.PluginFactory.ListPlugins | plugins/plugin_factory.py:22-28 | the listing is the description of the current table |
| Registry.PluginFactory.RegisterExports | plugins/plugin_factory.py:30-60 | the loop's new table and error are those of bulk registration of the family |
| Registry.PluginFactory.RegisterWindowsPlugins | plugins/plugin_factory.py:30-36 | registers every windows export under "windows." without error |
| Registry.PluginFactory.RegisterLinuxPlugins | plugins/plugin_factory.py:38-44 | registers the linux exports under "linux.", or stops with the AttributeError of the first unresolved name |
| Registry.PluginFactory.RegisterMacPlugins | plugins/plugin_factory.py:46-52 | registers every mac export under "mac." without error |
| Registry.PluginFactory.RegisterCommonPlugins | plugins/plugin_factory.py:54-60 | registers every common export under its bare name without error |
| Server.RegisterAll | volatility_mcp_server.py:148-152 | registering families in sequence keeps the table well formed |
| Server.StartupTable | volatility_mcp_server.py:148-152 | the four registrations at import succeed iff every linux export resolves; the windows, mac and common packages always do |
| Server.RegisterAllLands | volatility_mcp_server.py:148-152 | for resolving families whose keys cannot clash, every family lands in full and keys no family writes are untouched |
| Server.PrefixesApart | plugins/plugin_factory.py:30-52 | families whose prefixes start with different characters never write the same key |
| Server.DottedApartFromUndotted | plugins/plugin_factory.py:54-60 | a dotted-prefix family never clashes with the unprefixed common family, whose exports have no dot |
| Server.StartupFamiliesApart | plugins/plugin_factory.py:30-60 | the windows, linux, mac and common families are pairwise apart |
| Server.StartupCatalogue | volatility_mcp_server.py:141-152 | if the linux exports resolve, start-up succeeds, all four families land and every key was written by one of them |
| Server.RegisterFourOrder | volatility_mcp_server.py:148-152 | four resolving, pairwise apart families with distinct exports, registered in sequence, leave their keys in the order: first family's exports, second's, third's, fourth's |
| Server.StartupOrder | volatility_mcp_server.py:148-152 | after start-up the key order, which list_plugins reports, is the windows, linux and mac names under their prefixes, each in `__all__` order, then the bare common names |
| Server.StartupFailsOnMissingLinuxName | plugins/plugin_factory.py:38-44 | the first unresolved linux export aborts start-up with "module 'plugins.linux' has no attribute '<name>'" |
| Server.Startup | volatility_mcp_server.py:141-152 | start-up builds a runner with timeout 60 iff the three paths exist and registration succeeds; the registry then holds the start-up catalogue; otherwise the error is the registration error, or the FileNotFoundError naming the first missing path |
| Server.ModuleRunnerTimesOut | volatility_mcp_server.py:141-146 | a call through the module's runner that times out reports "Command timed out after 60 seconds: " and the command line |
| Server.RunPlugin | volatility_mcp_server.py:166-184 | an unknown name gives the not-found text; a class with a required parameter gives "Error running plugin: " and the TypeError text; otherwise the reply is the runner's reply for the class's vector, or the dump-not-found text |
| Server.DispatchValidatesFirst | volatility_mcp_server.py:177-179 | for a missing dump file, run_plugin's reply starts with "Error" and does not depend on the process |
| Server.ArgumentPluginsNeverRun | volatility_mcp_server.py:177-184 | after start-up, windows.MemMap and windows.RegistryPrintKey always reply with the missing pid or key TypeError |
| Server.RequiredArgumentFails | volatility_mcp_server.py:178-184 | any registered class with a required parameter replies with the missing-argument text |
| Server.UndottedNamesAreUnprefixed | plugins/plugin_factory.py:54-60 | in a table written only by three dotted families and one unprefixed family, an undotted key is registered iff the unprefixed family exports it |
| Server.StartupUndottedNames | plugins/common/__init__.py:6-23 | after start-up, a name without a dot is registered iff it is a common export |
| Server.StartupUnexportedNamesUnknown | plugins/common/__init__.py:1-23 | after start-up, "PluginHelp" and "PsList" are unknown to run_plugin |
| Server.LinuxDispatch | plugins/plugin_factory.py:38-44 | in any table where a family with prefix "linux." has landed whole and whose namespace holds only linux classes (as after start-up, see Server.StartupLinux), each export is registered path-only under "linux."+name with a selector starting "linux.", and run_plugin runs exactly "-f", the resolved path and that selector, or replies that the file is missing |
| Server.StartupLinux | volatility_mcp_server.py:141-152 | when every name the linux package exports resolves, start-up succeeds and every linux export is registered under "linux."+name to the class its namespace binds |
| Server.StartupWindows | volatility_mcp_server.py:141-152 | when the linux exports resolve, start-up succeeds and every windows export is registered under "windows."+name to its class, even after the later families are registered |
| Server.StartupUnknownName | plugins/plugin_factory.py:16-19 | after start-up, a name with no dot that common does not export is unknown, and run_plugin replies with the "not found" message |
| Server.WindowsArgumentPluginsFail | volatility_mcp_server.py:177-184 | in any table where the windows family has landed, run_plugin on windows.MemMap and windows.RegistryPrintKey replies "Error running plugin: " followed by the missing-argument TypeError |
| Tools.IsMemoryDumpIgnoresCase | volatility_mcp_server.py:205-210 | the extension test does not depend on letter case |
| Tools.FileEntriesMembers | volatility_mcp_server.py:209-213 | a directory's entries are exactly "<root>/<file> (Size: …)" for its files with a memory-dump extension |
| Tools.DumpEntriesMembers | volatility_mcp_server.py:208-213 | the entries over the whole walk are exactly those of dump files in every walked directory |
| Tools.IsMemoryDump | volatility_mcp_server.py:205-210 | a name that ends in one of the eight extensions as written is taken, and a taken name is at least 4 characters long |
| Tools.ListMemoryDumps | volatility_mcp_server.py:186-218 | the listing is the directory error, "No memory dump files found in " and the directory, or the header followed by the entries joined by newlines, with the entries in walk order |
| Tools.Listing | volatility_mcp_server.py:197-218 | the reply starts with "Error: Directory not found at " iff the searched directory does not exist, with "No memory dump files found in " iff it exists and the walk finds no dump file, and with the header iff the walk finds some |
| Tools.CollectDumps | volatility_mcp_server.py:208-213 | the outer loop over the walk collects exactly the entries of every root, in walk order |
| Tools.CollectRootDumps | volatility_mcp_server.py:209-213 | the inner loop over one root's files collects one "path (Size: n MB)" entry per file with a memory-dump extension, in file order |
| Tools.ListingLines | volatility_mcp_server.py:215-218 | a non-empty listing is the header followed by lines that split back into the entries |
| Tools.PlanSymbols | volatility_mcp_server.py:234-252 | a download is planned exactly for a valid type whose `<symbols dir>/<type>` path does not exist yet |
| Tools.DownloadSymbols | volatility_mcp_server.py:220-275 | once a download is attempted, the reply starts with "Error" iff it failed, and a failure reply ends with the exception text |
| Tools.SymbolUrlsFollowBase | volatility_mcp_server.py:237-241 | each type's URL is the symbols base URL followed by "<type>.zip" |
| Tools.SymbolTypeGuard | volatility_mcp_server.py:234-235 | the reply starts with "Error: Invalid symbol type" iff the type is not windows, mac or linux |
| Tools.ValidTypeReplies | volatility_mcp_server.py:243-275 | a valid type never gets the invalid-type reply |
| Tools.CapitalizedTypes | volatility_mcp_server.py:252 | the three types capitalise to Windows, Mac and Linux |
| Tools.ExistingSymbolsNotFetched | volatility_mcp_server.py:250-252 | when the symbols are already extracted, the reply is "<Type> symbols already exist." whatever the download would do |
| Tools.FetchTargets | volatility_mcp_server.py:237-245 | a planned fetch uses the type's URL, a destination ending in "<type>.zip", and the symbols directory for extraction |

## Left out

- Subprocess execution, `asyncio` waiting and `process.kill()` are not modelled. A call's result is an input: an exit code with stdout and stderr, a timeout, or an exception message.
- UTF-8 decoding with replacement is not modelled. The outcome carries text that is already decoded.
- Logging and the logger set-up are not modelled, because they do not affect any reply.
- `str.lower` and `str.capitalize` are modelled on ASCII letters only. Other characters map to themselves.
- `Path.resolve`, `is_file`, `os.path.normpath`, `os.walk` and `os.path.getsize` with the `{:.2f}` MB formatting are parameters, because they read the file system. The `ValueError` that `resolve` can raise on a NUL byte is not modelled.
- The current directory is a parameter. This covers both the default argument of `list_memory_dumps` and the empty-argument fallback.
- `download_symbols` is not modelled end to end. The HTTP download, the writing of the archive, the zip extraction and the removal of the archive happen inside the `try` and are reduced to one download result. Its error text is an input.
- DownloadSymbols: `import requests` and `import zipfile` (volatility_mcp_server.py:231-232) run before the type check, and `os.makedirs` (248) runs before the existence check. Both are outside the `try`, so when either fails the tool raises instead of replying. The model assumes both succeed.
- ListMemoryDumps: `os.path.getsize` (volatility_mcp_server.py:212) raises for a listed name it cannot stat, such as a dangling symlink called `x.raw`, and then the tool raises instead of listing. The size renderer is total, so the model always produces a listing.
- ValidateMemoryDump: `Path.is_file` (plugins/base_plugin.py:14) lets a `PermissionError` through, and `run_plugin` then replies "Error running plugin: " with that error. The model treats every path that is not a regular file as not found.
- `BasePlugin.AbsolutePath` assumes POSIX paths: a resolved path starts with '/'. That is what makes the "Error" sentinel test exact.
- StartupOrder: the lemma assumes the linux export list has no repeated name. With a repeat, the repeated key keeps its first place and the order is shorter.
- `list_available_plugins` is covered only as far as its data. `json.dumps` formatting is left out; the data is `Registry.DescribeListsRegistry`.
- MCP registration, environment variables, `.env` loading and the `__main__` block are not modelled, because they are framework wiring.
- `plugins/linux/__init__.py` is not part of this model. The linux export list and namespace are parameters of start-up.
- The process-wide class attribute `PluginFactory._plugins` is modelled as a fresh factory object created by `Server.Startup`. Aliasing through the class object is not modelled.
- `BasePlugin.MissingArgumentError` uses the Python 3.10 wording of the missing-argument `TypeError`, which names the class as `<Class>.run()`.
- The agent set-up, logger and test scripts are not modelled, because they are clients of the server, not part of it.
