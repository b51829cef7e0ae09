/** The two file-system tools of volatility_mcp_server.py:
    `list_memory_dumps` and the checks `download_symbols` makes before it
    downloads anything.

    The directory walk, file sizes, path normalisation and the download are
    inputs: `walk` is what `os.walk` yields for the searched directory (each
    root with its file names), `size` gives the "%.2f"-formatted size in MB
    of a path, `normpath` is `os.path.normpath`, `dirs` the set of existing
    directories and `existing` the set of existing paths. */
module Tools {
  import opened Builtins

  // ---------------------------------------------------------------------
  // list_memory_dumps

  /** The file extensions taken for memory dumps, as written in the source. */
  const MemoryExtensions: seq<string> := [".raw", ".vmem", ".dmp", ".mem", ".bin", ".img", ".001", ".dump"]

  /** `any(file.lower().endswith(ext) for ext in memory_extensions)`: a
      name ending in one of the extensions as written is taken, and a taken
      name is at least as long as the shortest extension. */
  function IsMemoryDump(file: string): (taken: bool)
    ensures forall i :: 0 <= i < |MemoryExtensions| && EndsWith(file, MemoryExtensions[i]) ==> taken
    ensures taken ==> |file| >= 4
  {
    VerbatimExtensionsTaken(file);
    exists i :: 0 <= i < |MemoryExtensions| && EndsWith(Lower(file), MemoryExtensions[i])
  }

  /** The extensions are written in lower case and are at least 4 long. */
  lemma ExtensionsAreLower()
    ensures forall i, k :: 0 <= i < |MemoryExtensions| && 0 <= k < |MemoryExtensions[i]|
                          ==> LowerChar(MemoryExtensions[i][k]) == MemoryExtensions[i][k]
    ensures forall i :: 0 <= i < |MemoryExtensions| ==> |MemoryExtensions[i]| >= 4
  {
  }

  /** Lower-casing keeps a suffix that has no upper-case letter. */
  lemma LowerKeepsSuffix(file: string, ext: string)
    requires EndsWith(file, ext)
    requires forall k :: 0 <= k < |ext| ==> LowerChar(ext[k]) == ext[k]
    ensures EndsWith(Lower(file), ext)
  {
    var d := |file| - |ext|;
    forall k | 0 <= k < |ext| ensures Lower(file)[d..][k] == ext[k] {
      assert file[d..][k] == ext[k];
    }
  }

  lemma VerbatimExtensionsTaken(file: string)
    ensures forall i :: 0 <= i < |MemoryExtensions| && EndsWith(file, MemoryExtensions[i])
                        ==> EndsWith(Lower(file), MemoryExtensions[i])
    ensures forall i :: 0 <= i < |MemoryExtensions| && EndsWith(Lower(file), MemoryExtensions[i]) ==> |file| >= 4
  {
    ExtensionsAreLower();
    forall i | 0 <= i < |MemoryExtensions| && EndsWith(file, MemoryExtensions[i])
      ensures EndsWith(Lower(file), MemoryExtensions[i])
    {
      LowerKeepsSuffix(file, MemoryExtensions[i]);
    }
  }

  lemma LowerUpper(s: string)
    ensures Lower(Upper(s)) == Lower(s) && Lower(Lower(s)) == Lower(s)
  {
    assert forall k :: 0 <= k < |s| ==> LowerChar(UpperChar(s[k])) == LowerChar(s[k]);
    assert forall k :: 0 <= k < |s| ==> LowerChar(LowerChar(s[k])) == LowerChar(s[k]);
  }

  /** The extension test ignores the case of ASCII letters: a name, its
      upper-case and its lower-case form are all taken or all skipped. */
  lemma IsMemoryDumpIgnoresCase(file: string)
    ensures IsMemoryDump(Upper(file)) <==> IsMemoryDump(file)
    ensures IsMemoryDump(Lower(file)) <==> IsMemoryDump(file)
  {
    LowerUpper(file);
  }

  /** One line of the listing: the joined path and its size. */
  function Entry(root: string, file: string, size: string -> string): string {
    var fullPath := PathJoin(root, file);
    fullPath + " (Size: " + size(fullPath) + " MB)"
  }

  /** The lines for the memory dumps among the files of one root, in order. */
  function FileEntries(root: string, files: seq<string>, size: string -> string): seq<string>
    decreases |files|
  {
    if files == [] then []
    else
      var file := files[|files| - 1];
      FileEntries(root, files[..|files| - 1], size) + (if IsMemoryDump(file) then [Entry(root, file, size)] else [])
  }

  /** The lines for the whole walk, root after root. */
  function DumpEntries(walk: seq<(string, seq<string>)>, size: string -> string): seq<string>
    decreases |walk|
  {
    if walk == [] then []
    else DumpEntries(walk[..|walk| - 1], size) + FileEntries(walk[|walk| - 1].0, walk[|walk| - 1].1, size)
  }

  /** Exactly the memory dumps of one root are listed. */
  lemma {:induction false} FileEntriesMembers(root: string, files: seq<string>, size: string -> string)
    ensures forall e :: e in FileEntries(root, files, size) <==>
              exists j :: 0 <= j < |files| && IsMemoryDump(files[j]) && e == Entry(root, files[j], size)
    decreases |files|
  {
    if files != [] {
      var init := files[..|files| - 1];
      FileEntriesMembers(root, init, size);
      forall e | e in FileEntries(root, files, size)
        ensures exists j :: 0 <= j < |files| && IsMemoryDump(files[j]) && e == Entry(root, files[j], size)
      {
        if e in FileEntries(root, init, size) {
          var j :| 0 <= j < |init| && IsMemoryDump(init[j]) && e == Entry(root, init[j], size);
          assert files[j] == init[j];
        } else {
          assert IsMemoryDump(files[|files| - 1]) && e == Entry(root, files[|files| - 1], size);
        }
      }
      forall j | 0 <= j < |files| && IsMemoryDump(files[j])
        ensures Entry(root, files[j], size) in FileEntries(root, files, size)
      {
        if j < |files| - 1 {
          assert files[j] == init[j];
        }
      }
    }
  }

  /** Exactly the memory dumps of the whole walk are listed: a line is in
      the listing iff it is the entry of some file, under some root, whose
      name has a memory-dump extension. */
  lemma {:induction false} DumpEntriesMembers(walk: seq<(string, seq<string>)>, size: string -> string)
    ensures forall e :: e in DumpEntries(walk, size) <==>
              exists i, j :: 0 <= i < |walk| && 0 <= j < |walk[i].1|
                             && IsMemoryDump(walk[i].1[j]) && e == Entry(walk[i].0, walk[i].1[j], size)
    decreases |walk|
  {
    if walk != [] {
      var init := walk[..|walk| - 1];
      var (root, files) := walk[|walk| - 1];
      DumpEntriesMembers(init, size);
      FileEntriesMembers(root, files, size);
      forall e | e in DumpEntries(walk, size)
        ensures exists i, j :: 0 <= i < |walk| && 0 <= j < |walk[i].1|
                               && IsMemoryDump(walk[i].1[j]) && e == Entry(walk[i].0, walk[i].1[j], size)
      {
        if e in DumpEntries(init, size) {
          var i, j :| 0 <= i < |init| && 0 <= j < |init[i].1| && IsMemoryDump(init[i].1[j]) && e == Entry(init[i].0, init[i].1[j], size);
          assert walk[i] == init[i];
          assert 0 <= j < |walk[i].1| && IsMemoryDump(walk[i].1[j]) && e == Entry(walk[i].0, walk[i].1[j], size);
        } else {
          assert e in FileEntries(root, files, size);
          var j :| 0 <= j < |files| && IsMemoryDump(files[j]) && e == Entry(root, files[j], size);
          var last := |walk| - 1;
          assert walk[last] == (root, files);
          assert 0 <= j < |walk[last].1| && IsMemoryDump(walk[last].1[j]) && e == Entry(walk[last].0, walk[last].1[j], size);
        }
      }
      forall i, j | 0 <= i < |walk| && 0 <= j < |walk[i].1| && IsMemoryDump(walk[i].1[j])
        ensures Entry(walk[i].0, walk[i].1[j], size) in DumpEntries(walk, size)
      {
        if i < |walk| - 1 {
          assert walk[i] == init[i];
          assert Entry(init[i].0, init[i].1[j], size) in DumpEntries(init, size);
        } else {
          assert walk[i] == (root, files);
          assert Entry(root, files[j], size) in FileEntries(root, files, size);
        }
      }
    }
  }

  const DirectoryNotFoundPrefix: string := "Error: Directory not found at "
  const NoDumpsPrefix: string := "No memory dump files found in "
  const DumpsHeader: string := "Found memory dump files:\n"

  /** The directory `list_memory_dumps` searches: the current directory for
      an empty argument, normalised. */
  function SearchDir(searchDir: string, cwd: string, normpath: string -> string): string {
    normpath(if searchDir == "" then cwd else searchDir)
  }

  /** What `list_memory_dumps` returns. */
  function Listing(searchDir: string, cwd: string, normpath: string -> string, dirs: set<string>,
                   walk: seq<(string, seq<string>)>, size: string -> string): (out: string)
    ensures StartsWith(out, DirectoryNotFoundPrefix) <==> SearchDir(searchDir, cwd, normpath) !in dirs
    ensures StartsWith(out, NoDumpsPrefix) <==> SearchDir(searchDir, cwd, normpath) in dirs && DumpEntries(walk, size) == []
    ensures StartsWith(out, DumpsHeader) <==> SearchDir(searchDir, cwd, normpath) in dirs && DumpEntries(walk, size) != []
  {
    var d := SearchDir(searchDir, cwd, normpath);
    if d !in dirs then
      ReplyKind(DirectoryNotFoundPrefix, d, NoDumpsPrefix, DumpsHeader);
      DirectoryNotFoundPrefix + d
    else
      var entries := DumpEntries(walk, size);
      if entries == [] then
        ReplyKind(NoDumpsPrefix, d, DirectoryNotFoundPrefix, DumpsHeader);
        NoDumpsPrefix + d
      else
        ReplyKind(DumpsHeader, Join(entries, '\n'), DirectoryNotFoundPrefix, NoDumpsPrefix);
        DumpsHeader + Join(entries, '\n')
  }

  /** A reply made of one of the three prefixes starts with it and with
      neither of the others: they differ in their first character. */
  lemma ReplyKind(p: string, rest: string, q1: string, q2: string)
    requires |p| > 0 && |q1| > 0 && |q2| > 0 && p[0] != q1[0] && p[0] != q2[0]
    ensures StartsWith(p + rest, p) && !StartsWith(p + rest, q1) && !StartsWith(p + rest, q2)
  {
    ConcatEnds(p, rest);
    FirstCharClash(p + rest, p, q1);
    FirstCharClash(p + rest, p, q2);
  }

  /** `list_memory_dumps`: the nested loops over the walk, appending one
      line per memory dump. */
  method ListMemoryDumps(searchDir: string, cwd: string, normpath: string -> string, dirs: set<string>,
                         walk: seq<(string, seq<string>)>, size: string -> string)
    returns (out: string)
    ensures out == Listing(searchDir, cwd, normpath, dirs, walk, size)
  {
    var d := searchDir;
    if d == "" {
      d := cwd;
    }
    d := normpath(d);
    if d !in dirs {
      return DirectoryNotFoundPrefix + d;
    }
    var memoryFiles := CollectDumps(walk, size);
    if memoryFiles == [] {
      return NoDumpsPrefix + d;
    }
    return DumpsHeader + Join(memoryFiles, '\n');
  }

  /** The outer loop of `list_memory_dumps` over `os.walk`: the lines of
      each root in turn. */
  method CollectDumps(walk: seq<(string, seq<string>)>, size: string -> string) returns (memoryFiles: seq<string>)
    ensures memoryFiles == DumpEntries(walk, size)
  {
    memoryFiles := [];
    var i := 0;
    while i < |walk|
      invariant 0 <= i <= |walk|
      invariant memoryFiles == DumpEntries(walk[..i], size)
    {
      var lines := CollectRootDumps(walk[i].0, walk[i].1, size);
      DumpEntriesStep(walk, i, size);
      memoryFiles := memoryFiles + lines;
      i := i + 1;
    }
    assert walk[..i] == walk;
  }

  /** The inner loop: one line per memory dump among the files of one root,
      in order. */
  method CollectRootDumps(root: string, files: seq<string>, size: string -> string) returns (lines: seq<string>)
    ensures lines == FileEntries(root, files, size)
  {
    lines := [];
    var j := 0;
    while j < |files|
      invariant 0 <= j <= |files|
      invariant lines == FileEntries(root, files[..j], size)
    {
      var file := files[j];
      FileEntriesStep(root, files, j, size);
      if IsMemoryDump(file) {
        var fullPath := PathJoin(root, file);
        lines := lines + [fullPath + " (Size: " + size(fullPath) + " MB)"];
      }
      j := j + 1;
    }
    assert files[..j] == files;
  }

  /** One more file of a root adds its entry when it is a memory dump. */
  lemma FileEntriesStep(root: string, files: seq<string>, j: nat, size: string -> string)
    requires j < |files|
    ensures FileEntries(root, files[..j + 1], size)
            == FileEntries(root, files[..j], size) + (if IsMemoryDump(files[j]) then [Entry(root, files[j], size)] else [])
  {
    assert files[..j + 1][..j] == files[..j];
  }

  /** One more root of the walk adds its files' entries. */
  lemma DumpEntriesStep(walk: seq<(string, seq<string>)>, i: nat, size: string -> string)
    requires i < |walk|
    ensures DumpEntries(walk[..i + 1], size) == DumpEntries(walk[..i], size) + FileEntries(walk[i].0, walk[i].1, size)
  {
    assert walk[..i + 1][..i] == walk[..i];
  }

  /** When dumps are found, the reply is the header followed by one line
      per dump: splitting the rest at newlines gives the entries back, as
      long as no path or size text holds a newline. */
  lemma ListingLines(searchDir: string, cwd: string, normpath: string -> string, dirs: set<string>,
                     walk: seq<(string, seq<string>)>, size: string -> string)
    requires SearchDir(searchDir, cwd, normpath) in dirs
    requires DumpEntries(walk, size) != []
    requires forall e :: e in DumpEntries(walk, size) ==> '\n' !in e
    ensures var out := Listing(searchDir, cwd, normpath, dirs, walk, size);
            && StartsWith(out, DumpsHeader)
            && Split(out[|DumpsHeader|..], '\n') == DumpEntries(walk, size)
  {
    var entries := DumpEntries(walk, size);
    var out := Listing(searchDir, cwd, normpath, dirs, walk, size);
    assert out == DumpsHeader + Join(entries, '\n');
    assert out[..|DumpsHeader|] == DumpsHeader;
    assert out[|DumpsHeader|..] == Join(entries, '\n');
    forall k | 0 <= k < |entries| ensures '\n' !in entries[k] {
      assert entries[k] in entries;
    }
    SplitJoin(entries, '\n');
  }

  // ---------------------------------------------------------------------
  // download_symbols

  const SymbolTypes: seq<string> := ["windows", "mac", "linux"]

  /** The download location of each symbol pack. */
  const SymbolUrls: map<string, string> := map[
    "windows" := "https://downloads.volatilityfoundation.org/volatility3/symbols/windows.zip",
    "mac" := "https://downloads.volatilityfoundation.org/volatility3/symbols/mac.zip",
    "linux" := "https://downloads.volatilityfoundation.org/volatility3/symbols/linux.zip"
  ]

  const InvalidTypePrefix: string := "Error: Invalid symbol type '"

  /** What `download_symbols` does before the network: answer at once, or
      fetch `url` to `destination` and extract it into `extractionDir`. */
  datatype SymbolsStep =
    | Answer(text: string)
    | Fetch(url: string, destination: string, extractionDir: string)

  /** The type check, then the "already exist" check on
      `<symbols dir>/<type>`. */
  function PlanSymbols(symbolType: string, symbolsDir: string, existing: set<string>): (step: SymbolsStep)
    ensures step.Fetch? <==> symbolType in SymbolTypes && PathJoin(symbolsDir, symbolType) !in existing
  {
    if symbolType !in SymbolTypes then
      Answer(InvalidTypePrefix + symbolType + "'. Choose from: windows, mac, linux")
    else if PathJoin(symbolsDir, symbolType) in existing then
      Answer(Capitalize(symbolType) + " symbols already exist.")
    else
      Fetch(SymbolUrls[symbolType], PathJoin(symbolsDir, symbolType + ".zip"), symbolsDir)
  }

  /** `download_symbols`: `download` is how the fetch and extraction ended,
      `Err(str(e))` for any exception. */
  function DownloadSymbols(symbolType: string, symbolsDir: string, existing: set<string>,
                           download: Result<(), string>): (out: string)
    ensures PlanSymbols(symbolType, symbolsDir, existing).Fetch? ==> (StartsWith(out, "Error") <==> download.Err?)
    ensures PlanSymbols(symbolType, symbolsDir, existing).Fetch? && download.Err? ==> EndsWith(out, download.error)
  {
    match PlanSymbols(symbolType, symbolsDir, existing)
    case Answer(text) => text
    case Fetch(_, _, _) =>
      if download.Ok? then
        DownloadedReply(symbolType);
        "Successfully downloaded and extracted " + symbolType + " symbols."
      else
        FailedDownloadReply(download.error);
        "Error downloading symbols: " + download.error
  }

  /** The success reply of a download is not an error reply. */
  lemma DownloadedReply(symbolType: string)
    ensures !StartsWith("Successfully downloaded and extracted " + symbolType + " symbols.", "Error")
  {
    var out := "Successfully downloaded and extracted " + symbolType + " symbols.";
    ConcatEnds("Successfully downloaded and extracted ", symbolType + " symbols.");
    assert "Successfully downloaded and extracted " + symbolType + " symbols."
        == "Successfully downloaded and extracted " + (symbolType + " symbols.");
    FirstCharClash(out, "Successfully downloaded and extracted ", "Error");
  }

  /** The failure reply of a download is an error reply ending with the
      exception text. */
  lemma FailedDownloadReply(error: string)
    ensures StartsWith("Error downloading symbols: " + error, "Error")
    ensures EndsWith("Error downloading symbols: " + error, error)
  {
    ConcatEnds("Error downloading symbols: ", error);
    assert ("Error downloading symbols: " + error)[..5] == "Error";
  }

  /** Each pack is fetched from the common base URL followed by the type
      name and ".zip". */
  lemma SymbolUrlsFollowBase(symbolType: string)
    requires symbolType in SymbolTypes
    ensures symbolType in SymbolUrls
    ensures SymbolUrls[symbolType] == "https://downloads.volatilityfoundation.org/volatility3/symbols/" + symbolType + ".zip"
  {
  }

  /** Only the three known types get past the guard: the reply names the
      invalid type exactly when it is not one of them, and then nothing is
      looked at or downloaded. */
  lemma SymbolTypeGuard(symbolType: string, symbolsDir: string, existing: set<string>, download: Result<(), string>)
    ensures symbolType !in SymbolTypes <==> StartsWith(DownloadSymbols(symbolType, symbolsDir, existing, download), InvalidTypePrefix)
    ensures symbolType !in SymbolTypes ==> PlanSymbols(symbolType, symbolsDir, existing).Answer?
  {
    if symbolType in SymbolTypes {
      ValidTypeReplies(symbolType, symbolsDir, existing, download);
    }
  }

  /** The three replies a known type can get, none of which starts like the
      invalid-type error. */
  lemma ValidTypeReplies(symbolType: string, symbolsDir: string, existing: set<string>, download: Result<(), string>)
    requires symbolType in SymbolTypes
    ensures !StartsWith(DownloadSymbols(symbolType, symbolsDir, existing, download), InvalidTypePrefix)
  {
    if PathJoin(symbolsDir, symbolType) in existing {
      ExistingReplyIsValid(symbolType);
    } else if download.Ok? {
      SuccessReplyIsValid(symbolType);
    } else {
      FailureReplyIsValid(download.error);
    }
  }

  lemma ExistingReplyIsValid(symbolType: string)
    requires symbolType in SymbolTypes
    ensures !StartsWith(Capitalize(symbolType) + " symbols already exist.", InvalidTypePrefix)
  {
    var out := Capitalize(symbolType) + " symbols already exist.";
    assert symbolType[0] == 'w' || symbolType[0] == 'm' || symbolType[0] == 'l';
    assert out[0] == UpperChar(symbolType[0]);
    DiffersFromInvalidPrefix(out, 0);
  }

  lemma SuccessReplyIsValid(symbolType: string)
    ensures !StartsWith("Successfully downloaded and extracted " + symbolType + " symbols.", InvalidTypePrefix)
  {
    DiffersFromInvalidPrefix("Successfully downloaded and extracted " + symbolType + " symbols.", 0);
  }

  lemma FailureReplyIsValid(error: string)
    ensures !StartsWith("Error downloading symbols: " + error, InvalidTypePrefix)
  {
    DiffersFromInvalidPrefix("Error downloading symbols: " + error, 5);
  }

  /** A text that differs from the invalid-type prefix at some position does
      not start with it. */
  lemma DiffersFromInvalidPrefix(out: string, k: nat)
    requires k < |out| && k < |InvalidTypePrefix| && out[k] != InvalidTypePrefix[k]
    ensures !StartsWith(out, InvalidTypePrefix)
  {
  }

  /** The three type names with a capital first letter. */
  lemma CapitalizedTypes()
    ensures Capitalize("windows") == "Windows"
    ensures Capitalize("mac") == "Mac"
    ensures Capitalize("linux") == "Linux"
  {
    CapitalizeLowerWord("windows");
    CapitalizeLowerWord("mac");
    CapitalizeLowerWord("linux");
  }

  /** A word of lower-case letters capitalises to its first letter in upper
      case followed by the rest unchanged. */
  lemma CapitalizeLowerWord(s: string)
    requires |s| > 0 && forall k :: 0 <= k < |s| ==> 'a' <= s[k] <= 'z'
    ensures Capitalize(s) == [UpperChar(s[0])] + s[1..]
  {
    assert Lower(s[1..]) == s[1..];
  }

  /** A pack already extracted is never fetched again: the reply names it
      with a capital letter, whatever the download would have done. */
  lemma ExistingSymbolsNotFetched(symbolType: string, symbolsDir: string, existing: set<string>,
                                  d1: Result<(), string>, d2: Result<(), string>)
    requires symbolType in SymbolTypes && PathJoin(symbolsDir, symbolType) in existing
    ensures DownloadSymbols(symbolType, symbolsDir, existing, d1) == DownloadSymbols(symbolType, symbolsDir, existing, d2)
                                                               == Capitalize(symbolType) + " symbols already exist."
  {
  }

  /** A fetch goes to the pack's URL and saves `<type>.zip` in the symbols
      directory, which is also where it is extracted. */
  lemma FetchTargets(symbolType: string, symbolsDir: string, existing: set<string>)
    requires PlanSymbols(symbolType, symbolsDir, existing).Fetch?
    ensures var step := PlanSymbols(symbolType, symbolsDir, existing);
            && step.url == "https://downloads.volatilityfoundation.org/volatility3/symbols/" + symbolType + ".zip"
            && EndsWith(step.destination, symbolType + ".zip")
            && step.extractionDir == symbolsDir
  {
    SymbolUrlsFollowBase(symbolType);
  }
}
