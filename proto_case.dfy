/**
 * The per-directory and per-case logic of the earlier prototype
 * `tests/juliet/testcases_small/CWE366_Race_Condition_Within_Thread/newtest.py`:
 * its looser name test, its `check_path` (which tests the bare entry name
 * for being a directory), the entry point taken before the first dot, the
 * fixed command line, and the hyphen marker.
 */
module ProtoCase {
  import opened Wrappers
  import opened Text
  import opened Seqs
  import opened Env
  import opened SummaryScan
  import opened SummaryCase

  /** `re.search('^CWE', f)`, `re.search('\.c$', f)` and no `re.search('w32', f)`. */
  predicate IsProtoCaseFile(f: string) {
    StartsWith(f, "CWE") && EndsWith(f, ".c") && !Contains(f, "w32")
  }

  /** Every name the later script accepts, the prototype accepts too. */
  lemma CaseFileNarrowed(f: string)
    ensures IsCaseFile(f) ==> IsProtoCaseFile(f)
  {
    if IsCaseFile(f) && EndsWith(f, "a.c") {
      assert f[|f| - 2..] == f[|f| - 3..][1..] == ".c";
    }
  }

  /** The prototype also accepts C files without the two-digit case number, which the later script skips. */
  lemma CaseFileWidened()
    ensures IsProtoCaseFile("CWE.c") && !IsCaseFile("CWE.c")
  {
    assert !IsDigit("CWE.c"[1]);
    assert "CWE.c"[..3] == "CWE";
    assert !Contains("CWE.c", "w32");
  }

  /** A name that fails the test is kept as a directory when `os.path.isdir` holds for the bare name. */
  function IsBareDir(fs: FileSystem): string -> bool {
    n => !IsProtoCaseFile(n) && IsDir(fs, n)
  }

  /** The prototype's `check_path(dir)`: `None` when `os.listdir(dir)` raises. */
  function ProtoScan(fs: FileSystem, dir: string): Option<Listing> {
    match ListDir(fs, dir)
    case None => None
    case Some(names) => Some(Listing(Filter(IsProtoCaseFile, names), Filter(IsBareDir(fs), names)))
  }

  function ProtoFilesOf(fs: FileSystem, dir: string): seq<string> {
    match ProtoScan(fs, dir)
    case None => []
    case Some(l) => l.files
  }

  function ProtoDirsOf(fs: FileSystem, dir: string): seq<string> {
    match ProtoScan(fs, dir)
    case None => []
    case Some(l) => l.dirs
  }

  /**
   * What the prototype's `check_path` does: it fails exactly on a path that
   * is not a directory; a name is a valid file iff it passes the looser
   * test; it is a directory iff it fails the test and the bare name, looked
   * up from the working directory rather than from `dir`, names a
   * directory; no name is in both lists, and each keeps the listing order.
   */
  lemma ProtoScanSpec(fs: FileSystem, dir: string, x: string)
    ensures ProtoScan(fs, dir).Some? <==> IsDir(fs, dir)
    ensures ProtoScan(fs, dir).Some? ==>
      var names := ListDir(fs, dir).value;
      var l := ProtoScan(fs, dir).value;
      (x in l.files <==> x in names && IsProtoCaseFile(x)) &&
      (x in l.dirs <==> x in names && !IsProtoCaseFile(x) && IsDir(fs, x)) &&
      !(x in l.files && x in l.dirs) &&
      IsSubsequence(l.files, names) && IsSubsequence(l.dirs, names)
  {
    if IsDir(fs, dir) {
      var names := ListDir(fs, dir).value;
      FilterMember(IsProtoCaseFile, names, x);
      FilterMember(IsBareDir(fs), names, x);
      FilterSubsequence(IsProtoCaseFile, names);
      FilterSubsequence(IsBareDir(fs), names);
    }
  }

  /** The prototype's `check_path`: the same loop as the later script's, with the bare-name directory test. */
  method ProtoCheckPath(fs: FileSystem, filepath: string) returns (r: Option<Listing>)
    ensures r == ProtoScan(fs, filepath)
  {
    var listed := ListDir(fs, filepath);
    if listed.None? {
      return None;
    }
    var files := listed.value;
    var vFiles: seq<string> := [];
    var dirs: seq<string> := [];
    var i := 0;
    while i < |files|
      invariant 0 <= i <= |files|
      invariant vFiles == Filter(IsProtoCaseFile, files[..i])
      invariant dirs == Filter(IsBareDir(fs), files[..i])
    {
      var f := files[i];
      FilterStep(IsProtoCaseFile, files, i);
      FilterStep(IsBareDir(fs), files, i);
      if IsProtoCaseFile(f) {
        vFiles := vFiles + [f];
      } else if IsDir(fs, f) {
        dirs := dirs + [f];
      }
      i := i + 1;
    }
    assert files[..i] == files;
    r := Some(Listing(vFiles, dirs));
  }

  /** `filename.split('.')[0] + mode`: the text before the first dot, then the mode. */
  function ProtoEntryPoint(filename: string, mode: string): (r: string)
    ensures |r| >= |mode| && r[|r| - |mode|..] == mode
    ensures var stem := r[..|r| - |mode|];
      StartsWith(filename, stem) && '.' !in stem && (stem == filename || filename[|stem|] == '.')
  {
    var r := Split(filename, '.')[0] + mode;
    assert r[..|r| - |mode|] == Split(filename, '.')[0];
    assert r[|r| - |mode|..] == mode;
    r
  }

  /** The prototype's entry point for a name whose first dot follows `stem`: the stem, then the mode. */
  lemma ProtoEntryPointOfStem(stem: string, ext: string, mode: string)
    requires '.' !in stem
    ensures ProtoEntryPoint(stem + "." + ext, mode) == stem + mode
  {
    BeforeFirstJoined(stem, '.', ext);
    assert stem + ['.'] + ext == stem + "." + ext;
  }

  /** For a name with one dot and no `a` before it, both scripts derive the same entry point. */
  lemma EntryPointsAgree(stem: string, mode: string)
    requires '.' !in stem && !EndsWith(stem, "a")
    ensures ProtoEntryPoint(stem + ".c", mode) == EntryPoint(stem + ".c", mode)
  {
    ProtoEntryPointOfStem(stem, "c", mode);
    assert stem + "." + "c" == stem + ".c";
    EntryPointOfStem(stem, mode);
  }

  /**
   * For the `a` part of a split case the prototype keeps the `a`, which the
   * later script drops: the two entry points differ.
   */
  lemma EntryPointsDiffer(stem: string, mode: string)
    requires '.' !in stem
    ensures ProtoEntryPoint(stem + "a.c", mode) == stem + "a" + mode
    ensures EntryPoint(stem + "a.c", mode) == stem + mode
    ensures ProtoEntryPoint(stem + "a.c", mode) != EntryPoint(stem + "a.c", mode)
  {
    ProtoEntryPointOfStem(stem + "a", "c", mode);
    assert stem + "a" + "." + "c" == stem + "a.c";
    EntryPointOfStem(stem, mode);
    assert |stem + "a" + mode| != |stem + mode|;
  }

  /** The analyser, four levels up from the case directory. */
  const ProtoGoblint := "../../../../goblint"

  /** The include path of the support files, quoted for the shell. */
  const ProtoSupport := "\"../../testcasesupport\""

  /** The prototype's fixed command line: analyser and include path relative to the case directory. */
  function ProtoCommand(filepath: string, func: string): string {
    ProtoGoblint + " " + filepath + " -I " + ProtoSupport + " --sets \"mainfun[+]\" " + func
  }

  function ProtoArguments(filepath: string, func: string): seq<string> {
    [ProtoGoblint, filepath, "-I", ProtoSupport, "--sets", "\"mainfun[+]\"", func]
  }

  /** The prototype's command line is its seven argument words joined by single spaces. */
  lemma ProtoCommandIsJoinedArguments(filepath: string, func: string)
    ensures ProtoCommand(filepath, func) == Join(" ", ProtoArguments(filepath, func))
  {
    var a := ProtoArguments(filepath, func);
    assert Join(" ", a[..1]) == ProtoGoblint;
    JoinSnoc(" ", a, 1);
    var j2 := Join(" ", a[..2]);
    JoinSnoc(" ", a, 2);
    JoinSnoc(" ", a, 3);
    var j4 := Join(" ", a[..4]);
    IncludeFlagWords(j2);
    assert j4 == j2 + " -I " + ProtoSupport;
    JoinSnoc(" ", a, 4);
    JoinSnoc(" ", a, 5);
    JoinSnoc(" ", a, 6);
    var j7 := Join(" ", a[..7]);
    SetsFlagWords(j4);
    assert j7 == j4 + " --sets \"mainfun[+]\" " + func;
    assert a[..7] == a;
  }

  /** When neither the path nor the entry point holds a space, splitting the command at spaces gives back the words. */
  lemma ProtoCommandSplits(filepath: string, func: string)
    requires ' ' !in filepath && ' ' !in func
    ensures Split(ProtoCommand(filepath, func), ' ') == ProtoArguments(filepath, func)
  {
    ProtoCommandIsJoinedArguments(filepath, func);
    var a := ProtoArguments(filepath, func);
    forall k | 0 <= k < |a| ensures ' ' !in a[k] {
    }
    SplitJoin(a, ' ');
  }

  /**
   * The prototype's `run_function`: `None` exactly when the run raised,
   * otherwise the captured standard output and nothing of the standard error.
   */
  function ProtoRunFunction(tool: Tool, filepath: string, filename: string, mode: string): (r: Option<string>)
    ensures var out := tool(ProtoCommand(filepath, ProtoEntryPoint(filename, mode)));
      r.Some? == out.Some? && (out.Some? ==> r.value == out.value.stdout)
  {
    match tool(ProtoCommand(filepath, ProtoEntryPoint(filename, mode)))
    case None => None
    case Some(out) => Some(out.stdout)
  }

  /**
   * Standard error is not captured: two analysers that fail on the same
   * commands and print the same standard output give the same result.
   */
  lemma ProtoRunIgnoresStderr(tool1: Tool, tool2: Tool, filepath: string, filename: string, mode: string)
    requires var cmd := ProtoCommand(filepath, ProtoEntryPoint(filename, mode));
      tool1(cmd).Some? == tool2(cmd).Some? &&
      (tool1(cmd).Some? ==> tool1(cmd).value.stdout == tool2(cmd).value.stdout)
    ensures ProtoRunFunction(tool1, filepath, filename, mode) == ProtoRunFunction(tool2, filepath, filename, mode)
  {
  }

  /** A run of nineteen hyphens, the prototype's sign of a finding. */
  const HyphenMarker := "-------------------"

  /** The prototype's cell: `X` exactly when the marker occurs somewhere in the output, `-` otherwise. */
  function ProtoSymbol(out: string): (cell: string)
    ensures cell == "X" || cell == "-"
    ensures cell == "X" <==> exists i :: OccursAt(out, HyphenMarker, i)
  {
    ContainsIff(out, HyphenMarker);
    if Contains(out, HyphenMarker) then "X" else "-"
  }

  /**
   * Read as a cell of the later script's table, a prototype cell is always
   * `X` or `-`: detected exactly when the hyphen marker occurs, and never
   * the `?` of a failed run, which the prototype does not catch.
   */
  lemma ProtoCellIff(out: string)
    ensures ParseCell(ProtoSymbol(out)) == Some(if Contains(out, HyphenMarker) then Detected else Clean)
    ensures ParseCell(ProtoSymbol(out)) != Some(Unresolved)
  {
  }
}
