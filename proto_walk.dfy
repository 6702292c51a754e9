/**
 * The top level of the earlier prototype
 * `tests/juliet/testcases_small/CWE366_Race_Condition_Within_Thread/newtest.py`:
 * from the working directory `.`, the same two-level walk as the later
 * script, but in listing order, with the bare-name directory test, without
 * a table of contents, and ended by the first failure, which leaves no
 * `table_2.html` behind.
 */
module ProtoWalk {
  import opened Wrappers
  import opened Text
  import opened Seqs
  import opened Env
  import opened SummaryScan
  import opened SummaryCase
  import opened SummaryWalk
  import opened ProtoCase
  import opened ProtoReport

  /** `path = '.'`: the prototype always starts from the working directory. */
  const ProtoRoot := "."

  /** The initial `table`: the heading of the page. */
  const ProtoTitle := "<p style=\"font-size:30px\">RESULTS</p>"

  /** One visited directory: `check_path`, then `goblint_files` when it found valid files. */
  function ProtoVisit(tool: Tool, fs: FileSystem, state: Option<string>, dir: string): Option<string> {
    match state
    case None => None
    case Some(table) =>
      match ProtoScan(fs, dir)
      case None => None
      case Some(l) => if |l.files| > 0 then Extend(table, ProtoSection(tool, dir, l.files)) else Some(table)
  }

  /** The visits of the directories `dirs`, in that order. */
  function ProtoVisitAll(tool: Tool, fs: FileSystem, state: Option<string>, dirs: seq<string>): Option<string>
    decreases |dirs|
  {
    if dirs == [] then state
    else ProtoVisit(tool, fs, ProtoVisitAll(tool, fs, state, dirs[..|dirs| - 1]), dirs[|dirs| - 1])
  }

  /** A directory of the root level followed by its own directories, in listing order. */
  function ProtoGroup(fs: FileSystem, dir: string): seq<string> {
    [dir] + Subpaths(dir, ProtoDirsOf(fs, dir))
  }

  function ProtoGroups(fs: FileSystem, root: string, names: seq<string>): seq<string>
    decreases |names|
  {
    if names == [] then []
    else ProtoGroups(fs, root, names[..|names| - 1]) + ProtoGroup(fs, root + "/" + names[|names| - 1])
  }

  /** Every directory the prototype visits, in the order it visits them. */
  function ProtoCandidates(fs: FileSystem, root: string): seq<string> {
    [root] + ProtoGroups(fs, root, ProtoDirsOf(fs, root))
  }

  /** The contents of `table_2.html`, or `None` when the script ends with an exception first. */
  function ProtoSummarize(tool: Tool, fs: FileSystem): Option<string> {
    ProtoVisitAll(tool, fs, Some(ProtoTitle), ProtoCandidates(fs, ProtoRoot))
  }

  /** A visit goes through: the directory can be listed and, when it holds cases, every run returns. */
  predicate VisitOk(tool: Tool, fs: FileSystem, d: string) {
    ProtoScan(fs, d).Some? &&
    (|ProtoFilesOf(fs, d)| > 0 ==> ProtoSection(tool, d, ProtoFilesOf(fs, d)).Some?)
  }

  /** Every visit of `dirs` goes through. */
  predicate AllVisitsOk(tool: Tool, fs: FileSystem, dirs: seq<string>) {
    forall d :: d in dirs ==> VisitOk(tool, fs, d)
  }

  /** What a visit that goes through adds to the page. */
  function SectionText(tool: Tool, fs: FileSystem, d: string): string {
    if |ProtoFilesOf(fs, d)| > 0 then
      match ProtoSection(tool, d, ProtoFilesOf(fs, d))
      case None => ""
      case Some(s) => s
    else ""
  }

  /** The tables of the directories `dirs`, one after the other. */
  function ProtoTables(tool: Tool, fs: FileSystem, dirs: seq<string>): string
    decreases |dirs|
  {
    if dirs == [] then ""
    else ProtoTables(tool, fs, dirs[..|dirs| - 1]) + SectionText(tool, fs, dirs[|dirs| - 1])
  }

  /**
   * A visit either aborts or appends the directory's table, whatever came
   * before it: it aborts when the directory cannot be listed, or when it
   * has cases and a run raises; a directory without cases adds nothing.
   */
  lemma ProtoVisitStep(tool: Tool, fs: FileSystem, x: string, d: string)
    ensures ProtoVisit(tool, fs, Some(x), d) ==
      if VisitOk(tool, fs, d) then Some(x + SectionText(tool, fs, d)) else None
    ensures ProtoScan(fs, d).None? ==> ProtoVisit(tool, fs, Some(x), d) == None
    ensures ProtoScan(fs, d).Some? && ProtoFilesOf(fs, d) == [] ==> ProtoVisit(tool, fs, Some(x), d) == Some(x)
  {
    assert x + "" == x;
  }

  /**
   * The walk, stated without the state: it goes through exactly when each
   * of its visits does, and then its page is the initial text followed by
   * the table of each directory with cases, in walk order.
   */
  lemma {:induction false} ProtoWalkIs(tool: Tool, fs: FileSystem, t: string, dirs: seq<string>)
    ensures ProtoVisitAll(tool, fs, Some(t), dirs) ==
      if AllVisitsOk(tool, fs, dirs) then Some(t + ProtoTables(tool, fs, dirs)) else None
    decreases |dirs|
  {
    if dirs == [] {
      assert t + "" == t;
    } else {
      var init := dirs[..|dirs| - 1];
      var last := dirs[|dirs| - 1];
      ProtoWalkIs(tool, fs, t, init);
      forall d ensures d in dirs <==> d in init || d == last {
        InitMember(dirs, d);
      }
      if AllVisitsOk(tool, fs, init) {
        ProtoVisitStep(tool, fs, t + ProtoTables(tool, fs, init), last);
        ConcatAssoc(t, ProtoTables(tool, fs, init), SectionText(tool, fs, last));
      } else {
        ProtoWalkNone(tool, fs, [last]);
      }
    }
  }

  /** The whole run, stated without the loops. */
  lemma ProtoSummarizeIs(tool: Tool, fs: FileSystem)
    ensures ProtoSummarize(tool, fs) ==
      if AllVisitsOk(tool, fs, ProtoCandidates(fs, ProtoRoot))
      then Some(ProtoTitle + ProtoTables(tool, fs, ProtoCandidates(fs, ProtoRoot)))
      else None
  {
    ProtoSummarizeUnfold(tool, fs);
    ProtoCandidatesWalk(tool, fs, ProtoRoot);
  }

  /** The walk from any root, stated without the state. */
  lemma ProtoCandidatesWalk(tool: Tool, fs: FileSystem, root: string)
    ensures ProtoVisitAll(tool, fs, Some(ProtoTitle), ProtoCandidates(fs, root)) ==
      if AllVisitsOk(tool, fs, ProtoCandidates(fs, root))
      then Some(ProtoTitle + ProtoTables(tool, fs, ProtoCandidates(fs, root)))
      else None
  {
    ProtoWalkIs(tool, fs, ProtoTitle, ProtoCandidates(fs, root));
  }

  lemma ProtoSummarizeUnfold(tool: Tool, fs: FileSystem)
    ensures ProtoSummarize(tool, fs) == ProtoVisitAll(tool, fs, Some(ProtoTitle), ProtoCandidates(fs, ProtoRoot))
  {
  }

  /** After an abort nothing more happens. */
  lemma {:induction false} ProtoWalkNone(tool: Tool, fs: FileSystem, dirs: seq<string>)
    ensures ProtoVisitAll(tool, fs, None, dirs) == None
    decreases |dirs|
  {
    if dirs != [] {
      ProtoWalkNone(tool, fs, dirs[..|dirs| - 1]);
    }
  }

  lemma ProtoWalkSnoc(tool: Tool, fs: FileSystem, s: Option<string>, dirs: seq<string>, d: string)
    ensures ProtoVisitAll(tool, fs, s, dirs + [d]) == ProtoVisit(tool, fs, ProtoVisitAll(tool, fs, s, dirs), d)
  {
    assert (dirs + [d])[..|dirs|] == dirs;
  }

  /** Walking two lists one after the other is walking their concatenation. */
  lemma {:induction false} ProtoWalkAppend(tool: Tool, fs: FileSystem, s: Option<string>, a: seq<string>, b: seq<string>)
    ensures ProtoVisitAll(tool, fs, s, a + b) == ProtoVisitAll(tool, fs, ProtoVisitAll(tool, fs, s, a), b)
    decreases |b|
  {
    if b == [] {
      assert a + b == a;
    } else {
      var init := b[..|b| - 1];
      assert (a + b)[..|a + b| - 1] == a + init;
      ProtoWalkAppend(tool, fs, s, a, init);
    }
  }

  /** An abort while walking the first `k` directories below `dir` is an abort of them all. */
  lemma {:induction false} ProtoSubpathsNone(tool: Tool, fs: FileSystem, s: Option<string>, dir: string,
                                             names: seq<string>, k: int)
    requires 0 <= k <= |names|
    requires ProtoVisitAll(tool, fs, s, Subpaths(dir, names[..k])) == None
    ensures ProtoVisitAll(tool, fs, s, Subpaths(dir, names)) == None
    decreases |names|
  {
    if k < |names| {
      var init := names[..|names| - 1];
      assert init[..k] == names[..k];
      ProtoSubpathsNone(tool, fs, s, dir, init, k);
      ProtoWalkSnoc(tool, fs, s, Subpaths(dir, init), dir + "/" + names[|names| - 1]);
    } else {
      assert names[..k] == names;
    }
  }

  /** An abort in the groups of the first `k` root-level directories is an abort of them all. */
  lemma {:induction false} ProtoGroupsNone(tool: Tool, fs: FileSystem, s: Option<string>, root: string,
                                           names: seq<string>, k: int)
    requires 0 <= k <= |names|
    requires ProtoVisitAll(tool, fs, s, ProtoGroups(fs, root, names[..k])) == None
    ensures ProtoVisitAll(tool, fs, s, ProtoGroups(fs, root, names)) == None
    decreases |names|
  {
    if k < |names| {
      var init := names[..|names| - 1];
      assert init[..k] == names[..k];
      ProtoGroupsNone(tool, fs, s, root, init, k);
      ProtoWalkAppend(tool, fs, s, ProtoGroups(fs, root, init), ProtoGroup(fs, root + "/" + names[|names| - 1]));
      ProtoWalkNone(tool, fs, ProtoGroup(fs, root + "/" + names[|names| - 1]));
    } else {
      assert names[..k] == names;
    }
  }

  lemma ProtoGroupsSnoc(fs: FileSystem, root: string, names: seq<string>, i: int)
    requires 0 <= i < |names|
    ensures ProtoGroups(fs, root, names[..i + 1]) == ProtoGroups(fs, root, names[..i]) + ProtoGroup(fs, root + "/" + names[i])
  {
    assert names[..i + 1][..i] == names[..i];
  }

  /** `if len(valid_files) > 0: table = goblint_files(...)` for a directory `check_path` could list. */
  method ProtoVisitFiles(tool: Tool, fs: FileSystem, table: string, dir: string, files: seq<string>)
    returns (r: Option<string>)
    requires ProtoScan(fs, dir).Some? && files == ProtoScan(fs, dir).value.files
    ensures r == ProtoVisit(tool, fs, Some(table), dir)
  {
    if |files| > 0 {
      r := ProtoGoblintFiles(tool, files, dir, table);
    } else {
      r := Some(table);
    }
  }

  /** The inner loop: each `current_dir + '/' + s` for `s` in `sub_directories`. */
  method ProtoVisitSubdirs(tool: Tool, fs: FileSystem, table: string, currentDir: string, subDirectories: seq<string>)
    returns (r: Option<string>)
    ensures r == ProtoVisitAll(tool, fs, Some(table), Subpaths(currentDir, subDirectories))
  {
    var html := table;
    var j := 0;
    assert subDirectories[..0] == [];
    assert ProtoVisitAll(tool, fs, Some(table), Subpaths(currentDir, subDirectories[..0])) == Some(html);
    while j < |subDirectories|
      invariant 0 <= j <= |subDirectories|
      invariant ProtoVisitAll(tool, fs, Some(table), Subpaths(currentDir, subDirectories[..j])) == Some(html)
    {
      var next := ProtoVisitSubdir(tool, fs, table, html, currentDir, subDirectories, j);
      if next.None? {
        ProtoSubpathsNone(tool, fs, Some(table), currentDir, subDirectories, j + 1);
        return None;
      }
      html := next.value;
      j := j + 1;
    }
    assert subDirectories[..j] == subDirectories;
    r := Some(html);
  }

  /** One pass of the inner loop; `check_path` raises on a directory that cannot be listed. */
  method ProtoVisitSubdir(tool: Tool, fs: FileSystem, table: string, html: string, currentDir: string,
                          subDirectories: seq<string>, j: int)
    returns (r: Option<string>)
    requires 0 <= j < |subDirectories|
    requires ProtoVisitAll(tool, fs, Some(table), Subpaths(currentDir, subDirectories[..j])) == Some(html)
    ensures r == ProtoVisitAll(tool, fs, Some(table), Subpaths(currentDir, subDirectories[..j + 1]))
  {
    var currentSubdir := currentDir + "/" + subDirectories[j];
    SubpathsSnoc(currentDir, subDirectories, j);
    ProtoWalkSnoc(tool, fs, Some(table), Subpaths(currentDir, subDirectories[..j]), currentSubdir);
    var listing := ProtoCheckPath(fs, currentSubdir);
    if listing.None? {
      return None;
    }
    r := ProtoVisitFiles(tool, fs, html, currentSubdir, listing.value.files);
  }

  /** A directory of the root level, then each of its own directories. */
  method ProtoVisitGroup(tool: Tool, fs: FileSystem, table: string, currentDir: string) returns (r: Option<string>)
    ensures r == ProtoVisitAll(tool, fs, Some(table), ProtoGroup(fs, currentDir))
  {
    var subpaths := Subpaths(currentDir, ProtoDirsOf(fs, currentDir));
    ProtoWalkAppend(tool, fs, Some(table), [currentDir], subpaths);
    assert ProtoVisitAll(tool, fs, Some(table), [currentDir]) == ProtoVisit(tool, fs, Some(table), currentDir);
    var listing := ProtoCheckPath(fs, currentDir);
    if listing.None? {
      ProtoWalkNone(tool, fs, subpaths);
      return None;
    }
    var next := ProtoVisitFiles(tool, fs, table, currentDir, listing.value.files);
    if next.None? {
      ProtoWalkNone(tool, fs, subpaths);
      return None;
    }
    r := ProtoVisitSubdirs(tool, fs, next.value, currentDir, listing.value.dirs);
  }

  /** The outer loop: the group of each `path + '/' + d` for `d` in `directories`, in listing order. */
  method ProtoVisitGroups(tool: Tool, fs: FileSystem, table: string, path: string, directories: seq<string>)
    returns (r: Option<string>)
    ensures r == ProtoVisitAll(tool, fs, Some(table), ProtoGroups(fs, path, directories))
  {
    var html := table;
    var i := 0;
    assert directories[..0] == [];
    assert ProtoVisitAll(tool, fs, Some(table), ProtoGroups(fs, path, directories[..0])) == Some(html);
    while i < |directories|
      invariant 0 <= i <= |directories|
      invariant ProtoVisitAll(tool, fs, Some(table), ProtoGroups(fs, path, directories[..i])) == Some(html)
    {
      var group := ProtoGroup(fs, path + "/" + directories[i]);
      ProtoGroupsSnoc(fs, path, directories, i);
      ProtoWalkAppend(tool, fs, Some(table), ProtoGroups(fs, path, directories[..i]), group);
      var next := ProtoVisitGroup(tool, fs, html, path + "/" + directories[i]);
      if next.None? {
        ProtoGroupsNone(tool, fs, Some(table), path, directories, i + 1);
        return None;
      }
      html := next.value;
      i := i + 1;
    }
    assert directories[..i] == directories;
    r := Some(html);
  }

  /**
   * The prototype's run: the working directory, then each directory it
   * lists and each of theirs; `None` as soon as a listing or a run raises.
   */
  method ProtoRun(tool: Tool, fs: FileSystem) returns (r: Option<string>)
    ensures r == ProtoSummarize(tool, fs)
  {
    var path := ProtoRoot;
    var table := ProtoTitle;
    r := ProtoWalkFrom(tool, fs, table, path);
    ProtoSummarizeUnfold(tool, fs);
  }

  /** The top-level statements of the script, from the directory `path` with the page so far `table`. */
  method ProtoWalkFrom(tool: Tool, fs: FileSystem, table: string, path: string) returns (r: Option<string>)
    ensures r == ProtoVisitAll(tool, fs, Some(table), ProtoCandidates(fs, path))
  {
    var groups := ProtoGroups(fs, path, ProtoDirsOf(fs, path));
    ProtoWalkAppend(tool, fs, Some(table), [path], groups);
    assert ProtoVisitAll(tool, fs, Some(table), [path]) == ProtoVisit(tool, fs, Some(table), path);
    var currentDir := path;
    var listing := ProtoCheckPath(fs, currentDir);
    if listing.None? {
      ProtoWalkNone(tool, fs, groups);
      return None;
    }
    var next := ProtoVisitFiles(tool, fs, table, currentDir, listing.value.files);
    if next.None? {
      ProtoWalkNone(tool, fs, groups);
      return None;
    }
    r := ProtoVisitGroups(tool, fs, next.value, path, listing.value.dirs);
  }
}
