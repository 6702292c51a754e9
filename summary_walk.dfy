/**
 * The top level of `tests/juliet/juliet_summary.py`: the fixed two-level
 * walk from the corpus root (the root, each of its directories, each of
 * their directories, every level in sorted order), one table per directory
 * that holds cases, and the final document with its legend and table of
 * contents.
 */
module SummaryWalk {
  import opened Wrappers
  import opened Text
  import opened Sorting
  import opened Seqs
  import opened Env
  import opened SummaryScan
  import opened SummaryCase
  import opened SummaryReport

  /** `dir + '/' + s` for each `s` of `names`, in that order. */
  function Subpaths(dir: string, names: seq<string>): seq<string>
    decreases |names|
  {
    if names == [] then []
    else Subpaths(dir, names[..|names| - 1]) + [dir + "/" + names[|names| - 1]]
  }

  /** A directory of the root level followed by its own directories, sorted. */
  function Group(fs: FileSystem, dir: string): seq<string> {
    [dir] + Subpaths(dir, SortedNames(DirsOf(fs, dir)))
  }

  /** The groups of the root's directories `names`, in that order. */
  function Groups(fs: FileSystem, root: string, names: seq<string>): seq<string>
    decreases |names|
  {
    if names == [] then []
    else Groups(fs, root, names[..|names| - 1]) + Group(fs, root + "/" + names[|names| - 1])
  }

  /** Every directory the walk lists, in the order it lists them. */
  function Candidates(fs: FileSystem, root: string): seq<string> {
    [root] + Groups(fs, root, SortedNames(DirsOf(fs, root)))
  }

  /** A directory gets a table when `check_path` finds at least one valid file in it. */
  function HasCases(fs: FileSystem): string -> bool {
    d => |FilesOf(fs, d)| > 0
  }

  /** The tables of the directories `dirs`, one after the other. */
  function Tables(cfg: Config, tool: Tool, fs: FileSystem, dirs: seq<string>): string
    decreases |dirs|
  {
    if dirs == [] then ""
    else
      var d := dirs[|dirs| - 1];
      Tables(cfg, tool, fs, dirs[..|dirs| - 1]) + Section(cfg, tool, d, FilesOf(fs, d))
  }

  /** The text files written for the directories `dirs`, in writing order. */
  function ArtifactsOf(cfg: Config, tool: Tool, fs: FileSystem, dirs: seq<string>): seq<Artifact>
    decreases |dirs|
  {
    if dirs == [] then []
    else
      var d := dirs[|dirs| - 1];
      ArtifactsOf(cfg, tool, fs, dirs[..|dirs| - 1]) + CaseArtifacts(cfg, tool, d, SortedNames(FilesOf(fs, d)))
  }

  /** The three running values of the walk: `table`, `contents_href` and the files written so far. */
  datatype Progress = Progress(table: string, contents: seq<string>, artifacts: seq<Artifact>)

  const Start := Progress("", [], [])

  /** One visited directory: its table and its contents entry are added when it has cases. */
  function Visit(cfg: Config, tool: Tool, fs: FileSystem, p: Progress, dir: string): Progress {
    var files := FilesOf(fs, dir);
    if |files| > 0 then
      Progress(p.table + Section(cfg, tool, dir, files), p.contents + [dir],
        p.artifacts + CaseArtifacts(cfg, tool, dir, SortedNames(files)))
    else p
  }

  /** The visits of the directories `dirs`, in that order. */
  function Walk(cfg: Config, tool: Tool, fs: FileSystem, p: Progress, dirs: seq<string>): Progress
    decreases |dirs|
  {
    if dirs == [] then p
    else Visit(cfg, tool, fs, Walk(cfg, tool, fs, p, dirs[..|dirs| - 1]), dirs[|dirs| - 1])
  }

  /** The heading and the legend of the three cell symbols. */
  const Legend := "<p id=\"top\" style=\"font-size:30px\">RESULTS</p>\n"
    + "<p><small><strong>X</strong>&emsp;Vulnerabilities detected</small></p>\n"
    + "<p><small><strong>-</strong>&emsp;No vulnerabilities detected</small></p>\n"
    + "<p><small><strong>?</strong>&emsp;Function not found, error</small></p><br>\n"

  /** The table-of-contents entry of a directory: a link to its anchor. */
  function TocLink(ref: string): string {
    "<a href=\"#" + ref + "\">" + ref + "</a>\n"
  }

  /** The table-of-contents entries of `refs`, in that order. */
  function Toc(refs: seq<string>): string
    decreases |refs|
  {
    if refs == [] then ""
    else Toc(refs[..|refs| - 1]) + TocLink(refs[|refs| - 1])
  }

  const Rule := "<br><hr><br>\n"
  const TopLink := "<a href=\"#top\">Go to top</a>"

  /** `summary_table.html`: legend, table of contents, the tables, and a final link to the top. */
  function Document(refs: seq<string>, table: string): string {
    Legend + Toc(refs) + Rule + table + TopLink
  }

  /** What a run leaves behind: the document and the text files, in writing order. */
  datatype Report = Report(document: string, artifacts: seq<Artifact>)

  /**
   * The run, stated without the loops: `None` when the root cannot be
   * listed; otherwise the directories with cases among the candidates, in
   * walk order, each with its table and its text files.
   */
  function Summarize(cfg: Config, tool: Tool, fs: FileSystem, root: string): Option<Report> {
    if !IsDir(fs, root) then None
    else
      var refs := Filter(HasCases(fs), Candidates(fs, root));
      Some(Report(Document(refs, Tables(cfg, tool, fs, refs)), ArtifactsOf(cfg, tool, fs, refs)))
  }

  /** Walking a list of directories adds exactly the tables, entries and files of those with cases. */
  lemma {:induction false} WalkIsFilter(cfg: Config, tool: Tool, fs: FileSystem, dirs: seq<string>)
    ensures var refs := Filter(HasCases(fs), dirs);
      Walk(cfg, tool, fs, Start, dirs) == Progress(Tables(cfg, tool, fs, refs), refs, ArtifactsOf(cfg, tool, fs, refs))
    decreases |dirs|
  {
    if dirs != [] {
      var init := dirs[..|dirs| - 1];
      var d := dirs[|dirs| - 1];
      WalkIsFilter(cfg, tool, fs, init);
      var refs := Filter(HasCases(fs), init);
      if HasCases(fs)(d) {
        assert (refs + [d])[..|refs|] == refs;
      } else {
        assert refs + [] == refs;
      }
    }
  }

  /**
   * `contents_href` gets a directory exactly when the walk reaches it and
   * `check_path` finds at least one valid file in it.
   */
  lemma ContentsIff(cfg: Config, tool: Tool, fs: FileSystem, root: string, d: string)
    ensures d in Walk(cfg, tool, fs, Start, Candidates(fs, root)).contents <==>
      d in Candidates(fs, root) && |FilesOf(fs, d)| > 0
  {
    WalkIsFilter(cfg, tool, fs, Candidates(fs, root));
    FilterMember(HasCases(fs), Candidates(fs, root), d);
  }

  lemma WalkSnoc(cfg: Config, tool: Tool, fs: FileSystem, dirs: seq<string>, d: string)
    ensures Walk(cfg, tool, fs, Start, dirs + [d]) == Visit(cfg, tool, fs, Walk(cfg, tool, fs, Start, dirs), d)
  {
    assert (dirs + [d])[..|dirs|] == dirs;
  }

  lemma SubpathsSnoc(dir: string, names: seq<string>, j: int)
    requires 0 <= j < |names|
    ensures Subpaths(dir, names[..j + 1]) == Subpaths(dir, names[..j]) + [dir + "/" + names[j]]
  {
    assert names[..j + 1][..j] == names[..j];
  }

  lemma GroupsSnoc(fs: FileSystem, root: string, names: seq<string>, i: int)
    requires 0 <= i < |names|
    ensures Groups(fs, root, names[..i + 1]) == Groups(fs, root, names[..i]) + Group(fs, root + "/" + names[i])
  {
    assert names[..i + 1][..i] == names[..i];
  }

  /** Visiting one directory: `goblint_files` when `check_path` found valid files in it. */
  method VisitDir(cfg: Config, tool: Tool, fs: FileSystem, p: Progress, dir: string, files: seq<string>)
    returns (q: Progress)
    requires files == FilesOf(fs, dir)
    ensures q == Visit(cfg, tool, fs, p, dir)
  {
    q := p;
    if |files| > 0 {
      var table, written := GoblintFiles(cfg, tool, files, dir, p.table);
      q := Progress(table, p.contents + [dir], p.artifacts + written);
    }
  }

  /** The document: the legend, one link per directory with cases, then the tables. */
  method AssembleDocument(refs: seq<string>, table: string) returns (doc: string)
    ensures doc == Document(refs, table)
  {
    var contents := "<p id=\"top\" style=\"font-size:30px\">RESULTS</p>\n";
    contents := contents + "<p><small><strong>X</strong>&emsp;Vulnerabilities detected</small></p>\n";
    contents := contents + "<p><small><strong>-</strong>&emsp;No vulnerabilities detected</small></p>\n";
    contents := contents + "<p><small><strong>?</strong>&emsp;Function not found, error</small></p><br>\n";
    assert contents == Legend;
    var i := 0;
    assert refs[..0] == [];
    while i < |refs|
      invariant 0 <= i <= |refs|
      invariant contents == Legend + Toc(refs[..i])
    {
      assert refs[..i + 1][..i] == refs[..i];
      contents := contents + TocLink(refs[i]);
      i := i + 1;
    }
    assert refs[..i] == refs;
    doc := contents + Rule + table + TopLink;
  }

  /**
   * One directory of the root level and then each of its own directories,
   * sorted: the body of the outer loop of the walk.
   */
  method VisitGroup(cfg: Config, tool: Tool, fs: FileSystem, p: Progress, done: seq<string>, currentDir: string)
    returns (progress: Progress)
    requires p == Walk(cfg, tool, fs, Start, done)
    requires Scan(fs, currentDir).Some?
    ensures progress == Walk(cfg, tool, fs, Start, done + Group(fs, currentDir))
  {
    var listing := CheckPath(fs, currentDir);
    progress := VisitDir(cfg, tool, fs, p, currentDir, listing.value.files);
    WalkSnoc(cfg, tool, fs, done, currentDir);
    var subDirectories := SortedNames(listing.value.dirs);
    forall s | s in subDirectories
      ensures Scan(fs, currentDir + "/" + s).Some?
    {
      SortedNamesMember(listing.value.dirs, s);
      DirsAreListable(fs, currentDir, s);
    }
    progress := VisitSubdirs(cfg, tool, fs, progress, done + [currentDir], currentDir, subDirectories);
    SeqAssoc(done, [currentDir], Subpaths(currentDir, subDirectories));
  }

  /** The inner loop of the walk: each directory `currentDir + '/' + s` for `s` in `subDirectories`. */
  method VisitSubdirs(cfg: Config, tool: Tool, fs: FileSystem, p: Progress, base: seq<string>,
                      currentDir: string, subDirectories: seq<string>)
    returns (progress: Progress)
    requires p == Walk(cfg, tool, fs, Start, base)
    requires forall s :: s in subDirectories ==> Scan(fs, currentDir + "/" + s).Some?
    ensures progress == Walk(cfg, tool, fs, Start, base + Subpaths(currentDir, subDirectories))
  {
    progress := p;
    var j := 0;
    assert subDirectories[..0] == [];
    assert base + Subpaths(currentDir, subDirectories[..0]) == base;
    while j < |subDirectories|
      invariant 0 <= j <= |subDirectories|
      invariant progress == Walk(cfg, tool, fs, Start, base + Subpaths(currentDir, subDirectories[..j]))
    {
      progress := VisitSubdir(cfg, tool, fs, progress, base, currentDir, subDirectories, j);
      j := j + 1;
    }
    assert subDirectories[..j] == subDirectories;
  }

  /** One pass of the inner loop. */
  method VisitSubdir(cfg: Config, tool: Tool, fs: FileSystem, p: Progress, base: seq<string>,
                     currentDir: string, subDirectories: seq<string>, j: int)
    returns (progress: Progress)
    requires 0 <= j < |subDirectories|
    requires p == Walk(cfg, tool, fs, Start, base + Subpaths(currentDir, subDirectories[..j]))
    requires forall s :: s in subDirectories ==> Scan(fs, currentDir + "/" + s).Some?
    ensures progress == Walk(cfg, tool, fs, Start, base + Subpaths(currentDir, subDirectories[..j + 1]))
  {
    var currentSubdir := currentDir + "/" + subDirectories[j];
    var subListing := CheckPath(fs, currentSubdir);
    var before := base + Subpaths(currentDir, subDirectories[..j]);
    progress := VisitDir(cfg, tool, fs, p, currentSubdir, subListing.value.files);
    WalkSnoc(cfg, tool, fs, before, currentSubdir);
    SubpathsSnoc(currentDir, subDirectories, j);
    SeqAssoc(base, Subpaths(currentDir, subDirectories[..j]), [currentSubdir]);
  }

  /** The outer loop of the walk: the group of each directory `path + '/' + d` for `d` in `directories`. */
  method VisitGroups(cfg: Config, tool: Tool, fs: FileSystem, p: Progress, path: string, directories: seq<string>)
    returns (progress: Progress)
    requires p == Walk(cfg, tool, fs, Start, [path])
    requires forall d :: d in directories ==> Scan(fs, path + "/" + d).Some?
    ensures progress == Walk(cfg, tool, fs, Start, [path] + Groups(fs, path, directories))
  {
    progress := p;
    var i := 0;
    assert directories[..0] == [];
    assert [path] + Groups(fs, path, directories[..0]) == [path];
    while i < |directories|
      invariant 0 <= i <= |directories|
      invariant progress == Walk(cfg, tool, fs, Start, [path] + Groups(fs, path, directories[..i]))
    {
      var done := [path] + Groups(fs, path, directories[..i]);
      progress := VisitGroup(cfg, tool, fs, progress, done, path + "/" + directories[i]);
      GroupsSnoc(fs, path, directories, i);
      SeqAssoc([path], Groups(fs, path, directories[..i]), Group(fs, path + "/" + directories[i]));
      i := i + 1;
    }
    assert directories[..i] == directories;
  }

  /**
   * The whole run: the root, then each of its directories and each of
   * theirs, sorted at every level; `None` when the root cannot be listed.
   */
  method Run(cfg: Config, tool: Tool, fs: FileSystem, path: string) returns (r: Option<Report>)
    ensures r == Summarize(cfg, tool, fs, path)
  {
    var top := CheckPath(fs, path);
    if top.None? {
      return None;
    }
    var progress := VisitDir(cfg, tool, fs, Start, path, top.value.files);
    SeqEmptyLeft([path]);
    WalkSnoc(cfg, tool, fs, [], path);
    var directories := SortedNames(top.value.dirs);
    forall d | d in directories
      ensures Scan(fs, path + "/" + d).Some?
    {
      SortedNamesMember(top.value.dirs, d);
      DirsAreListable(fs, path, d);
    }
    progress := VisitGroups(cfg, tool, fs, progress, path, directories);
    WalkIsFilter(cfg, tool, fs, Candidates(fs, path));
    var document := AssembleDocument(progress.contents, progress.table);
    r := Some(Report(document, progress.artifacts));
  }

  /** `d` is a directory `check_path(dir)` reports: `dir + '/' + s` for one of its directory names `s`. */
  ghost predicate Below(fs: FileSystem, dir: string, d: string) {
    exists s :: s in DirsOf(fs, dir) && d == dir + "/" + s
  }

  /** `d` is `m` itself or one of the directories below it. */
  ghost predicate InGroup(fs: FileSystem, m: string, d: string) {
    d == m || Below(fs, m, d)
  }

  lemma {:induction false} SubpathsMember(dir: string, names: seq<string>, d: string)
    ensures d in Subpaths(dir, names) <==> exists s :: s in names && d == dir + "/" + s
    decreases |names|
  {
    if names != [] {
      var init := names[..|names| - 1];
      var last := names[|names| - 1];
      SubpathsMember(dir, init, d);
      if d in Subpaths(dir, names) && d != dir + "/" + last {
        var s :| s in init && d == dir + "/" + s;
        InitMember(names, s);
      }
      if exists s :: s in names && d == dir + "/" + s {
        var s :| s in names && d == dir + "/" + s;
        InitMember(names, s);
      }
    }
  }

  lemma GroupMember(fs: FileSystem, m: string, d: string)
    ensures d in Group(fs, m) <==> InGroup(fs, m, d)
  {
    var names := SortedNames(DirsOf(fs, m));
    SubpathsMember(m, names, d);
    forall s ensures s in names <==> s in DirsOf(fs, m) {
      SortedNamesMember(DirsOf(fs, m), s);
    }
  }

  lemma {:induction false} GroupsMember(fs: FileSystem, root: string, names: seq<string>, d: string)
    ensures d in Groups(fs, root, names) <==> exists a :: a in names && InGroup(fs, root + "/" + a, d)
    decreases |names|
  {
    if names != [] {
      var init := names[..|names| - 1];
      var last := names[|names| - 1];
      GroupsMember(fs, root, init, d);
      GroupMember(fs, root + "/" + last, d);
      if d in Groups(fs, root, names) && !InGroup(fs, root + "/" + last, d) {
        var a :| a in init && InGroup(fs, root + "/" + a, d);
        InitMember(names, a);
      }
      if exists a :: a in names && InGroup(fs, root + "/" + a, d) {
        var a :| a in names && InGroup(fs, root + "/" + a, d);
        InitMember(names, a);
      }
    }
  }

  /**
   * The walk lists the root, each `root/a` for a directory name `a` that
   * `check_path(root)` reports, and each `root/a/b` for a directory name `b`
   * that `check_path(root/a)` reports: nothing deeper, nothing else.
   */
  lemma CandidatesIff(fs: FileSystem, root: string, d: string)
    ensures d in Candidates(fs, root) <==>
      d == root || exists a :: a in DirsOf(fs, root) && InGroup(fs, root + "/" + a, d)
  {
    var names := SortedNames(DirsOf(fs, root));
    GroupsMember(fs, root, names, d);
    CandidatesMember(root, Groups(fs, root, names), d);
    forall a ensures a in names <==> a in DirsOf(fs, root) {
      SortedNamesMember(DirsOf(fs, root), a);
    }
  }

  lemma CandidatesMember(root: string, rest: seq<string>, d: string)
    ensures d in [root] + rest <==> d == root || d in rest
  {
  }

  /** A directory reported below a listable directory is itself listable. */
  lemma BelowIsDir(fs: FileSystem, dir: string, d: string)
    requires Below(fs, dir, d)
    ensures IsDir(fs, d)
  {
    var s :| s in DirsOf(fs, dir) && d == dir + "/" + s;
    ScanSpec(fs, dir, s);
  }

  /** Once the root can be listed, `check_path` succeeds on every directory of the walk. */
  lemma CandidatesListable(fs: FileSystem, root: string, d: string)
    requires IsDir(fs, root)
    requires d in Candidates(fs, root)
    ensures IsDir(fs, d)
  {
    CandidatesIff(fs, root, d);
    if d != root {
      var a :| a in DirsOf(fs, root) && InGroup(fs, root + "/" + a, d);
      var m := root + "/" + a;
      BelowIsDir(fs, root, m);
      if d != m {
        BelowIsDir(fs, m, d);
      }
    }
  }

  /** Every entry of `refs` has its link in the table of contents. */
  lemma {:induction false} TocHasEvery(refs: seq<string>, ref: string)
    requires ref in refs
    ensures Contains(Toc(refs), TocLink(ref))
    decreases |refs|
  {
    var init := refs[..|refs| - 1];
    InitMember(refs, ref);
    if ref == refs[|refs| - 1] {
      ContainsSelf(TocLink(ref));
      ContainsSuffix(Toc(init), TocLink(ref), TocLink(ref));
    } else {
      TocHasEvery(init, ref);
      ContainsPrefix(Toc(init), TocLink(refs[|refs| - 1]), "", TocLink(ref));
    }
  }

  /** Every entry of `dirs` has its table among the tables. */
  lemma {:induction false} TablesHaveEvery(cfg: Config, tool: Tool, fs: FileSystem, dirs: seq<string>, d: string)
    requires d in dirs
    ensures Contains(Tables(cfg, tool, fs, dirs), Section(cfg, tool, d, FilesOf(fs, d)))
    decreases |dirs|
  {
    var init := dirs[..|dirs| - 1];
    var last := dirs[|dirs| - 1];
    var s := Section(cfg, tool, d, FilesOf(fs, d));
    InitMember(dirs, d);
    if d == last {
      ContainsSelf(s);
      ContainsSuffix(Tables(cfg, tool, fs, init), s, s);
    } else {
      TablesHaveEvery(cfg, tool, fs, init, d);
      ContainsPrefix(Tables(cfg, tool, fs, init), Section(cfg, tool, last, FilesOf(fs, last)), "", s);
    }
  }

  /** Every case of every entry of `dirs` has its text file among the files written. */
  lemma {:induction false} ArtifactsOfHasEvery(cfg: Config, tool: Tool, fs: FileSystem, dirs: seq<string>, d: string, t: string)
    requires d in dirs
    requires t in FilesOf(fs, d)
    ensures RunCase(cfg, tool, d, t).artifact in ArtifactsOf(cfg, tool, fs, dirs)
    decreases |dirs|
  {
    var init := dirs[..|dirs| - 1];
    var last := dirs[|dirs| - 1];
    InitMember(dirs, d);
    if d == last {
      var cases := SortedNames(FilesOf(fs, d));
      SortedNamesMember(FilesOf(fs, d), t);
      var k :| 0 <= k < |cases| && cases[k] == t;
      CaseArtifactsAt(cfg, tool, d, cases, k);
      assert CaseArtifacts(cfg, tool, d, cases)[k] in CaseArtifacts(cfg, tool, d, cases);
    } else {
      ArtifactsOfHasEvery(cfg, tool, fs, init, d, t);
    }
  }

  /**
   * Every directory of the walk in which `check_path` finds cases has a
   * table-of-contents link, the anchor that link points to, and a row for
   * each of its cases in the document.
   */
  lemma DocumentLinksResolve(cfg: Config, tool: Tool, fs: FileSystem, root: string, ref: string, t: string)
    requires IsDir(fs, root)
    requires ref in Candidates(fs, root)
    requires t in FilesOf(fs, ref)
    ensures Summarize(cfg, tool, fs, root).Some?
    ensures Contains(Summarize(cfg, tool, fs, root).value.document, TocLink(ref))
    ensures Contains(Summarize(cfg, tool, fs, root).value.document, Anchor(ref))
    ensures Contains(Summarize(cfg, tool, fs, root).value.document, CaseRow(cfg, tool, ref, t))
  {
    var refs := Filter(HasCases(fs), Candidates(fs, root));
    var table := Tables(cfg, tool, fs, refs);
    var section := Section(cfg, tool, ref, FilesOf(fs, ref));
    FilterMember(HasCases(fs), Candidates(fs, root), ref);
    TocHasEvery(refs, ref);
    ContainsSuffix(Legend, Toc(refs), TocLink(ref));
    ContainsPrefix(Legend + Toc(refs), Rule, table, TocLink(ref));
    ContainsPrefix(Legend + Toc(refs) + Rule + table, TopLink, "", TocLink(ref));
    TablesHaveEvery(cfg, tool, fs, refs, ref);
    SectionHasAnchor(cfg, tool, ref, FilesOf(fs, ref));
    ContainsTrans(table, section, Anchor(ref));
    ContainsWithin(Legend + Toc(refs) + Rule, table, TopLink, Anchor(ref));
    SectionHasEveryCase(cfg, tool, ref, FilesOf(fs, ref), t);
    ContainsTrans(table, section, CaseRow(cfg, tool, ref, t));
    ContainsWithin(Legend + Toc(refs) + Rule, table, TopLink, CaseRow(cfg, tool, ref, t));
  }

  lemma {:induction false} GroupsOrderFree(fs1: FileSystem, fs2: FileSystem, root: string, names: seq<string>)
    requires SameListings(fs1, fs2)
    ensures Groups(fs1, root, names) == Groups(fs2, root, names)
    decreases |names|
  {
    if names != [] {
      var m := root + "/" + names[|names| - 1];
      GroupsOrderFree(fs1, fs2, root, names[..|names| - 1]);
      ScanOrderFree(fs1, fs2, m);
      SortedNamesOrderFree(DirsOf(fs1, m), DirsOf(fs2, m));
    }
  }

  lemma {:induction false} TablesOrderFree(cfg: Config, tool: Tool, fs1: FileSystem, fs2: FileSystem, dirs: seq<string>)
    requires SameListings(fs1, fs2)
    ensures Tables(cfg, tool, fs1, dirs) == Tables(cfg, tool, fs2, dirs)
    ensures ArtifactsOf(cfg, tool, fs1, dirs) == ArtifactsOf(cfg, tool, fs2, dirs)
    decreases |dirs|
  {
    if dirs != [] {
      var d := dirs[|dirs| - 1];
      TablesOrderFree(cfg, tool, fs1, fs2, dirs[..|dirs| - 1]);
      ScanOrderFree(fs1, fs2, d);
      SortedNamesOrderFree(FilesOf(fs1, d), FilesOf(fs2, d));
    }
  }

  /**
   * The order in which `os.listdir` returns entries does not show in the
   * output: the walk and every table are sorted, so two trees with the same
   * listings give the same document and the same text files.
   */
  lemma SummarizeOrderFree(cfg: Config, tool: Tool, fs1: FileSystem, fs2: FileSystem, root: string)
    requires SameListings(fs1, fs2)
    ensures Summarize(cfg, tool, fs1, root) == Summarize(cfg, tool, fs2, root)
  {
    ScanOrderFree(fs1, fs2, root);
    if IsDir(fs1, root) {
      SortedNamesOrderFree(DirsOf(fs1, root), DirsOf(fs2, root));
      GroupsOrderFree(fs1, fs2, root, SortedNames(DirsOf(fs1, root)));
      var candidates := Candidates(fs1, root);
      assert candidates == Candidates(fs2, root);
      forall d ensures HasCases(fs1)(d) == HasCases(fs2)(d) {
        ScanOrderFree(fs1, fs2, d);
        assert |multiset(FilesOf(fs1, d))| == |FilesOf(fs1, d)|;
        assert |multiset(FilesOf(fs2, d))| == |FilesOf(fs2, d)|;
      }
      FilterExt(HasCases(fs1), HasCases(fs2), candidates);
      TablesOrderFree(cfg, tool, fs1, fs2, Filter(HasCases(fs1), candidates));
    }
  }
}
