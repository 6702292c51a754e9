/**
 * Small corpora worked through the model: an empty corpus, a corpus whose
 * only case sits two levels down, a case whose runs both fail, and the
 * prototype's bare-name directory test on a nested corpus.
 */
module Scenarios {
  import opened Wrappers
  import opened Text
  import opened Sorting
  import opened Seqs
  import opened Env
  import opened SummaryScan
  import opened SummaryCase
  import opened SummaryReport
  import opened SummaryWalk
  import opened ProtoCase
  import opened ProtoWalk

  /** A path that does not start with a dot is its own resolved form. */
  lemma ResolvePlain(p: string)
    requires p != [] && p[0] != '.'
    ensures Resolve(p) == p
  {
    if |p| >= 2 {
      assert p[..2][0] == p[0];
    }
  }

  /** `check_path` on a directory that lists one name. */
  lemma ScanOne(fs: FileSystem, dir: string, n: string)
    requires ListDir(fs, dir) == Some([n])
    ensures FilesOf(fs, dir) == if IsCaseFile(n) then [n] else []
    ensures DirsOf(fs, dir) == if !IsCaseFile(n) && IsDir(fs, dir + "/" + n) then [n] else []
  {
    FilterOne(IsCaseFile, n);
    FilterOne(IsSubdir(fs, dir), n);
    assert Scan(fs, dir) == Some(Listing(Filter(IsCaseFile, [n]), Filter(IsSubdir(fs, dir), [n])));
  }

  /** The prototype's `check_path` on a directory that lists one name. */
  lemma ProtoScanOne(fs: FileSystem, dir: string, n: string)
    requires ListDir(fs, dir) == Some([n])
    ensures ProtoDirsOf(fs, dir) == if !IsProtoCaseFile(n) && IsDir(fs, n) then [n] else []
  {
    FilterOne(IsProtoCaseFile, n);
    FilterOne(IsBareDir(fs), n);
    assert ProtoScan(fs, dir) == Some(Listing(Filter(IsProtoCaseFile, [n]), Filter(IsBareDir(fs), [n])));
  }

  lemma SortedOne(x: string)
    ensures SortedNames([x]) == [x]
  {
    assert [x][..0] == [];
  }

  lemma SubpathsOne(dir: string, x: string)
    ensures Subpaths(dir, [x]) == [dir + "/" + x]
  {
    assert [x][..0] == [];
  }

  /** `check_path` on a directory that lists nothing. */
  lemma ScanEmpty(fs: FileSystem, dir: string)
    requires ListDir(fs, dir) == Some([])
    ensures FilesOf(fs, dir) == [] && DirsOf(fs, dir) == []
  {
  }

  /** A root without directories is the only directory of the walk. */
  lemma CandidatesLeaf(fs: FileSystem, root: string)
    requires DirsOf(fs, root) == []
    ensures Candidates(fs, root) == [root]
  {
    assert SortedNames([]) == [];
    assert Groups(fs, root, []) == [];
  }

  /** A walk over a single directory without cases produces nothing. */
  lemma SummarizeNothing(cfg: Config, tool: Tool, fs: FileSystem, root: string)
    requires IsDir(fs, root)
    requires Candidates(fs, root) == [root]
    requires FilesOf(fs, root) == []
    ensures Summarize(cfg, tool, fs, root) == Some(Report(Document([], ""), []))
  {
    FilterOne(HasCases(fs), root);
  }

  lemma EmptyDocument()
    ensures Document([], "") == Legend + Rule + TopLink
  {
  }

  /** A corpus root that lists nothing gives a page with no contents entry and no table, and writes no file. */
  lemma EmptyCorpus(cfg: Config, tool: Tool, fs: FileSystem, root: string)
    requires ListDir(fs, root) == Some([])
    ensures Summarize(cfg, tool, fs, root) == Some(Report(Legend + Rule + TopLink, []))
  {
    ScanEmpty(fs, root);
    CandidatesLeaf(fs, root);
    SummarizeNothing(cfg, tool, fs, root);
    EmptyDocument();
  }

  /** A directory whose only directory is `b`: itself, then `m/b`. */
  lemma GroupOne(fs: FileSystem, m: string, b: string)
    requires DirsOf(fs, m) == [b]
    ensures Group(fs, m) == [m, m + "/" + b]
  {
    SortedOne(b);
    SubpathsOne(m, b);
  }

  lemma GroupsOne(fs: FileSystem, root: string, a: string)
    ensures Groups(fs, root, [a]) == Group(fs, root + "/" + a)
  {
    var names := [a];
    assert names[..0] == [];
    assert Groups(fs, root, names[..0]) == [];
    SeqEmptyLeft(Group(fs, root + "/" + a));
  }

  /** The walk of a root with one directory `a`, which has one directory `b`. */
  lemma CandidatesChain(fs: FileSystem, root: string, a: string, b: string)
    requires DirsOf(fs, root) == [a]
    requires DirsOf(fs, root + "/" + a) == [b]
    ensures Candidates(fs, root) == [root, root + "/" + a, root + "/" + a + "/" + b]
  {
    SortedOne(a);
    GroupsOne(fs, root, a);
    GroupOne(fs, root + "/" + a, b);
  }

  /** Of three directories, only the last holds cases. */
  lemma OnlyLastHasCases(fs: FileSystem, x: string, y: string, z: string)
    requires FilesOf(fs, x) == [] && FilesOf(fs, y) == [] && FilesOf(fs, z) != []
    ensures Filter(HasCases(fs), [x, y, z]) == [z]
  {
    var cs := [x, y, z];
    FilterStep(HasCases(fs), cs, 0);
    FilterStep(HasCases(fs), cs, 1);
    FilterStep(HasCases(fs), cs, 2);
    assert cs[..0] == [] && cs[..3] == cs;
  }

  lemma TablesOne(cfg: Config, tool: Tool, fs: FileSystem, d: string)
    ensures Tables(cfg, tool, fs, [d]) == Section(cfg, tool, d, FilesOf(fs, d))
    ensures ArtifactsOf(cfg, tool, fs, [d]) == CaseArtifacts(cfg, tool, d, SortedNames(FilesOf(fs, d)))
  {
    assert [d][..0] == [];
  }

  lemma CaseArtifactsOne(cfg: Config, tool: Tool, d: string, c: string)
    ensures CaseArtifacts(cfg, tool, d, [c]) == [RunCase(cfg, tool, d, c).artifact]
  {
    assert [c][..0] == [];
  }

  /** A walk whose only directory with cases is `sub`, holding the one case `c`. */
  lemma SummarizeOne(cfg: Config, tool: Tool, fs: FileSystem, root: string, sub: string, c: string)
    requires IsDir(fs, root)
    requires Filter(HasCases(fs), Candidates(fs, root)) == [sub]
    requires FilesOf(fs, sub) == [c]
    ensures Summarize(cfg, tool, fs, root) ==
      Some(Report(Document([sub], Section(cfg, tool, sub, [c])), [RunCase(cfg, tool, sub, c).artifact]))
  {
    TablesOne(cfg, tool, fs, sub);
    SortedOne(c);
    CaseArtifactsOne(cfg, tool, sub, c);
  }

  lemma OneEntryDocument(ref: string, table: string)
    ensures Document([ref], table) == Legend + TocLink(ref) + Rule + table + TopLink
  {
    assert [ref][..0] == [];
    assert Toc([ref]) == "" + TocLink(ref);
    assert "" + TocLink(ref) == TocLink(ref);
  }

  /**
   * A corpus `root/a/b/c`: the root holds the directory `a`, which holds the
   * directory `b`, which holds the case `c`. The three candidate
   * directories are the root, `root/a` and `root/a/b`; only the last holds
   * a case, so the contents list just it and the page holds one table.
   * The root is taken not to start with `.`, so that no path of the walk
   * is changed by resolving (which drops a leading `./`); a root such as
   * `./testcases` is covered by `SummaryWalk.CandidatesIff`,
   * `SummaryWalk.ContentsIff` and `SummaryWalk.DocumentLinksResolve`.
   */
  lemma TwoLevelCorpus(cfg: Config, tool: Tool, fs: FileSystem, root: string, a: string, b: string, c: string)
    requires root != [] && root[0] != '.'
    requires !IsCaseFile(a) && !IsCaseFile(b) && IsCaseFile(c)
    requires fs == map[root := [a], root + "/" + a := [b], root + "/" + a + "/" + b := [c]]
    ensures var sub := root + "/" + a + "/" + b;
      Candidates(fs, root) == [root, root + "/" + a, sub] &&
      Summarize(cfg, tool, fs, root) ==
        Some(Report(Legend + TocLink(sub) + Rule + Section(cfg, tool, sub, [c]) + TopLink,
                    [RunCase(cfg, tool, sub, c).artifact]))
  {
    var mid := root + "/" + a;
    var sub := mid + "/" + b;
    ResolvePlain(root);
    ResolvePlain(mid);
    ResolvePlain(sub);
    assert |root| < |mid| < |sub|;
    assert ListDir(fs, root) == Some([a]);
    assert ListDir(fs, mid) == Some([b]);
    assert ListDir(fs, sub) == Some([c]);
    ScanOne(fs, root, a);
    ScanOne(fs, mid, b);
    ScanOne(fs, sub, c);
    CandidatesChain(fs, root, a, b);
    OnlyLastHasCases(fs, root, mid, sub);
    SummarizeOne(cfg, tool, fs, root, sub, c);
    OneEntryDocument(sub, Section(cfg, tool, sub, [c]));
  }

  /**
   * When the analyser fails on both commands of a case, its row holds the
   * link and two `?` cells, and its text file holds the placeholder for
   * both variants.
   */
  lemma BothRunsFail(cfg: Config, tool: Tool, dir: string, t: string)
    requires tool(Command(cfg, dir + "/" + t, EntryPoint(t, GoodMode))) == None
    requires tool(Command(cfg, dir + "/" + t, EntryPoint(t, BadMode))) == None
    ensures CaseRow(cfg, tool, dir, t) == "  <tr>\n" + Cells("td", [Link(t), "?", "?"]) + "</tr>\n"
    ensures RunCase(cfg, tool, dir, t).artifact.content ==
      t + "\n\n" + GoodBanner + Placeholder + "\n" + BadBanner + Placeholder + "\n"
  {
  }

  /**
   * A case whose good entry point is missing (the analyser fails) and whose
   * bad run prints the marker: `?` for Good, `X` for Bad.
   */
  lemma MissingGoodVariant(cfg: Config, tool: Tool, dir: string, t: string, out: Output)
    requires tool(Command(cfg, dir + "/" + t, EntryPoint(t, GoodMode))) == None
    requires tool(Command(cfg, dir + "/" + t, EntryPoint(t, BadMode))) == Some(out)
    requires Contains(out.stdout + out.stderr, Marker)
    ensures CaseRow(cfg, tool, dir, t) == "  <tr>\n" + Cells("td", [Link(t), "?", "X"]) + "</tr>\n"
  {
  }

  /**
   * The text file's path holds the case name but not its directory: two
   * walked directories that each hold a case named `t` both write
   * `summary_fileoutputs/<t>.txt`, so the file written later replaces the
   * other, and the earlier table's link opens the later case's output.
   */
  lemma SameNameSamePath(cfg: Config, tool: Tool, fs: FileSystem, root: string, d1: string, d2: string, t: string)
    requires IsDir(fs, root)
    requires d1 in Candidates(fs, root) && d2 in Candidates(fs, root) && d1 != d2
    requires t in FilesOf(fs, d1) && t in FilesOf(fs, d2)
    ensures Summarize(cfg, tool, fs, root).Some?
    ensures var written := Summarize(cfg, tool, fs, root).value.artifacts;
      RunCase(cfg, tool, d1, t).artifact in written && RunCase(cfg, tool, d2, t).artifact in written &&
      RunCase(cfg, tool, d1, t).artifact.path == RunCase(cfg, tool, d2, t).artifact.path
  {
    var refs := Filter(HasCases(fs), Candidates(fs, root));
    FilterMember(HasCases(fs), Candidates(fs, root), d1);
    FilterMember(HasCases(fs), Candidates(fs, root), d2);
    ArtifactsOfHasEvery(cfg, tool, fs, refs, d1, t);
    ArtifactsOfHasEvery(cfg, tool, fs, refs, d2, t);
  }

  lemma ProtoGroupsOne(fs: FileSystem, root: string, a: string)
    ensures ProtoGroups(fs, root, [a]) == ProtoGroup(fs, root + "/" + a)
  {
    var names := [a];
    assert names[..0] == [];
    assert ProtoGroups(fs, root, names[..0]) == [];
    SeqEmptyLeft(ProtoGroup(fs, root + "/" + a));
  }

  /** A directory in which the prototype finds no directory is a group of its own. */
  lemma ProtoGroupLeaf(fs: FileSystem, m: string)
    requires ProtoDirsOf(fs, m) == []
    ensures ProtoGroup(fs, m) == [m]
  {
    assert Subpaths(m, []) == [];
  }

  /** The prototype's walk of a root whose one directory `a` yields no directory of its own. */
  lemma ProtoCandidatesChain(fs: FileSystem, root: string, a: string)
    requires ProtoDirsOf(fs, root) == [a]
    requires ProtoDirsOf(fs, root + "/" + a) == []
    ensures ProtoCandidates(fs, root) == [root, root + "/" + a]
  {
    ProtoGroupsOne(fs, root, a);
    ProtoGroupLeaf(fs, root + "/" + a);
  }

  /** `./p` names the same directory as `p`. */
  lemma ResolveDotSlash(p: string)
    requires p != [] && p[0] != '.'
    ensures Resolve("./" + p) == p
  {
    assert ("./" + p)[..2] == "./";
    assert ("./" + p)[2..] == p;
    ResolvePlain(p);
  }

  /**
   * The prototype asks `os.path.isdir` about the bare name of each entry,
   * looked up from the working directory: in a corpus `./a/b` where the
   * working directory holds no `b` of its own, the prototype never reaches
   * `./a/b`, while the later script joins the name to its directory and
   * reaches it.
   */
  lemma ProtoMissesNestedDir(fs: FileSystem, a: string, b: string)
    requires a != [] && a[0] != '.' && b != [] && b[0] != '.'
    requires !IsCaseFile(a) && !IsCaseFile(b) && !IsProtoCaseFile(a) && !IsProtoCaseFile(b)
    requires b != a
    requires fs == map["." := [a], a := [b], a + "/" + b := []]
    ensures ProtoCandidates(fs, ".") == [".", "./" + a]
    ensures Candidates(fs, ".") == [".", "./" + a, "./" + a + "/" + b]
  {
    var mid := "./" + a;
    assert Resolve(".") == ".";
    ResolveDotSlash(a);
    ResolveDotSlash(a + "/" + b);
    assert mid + "/" + b == "./" + (a + "/" + b);
    ResolvePlain(b);
    assert |a| < |a + "/" + b|;
    assert a != ".";
    assert ListDir(fs, ".") == Some([a]);
    assert ListDir(fs, mid) == Some([b]);
    assert IsDir(fs, "./" + a);
    assert IsDir(fs, mid + "/" + b);
    assert !IsDir(fs, b);
    ProtoScanOne(fs, ".", a);
    ProtoScanOne(fs, mid, b);
    ScanOne(fs, ".", a);
    ScanOne(fs, mid, b);
    ProtoCandidatesChain(fs, ".", a);
    CandidatesChain(fs, ".", a, b);
  }
}
