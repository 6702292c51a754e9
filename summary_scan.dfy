/** Corpus discovery of `tests/juliet/juliet_summary.py`: its `check_path`. */
module SummaryScan {
  import opened Wrappers
  import opened Text
  import opened Seqs
  import opened Env

  /**
   * `re.search('[0-9]{2}a?\.c$', f) != None`: the name ends in two digits,
   * an optional `a` and `.c`. File names hold no newline, so `$` is the end
   * of the name.
   */
  predicate HasCaseSuffix(f: string) {
    (EndsWith(f, ".c") && |f| >= 4 && IsDigit(f[|f| - 4]) && IsDigit(f[|f| - 3]))
    || (EndsWith(f, "a.c") && |f| >= 5 && IsDigit(f[|f| - 5]) && IsDigit(f[|f| - 4]))
  }

  /** The words the pattern `[0-9]{2}a?\.c` matches. */
  predicate SuffixWord(w: string) {
    (|w| == 4 && IsDigit(w[0]) && IsDigit(w[1]) && w[2..] == ".c")
    || (|w| == 5 && IsDigit(w[0]) && IsDigit(w[1]) && w[2..] == "a.c")
  }

  /** The explicit suffix test is the regular-expression search: some suffix of the name is a word of the pattern. */
  lemma HasCaseSuffixIff(f: string)
    ensures HasCaseSuffix(f) <==> exists i :: 0 <= i <= |f| && SuffixWord(f[i..])
  {
    if HasCaseSuffix(f) {
      if EndsWith(f, ".c") && |f| >= 4 && IsDigit(f[|f| - 4]) && IsDigit(f[|f| - 3]) {
        assert f[|f| - 4..][2..] == f[|f| - 2..];
        assert SuffixWord(f[|f| - 4..]);
      } else {
        assert f[|f| - 5..][2..] == f[|f| - 3..];
        assert SuffixWord(f[|f| - 5..]);
      }
    }
    if exists i :: 0 <= i <= |f| && SuffixWord(f[i..]) {
      var i :| 0 <= i <= |f| && SuffixWord(f[i..]);
      var w := f[i..];
      assert f[|f| - 2..] == w[|w| - 2..];
      if |w| == 5 {
        assert f[|f| - 3..] == w[2..];
      }
    }
  }

  /**
   * The test every listed name goes through: the name starts with `CWE`,
   * has the case suffix, and does not mention `w32`.
   */
  predicate IsCaseFile(f: string) {
    StartsWith(f, "CWE") && HasCaseSuffix(f) && !Contains(f, "w32")
  }

  /** What `check_path` returns: the valid files and the directories, each in listing order. */
  datatype Listing = Listing(files: seq<string>, dirs: seq<string>)

  /** A name that is not a case file is kept as a directory when `dir + '/' + name` is one. */
  function IsSubdir(fs: FileSystem, dir: string): string -> bool {
    n => !IsCaseFile(n) && IsDir(fs, dir + "/" + n)
  }

  /** `check_path(dir)`: `None` when `os.listdir(dir)` raises. */
  function Scan(fs: FileSystem, dir: string): Option<Listing> {
    match ListDir(fs, dir)
    case None => None
    case Some(names) => Some(Listing(Filter(IsCaseFile, names), Filter(IsSubdir(fs, dir), names)))
  }

  /** The valid files of `dir`, none when it cannot be listed. */
  function FilesOf(fs: FileSystem, dir: string): seq<string> {
    match Scan(fs, dir)
    case None => []
    case Some(l) => l.files
  }

  /** The subdirectories of `dir`, none when it cannot be listed. */
  function DirsOf(fs: FileSystem, dir: string): seq<string> {
    match Scan(fs, dir)
    case None => []
    case Some(l) => l.dirs
  }

  /**
   * What `check_path` promises: it fails exactly on a path that is not a
   * directory; a name is a valid file iff it passes the name test; it is a
   * directory iff it fails the test and names a directory below `dir`; no
   * name is in both lists, and each list keeps the listing order.
   */
  lemma ScanSpec(fs: FileSystem, dir: string, x: string)
    ensures Scan(fs, dir).Some? <==> IsDir(fs, dir)
    ensures Scan(fs, dir).Some? ==>
      var names := ListDir(fs, dir).value;
      var l := Scan(fs, dir).value;
      (x in l.files <==> x in names && IsCaseFile(x)) &&
      (x in l.dirs <==> x in names && !IsCaseFile(x) && IsDir(fs, dir + "/" + x)) &&
      !(x in l.files && x in l.dirs) &&
      IsSubsequence(l.files, names) && IsSubsequence(l.dirs, names)
  {
    if IsDir(fs, dir) {
      var names := ListDir(fs, dir).value;
      FilterMember(IsCaseFile, names, x);
      FilterMember(IsSubdir(fs, dir), names, x);
      FilterSubsequence(IsCaseFile, names);
      FilterSubsequence(IsSubdir(fs, dir), names);
    }
  }

  /** Every directory found below `dir` can itself be listed. */
  lemma DirsAreListable(fs: FileSystem, dir: string, d: string)
    requires d in DirsOf(fs, dir)
    ensures Scan(fs, dir + "/" + d).Some?
  {
    ScanSpec(fs, dir, d);
  }

  /**
   * `check_path` depends on the order of `os.listdir` only through the
   * order of its two lists: the same entries give the same files and
   * directories, each as often.
   */
  lemma ScanOrderFree(fs1: FileSystem, fs2: FileSystem, dir: string)
    requires SameListings(fs1, fs2)
    ensures IsDir(fs1, dir) == IsDir(fs2, dir)
    ensures multiset(FilesOf(fs1, dir)) == multiset(FilesOf(fs2, dir))
    ensures multiset(DirsOf(fs1, dir)) == multiset(DirsOf(fs2, dir))
  {
    if IsDir(fs1, dir) {
      var names1 := ListDir(fs1, dir).value;
      var names2 := ListDir(fs2, dir).value;
      FilterPermutation(IsCaseFile, names1, names2);
      forall n ensures IsSubdir(fs1, dir)(n) == IsSubdir(fs2, dir)(n) {
      }
      FilterExt(IsSubdir(fs1, dir), IsSubdir(fs2, dir), names2);
      FilterPermutation(IsSubdir(fs1, dir), names1, names2);
    }
  }

  /** `check_path`: one pass over the listing, appending each name to at most one list. */
  method CheckPath(fs: FileSystem, filepath: string) returns (r: Option<Listing>)
    ensures r == Scan(fs, filepath)
  {
    var listed := ListDir(fs, filepath);
    if listed.None? {
      return None;
    }
    var files := listed.value;
    var vFiles: seq<string> := [];
    var dirs: seq<string> := [];
    var i := 0;
    while i < |files|
      invariant 0 <= i <= |files|
      invariant vFiles == Filter(IsCaseFile, files[..i])
      invariant dirs == Filter(IsSubdir(fs, filepath), files[..i])
    {
      var f := files[i];
      FilterStep(IsCaseFile, files, i);
      FilterStep(IsSubdir(fs, filepath), files, i);
      if IsCaseFile(f) {
        vFiles := vFiles + [f];
      } else if IsDir(fs, filepath + "/" + f) {
        dirs := dirs + [f];
      }
      i := i + 1;
    }
    assert files[..i] == files;
    return Some(Listing(vFiles, dirs));
  }
}
