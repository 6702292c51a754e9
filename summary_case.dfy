/**
 * One test case of `tests/juliet/juliet_summary.py`: entry-point names,
 * the analyser command, classifying a run, and the per-case text file.
 */
module SummaryCase {
  import opened Wrappers
  import opened Text
  import opened Env

  /** Where the analyser and the shared support code live (the script's first two arguments). */
  datatype Config = Config(goblintPath: string, testsupportPath: string)

  const GoodMode := "_good"
  const BadMode := "_bad"

  /**
   * `re.sub('a?\.c$', mode, filename)`: a trailing `a.c`, or else a
   * trailing `.c`, is replaced by `mode`; a name with neither is returned
   * as it is, with no mode appended.
   */
  function EntryPoint(filename: string, mode: string): (r: string)
    ensures !EndsWith(filename, ".c") ==> r == filename
    ensures EndsWith(filename, ".c") ==> EndsWith(r, mode) && StartsWith(filename, r[..|r| - |mode|])
  {
    if EndsWith(filename, "a.c") then
      var r := filename[..|filename| - 3] + mode;
      assert r[..|r| - |mode|] == filename[..|filename| - 3];
      assert r[|r| - |mode|..] == mode;
      r
    else if EndsWith(filename, ".c") then
      var r := filename[..|filename| - 2] + mode;
      assert r[..|r| - |mode|] == filename[..|filename| - 2];
      assert r[|r| - |mode|..] == mode;
      r
    else filename
  }

  /**
   * The `a` variant of a case and the plain one share their entry points:
   * `X_01a.c` and `X_01.c` both give `X_01` followed by the mode.
   */
  lemma EntryPointOfStem(stem: string, mode: string)
    ensures EntryPoint(stem + "a.c", mode) == stem + mode
    ensures !EndsWith(stem, "a") ==> EntryPoint(stem + ".c", mode) == stem + mode
  {
    assert (stem + "a.c")[|stem + "a.c"| - 3..] == "a.c";
    assert (stem + "a.c")[..|stem + "a.c"| - 3] == stem;
    var plain := stem + ".c";
    assert plain[|plain| - 2..] == ".c";
    assert plain[..|plain| - 2] == stem;
  }

  /** With either mode of the harness, the entry point of a C file no longer ends in `.c`. */
  lemma EntryPointShape(filename: string, mode: string)
    requires EndsWith(filename, ".c")
    requires mode == GoodMode || mode == BadMode
    ensures !EndsWith(EntryPoint(filename, mode), ".c")
  {
    var r := EntryPoint(filename, mode);
    assert r[|r| - 2..] == mode[|mode| - 2..];
  }

  /** The shell command `run_function` builds for entry point `func` of the file at `filepath`. */
  function Command(cfg: Config, filepath: string, func: string): string {
    cfg.goblintPath + " " + filepath + " -I " + cfg.testsupportPath + " --sets \"mainfun[+]\" " + func
      + " --enable dbg.uncalled --enable allglobs --enable printstats"
  }

  /** The words of the command: the file, the include path, the main-function selector and three enabled options. */
  function Arguments(cfg: Config, filepath: string, func: string): seq<string> {
    [cfg.goblintPath, filepath, "-I", cfg.testsupportPath, "--sets", "\"mainfun[+]\"", func,
     "--enable", "dbg.uncalled", "--enable", "allglobs", "--enable", "printstats"]
  }

  /** The command line is its argument words joined by single spaces. */
  lemma CommandIsJoinedArguments(cfg: Config, filepath: string, func: string)
    ensures Command(cfg, filepath, func) == Join(" ", Arguments(cfg, filepath, func))
  {
    var a := Arguments(cfg, filepath, func);
    assert Join(" ", a[..1]) == cfg.goblintPath;
    JoinSnoc(" ", a, 1);
    var j2 := Join(" ", a[..2]);
    JoinSnoc(" ", a, 2);
    JoinSnoc(" ", a, 3);
    var j4 := Join(" ", a[..4]);
    IncludeFlagWords(j2);
    assert j4 == j2 + " -I " + cfg.testsupportPath;
    JoinSnoc(" ", a, 4);
    JoinSnoc(" ", a, 5);
    JoinSnoc(" ", a, 6);
    var j7 := Join(" ", a[..7]);
    SetsFlagWords(j4);
    assert j7 == j4 + " --sets \"mainfun[+]\" " + func;
    JoinSnoc(" ", a, 7);
    JoinSnoc(" ", a, 8);
    var j9 := Join(" ", a[..9]);
    EnableWords(j7, "dbg.uncalled");
    assert j9 == j7 + " --enable dbg.uncalled";
    JoinSnoc(" ", a, 9);
    JoinSnoc(" ", a, 10);
    var j11 := Join(" ", a[..11]);
    EnableWords(j9, "allglobs");
    assert j11 == j9 + " --enable allglobs";
    JoinSnoc(" ", a, 11);
    JoinSnoc(" ", a, 12);
    var j13 := Join(" ", a[..13]);
    EnableWords(j11, "printstats");
    assert j13 == j11 + " --enable printstats";
    EnabledOptions(j7);
    assert a[..13] == a;
    assert j7 == cfg.goblintPath + " " + filepath + " -I " + cfg.testsupportPath + " --sets \"mainfun[+]\" " + func;
  }

  /** Concatenation regrouping aid: the ` -I ` of the command is the word `-I` between two spaces. */
  lemma IncludeFlagWords(x: string)
    ensures x + " -I " == x + " " + "-I" + " "
  {
  }

  /**
   * Concatenation regrouping aid: the ` --sets "mainfun[+]" ` of the command
   * is two words, each after a space.
   */
  lemma SetsFlagWords(x: string)
    ensures x + " --sets \"mainfun[+]\" " == x + " " + "--sets" + " " + "\"mainfun[+]\"" + " "
  {
  }

  /**
   * Concatenation regrouping aid: the three `--enable` options that end
   * every command, one after the other.
   */
  lemma EnabledOptions(x: string)
    ensures x + " --enable dbg.uncalled --enable allglobs --enable printstats"
      == x + " --enable dbg.uncalled" + " --enable allglobs" + " --enable printstats"
  {
  }

  /**
   * Concatenation regrouping aid: an `--enable` option is the word
   * `--enable` and the option's name, each after a space.
   */
  lemma EnableWords(x: string, option: string)
    ensures x + " --enable " + option == x + " " + "--enable" + " " + option
  {
  }

  /**
   * When no path or name holds a space, splitting the command line at
   * spaces recovers exactly the argument words.
   */
  lemma CommandSplits(cfg: Config, filepath: string, func: string)
    requires ' ' !in cfg.goblintPath && ' ' !in filepath && ' ' !in cfg.testsupportPath && ' ' !in func
    ensures Split(Command(cfg, filepath, func), ' ') == Arguments(cfg, filepath, func)
  {
    CommandIsJoinedArguments(cfg, filepath, func);
    var a := Arguments(cfg, filepath, func);
    forall k | 0 <= k < |a| ensures ' ' !in a[k] {
    }
    SplitJoin(a, ' ');
  }

  /**
   * `run_function`: `None` exactly when the run raised; otherwise the
   * captured standard output followed by the standard error.
   */
  function RunFunction(cfg: Config, tool: Tool, filepath: string, filename: string, mode: string): (r: Option<string>)
    ensures var out := tool(Command(cfg, filepath, EntryPoint(filename, mode)));
      r.Some? == out.Some? &&
      (out.Some? ==>
        |r.value| == |out.value.stdout| + |out.value.stderr| &&
        StartsWith(r.value, out.value.stdout) && r.value[|out.value.stdout|..] == out.value.stderr)
  {
    match tool(Command(cfg, filepath, EntryPoint(filename, mode)))
    case None => None
    case Some(out) =>
      var text := out.stdout + out.stderr;
      assert text[..|out.stdout|] == out.stdout && text[|out.stdout|..] == out.stderr;
      Some(text)
  }

  /** The line the analyser prints before its findings. */
  const Marker := "Summary for all memory locations:"

  /** The three outcomes a variant can have. */
  datatype Outcome = Detected | Clean | Unresolved

  /**
   * The cell a variant gets: `?` exactly when its run raised, `X` exactly
   * when the marker occurs somewhere in the output, `-` otherwise.
   */
  function Classify(run: Option<string>): (o: Outcome)
    ensures o == Unresolved <==> run.None?
    ensures o == Detected <==> run.Some? && exists i :: OccursAt(run.value, Marker, i)
  {
    match run
    case None => Unresolved
    case Some(text) =>
      ContainsIff(text, Marker);
      if Contains(text, Marker) then Detected else Clean
  }

  function Symbol(o: Outcome): string {
    match o
    case Detected => "X"
    case Clean => "-"
    case Unresolved => "?"
  }

  /** Reading a cell back: the inverse of `Symbol`. */
  function ParseCell(cell: string): Option<Outcome> {
    if cell == "X" then Some(Detected)
    else if cell == "-" then Some(Clean)
    else if cell == "?" then Some(Unresolved)
    else None
  }

  /** A cell is one of three symbols, each symbol names one outcome, and the symbol is decided by failure and marker alone. */
  lemma CellIff(run: Option<string>)
    ensures Symbol(Classify(run)) in {"X", "-", "?"}
    ensures ParseCell(Symbol(Classify(run))) == Some(Classify(run))
    ensures Symbol(Classify(run)) == "?" <==> run.None?
    ensures Symbol(Classify(run)) == "X" <==> run.Some? && Contains(run.value, Marker)
    ensures Symbol(Classify(run)) == "-" <==> run.Some? && !Contains(run.value, Marker)
  {
  }

  /** What the text file holds for a variant whose run raised. */
  const Placeholder := "Function missing / Error unrelated to Goblint\n"

  const GoodBanner := "#####################\n_GOOD\n#####################\n\n"
  const BadBanner := "#####################\n_BAD\n#####################\n\n"

  /** The directory the per-case text files go to. */
  const OutputsPath := "summary_fileoutputs"

  /** A variant's part of the text file: its output, or the placeholder when the run raised. */
  function VariantText(run: Option<string>): string {
    match run
    case None => Placeholder
    case Some(text) => text
  }

  /** A written file: where, and what. */
  datatype Artifact = Artifact(path: string, content: string)

  function ArtifactPath(t: string): string {
    OutputsPath + "/" + t + ".txt"
  }

  /** Distinct cases write distinct files. */
  lemma ArtifactPathInjective(t1: string, t2: string)
    requires ArtifactPath(t1) == ArtifactPath(t2)
    ensures t1 == t2
  {
    var n := |OutputsPath + "/"|;
    assert t1 == ArtifactPath(t1)[n..|ArtifactPath(t1)| - 4];
    assert t2 == ArtifactPath(t2)[n..|ArtifactPath(t2)| - 4];
  }

  /** The text file of case `t` whose variants produced the texts `good` and `bad`. */
  function ArtifactContent(t: string, good: string, bad: string): string {
    t + "\n\n" + GoodBanner + good + "\n" + BadBanner + bad + "\n"
  }

  /**
   * The text file starts with the case name and a blank line, then the
   * GOOD banner and the good variant's text; it ends with the BAD banner,
   * the bad variant's text and a newline.
   */
  lemma ArtifactLayout(t: string, good: string, bad: string)
    ensures var c := ArtifactContent(t, good, bad);
      var head := t + "\n\n" + GoodBanner;
      StartsWith(c, head) &&
      c[|head|..|head| + |good|] == good &&
      EndsWith(c, BadBanner + bad + "\n")
  {
    var head := t + "\n\n" + GoodBanner;
    assert ArtifactContent(t, good, bad) == head + good + ("\n" + (BadBanner + bad + "\n"));
    assert ArtifactContent(t, good, bad) == (head + (good + "\n")) + (BadBanner + bad + "\n");
    SliceOfJoin(head, good + "\n", BadBanner + bad + "\n");
    SliceOfJoin(head, good, "\n" + (BadBanner + bad + "\n"));
  }

  /** The outcomes and the text file of one case, as one pass of the loop in `goblint_files` leaves them. */
  datatype CaseResult = CaseResult(good: Outcome, bad: Outcome, artifact: Artifact)

  /**
   * Runs both variants of case `t` found in `dir`; a failure of one does
   * not stop the other. Each cell is `?` when its run raised and `X` when
   * the run's standard output and error hold the marker; the text file,
   * named after `t`, holds each run's standard output and error, or the
   * placeholder when that run raised.
   */
  function RunCase(cfg: Config, tool: Tool, dir: string, t: string): (r: CaseResult)
    ensures var g := tool(Command(cfg, dir + "/" + t, EntryPoint(t, GoodMode)));
      var b := tool(Command(cfg, dir + "/" + t, EntryPoint(t, BadMode)));
      var gText := if g.None? then Placeholder else g.value.stdout + g.value.stderr;
      var bText := if b.None? then Placeholder else b.value.stdout + b.value.stderr;
      r.artifact == Artifact(ArtifactPath(t), ArtifactContent(t, gText, bText)) &&
      (r.good == Unresolved <==> g.None?) && (r.good == Detected <==> g.Some? && Contains(gText, Marker)) &&
      (r.bad == Unresolved <==> b.None?) && (r.bad == Detected <==> b.Some? && Contains(bText, Marker))
  {
    var fpath := dir + "/" + t;
    var good := RunFunction(cfg, tool, fpath, t, GoodMode);
    var bad := RunFunction(cfg, tool, fpath, t, BadMode);
    CaseResult(Classify(good), Classify(bad),
      Artifact(ArtifactPath(t), ArtifactContent(t, VariantText(good), VariantText(bad))))
  }

  /** The good cell depends only on the good run and the bad cell only on the bad run. */
  lemma VariantsIndependent(cfg: Config, tool1: Tool, tool2: Tool, dir: string, t: string)
    ensures var cmd := Command(cfg, dir + "/" + t, EntryPoint(t, GoodMode));
      tool1(cmd) == tool2(cmd) ==> RunCase(cfg, tool1, dir, t).good == RunCase(cfg, tool2, dir, t).good
    ensures var cmd := Command(cfg, dir + "/" + t, EntryPoint(t, BadMode));
      tool1(cmd) == tool2(cmd) ==> RunCase(cfg, tool1, dir, t).bad == RunCase(cfg, tool2, dir, t).bad
  {
  }
}
