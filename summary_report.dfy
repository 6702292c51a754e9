/**
 * Report assembly of `tests/juliet/juliet_summary.py`: the table of one
 * directory (`goblint_files`), the fixed two-level walk over the corpus and
 * the final document with its table of contents.
 */
module SummaryReport {
  import opened Wrappers
  import opened Text
  import opened Sorting
  import opened Seqs
  import opened Env
  import opened SummaryScan
  import opened SummaryCase

  /** One table cell, `"    <tag>{0}</tag>\n".format(column.strip())`. */
  function Cell(tag: string, column: string): string {
    "    <" + tag + ">" + Strip(column) + "</" + tag + ">\n"
  }

  /** The cells of one table row, in column order. */
  function Cells(tag: string, columns: seq<string>): string
    decreases |columns|
  {
    if columns == [] then ""
    else Cells(tag, columns[..|columns| - 1]) + Cell(tag, columns[|columns| - 1])
  }

  /** The loop over the columns of a row. */
  method AppendCells(html: string, tag: string, columns: seq<string>) returns (r: string)
    ensures r == html + Cells(tag, columns)
  {
    r := html;
    var i := 0;
    while i < |columns|
      invariant 0 <= i <= |columns|
      invariant r == html + Cells(tag, columns[..i])
    {
      assert columns[..i + 1][..i] == columns[..i];
      r := r + Cell(tag, columns[i]);
      i := i + 1;
    }
    assert columns[..i] == columns;
  }

  const ColumnNames := ["Testcase", "Good", "Bad"]

  /** The target of a table-of-contents link: the paragraph that opens a directory's table. */
  function Anchor(filepath: string): string {
    "<p id=\"" + filepath + "\">"
  }

  /** The title paragraph and the column headers of a directory's table. */
  function SectionHead(filepath: string): string {
    "\n<p id=\"" + filepath + "\">Folder: " + filepath + "&emsp;<a href=\"#top\">Go to top</a></p>\n"
      + "<table border=1>\n" + "  <tr>\n" + Cells("th", ColumnNames) + "  </tr>\n"
  }

  const SectionEnd := "</table><br><hr><br>\n"

  /** The first cell of a row: the case name linked to its text file. */
  function Link(t: string): string {
    "<a href=\"" + ArtifactPath(t) + "\" target=\"_blank\">" + t + "</a>"
  }

  function Row(t: string, good: Outcome, bad: Outcome): string {
    "  <tr>\n" + Cells("td", [Link(t), Symbol(good), Symbol(bad)]) + "</tr>\n"
  }

  /** The row of case `t` of directory `dir`. */
  function CaseRow(cfg: Config, tool: Tool, dir: string, t: string): string {
    var c := RunCase(cfg, tool, dir, t);
    Row(t, c.good, c.bad)
  }

  /** The rows of the cases `ts`, in that order. */
  function Rows(cfg: Config, tool: Tool, dir: string, ts: seq<string>): string
    decreases |ts|
  {
    if ts == [] then ""
    else Rows(cfg, tool, dir, ts[..|ts| - 1]) + CaseRow(cfg, tool, dir, ts[|ts| - 1])
  }

  /** The text files of the cases `ts`, in the order they are written. */
  function CaseArtifacts(cfg: Config, tool: Tool, dir: string, ts: seq<string>): seq<Artifact>
    decreases |ts|
  {
    if ts == [] then []
    else CaseArtifacts(cfg, tool, dir, ts[..|ts| - 1]) + [RunCase(cfg, tool, dir, ts[|ts| - 1]).artifact]
  }

  /** The table of a directory: the head, one row per case in sorted order, and the end. */
  function Section(cfg: Config, tool: Tool, dir: string, testcases: seq<string>): string {
    SectionHead(dir) + Rows(cfg, tool, dir, SortedNames(testcases)) + SectionEnd
  }

  /**
   * `goblint_files`: appends the table of `filepath` to `htmlTable` and
   * writes a text file per case, going through the cases in sorted order.
   */
  method GoblintFiles(cfg: Config, tool: Tool, testcases: seq<string>, filepath: string, htmlTable: string)
    returns (html: string, written: seq<Artifact>)
    ensures html == htmlTable + Section(cfg, tool, filepath, testcases)
    ensures written == CaseArtifacts(cfg, tool, filepath, SortedNames(testcases))
  {
    html := AppendHead(htmlTable, filepath);
    var cases := SortedNames(testcases);
    html, written := AppendRows(cfg, tool, filepath, cases, html);
    AppendPieces(htmlTable, SectionHead(filepath), Rows(cfg, tool, filepath, cases), SectionEnd);
    html := html + SectionEnd;
  }

  /** The loop over the sorted cases: one row and one text file per case. */
  method AppendRows(cfg: Config, tool: Tool, filepath: string, cases: seq<string>, head: string)
    returns (html: string, written: seq<Artifact>)
    ensures html == head + Rows(cfg, tool, filepath, cases)
    ensures written == CaseArtifacts(cfg, tool, filepath, cases)
  {
    html := head;
    written := [];
    var i := 0;
    assert cases[..0] == [];
    assert Rows(cfg, tool, filepath, cases[..0]) == "";
    assert html == head + Rows(cfg, tool, filepath, cases[..0]);
    while i < |cases|
      invariant 0 <= i <= |cases|
      invariant html == head + Rows(cfg, tool, filepath, cases[..i])
      invariant written == CaseArtifacts(cfg, tool, filepath, cases[..i])
    {
      RowsSnoc(cfg, tool, filepath, cases, i);
      var artifact;
      ConcatAssoc(head, Rows(cfg, tool, filepath, cases[..i]), CaseRow(cfg, tool, filepath, cases[i]));
      html, artifact := AppendCase(cfg, tool, filepath, cases[i], html);
      written := written + [artifact];
      i := i + 1;
    }
    assert cases[..i] == cases;
  }

  /** Extending a list of cases by one appends that case's row and text file. */
  lemma RowsSnoc(cfg: Config, tool: Tool, dir: string, ts: seq<string>, i: int)
    requires 0 <= i < |ts|
    ensures Rows(cfg, tool, dir, ts[..i + 1]) == Rows(cfg, tool, dir, ts[..i]) + CaseRow(cfg, tool, dir, ts[i])
    ensures CaseArtifacts(cfg, tool, dir, ts[..i + 1])
      == CaseArtifacts(cfg, tool, dir, ts[..i]) + [RunCase(cfg, tool, dir, ts[i]).artifact]
  {
    assert ts[..i + 1][..i] == ts[..i];
  }

  /** The title paragraph and the header row. */
  method AppendHead(htmlTable: string, filepath: string) returns (html: string)
    ensures html == htmlTable + SectionHead(filepath)
  {
    html := htmlTable + "\n<p id=\"" + filepath + "\">Folder: " + filepath + "&emsp;<a href=\"#top\">Go to top</a></p>\n";
    html := html + "<table border=1>\n";
    html := html + "  <tr>\n";
    html := AppendCells(html, "th", ColumnNames);
    html := html + "  </tr>\n";
    AppendNinePieces(htmlTable, "\n<p id=\"", filepath, "\">Folder: ", filepath, "&emsp;<a href=\"#top\">Go to top</a></p>\n",
      "<table border=1>\n", "  <tr>\n", Cells("th", ColumnNames), "  </tr>\n");
  }

  /** One pass of the loop over the cases: run both variants, write the text file, append the row. */
  method AppendCase(cfg: Config, tool: Tool, filepath: string, t: string, htmlTable: string)
    returns (html: string, written: Artifact)
    ensures html == htmlTable + CaseRow(cfg, tool, filepath, t)
    ensures written == RunCase(cfg, tool, filepath, t).artifact
  {
    var fPath := filepath + "/" + t;
    var vGood, vBad := "-", "-";
    var outputGood, outputBad := Placeholder, Placeholder;
    var good := RunFunction(cfg, tool, fPath, t, GoodMode);
    match good {
      case None => vGood := "?";
      case Some(out) =>
        outputGood := out;
        if Contains(out, Marker) { vGood := "X"; }
    }
    var bad := RunFunction(cfg, tool, fPath, t, BadMode);
    match bad {
      case None => vBad := "?";
      case Some(out) =>
        outputBad := out;
        if Contains(out, Marker) { vBad := "X"; }
    }
    assert vGood == Symbol(Classify(good)) && outputGood == VariantText(good);
    assert vBad == Symbol(Classify(bad)) && outputBad == VariantText(bad);
    var title := t + "\n\n";
    var outputString := title + GoodBanner + outputGood + "\n" + BadBanner + outputBad + "\n";
    var outputFile := OutputsPath + "/" + t + ".txt";
    written := Artifact(outputFile, outputString);
    var outputHtml := "<a href=\"" + outputFile + "\" target=\"_blank\">" + t + "</a>";
    assert outputHtml == Link(t);
    var result := [outputHtml, vGood, vBad];
    html := htmlTable + "  <tr>\n";
    html := AppendCells(html, "td", result);
    html := html + "</tr>\n";
    AppendPieces(htmlTable, "  <tr>\n", Cells("td", result), "</tr>\n");
  }

  /** The cells of a row are written as they are: stripping changes none of them. */
  lemma RowCellsUnstripped(t: string, o: Outcome)
    ensures Strip(Link(t)) == Link(t)
    ensures Strip(Symbol(o)) == Symbol(o)
  {
    var l := Link(t);
    assert l[0] == '<';
    assert l[|l| - 1] == '>';
    StripTrimmed(l);
    StripTrimmed(Symbol(o));
  }

  /** A directory's table opens with the anchor its table-of-contents link points to. */
  lemma SectionHasAnchor(cfg: Config, tool: Tool, dir: string, testcases: seq<string>)
    ensures Contains(Section(cfg, tool, dir, testcases), Anchor(dir))
  {
    var tail := "&emsp;<a href=\"#top\">Go to top</a></p>\n" + "<table border=1>\n" + "  <tr>\n"
      + Cells("th", ColumnNames) + "  </tr>\n";
    HeadAtFolderName(dir, "\n<p id=\"", "\">Folder: ", "&emsp;<a href=\"#top\">Go to top</a></p>\n",
      "<table border=1>\n", "  <tr>\n", Cells("th", ColumnNames), "  </tr>\n");
    AnchorDelimiters();
    AnchorAsOnePiece("\n", "<p id=\"", dir, "\">", "Folder: ", dir + tail);
    ContainsPiece("\n", Anchor(dir), "Folder: " + (dir + tail));
    ContainsPrefix(SectionHead(dir), Rows(cfg, tool, dir, SortedNames(testcases)), SectionEnd, Anchor(dir));
  }

  /**
   * Concatenation regrouping aid: the literals around a title paragraph's
   * anchor, split where the anchor begins and ends.
   */
  lemma AnchorDelimiters()
    ensures "\n<p id=\"" == "\n" + "<p id=\""
    ensures "\">Folder: " == "\">" + "Folder: "
  {
  }

  /**
   * Concatenation regrouping aid: regroups a section head as the text up to
   * `Folder: `, then the folder name and everything after it.
   */
  lemma HeadAtFolderName(dir: string, l1: string, l2: string, l3: string, l4: string, l5: string, c: string, l6: string)
    ensures l1 + dir + l2 + dir + l3 + l4 + l5 + c + l6 == l1 + dir + l2 + (dir + (l3 + l4 + l5 + c + l6))
  {
  }

  /**
   * Concatenation regrouping aid: regroups a title paragraph so that its
   * anchor `<p id="dir">` is one piece.
   */
  lemma AnchorAsOnePiece(p: string, q: string, dir: string, r: string, s: string, rest: string)
    ensures (p + q) + dir + (r + s) + rest == p + (q + dir + r) + (s + rest)
  {
  }

  /** Every case has a row in its directory's table. */
  lemma {:induction false} RowsHaveEveryCase(cfg: Config, tool: Tool, dir: string, ts: seq<string>, t: string)
    requires t in ts
    ensures Contains(Rows(cfg, tool, dir, ts), CaseRow(cfg, tool, dir, t))
    decreases |ts|
  {
    var init := ts[..|ts| - 1];
    var last := ts[|ts| - 1];
    assert ts == init + [last];
    if t == last {
      ContainsSelf(CaseRow(cfg, tool, dir, t));
      ContainsSuffix(Rows(cfg, tool, dir, init), CaseRow(cfg, tool, dir, t), CaseRow(cfg, tool, dir, t));
    } else {
      RowsHaveEveryCase(cfg, tool, dir, init, t);
      ContainsPrefix(Rows(cfg, tool, dir, init), CaseRow(cfg, tool, dir, last), "", CaseRow(cfg, tool, dir, t));
    }
  }

  /** A directory's table has a row for each of its test cases. */
  lemma SectionHasEveryCase(cfg: Config, tool: Tool, dir: string, testcases: seq<string>, t: string)
    requires t in testcases
    ensures Contains(Section(cfg, tool, dir, testcases), CaseRow(cfg, tool, dir, t))
  {
    var sorted := SortedNames(testcases);
    SortedNamesMember(testcases, t);
    RowsHaveEveryCase(cfg, tool, dir, sorted, t);
    ContainsWithin(SectionHead(dir), Rows(cfg, tool, dir, sorted), SectionEnd, CaseRow(cfg, tool, dir, t));
  }

  /** The text files of a list of cases: one per case, in the list's order. */
  lemma {:induction false} CaseArtifactsAt(cfg: Config, tool: Tool, dir: string, ts: seq<string>, k: int)
    requires 0 <= k < |ts|
    ensures |CaseArtifacts(cfg, tool, dir, ts)| == |ts|
    ensures CaseArtifacts(cfg, tool, dir, ts)[k] == RunCase(cfg, tool, dir, ts[k]).artifact
    ensures CaseArtifacts(cfg, tool, dir, ts)[k].path == ArtifactPath(ts[k])
    decreases |ts|
  {
    var init := ts[..|ts| - 1];
    if k < |ts| - 1 {
      CaseArtifactsAt(cfg, tool, dir, init, k);
    } else if |ts| > 1 {
      CaseArtifactsAt(cfg, tool, dir, init, 0);
    }
  }
}
