/**
 * The table of one directory in the earlier prototype
 * `tests/juliet/testcases_small/CWE366_Race_Condition_Within_Thread/newtest.py`
 * (its `goblint_files`). Unlike the later script it catches nothing: the
 * first analyser run that raises ends the whole script, so every value here
 * is an `Option` whose `None` is that abort.
 */
module ProtoReport {
  import opened Wrappers
  import opened Text
  import opened Sorting
  import opened Seqs
  import opened Env
  import opened SummaryCase
  import opened SummaryReport
  import opened ProtoCase

  /** `h` followed by the text `s`, or the abort when `s` is one. */
  function Extend(h: string, s: Option<string>): Option<string> {
    match s
    case None => None
    case Some(x) => Some(h + x)
  }

  /** A row of the prototype's table: the bare case name and the two cells. */
  function ProtoRow(t: string, vGood: string, vBad: string): string {
    "  <tr>\n" + Cells("td", [t, vGood, vBad]) + "</tr>\n"
  }

  /** The row of case `t` of directory `dir`: the good run, then the bad one; the abort if either raises. */
  function ProtoCaseRow(tool: Tool, dir: string, t: string): Option<string> {
    var fPath := dir + "/" + t;
    match ProtoRunFunction(tool, fPath, t, GoodMode)
    case None => None
    case Some(outputGood) =>
      match ProtoRunFunction(tool, fPath, t, BadMode)
      case None => None
      case Some(outputBad) => Some(ProtoRow(t, ProtoSymbol(outputGood), ProtoSymbol(outputBad)))
  }

  /** The rows of the cases `ts`, in that order; the abort at the first case whose run raises. */
  function ProtoRows(tool: Tool, dir: string, ts: seq<string>): Option<string>
    decreases |ts|
  {
    if ts == [] then Some("")
    else
      match ProtoRows(tool, dir, ts[..|ts| - 1])
      case None => None
      case Some(h) => Extend(h, ProtoCaseRow(tool, dir, ts[|ts| - 1]))
  }

  /** The title paragraph, which is also the anchor of the directory, and the column headers. */
  function ProtoSectionHead(filepath: string): string {
    "\n<p id=\"" + filepath + "\">Folder: " + filepath + "</p>\n"
      + "<table border=1>\n" + "  <tr>\n" + Cells("th", ColumnNames) + "  </tr>\n"
  }

  const ProtoSectionEnd := "</table>\n" + "<br><a href=\"#top\">Go to top</a><hr><br>\n"

  /** The table of a directory: the head, one row per case in sorted order, and the end. */
  function ProtoSection(tool: Tool, dir: string, testcases: seq<string>): Option<string> {
    match ProtoRows(tool, dir, SortedNames(testcases))
    case None => None
    case Some(rows) => Some(ProtoSectionHead(dir) + rows + ProtoSectionEnd)
  }

  /** A case gets a row exactly when both its runs return; the row then holds its name and two symbols. */
  lemma ProtoCaseRowIff(tool: Tool, dir: string, t: string)
    ensures var fPath := dir + "/" + t;
      var good := ProtoRunFunction(tool, fPath, t, GoodMode);
      var bad := ProtoRunFunction(tool, fPath, t, BadMode);
      (ProtoCaseRow(tool, dir, t).Some? <==> good.Some? && bad.Some?) &&
      (ProtoCaseRow(tool, dir, t).Some? ==>
        ProtoCaseRow(tool, dir, t).value == ProtoRow(t, ProtoSymbol(good.value), ProtoSymbol(bad.value)) &&
        ParseCell(ProtoSymbol(good.value)) == Some(if Contains(good.value, HyphenMarker) then Detected else Clean) &&
        ParseCell(ProtoSymbol(bad.value)) == Some(if Contains(bad.value, HyphenMarker) then Detected else Clean))
  {
    var fPath := dir + "/" + t;
    var good := ProtoRunFunction(tool, fPath, t, GoodMode);
    var bad := ProtoRunFunction(tool, fPath, t, BadMode);
    if good.Some? && bad.Some? {
      ProtoCellIff(good.value);
      ProtoCellIff(bad.value);
    }
  }

  lemma ProtoRowsSnoc(tool: Tool, dir: string, ts: seq<string>, i: int)
    requires 0 <= i < |ts|
    ensures ProtoRows(tool, dir, ts[..i + 1]) ==
      match ProtoRows(tool, dir, ts[..i])
      case None => None
      case Some(h) => Extend(h, ProtoCaseRow(tool, dir, ts[i]))
  {
    assert ts[..i + 1][..i] == ts[..i];
  }

  /** Once the rows of a prefix abort, so do the rows of the whole list: no later case is run. */
  lemma {:induction false} ProtoRowsPrefixNone(tool: Tool, dir: string, ts: seq<string>, k: int)
    requires 0 <= k <= |ts|
    requires ProtoRows(tool, dir, ts[..k]) == None
    ensures ProtoRows(tool, dir, ts) == None
    decreases |ts|
  {
    if k < |ts| {
      var init := ts[..|ts| - 1];
      assert init[..k] == ts[..k];
      ProtoRowsPrefixNone(tool, dir, init, k);
    } else {
      assert ts[..k] == ts;
    }
  }

  /**
   * The rows come out exactly when the runs of every case of the list
   * return.
   */
  lemma {:induction false} ProtoRowsIff(tool: Tool, dir: string, ts: seq<string>)
    ensures ProtoRows(tool, dir, ts).Some? <==> forall t :: t in ts ==> ProtoCaseRow(tool, dir, t).Some?
    decreases |ts|
  {
    if ts != [] {
      var init := ts[..|ts| - 1];
      ProtoRowsIff(tool, dir, init);
      forall t ensures t in ts <==> t in init || t == ts[|ts| - 1] {
        InitMember(ts, t);
      }
    }
  }

  /** When the rows come out, each case of the list has its row among them. */
  lemma {:induction false} ProtoRowsHaveEveryCase(tool: Tool, dir: string, ts: seq<string>, t: string)
    requires ProtoRows(tool, dir, ts).Some?
    requires t in ts
    ensures ProtoCaseRow(tool, dir, t).Some?
    ensures Contains(ProtoRows(tool, dir, ts).value, ProtoCaseRow(tool, dir, t).value)
    decreases |ts|
  {
    var init := ts[..|ts| - 1];
    var last := ts[|ts| - 1];
    var h := ProtoRows(tool, dir, init).value;
    InitMember(ts, t);
    if t == last {
      var row := ProtoCaseRow(tool, dir, t).value;
      ContainsSelf(row);
      ContainsSuffix(h, row, row);
    } else {
      ProtoRowsHaveEveryCase(tool, dir, init, t);
      ContainsPrefix(h, ProtoCaseRow(tool, dir, last).value, "", ProtoCaseRow(tool, dir, t).value);
    }
  }

  /** When a directory's table comes out, it holds a row for each of its cases. */
  lemma ProtoSectionHasEveryCase(tool: Tool, dir: string, testcases: seq<string>, t: string)
    requires ProtoSection(tool, dir, testcases).Some?
    requires t in testcases
    ensures ProtoCaseRow(tool, dir, t).Some?
    ensures Contains(ProtoSection(tool, dir, testcases).value, ProtoCaseRow(tool, dir, t).value)
  {
    var sorted := SortedNames(testcases);
    var rows := ProtoRows(tool, dir, sorted).value;
    SortedNamesMember(testcases, t);
    ProtoRowsHaveEveryCase(tool, dir, sorted, t);
    ContainsWithin(ProtoSectionHead(dir), rows, ProtoSectionEnd, ProtoCaseRow(tool, dir, t).value);
  }

  /** The table comes out exactly when the runs of every case return. */
  lemma ProtoSectionIff(tool: Tool, dir: string, testcases: seq<string>)
    ensures ProtoSection(tool, dir, testcases).Some? <==>
      forall t :: t in testcases ==> ProtoCaseRow(tool, dir, t).Some?
  {
    var sorted := SortedNames(testcases);
    ProtoRowsIff(tool, dir, sorted);
    forall t ensures t in sorted <==> t in testcases {
      SortedNamesMember(testcases, t);
    }
  }

  /** The table's anchor is the opening paragraph of its head. */
  lemma ProtoSectionHasAnchor(tool: Tool, dir: string, testcases: seq<string>)
    requires ProtoSection(tool, dir, testcases).Some?
    ensures StartsWith(ProtoSection(tool, dir, testcases).value, "\n" + Anchor(dir))
  {
    var rows := ProtoRows(tool, dir, SortedNames(testcases)).value;
    var rest := dir + "</p>\n" + "<table border=1>\n" + "  <tr>\n" + Cells("th", ColumnNames) + "  </tr>\n"
      + rows + ProtoSectionEnd;
    ProtoHeadAtFolderName("\n<p id=\"", dir, "\">Folder: ", "</p>\n", "<table border=1>\n", "  <tr>\n",
      Cells("th", ColumnNames), "  </tr>\n", rows, ProtoSectionEnd);
    AnchorDelimiters();
    AnchorAsOnePiece("\n", "<p id=\"", dir, "\">", "Folder: ", rest);
    assert ("\n" + Anchor(dir) + ("Folder: " + rest))[..|"\n" + Anchor(dir)|] == "\n" + Anchor(dir);
  }

  /**
   * Concatenation regrouping aid: regroups a prototype section as the text
   * up to `Folder: `, then the folder name and everything after it.
   */
  lemma ProtoHeadAtFolderName(x1: string, dir: string, x2: string, x3: string, a: string, b: string, c: string, d: string,
                              rows: string, e: string)
    ensures x1 + dir + x2 + dir + x3 + a + b + c + d + rows + e == x1 + dir + x2 + (dir + x3 + a + b + c + d + rows + e)
  {
  }

  /** The table does not depend on the order in which the directory listed its cases. */
  lemma ProtoSectionOrderFree(tool: Tool, dir: string, a: seq<string>, b: seq<string>)
    requires multiset(a) == multiset(b)
    ensures ProtoSection(tool, dir, a) == ProtoSection(tool, dir, b)
  {
    SortedNamesOrderFree(a, b);
  }

  /**
   * `goblint_files` of the prototype: the table of `filepath` after
   * `htmlTable`, or the abort when a run raises.
   */
  method ProtoGoblintFiles(tool: Tool, testcases: seq<string>, filepath: string, htmlTable: string)
    returns (r: Option<string>)
    ensures r == Extend(htmlTable, ProtoSection(tool, filepath, testcases))
  {
    var html := ProtoAppendHead(htmlTable, filepath);
    var cases := SortedNames(testcases);
    var rows := ProtoAppendRows(tool, filepath, cases, html);
    if rows.None? {
      return None;
    }
    AppendPieces(htmlTable, ProtoSectionHead(filepath), ProtoRows(tool, filepath, cases).value, ProtoSectionEnd);
    html := rows.value + "</table>\n";
    html := html + "<br><a href=\"#top\">Go to top</a><hr><br>\n";
    ConcatAssoc(rows.value, "</table>\n", "<br><a href=\"#top\">Go to top</a><hr><br>\n");
    r := Some(html);
  }

  /** The title paragraph and the header row. */
  method ProtoAppendHead(htmlTable: string, filepath: string) returns (html: string)
    ensures html == htmlTable + ProtoSectionHead(filepath)
  {
    html := htmlTable + "\n<p id=\"" + filepath + "\">Folder: " + filepath + "</p>\n";
    html := html + "<table border=1>\n";
    html := html + "  <tr>\n";
    html := AppendCells(html, "th", ColumnNames);
    html := html + "  </tr>\n";
    AppendNinePieces(htmlTable, "\n<p id=\"", filepath, "\">Folder: ", filepath, "</p>\n",
      "<table border=1>\n", "  <tr>\n", Cells("th", ColumnNames), "  </tr>\n");
  }

  /** The loop over the sorted cases, left by the first run that raises. */
  method ProtoAppendRows(tool: Tool, filepath: string, cases: seq<string>, head: string)
    returns (r: Option<string>)
    ensures r == Extend(head, ProtoRows(tool, filepath, cases))
  {
    var html := head;
    var i := 0;
    assert cases[..0] == [];
    assert ProtoRows(tool, filepath, cases[..0]) == Some("");
    assert head + "" == head;
    assert Extend(head, ProtoRows(tool, filepath, cases[..0])) == Some(html);
    while i < |cases|
      invariant 0 <= i <= |cases|
      invariant Extend(head, ProtoRows(tool, filepath, cases[..i])) == Some(html)
    {
      ProtoRowsSnoc(tool, filepath, cases, i);
      var next := ProtoAppendCase(tool, filepath, cases[i], html);
      if next.None? {
        ProtoRowsPrefixNone(tool, filepath, cases, i + 1);
        return None;
      }
      var before := ProtoRows(tool, filepath, cases[..i]).value;
      ConcatAssoc(head, before, ProtoCaseRow(tool, filepath, cases[i]).value);
      html := next.value;
      i := i + 1;
    }
    assert cases[..i] == cases;
    r := Some(html);
  }

  /** One pass of the loop over the cases: both runs, the two symbols, the row. */
  method ProtoAppendCase(tool: Tool, filepath: string, t: string, htmlTable: string)
    returns (r: Option<string>)
    ensures r == Extend(htmlTable, ProtoCaseRow(tool, filepath, t))
  {
    var fPath := filepath + "/" + t;
    var outputGood := ProtoRunFunction(tool, fPath, t, GoodMode);
    if outputGood.None? {
      return None;
    }
    var outputBad := ProtoRunFunction(tool, fPath, t, BadMode);
    if outputBad.None? {
      return None;
    }
    var vGood, vBad := "-", "-";
    if Contains(outputGood.value, HyphenMarker) {
      vGood := "X";
    }
    if Contains(outputBad.value, HyphenMarker) {
      vBad := "X";
    }
    var result := [t, vGood, vBad];
    var html := htmlTable + "  <tr>\n";
    html := AppendCells(html, "td", result);
    html := html + "</tr>\n";
    AppendPieces(htmlTable, "  <tr>\n", Cells("td", result), "</tr>\n");
    r := Some(html);
  }
}
