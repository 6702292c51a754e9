# Juliet summary harness, modelled in Dafny

This project models the two Python scripts that drive the Goblint analyser
over the Juliet test suite and summarise what it finds:

- `tests/juliet/juliet_summary.py`, the summary script: it lists a corpus
  root, each directory below it and each directory below those (sorted at
  every level), picks the test-case files by name, runs Goblint on the
  `_good` and the `_bad` entry point of each case, marks each run `X`
  (the output holds `Summary for all memory locations:`), `-` (it does not)
  or `?` (the run raised), writes a text file per case with both outputs,
  and assembles an HTML page with a legend, a table of contents and one
  table per directory that holds cases;
- `tests/juliet/testcases_small/CWE366_Race_Condition_Within_Thread/newtest.py`,
  its earlier prototype: a looser name test, a bare-name directory test,
  the entry point taken before the first dot, a fixed command line, the
  hyphen marker `-------------------`, no `?` cell (a failed run ends the
  script) and no table of contents.

The operating system and the analyser become values (`env.dfy`): the
directory tree is a map from a resolved path to its entries in
`os.listdir` order (`os.path.isdir(p)` holds when the resolved path is a
key; resolving only drops leading `./`), and Goblint run through the shell
is a function from the command string to `Option<Output>`, `None` being
the exception `subprocess.run(..., check=True)` raises. Each script's
functions keep their imperative form as methods (the list-appending loop
of `check_path`, the string-growing loops of `goblint_files`, the nested
top-level loops that grow `table` and `contents_href`), each proved equal
to a function that states the result without the loops; the properties
are lemmas about those functions. The regular expressions of both scripts
are written as explicit predicates (`StartsWith`, `EndsWith`, `Contains`);
`list.sort()` is `SortedNames`, proved sorted, a permutation, and the only
sorted permutation.

Files: `wrappers.dfy` (`Option`), `text.dfy` (string predicates, `str.strip`, `str.split`, joining),
`seqs.dfy` (order-preserving filtering), `sorting.dfy` (Python string
order and `list.sort()`), `env.dfy` (file system and analyser),
`summary_scan.dfy`, `summary_case.dfy`, `summary_report.dfy`,
`summary_walk.dfy` (the summary script), `proto_case.dfy`,
`proto_report.dfy`, `proto_walk.dfy` (the prototype), `scenarios.dfy`
(small corpora worked through).

Behaviours of the code that the model keeps as they are:

- A directory that cannot be listed ends the script: `check_path` does not
  catch the error of `os.listdir`. In the summary script only the root can
  fail this way, because every directory it lists afterwards was reported
  by `os.path.isdir` (`SummaryWalk.CandidatesListable`);
  `SummaryWalk.Summarize` is `None` exactly when the root is not a
  directory.
- The summary script's bare `except:` turns any exception of a run into
  `?`, not only a non-zero exit; the tool function's `None` stands for
  every such exception.
- The per-case text file is named after the whole file name, extension
  included: `summary_fileoutputs/` + name + `.txt`. The path holds no
  directory, so two walked directories that each hold a case of the same
  name write the same file, the later write replaces the earlier one, and
  the earlier table's link opens the later case's output
  (`Scenarios.SameNameSamePath`).
- The prototype walks two levels, like the later script, but in listing
  order and with the bare-name directory test `os.path.isdir(f)`, so it
  never reaches a second-level directory unless the working directory
  happens to hold a directory of the same name
  (`Scenarios.ProtoMissesNestedDir`).

## Model

| member | source | states |
|---|---|---|
| SummaryScan.HasCaseSuffixIff | tests/juliet/juliet_summary.py:32 | the explicit suffix test holds iff some suffix of the name is a word of `[0-9]{2}a?\.c`, i.e. iff the anchored search succeeds |
| SummaryScan.ScanSpec | tests/juliet/juliet_summary.py:27-35 | `check_path` fails iff the path is not a directory; a name is a valid file iff it starts with `CWE`, has the case suffix and lacks `w32`; it is a directory iff it fails that test and `filepath + '/' + name` is a directory; no name is in both lists; both lists keep listing order |
| SummaryScan.CheckPath | tests/juliet/juliet_summary.py:27-35 | the append loop returns exactly the filtered files and directories, `None` when listing raises |
| SummaryScan.DirsAreListable | tests/juliet/juliet_summary.py:33-34 | every directory `check_path` reports can itself be listed |
| SummaryScan.ScanOrderFree | tests/juliet/juliet_summary.py:28-35 | two listings of the same entries in another order give the same files and directories, each as often |
| SummaryCase.EntryPointOfStem | tests/juliet/juliet_summary.py:40 | `X_01a.c` and `X_01.c` both become `X_01` followed by the mode |
| SummaryCase.EntryPointShape | tests/juliet/juliet_summary.py:40 | with `_good` or `_bad`, the entry point of a `.c` name never ends in `.c` |
| SummaryCase.EntryPoint | tests/juliet/juliet_summary.py:40 | a name not ending in `.c` is returned unchanged, with no mode appended; for a `.c` name the result ends in the mode and what precedes the mode is a prefix of the name |
| SummaryCase.CommandIsJoinedArguments | tests/juliet/juliet_summary.py:41 | the command is the analyser, the file, `-I`, the support path, `--sets`, `"mainfun[+]"`, the entry point and the three `--enable` options, joined by single spaces |
| SummaryCase.CommandSplits | tests/juliet/juliet_summary.py:41 | when no path or name holds a space, splitting the command at spaces gives exactly those thirteen words |
| SummaryCase.RunFunction | tests/juliet/juliet_summary.py:38-44 | `None` exactly when the run raised; otherwise the result is the run's standard output immediately followed by its standard error |
| SummaryCase.Classify | tests/juliet/juliet_summary.py:61-76 | `?` exactly when the run raised; `X` exactly when the marker occurs at some position of the output |
| SummaryCase.CellIff | tests/juliet/juliet_summary.py:61-76 | a cell is one of `X`, `-`, `?`; `?` iff the run raised; `X` iff it returned and its output holds the marker; `-` iff it returned without the marker; reading the cell back gives the outcome |
| SummaryCase.ArtifactPathInjective | tests/juliet/juliet_summary.py:83 | distinct case names write distinct text files (the path does not depend on the directory; see `Scenarios.SameNameSamePath`) |
| SummaryCase.ArtifactLayout | tests/juliet/juliet_summary.py:79-82 | the text file starts with the case name, a blank line and the GOOD banner, then the good variant's text, and ends with the BAD banner, the bad variant's text and a newline |
| SummaryCase.VariantsIndependent | tests/juliet/juliet_summary.py:67-76 | the good cell depends only on the good run and the bad cell only on the bad run, so one variant's failure leaves the other's cell unchanged |
| SummaryCase.RunCase | tests/juliet/juliet_summary.py:58-85 | for every analyser: each cell is `?` iff its run raised and `X` iff its standard output and error hold the marker; the text file is at `summary_fileoutputs/<t>.txt` and holds, for each variant, the placeholder when its run raised and otherwise that run's standard output followed by its standard error |
| SummaryReport.AppendCells | tests/juliet/juliet_summary.py:54-55 | the loop over the columns appends one stripped cell per column, in order |
| SummaryReport.AppendHead | tests/juliet/juliet_summary.py:50-56 | the title paragraph with `id=filepath` and the header row are appended to the incoming table |
| SummaryReport.AppendCase | tests/juliet/juliet_summary.py:60-92 | one pass runs both variants, writes the case's text file and appends the row of link, good cell and bad cell |
| SummaryReport.AppendRows | tests/juliet/juliet_summary.py:59-92 | the loop over the cases appends their rows and writes their files in list order |
| SummaryReport.GoblintFiles | tests/juliet/juliet_summary.py:48-94 | the result is the incoming `html_table` followed by the directory's head, one row per case in sorted order and the table end; the files written are the cases' files in sorted order |
| SummaryReport.RowCellsUnstripped | tests/juliet/juliet_summary.py:87-91 | `strip()` changes neither the link cell nor a symbol cell |
| SummaryReport.SectionHasAnchor | tests/juliet/juliet_summary.py:50 | a directory's table holds the anchor its contents link points to |
| SummaryReport.RowsHaveEveryCase | tests/juliet/juliet_summary.py:59-92 | every case of the list has its row among the rows |
| SummaryReport.SectionHasEveryCase | tests/juliet/juliet_summary.py:48-94 | a directory's table holds the row of each of its cases |
| SummaryReport.CaseArtifactsAt | tests/juliet/juliet_summary.py:79-85 | the cases of a list write exactly one file each, the k-th at `summary_fileoutputs/<case>.txt` |
| SummaryWalk.ArtifactsOfHasEvery | tests/juliet/juliet_summary.py:79-85 | every case of every directory that gets a table has its text file among the files written |
| SummaryWalk.WalkIsFilter | tests/juliet/juliet_summary.py:107-131 | walking a list of directories adds exactly the tables, contents entries and files of those with at least one valid file, in order |
| SummaryWalk.ContentsIff | tests/juliet/juliet_summary.py:109-131 | a path is appended to `contents_href` iff the walk reaches it and it has at least one valid file |
| SummaryWalk.CandidatesIff | tests/juliet/juliet_summary.py:107-131 | the walk reaches the root, each `root/a` for a reported directory `a`, and each `root/a/b` for a directory `b` reported below it, and nothing else |
| SummaryWalk.CandidatesListable | tests/juliet/juliet_summary.py:108-127 | once the root can be listed, every directory of the walk can be |
| SummaryWalk.VisitDir | tests/juliet/juliet_summary.py:109-112 | a directory with valid files gets its table and its contents entry; one without is skipped |
| SummaryWalk.VisitSubdir | tests/juliet/juliet_summary.py:126-131 | one pass of the inner loop visits `current_dir + '/' + s` |
| SummaryWalk.VisitSubdirs | tests/juliet/juliet_summary.py:124-131 | the inner loop visits the sorted subdirectories in order |
| SummaryWalk.VisitGroup | tests/juliet/juliet_summary.py:117-131 | one pass of the outer loop visits a directory and then its sorted subdirectories |
| SummaryWalk.VisitGroups | tests/juliet/juliet_summary.py:115-131 | the outer loop visits each sorted root directory's group in order |
| SummaryWalk.AssembleDocument | tests/juliet/juliet_summary.py:134-140 | the page is the legend, one link per `contents_href` entry in order, the separator, the tables and the go-to-top link |
| SummaryWalk.Run | tests/juliet/juliet_summary.py:97-140 | the whole top level yields the page and the files of the directories with cases, in walk order; `None` when the root cannot be listed |
| SummaryWalk.TocHasEvery | tests/juliet/juliet_summary.py:138-139 | every entry of `contents_href` has its link in the contents |
| SummaryWalk.TablesHaveEvery | tests/juliet/juliet_summary.py:111-130 | every visited directory with cases has its table in the page |
| SummaryWalk.DocumentLinksResolve | tests/juliet/juliet_summary.py:107-140 | every directory of the walk with cases has its contents link, the anchor that link points to, and a row for each of its cases in the page |
| SummaryWalk.SummarizeOrderFree | tests/juliet/juliet_summary.py:115-125 | the order in which directories list their entries does not show in the page or the files |
| Sorting.SortedNamesSpec | tests/juliet/juliet_summary.py:58 | `testcases.sort()` leaves a sorted permutation of the cases |
| Sorting.SortedUnique | tests/juliet/juliet_summary.py:115 | two sorted permutations of the same names are equal, so sorting forgets the listing order |
| Text.ContainsIff | tests/juliet/juliet_summary.py:69 | searching a pattern without metacharacters succeeds iff the pattern occurs at some index |
| Scenarios.EmptyCorpus | tests/juliet/juliet_summary.py:97-140 | a root that lists nothing gives a page with no contents entry and no table, and no file |
| Scenarios.TwoLevelCorpus | tests/juliet/juliet_summary.py:107-140 | for `root/a/b/c` the walk reaches the root, `root/a` and `root/a/b`; only the last gets a contents entry, a table and a file |
| Scenarios.BothRunsFail | tests/juliet/juliet_summary.py:61-85 | when both runs of a case raise, its row is the link with `?` and `?`, and its file holds the placeholder twice |
| Scenarios.MissingGoodVariant | tests/juliet/juliet_summary.py:61-76 | a missing good entry point and a bad run whose standard output or error holds the marker give `?` and `X` |
| Scenarios.SameNameSamePath | tests/juliet/juliet_summary.py:83 | two walked directories holding a case of the same name both write their text file, and the two paths are equal |
| ProtoCase.CaseFileNarrowed | tests/juliet/testcases_small/CWE366_Race_Condition_Within_Thread/newtest.py:12 | every name the later script accepts, the prototype accepts |
| ProtoCase.CaseFileWidened | tests/juliet/testcases_small/CWE366_Race_Condition_Within_Thread/newtest.py:12 | the prototype also accepts a `CWE` name ending in `.c` without the two-digit case number |
| ProtoCase.ProtoScanSpec | tests/juliet/testcases_small/CWE366_Race_Condition_Within_Thread/newtest.py:6-15 | the prototype's `check_path` fails iff the path is not a directory; a name is a valid file iff it starts with `CWE`, ends with `.c` and lacks `w32`; it is a directory iff it fails that test and the bare name is a directory from the working directory; lists are disjoint and keep listing order |
| ProtoCase.ProtoCheckPath | tests/juliet/testcases_small/CWE366_Race_Condition_Within_Thread/newtest.py:6-15 | the append loop returns exactly those filtered lists |
| ProtoCase.ProtoEntryPoint | tests/juliet/testcases_small/CWE366_Race_Condition_Within_Thread/newtest.py:20 | the entry point is a dot-free prefix of the name, ending where the name ends or at its first dot, followed by the mode |
| ProtoCase.ProtoEntryPointOfStem | tests/juliet/testcases_small/CWE366_Race_Condition_Within_Thread/newtest.py:20 | for `stem.ext` with a dot-free stem the entry point is the stem followed by the mode |
| ProtoCase.EntryPointsAgree | tests/juliet/testcases_small/CWE366_Race_Condition_Within_Thread/newtest.py:20 | for a one-dot name with no `a` before `.c`, both scripts derive the same entry point |
| ProtoCase.EntryPointsDiffer | tests/juliet/testcases_small/CWE366_Race_Condition_Within_Thread/newtest.py:20 | for an `a` case the prototype keeps the `a`, which the later script drops |
| ProtoCase.ProtoCommandIsJoinedArguments | tests/juliet/testcases_small/CWE366_Race_Condition_Within_Thread/newtest.py:21 | the command is `../../../../goblint`, the file, `-I`, the quoted support path, `--sets`, `"mainfun[+]"` and the entry point, joined by single spaces |
| ProtoCase.ProtoCommandSplits | tests/juliet/testcases_small/CWE366_Race_Condition_Within_Thread/newtest.py:21 | when neither the path nor the entry point holds a space, splitting the command at spaces gives those seven words |
| ProtoCase.ProtoRunFunction | tests/juliet/testcases_small/CWE366_Race_Condition_Within_Thread/newtest.py:19-23 | `None` exactly when the run raised; otherwise the run's standard output |
| ProtoCase.ProtoRunIgnoresStderr | tests/juliet/testcases_small/CWE366_Race_Condition_Within_Thread/newtest.py:22-23 | the result is standard output only: standard error does not change it |
| ProtoCase.ProtoCellIff | tests/juliet/testcases_small/CWE366_Race_Condition_Within_Thread/newtest.py:43-49 | a cell is `X` iff the output holds nineteen hyphens, `-` otherwise, never `?` |
| ProtoCase.ProtoSymbol | tests/juliet/testcases_small/CWE366_Race_Condition_Within_Thread/newtest.py:43-49 | the cell is `X` or `-`, and `X` exactly when nineteen hyphens occur at some position of the output |
| ProtoReport.ProtoCaseRowIff | tests/juliet/testcases_small/CWE366_Race_Condition_Within_Thread/newtest.py:38-56 | a case gets a row iff both its runs return; the row holds the bare name and the two hyphen-marker cells |
| ProtoReport.ProtoRowsPrefixNone | tests/juliet/testcases_small/CWE366_Race_Condition_Within_Thread/newtest.py:38-41 | once a run raises, no later case is run and the table never comes out |
| ProtoReport.ProtoRowsIff | tests/juliet/testcases_small/CWE366_Race_Condition_Within_Thread/newtest.py:38-56 | the rows come out iff both runs of every case return |
| ProtoReport.ProtoRowsHaveEveryCase | tests/juliet/testcases_small/CWE366_Race_Condition_Within_Thread/newtest.py:38-56 | when the rows come out, each case has its row among them |
| ProtoReport.ProtoSectionIff | tests/juliet/testcases_small/CWE366_Race_Condition_Within_Thread/newtest.py:27-59 | a directory's table comes out iff the runs of every case return |
| ProtoReport.ProtoSectionHasEveryCase | tests/juliet/testcases_small/CWE366_Race_Condition_Within_Thread/newtest.py:27-59 | a directory's table holds a row for each of its cases |
| ProtoReport.ProtoSectionHasAnchor | tests/juliet/testcases_small/CWE366_Race_Condition_Within_Thread/newtest.py:29 | the table opens with the paragraph whose `id` is the directory |
| ProtoReport.ProtoSectionOrderFree | tests/juliet/testcases_small/CWE366_Race_Condition_Within_Thread/newtest.py:37 | the table does not depend on the order the cases were listed in |
| ProtoReport.ProtoAppendHead | tests/juliet/testcases_small/CWE366_Race_Condition_Within_Thread/newtest.py:29-35 | the title paragraph and the header row are appended to the incoming table |
| ProtoReport.ProtoAppendCase | tests/juliet/testcases_small/CWE366_Race_Condition_Within_Thread/newtest.py:39-56 | one pass runs both variants and appends the row, or aborts when a run raises |
| ProtoReport.ProtoAppendRows | tests/juliet/testcases_small/CWE366_Race_Condition_Within_Thread/newtest.py:38-56 | the loop appends the rows of the cases in order and stops at the first run that raises |
| ProtoReport.ProtoGoblintFiles | tests/juliet/testcases_small/CWE366_Race_Condition_Within_Thread/newtest.py:27-59 | the result is the incoming table, the head, one row per case in sorted order, `</table>` and the go-to-top line; the abort when a run raises |
| ProtoWalk.ProtoVisitStep | tests/juliet/testcases_small/CWE366_Race_Condition_Within_Thread/newtest.py:94-96 | a visit aborts when the directory cannot be listed, or when it has cases and a run raises; otherwise it appends the directory's table, and nothing for a directory without cases |
| ProtoWalk.ProtoWalkIs | tests/juliet/testcases_small/CWE366_Race_Condition_Within_Thread/newtest.py:81-102 | a walk goes through iff every visit does, and its page is the initial text followed by the tables of the directories with cases, in walk order |
| ProtoWalk.ProtoWalkNone | tests/juliet/testcases_small/CWE366_Race_Condition_Within_Thread/newtest.py:81-102 | after an abort nothing more is visited |
| ProtoWalk.ProtoCandidatesWalk | tests/juliet/testcases_small/CWE366_Race_Condition_Within_Thread/newtest.py:81-102 | the two-level walk from any root, stated without the running state |
| ProtoWalk.ProtoSummarizeIs | tests/juliet/testcases_small/CWE366_Race_Condition_Within_Thread/newtest.py:62-102 | `table_2.html` is written iff every visit from `.` goes through, and holds the heading followed by the tables in walk order |
| ProtoWalk.ProtoVisitFiles | tests/juliet/testcases_small/CWE366_Race_Condition_Within_Thread/newtest.py:95-96 | a directory with valid files gets its table; one without is skipped |
| ProtoWalk.ProtoVisitSubdir | tests/juliet/testcases_small/CWE366_Race_Condition_Within_Thread/newtest.py:99-102 | one pass of the inner loop visits `current_dir + '/' + s` |
| ProtoWalk.ProtoVisitSubdirs | tests/juliet/testcases_small/CWE366_Race_Condition_Within_Thread/newtest.py:98-102 | the inner loop visits the subdirectories in listing order, stopping at an abort |
| ProtoWalk.ProtoVisitGroup | tests/juliet/testcases_small/CWE366_Race_Condition_Within_Thread/newtest.py:93-102 | one pass of the outer loop visits a directory and then its subdirectories |
| ProtoWalk.ProtoVisitGroups | tests/juliet/testcases_small/CWE366_Race_Condition_Within_Thread/newtest.py:92-102 | the outer loop visits each root directory's group in listing order, stopping at an abort |
| ProtoWalk.ProtoWalkFrom | tests/juliet/testcases_small/CWE366_Race_Condition_Within_Thread/newtest.py:81-102 | the top-level statements from a given directory and initial page equal the walk over that directory's candidates |
| ProtoWalk.ProtoRun | tests/juliet/testcases_small/CWE366_Race_Condition_Within_Thread/newtest.py:62-107 | the prototype's run from `.` with the `RESULTS` heading yields the page of `ProtoSummarize`, or `None` when it raises first |
| Scenarios.ProtoMissesNestedDir | tests/juliet/testcases_small/CWE366_Race_Condition_Within_Thread/newtest.py:13 | for `./a/b` with no `b` in the working directory, the prototype walks only `.` and `./a` while the later script also reaches `./a/b` |

## Left out

- File writes, `os.makedirs`, `os.path.exists` and `open(...).write`: the model returns the page and the list of text files (path and content) in writing order instead of writing them.
- `subprocess.run(..., shell=True)`: the shell and the process are the tool function from the command string to the captured output; the command string is modelled exactly, its shell interpretation (quoting, injection) is not.
- The analyser is assumed deterministic within a run: the same command gives the same result, as a function of the command.
- Command-line handling and console output of the summary script (`sys.argv`, the usage `os.system('echo ...')` calls, the progress `echo`), and the prototype's `print` calls.
- The prototype's dead code after line 108 (a string literal holding old code).
- `os.listdir` failing for reasons other than the path not being a directory (permissions, races) is not modelled: a path can be listed iff it is a directory.
- Path resolution knows only leading `./`; `..`, repeated slashes and symbolic links are not resolved.
- Python's `re` is not modelled in general: each pattern of the scripts is a fixed string, an anchored fixed string or the pattern `[0-9]{2}a?\.c$`, written as an explicit predicate; file names are taken to hold no newline, so `$` is the end of the name; a name is a sequence of Unicode scalar values, so names that `os.listdir` returns with surrogate escapes (undecodable bytes) are not represented.
- The Juliet test-case sources and the analyser's regression inputs are data the harness runs Goblint on, not harness logic, and are not modelled.
