/** The `fix-api-calls.js` patcher: in each listed file, rewrite every `fetch("/api/`,
 *  `fetch('/api/` and `` fetch(`/api/ `` into `` fetch(`${API_BASE}/api/ ``, and, when the
 *  file did not mention the base before, splice in the `API_BASE` declaration after the
 *  imports or just inside the first function.
 *
 *  The file system is a map from path to content; the console output is a log of reports
 *  and the two totals. */
module FixApiCalls {
  import opened Strings
  import opened PatchText

  // ---------------------------------------------------------------------------
  // The three global replacements

  /** A content after some `replace` calls, with the matches they counted. */
  datatype Rewritten = Rewritten(content: string, count: nat)

  /** `content.match(pattern)`, then `content.replace(pattern, …)` when there was a match,
   *  for one call prefix. */
  function RewriteOne(content: string, prefix: string): Rewritten
    requires |prefix| > 0
  {
    var n := CountAny(content, [prefix]);
    if n > 0 then Rewritten(ReplaceAny(content, [prefix], FetchTemplate), n) else Rewritten(content, 0)
  }

  /** The three replacements in the script's order, each on the previous one's output. */
  function RewriteCalls(content: string): Rewritten
  {
    var r1 := RewriteOne(content, FetchDouble);
    var r2 := RewriteOne(r1.content, FetchSingle);
    var r3 := RewriteOne(r2.content, FetchBacktick);
    Rewritten(r3.content, r1.count + r2.count + r3.count)
  }

  /** `hasAPIBase`, taken on the content as read. */
  predicate HasBase(content: string)
  {
    Contains(content, "API_BASE") || Contains(content, "getApiBaseUrl")
  }

  // ---------------------------------------------------------------------------
  // Where the declaration goes

  predicate IsImportLine(line: string)
  {
    Contains(line, "import ") || Contains(line, "require(")
  }

  predicate IsEntryLine(line: string)
  {
    Contains(line, "export default") || Contains(line, "export const") ||
    Contains(line, "export function") || Contains(line, "function ")
  }

  function ImportFlags(lines: seq<string>): (f: seq<bool>)
    ensures |f| == |lines| && forall i :: 0 <= i < |lines| ==> (f[i] <==> IsImportLine(lines[i]))
  {
    seq(|lines|, i requires 0 <= i < |lines| => IsImportLine(lines[i]))
  }

  function EntryFlags(lines: seq<string>): (f: seq<bool>)
    ensures |f| == |lines| && forall i :: 0 <= i < |lines| ==> (f[i] <==> IsEntryLine(lines[i]))
  {
    seq(|lines|, i requires 0 <= i < |lines| => IsEntryLine(lines[i]))
  }

  function BlankFlags(lines: seq<string>): (f: seq<bool>)
    ensures |f| == |lines| && forall i :: 0 <= i < |lines| ==> (f[i] <==> IsBlank(lines[i]))
  {
    seq(|lines|, i requires 0 <= i < |lines| => IsBlank(lines[i]))
  }

  /** The first non-blank line at or after `k`, or the line count. */
  function SkipBlank(blank: seq<bool>, k: nat): (r: nat)
    requires k <= |blank|
    ensures k <= r <= |blank|
    ensures forall j :: k <= j < r ==> blank[j]
    ensures r < |blank| ==> !blank[r]
    decreases |blank| - k
  {
    if k < |blank| && blank[k] then SkipBlank(blank, k + 1) else k
  }

  /** A line where the search stops: an entry line that is not also an import line. */
  predicate Stops(imp: seq<bool>, entry: seq<bool>, i: nat)
    requires |imp| == |entry| && i < |imp|
  {
    !imp[i] && entry[i]
  }

  /** The search loop from line `i` on, with `acc` the index chosen so far. */
  function InsertIndexFrom(imp: seq<bool>, entry: seq<bool>, blank: seq<bool>, i: nat, acc: nat): (r: nat)
    requires |imp| == |entry| == |blank| && acc <= i <= |imp|
    ensures r <= |imp|
    decreases |imp| - i
  {
    if i == |imp| then acc
    else if imp[i] then InsertIndexFrom(imp, entry, blank, i + 1, i + 1)
    else if entry[i] then SkipBlank(blank, i + 1)
    else InsertIndexFrom(imp, entry, blank, i + 1, acc)
  }

  /** `insertIndex` as the script computes it for a file's lines. */
  function InsertIndex(lines: seq<string>): (r: nat)
    ensures r <= |lines|
  {
    InsertIndexFrom(ImportFlags(lines), EntryFlags(lines), BlankFlags(lines), 0, 0)
  }

  /** The loop, with its inner blank-skipping loop and its `break`. */
  method FindInsertIndex(imp: seq<bool>, entry: seq<bool>, blank: seq<bool>) returns (insertIndex: nat)
    requires |imp| == |entry| == |blank|
    ensures insertIndex == InsertIndexFrom(imp, entry, blank, 0, 0)
  {
    insertIndex := 0;
    var i := 0;
    while i < |imp|
      invariant 0 <= insertIndex <= i <= |imp|
      invariant InsertIndexFrom(imp, entry, blank, 0, 0) == InsertIndexFrom(imp, entry, blank, i, insertIndex)
    {
      if imp[i] {
        insertIndex := i + 1;
      } else if entry[i] {
        insertIndex := i + 1;
        while insertIndex < |blank| && blank[insertIndex]
          invariant i + 1 <= insertIndex <= |blank|
          invariant SkipBlank(blank, i + 1) == SkipBlank(blank, insertIndex)
        {
          insertIndex := insertIndex + 1;
        }
        return;
      }
      i := i + 1;
    }
  }

  /** When a stopping line `s` is the first one from `i` on, the index is the first
   *  non-blank line below it, whatever imports came before. */
  lemma {:induction false} IndexAtStop(imp: seq<bool>, entry: seq<bool>, blank: seq<bool>, i: nat, acc: nat, s: nat)
    requires |imp| == |entry| == |blank| && acc <= i <= s < |imp|
    requires Stops(imp, entry, s) && forall j :: i <= j < s ==> !Stops(imp, entry, j)
    ensures InsertIndexFrom(imp, entry, blank, i, acc) == SkipBlank(blank, s + 1)
    decreases s - i
  {
    if i < s {
      assert !Stops(imp, entry, i);
      IndexAtStop(imp, entry, blank, i + 1, if imp[i] then i + 1 else acc, s);
    }
  }

  /** Without a stopping line the index is one past the last import line, or `acc` when
   *  there is none. */
  lemma {:induction false} IndexWithoutStop(imp: seq<bool>, entry: seq<bool>, blank: seq<bool>, i: nat, acc: nat)
    requires |imp| == |entry| == |blank| && acc <= i <= |imp|
    requires forall j :: i <= j < |imp| ==> !Stops(imp, entry, j)
    ensures var r := InsertIndexFrom(imp, entry, blank, i, acc);
      (r == acc && forall j :: i <= j < |imp| ==> !imp[j]) ||
      (i < r <= |imp| && imp[r - 1] && forall j :: r <= j < |imp| ==> !imp[j])
    decreases |imp| - i
  {
    if i < |imp| {
      assert !Stops(imp, entry, i);
      IndexWithoutStop(imp, entry, blank, i + 1, if imp[i] then i + 1 else acc);
    }
  }

  /** Where the declaration goes when some entry line is not an import line: below the
   *  first such line, skipping blank lines, whatever imports came before. */
  lemma InsertIndexAtEntry(lines: seq<string>, s: nat)
    requires s < |lines| && Stops(ImportFlags(lines), EntryFlags(lines), s)
    requires forall j :: 0 <= j < s ==> !Stops(ImportFlags(lines), EntryFlags(lines), j)
    ensures InsertIndex(lines) == SkipBlank(BlankFlags(lines), s + 1)
  {
    IndexAtStop(ImportFlags(lines), EntryFlags(lines), BlankFlags(lines), 0, 0, s);
  }

  /** Where the declaration goes otherwise: after the last import line, or at 0 when
   *  there is none. */
  lemma InsertIndexWithoutEntry(lines: seq<string>)
    requires forall j :: 0 <= j < |lines| ==> !Stops(ImportFlags(lines), EntryFlags(lines), j)
    ensures var r := InsertIndex(lines);
      (r == 0 && forall j :: 0 <= j < |lines| ==> !IsImportLine(lines[j])) ||
      (0 < r && IsImportLine(lines[r - 1]) && forall j :: r <= j < |lines| ==> !IsImportLine(lines[j]))
  {
    IndexWithoutStop(ImportFlags(lines), EntryFlags(lines), BlankFlags(lines), 0, 0);
  }

  // ---------------------------------------------------------------------------
  // One file

  /** The per-file result: whether the file is written, the count reported, the new text. */
  datatype Fixed = Fixed(modified: bool, replacements: nat, content: string)

  /** The text with the declaration spliced in at the chosen line. */
  function Splice(text: string): string
  {
    var lines := Split(text, '\n');
    Join(InsertAt(lines, InsertIndex(lines), ApiBaseLine), "\n")
  }

  function Fix(content: string): Fixed
  {
    var rw := RewriteCalls(content);
    var modified := rw.count > 0;
    if modified && !HasBase(content) then Fixed(true, rw.count, Splice(rw.content))
    else Fixed(modified, rw.count, rw.content)
  }

  /** One `if (matches) { … }` block of the script. */
  method RewriteCall(content: string, prefix: string) returns (matches: nat, newContent: string)
    requires |prefix| > 0
    ensures Rewritten(newContent, matches) == RewriteOne(content, prefix)
  {
    matches := CountAny(content, [prefix]);
    newContent := content;
    if matches > 0 {
      newContent := ReplaceAny(content, [prefix], FetchTemplate);
    }
  }

  /** The per-file body of the script's loop, after the existence check. */
  method FixFile(content: string) returns (modified: bool, replacements: nat, newContent: string)
    ensures Fixed(modified, replacements, newContent) == Fix(content)
  {
    var hasBase := HasBase(content);
    var m1, c1 := RewriteCall(content, FetchDouble);
    var m2, c2 := RewriteCall(c1, FetchSingle);
    var m3, c3 := RewriteCall(c2, FetchBacktick);
    replacements := m1 + m2 + m3;
    modified := m1 > 0 || m2 > 0 || m3 > 0;
    newContent := c3;
    if modified && !hasBase {
      newContent := SpliceDeclaration(newContent);
    }
  }

  /** The splice of the declaration into the split lines, and the re-join. */
  method SpliceDeclaration(text: string) returns (newText: string)
    ensures newText == Splice(text)
  {
    var lines := Split(text, '\n');
    var insertIndex := FindInsertIndex(ImportFlags(lines), EntryFlags(lines), BlankFlags(lines));
    lines := lines[..insertIndex] + [ApiBaseLine] + lines[insertIndex..];
    newText := Join(lines, "\n");
  }

  /** A replacement leaves no occurrence of a prefix that it rewrites or that was absent. */
  lemma RewriteLeaves(content: string, p: string, q: string)
    requires IsCallPrefix(p) && IsCallPrefix(q)
    requires p == q || !Contains(content, q)
    ensures !Contains(RewriteOne(content, p).content, q)
  {
    TemplateCannotForm(p);
    TemplateCannotForm(q);
    CountZeroIffAbsent(content, [p]);
    ReplaceLeavesNoMatch(content, [p], FetchTemplate, q);
  }

  /** The three replacements leave none of the three prefixes. */
  lemma RewriteCallsClears(content: string, q: string)
    requires q == FetchDouble || q == FetchSingle || q == FetchBacktick
    ensures !Contains(RewriteCalls(content).content, q)
  {
    var c1 := RewriteOne(content, FetchDouble).content;
    var c2 := RewriteOne(c1, FetchSingle).content;
    if q == FetchDouble {
      RewriteLeaves(content, FetchDouble, q);
      RewriteLeaves(c1, FetchSingle, q);
      RewriteLeaves(c2, FetchBacktick, q);
    } else if q == FetchSingle {
      RewriteLeaves(c1, FetchSingle, q);
      RewriteLeaves(c2, FetchBacktick, q);
    } else {
      RewriteLeaves(c2, FetchBacktick, q);
    }
  }

  /** A fixed file holds no unrewritten call prefix: the declaration line has none either. */
  lemma FixClears(content: string, q: string)
    requires q == FetchDouble || q == FetchSingle || q == FetchBacktick
    ensures !Contains(Fix(content).content, q)
  {
    var rw := RewriteCalls(content);
    RewriteCallsClears(content, q);
    if rw.count > 0 && !HasBase(content) {
      SpliceAddsNoCall(rw.content, InsertIndex(Split(rw.content, '\n')), q);
    }
  }

  /** The file is written exactly when the content as read held one of the three prefixes,
   *  and the count is then positive; otherwise nothing changes. */
  lemma FixModified(content: string)
    ensures var f := Fix(content);
      (f.modified <==> f.replacements > 0) &&
      (f.modified <==> Contains(content, FetchDouble) || Contains(content, FetchSingle) ||
                       Contains(content, FetchBacktick)) &&
      (!f.modified ==> f.content == content)
  {
    var r1 := RewriteOne(content, FetchDouble);
    var r2 := RewriteOne(r1.content, FetchSingle);
    CountZeroIffAbsent(content, [FetchDouble]);
    CountZeroIffAbsent(r1.content, [FetchSingle]);
    CountZeroIffAbsent(r2.content, [FetchBacktick]);
    if !Contains(content, FetchSingle) {
      RewriteLeaves(content, FetchDouble, FetchSingle);
    }
    if !Contains(content, FetchBacktick) {
      RewriteLeaves(content, FetchDouble, FetchBacktick);
      RewriteLeaves(r1.content, FetchSingle, FetchBacktick);
    }
  }

  /** The declaration is spliced in only into a modified file that did not mention the base,
   *  as one extra line at the chosen index; every other line keeps its place. */
  lemma FixSplices(content: string)
    ensures var rw := RewriteCalls(content);
      var lines := Split(rw.content, '\n');
      var f := Fix(content);
      if f.modified && !HasBase(content) then
        InsertIndex(lines) <= |lines| &&
        Split(f.content, '\n') == InsertAt(lines, InsertIndex(lines), ApiBaseLine)
      else
        f.content == rw.content
  {
    var rw := RewriteCalls(content);
    var lines := Split(rw.content, '\n');
    if rw.count > 0 && !HasBase(content) {
      InsertedLinesSplit(lines, InsertIndex(lines));
    }
  }

  /** A second pass finds nothing to rewrite and writes nothing. */
  lemma FixIdempotent(content: string)
    ensures Fix(Fix(content).content) == Fixed(false, 0, Fix(content).content)
  {
    var c := Fix(content).content;
    FixClears(content, FetchDouble);
    FixClears(content, FetchSingle);
    FixClears(content, FetchBacktick);
    FixModified(c);
  }

  // ---------------------------------------------------------------------------
  // The whole run

  datatype Outcome = NotFound | Updated(replacements: nat) | NoChanges

  datatype Report = Report(path: string, outcome: Outcome)

  datatype Run = Run(files: map<string, string>, log: seq<Report>, filesUpdated: nat, replacements: nat)

  /** One iteration of the `forEach` over the file list. */
  function Step(r: Run, path: string): Run
  {
    if path !in r.files then Run(r.files, r.log + [Report(path, NotFound)], r.filesUpdated, r.replacements)
    else
      var f := Fix(r.files[path]);
      if f.modified then
        Run(r.files[path := f.content], r.log + [Report(path, Updated(f.replacements))],
            r.filesUpdated + 1, r.replacements + f.replacements)
      else Run(r.files, r.log + [Report(path, NoChanges)], r.filesUpdated, r.replacements)
  }

  function RunAll(files: map<string, string>, paths: seq<string>): Run
    decreases |paths|
  {
    if |paths| == 0 then Run(files, [], 0, 0)
    else Step(RunAll(files, paths[..|paths| - 1]), paths[|paths| - 1])
  }

  /** The script's main loop with its two running totals. */
  method RunScript(files: map<string, string>, paths: seq<string>)
    returns (result: map<string, string>, log: seq<Report>, totalFilesUpdated: nat, totalReplacements: nat)
    ensures Run(result, log, totalFilesUpdated, totalReplacements) == RunAll(files, paths)
  {
    result, log, totalFilesUpdated, totalReplacements := files, [], 0, 0;
    for i := 0 to |paths|
      invariant Run(result, log, totalFilesUpdated, totalReplacements) == RunAll(files, paths[..i])
    {
      assert paths[..i + 1][..i] == paths[..i];
      var path := paths[i];
      if path !in result {
        log := log + [Report(path, NotFound)];
        continue;
      }
      var modified, replacements, newContent := FixFile(result[path]);
      if modified {
        result := result[path := newContent];
        log := log + [Report(path, Updated(replacements))];
        totalFilesUpdated := totalFilesUpdated + 1;
        totalReplacements := totalReplacements + replacements;
      } else {
        log := log + [Report(path, NoChanges)];
      }
    }
    assert paths[..|paths|] == paths;
  }

  /** The number of updated reports in a log. */
  function UpdatedCount(log: seq<Report>): nat
  {
    if |log| == 0 then 0
    else UpdatedCount(log[..|log| - 1]) + (if log[|log| - 1].outcome.Updated? then 1 else 0)
  }

  /** The sum of the counts in a log's updated reports. */
  function ReplacementSum(log: seq<Report>): nat
  {
    if |log| == 0 then 0
    else
      var last := log[|log| - 1].outcome;
      ReplacementSum(log[..|log| - 1]) + (if last.Updated? then last.replacements else 0)
  }

  /** Every path gets one report, in order, "not found" exactly for the missing files, and
   *  no file is created. */
  lemma {:induction false} RunReports(files: map<string, string>, paths: seq<string>)
    ensures var r := RunAll(files, paths);
      |r.log| == |paths| && r.files.Keys == files.Keys &&
      (forall i :: 0 <= i < |paths| ==> r.log[i].path == paths[i]) &&
      (forall i :: 0 <= i < |paths| ==> (r.log[i].outcome == NotFound <==> paths[i] !in files))
    decreases |paths|
  {
    if |paths| > 0 {
      RunReports(files, paths[..|paths| - 1]);
    }
  }

  /** Every updated report in `log` counts at least one rewritten call. */
  predicate UpdatesCount(log: seq<Report>)
  {
    forall i :: 0 <= i < |log| && log[i].outcome.Updated? ==> log[i].outcome.replacements > 0
  }

  /** A run reports a file as updated only when it rewrote at least one call in it. */
  lemma {:induction false} RunUpdatesCount(files: map<string, string>, paths: seq<string>)
    ensures UpdatesCount(RunAll(files, paths).log)
    decreases |paths|
  {
    if |paths| > 0 {
      var init := paths[..|paths| - 1];
      RunUpdatesCount(files, init);
      var prev := RunAll(files, init);
      var path := paths[|paths| - 1];
      if path in prev.files {
        FixModified(prev.files[path]);
      }
      var r := Step(prev, path);
      forall i | 0 <= i < |r.log| && r.log[i].outcome.Updated?
        ensures r.log[i].outcome.replacements > 0
      {
        if i < |prev.log| {
          assert r.log[i] == prev.log[i];
        }
      }
    }
  }

  /** The totals are the sums over the per-file reports, and the calls fixed are never fewer
   *  than the files updated. */
  lemma {:induction false} RunTotals(files: map<string, string>, paths: seq<string>)
    ensures var r := RunAll(files, paths);
      r.filesUpdated == UpdatedCount(r.log) && r.replacements == ReplacementSum(r.log) &&
      r.filesUpdated <= r.replacements
    decreases |paths|
  {
    if |paths| > 0 {
      var init := paths[..|paths| - 1];
      RunTotals(files, init);
      var prev := RunAll(files, init);
      var path := paths[|paths| - 1];
      if path in prev.files {
        FixModified(prev.files[path]);
      }
      var r := Step(prev, path);
      assert r.log[..|r.log| - 1] == prev.log;
    }
  }

  /** A run leaves each listed file as one fix would, and no other file changes. */
  lemma {:induction false} RunFiles(files: map<string, string>, paths: seq<string>)
    ensures var r := RunAll(files, paths);
      r.files.Keys == files.Keys &&
      forall p :: p in files ==> r.files[p] == if p in paths then Fix(files[p]).content else files[p]
    decreases |paths|
  {
    if |paths| > 0 {
      var init := paths[..|paths| - 1];
      var path := paths[|paths| - 1];
      RunFiles(files, init);
      assert forall p :: p in paths <==> p in init || p == path;
      if path in files {
        FixIdempotent(files[path]);
        FixModified(files[path]);
      }
    }
  }

  /** When no listed file needs a fix, a run writes nothing and reports zero totals. */
  lemma {:induction false} QuietRun(files: map<string, string>, paths: seq<string>)
    requires forall i :: 0 <= i < |paths| && paths[i] in files ==> !Fix(files[paths[i]]).modified
    ensures RunAll(files, paths).files == files
    ensures RunAll(files, paths).filesUpdated == 0 && RunAll(files, paths).replacements == 0
    decreases |paths|
  {
    if |paths| > 0 {
      QuietRun(files, paths[..|paths| - 1]);
    }
  }

  /** Running the script a second time changes no file and reports zero calls fixed. */
  lemma RunIdempotent(files: map<string, string>, paths: seq<string>)
    ensures var once := RunAll(files, paths);
      var twice := RunAll(once.files, paths);
      twice.files == once.files && twice.filesUpdated == 0 && twice.replacements == 0
  {
    var once := RunAll(files, paths);
    RunFiles(files, paths);
    forall i | 0 <= i < |paths| && paths[i] in once.files
      ensures !Fix(once.files[paths[i]]).modified
    {
      FixIdempotent(files[paths[i]]);
    }
    QuietRun(once.files, paths);
  }
}
