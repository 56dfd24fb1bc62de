/** The `add-api-base.py` patcher: for each listed source file that uses `${API_BASE}`
 *  without declaring it, insert one tab-indented `const API_BASE = …` line just after
 *  the first opening brace that follows a declaration line within a 10-line window.
 *
 *  The file system is a map from path to content (a missing key is a missing file),
 *  and what the script prints is a log of one report per listed path. */
module AddApiBase {
  import opened Wrappers
  import opened Strings
  import opened PatchText


  /** How far below a declaration line the brace search looks (the line itself included). */
  const WindowSize: nat := 10

  // ---------------------------------------------------------------------------
  // The declaration pattern `(export\s+(default\s+)?(const|function)|const\s+\w+\s*=\s*\()`

  /** Python's `\w`: ASCII letters, digits and `_`; any other non-ASCII, non-space character
   *  is taken as a letter. */
  predicate IsWordChar(c: char)
  {
    ('a' <= c <= 'z') || ('A' <= c <= 'Z') || ('0' <= c <= '9') || c == '_'
    || (c >= '\U{0080}' && !IsPySpace(c))
  }

  /** The length of the leading run of `\s` characters. */
  function SpaceRun(s: string): (n: nat)
    ensures n <= |s|
    ensures forall i :: 0 <= i < n ==> IsPySpace(s[i])
    ensures n < |s| ==> !IsPySpace(s[n])
    decreases |s|
  {
    if |s| > 0 && IsPySpace(s[0]) then 1 + SpaceRun(s[1..]) else 0
  }

  /** The length of the leading run of `\w` characters. */
  function WordRun(s: string): (n: nat)
    ensures n <= |s|
    ensures forall i :: 0 <= i < n ==> IsWordChar(s[i])
    ensures n < |s| ==> !IsWordChar(s[n])
    decreases |s|
  {
    if |s| > 0 && IsWordChar(s[0]) then 1 + WordRun(s[1..]) else 0
  }

  predicate ConstOrFunction(s: string)
  {
    StartsWith(s, "const") || StartsWith(s, "function")
  }

  /** `export\s+(default\s+)?(const|function)` matches at the start of `s`. Every `\s+` is
   *  followed by a letter, so only its longest run can lead to a match. */
  predicate ExportDeclAt(s: string)
  {
    StartsWith(s, "export") &&
    var a := s[6..];
    var n := SpaceRun(a);
    n > 0 &&
    (ConstOrFunction(a[n..]) ||
     (StartsWith(a[n..], "default") &&
      var b := a[n + 7..];
      var m := SpaceRun(b);
      m > 0 && ConstOrFunction(b[m..])))
  }

  /** `const\s+\w+\s*=\s*\(` matches at the start of `s`. Spaces, word characters, `=` and `(`
   *  are pairwise distinct, so each run must be taken whole. */
  predicate ArrowDeclAt(s: string)
  {
    StartsWith(s, "const") &&
    var a := s[5..];
    var n := SpaceRun(a);
    n > 0 &&
    var b := a[n..];
    var w := WordRun(b);
    w > 0 &&
    var c := b[w..];
    var m := SpaceRun(c);
    m < |c| && c[m] == '=' &&
    var e := c[m + 1..];
    var k := SpaceRun(e);
    k < |e| && e[k] == '('
  }

  /** `re.search` of the declaration pattern anywhere in the line. */
  predicate DeclMatch(line: string)
    decreases |line|
  {
    ExportDeclAt(line) || ArrowDeclAt(line) || (|line| > 0 && DeclMatch(line[1..]))
  }

  /** A line whose stripped text is `{` or whose right-stripped text ends with `{`. */
  predicate IsBraceLine(line: string)
  {
    PyStrip(line) == "{" || EndsWith(PyRStrip(line), "{")
  }

  // ---------------------------------------------------------------------------
  // The insertion point

  /** `min(i + 10, len(lines))`. */
  function WindowEnd(i: nat, n: nat): (e: nat)
  {
    if i + WindowSize < n then i + WindowSize else n
  }

  /** Which lines match the declaration pattern. */
  function DeclLines(lines: seq<string>): (f: seq<bool>)
    ensures |f| == |lines| && forall j :: 0 <= j < |lines| ==> f[j] == DeclMatch(lines[j])
  {
    seq(|lines|, j requires 0 <= j < |lines| => DeclMatch(lines[j]))
  }

  /** Which lines are brace lines. */
  function BraceLines(lines: seq<string>): (f: seq<bool>)
    ensures |f| == |lines| && forall j :: 0 <= j < |lines| ==> f[j] == IsBraceLine(lines[j])
  {
    seq(|lines|, j requires 0 <= j < |lines| => IsBraceLine(lines[j]))
  }

  /** The first brace line in `[lo, hi)`. */
  function FirstBrace(brace: seq<bool>, lo: nat, hi: nat): (r: Option<nat>)
    requires lo <= hi <= |brace|
    ensures r.Some? ==> lo <= r.value < hi && brace[r.value]
    ensures r.Some? ==> forall j :: lo <= j < r.value ==> !brace[j]
    ensures r.None? ==> forall j :: lo <= j < hi ==> !brace[j]
    decreases hi - lo
  {
    if lo == hi then None
    else if brace[lo] then Some(lo)
    else FirstBrace(brace, lo + 1, hi)
  }

  /** A declaration line with a brace line in its window. */
  predicate Anchors(decl: seq<bool>, brace: seq<bool>, d: nat)
    requires |decl| == |brace| && d < |decl|
  {
    decl[d] && FirstBrace(brace, d, WindowEnd(d, |brace|)).Some?
  }

  /** Where the script inserts: the declaration line and the brace line below it. */
  datatype Site = Site(decl: nat, brace: nat)

  /** The first anchoring declaration at or after `from`, with the first brace in its window. */
  function FindSite(decl: seq<bool>, brace: seq<bool>, from: nat): (r: Option<Site>)
    requires |decl| == |brace| && from <= |decl|
    ensures r.Some? ==> from <= r.value.decl <= r.value.brace < |decl|
    decreases |decl| - from
  {
    if from == |decl| then None
    else
      var b := FirstBrace(brace, from, WindowEnd(from, |decl|));
      if decl[from] && b.Some? then Some(Site(from, b.value))
      else FindSite(decl, brace, from + 1)
  }

  /** The site found is the first declaration line, top-down, that has a brace line in its
   *  10-line window (itself included), with the first brace line of that window; declaration
   *  lines without one are passed over. */
  lemma {:induction false} FindSiteFirst(decl: seq<bool>, brace: seq<bool>, from: nat)
    requires |decl| == |brace| && from <= |decl|
    ensures var r := FindSite(decl, brace, from);
      (r.Some? ==>
        from <= r.value.decl <= r.value.brace < WindowEnd(r.value.decl, |decl|) &&
        decl[r.value.decl] && brace[r.value.brace] &&
        (forall j :: r.value.decl <= j < r.value.brace ==> !brace[j]) &&
        (forall d :: from <= d < r.value.decl ==> !Anchors(decl, brace, d))) &&
      (r.None? ==> forall d :: from <= d < |decl| ==> !Anchors(decl, brace, d))
    decreases |decl| - from
  {
    if from < |decl| {
      FindSiteFirst(decl, brace, from + 1);
    }
  }

  /** The insertion site the script finds in `lines`. */
  function SiteOf(lines: seq<string>): Option<Site>
  {
    FindSite(DeclLines(lines), BraceLines(lines), 0)
  }

  /** `insert_line` after the search: one past the brace line, or -1. */
  function InsertLine(lines: seq<string>): int
  {
    match SiteOf(lines)
    case Some(site) => site.brace + 1
    case None => -1
  }

  /** The nested search loop of the script, with both of its breaks, over which lines match
   *  the declaration pattern and which are brace lines. */
  method FindInsertLine(decl: seq<bool>, brace: seq<bool>) returns (insertLine: int)
    requires |decl| == |brace|
    ensures insertLine == match FindSite(decl, brace, 0)
      case Some(site) => site.brace + 1
      case None => -1
  {
    insertLine := -1;
    var i := 0;
    while i < |decl|
      invariant 0 <= i <= |decl|
      invariant insertLine == -1
      invariant FindSite(decl, brace, 0) == FindSite(decl, brace, i)
    {
      if decl[i] {
        var hi := WindowEnd(i, |decl|);
        var j := i;
        while j < hi
          invariant i <= j <= hi
          invariant insertLine == -1
          invariant FirstBrace(brace, i, hi) == FirstBrace(brace, j, hi)
        {
          if brace[j] {
            insertLine := j + 1;
            break;
          }
          j := j + 1;
        }
        if insertLine > 0 {
          break;
        }
      }
      i := i + 1;
    }
  }

  // ---------------------------------------------------------------------------
  // One file

  /** What the script prints for one listed path. */
  datatype Outcome = NotFound | AlreadyDeclared | NotUsed | Added(line: nat) | NoInsertionPoint

  datatype Patched = Patched(outcome: Outcome, content: string)

  /** The script's treatment of an existing file's content. */
  function Patch(content: string): Patched
  {
    if Contains(content, "const API_BASE") then Patched(AlreadyDeclared, content)
    else if !Contains(content, "${API_BASE}") then Patched(NotUsed, content)
    else
      var lines := Split(content, '\n');
      var k := InsertLine(lines);
      if k > 0 then Patched(Added(k), Join(InsertAt(lines, k, ApiBaseLine), "\n"))
      else Patched(NoInsertionPoint, content)
  }

  /** The per-file body of the script's loop, after the existence check. */
  method PatchFile(content: string) returns (outcome: Outcome, newContent: string)
    ensures Patched(outcome, newContent) == Patch(content)
  {
    newContent := content;
    if Contains(content, "const API_BASE") {
      outcome := AlreadyDeclared;
      return;
    }
    if !Contains(content, "${API_BASE}") {
      outcome := NotUsed;
      return;
    }
    var lines := Split(content, '\n');
    var insertLine := FindInsertLine(DeclLines(lines), BraceLines(lines));
    if insertLine > 0 {
      lines := lines[..insertLine] + [ApiBaseLine] + lines[insertLine..];
      newContent := Join(lines, "\n");
      outcome := Added(insertLine);
    } else {
      outcome := NoInsertionPoint;
    }
  }

  lemma ApiBaseLineDeclares()
    ensures Contains(ApiBaseLine, "const API_BASE")
  {
    ApiBaseLineStart();
    ContainsAt(ApiBaseLine, "const API_BASE", 1);
  }

  /** A rewrite happens only to a file that uses the constant without declaring it, and only
   *  at a site the search found; anything else leaves the content as it was. */
  lemma PatchOutcome(content: string)
    ensures var p := Patch(content);
      var lines := Split(content, '\n');
      if p.outcome.Added? then
        Contains(content, "${API_BASE}") && !Contains(content, "const API_BASE") &&
        SiteOf(lines).Some? && p.outcome.line == SiteOf(lines).value.brace + 1 &&
        p.content == Join(InsertAt(lines, p.outcome.line, ApiBaseLine), "\n")
      else
        p.content == content
  {
  }

  /** A rewrite adds exactly the declaration line, right after a brace line that lies within
   *  10 lines of a declaration line, and keeps every other line in order. */
  lemma PatchInsertsOneLine(content: string)
    requires Patch(content).outcome.Added?
    ensures var k := Patch(content).outcome.line;
      var lines := Split(content, '\n');
      var site := SiteOf(lines).value;
      1 <= k <= |lines| &&
      Split(Patch(content).content, '\n') == lines[..k] + [ApiBaseLine] + lines[k..] &&
      site.brace == k - 1 && site.decl <= k - 1 < site.decl + WindowSize &&
      DeclMatch(lines[site.decl]) && IsBraceLine(lines[k - 1])
  {
    PatchOutcome(content);
    var lines := Split(content, '\n');
    var k := Patch(content).outcome.line;
    FindSiteFirst(DeclLines(lines), BraceLines(lines), 0);
    InsertedLinesSplit(lines, k);
  }

  /** After a rewrite the file declares the constant. */
  lemma PatchedDeclares(content: string)
    requires Patch(content).outcome.Added?
    ensures Contains(Patch(content).content, "const API_BASE")
  {
    var lines := Split(content, '\n');
    var k := InsertLine(lines);
    ApiBaseLineDeclares();
    var ls := InsertAt(lines, k, ApiBaseLine);
    assert ls[k] == ApiBaseLine;
    JoinContains(ls, "\n", k, "const API_BASE");
  }

  /** Patching twice is patching once, and the second pass never adds a line. */
  lemma PatchIdempotent(content: string)
    ensures Patch(Patch(content).content) == Patched(
      if Patch(content).outcome.Added? then AlreadyDeclared else Patch(content).outcome,
      Patch(content).content)
  {
    if Patch(content).outcome.Added? {
      PatchedDeclares(content);
    }
  }

  // ---------------------------------------------------------------------------
  // The whole run

  datatype Report = Report(path: string, outcome: Outcome)

  datatype Run = Run(files: map<string, string>, log: seq<Report>)

  /** One iteration of the script's loop over the file list. */
  function Step(r: Run, path: string): Run
  {
    if path !in r.files then Run(r.files, r.log + [Report(path, NotFound)])
    else
      var p := Patch(r.files[path]);
      if p.outcome.Added? then Run(r.files[path := p.content], r.log + [Report(path, p.outcome)])
      else Run(r.files, r.log + [Report(path, p.outcome)])
  }

  /** The script over the listed paths, in order. */
  function RunAll(files: map<string, string>, paths: seq<string>): Run
    decreases |paths|
  {
    if |paths| == 0 then Run(files, [])
    else Step(RunAll(files, paths[..|paths| - 1]), paths[|paths| - 1])
  }

  /** The script's main loop. */
  method RunScript(files: map<string, string>, paths: seq<string>)
    returns (result: map<string, string>, log: seq<Report>)
    ensures Run(result, log) == RunAll(files, paths)
  {
    result := files;
    log := [];
    var i := 0;
    while i < |paths|
      invariant 0 <= i <= |paths|
      invariant Run(result, log) == RunAll(files, paths[..i])
    {
      assert paths[..i + 1][..i] == paths[..i];
      var path := paths[i];
      if path !in result {
        log := log + [Report(path, NotFound)];
      } else {
        var outcome, newContent := PatchFile(result[path]);
        if outcome.Added? {
          result := result[path := newContent];
        }
        log := log + [Report(path, outcome)];
      }
      i := i + 1;
    }
    assert paths[..|paths|] == paths;
  }

  /** A run creates no file and reports every path in order, "not found" exactly for the
   *  missing ones. */
  lemma {:induction false} RunLog(files: map<string, string>, paths: seq<string>)
    ensures var r := RunAll(files, paths);
      r.files.Keys == files.Keys &&
      |r.log| == |paths| &&
      (forall i :: 0 <= i < |paths| ==> r.log[i].path == paths[i]) &&
      (forall i :: 0 <= i < |paths| ==> (r.log[i].outcome == NotFound <==> paths[i] !in files))
    decreases |paths|
  {
    if |paths| > 0 {
      var init := paths[..|paths| - 1];
      var path := paths[|paths| - 1];
      RunLog(files, init);
      var prev := RunAll(files, init);
      if path in prev.files {
        PatchOutcome(prev.files[path]);
        assert !Patch(prev.files[path]).outcome.NotFound?;
      }
    }
  }

  /** A run touches no file outside the list and leaves each listed file as one patch would
   *  (listing a file twice changes nothing more). */
  lemma {:induction false} RunFiles(files: map<string, string>, paths: seq<string>)
    ensures var r := RunAll(files, paths);
      r.files.Keys == files.Keys &&
      forall p :: p in files ==> r.files[p] == if p in paths then Patch(files[p]).content else files[p]
    decreases |paths|
  {
    if |paths| > 0 {
      var init := paths[..|paths| - 1];
      var path := paths[|paths| - 1];
      RunFiles(files, init);
      var prev := RunAll(files, init);
      assert forall p :: p in paths <==> p in init || p == path;
      if path in files {
        var c := files[path];
        PatchIdempotent(c);
        PatchOutcome(c);
        var next := Step(prev, path);
        assert next.files[path] == Patch(c).content;
      }
    }
  }

  /** Running the script a second time changes no file and adds no line. */
  lemma RunIdempotent(files: map<string, string>, paths: seq<string>)
    ensures var once := RunAll(files, paths);
      var twice := RunAll(once.files, paths);
      twice.files == once.files &&
      forall i :: 0 <= i < |twice.log| ==> !twice.log[i].outcome.Added?
  {
    var once := RunAll(files, paths);
    RunFiles(files, paths);
    forall i | 0 <= i < |paths| && paths[i] in once.files
      ensures !Patch(once.files[paths[i]]).outcome.Added?
    {
      PatchIdempotent(files[paths[i]]);
    }
    QuietRun(once.files, paths);
  }

  /** When no listed file would gain a line, a run is the identity. */
  lemma {:induction false} QuietRun(files: map<string, string>, paths: seq<string>)
    requires forall i :: 0 <= i < |paths| && paths[i] in files ==> !Patch(files[paths[i]]).outcome.Added?
    ensures RunAll(files, paths).files == files
    ensures forall i :: 0 <= i < |RunAll(files, paths).log| ==> !RunAll(files, paths).log[i].outcome.Added?
    decreases |paths|
  {
    if |paths| > 0 {
      QuietRun(files, paths[..|paths| - 1]);
    }
  }
}
