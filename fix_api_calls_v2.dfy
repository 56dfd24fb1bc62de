/** The `fix-api-calls-v2.js` patcher: the second pass over the listed files. It counts call
 *  prefixes with an optional backslash before the quote, rewrites the unescaped quote forms
 *  and both backtick forms into `` fetch(`${API_BASE}/api/ ``, turns a closing `"` or `'`
 *  followed by a comma into a backtick, and splices in the `API_BASE` declaration below the
 *  first exported or arrow-function declaration. */
module FixApiCallsV2 {
  import opened Wrappers
  import opened Strings
  import opened PatchText

  // ---------------------------------------------------------------------------
  // The two pattern passes

  /** What `/fetch\(\\?["']\/api\//g` matches. */
  const QuoteForms: seq<string> := [FetchDouble, FetchSingle, FetchEscDouble, FetchEscSingle]

  /** What `/fetch\(["']\/api\//g` replaces: the backslash forms are left alone. */
  const QuoteRewrites: seq<string> := [FetchDouble, FetchSingle]

  /** What `/fetch\(\\?`\/api\//g` both matches and replaces. */
  const TemplateForms: seq<string> := [FetchBacktick, FetchEscBacktick]

  lemma FormsNonEmpty()
    ensures NonEmptyPatterns(QuoteForms) && NonEmptyPatterns(QuoteRewrites) && NonEmptyPatterns(TemplateForms)
  {
  }

  /** A content after the passes so far, with the matches they counted. */
  datatype Rewritten = Rewritten(content: string, count: nat)

  /** The `patterns.forEach`: each pass counts on the current content and, when it found a
   *  match, replaces. */
  function RewriteCalls(content: string): Rewritten
  {
    FormsNonEmpty();
    var n1 := CountAny(content, QuoteForms);
    var c1 := if n1 > 0 then ReplaceAny(content, QuoteRewrites, FetchTemplate) else content;
    var n2 := CountAny(c1, TemplateForms);
    var c2 := if n2 > 0 then ReplaceAny(c1, TemplateForms, FetchTemplate) else c1;
    Rewritten(c2, n1 + n2)
  }

  /** `hasAPIBase`, taken on the content as read. */
  predicate HasBase(content: string)
  {
    Contains(content, "API_BASE") || Contains(content, "buildApiUrl")
  }

  // ---------------------------------------------------------------------------
  // The closing-quote repair `/\$\{API_BASE\}\/api\/([^`"']+)q\s*,/g` → `${API_BASE}/api/$1`,`

  /** `[^`"']`. */
  predicate IsPathChar(c: char)
  {
    c != '`' && c != '"' && c != '\''
  }

  function PathRun(s: string): (n: nat)
    ensures n <= |s|
    ensures forall i :: 0 <= i < n ==> IsPathChar(s[i])
    ensures n < |s| ==> !IsPathChar(s[n])
    decreases |s|
  {
    if |s| > 0 && IsPathChar(s[0]) then 1 + PathRun(s[1..]) else 0
  }

  /** A match of the repair pattern: the captured path and the length matched. */
  datatype QuoteMatch = QuoteMatch(path: string, len: nat)

  /** The part of the repair pattern after `${API_BASE}/api/`, matched at the start of `a`.
   *  Neither `q` nor `,` can extend the runs before them, so only the longest path and space
   *  runs can lead to a match. */
  function MatchAfterBase(a: string, q: char): (r: Option<QuoteMatch>)
    ensures r.Some? ==> 0 < r.value.len <= |a|
  {
    var w := PathRun(a);
    if w == 0 || w == |a| || a[w] != q then None
    else
      var b := a[w + 1..];
      var m := SpaceRun(b);
      if m == |b| || b[m] != ',' then None
      else Some(QuoteMatch(a[..w], w + m + 2))
  }

  /** The whole repair pattern matched at the start of `s`. */
  function QuoteMatchAt(s: string, q: char): (r: Option<QuoteMatch>)
    ensures r.Some? ==> 0 < r.value.len <= |s|
  {
    if !StartsWith(s, BaseApi) then None
    else
      var m := MatchAfterBase(s[|BaseApi|..], q);
      if m.None? then None else Some(QuoteMatch(m.value.path, |BaseApi| + m.value.len))
  }

  /** One global `replace` of the repair pattern for the closing quote `q`. */
  function QuoteFix(s: string, q: char): string
    decreases |s|
  {
    if |s| == 0 then s
    else match QuoteMatchAt(s, q)
      case Some(m) => BaseApi + m.path + "`," + QuoteFix(s[m.len..], q)
      case None => [s[0]] + QuoteFix(s[1..], q)
  }

  // ---------------------------------------------------------------------------
  // Where the declaration goes

  predicate IsExportLine(line: string)
  {
    var t := Trim(line);
    StartsWith(t, "export default") || StartsWith(t, "export const") || StartsWith(t, "export function")
  }

  predicate IsArrowLine(line: string)
  {
    var t := Trim(line);
    StartsWith(t, "const ") && Contains(t, "= (") && Contains(t, ") =>")
  }

  function ExportFlags(lines: seq<string>): (f: seq<bool>)
    ensures |f| == |lines| && forall i :: 0 <= i < |lines| ==> (f[i] <==> IsExportLine(lines[i]))
  {
    seq(|lines|, i requires 0 <= i < |lines| => IsExportLine(lines[i]))
  }

  function ArrowFlags(lines: seq<string>): (f: seq<bool>)
    ensures |f| == |lines| && forall i :: 0 <= i < |lines| ==> (f[i] <==> IsArrowLine(lines[i]))
  {
    seq(|lines|, i requires 0 <= i < |lines| => IsArrowLine(lines[i]))
  }

  function BraceFlags(lines: seq<string>): (f: seq<bool>)
    ensures |f| == |lines| && forall i :: 0 <= i < |lines| ==> (f[i] <==> '{' in lines[i])
  {
    seq(|lines|, i requires 0 <= i < |lines| => '{' in lines[i])
  }

  /** The first line at or after `k` holding `{`, or the line count. */
  function NextBrace(brace: seq<bool>, k: nat): (r: nat)
    requires k <= |brace|
    ensures k <= r <= |brace|
    ensures forall j :: k <= j < r ==> !brace[j]
    ensures r < |brace| ==> brace[r]
    decreases |brace| - k
  {
    if k < |brace| && !brace[k] then NextBrace(brace, k + 1) else k
  }

  /** A line where the search stops. */
  predicate Starts(exp: seq<bool>, arrow: seq<bool>, i: nat)
    requires |exp| == |arrow| && i < |exp|
  {
    exp[i] || arrow[i]
  }

  /** The search loop from line `i` on; -1 when it finds nothing. */
  function InsertIndexFrom(exp: seq<bool>, arrow: seq<bool>, brace: seq<bool>, i: nat): (r: int)
    requires |exp| == |arrow| == |brace| && i <= |exp|
    ensures -1 <= r <= |exp| + 1
    decreases |exp| - i
  {
    if i == |exp| then -1
    else if exp[i] then NextBrace(brace, i) + 1
    else if arrow[i] then i + 1
    else InsertIndexFrom(exp, arrow, brace, i + 1)
  }

  function InsertIndex(lines: seq<string>): (r: int)
    ensures -1 <= r <= |lines| + 1
  {
    InsertIndexFrom(ExportFlags(lines), ArrowFlags(lines), BraceFlags(lines), 0)
  }

  /** The search loop with its unbounded brace scan and its two `break`s. */
  method FindInsertIndex(exp: seq<bool>, arrow: seq<bool>, brace: seq<bool>) returns (insertIndex: int)
    requires |exp| == |arrow| == |brace|
    ensures insertIndex == InsertIndexFrom(exp, arrow, brace, 0)
  {
    insertIndex := -1;
    for i := 0 to |exp|
      invariant InsertIndexFrom(exp, arrow, brace, 0) == InsertIndexFrom(exp, arrow, brace, i)
    {
      if exp[i] {
        var braceIndex := i;
        while braceIndex < |brace| && !brace[braceIndex]
          invariant i <= braceIndex <= |brace|
          invariant NextBrace(brace, i) == NextBrace(brace, braceIndex)
        {
          braceIndex := braceIndex + 1;
        }
        insertIndex := braceIndex + 1;
        return;
      }
      if arrow[i] {
        insertIndex := i + 1;
        return;
      }
    }
  }

  /** From the first stopping line `s` on, the index is one past the first brace line at or
   *  below an exported declaration, or one past an arrow declaration. */
  lemma {:induction false} IndexAtStart(exp: seq<bool>, arrow: seq<bool>, brace: seq<bool>, i: nat, s: nat)
    requires |exp| == |arrow| == |brace| && i <= s < |exp|
    requires Starts(exp, arrow, s) && forall j :: i <= j < s ==> !Starts(exp, arrow, j)
    ensures InsertIndexFrom(exp, arrow, brace, i) == if exp[s] then NextBrace(brace, s) + 1 else s + 1
    decreases s - i
  {
    if i < s {
      assert !Starts(exp, arrow, i);
      IndexAtStart(exp, arrow, brace, i + 1, s);
    }
  }

  lemma {:induction false} IndexWithoutStart(exp: seq<bool>, arrow: seq<bool>, brace: seq<bool>, i: nat)
    requires |exp| == |arrow| == |brace| && i <= |exp|
    requires forall j :: i <= j < |exp| ==> !Starts(exp, arrow, j)
    ensures InsertIndexFrom(exp, arrow, brace, i) == -1
    decreases |exp| - i
  {
    if i < |exp| {
      assert !Starts(exp, arrow, i);
      IndexWithoutStart(exp, arrow, brace, i + 1);
    }
  }

  lemma {:induction false} IndexFound(exp: seq<bool>, arrow: seq<bool>, brace: seq<bool>, i: nat)
    requires |exp| == |arrow| == |brace| && i <= |exp|
    requires InsertIndexFrom(exp, arrow, brace, i) != -1
    ensures InsertIndexFrom(exp, arrow, brace, i) > i
    ensures exists s :: i <= s < |exp| && Starts(exp, arrow, s) && forall j :: i <= j < s ==> !Starts(exp, arrow, j)
    decreases |exp| - i
  {
    if !Starts(exp, arrow, i) {
      IndexFound(exp, arrow, brace, i + 1);
      var s :| i + 1 <= s < |exp| && Starts(exp, arrow, s) && forall j :: i + 1 <= j < s ==> !Starts(exp, arrow, j);
      assert forall j :: i <= j < s ==> !Starts(exp, arrow, j);
    }
  }

  /** The index is positive exactly when some line starts an exported or arrow declaration,
   *  and then it is decided by the first such line; the brace scan below an exported
   *  declaration has no bound and runs off the end (one past the last line) when no line
   *  below holds `{`. */
  lemma InsertIndexSpec(lines: seq<string>, s: nat)
    requires s < |lines|
    requires IsExportLine(lines[s]) || IsArrowLine(lines[s])
    requires forall j :: 0 <= j < s ==> !IsExportLine(lines[j]) && !IsArrowLine(lines[j])
    ensures InsertIndex(lines) > 0
    ensures IsExportLine(lines[s]) ==>
      InsertIndex(lines) == NextBrace(BraceFlags(lines), s) + 1 &&
      (InsertIndex(lines) == |lines| + 1 <==> forall j :: s <= j < |lines| ==> '{' !in lines[j])
    ensures !IsExportLine(lines[s]) ==> InsertIndex(lines) == s + 1
  {
    var exp, arrow, brace := ExportFlags(lines), ArrowFlags(lines), BraceFlags(lines);
    IndexAtStart(exp, arrow, brace, 0, s);
    if InsertIndex(lines) == |lines| + 1 {
      assert NextBrace(brace, s) == |lines|;
    }
  }

  /** Without such a line the index is -1 and nothing is inserted. */
  lemma InsertIndexNone(lines: seq<string>)
    ensures InsertIndex(lines) == -1 <==>
      forall j :: 0 <= j < |lines| ==> !IsExportLine(lines[j]) && !IsArrowLine(lines[j])
  {
    var exp, arrow, brace := ExportFlags(lines), ArrowFlags(lines), BraceFlags(lines);
    if forall j :: 0 <= j < |lines| ==> !IsExportLine(lines[j]) && !IsArrowLine(lines[j]) {
      IndexWithoutStart(exp, arrow, brace, 0);
    } else if InsertIndex(lines) == -1 {
      var s :| 0 <= s < |lines| && (IsExportLine(lines[s]) || IsArrowLine(lines[s]));
      assert Starts(exp, arrow, s);
      NoStartBefore(exp, arrow, brace, 0, s);
    }
  }

  /** A stopping line `s` means the search cannot come back empty. */
  lemma {:induction false} NoStartBefore(exp: seq<bool>, arrow: seq<bool>, brace: seq<bool>, i: nat, s: nat)
    requires |exp| == |arrow| == |brace| && i <= s < |exp| && Starts(exp, arrow, s)
    ensures InsertIndexFrom(exp, arrow, brace, i) > i
    decreases s - i
  {
    if i < s && !Starts(exp, arrow, i) {
      NoStartBefore(exp, arrow, brace, i + 1, s);
    }
  }

  // ---------------------------------------------------------------------------
  // One file

  datatype Fixed = Fixed(modified: bool, replacements: nat, content: string)

  /** `lines.splice(k, 0, …)`: a start past the end appends. */
  function Clamp(k: nat, n: nat): (r: nat)
    ensures r <= n && (k <= n ==> r == k)
  {
    if k <= n then k else n
  }

  /** The text after the closing-quote repair for both quote kinds. */
  function Repair(text: string): string
  {
    QuoteFix(QuoteFix(text, '"'), '\'')
  }

  /** The declaration splice, or the text unchanged when the search found nothing. */
  function Splice(text: string): string
  {
    var lines := Split(text, '\n');
    var k := InsertIndex(lines);
    if k > 0 then Join(InsertAt(lines, Clamp(k, |lines|), ApiBaseLine), "\n") else text
  }

  function Fix(content: string): Fixed
  {
    var rw := RewriteCalls(content);
    var modified := rw.count > 0;
    var repaired := if modified then Repair(rw.content) else rw.content;
    if modified && !HasBase(content) then Fixed(true, rw.count, Splice(repaired))
    else Fixed(modified, rw.count, repaired)
  }

  /** One pass of the `patterns.forEach`. */
  method RewritePass(content: string, counted: seq<string>, replaced: seq<string>)
    returns (matches: nat, newContent: string)
    requires NonEmptyPatterns(counted) && NonEmptyPatterns(replaced)
    ensures matches == CountAny(content, counted)
    ensures newContent == if matches > 0 then ReplaceAny(content, replaced, FetchTemplate) else content
  {
    matches := CountAny(content, counted);
    newContent := content;
    if matches > 0 {
      newContent := ReplaceAny(content, replaced, FetchTemplate);
    }
  }

  /** The splice, with the loop that finds the index. */
  method SpliceDeclaration(text: string) returns (newText: string)
    ensures newText == Splice(text)
  {
    var lines := Split(text, '\n');
    var insertIndex := FindInsertIndex(ExportFlags(lines), ArrowFlags(lines), BraceFlags(lines));
    newText := text;
    if insertIndex > 0 {
      var at := Clamp(insertIndex, |lines|);
      lines := lines[..at] + [ApiBaseLine] + lines[at..];
      newText := Join(lines, "\n");
    }
  }

  /** The per-file body of the script's loop, after the existence check. */
  method FixFile(content: string) returns (modified: bool, replacements: nat, newContent: string)
    ensures Fixed(modified, replacements, newContent) == Fix(content)
  {
    FormsNonEmpty();
    var hasBase := HasBase(content);
    var m1, c1 := RewritePass(content, QuoteForms, QuoteRewrites);
    var m2, c2 := RewritePass(c1, TemplateForms, TemplateForms);
    replacements := m1 + m2;
    modified := m1 > 0 || m2 > 0;
    newContent := c2;
    if modified {
      newContent := QuoteFix(newContent, '"');
      newContent := QuoteFix(newContent, '\'');
    }
    if modified && !hasBase {
      newContent := SpliceDeclaration(newContent);
    }
  }

  // ---------------------------------------------------------------------------
  // Properties of one file

  /** Every prefix of the second pass, and the unescaped quote prefixes, are gone after the
   *  two passes. */
  lemma RewriteClears(content: string, q: string)
    requires q == FetchDouble || q == FetchSingle || q == FetchBacktick || q == FetchEscBacktick
    ensures !Contains(RewriteCalls(content).content, q)
  {
    FormsNonEmpty();
    TemplateCannotForm(q);
    var n1 := CountAny(content, QuoteForms);
    var c1 := if n1 > 0 then ReplaceAny(content, QuoteRewrites, FetchTemplate) else content;
    CountZeroIffAbsent(content, QuoteForms);
    CountZeroIffAbsent(c1, TemplateForms);
    if q in QuoteRewrites {
      if n1 > 0 {
        ReplaceLeavesNoMatch(content, QuoteRewrites, FetchTemplate, q);
      } else {
        assert q == QuoteForms[0] || q == QuoteForms[1];
      }
      if CountAny(c1, TemplateForms) > 0 {
        ReplaceLeavesNoMatch(c1, TemplateForms, FetchTemplate, q);
      }
    } else if CountAny(c1, TemplateForms) > 0 {
      ReplaceLeavesNoMatch(c1, TemplateForms, FetchTemplate, q);
    } else {
      assert q == TemplateForms[0] || q == TemplateForms[1];
    }
  }

  /** The file is written exactly when the content as read held one of the six prefixes,
   *  escaped or not, and then the count is positive. */
  lemma FixModified(content: string)
    ensures var f := Fix(content);
      (f.modified <==> f.replacements > 0) &&
      (f.modified <==> (exists i :: 0 <= i < |QuoteForms| && Contains(content, QuoteForms[i])) ||
                       (exists i :: 0 <= i < |TemplateForms| && Contains(content, TemplateForms[i]))) &&
      (!f.modified ==> f.content == content)
  {
    FormsNonEmpty();
    var n1 := CountAny(content, QuoteForms);
    var c1 := if n1 > 0 then ReplaceAny(content, QuoteRewrites, FetchTemplate) else content;
    CountZeroIffAbsent(content, QuoteForms);
    CountZeroIffAbsent(c1, TemplateForms);
    if n1 > 0 {
      forall i | 0 <= i < |TemplateForms| && !Contains(content, TemplateForms[i])
        ensures !Contains(c1, TemplateForms[i])
      {
        TemplateCannotForm(TemplateForms[i]);
        ReplaceLeavesNoMatch(content, QuoteRewrites, FetchTemplate, TemplateForms[i]);
      }
    }
  }

  /** The count covers the backslash forms but the replacement does not: a file whose only
   *  calls are `fetch(\"/api/` or `fetch(\'/api/` is reported as updated, with those calls
   *  counted, yet its calls stay as they were, so every later run reports and writes it
   *  again. */
  lemma EscapedCountedNotRewritten(content: string)
    requires Contains(content, FetchEscDouble) || Contains(content, FetchEscSingle)
    requires !Contains(content, FetchDouble) && !Contains(content, FetchSingle)
    requires !Contains(content, FetchBacktick) && !Contains(content, FetchEscBacktick)
    requires !Contains(content, BaseApi)
    ensures RewriteCalls(content) == Rewritten(content, CountAny(content, QuoteForms))
    ensures Fix(content).modified && Fix(content).replacements > 0
    ensures HasBase(content) ==> Fix(content).content == content
  {
    EscapedPasses(content);
    RepairWithoutBase(content);
  }

  lemma EscapedPasses(content: string)
    requires Contains(content, FetchEscDouble) || Contains(content, FetchEscSingle)
    requires !Contains(content, FetchDouble) && !Contains(content, FetchSingle)
    requires !Contains(content, FetchBacktick) && !Contains(content, FetchEscBacktick)
    ensures NonEmptyPatterns(QuoteForms) && CountAny(content, QuoteForms) > 0
    ensures RewriteCalls(content) == Rewritten(content, CountAny(content, QuoteForms))
  {
    FormsNonEmpty();
    assert QuoteForms[2] == FetchEscDouble && QuoteForms[3] == FetchEscSingle;
    CountZeroIffAbsent(content, QuoteForms);
    assert QuoteRewrites[0] == FetchDouble && QuoteRewrites[1] == FetchSingle;
    CountZeroIffAbsent(content, QuoteRewrites);
    assert TemplateForms[0] == FetchBacktick && TemplateForms[1] == FetchEscBacktick;
    CountZeroIffAbsent(content, TemplateForms);
    assert CountAny(content, QuoteRewrites) == 0;
    assert ReplaceAny(content, QuoteRewrites, FetchTemplate) == content;
    assert CountAny(content, TemplateForms) == 0;
  }

  /** Without `${API_BASE}/api/` in the text the repair changes nothing. */
  lemma {:induction false} QuoteFixWithoutBase(s: string, q: char)
    requires !Contains(s, BaseApi)
    ensures QuoteFix(s, q) == s
    decreases |s|
  {
    if |s| > 0 {
      QuoteFixWithoutBase(s[1..], q);
      assert [s[0]] + s[1..] == s;
    }
  }

  lemma RepairWithoutBase(s: string)
    requires !Contains(s, BaseApi)
    ensures Repair(s) == s
  {
    QuoteFixWithoutBase(s, '"');
    QuoteFixWithoutBase(s, '\'');
  }

  /** One repair: a rewritten call whose path ends in the quote `q`, spaces and a comma gets
   *  a closing backtick and loses the spaces; the rest of the text is repaired on its own. */
  lemma QuoteFixOne(path: string, q: char, spaces: string, rest: string)
    requires q == '"' || q == '\''
    requires |path| > 0 && forall i :: 0 <= i < |path| ==> IsPathChar(path[i])
    requires forall i :: 0 <= i < |spaces| ==> IsJsSpace(spaces[i])
    ensures QuoteFix(BaseApi + path + [q] + spaces + [','] + rest, q) == BaseApi + path + "`," + QuoteFix(rest, q)
  {
    var a := path + [q] + spaces + [','] + rest;
    var s := BaseApi + a;
    assert BaseApi + path + [q] + spaces + [','] + rest == s;
    assert StartsWith(s, BaseApi) && s[|BaseApi|..] == a;
    MatchOne(path, q, spaces, rest);
    assert s[|BaseApi| + |path| + |spaces| + 2..] == rest;
  }

  lemma MatchOne(path: string, q: char, spaces: string, rest: string)
    requires q == '"' || q == '\''
    requires |path| > 0 && forall i :: 0 <= i < |path| ==> IsPathChar(path[i])
    requires forall i :: 0 <= i < |spaces| ==> IsJsSpace(spaces[i])
    ensures MatchAfterBase(path + [q] + spaces + [','] + rest, q) == Some(QuoteMatch(path, |path| + |spaces| + 2))
  {
    var a := path + [q] + spaces + [','] + rest;
    PathRunPrefix(path, [q] + spaces + [','] + rest);
    assert a == path + ([q] + spaces + [','] + rest);
    assert a[|path|] == q && a[..|path|] == path;
    var b := a[|path| + 1..];
    assert b == spaces + ([','] + rest);
    SpaceRunPrefix(spaces, [','] + rest);
    assert b[|spaces|] == ',';
  }

  lemma {:induction false} PathRunPrefix(w: string, t: string)
    requires forall i :: 0 <= i < |w| ==> IsPathChar(w[i])
    requires |t| > 0 && !IsPathChar(t[0])
    ensures PathRun(w + t) == |w|
    decreases |w|
  {
    if |w| > 0 {
      assert (w + t)[1..] == w[1..] + t;
      PathRunPrefix(w[1..], t);
    } else {
      assert w + t == t;
    }
  }

  lemma {:induction false} SpaceRunPrefix(w: string, t: string)
    requires forall i :: 0 <= i < |w| ==> IsJsSpace(w[i])
    requires |t| > 0 && !IsJsSpace(t[0])
    ensures SpaceRun(w + t) == |w|
    decreases |w|
  {
    if |w| > 0 {
      assert (w + t)[1..] == w[1..] + t;
      SpaceRunPrefix(w[1..], t);
    } else {
      assert w + t == t;
    }
  }

  /** The declaration goes in only when the file was modified, did not mention the base and
   *  has a declaration to anchor it; it is then one extra line and no other line moves. */
  lemma FixSplices(content: string)
    ensures var rw := RewriteCalls(content);
      var f := Fix(content);
      var repaired := if rw.count > 0 then Repair(rw.content) else rw.content;
      var lines := Split(repaired, '\n');
      var k := InsertIndex(lines);
      if f.modified && !HasBase(content) && k > 0 then
        Split(f.content, '\n') == InsertAt(lines, Clamp(k, |lines|), ApiBaseLine)
      else
        f.content == repaired
  {
    var rw := RewriteCalls(content);
    var repaired := if rw.count > 0 then Repair(rw.content) else rw.content;
    var lines := Split(repaired, '\n');
    var k := InsertIndex(lines);
    if rw.count > 0 && !HasBase(content) && k > 0 {
      InsertedLinesSplit(lines, Clamp(k, |lines|));
    }
  }

  // ---------------------------------------------------------------------------
  // The whole run

  datatype Outcome = NotFound | Updated(replacements: nat) | NoChanges

  datatype Report = Report(path: string, outcome: Outcome)

  datatype Run = Run(files: map<string, string>, log: seq<Report>, filesUpdated: nat, replacements: nat)

  function Step(r: Run, path: string): Run
  {
    if path !in r.files then Run(r.files, r.log + [Report(path, NotFound)], r.filesUpdated, r.replacements)
    else
      var f := Fix(r.files[path]);
      if f.modified then
        Run(r.files[path := f.content], r.log + [Report(path, Updated(f.replacements))],
            r.filesUpdated + 1, r.replacements + f.replacements)
      else Run(r.files, r.log + [Report(path, NoChanges)], r.filesUpdated, r.replacements)
  }

  function RunAll(files: map<string, string>, paths: seq<string>): Run
    decreases |paths|
  {
    if |paths| == 0 then Run(files, [], 0, 0)
    else Step(RunAll(files, paths[..|paths| - 1]), paths[|paths| - 1])
  }

  method RunScript(files: map<string, string>, paths: seq<string>)
    returns (result: map<string, string>, log: seq<Report>, totalFilesUpdated: nat, totalReplacements: nat)
    ensures Run(result, log, totalFilesUpdated, totalReplacements) == RunAll(files, paths)
  {
    result, log, totalFilesUpdated, totalReplacements := files, [], 0, 0;
    for i := 0 to |paths|
      invariant Run(result, log, totalFilesUpdated, totalReplacements) == RunAll(files, paths[..i])
    {
      assert paths[..i + 1][..i] == paths[..i];
      var path := paths[i];
      if path !in result {
        log := log + [Report(path, NotFound)];
        continue;
      }
      var modified, replacements, newContent := FixFile(result[path]);
      if modified {
        result := result[path := newContent];
        log := log + [Report(path, Updated(replacements))];
        totalFilesUpdated := totalFilesUpdated + 1;
        totalReplacements := totalReplacements + replacements;
      } else {
        log := log + [Report(path, NoChanges)];
      }
    }
    assert paths[..|paths|] == paths;
  }

  /** The number of updated reports in a log and the sum of their counts. */
  function UpdatedCount(log: seq<Report>): nat
  {
    if |log| == 0 then 0
    else UpdatedCount(log[..|log| - 1]) + (if log[|log| - 1].outcome.Updated? then 1 else 0)
  }

  function ReplacementSum(log: seq<Report>): nat
  {
    if |log| == 0 then 0
    else
      var last := log[|log| - 1].outcome;
      ReplacementSum(log[..|log| - 1]) + (if last.Updated? then last.replacements else 0)
  }

  /** The totals printed at the end are the sums over the per-file reports, and each updated
   *  file counts at least one call. */
  lemma {:induction false} RunTotals(files: map<string, string>, paths: seq<string>)
    ensures var r := RunAll(files, paths);
      r.filesUpdated == UpdatedCount(r.log) && r.replacements == ReplacementSum(r.log) &&
      r.filesUpdated <= r.replacements && |r.log| == |paths|
    decreases |paths|
  {
    if |paths| > 0 {
      var init := paths[..|paths| - 1];
      RunTotals(files, init);
      var prev := RunAll(files, init);
      var path := paths[|paths| - 1];
      if path in prev.files {
        FixModified(prev.files[path]);
      }
      var r := Step(prev, path);
      assert r.log[..|r.log| - 1] == prev.log;
    }
  }

  /** A run touches only listed files; a file listed once ends as one fix leaves it. */
  lemma {:induction false} RunFiles(files: map<string, string>, paths: seq<string>)
    requires forall i, j :: 0 <= i < j < |paths| ==> paths[i] != paths[j]
    ensures var r := RunAll(files, paths);
      r.files.Keys == files.Keys &&
      forall p :: p in files ==> r.files[p] == if p in paths then Fix(files[p]).content else files[p]
    decreases |paths|
  {
    if |paths| > 0 {
      var init := paths[..|paths| - 1];
      var path := paths[|paths| - 1];
      RunFiles(files, init);
      assert forall p :: p in paths <==> p in init || p == path;
      assert path !in init;
      if path in files {
        FixModified(files[path]);
      }
    }
  }
}
