/** The 流年 (annual fortune) AI-analysis route: the answer is cleaned as plain text for
 *  a 日主特性 request and validated as one of two JSON shapes otherwise; whatever fails
 *  validation goes through an aggressive cleaning and, failing that, a personalised
 *  fallback built from the birth year, gender and concern. */
module AiAnalysis {
  import opened Wrappers
  import opened Strings

  // ---------------------------------------------------------------------------
  // JavaScript string operations

  /** A line terminator: where `.` stops and where a multi-line `^` or `$` matches. */
  predicate IsLineEnd(c: char)
  {
    c == '\n' || c == '\r' || c == '\U{2028}' || c == '\U{2029}'
  }

  function Clamp(i: int, n: nat): (r: nat)
    ensures r <= n
  {
    if i < 0 then 0 else if i > n then n else i
  }

  /** `s.substring(a, b)`: both ends clamped to the string, swapped when reversed. */
  function JsSubstring(s: string, a: int, b: int): (r: string)
    ensures |r| <= |s|
  {
    var lo, hi := Clamp(a, |s|), Clamp(b, |s|);
    if lo <= hi then s[lo..hi] else s[hi..lo]
  }

  /** `s.lastIndexOf(c)` for one character, -1 when absent. */
  function LastIndexOfChar(s: string, c: char): (r: int)
    ensures -1 <= r < |s|
    ensures r >= 0 ==> s[r] == c && forall k :: r < k < |s| ==> s[k] != c
    ensures r == -1 ==> c !in s
    decreases |s|
  {
    if |s| == 0 then -1
    else if s[|s| - 1] == c then |s| - 1
    else LastIndexOfChar(s[..|s| - 1], c)
  }

  /** How far `.*` reaches: the characters before the first line terminator. */
  function LineRest(t: string): (n: nat)
    ensures n <= |t| && forall k :: 0 <= k < n ==> !IsLineEnd(t[k])
    ensures n < |t| ==> IsLineEnd(t[n])
    decreases |t|
  {
    if |t| > 0 && !IsLineEnd(t[0]) then 1 + LineRest(t[1..]) else 0
  }

  /** Where the lazy `(.*?)marker` stops: the first marker before any line terminator. */
  function Closing(u: string, marker: string): (r: Option<nat>)
    requires |marker| > 0
    ensures r.Some? ==> r.value + |marker| <= |u| && u[r.value..r.value + |marker|] == marker
    decreases |u|
  {
    if StartsWith(u, marker) then Some(0)
    else if |u| == 0 || IsLineEnd(u[0]) then None
    else
      var k := Closing(u[1..], marker);
      if k.Some? then
        assert u[1..][k.value..k.value + |marker|] == u[k.value + 1..k.value + 1 + |marker|];
        Some(k.value + 1)
      else None
  }

  // ---------------------------------------------------------------------------
  // The global replacements

  /** One global regular-expression replacement of the route. */
  datatype Rule =
    | Headers   // /#{1,6}\s*/g → ""
    | Bold      // lazy bold pair → its inner text
    | Italic    // lazy italic pair → its inner text
    | Bullet    // /^[\s]*-[\s]+/gm → ""
    | Numbered  // /^[\s]*\d+\.[\s]+/gm → ""
    | Link      // [text](url) → text
    | QuoteLine // /^>\s*.*$/gm → ""
    | BoldLine  // a whole line between bold markers → ""
    | HashLine  // /^#{1,6}\s.*$/gm → ""
    | RuleLine  // /^---.*$/gm → ""

  /** The rules whose pattern starts with a multi-line `^`. */
  predicate Anchored(rule: Rule)
  {
    !(rule.Headers? || rule.Bold? || rule.Italic? || rule.Link?)
  }

  /** A match at the start of `t`: it takes at least one character of `t` and puts in
   *  their place only characters of `t`. */
  predicate Fits(r: Option<(nat, string)>, t: string)
  {
    r.Some? ==> 0 < r.value.0 <= |t| && forall c :: c in r.value.1 ==> c in t
  }

  /** A match that takes at least one character and deletes what it takes. */
  predicate Drops(r: Option<(nat, string)>, t: string)
  {
    r.Some? ==> 0 < r.value.0 <= |t| && r.value.1 == ""
  }

  /** A match that takes at least one character and keeps the part of `t` from `a` on. */
  predicate KeepsFrom(r: Option<(nat, string)>, t: string, a: nat)
  {
    r.Some? ==> 0 < r.value.0 <= |t| && a + |r.value.1| <= |t| && r.value.1 == t[a..a + |r.value.1|]
  }

  /** `#{1,6}\s*`: at most six `#` and the white space after them. */
  function HeaderMatch(t: string): (r: Option<(nat, string)>)
    ensures Drops(r, t)
    ensures r.Some? <==> |t| > 0 && t[0] == '#'
    ensures r.Some? ==> r.value.1 == ""
  {
    if |t| > 0 && t[0] == '#' then
      var h := if CharRun(t, '#') > 6 then 6 else CharRun(t, '#');
      Some((h + SpaceRun(t[h..]), ""))
    else None
  }

  /** `marker(.*?)marker` → the text between the markers, on one line. */
  function PairMatch(t: string, marker: string): (r: Option<(nat, string)>)
    requires |marker| > 0
    ensures KeepsFrom(r, t, |marker|)
  {
    if StartsWith(t, marker) then
      var k := Closing(t[|marker|..], marker);
      if k.Some? then Some((k.value + 2 * |marker|, t[|marker|..k.value + |marker|])) else None
    else None
  }

  /** `^[\s]*-[\s]+`. */
  function BulletMatch(t: string): (r: Option<(nat, string)>)
    ensures Drops(r, t)
  {
    var w := SpaceRun(t);
    if w + 1 < |t| && t[w] == '-' && IsJsSpace(t[w + 1]) then Some((w + 1 + SpaceRun(t[w + 1..]), ""))
    else None
  }

  /** `^[\s]*\d+\.[\s]+`. */
  function NumberedMatch(t: string): (r: Option<(nat, string)>)
    ensures Drops(r, t)
  {
    var w := SpaceRun(t);
    var d := DigitRun(t[w..]);
    if d > 0 && w + d + 1 < |t| && t[w + d] == '.' && IsJsSpace(t[w + d + 1]) then
      Some((w + d + 1 + SpaceRun(t[w + d + 1..]), ""))
    else None
  }

  /** `[text](url)` → text, both parts non-empty. */
  function LinkMatch(t: string): (r: Option<(nat, string)>)
    ensures KeepsFrom(r, t, 1)
  {
    if |t| > 0 && t[0] == '[' then
      var j := IndexOfChar(t[1..], ']');
      if j > 0 && j + 2 < |t| && t[j + 2] == '(' then
        var k := IndexOfChar(t[j + 3..], ')');
        if k > 0 then Some((j + k + 4, t[1..j + 1])) else None
      else None
    else None
  }

  /** `^>\s*.*$`. */
  function QuoteMatch(t: string): (r: Option<(nat, string)>)
    ensures Drops(r, t)
  {
    if |t| > 0 && t[0] == '>' then
      var w := SpaceRun(t[1..]);
      Some((1 + w + LineRest(t[1 + w..]), ""))
    else None
  }

  /** A whole line opening and closing with the bold marker. */
  function BoldLineMatch(t: string): (r: Option<(nat, string)>)
    ensures Drops(r, t)
  {
    var n := LineRest(t);
    if n >= 4 && StartsWith(t[..n], "**") && EndsWith(t[..n], "**") then Some((n, "")) else None
  }

  /** `^#{1,6}\s.*$`. */
  function HashLineMatch(t: string): (r: Option<(nat, string)>)
    ensures Drops(r, t)
  {
    var h := CharRun(t, '#');
    if 1 <= h <= 6 && h < |t| && IsJsSpace(t[h]) then Some((h + 1 + LineRest(t[h + 1..]), "")) else None
  }

  /** `^---.*$`. */
  function RuleMatch(t: string): (r: Option<(nat, string)>)
    ensures Drops(r, t)
  {
    if StartsWith(t, "---") then Some((3 + LineRest(t[3..]), "")) else None
  }

  /** The match of `rule` at the start of `t`: how many characters it takes and what it
   *  puts in their place. */
  function Match(rule: Rule, t: string): (r: Option<(nat, string)>)
    ensures Fits(r, t)
  {
    match rule
    case Headers => HeaderMatch(t)
    case Bold => PairMatch(t, "**")
    case Italic => PairMatch(t, "*")
    case Bullet => BulletMatch(t)
    case Numbered => NumberedMatch(t)
    case Link => LinkMatch(t)
    case QuoteLine => QuoteMatch(t)
    case BoldLine => BoldLineMatch(t)
    case HashLine => HashLineMatch(t)
    case RuleLine => RuleMatch(t)
  }

  /** A multi-line `^` holds at `i`: the start, or just after a line terminator. */
  predicate LineStart(s: string, i: nat)
    requires i <= |s|
  {
    i == 0 || IsLineEnd(s[i - 1])
  }

  /** A pattern as a function: what it matches at the start of a text. */
  type Matcher = string -> Option<(nat, string)>

  /** Every match of `m` takes at least one character and brings in only characters of the
   *  text. */
  ghost predicate Sound(m: Matcher)
  {
    forall t :: Fits(m(t), t)
  }

  function MatcherOf(rule: Rule): (m: Matcher)
    ensures Sound(m)
  {
    t => Match(rule, t)
  }

  /** `s.replace(pattern, replacement)` from position `i` on: where the pattern matches, its
   *  replacement, and the scan goes on after the match; elsewhere the character stays. */
  function Scan(s: string, i: nat, m: Matcher, anchored: bool): string
    requires i <= |s| && Sound(m)
    decreases |s| - i
  {
    if i == |s| then ""
    else
      var r := if !anchored || LineStart(s, i) then m(s[i..]) else None;
      if r.Some? then r.value.1 + Scan(s, i + r.value.0, m, anchored)
      else [s[i]] + Scan(s, i + 1, m, anchored)
  }

  /** One step of the scan: the match at `i` is replaced, or the character there is kept. */
  lemma ScanUnfold(s: string, i: nat, m: Matcher, anchored: bool)
    requires i < |s| && Sound(m)
    ensures var r := if !anchored || LineStart(s, i) then m(s[i..]) else None;
      Scan(s, i, m, anchored) ==
        if r.Some? then r.value.1 + Scan(s, i + r.value.0, m, anchored)
        else [s[i]] + Scan(s, i + 1, m, anchored)
  {
  }

  function Replace(s: string, rule: Rule): string
  {
    Scan(s, 0, MatcherOf(rule), Anchored(rule))
  }

  /** The header replacement leaves no `#` at all: every `#` starts a match of one to six. */
  lemma HeadersLeaveNoHash(s: string, i: nat)
    requires i <= |s|
    ensures '#' !in Scan(s, i, MatcherOf(Headers), false)
  {
    var h := MatcherOf(Headers);
    forall t ensures h(t) == HeaderMatch(t) {
    }
    ScanDropsChar(s, i, h, '#');
  }

  /** An unanchored scan whose matcher takes every `c` and never writes one leaves no `c`. */
  lemma {:induction false} ScanDropsChar(s: string, i: nat, m: Matcher, c: char)
    requires i <= |s| && Sound(m)
    requires forall t :: (|t| > 0 && t[0] == c ==> m(t).Some?) && (m(t).Some? ==> c !in m(t).value.1)
    ensures c !in Scan(s, i, m, false)
    decreases |s| - i
  {
    if i < |s| {
      var r := m(s[i..]);
      if r.Some? {
        assert Fits(m(s[i..]), s[i..]);
        ScanDropsChar(s, i + r.value.0, m, c);
        assert Scan(s, i, m, false) == r.value.1 + Scan(s, i + r.value.0, m, false);
      } else {
        assert s[i..][0] != c;
        ScanDropsChar(s, i + 1, m, c);
        assert Scan(s, i, m, false) == [s[i]] + Scan(s, i + 1, m, false);
      }
    }
  }

  // ---------------------------------------------------------------------------
  // Runs of line breaks

  function Lead(s: string): (n: nat)
    ensures n <= |s| && forall k :: 0 <= k < n ==> s[k] == '\n'
    ensures n < |s| ==> s[n] != '\n'
  {
    CharRun(s, '\n')
  }

  /** `s.replace(/\n{3,}/g, "\n\n")`. */
  function CollapseBlankRuns(s: string): (r: string)
    decreases |s|
  {
    if |s| == 0 then ""
    else if Lead(s) >= 3 then "\n\n" + CollapseBlankRuns(s[Lead(s)..])
    else [s[0]] + CollapseBlankRuns(s[1..])
  }

  /** After collapsing, no three line breaks stand in a row, and the result starts with at
   *  most two of them, never more than the text did. */
  lemma {:induction false} CollapseBlankRunsRule(s: string)
    ensures !Contains(CollapseBlankRuns(s), "\n\n\n")
    ensures Lead(CollapseBlankRuns(s)) <= 2 && Lead(CollapseBlankRuns(s)) <= Lead(s)
    decreases |s|
  {
    if |s| > 0 {
      var n := Lead(s);
      var r := CollapseBlankRuns(s);
      if n >= 3 {
        var rest := CollapseBlankRuns(s[n..]);
        CollapseBlankRunsRule(s[n..]);
        LeadNone(s[n..]);
        assert r == "\n" + ("\n" + rest);
        LeadCons(rest);
        LeadCons("\n" + rest);
        LeadNone(rest);
        NotTripleStart(r);
        assert r[1..] == "\n" + rest;
        NotTripleStart(r[1..]);
        assert r[1..][1..] == rest;
      } else {
        var rest := CollapseBlankRuns(s[1..]);
        CollapseBlankRunsRule(s[1..]);
        assert r == [s[0]] + rest && r[1..] == rest;
        if s[0] == '\n' {
          assert s == "\n" + s[1..];
          LeadCons(s[1..]);
          LeadTwo(rest);
          NotTripleStart(r);
          assert r == "\n" + rest;
          LeadCons(rest);
        } else {
          NotTripleStart(r);
        }
      }
    }
  }

  lemma LeadCons(s: string)
    ensures Lead("\n" + s) == Lead(s) + 1
  {
    assert ("\n" + s)[1..] == s;
  }

  lemma LeadNone(s: string)
    ensures Lead(s) == 0 <==> |s| == 0 || s[0] != '\n'
  {
  }

  lemma LeadTwo(t: string)
    ensures |t| >= 2 && t[0] == '\n' && t[1] == '\n' ==> Lead(t) >= 2
  {
    if |t| >= 2 && t[0] == '\n' && t[1] == '\n' {
      assert t[1..][0] == '\n';
    }
  }

  lemma NotTripleStart(r: string)
    requires |r| < 3 || r[0] != '\n' || r[1] != '\n' || r[2] != '\n'
    ensures !StartsWith(r, "\n\n\n")
  {
    if |r| >= 3 {
      assert r[..3] == [r[0], r[1], r[2]];
    }
  }

  // ---------------------------------------------------------------------------
  // cleanMarkdownFormatting and removeBiographicalIntro

  /** `cleanMarkdownFormatting`: headers, bold, italic, bullets and numbers removed, runs of
   *  line breaks collapsed, links reduced to their text, and the result trimmed. */
  function CleanMarkdown(s: string): (r: string)
    ensures |r| > 0 ==> !IsJsSpace(r[0]) && !IsJsSpace(r[|r| - 1])
  {
    var linked := Linked(s);
    TrimEdges(linked);
    Trim(linked)
  }

  /** The five marker replacements, in the route's order. */
  function Unmarked(s: string): string
  {
    Replace(Replace(Replace(Replace(Replace(s, Headers), Bold), Italic), Bullet), Numbered)
  }

  /** The text before the final trim: runs of line breaks collapsed, then links reduced. */
  function Linked(s: string): string
  {
    Replace(CollapseBlankRuns(Unmarked(s)), Link)
  }

  lemma NoTripleLead(s: string)
    requires !StartsWith(s, "\n\n\n")
    ensures Lead(s) < 3
  {
    if |s| >= 3 {
      assert s[..3] == [s[0], s[1], s[2]];
      assert s[1..][0] == s[1] && s[1..][1..][0] == s[2];
    }
  }

  /** Collapsing changes nothing in a text without three line breaks in a row. */
  lemma {:induction false} CollapseKeeps(s: string)
    requires !Contains(s, "\n\n\n")
    ensures CollapseBlankRuns(s) == s
    decreases |s|
  {
    if |s| > 0 {
      NoTripleLead(s);
      CollapseKeeps(s[1..]);
    }
  }

  /** The text `[\n\n](u)\n`: a link whose text is two line breaks, then a line break. */
  predicate LinkSample(s: string)
  {
    |s| == 8 && s[0] == '[' && s[1] == '\n' && s[2] == '\n' && s[3] == ']' &&
    s[4] == '(' && s[5] == 'u' && s[6] == ')' && s[7] == '\n'
  }

  /** Text that does not open with three line breaks keeps its first character. */
  lemma CollapseCons(t: string)
    requires |t| > 0
    requires |t| < 3 || t[0] != '\n' || t[1] != '\n' || t[2] != '\n'
    ensures CollapseBlankRuns(t) == [t[0]] + CollapseBlankRuns(t[1..])
  {
    if |t| >= 3 && t[0] == '\n' && t[1] == '\n' {
      assert t[1..][1..][0] == t[2];
    }
  }

  lemma CollapseExample(s: string)
    requires LinkSample(s)
    ensures CollapseBlankRuns(s) == s
  {
    var k := 8;
    while k > 0
      invariant 0 <= k <= 8 && CollapseBlankRuns(s[k..]) == s[k..]
    {
      k := k - 1;
      CollapseCons(s[k..]);
      assert s[k..] == [s[k]] + s[k + 1..];
    }
  }

  lemma IndexOfCharAt(s: string, c: char, k: nat)
    requires k < |s| && s[k] == c && forall m :: 0 <= m < k ==> s[m] != c
    ensures IndexOfChar(s, c) == k
  {
    assert c in s;
  }

  /** A link whose text ends at `j` past the `[` and whose target ends `k` past the `(`. */
  lemma LinkMatchAt(t: string, j: nat, k: nat)
    requires 0 < j && j + 3 + k < |t| && 0 < k
    requires t[0] == '[' && t[j + 1] == ']' && t[j + 2] == '(' && t[j + 3 + k] == ')'
    requires forall m :: 1 <= m < j + 1 ==> t[m] != ']'
    requires forall m :: j + 3 <= m < j + 3 + k ==> t[m] != ')'
    ensures LinkMatch(t) == Some((j + k + 4, t[1..j + 1]))
  {
    IndexOfCharAt(t[1..], ']', j);
    IndexOfCharAt(t[j + 3..], ')', k);
  }

  lemma LinkMatchExample(s: string)
    requires LinkSample(s)
    ensures LinkMatch(s) == Some((7, "\n\n"))
  {
    LinkMatchAt(s, 2, 1);
    assert s[1..3] == "\n\n";
  }

  lemma LinkExample(s: string)
    requires LinkSample(s)
    ensures Replace(s, Link) == "\n\n\n"
  {
    LinkMatchExample(s);
    assert s[0..] == s;
    assert s[7..] == "\n";
    assert LinkMatch(s[7..]) == None;
    var l := MatcherOf(Link);
    assert l(s) == LinkMatch(s) && l(s[7..]) == LinkMatch(s[7..]);
    assert Scan(s, 8, l, false) == "";
    assert Scan(s, 7, l, false) == "\n";
  }

  /** The link step runs after the collapse, so a link whose text holds line breaks can put
   *  three line breaks in a row back into the text. */
  lemma LinkAfterCollapseExample(s: string)
    requires LinkSample(s)
    ensures CollapseBlankRuns(s) == s
    ensures Replace(CollapseBlankRuns(s), Link) == "\n\n\n"
  {
    CollapseExample(s);
    LinkExample(s);
  }

  /** Line `k` is blank (white space only, which is what trimming to nothing means, see
   *  `BlankIffAllSpace`) and the line before it mentions 詳細. */
  predicate IntroBreak(lines: seq<string>, k: nat)
    requires 1 <= k < |lines|
  {
    AllSpace(lines[k]) && Contains(lines[k - 1], "詳細")
  }

  /** `findIndex` of an intro break, searching from `from`. */
  function IntroEnd(lines: seq<string>, from: nat): (r: Option<nat>)
    requires from >= 1
    ensures r.Some? ==> from <= r.value < |lines| && IntroBreak(lines, r.value)
    ensures r.Some? ==> forall k :: from <= k < r.value ==> !IntroBreak(lines, k)
    ensures r.None? ==> forall k :: from <= k < |lines| ==> !IntroBreak(lines, k)
    decreases |lines| - from
  {
    if from >= |lines| then None
    else if IntroBreak(lines, from) then Some(from)
    else IntroEnd(lines, from + 1)
  }

  /** `removeBiographicalIntro`. */
  function RemoveBiographicalIntro(content: string): string
  {
    var lines := Split(content, '\n');
    var end := IntroEnd(lines, 1);
    if end.Some? then Trim(Join(lines[end.value + 1..], "\n")) else content
  }

  /** Without an intro break the content is kept whole; with one, everything up to and
   *  including the first break is dropped and the rest rejoined and trimmed. */
  lemma RemoveIntroRule(content: string)
    ensures (forall k :: 1 <= k < |Split(content, '\n')| ==> !IntroBreak(Split(content, '\n'), k))
      ==> RemoveBiographicalIntro(content) == content
    ensures forall k :: (1 <= k < |Split(content, '\n')| && IntroBreak(Split(content, '\n'), k)
        && (forall j :: 1 <= j < k ==> !IntroBreak(Split(content, '\n'), j))) ==>
        RemoveBiographicalIntro(content) == Trim(Join(Split(content, '\n')[k + 1..], "\n"))
  {
    var lines := Split(content, '\n');
    var end := IntroEnd(lines, 1);
    assert RemoveBiographicalIntro(content) ==
      if end.Some? then Trim(Join(lines[end.value + 1..], "\n")) else content;
    forall k | 1 <= k < |lines| && IntroBreak(lines, k) && (forall j :: 1 <= j < k ==> !IntroBreak(lines, j))
      ensures RemoveBiographicalIntro(content) == Trim(Join(lines[k + 1..], "\n"))
    {
      FirstBreak(lines, 1, k);
      assert end == Some(k);
    }
  }

  /** The search from `from` stops at the first intro break after it. */
  lemma {:induction false} FirstBreak(lines: seq<string>, from: nat, k: nat)
    requires 1 <= from <= k < |lines| && IntroBreak(lines, k)
    requires forall j :: from <= j < k ==> !IntroBreak(lines, j)
    ensures IntroEnd(lines, from) == Some(k)
    decreases k - from
  {
    if from < k {
      FirstBreak(lines, from + 1, k);
    }
  }

  /** A character is in a text exactly when the text contains it as a one-letter pattern. */
  lemma CharContains(s: string, c: char)
    ensures c in s <==> Contains(s, [c])
  {
    if c in s {
      var i :| 0 <= i < |s| && s[i] == c;
      assert s[i..i + 1] == [c];
      ContainsAt(s, [c], i);
    }
    if Contains(s, [c]) {
      var i := ContainsWitness(s, [c]);
      assert s[i] == s[i..i + 1][0];
    }
  }

  /** A fitting match at `i` neither writes `c` nor leaves it in the rest of the text. */
  lemma FitsKeepsOut(r: Option<(nat, string)>, s: string, i: nat, c: char)
    requires i <= |s| && r.Some? && Fits(r, s[i..]) && c !in s[i..]
    ensures i + r.value.0 <= |s| && c !in r.value.1 && c !in s[i + r.value.0..]
  {
    assert s[i + r.value.0..] == s[i..][r.value.0..];
  }

  lemma OutOfBoth(a: string, b: string, c: char)
    requires c !in a && c !in b
    ensures c !in a + b
  {
  }

  /** A replacement only moves characters of the text, so it brings in none it lacked. */
  lemma {:induction false} ScanKeepsOut(s: string, i: nat, m: Matcher, anchored: bool, c: char)
    requires i <= |s| && Sound(m) && c !in s[i..]
    ensures c !in Scan(s, i, m, anchored)
    decreases |s| - i
  {
    if i < |s| {
      var r := if !anchored || LineStart(s, i) then m(s[i..]) else None;
      if r.Some? {
        assert Fits(m(s[i..]), s[i..]);
        FitsKeepsOut(r, s, i, c);
        ScanKeepsOut(s, i + r.value.0, m, anchored, c);
        ScanUnfold(s, i, m, anchored);
        OutOfBoth(r.value.1, Scan(s, i + r.value.0, m, anchored), c);
      } else {
        assert s[i + 1..] == s[i..][1..];
        ScanKeepsOut(s, i + 1, m, anchored, c);
        ScanUnfold(s, i, m, anchored);
        OutOfBoth([s[i]], Scan(s, i + 1, m, anchored), c);
      }
    }
  }

  lemma {:induction false} CollapseKeepsOut(s: string, c: char)
    requires c != '\n' && c !in s
    ensures c !in CollapseBlankRuns(s)
    decreases |s|
  {
    if |s| > 0 {
      if Lead(s) >= 3 {
        CollapseKeepsOut(s[Lead(s)..], c);
      } else {
        CollapseKeepsOut(s[1..], c);
      }
    }
  }

  lemma TrimKeepsOut(s: string, c: char)
    requires c !in s
    ensures c !in Trim(s)
  {
    var t := TrimStart(s);
    assert t == s[|s| - |t|..];
    assert TrimEnd(t) == t[..|TrimEnd(t)|];
  }

  /** The plain-text answer of a 日主特性 request keeps no `#`: the header replacement
   *  removes them all and no later step brings one back. */
  lemma RiZhuTextHasNoHash(content: string)
    ensures '#' !in CleanMarkdown(content)
    ensures '#' !in RemoveBiographicalIntro(CleanMarkdown(content))
  {
    var h := Replace(content, Headers);
    HeadersLeaveNoHash(content, 0);
    var b := Replace(h, Bold);
    ScanKeepsOut(h, 0, MatcherOf(Bold), Anchored(Bold), '#');
    var it := Replace(b, Italic);
    ScanKeepsOut(b, 0, MatcherOf(Italic), Anchored(Italic), '#');
    var bu := Replace(it, Bullet);
    ScanKeepsOut(it, 0, MatcherOf(Bullet), Anchored(Bullet), '#');
    var nu := Replace(bu, Numbered);
    ScanKeepsOut(bu, 0, MatcherOf(Numbered), Anchored(Numbered), '#');
    CollapseKeepsOut(nu, '#');
    var l := Replace(CollapseBlankRuns(nu), Link);
    ScanKeepsOut(CollapseBlankRuns(nu), 0, MatcherOf(Link), false, '#');
    TrimKeepsOut(l, '#');
    IntroRemovalKeepsOut(CleanMarkdown(content), '#');
  }

  /** Removing the introduction keeps only lines of the text, so it brings in no character
   *  other than the line feeds it joins with. */
  lemma IntroRemovalKeepsOut(cleaned: string, c: char)
    requires c != '\n' && c !in cleaned
    ensures c !in RemoveBiographicalIntro(cleaned)
  {
    var lines := Split(cleaned, '\n');
    var end := IntroEnd(lines, 1);
    if end.Some? {
      var rest := lines[end.value + 1..];
      forall k | 0 <= k < |rest|
        ensures !Contains(rest[k], [c])
      {
        if Contains(rest[k], [c]) {
          SplitPartInText(cleaned, '\n', k + end.value + 1, [c]);
          CharContains(cleaned, c);
          assert false;
        }
      }
      JoinLacks(rest, '\n', [c]);
      CharContains(Join(rest, "\n"), c);
      TrimKeepsOut(Join(rest, "\n"), c);
    }
  }

  // ---------------------------------------------------------------------------
  // JSON values

  /** A value `JSON.parse` gives; numbers are kept as integers, since only whether they are
   *  zero matters here. Objects list their keys once each, in order. */
  datatype Json =
    | JNull
    | JBool(b: bool)
    | JInt(i: int)
    | JStr(s: string)
    | JArr(items: seq<Json>)
    | JObj(fields: seq<(string, Json)>)

  /** `obj[key]`: undefined (None) when absent or when the value is not an object. */
  function Get(v: Json, key: string): (r: Option<Json>)
    ensures r.Some? ==> v.JObj? && (key, r.value) in v.fields
  {
    if v.JObj? then Lookup(v.fields, key) else None
  }

  function Lookup(fields: seq<(string, Json)>, key: string): (r: Option<Json>)
    ensures r.Some? ==> (key, r.value) in fields
    ensures r.None? ==> forall k :: 0 <= k < |fields| ==> fields[k].0 != key
  {
    if |fields| == 0 then None
    else if fields[0].0 == key then Some(fields[0].1)
    else Lookup(fields[1..], key)
  }

  /** JavaScript truthiness of a property value. */
  predicate Truthy(v: Option<Json>)
  {
    v.Some? && match v.value
      case JNull => false
      case JBool(b) => b
      case JInt(i) => i != 0
      case JStr(s) => s != ""
      case _ => true
  }

  predicate IsString(v: Option<Json>)
  {
    v.Some? && v.value.JStr?
  }

  predicate IsArray(v: Option<Json>)
  {
    v.Some? && v.value.JArr?
  }

  /** `JSON.stringify` of a string: quotes around it, with `"`, `\` and control characters
   *  escaped. */
  function Quote(s: string): (r: string)
    ensures |r| >= 2 && r[0] == '"' && r[|r| - 1] == '"'
  {
    "\"" + Escape(s) + "\""
  }

  function Escape(s: string): string
    decreases |s|
  {
    if |s| == 0 then "" else EscapeChar(s[0]) + Escape(s[1..])
  }

  function HexDigit(d: nat): char
    requires d < 16
  {
    if d < 10 then ('0' as int + d) as char else ('a' as int + d - 10) as char
  }

  function EscapeChar(c: char): string
  {
    if c == '"' then "\\\""
    else if c == '\\' then "\\\\"
    else if c == '\U{0008}' then "\\b"
    else if c == '\U{000C}' then "\\f"
    else if c == '\n' then "\\n"
    else if c == '\r' then "\\r"
    else if c == '\t' then "\\t"
    else if (c as int) < 0x20 then "\\u00" + [HexDigit((c as int) / 16), HexDigit((c as int) % 16)]
    else [c]
  }

  /** `JSON.stringify(v)`, without spacing. */
  function Stringify(v: Json): (r: string)
    ensures v.JObj? ==> |r| >= 2 && r[0] == '{' && r[|r| - 1] == '}'
    ensures v.JStr? ==> r == Quote(v.s)
    decreases v
  {
    match v
    case JNull => "null"
    case JBool(b) => if b then "true" else "false"
    case JInt(i) => IntString(i)
    case JStr(s) => Quote(s)
    case JArr(items) =>
      "[" + Join(seq(|items|, k requires 0 <= k < |items| => Stringify(items[k])), ",") + "]"
    case JObj(fields) =>
      "{" + Join(seq(|fields|, k requires 0 <= k < |fields| => Quote(fields[k].0) + ":" + Stringify(fields[k].1)), ",") + "}"
  }

  // ---------------------------------------------------------------------------
  // The two accepted shapes

  datatype Verdict = Valid | SingleSection | Invalid

  /** Every element is an object with truthy string values under both keys. */
  predicate AllHaveStrings(items: seq<Json>, a: string, b: string)
  {
    forall k :: 0 <= k < |items| ==>
      Truthy(Get(items[k], a)) && Truthy(Get(items[k], b)) && IsString(Get(items[k], a)) && IsString(Get(items[k], b))
  }

  /** The validation of a parsed answer: the old shape (keywords and analysis), the new one
   *  (sections), a lone section to be wrapped, or an error. */
  function Shape(v: Json): Verdict
  {
    var keywords, analysis, sections := Get(v, "keywords"), Get(v, "analysis"), Get(v, "sections");
    if Truthy(keywords) && IsArray(keywords) && Truthy(analysis) then
      if IsString(analysis) && |keywords.value.items| > 0 && AllHaveStrings(keywords.value.items, "text", "description")
      then Valid else Invalid
    else if Truthy(sections) && IsArray(sections) then
      if |sections.value.items| > 0 && AllHaveStrings(sections.value.items, "title", "content")
      then Valid else Invalid
    else if Truthy(Get(v, "title")) && Truthy(Get(v, "content")) then SingleSection
    else Invalid
  }

  /** `{ sections: [v] }`. */
  function Wrap(v: Json): Json
  {
    JObj([("sections", JArr([v]))])
  }

  /** A lone section wrapped into a sections array passes validation exactly when its title
   *  and content are strings. */
  lemma WrapRule(v: Json)
    requires Shape(v) == SingleSection
    ensures Shape(Wrap(v)) == Valid <==> IsString(Get(v, "title")) && IsString(Get(v, "content"))
  {
    var w := Wrap(v);
    assert Get(w, "keywords").None? && Get(w, "title").None?;
    assert Get(w, "sections") == Some(JArr([v]));
    if IsString(Get(v, "title")) && IsString(Get(v, "content")) {
      assert AllHaveStrings([v], "title", "content");
    }
    if Shape(w) == Valid {
      assert AllHaveStrings([v], "title", "content");
      assert [v][0] == v;
    }
  }

  // ---------------------------------------------------------------------------
  // Finding the JSON in the answer

  /** Text that opens with `{` and closes with `}`. */
  predicate Braced(t: string)
  {
    |t| >= 2 && t[0] == '{' && t[|t| - 1] == '}'
  }

  /** `/\{[\s\S]*\}/`: from the first `{` to the last `}` after it. */
  function Span(s: string): (r: Option<string>)
    ensures r.Some? ==> Braced(r.value)
    ensures r.None? <==> (IndexOfChar(s, '{') < 0 || LastIndexOfChar(s, '}') <= IndexOfChar(s, '{'))
  {
    var i, j := IndexOfChar(s, '{'), LastIndexOfChar(s, '}');
    if i >= 0 && j > i then Some(s[i..j + 1]) else None
  }

  function NonBraceRun(t: string): (n: nat)
    ensures n <= |t|
    decreases |t|
  {
    if |t| > 0 && t[0] != '{' && t[0] != '}' then 1 + NonBraceRun(t[1..]) else 0
  }

  /** The groups `(?:\{[^{}]*\}[^{}]*)*` taken from position `p`: where they stop. */
  function Groups(t: string, p: nat): (q: nat)
    requires p <= |t|
    ensures p <= q <= |t|
    decreases |t| - p
  {
    if p < |t| && t[p] == '{' then
      var inner := NonBraceRun(t[p + 1..]);
      if p + 1 + inner < |t| && t[p + 1 + inner] == '}' then
        Groups(t, p + 2 + inner + NonBraceRun(t[p + 2 + inner..]))
      else p
    else p
  }

  /** The length of a match of `/\{[^{}]*(?:\{[^{}]*\}[^{}]*)*\}/` at the start of `t`:
   *  an object nested at most two deep. */
  function Balanced(t: string): (r: Option<nat>)
    ensures r.Some? ==> r.value <= |t| && Braced(t[..r.value])
  {
    if |t| > 0 && t[0] == '{' then
      var q := Groups(t, 1 + NonBraceRun(t[1..]));
      if q < |t| && t[q] == '}' then Some(q + 1) else None
    else None
  }

  /** Every match of the balanced pattern from position `i`, left to right. */
  function BalancedMatches(s: string, i: nat): (r: seq<string>)
    requires i <= |s|
    ensures forall k :: 0 <= k < |r| ==> Braced(r[k])
    decreases |s| - i
  {
    if i == |s| then []
    else
      var m := Balanced(s[i..]);
      if m.Some? then [s[i..][..m.value]] + BalancedMatches(s, i + m.value)
      else BalancedMatches(s, i + 1)
  }

  /** The lines the route blanks before looking for JSON: quotations, whole bold lines,
   *  headers and rules, then the whole trimmed. */
  function StripDecorations(s: string): string
  {
    Trim(Replace(Replace(Replace(Replace(s, QuoteLine), BoldLine), HashLine), RuleLine))
  }

  /** The JSON text taken from the answer: the last balanced object of the stripped text
   *  when it has a `{…}` span (that span otherwise), else the span of the raw answer. */
  function JsonCandidate(content: string): (r: Option<string>)
    ensures r.Some? ==> Braced(r.value)
    ensures r.None? <==> Span(StripDecorations(content)).None? && Span(content).None?
  {
    var cleaned := StripDecorations(content);
    if Span(cleaned).Some? then
      var ms := BalancedMatches(cleaned, 0);
      Some(if |ms| > 0 then ms[|ms| - 1] else Span(cleaned).value)
    else Span(content)
  }

  // ---------------------------------------------------------------------------
  // The aggressive cleaning

  /** Curly double quotes become `"` and curly single quotes `'`. */
  function Straight(c: char): char
  {
    if c == '\U{201C}' || c == '\U{201D}' then '"'
    else if c == '\U{2018}' || c == '\U{2019}' then '\''
    else c
  }

  function StraightenQuotes(s: string): (r: string)
    ensures |r| == |s|
  {
    seq(|s|, k requires 0 <= k < |s| => Straight(s[k]))
  }

  /** The cut between a `{` at `i` and a `}` at `j`, quotes straightened and trimmed. */
  function CleanCut(s: string, i: int, j: int): string
  {
    Trim(StraightenQuotes(JsSubstring(s, i, j + 1)))
  }

  /** The same cut as written: the text is first cut at `i`, and then `j`, an index into the
   *  original text, is used as an index into the shortened one. */
  function CleanCutAsWritten(s: string, i: int, j: int): string
  {
    Trim(StraightenQuotes(JsSubstring(JsSubstring(s, i, |s|), 0, j + 1)))
  }

  /** The cleaning as written, at the first `{` and the last `}`. */
  function AggressiveCleanAsWritten(s: string): string
  {
    CleanCutAsWritten(s, IndexOfChar(s, '{'), LastIndexOfChar(s, '}'))
  }

  /** The cleaning as its comments describe it: from the first `{` to the last `}`. */
  function AggressiveClean(s: string): string
  {
    CleanCut(s, IndexOfChar(s, '{'), LastIndexOfChar(s, '}'))
  }

  /** Trimming keeps text that starts and ends with a visible character. */
  lemma TrimVisible(t: string)
    requires |t| > 0 && !IsJsSpace(t[0]) && !IsJsSpace(t[|t| - 1])
    ensures Trim(t) == t
  {
    TrimStartOfSpaceFree(t);
  }

  lemma JsSubstringSlice(s: string, a: nat, b: nat)
    requires a <= b <= |s|
    ensures JsSubstring(s, a, b) == s[a..b]
  {
  }

  lemma CleanCutSlice(s: string, i: nat, j: nat)
    requires i <= j < |s|
    ensures CleanCut(s, i, j) == Trim(StraightenQuotes(s[i..j + 1]))
  {
    JsSubstringSlice(s, i, j + 1);
  }

  /** Straightening quotes keeps the braces at both ends, so trimming changes nothing. */
  lemma StraightBraced(u: string)
    requires Braced(u)
    ensures Trim(StraightenQuotes(u)) == StraightenQuotes(u) && Braced(StraightenQuotes(u))
  {
    var t := StraightenQuotes(u);
    assert t[0] == '{';
    assert t[|t| - 1] == '}';
    TrimVisible(t);
  }

  /** With a `{` before the last `}`, the corrected cleaning keeps exactly the text from
   *  the first `{` to the last `}`, curly quotes straightened. */
  lemma AggressiveCleanSpan(s: string, i: int, j: int)
    requires i == IndexOfChar(s, '{') && j == LastIndexOfChar(s, '}') && 0 <= i < j
    ensures AggressiveClean(s) == StraightenQuotes(s[i..j + 1])
    ensures Braced(AggressiveClean(s))
  {
    CleanBetween(s, i, j);
  }

  lemma CleanBetween(s: string, i: nat, j: nat)
    requires i < j < |s| && s[i] == '{' && s[j] == '}'
    ensures CleanCut(s, i, j) == StraightenQuotes(s[i..j + 1])
    ensures Braced(StraightenQuotes(s[i..j + 1]))
  {
    var u := s[i..j + 1];
    assert u[0] == '{' && u[j - i] == '}';
    StraightBraced(u);
    CleanCutSlice(s, i, j);
  }

  /** The end of the as-written cut: the last `}` counted from the first `{`. */
  function TailEnd(n: nat, i: nat, j: nat): nat
  {
    if i + j + 1 < n then i + j + 1 else n
  }

  /** The cut as written ends at the last `}` counted from the first `{`. */
  lemma CutAsWritten(s: string, i: nat, j: nat)
    requires i < j < |s|
    ensures JsSubstring(JsSubstring(s, i, |s|), 0, j + 1) == s[i..TailEnd(|s|, i, j)]
  {
    var f := s[i..];
    JsSubstringSlice(s, i, |s|);
    var c := Clamp(j + 1, |f|);
    assert JsSubstring(f, 0, j + 1) == f[..c];
    assert f[..c] == s[i..TailEnd(|s|, i, j)];
  }

  /** Trimming text that opens with `{` keeps every character up to a visible one. */
  lemma TrimKeepsVisible(u: string, k: nat)
    requires k < |u| && u[0] == '{' && !IsJsSpace(u[k])
    ensures |Trim(u)| > k
  {
    TrimStartOfSpaceFree(u);
    VisibleBefore(u, |TrimEnd(u)|, k);
  }

  /** A visible character stands before a tail of white space. */
  lemma VisibleBefore(u: string, n: nat, k: nat)
    requires n <= |u| && k < |u| && AllSpace(u[n..]) && !IsJsSpace(u[k])
    ensures k < n
  {
    forall m | n <= m < |u|
      ensures IsJsSpace(u[m])
    {
      assert u[n..][m - n] == u[m];
    }
  }

  /** When text stands before the `{` at `i` and a visible character follows the `}` at
   *  `j`, the cut as written keeps that character. */
  lemma CutKeepsTail(s: string, i: nat, j: nat)
    requires 0 < i < j < |s| - 1 && s[i] == '{' && !IsJsSpace(s[j + 1])
    ensures |CleanCutAsWritten(s, i, j)| > j + 1 - i
  {
    CutAsWritten(s, i, j);
    var u := StraightenQuotes(s[i..TailEnd(|s|, i, j)]);
    assert u[0] == Straight(s[i]);
    assert u[j + 1 - i] == Straight(s[j + 1]);
    TrimKeepsVisible(u, j + 1 - i);
  }

  /** Once text stands before the first `{` and a visible character follows the last `}`,
   *  the cleaning as written keeps that character and so gives more than the corrected
   *  one (for instance `{}y` for `x{}y` instead of `{}`). */
  lemma AggressiveCleanKeepsTail(s: string)
    requires 0 < IndexOfChar(s, '{') < LastIndexOfChar(s, '}') < |s| - 1
    requires !IsJsSpace(s[LastIndexOfChar(s, '}') + 1])
    ensures |AggressiveCleanAsWritten(s)| > |AggressiveClean(s)|
  {
    AggressiveCleanSpan(s, IndexOfChar(s, '{'), LastIndexOfChar(s, '}'));
    CutKeepsTail(s, IndexOfChar(s, '{'), LastIndexOfChar(s, '}'));
  }

  // ---------------------------------------------------------------------------
  // generatePersonalizedFallback

  /** `userInfo.birthDateTime`: absent or empty, or a date whose year may be NaN. */
  datatype BirthDate = NoDate | Dated(year: Option<int>)

  datatype UserInfo = UserInfo(birth: BirthDate, gender: Option<string>, concern: Option<string>)

  /** The birth year: 2000 without a date; None stands for NaN from an invalid date. */
  function BirthYear(user: Option<UserInfo>): Option<int>
  {
    if user.None? || user.value.birth.NoDate? then Some(2000) else user.value.birth.year
  }

  /** `${birthYear}`. */
  function YearText(year: Option<int>): string
  {
    if year.Some? then IntString(year.value) else "NaN"
  }

  /** 青年 under 35, 中年 under 55, 長者 otherwise; NaN compares false and gives 長者. */
  function LifeStage(year: Option<int>): (r: string)
    ensures year.Some? && 2025 - year.value < 35 ==> r == "青年"
    ensures year.Some? && 35 <= 2025 - year.value < 55 ==> r == "中年"
    ensures year.None? || 2025 - year.value >= 55 ==> r == "長者"
  {
    if year.Some? && 2025 - year.value < 35 then "青年"
    else if year.Some? && 2025 - year.value < 55 then "中年"
    else "長者"
  }

  /** 女性 for "female" or 女, 男性 for anything else, "male" when the gender is missing. */
  function GenderRef(user: Option<UserInfo>): (r: string)
    ensures r == "女性" <==> user.Some? && user.value.gender in {Some("female"), Some("女")}
    ensures r != "女性" ==> r == "男性"
  {
    var gender := if user.Some? && user.value.gender.Some? && user.value.gender.value != "" then user.value.gender.value else "male";
    if gender == "female" || gender == "女" then "女性" else "男性"
  }

  datatype YearBazi = YearBazi(year: string, element: string, dayMaster: string)

  /** The five listed birth years, and 庚子 壁上土 庚金 for every other year. */
  function YearElements(year: Option<int>): YearBazi
  {
    if year == Some(1984) then YearBazi("甲子", "海中金", "甲木")
    else if year == Some(1990) then YearBazi("庚午", "路旁土", "庚金")
    else if year == Some(1996) then YearBazi("丙子", "澗下水", "丙火")
    else if year == Some(2000) then YearBazi("庚辰", "白臘金", "庚金")
    else if year == Some(1995) then YearBazi("乙亥", "山頭火", "乙木")
    else YearBazi("庚子", "壁上土", "庚金")
  }

  /** The three keyword texts, their descriptions and the analysis of one answer. */
  datatype Template = Template(texts: seq<string>, descriptions: seq<string>, analysis: string)

  /** Three keywords, every text and description and the analysis non-empty. */
  predicate Filled(t: Template)
  {
    |t.texts| == 3 && |t.descriptions| == 3 && t.analysis != ""
    && forall k :: 0 <= k < 3 ==> t.texts[k] != "" && t.descriptions[k] != ""
  }

  /** The fallback texts for a concern (None when the request had none, printed
   *  `undefined`). */
  function FallbackTemplate(concern: Option<string>, user: Option<UserInfo>): (t: Template)
    ensures Filled(t)
  {
    var year := BirthYear(user);
    var yr, ls, g, b := YearText(year), LifeStage(year), GenderRef(user), YearElements(year);
    var head := "2025年流年疊加大運，" + g;
    if concern == Some("健康") then
      Template(["滋陰降火", "養心安神", "潤肺護膚"],
               [b.dayMaster + "日主遇2025乙巳年，火旺易耗陰液，" + g + ls + "需重點滋陰降火調理",
                b.element + "命格配流年，心火偏旺，" + g + "宜早睡養陰血，保持心情平和",
                yr + "年生人逢流年克金，易致肺燥，" + ls + "需多親近水木環境養護"],
               head + "健康呈現「" + b.dayMaster + "火旺傷陰，調候養生」之象。")
    else if concern == Some("財運") then
      Template([ls + "進財", "理財考驗", "秋冬轉機"],
               [b.dayMaster + "日主配2025年流年，" + g + ls + "階段財運逐步上升，投資理財需謹慎",
                b.element + "命格遇流年，需防範投資風險，" + ls + "宜保守理財為上策",
                "根據" + yr + "年" + b.year + "特質，下半年財運轉佳，適合" + g + "積極把握機會"],
               head + "財運呈現「" + b.dayMaster + "生財有道，謹慎經營」之象。")
    else if concern == Some("事業") then
      Template([ls + "發展", "職場挑戰", "貴人相助"],
               [b.dayMaster + "日主在2025年，" + g + "事業運勢穩中有升，適合專業深耕",
                b.element + "命格特質，" + ls + "階段面臨同業競爭，需要提升個人競爭力",
                yr + "年生人在2025年，適合透過人脈網絡拓展事業版圖"],
               head + "事業呈現「" + b.dayMaster + "穩中求進，順勢而為」之象。")
    else
      var c := if concern.Some? then concern.value else "undefined";
      Template([ls + "運勢", "流年考驗", "調候平衡"],
               [b.dayMaster + "日主配2025年流年，" + g + c + "方面呈現穩定發展趨勢",
                b.element + "命格特質，" + ls + "需要謹慎應對各種挑戰",
                "根據" + yr + "年出生特質，宜保持身心平衡，順應自然"],
               head + c + "呈現「" + b.dayMaster + "調候有序，漸入佳境」之象。")
  }

  function Keyword(id: int, text: string, description: string): Json
  {
    JObj([("id", JInt(id)), ("text", JStr(text)), ("description", JStr(description))])
  }

  /** The answer object: three keywords numbered 1 to 3 and the analysis. */
  function Answer(t: Template): Json
    requires |t.texts| == 3 && |t.descriptions| == 3
  {
    JObj([("keywords", JArr(KeywordList(t))), ("analysis", JStr(t.analysis))])
  }

  function KeywordList(t: Template): seq<Json>
    requires |t.texts| == 3 && |t.descriptions| == 3
  {
    [Keyword(1, t.texts[0], t.descriptions[0]), Keyword(2, t.texts[1], t.descriptions[1]),
     Keyword(3, t.texts[2], t.descriptions[2])]
  }

  function FallbackJson(concern: Option<string>, user: Option<UserInfo>): Json
  {
    Answer(FallbackTemplate(concern, user))
  }

  /** `generatePersonalizedFallback`: the fallback object as JSON text. */
  function PersonalizedFallback(concern: Option<string>, user: Option<UserInfo>): (r: string)
    ensures Braced(r)
  {
    Stringify(FallbackJson(concern, user))
  }

  lemma KeywordFields(id: int, text: string, description: string)
    ensures Get(Keyword(id, text, description), "id") == Some(JInt(id))
    ensures Get(Keyword(id, text, description), "text") == Some(JStr(text))
    ensures Get(Keyword(id, text, description), "description") == Some(JStr(description))
  {
    var fields := Keyword(id, text, description).fields;
    assert fields[1..] == [("text", JStr(text)), ("description", JStr(description))];
    assert fields[1..][1..] == [("description", JStr(description))];
    assert Lookup(fields[1..][1..], "description") == Some(JStr(description));
    assert Lookup(fields[1..], "description") == Some(JStr(description));
    assert Lookup(fields[1..], "text") == Some(JStr(text));
  }

  /** The elements of the `keywords` array, none when there is no such array. */
  function Keywords(v: Json): seq<Json>
  {
    if Get(v, "keywords").Some? && Get(v, "keywords").value.JArr? then Get(v, "keywords").value.items else []
  }

  lemma AnswerLookups(t: Template)
    requires |t.texts| == 3 && |t.descriptions| == 3
    ensures Get(Answer(t), "keywords") == Some(JArr(KeywordList(t)))
    ensures Get(Answer(t), "analysis") == Some(JStr(t.analysis))
  {
    var f := Answer(t).fields;
    assert f[1..] == [("analysis", JStr(t.analysis))];
    assert "keywords"[0] != "analysis"[0];
    assert Lookup(f[1..], "analysis") == Some(JStr(t.analysis));
  }

  /** Every keyword of a filled template has its text and description, numbered 1 to 3. */
  lemma KeywordListValid(t: Template)
    requires Filled(t)
    ensures AllHaveStrings(KeywordList(t), "text", "description")
    ensures forall k :: 0 <= k < 3 ==> Get(KeywordList(t)[k], "id") == Some(JInt(k + 1))
  {
    var items := KeywordList(t);
    forall k | 0 <= k < 3
      ensures Get(items[k], "id") == Some(JInt(k + 1))
      ensures Truthy(Get(items[k], "text")) && IsString(Get(items[k], "text"))
      ensures Truthy(Get(items[k], "description")) && IsString(Get(items[k], "description"))
    {
      KeywordFields(k + 1, t.texts[k], t.descriptions[k]);
      if k == 0 {
        assert items[k] == Keyword(1, t.texts[0], t.descriptions[0]);
      } else if k == 1 {
        assert items[k] == Keyword(2, t.texts[1], t.descriptions[1]);
      } else {
        assert items[k] == Keyword(3, t.texts[2], t.descriptions[2]);
      }
      assert t.texts[k] != "" && t.descriptions[k] != "";
    }
  }

  /** Any filled template passes the old-shape validation, with keywords numbered 1 to 3. */
  lemma AnswerValid(t: Template)
    requires Filled(t)
    ensures Shape(Answer(t)) == Valid
    ensures |Keywords(Answer(t))| == 3
    ensures forall k :: 0 <= k < 3 ==> Get(Keywords(Answer(t))[k], "id") == Some(JInt(k + 1))
  {
    AnswerLookups(t);
    KeywordListValid(t);
  }

  /** The fallback always passes the route's own validation of the old shape, with three
   *  keywords numbered 1 to 3. */
  lemma FallbackValid(concern: Option<string>, user: Option<UserInfo>)
    ensures Shape(FallbackJson(concern, user)) == Valid
    ensures |Keywords(FallbackJson(concern, user))| == 3
    ensures forall k :: 0 <= k < 3 ==> Get(Keywords(FallbackJson(concern, user))[k], "id") == Some(JInt(k + 1))
  {
    AnswerValid(FallbackTemplate(concern, user));
  }

  // ---------------------------------------------------------------------------
  // The handler

  datatype Request = Request(concern: Option<string>, userInfo: Option<UserInfo>, analysisType: Option<string>)

  /** What the AI call gave: a failure anywhere before the content (status, network, a
   *  missing or non-string content), or the content. */
  datatype AiReply = Failed | Reply(content: string)

  datatype Response = BadRequest | Success(content: string, fallback: bool)

  /** `concern || userInfo?.concern`. */
  function FinalConcern(req: Request): Option<string>
  {
    if req.concern.Some? && req.concern.value != "" then req.concern
    else if req.userInfo.Some? then req.userInfo.value.concern
    else None
  }

  predicate IsRiZhuTeXing(req: Request)
  {
    req.analysisType.Some? && Contains(req.analysisType.value, "日主特性")
  }

  /** The inner `catch`: the aggressive cleaning when it parses, else the fallback; as
   *  written the fallback text is stringified once more. */
  function Recover(content: string, decode: string -> Option<Json>, fallback: string, asWritten: bool): string
  {
    var cleaned := if asWritten then AggressiveCleanAsWritten(content) else AggressiveClean(content);
    if decode(cleaned).Some? then cleaned
    else if asWritten then Stringify(JStr(fallback))
    else fallback
  }

  /** The validation step on a received answer. */
  function Validated(content: string, riZhu: bool, decode: string -> Option<Json>, fallback: string, asWritten: bool): string
  {
    if riZhu then
      if |content| > 200 then RemoveBiographicalIntro(CleanMarkdown(content))
      else Recover(content, decode, fallback, asWritten)
    else
      var candidate := JsonCandidate(content);
      if candidate.None? then Recover(content, decode, fallback, asWritten)
      else
        var parsed := decode(candidate.value);
        if parsed.None? then Recover(candidate.value, decode, fallback, asWritten)
        else match Shape(parsed.value)
          case Valid => candidate.value
          case SingleSection => Stringify(Wrap(parsed.value))
          case Invalid => Recover(candidate.value, decode, fallback, asWritten)
  }

  /** `POST`, given the parsed body (None when it is not JSON), the AI reply and
   *  `JSON.parse`. */
  function Handle(body: Option<Request>, ai: AiReply, decode: string -> Option<Json>, asWritten: bool): Response
  {
    if body.None? then BadRequest
    else
      var fallback := PersonalizedFallback(FinalConcern(body.value), body.value.userInfo);
      if ai.Failed? then Success(fallback, true)
      else Success(Validated(ai.content, IsRiZhuTeXing(body.value), decode, fallback, asWritten), false)
  }

  function PostAsWritten(body: Option<Request>, ai: AiReply, decode: string -> Option<Json>): Response
  {
    Handle(body, ai, decode, true)
  }

  function Post(body: Option<Request>, ai: AiReply, decode: string -> Option<Json>): Response
  {
    Handle(body, ai, decode, false)
  }

  /** A body that is not JSON is refused; a failed AI call sends the fallback JSON text
   *  marked as fallback; otherwise the answer is sent, not marked. */
  lemma PostOutcome(body: Option<Request>, ai: AiReply, decode: string -> Option<Json>)
    ensures Post(body, ai, decode).BadRequest? <==> body.None?
    ensures body.Some? && ai.Failed? ==>
      Post(body, ai, decode) == Success(PersonalizedFallback(FinalConcern(body.value), body.value.userInfo), true)
    ensures body.Some? && ai.Reply? ==> Post(body, ai, decode).Success? && !Post(body, ai, decode).fallback
  {
  }

  /** The wrapping of some lone section. */
  ghost predicate WrappedSection(r: string)
  {
    exists v :: Shape(v) == SingleSection && r == Stringify(Wrap(v))
  }

  /** The corrected recovery sends JSON text that parses, or the fallback. */
  lemma RecoverRule(content: string, decode: string -> Option<Json>, fallback: string)
    ensures var r := Recover(content, decode, fallback, false);
      decode(r).Some? || r == fallback
  {
  }

  /** On the JSON path the validated content parses, is a wrapped lone section, or is the
   *  fallback; it is the answer's own candidate exactly when that passes validation. */
  lemma ValidatedJsonRule(content: string, decode: string -> Option<Json>, fallback: string)
    ensures var r := Validated(content, false, decode, fallback, false);
      decode(r).Some? || r == fallback || WrappedSection(r)
    ensures var c := JsonCandidate(content);
      c.Some? && decode(c.value).Some? && Shape(decode(c.value).value) == Valid ==>
        Validated(content, false, decode, fallback, false) == c.value
  {
    var c := JsonCandidate(content);
    if c.None? {
      RecoverRule(content, decode, fallback);
    } else if decode(c.value).None? || Shape(decode(c.value).value) == Invalid {
      RecoverRule(c.value, decode, fallback);
    } else if Shape(decode(c.value).value) == SingleSection {
      assert WrappedSection(Validated(content, false, decode, fallback, false));
    }
  }

  /** For a JSON request the content sent is JSON text that parses, a wrapped lone section,
   *  or the fallback object's JSON text, and the fallback passes the route's validation. */
  lemma PostContent(req: Request, content: string, decode: string -> Option<Json>)
    requires !IsRiZhuTeXing(req)
    ensures var r := Post(Some(req), Reply(content), decode).content;
      decode(r).Some? || r == PersonalizedFallback(FinalConcern(req), req.userInfo) || WrappedSection(r)
    ensures Shape(FallbackJson(FinalConcern(req), req.userInfo)) == Valid
  {
    FallbackValid(FinalConcern(req), req.userInfo);
    ValidatedJsonRule(content, decode, PersonalizedFallback(FinalConcern(req), req.userInfo));
    HandleReply(req, content, decode, false);
    assert Post(Some(req), Reply(content), decode).content
      == Validated(content, false, decode, PersonalizedFallback(FinalConcern(req), req.userInfo), false);
  }

  /** When neither the text nor its aggressive cleaning parses, the recovery as written
   *  quotes the fallback text; the corrected one sends it as it is. */
  lemma RecoverFallsBack(content: string, decode: string -> Option<Json>, fallback: string)
    requires decode(AggressiveCleanAsWritten(content)).None? && decode(AggressiveClean(content)).None?
    ensures Recover(content, decode, fallback, true) == Quote(fallback)
    ensures Recover(content, decode, fallback, false) == fallback
  {
  }

  lemma HandleReply(req: Request, content: string, decode: string -> Option<Json>, asWritten: bool)
    ensures Handle(Some(req), Reply(content), decode, asWritten)
      == Success(Validated(content, IsRiZhuTeXing(req), decode, PersonalizedFallback(FinalConcern(req), req.userInfo), asWritten), false)
  {
  }

  /** As written, when neither the answer nor its aggressive cleaning parses, the content
   *  sent is a quoted JSON string holding the fallback text (it starts with `"`), not the
   *  fallback object's text (which starts with `{`) that the corrected handler sends. */
  lemma DoubleEncodedFallback(req: Request, content: string, decode: string -> Option<Json>, fallback: string)
    requires !IsRiZhuTeXing(req) && JsonCandidate(content).None?
    requires decode(AggressiveCleanAsWritten(content)).None? && decode(AggressiveClean(content)).None?
    requires fallback == PersonalizedFallback(FinalConcern(req), req.userInfo)
    ensures PostAsWritten(Some(req), Reply(content), decode) == Success(Quote(fallback), false)
    ensures Post(Some(req), Reply(content), decode) == Success(fallback, false)
    ensures Braced(fallback)
  {
    RecoverFallsBack(content, decode, fallback);
    HandleReply(req, content, decode, true);
    HandleReply(req, content, decode, false);
  }
}
