/** The fixed texts the three source patchers look for and write: the `API_BASE`
 *  declaration line and the `fetch(` call prefixes. */
module PatchText {
  import opened Strings

  /** The declaration line the patchers insert: a tab, then the declaration. */
  const ApiBaseLine: string := ApiBaseHead + ApiBaseEnv + ApiBaseDefault
  const ApiBaseHead: string := "\tconst API_BASE"
  const ApiBaseEnv: string := " = process.env.NEXT_PUBLIC_API_BASE_URL"
  const ApiBaseDefault: string := " || 'https://www.harmoniqfengshui.com';"

  /** `fetch("/api/`, `fetch('/api/` and `` fetch(`/api/ ``. */
  const FetchDouble: string := "fetch(\"/api/"
  const FetchSingle: string := "fetch('/api/"
  const FetchBacktick: string := "fetch(`/api/"

  /** The same prefixes with a backslash before the quote, as in code held inside a string. */
  const FetchEscDouble: string := "fetch(\\\"/api/"
  const FetchEscSingle: string := "fetch(\\'/api/"
  const FetchEscBacktick: string := "fetch(\\`/api/"

  /** What every rewritten call starts with. */
  const FetchTemplate: string := "fetch(`${API_BASE}/api/"

  /** The part of a rewritten call after `fetch(` and the backtick. */
  const BaseApi: string := "${API_BASE}/api/"

  lemma ApiBaseLineStart()
    ensures |ApiBaseLine| >= 15 && ApiBaseLine[1..15] == "const API_BASE"
    ensures ApiBaseLine[7..15] == "API_BASE"
  {
    assert ApiBaseLine[1..15] == ApiBaseHead[1..];
  }

  lemma HeadLacks(c: char)
    requires c == '\n' || c == '('
    ensures Lacks(ApiBaseHead, c)
  {
  }

  lemma EnvLacks(c: char)
    requires c == '\n' || c == '('
    ensures Lacks(ApiBaseEnv, c)
  {
  }

  lemma DefaultLacks(c: char)
    requires c == '\n' || c == '('
    ensures Lacks(ApiBaseDefault, c)
  {
  }

  /** The declaration is one line and calls nothing. */
  lemma ApiBaseLineLacks(c: char)
    requires c == '\n' || c == '('
    ensures Lacks(ApiBaseLine, c)
  {
    HeadLacks(c);
    EnvLacks(c);
    DefaultLacks(c);
    assert ApiBaseLine == ApiBaseHead + ApiBaseEnv + ApiBaseDefault;
  }

  /** `c` occurs in `s` at its start and nowhere else. */
  predicate OnlyAtStart(s: string, c: char)
  {
    |s| > 0 && s[0] == c && forall i :: 1 <= i < |s| ==> s[i] != c
  }

  /** The shape the rewriting lemmas need of a call prefix: it opens with the only `f` and has
   *  `(` at index 5, and it holds no line break, comma or backtick after `fetch(`. */
  predicate PrefixShape(p: string)
  {
    |p| >= 12 && OnlyAtStart(p, 'f') && p[5] == '(' && Lacks(p, '\n') && Lacks(p, ',')
  }

  lemma DoubleShape()
    ensures PrefixShape(FetchDouble) && Lacks(FetchDouble, '`')
  {
  }

  lemma SingleShape()
    ensures PrefixShape(FetchSingle) && Lacks(FetchSingle, '`')
  {
  }

  lemma BacktickShape()
    ensures PrefixShape(FetchBacktick)
  {
  }

  lemma EscDoubleShape()
    ensures PrefixShape(FetchEscDouble) && Lacks(FetchEscDouble, '`')
  {
  }

  lemma EscSingleShape()
    ensures PrefixShape(FetchEscSingle) && Lacks(FetchEscSingle, '`')
  {
  }

  lemma EscBacktickShape()
    ensures PrefixShape(FetchEscBacktick)
  {
  }

  lemma PrefixShapes()
    ensures PrefixShape(FetchDouble) && PrefixShape(FetchSingle) && PrefixShape(FetchBacktick)
    ensures PrefixShape(FetchEscDouble) && PrefixShape(FetchEscSingle) && PrefixShape(FetchEscBacktick)
    ensures Lacks(FetchDouble, '`') && Lacks(FetchSingle, '`')
    ensures Lacks(FetchEscDouble, '`') && Lacks(FetchEscSingle, '`')
  {
    DoubleShape();
    SingleShape();
    BacktickShape();
    EscDoubleShape();
    EscSingleShape();
    EscBacktickShape();
  }

  lemma TemplateShape()
    ensures |FetchTemplate| == 23 && OnlyAtStart(FetchTemplate, 'f')
    ensures FetchTemplate[6] == '`' && FetchTemplate[7] == '$'
    ensures FetchTemplate[7..] == BaseApi && |BaseApi| == 16
  {
  }

  /** A rewritten call prefix is none of the prefixes the patchers look for. */
  lemma TemplateIsNoPrefix()
    ensures FetchTemplate[..12] != FetchDouble && FetchTemplate[..12] != FetchSingle
    ensures FetchTemplate[..12] != FetchBacktick
    ensures FetchTemplate[..13] != FetchEscDouble && FetchTemplate[..13] != FetchEscSingle
    ensures FetchTemplate[..13] != FetchEscBacktick
  {
    TemplateShape();
    assert FetchTemplate[..12][7] == '$' && FetchDouble[7] == '/';
    assert FetchSingle[7] == '/' && FetchBacktick[7] == '/';
    assert FetchTemplate[..13][6] == '`' && FetchEscDouble[6] == '\\';
    assert FetchEscSingle[6] == '\\' && FetchEscBacktick[6] == '\\';
  }

  /** `IsCallPrefix(q)`: `q` is one of the six call prefixes. */
  predicate IsCallPrefix(q: string)
  {
    q == FetchDouble || q == FetchSingle || q == FetchBacktick ||
    q == FetchEscDouble || q == FetchEscSingle || q == FetchEscBacktick
  }

  /** Rewriting into `FetchTemplate` can neither start nor complete a call prefix: the
   *  conditions under which `ReplaceLeavesNoMatch` applies. */
  lemma TemplateCannotForm(q: string)
    requires IsCallPrefix(q)
    ensures |q| > 0 && |FetchTemplate| >= |q| && FetchTemplate[..|q|] != q
    ensures forall i :: 1 <= i < |FetchTemplate| ==> FetchTemplate[i] != q[0]
    ensures forall i :: 1 <= i < |q| ==> q[i] != FetchTemplate[0]
    ensures PrefixShape(q)
  {
    PrefixShapes();
    TemplateShape();
    TemplateIsNoPrefix();
  }

  // ---------------------------------------------------------------------------
  // Splicing one line into a file

  /** `lines.splice(k, 0, line)` for an index within the list. */
  function InsertAt(lines: seq<string>, k: nat, line: string): seq<string>
    requires k <= |lines|
  {
    lines[..k] + [line] + lines[k..]
  }

  /** Splitting the spliced, re-joined file gives back the spliced lines. */
  lemma InsertedLinesSplit(lines: seq<string>, k: nat)
    requires k <= |lines|
    requires forall i :: 0 <= i < |lines| ==> '\n' !in lines[i]
    ensures Split(Join(InsertAt(lines, k, ApiBaseLine), "\n"), '\n') == InsertAt(lines, k, ApiBaseLine)
  {
    ApiBaseLineLacks('\n');
    var ls := InsertAt(lines, k, ApiBaseLine);
    forall i | 0 <= i < |ls| ensures '\n' !in ls[i] {
      if i < k {
        assert ls[i] == lines[i];
      } else if i > k {
        assert ls[i] == lines[i - 1];
      }
    }
    SplitJoin(ls, '\n');
  }

  /** Splicing the declaration into a file without a call prefix adds none. */
  lemma SpliceAddsNoCall(content: string, k: nat, q: string)
    requires IsCallPrefix(q) && !Contains(content, q)
    requires k <= |Split(content, '\n')|
    ensures !Contains(Join(InsertAt(Split(content, '\n'), k, ApiBaseLine), "\n"), q)
  {
    TemplateCannotForm(q);
    ApiBaseLineLacks('(');
    LacksCharNoMatch(ApiBaseLine, q, 5);
    var lines := Split(content, '\n');
    var ls := InsertAt(lines, k, ApiBaseLine);
    forall i | 0 <= i < |ls| ensures !Contains(ls[i], q) {
      if i < k {
        assert ls[i] == lines[i];
      } else if i > k {
        assert ls[i] == lines[i - 1];
      }
      if i != k && Contains(ls[i], q) {
        SplitPartInText(content, '\n', if i < k then i else i - 1, q);
      }
    }
    JoinLacks(ls, '\n', q);
  }
}
