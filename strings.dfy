/** The JavaScript and Python string operations the scripts and parsers rely on,
 *  over `seq<char>`: substring tests, trimming, splitting on a separator,
 *  global literal replacement with its match count, and index search. */
module Strings {
  import opened Wrappers

  predicate StartsWith(s: string, p: string)
  {
    |p| <= |s| && s[..|p|] == p
  }

  predicate EndsWith(s: string, p: string)
  {
    |p| <= |s| && s[|s| - |p|..] == p
  }

  /** A concatenation starts with its first part and ends with its second. */
  lemma ConcatEnds(a: string, b: string)
    ensures StartsWith(a + b, a) && EndsWith(a + b, b)
  {
    assert (a + b)[..|a|] == a;
    assert (a + b)[|a + b| - |b|..] == b;
  }

  /** `s.includes(p)` in JavaScript, `p in s` in Python. */
  predicate Contains(s: string, p: string)
    decreases |s|
  {
    StartsWith(s, p) || (|s| > 0 && Contains(s[1..], p))
  }

  /** `Contains` is the existence of an occurrence at some position. */
  lemma {:induction false} ContainsAt(s: string, p: string, i: nat)
    requires i + |p| <= |s| && s[i..i + |p|] == p
    ensures Contains(s, p)
    decreases i
  {
    if i > 0 {
      assert s[1..][i - 1..i - 1 + |p|] == s[i..i + |p|];
      ContainsAt(s[1..], p, i - 1);
    } else {
      assert s[..|p|] == s[i..i + |p|];
    }
  }

  lemma {:induction false} ContainsWitness(s: string, p: string) returns (i: nat)
    requires Contains(s, p)
    ensures i + |p| <= |s| && s[i..i + |p|] == p
    decreases |s|
  {
    if StartsWith(s, p) {
      i := 0;
    } else {
      var j := ContainsWitness(s[1..], p);
      i := j + 1;
      assert s[1..][j..j + |p|] == s[i..i + |p|];
    }
  }

  lemma ContainsInfix(a: string, b: string, c: string, p: string)
    requires Contains(b, p)
    ensures Contains(a + b + c, p)
  {
    var j := ContainsWitness(b, p);
    assert (a + b + c)[|a| + j..|a| + j + |p|] == b[j..j + |p|];
    ContainsAt(a + b + c, p, |a| + j);
  }

  /** An occurrence inside a stretch of the text is an occurrence in the text. */
  lemma ContainsSlice(s: string, a: nat, b: nat, q: string, p: string)
    requires a <= b <= |s| && s[a..b] == q && Contains(q, p)
    ensures Contains(s, p)
  {
    var w := ContainsWitness(q, p);
    forall k | 0 <= k < |p|
      ensures s[a + w + k] == p[k]
    {
      assert p[k] == q[w..w + |p|][k] == q[w + k] == s[a..b][w + k];
    }
    assert s[a + w..a + w + |p|] == p;
    ContainsAt(s, p, a + w);
  }

  lemma ContainsSuffix(s: string, k: nat, p: string)
    requires k <= |s| && Contains(s[k..], p)
    ensures Contains(s, p)
  {
    assert s == s[..k] + s[k..] + [];
    ContainsInfix(s[..k], s[k..], [], p);
  }

  /** `s` has no character `c`. */
  predicate Lacks(s: string, c: char)
  {
    forall i :: 0 <= i < |s| ==> s[i] != c
  }

  /** A text that lacks one of the characters of `p` does not contain `p`. */
  lemma LacksCharNoMatch(s: string, p: string, k: nat)
    requires k < |p| && Lacks(s, p[k])
    ensures !Contains(s, p)
  {
    if Contains(s, p) {
      var i := ContainsWitness(s, p);
      assert false;
    }
  }

  /** An occurrence in `a + [d] + b` of a pattern without `d` lies in `a` or in `b`. */
  lemma ContainsAroundSeparator(a: string, d: char, b: string, p: string)
    requires Contains(a + [d] + b, p) && Lacks(p, d)
    ensures Contains(a, p) || Contains(b, p)
  {
    var s := a + [d] + b;
    var i := ContainsWitness(s, p);
    if i + |p| <= |a| {
      assert a[i..i + |p|] == s[i..i + |p|];
      ContainsAt(a, p, i);
    } else if i > |a| {
      assert b[i - |a| - 1..i - |a| - 1 + |p|] == s[i..i + |p|];
      ContainsAt(b, p, i - |a| - 1);
    } else {
      StraddleSeparator(a, d, b, p, i);
      assert false;
    }
  }

  /** An occurrence of `p` across the separator of `a + [d] + b` holds `d`. */
  lemma StraddleSeparator(a: string, d: char, b: string, p: string, i: nat)
    requires i <= |a| < i + |p| <= |a + [d] + b|
    requires (a + [d] + b)[i..i + |p|] == p
    ensures p[|a| - i] == d
  {
    assert (a + [d] + b)[|a|] == d;
  }

  /** Every piece of a split is a part of the text. */
  lemma SplitPartInText(s: string, d: char, k: nat, p: string)
    requires k < |Split(s, d)| && Contains(Split(s, d)[k], p)
    ensures Contains(s, p)
  {
    JoinSplit(s, d);
    JoinContains(Split(s, d), [d], k, p);
  }

  /** Joining pieces none of which contains a pattern without the separator gives a text
   *  without the pattern. */
  lemma {:induction false} JoinLacks(parts: seq<string>, d: char, p: string)
    requires |p| > 0 && Lacks(p, d)
    requires forall i :: 0 <= i < |parts| ==> !Contains(parts[i], p)
    ensures !Contains(Join(parts, [d]), p)
    decreases |parts|
  {
    if |parts| > 1 {
      JoinLacks(parts[1..], d, p);
      if Contains(Join(parts, [d]), p) {
        ContainsAroundSeparator(parts[0], d, Join(parts[1..], [d]), p);
        assert false;
      }
    }
  }

  /** `s.indexOf(p)`: a position of `p` in `s`, or -1 when there is none. */
  function IndexOf(s: string, p: string): (r: int)
    ensures -1 <= r <= |s|
    ensures r >= 0 ==> r + |p| <= |s| && s[r..r + |p|] == p
    ensures r == -1 <==> !Contains(s, p)
    ensures r >= 0 ==> forall k :: 0 <= k < r ==> !StartsWith(s[k..], p)
    decreases |s|
  {
    if StartsWith(s, p) then 0
    else if |s| == 0 then -1
    else
      var k := IndexOf(s[1..], p);
      if k == -1 then -1
      else
        assert s[k + 1..k + 1 + |p|] == s[1..][k..k + |p|];
        assert forall j :: 1 <= j <= k ==> s[j..] == s[1..][j - 1..];
        k + 1
  }

  /** `s.indexOf(c)` for one character: the first position of `c`, or -1. */
  function IndexOfChar(s: string, c: char): (r: int)
    ensures -1 <= r < |s|
    ensures r >= 0 ==> s[r] == c && forall k :: 0 <= k < r ==> s[k] != c
    ensures r == -1 <==> c !in s
    decreases |s|
  {
    if |s| == 0 then -1
    else if s[0] == c then 0
    else
      var k := IndexOfChar(s[1..], c);
      if k == -1 then -1 else k + 1
  }

  // ---------------------------------------------------------------------------
  // Whitespace and trimming

  /** The characters JavaScript's `trim` and `\s` treat as white space. */
  predicate IsJsSpace(c: char)
  {
    c in {' ', '\t', '\n', '\r', '\U{000B}', '\U{000C}', '\U{00A0}', '\U{1680}',
          '\U{2028}', '\U{2029}', '\U{202F}', '\U{205F}', '\U{3000}', '\U{FEFF}'}
    || ('\U{2000}' <= c <= '\U{200A}')
  }

  /** The characters Python's `str.strip` removes by default. */
  predicate IsPySpace(c: char)
  {
    c in {' ', '\t', '\n', '\r', '\U{000B}', '\U{000C}', '\U{001C}', '\U{001D}',
          '\U{001E}', '\U{001F}', '\U{0085}', '\U{00A0}', '\U{1680}', '\U{2028}',
          '\U{2029}', '\U{202F}', '\U{205F}', '\U{3000}'}
    || ('\U{2000}' <= c <= '\U{200A}')
  }

  predicate AllSpace(s: string)
  {
    forall i :: 0 <= i < |s| ==> IsJsSpace(s[i])
  }

  function TrimStart(s: string): (r: string)
    ensures |r| <= |s| && r == s[|s| - |r|..]
    ensures |r| > 0 ==> !IsJsSpace(r[0])
    ensures AllSpace(s[..|s| - |r|])
    decreases |s|
  {
    if |s| > 0 && IsJsSpace(s[0]) then TrimStart(s[1..]) else s
  }

  function TrimEnd(s: string): (r: string)
    ensures |r| <= |s| && r == s[..|r|]
    ensures |r| > 0 ==> !IsJsSpace(r[|r| - 1])
    ensures AllSpace(s[|r|..])
    decreases |s|
  {
    if |s| > 0 && IsJsSpace(s[|s| - 1]) then TrimEnd(s[..|s| - 1]) else s
  }

  /** JavaScript's `s.trim()`. */
  function Trim(s: string): (r: string)
  {
    TrimEnd(TrimStart(s))
  }

  /** A string is blank when trimming leaves nothing (`!s.trim()`). */
  predicate IsBlank(s: string)
  {
    Trim(s) == ""
  }

  lemma {:induction false} TrimStartOfSpaceFree(s: string)
    requires |s| == 0 || !IsJsSpace(s[0])
    ensures TrimStart(s) == s
  {
  }

  /** What trimming keeps starts and ends with a visible character. */
  lemma TrimEdges(s: string)
    ensures |Trim(s)| > 0 ==> !IsJsSpace(Trim(s)[0]) && !IsJsSpace(Trim(s)[|Trim(s)| - 1])
  {
    var t := TrimStart(s);
    if |TrimEnd(t)| > 0 {
      assert TrimEnd(t)[0] == t[0];
    }
  }

  /** Trimming is idempotent, and what it keeps starts and ends with a visible character. */
  lemma TrimShape(s: string)
    ensures Trim(Trim(s)) == Trim(s)
    ensures |Trim(s)| > 0 ==> !IsJsSpace(Trim(s)[0]) && !IsJsSpace(Trim(s)[|Trim(s)| - 1])
  {
    var t := TrimStart(s);
    var r := TrimEnd(t);
    if |r| > 0 {
      assert r[0] == t[0];
    }
    TrimStartOfSpaceFree(r);
    assert TrimEnd(r) == r;
  }

  lemma {:induction false} AllSpaceTrimsToEmpty(s: string)
    requires AllSpace(s)
    ensures TrimStart(s) == ""
    decreases |s|
  {
    if |s| > 0 {
      AllSpaceTrimsToEmpty(s[1..]);
    }
  }

  /** Blank strings are exactly the all-space ones. */
  lemma BlankIffAllSpace(s: string)
    ensures IsBlank(s) <==> AllSpace(s)
  {
    if AllSpace(s) {
      AllSpaceTrimsToEmpty(s);
    }
    if IsBlank(s) {
      var t := TrimStart(s);
      assert AllSpace(t[..|t| - |TrimEnd(t)|]);
      assert forall i :: 0 <= i < |s| ==> s[i] == (s[..|s| - |t|] + t)[i];
    }
  }

  function PyLStrip(s: string): (r: string)
    ensures |r| <= |s| && r == s[|s| - |r|..]
    ensures |r| > 0 ==> !IsPySpace(r[0])
    decreases |s|
  {
    if |s| > 0 && IsPySpace(s[0]) then PyLStrip(s[1..]) else s
  }

  /** Python's `s.rstrip()`. */
  function PyRStrip(s: string): (r: string)
    ensures |r| <= |s| && r == s[..|r|]
    ensures |r| > 0 ==> !IsPySpace(r[|r| - 1])
    ensures forall i :: |r| <= i < |s| ==> IsPySpace(s[i])
    decreases |s|
  {
    if |s| > 0 && IsPySpace(s[|s| - 1]) then PyRStrip(s[..|s| - 1]) else s
  }

  /** Python's `s.strip()`. */
  function PyStrip(s: string): string
  {
    PyRStrip(PyLStrip(s))
  }

  // ---------------------------------------------------------------------------
  // Splitting and joining on a one-character separator

  /** `s.split(d)` for a one-character separator: never empty, and `"".split(d) == [""]`. */
  function Split(s: string, d: char): (r: seq<string>)
    ensures |r| >= 1
    ensures forall i :: 0 <= i < |r| ==> d !in r[i]
    decreases |s|
  {
    if |s| == 0 then [""]
    else if s[0] == d then [""] + Split(s[1..], d)
    else
      var rest := Split(s[1..], d);
      [[s[0]] + rest[0]] + rest[1..]
  }

  /** `parts.join(d)`. */
  function Join(parts: seq<string>, d: string): string
    decreases |parts|
  {
    if |parts| == 0 then ""
    else if |parts| == 1 then parts[0]
    else parts[0] + d + Join(parts[1..], d)
  }

  /** Splitting and joining again gives back the text. */
  lemma {:induction false} JoinSplit(s: string, d: char)
    ensures Join(Split(s, d), [d]) == s
    decreases |s|
  {
    if |s| > 0 {
      JoinSplit(s[1..], d);
      var rest := Split(s[1..], d);
      if s[0] == d {
        assert Split(s, d)[1..] == rest;
      } else {
        if |rest| > 1 {
          assert Split(s, d)[1..] == rest[1..];
          assert Join(rest, [d]) == rest[0] + [d] + Join(rest[1..], [d]);
        }
      }
    }
  }

  lemma {:induction false} SplitSingle(a: string, d: char)
    requires d !in a
    ensures Split(a, d) == [a]
    decreases |a|
  {
    if |a| > 0 {
      SplitSingle(a[1..], d);
      assert [a[0]] + a[1..] == a;
    }
  }

  lemma {:induction false} SplitCons(a: string, d: char, b: string)
    requires d !in a
    ensures Split(a + [d] + b, d) == [a] + Split(b, d)
    decreases |a|
  {
    if |a| == 0 {
      assert a + [d] + b == [d] + b;
      assert ([d] + b)[1..] == b;
    } else {
      assert (a + [d] + b)[1..] == a[1..] + [d] + b;
      SplitCons(a[1..], d, b);
      assert [a[0]] + a[1..] == a;
    }
  }

  /** Joining lines that hold no separator and splitting again gives back the lines. */
  lemma {:induction false} SplitJoin(parts: seq<string>, d: char)
    requires |parts| >= 1
    requires forall i :: 0 <= i < |parts| ==> d !in parts[i]
    ensures Split(Join(parts, [d]), d) == parts
    decreases |parts|
  {
    if |parts| == 1 {
      SplitSingle(parts[0], d);
    } else {
      SplitJoin(parts[1..], d);
      SplitCons(parts[0], d, Join(parts[1..], [d]));
      assert [parts[0]] + parts[1..] == parts;
    }
  }

  /** A part's occurrence survives joining. */
  lemma {:induction false} JoinContains(parts: seq<string>, d: string, k: nat, p: string)
    requires k < |parts| && Contains(parts[k], p)
    ensures Contains(Join(parts, d), p)
    decreases |parts|
  {
    if |parts| == 1 {
    } else if k == 0 {
      ContainsInfix([], parts[0], d + Join(parts[1..], d), p);
      assert [] + parts[0] + (d + Join(parts[1..], d)) == Join(parts, d);
    } else {
      JoinContains(parts[1..], d, k - 1, p);
      ContainsInfix(parts[0] + d, Join(parts[1..], d), [], p);
      assert parts[0] + d + Join(parts[1..], d) + [] == Join(parts, d);
    }
  }

  /** `keywords.some((k) => s.includes(k))`. */
  predicate ContainsAny(s: string, ps: seq<string>)
  {
    exists i :: 0 <= i < |ps| && Contains(s, ps[i])
  }

  /** `keywords.filter((k) => s.includes(k)).length`. */
  function CountContained(s: string, ps: seq<string>): (n: nat)
    ensures n <= |ps|
  {
    if |ps| == 0 then 0
    else CountContained(s, ps[..|ps| - 1]) + (if Contains(s, ps[|ps| - 1]) then 1 else 0)
  }

  /** Some keyword is found exactly when the count of found keywords is positive. */
  lemma {:induction false} CountContainedPositive(s: string, ps: seq<string>)
    ensures CountContained(s, ps) > 0 <==> ContainsAny(s, ps)
  {
    if |ps| > 0 {
      var init := ps[..|ps| - 1];
      CountContainedPositive(s, init);
      assert forall i :: 0 <= i < |init| ==> init[i] == ps[i];
      if ContainsAny(s, ps) && !Contains(s, ps[|ps| - 1]) {
        var i :| 0 <= i < |ps| && Contains(s, ps[i]);
        assert i < |init| && Contains(s, init[i]);
      }
    }
  }

  /** Text that contains a pattern still contains it once more text surrounds it. */
  lemma ContainsExtend(pre: string, s: string, post: string, p: string)
    requires Contains(s, p)
    ensures Contains(pre + s + post, p)
  {
    ContainsInfix(pre, s, post, p);
  }

  /** More text finds at least the keywords the shorter text found. */
  lemma {:induction false} CountContainedExtend(pre: string, s: string, post: string, ps: seq<string>)
    ensures CountContained(s, ps) <= CountContained(pre + s + post, ps)
    ensures ContainsAny(s, ps) ==> ContainsAny(pre + s + post, ps)
  {
    if |ps| > 0 {
      CountContainedExtend(pre, s, post, ps[..|ps| - 1]);
      if Contains(s, ps[|ps| - 1]) {
        ContainsInfix(pre, s, post, ps[|ps| - 1]);
      }
    }
    if ContainsAny(s, ps) {
      var i :| 0 <= i < |ps| && Contains(s, ps[i]);
      ContainsInfix(pre, s, post, ps[i]);
    }
  }

  /** The concatenation of a list of strings, as a loop of `+=` builds it. */
  function Concat(ss: seq<string>): string
  {
    if |ss| == 0 then "" else ss[0] + Concat(ss[1..])
  }

  lemma {:induction false} ConcatAppend(a: seq<string>, b: seq<string>)
    ensures Concat(a + b) == Concat(a) + Concat(b)
    decreases |a|
  {
    if |a| == 0 {
      assert a + b == b;
    } else {
      assert (a + b)[1..] == a[1..] + b;
      ConcatAppend(a[1..], b);
    }
  }

  // ---------------------------------------------------------------------------
  // Global literal replacement: a JavaScript `replace` with a `/g` pattern made of
  // literal alternatives, scanning left to right without overlap.

  predicate NonEmptyPatterns(pats: seq<string>)
  {
    forall i :: 0 <= i < |pats| ==> |pats[i]| > 0
  }

  /** The first alternative that matches at the start of `s`, in the order the regex tries them. */
  function FirstPrefix(s: string, pats: seq<string>): (r: Option<string>)
    ensures r.Some? ==> r.value in pats && StartsWith(s, r.value)
    ensures r.None? ==> forall i :: 0 <= i < |pats| ==> !StartsWith(s, pats[i])
    decreases |pats|
  {
    if |pats| == 0 then None
    else if StartsWith(s, pats[0]) then Some(pats[0])
    else FirstPrefix(s, pats[1..])
  }

  /** `s.replace(/p1|p2|…/g, r)` for literal alternatives. */
  function ReplaceAny(s: string, pats: seq<string>, r: string): string
    requires NonEmptyPatterns(pats)
    decreases |s|
  {
    if |s| == 0 then s
    else match FirstPrefix(s, pats)
      case Some(p) => r + ReplaceAny(s[|p|..], pats, r)
      case None => [s[0]] + ReplaceAny(s[1..], pats, r)
  }

  /** `(s.match(/p1|p2|…/g) || []).length`: the matches that replacement rewrites. */
  function CountAny(s: string, pats: seq<string>): nat
    requires NonEmptyPatterns(pats)
    decreases |s|
  {
    if |s| == 0 then 0
    else match FirstPrefix(s, pats)
      case Some(p) => 1 + CountAny(s[|p|..], pats)
      case None => CountAny(s[1..], pats)
  }

  /** No match is found exactly when no alternative occurs anywhere, and then replacement is the identity. */
  lemma {:induction false} CountZeroIffAbsent(s: string, pats: seq<string>)
    requires NonEmptyPatterns(pats)
    ensures CountAny(s, pats) == 0 <==> forall i :: 0 <= i < |pats| ==> !Contains(s, pats[i])
    ensures CountAny(s, pats) == 0 ==> ReplaceAny(s, pats, []) == s
    ensures forall r :: CountAny(s, pats) == 0 ==> ReplaceAny(s, pats, r) == s
    decreases |s|
  {
    if |s| > 0 {
      match FirstPrefix(s, pats)
      case Some(p) =>
        var i :| 0 <= i < |pats| && pats[i] == p;
        assert Contains(s, pats[i]);
      case None =>
        CountZeroIffAbsent(s[1..], pats);
        forall i | 0 <= i < |pats|
          ensures Contains(s, pats[i]) <==> Contains(s[1..], pats[i])
        {
        }
        assert [s[0]] + s[1..] == s;
    } else {
      forall i | 0 <= i < |pats| ensures !Contains(s, pats[i]) {
        assert !StartsWith(s, pats[i]);
      }
    }
  }

  /** A prefix of the replaced text that avoids the replacement's first character was already a prefix of the input. */
  lemma {:induction false} ReplacePrefix(s: string, pats: seq<string>, r: string, u: string)
    requires NonEmptyPatterns(pats) && |r| > 0
    requires forall i :: 0 <= i < |u| ==> u[i] != r[0]
    requires StartsWith(ReplaceAny(s, pats, r), u)
    ensures StartsWith(s, u)
    decreases |s|
  {
    if |s| > 0 && |u| > 0 {
      match FirstPrefix(s, pats)
      case Some(p) =>
        assert ReplaceAny(s, pats, r)[0] == r[0];
        assert false;
      case None =>
        var t := ReplaceAny(s[1..], pats, r);
        assert ReplaceAny(s, pats, r) == [s[0]] + t;
        assert StartsWith(t, u[1..]);
        ReplacePrefix(s[1..], pats, r, u[1..]);
    }
  }

  /** A text none of whose characters can start `q` adds no occurrence of `q` in front of a text without one. */
  lemma {:induction false} NoOccurrenceFront(a: string, b: string, q: string)
    requires |q| > 0 && !Contains(b, q)
    requires forall i :: 0 <= i < |a| ==> a[i] != q[0]
    ensures !Contains(a + b, q)
    decreases |a|
  {
    if |a| > 0 {
      assert (a + b)[1..] == a[1..] + b;
      NoOccurrenceFront(a[1..], b, q);
      assert (a + b)[0] == a[0] != q[0];
      assert !StartsWith(a + b, q);
    } else {
      assert a + b == b;
    }
  }

  /** Replacing every match of `pats` by `r` leaves no occurrence of `q`, when `q` is one of the
   *  alternatives or absent to begin with, and `r` cannot start or complete an occurrence of `q`. */
  lemma {:induction false} ReplaceLeavesNoMatch(s: string, pats: seq<string>, r: string, q: string)
    requires NonEmptyPatterns(pats)
    requires |q| > 0 && |r| >= |q| && r[..|q|] != q
    requires forall i :: 1 <= i < |r| ==> r[i] != q[0]
    requires forall i :: 1 <= i < |q| ==> q[i] != r[0]
    requires q in pats || !Contains(s, q)
    ensures !Contains(ReplaceAny(s, pats, r), q)
    decreases |s|
  {
    if |s| == 0 {
      assert !StartsWith(s, q);
    } else {
      match FirstPrefix(s, pats)
      case Some(p) =>
        if q !in pats && Contains(s[|p|..], q) {
          ContainsSuffix(s, |p|, q);
        }
        ReplaceLeavesNoMatch(s[|p|..], pats, r, q);
        ReplacementFront(r, ReplaceAny(s[|p|..], pats, r), q);
      case None =>
        ReplaceLeavesNoMatch(s[1..], pats, r, q);
        var t := ReplaceAny(s[1..], pats, r);
        assert ReplaceAny(s, pats, r) == [s[0]] + t;
        if StartsWith([s[0]] + t, q) {
          assert StartsWith(t, q[1..]);
          ReplacePrefix(s[1..], pats, r, q[1..]);
          assert false;
        }
        assert ([s[0]] + t)[1..] == t;
    }
  }

  /** A replacement text that is not itself an occurrence and cannot start one later adds
   *  no occurrence in front of a text without one. */
  lemma ReplacementFront(r: string, t: string, q: string)
    requires |q| > 0 && |r| >= |q| && r[..|q|] != q
    requires forall i :: 1 <= i < |r| ==> r[i] != q[0]
    requires !Contains(t, q)
    ensures !Contains(r + t, q)
  {
    NoOccurrenceFront(r[1..], t, q);
    assert (r + t)[1..] == r[1..] + t;
    assert (r + t)[..|q|] == r[..|q|];
  }

  // ---------------------------------------------------------------------------
  // ASCII case folding, as `toLowerCase` acts on the keywords the source compares with

  function LowerChar(c: char): char
  {
    if 'A' <= c <= 'Z' then (c as int + 32) as char else c
  }

  function Lower(s: string): (r: string)
    ensures |r| == |s| && forall i :: 0 <= i < |s| ==> r[i] == LowerChar(s[i])
  {
    seq(|s|, i requires 0 <= i < |s| => LowerChar(s[i]))
  }

  /** Characters of `s` other than ASCII capitals are kept by lower-casing. */
  lemma LowerKeepsCaseless(s: string, p: string)
    requires forall i :: 0 <= i < |p| ==> !('A' <= p[i] <= 'Z')
    requires Contains(s, p)
    ensures Contains(Lower(s), p)
  {
    var i := ContainsWitness(s, p);
    assert Lower(s)[i..i + |p|] == p;
    ContainsAt(Lower(s), p, i);
  }

  // ---------------------------------------------------------------------------
  // Decimal numerals, as a template literal prints a non-negative integer

  predicate IsDigit(c: char)
  {
    '0' <= c <= '9'
  }

  /** The length of the run of digits at the front of `s` (`\d*`). */
  function DigitRun(s: string): (n: nat)
    ensures n <= |s|
    ensures forall k :: 0 <= k < n ==> IsDigit(s[k])
    ensures n < |s| ==> !IsDigit(s[n])
    decreases |s|
  {
    if |s| > 0 && IsDigit(s[0]) then 1 + DigitRun(s[1..]) else 0
  }

  /** The length of the run of white space at the front of `s` (`\s*`). */
  function SpaceRun(s: string): (n: nat)
    ensures n <= |s|
    ensures forall k :: 0 <= k < n ==> IsJsSpace(s[k])
    ensures n < |s| ==> !IsJsSpace(s[n])
    decreases |s|
  {
    if |s| > 0 && IsJsSpace(s[0]) then 1 + SpaceRun(s[1..]) else 0
  }

  /** The length of the run of `c` at the front of `s`. */
  function CharRun(s: string, c: char): (n: nat)
    ensures n <= |s|
    ensures forall k :: 0 <= k < n ==> s[k] == c
    ensures n < |s| ==> s[n] != c
    decreases |s|
  {
    if |s| > 0 && s[0] == c then 1 + CharRun(s[1..], c) else 0
  }

  function DigitChar(d: nat): (c: char)
    requires d < 10
    ensures '0' <= c <= '9'
  {
    (('0' as int) + d) as char
  }

  /** `${n}` for a non-negative integer: its decimal digits, without leading zeros. */
  function NatString(n: nat): (r: string)
    ensures |r| >= 1 && forall i :: 0 <= i < |r| ==> '0' <= r[i] <= '9'
    decreases n
  {
    if n < 10 then [DigitChar(n)] else NatString(n / 10) + [DigitChar(n % 10)]
  }

  /** `${n}` for any integer: a minus sign before the digits of a negative one. */
  function IntString(n: int): (r: string)
    ensures n >= 0 ==> r == NatString(n)
    ensures n < 0 ==> r == "-" + NatString(-n)
  {
    if n >= 0 then NatString(n) else "-" + NatString(-n)
  }

  /** The value of a string of decimal digits. */
  function DigitsValue(s: string): nat
    requires forall i :: 0 <= i < |s| ==> '0' <= s[i] <= '9'
  {
    if |s| == 0 then 0 else 10 * DigitsValue(s[..|s| - 1]) + ((s[|s| - 1] as int) - ('0' as int))
  }

  /** Reading the numeral back gives the number. */
  lemma {:induction false} NatStringValue(n: nat)
    ensures DigitsValue(NatString(n)) == n
    decreases n
  {
    if n >= 10 {
      NatStringValue(n / 10);
      var r := NatString(n);
      assert r[..|r| - 1] == NatString(n / 10);
    }
  }
}
