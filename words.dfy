/** `s.split(/\s+/)`: cutting a text at every run of white space. */
module Words {
  import opened Strings

  /** The index of the first white-space character, `|s|` when there is none. */
  function SpaceIndex(s: string): (i: nat)
    ensures i <= |s|
    ensures forall k :: 0 <= k < i ==> !IsJsSpace(s[k])
    ensures i < |s| ==> IsJsSpace(s[i])
    decreases |s|
  {
    if |s| == 0 || IsJsSpace(s[0]) then 0 else 1 + SpaceIndex(s[1..])
  }

  /** `s.split(/\s+/)`: the pieces between runs of white space; a text that starts or ends
   *  with white space gives an empty first or last piece, and `""` gives `[""]`. */
  function SplitWs(s: string): (r: seq<string>)
    ensures |r| >= 1
    decreases |s|
  {
    var i := SpaceIndex(s);
    if i == |s| then [s]
    else
      var rest := TrimStart(s[i..]);
      [s[..i]] + SplitWs(rest)
  }

  /** A visible piece followed by a white-space run is cut right there. */
  lemma SpaceIndexOfPiece(a: string, b: string)
    requires forall k :: 0 <= k < |a| ==> !IsJsSpace(a[k])
    requires |b| > 0 && IsJsSpace(b[0])
    ensures SpaceIndex(a + b) == |a|
    decreases |a|
  {
    if |a| > 0 {
      assert (a + b)[1..] == a[1..] + b;
      SpaceIndexOfPiece(a[1..], b);
    }
  }

  /** Visible text: non-empty, with no white space. */
  predicate Visible(p: string)
  {
    |p| > 0 && forall j :: 0 <= j < |p| ==> !IsJsSpace(p[j])
  }

  /** A visible piece, one space and a text starting with a visible character: the piece
   *  is cut off at the space. */
  lemma SplitWsCons(a: string, rest: string)
    requires Visible(a) && |rest| > 0 && !IsJsSpace(rest[0])
    ensures SplitWs(a + " " + rest) == [a] + SplitWs(rest)
  {
    var t := " " + rest;
    var s := a + " " + rest;
    assert s == a + t;
    SpaceIndexOfPiece(a, t);
    assert s[..|a|] == a && s[|a|..] == t;
    assert t[1..] == rest;
    TrimStartOfSpaceFree(rest);
  }

  /** Visible pieces joined by single spaces split back into the same pieces. */
  lemma {:induction false} SplitWsJoin(ps: seq<string>)
    requires |ps| >= 1
    requires forall k :: 0 <= k < |ps| ==> Visible(ps[k])
    ensures SplitWs(Join(ps, " ")) == ps
    decreases |ps|
  {
    var a := ps[0];
    assert Visible(a);
    if |ps| == 1 {
      assert SpaceIndex(a) == |a|;
    } else {
      var tail := ps[1..];
      VisibleTail(ps);
      JoinStartsWithFirst(tail);
      assert Join(ps, " ") == a + " " + Join(tail, " ");
      SplitWsCons(a, Join(tail, " "));
      SplitWsJoin(tail);
      assert [a] + tail == ps;
    }
  }

  /** Every piece after the first is still visible text. */
  lemma VisibleTail(ps: seq<string>)
    requires |ps| >= 2
    requires forall k :: 0 <= k < |ps| ==> Visible(ps[k])
    ensures forall k :: 0 <= k < |ps| - 1 ==> Visible(ps[1..][k])
    ensures |ps[1..][0]| > 0
  {
    forall k | 0 <= k < |ps| - 1 ensures Visible(ps[1..][k]) {
      assert ps[1..][k] == ps[k + 1];
    }
  }

  /** A join of visible pieces starts with the first piece's first character. */
  lemma {:induction false} JoinStartsWithFirst(ps: seq<string>)
    requires |ps| >= 1 && |ps[0]| > 0
    ensures |Join(ps, " ")| > 0
    ensures Join(ps, " ")[0] == ps[0][0]
    decreases |ps|
  {
    if |ps| > 1 {
      assert ps[0] + " " + Join(ps[1..], " ") == Join(ps, " ");
    }
  }

  /** In a text that neither starts nor ends with white space every piece is visible text. */
  lemma {:induction false} SplitWsPiecesNonEmpty(s: string)
    requires |s| > 0 && !IsJsSpace(s[0]) && !IsJsSpace(s[|s| - 1])
    ensures forall k :: 0 <= k < |SplitWs(s)| ==> |SplitWs(s)[k]| > 0
    decreases |s|
  {
    var i := SpaceIndex(s);
    if i < |s| {
      var rest := TrimStart(s[i..]);
      assert rest == s[|s| - |rest|..];
      assert rest[|rest| - 1] == s[|s| - 1];
      SplitWsPiecesNonEmpty(rest);
      assert SplitWs(s) == [s[..i]] + SplitWs(rest);
    }
  }

  /** `lines.map((l) => l.trim())`. */
  function TrimAll(ls: seq<string>): (r: seq<string>)
    ensures |r| == |ls|
    ensures forall k :: 0 <= k < |r| ==> r[k] == Trim(ls[k])
  {
    seq(|ls|, k requires 0 <= k < |ls| => Trim(ls[k]))
  }

  /** `lines.filter((l) => l.length > n)`, keeping the order. */
  function KeepLonger(ls: seq<string>, n: nat): (r: seq<string>)
    ensures |r| <= |ls|
    ensures forall k :: 0 <= k < |r| ==> |r[k]| > n && r[k] in ls
  {
    if |ls| == 0 then []
    else if |ls[0]| > n then [ls[0]] + KeepLonger(ls[1..], n)
    else KeepLonger(ls[1..], n)
  }

  /** The filter loses no line long enough. */
  lemma {:induction false} KeepLongerComplete(ls: seq<string>, n: nat)
    ensures forall x :: x in ls && |x| > n ==> x in KeepLonger(ls, n)
  {
    if |ls| > 0 {
      KeepLongerComplete(ls[1..], n);
      assert forall x :: x in ls ==> x == ls[0] || x in ls[1..];
    }
  }

  /** `s.split("\n").map((l) => l.trim()).filter((l) => l.length > n)`. */
  function TrimmedLines(s: string, n: nat): (r: seq<string>)
    ensures forall k :: 0 <= k < |r| ==> |r[k]| > n
  {
    KeepLonger(TrimAll(Split(s, '\n')), n)
  }

  /** Every kept line is already trimmed. */
  lemma TrimmedLinesAreTrimmed(s: string, n: nat)
    ensures var r := TrimmedLines(s, n);
      forall k :: 0 <= k < |r| ==> r[k] == Trim(r[k])
  {
    var r := TrimmedLines(s, n);
    forall k | 0 <= k < |r| ensures r[k] == Trim(r[k]) {
      var j :| 0 <= j < |Split(s, '\n')| && r[k] == Trim(Split(s, '\n')[j]);
      TrimShape(Split(s, '\n')[j]);
    }
  }

  /** Whatever the trimmed text contains, the text contains. */
  lemma TrimContains(s: string, p: string)
    requires Contains(Trim(s), p)
    ensures Contains(s, p)
  {
    var t := TrimStart(s);
    var r := TrimEnd(t);
    var a := |s| - |t|;
    assert r == s[a..a + |r|];
    ContainsSlice(s, a, a + |r|, r, p);
  }

  /** Whatever a kept line contains, the text contains. */
  lemma TrimmedLineInText(s: string, n: nat, k: nat, p: string)
    requires k < |TrimmedLines(s, n)| && Contains(TrimmedLines(s, n)[k], p)
    ensures Contains(s, p)
  {
    var ls := Split(s, '\n');
    var j :| 0 <= j < |ls| && TrimmedLines(s, n)[k] == Trim(ls[j]);
    TrimContains(ls[j], p);
    SplitPartInText(s, '\n', j, p);
  }

  // ---------------------------------------------------------------------------
  // Collapsing runs: `s.replace(/\n+/g, " ")` and `s.replace(/\s+/g, " ")`

  /** The characters one pass collapses: white space, or only line feeds. */
  predicate InRun(c: char, spaces: bool)
  {
    if spaces then IsJsSpace(c) else c == '\n'
  }

  /** What is left after the run of collapsible characters at the front. */
  function SkipRun(s: string, spaces: bool): (r: string)
    ensures |r| <= |s| && r == s[|s| - |r|..]
    ensures |r| > 0 ==> !InRun(r[0], spaces)
    ensures forall k :: 0 <= k < |s| - |r| ==> InRun(s[k], spaces)
    decreases |s|
  {
    if |s| > 0 && InRun(s[0], spaces) then
      var r := SkipRun(s[1..], spaces);
      assert s[1..][|s| - 1 - |r|..] == s[|s| - |r|..];
      assert forall k :: 1 <= k < |s| - |r| ==> s[k] == s[1..][k - 1];
      r
    else s
  }

  /** Every maximal run of collapsible characters replaced by one space. */
  function CollapseRuns(s: string, spaces: bool): (r: string)
    ensures |r| <= |s|
    ensures |s| > 0 && !InRun(s[0], spaces) ==> |r| > 0 && r[0] == s[0]
    ensures |s| > 0 && InRun(s[0], spaces) ==> |r| > 0 && r[0] == ' '
    decreases |s|
  {
    if |s| == 0 then ""
    else if InRun(s[0], spaces) then " " + CollapseRuns(SkipRun(s, spaces), spaces)
    else [s[0]] + CollapseRuns(s[1..], spaces)
  }

  /** No white space but plain spaces, and never two in a row. */
  predicate Collapsed(s: string)
  {
    (forall k :: 0 <= k < |s| && IsJsSpace(s[k]) ==> s[k] == ' ')
    && (forall k :: 0 < k < |s| && s[k] == ' ' ==> s[k - 1] != ' ')
  }

  /** The characters of `s` that are not white space, in order. */
  function VisibleChars(s: string): string
  {
    if |s| == 0 then "" else (if IsJsSpace(s[0]) then "" else [s[0]]) + VisibleChars(s[1..])
  }

  lemma {:induction false} VisibleOfSpaces(s: string, k: nat)
    requires k <= |s|
    requires forall j :: 0 <= j < k ==> IsJsSpace(s[j])
    ensures VisibleChars(s) == VisibleChars(s[k..])
    decreases k
  {
    if k > 0 {
      VisibleOfSpaces(s[1..], k - 1);
      assert s[1..][k - 1..] == s[k..];
    }
  }

  /** Collapsing every white-space run leaves no other white space and no double space,
   *  and keeps every visible character in order. */
  lemma CollapseSpaces(s: string)
    ensures Collapsed(CollapseRuns(s, true))
    ensures VisibleChars(CollapseRuns(s, true)) == VisibleChars(s)
  {
    CollapseRunsCollapsed(s);
    CollapseRunsVisible(s);
  }

  /** A character in front of a collapsed text keeps it collapsed when it is a visible
   *  character, or a space before a text that does not start with one. */
  lemma ConsCollapsed(c: char, t: string)
    requires Collapsed(t) && (!IsJsSpace(c) || (c == ' ' && (|t| == 0 || t[0] != ' ')))
    ensures Collapsed([c] + t)
  {
    var r := [c] + t;
    forall k | 0 < k < |r|
      ensures r[k] == t[k - 1]
    {
    }
  }

  lemma {:induction false} CollapseRunsCollapsed(s: string)
    ensures Collapsed(CollapseRuns(s, true))
    decreases |s|
  {
    if |s| > 0 {
      if IsJsSpace(s[0]) {
        var t := SkipRun(s, true);
        CollapseRunsCollapsed(t);
        ConsCollapsed(' ', CollapseRuns(t, true));
      } else {
        CollapseRunsCollapsed(s[1..]);
        ConsCollapsed(s[0], CollapseRuns(s[1..], true));
      }
    }
  }

  lemma {:induction false} CollapseRunsVisible(s: string)
    ensures VisibleChars(CollapseRuns(s, true)) == VisibleChars(s)
    decreases |s|
  {
    var r := CollapseRuns(s, true);
    if |s| > 0 {
      if IsJsSpace(s[0]) {
        var t := SkipRun(s, true);
        CollapseRunsVisible(t);
        VisibleOfSpaces(s, |s| - |t|);
        assert r[1..] == CollapseRuns(t, true);
      } else {
        CollapseRunsVisible(s[1..]);
        assert r[1..] == CollapseRuns(s[1..], true);
      }
    }
  }

  /** After the line-feed pass no line feed is left. */
  lemma {:induction false} CollapseNewlines(s: string)
    ensures '\n' !in CollapseRuns(s, false)
    decreases |s|
  {
    if |s| > 0 {
      if s[0] == '\n' {
        CollapseNewlines(SkipRun(s, false));
      } else {
        CollapseNewlines(s[1..]);
      }
    }
  }

  /** A prefix of a collapsed text, and one with "..." appended, stay collapsed. */
  lemma CollapsedPrefix(s: string, n: nat)
    requires Collapsed(s) && n <= |s|
    ensures Collapsed(s[..n])
    ensures Collapsed(s[..n] + "...")
  {
    var t := s[..n] + "...";
    assert forall k :: 0 <= k < n ==> t[k] == s[k];
    assert forall k :: n <= k < |t| ==> t[k] == '.';
  }
}
