/** The question-focus route: element counts read from the calendar library's five-element
 *  scale, the strongest and weakest elements, the correction of pillars the answer got
 *  wrong, and the stock guidance used when the answer cannot be had. The calendar
 *  library, the regex that finds the scale entries and the JSON in the answer, and the
 *  AI call are not modelled; their results are inputs. */
module QuestionFocusAnalysis {
  import opened Wrappers
  import opened Strings
  import opened Ganzhi
  import IndividualAnalysis

  // ---------------------------------------------------------------------------
  // Element counts

  /** The keys of the count object, in their insertion order. */
  const CountKeys: seq<char> := ['金', '木', '水', '火', '土']

  /** The position of an element among the keys, -1 for any other character. */
  function KeyIndex(c: char): (r: int)
    ensures -1 <= r < 5
    ensures r >= 0 ==> CountKeys[r] == c
    ensures r < 0 ==> c !in CountKeys
  {
    match c
    case '金' => 0 case '木' => 1 case '水' => 2 case '火' => 3 case '土' => 4
    case _ => -1
  }

  /** A percentage as `parseFloat` reads `\d+\.?\d*`: `digits / 10^scale`. */
  datatype Percent = Percent(digits: nat, scale: nat)

  function Pow10(k: nat): (r: nat)
    ensures r >= 1
  {
    if k == 0 then 1 else 10 * Pow10(k - 1)
  }

  /** `Math.round((percent / 100) * 8)`, in exact arithmetic. */
  function RoundedCount(p: Percent): int
  {
    (8 * p.digits + 50 * Pow10(p.scale)) / (100 * Pow10(p.scale))
  }

  /** The count is the integer nearest to `percent · 8 / 100`, halves rounded up:
   *  `x - 1/2 < r <= x + 1/2`, written over the common denominator `2 · 100 · 10^scale`. */
  lemma RoundedCountNearest(p: Percent)
    ensures var d, r := 100 * Pow10(p.scale), RoundedCount(p);
      16 * p.digits - d < 2 * r * d <= 16 * p.digits + d
  {
    var d := 100 * Pow10(p.scale);
    var n := 8 * p.digits + 50 * Pow10(p.scale);
    assert d * (n / d) <= n < d * (n / d) + d;
    assert 2 * n == 16 * p.digits + d;
  }

  /** A percentage between 0 and 100 gives a count between 0 and 8. */
  lemma RoundedCountRange(p: Percent)
    requires p.digits <= 100 * Pow10(p.scale)
    ensures 0 <= RoundedCount(p) <= 8
  {
    var u := Pow10(p.scale);
    QuotientBelow(8 * p.digits + 50 * u, 100 * u, 8);
  }

  /** A quotient of a non-negative number is non-negative, and below `c + 1` when the
   *  number is below `(c + 1)` times the divisor. */
  lemma QuotientBelow(n: int, d: int, c: nat)
    requires n >= 0 && d > 0 && n < (c + 1) * d
    ensures 0 <= n / d <= c
  {
    var q := n / d;
    assert d * q <= n < d * q + d;
  }

  lemma RoundedCountNonNegative(p: Percent)
    ensures RoundedCount(p) >= 0
  {
    var u := Pow10(p.scale);
    var n := 8 * p.digits + 50 * u;
    QuotientBelow(n, 100 * u, n);
  }

  /** One `元素:百分比%` entry of the scale. */
  datatype ScaleEntry = ScaleEntry(element: char, percent: Percent)

  /** The regex only matches the five element characters. */
  predicate ValidEntries(es: seq<ScaleEntry>)
  {
    forall i :: 0 <= i < |es| ==> KeyIndex(es[i].element) >= 0
  }

  /** The count of `e` after the entries are applied in order: the last entry for `e`
   *  decides, and an element without an entry keeps 0. */
  function CountOf(es: seq<ScaleEntry>, e: char): int
  {
    if |es| == 0 then 0
    else if es[|es| - 1].element == e then RoundedCount(es[|es| - 1].percent)
    else CountOf(es[..|es| - 1], e)
  }

  /** The `forEach` over the scale's matches, each setting its element's count. */
  method CountElements(es: seq<ScaleEntry>) returns (counts: seq<int>)
    requires ValidEntries(es)
    ensures |counts| == 5
    ensures forall k :: 0 <= k < 5 ==> counts[k] == CountOf(es, CountKeys[k])
  {
    counts := [0, 0, 0, 0, 0];
    var i := 0;
    while i < |es|
      invariant i <= |es| && |counts| == 5
      invariant forall k :: 0 <= k < 5 ==> counts[k] == CountOf(es[..i], CountKeys[k])
    {
      var k := KeyIndex(es[i].element);
      counts := counts[k := RoundedCount(es[i].percent)];
      assert es[..i + 1][..i] == es[..i];
      i := i + 1;
    }
    assert es[..|es|] == es;
  }

  /** An element with no entry counts 0. */
  lemma {:induction false} CountOfAbsent(es: seq<ScaleEntry>, e: char)
    requires forall i :: 0 <= i < |es| ==> es[i].element != e
    ensures CountOf(es, e) == 0
  {
    if |es| > 0 {
      CountOfAbsent(es[..|es| - 1], e);
    }
  }

  /** Entries whose percentages lie between 0 and 100 give counts between 0 and 8. */
  lemma {:induction false} CountOfRange(es: seq<ScaleEntry>, e: char)
    requires forall i :: 0 <= i < |es| ==> es[i].percent.digits <= 100 * Pow10(es[i].percent.scale)
    ensures 0 <= CountOf(es, e) <= 8
  {
    if |es| > 0 {
      if es[|es| - 1].element == e {
        RoundedCountRange(es[|es| - 1].percent);
      } else {
        CountOfRange(es[..|es| - 1], e);
      }
    }
  }

  /** Counts are never negative: the percentages have no sign. */
  lemma {:induction false} CountOfNonNegative(es: seq<ScaleEntry>, e: char)
    ensures CountOf(es, e) >= 0
  {
    if |es| > 0 {
      if es[|es| - 1].element == e {
        RoundedCountNonNegative(es[|es| - 1].percent);
      } else {
        CountOfNonNegative(es[..|es| - 1], e);
      }
    }
  }

  // ---------------------------------------------------------------------------
  // Strongest and weakest elements

  /** An `[element, count]` pair of `Object.entries`. */
  type Entry = (char, int)

  function Entries(counts: seq<int>): (r: seq<Entry>)
    requires |counts| == 5
    ensures |r| == 5 && forall k :: 0 <= k < 5 ==> r[k] == (CountKeys[k], counts[k])
  {
    [(CountKeys[0], counts[0]), (CountKeys[1], counts[1]), (CountKeys[2], counts[2]),
     (CountKeys[3], counts[3]), (CountKeys[4], counts[4])]
  }

  predicate Descending(s: seq<Entry>)
  {
    forall i, j :: 0 <= i < j < |s| ==> s[i].1 >= s[j].1
  }

  /** The position of the first largest count. */
  function FirstMax(s: seq<Entry>): (i: nat)
    requires |s| > 0
    ensures i < |s|
    ensures forall j :: 0 <= j < |s| ==> s[j].1 <= s[i].1
    ensures forall j :: 0 <= j < i ==> s[j].1 < s[i].1
  {
    if |s| == 1 then 0
    else
      var t := FirstMax(s[1..]);
      if s[0].1 >= s[1 + t].1 then 0 else 1 + t
  }

  /** `entries.sort(([, a], [, b]) => b - a)`: a stable sort, largest count first, so equal
   *  counts keep their key order. It is written as repeatedly taking the first largest. */
  function SortDescending(s: seq<Entry>): (r: seq<Entry>)
    ensures |r| == |s|
    decreases |s|
  {
    if |s| == 0 then []
    else
      var i := FirstMax(s);
      [s[i]] + SortDescending(s[..i] + s[i + 1..])
  }

  /** The sort keeps exactly the pairs it is given. */
  lemma {:induction false} SortDescendingMembers(s: seq<Entry>)
    ensures forall x :: x in SortDescending(s) <==> x in s
    decreases |s|
  {
    if |s| > 0 {
      var i := FirstMax(s);
      var rest := s[..i] + s[i + 1..];
      SortDescendingMembers(rest);
      assert SortDescending(s) == [s[i]] + SortDescending(rest);
      assert s == s[..i] + [s[i]] + s[i + 1..];
    }
  }

  /** The sort's result is in descending order of count. */
  lemma {:induction false} SortDescendingSorted(s: seq<Entry>)
    ensures Descending(SortDescending(s))
    decreases |s|
  {
    if |s| > 0 {
      var i := FirstMax(s);
      var rest := s[..i] + s[i + 1..];
      SortDescendingSorted(rest);
      SortDescendingMembers(rest);
      var tail := SortDescending(rest);
      assert SortDescending(s) == [s[i]] + tail;
      forall j | 0 <= j < |tail| ensures s[i].1 >= tail[j].1 {
        assert tail[j] in rest;
        var m :| 0 <= m < |rest| && rest[m] == tail[j];
        if m < i { assert rest[m] == s[m]; } else { assert rest[m] == s[m + 1]; }
      }
    }
  }

  /** The keys of a list of pairs. */
  function Names(s: seq<Entry>): (r: seq<char>)
    ensures |r| == |s| && forall i :: 0 <= i < |s| ==> r[i] == s[i].0
  {
    if |s| == 0 then [] else [s[0].0] + Names(s[1..])
  }

  function Positive(s: seq<Entry>): seq<Entry>
  {
    if |s| == 0 then [] else if s[0].1 > 0 then [s[0]] + Positive(s[1..]) else Positive(s[1..])
  }

  function Zero(s: seq<Entry>): seq<Entry>
  {
    if |s| == 0 then [] else if s[0].1 == 0 then [s[0]] + Zero(s[1..]) else Zero(s[1..])
  }

  /** In a descending list without negative counts the positive entries form a prefix and
   *  the zero entries the rest. */
  lemma {:induction false} PositivePrefix(s: seq<Entry>)
    requires Descending(s) && forall i :: 0 <= i < |s| ==> s[i].1 >= 0
    ensures var n := |Positive(s)|; n <= |s| && Positive(s) == s[..n] && Zero(s) == s[n..]
  {
    if |s| > 0 {
      PositivePrefix(s[1..]);
      if s[0].1 == 0 {
        AllZero(s);
      } else {
        assert [s[0]] + s[1..][..|Positive(s[1..])|] == s[..|Positive(s)|];
        assert s[1..][|Positive(s[1..])|..] == s[|Positive(s)|..];
      }
    }
  }

  /** A descending list without negative counts that starts at 0 is all zeros. */
  lemma {:induction false} AllZero(s: seq<Entry>)
    requires Descending(s) && forall i :: 0 <= i < |s| ==> s[i].1 >= 0
    requires |s| > 0 && s[0].1 == 0
    ensures Positive(s) == [] && Zero(s) == s
  {
    if |s| > 1 {
      AllZero(s[1..]);
    }
  }

  /** `strongestElements`: the keys of the first two positive counts. */
  function Strongest(sorted: seq<Entry>): (r: seq<char>)
    ensures |r| <= 2
  {
    var p := Names(Positive(sorted));
    if |p| <= 2 then p else p[..2]
  }

  /** `weakestElements`: the keys with count 0, or when there are none the last two keys. */
  function Weakest(sorted: seq<Entry>): seq<char>
  {
    var z := Names(Zero(sorted));
    if |z| > 0 then z else if |sorted| <= 2 then Names(sorted) else Names(sorted[|sorted| - 2..])
  }

  /** What the source calls `elementCount`, `strongestElements` and `weakestElements`. */
  datatype Balance = Balance(counts: seq<int>, strongest: seq<char>, weakest: seq<char>)

  /** The count pairs in sorted order. */
  function Sorted(counts: seq<int>): seq<Entry>
    requires |counts| == 5
  {
    SortDescending(Entries(counts))
  }

  function BalanceOf(counts: seq<int>): Balance
    requires |counts| == 5
  {
    var sorted := Sorted(counts);
    Balance(counts, Strongest(sorted), Weakest(sorted))
  }

  /** The keys are five different characters. */
  lemma KeysDistinct(k: nat, j: nat)
    requires k < 5 && j < 5 && CountKeys[k] == CountKeys[j]
    ensures k == j
  {
    assert KeyIndex(CountKeys[k]) == k && KeyIndex(CountKeys[j]) == j;
  }

  /** A pair of the sorted list is the pair of some key. */
  lemma SortedEntry(counts: seq<int>, i: nat) returns (k: nat)
    requires |counts| == 5 && i < 5
    ensures k < 5 && Sorted(counts)[i] == (CountKeys[k], counts[k])
  {
    var s := Sorted(counts);
    SortDescendingMembers(Entries(counts));
    assert s[i] in Entries(counts);
    k :| 0 <= k < 5 && Entries(counts)[k] == s[i];
  }

  /** Every key's pair is somewhere in the sorted list. */
  lemma SortedHas(counts: seq<int>, k: nat) returns (i: nat)
    requires |counts| == 5 && k < 5
    ensures i < 5 && Sorted(counts)[i] == (CountKeys[k], counts[k])
  {
    var s := Sorted(counts);
    SortDescendingMembers(Entries(counts));
    assert Entries(counts)[k] in s;
    i :| 0 <= i < |s| && s[i] == Entries(counts)[k];
  }

  /** A pair of the sorted list whose key is key `k` carries count `k`. */
  lemma SortedKey(counts: seq<int>, i: nat, k: nat)
    requires |counts| == 5 && i < 5 && k < 5
    requires Sorted(counts)[i].0 == CountKeys[k]
    ensures Sorted(counts)[i].1 == counts[k]
  {
    var k' := SortedEntry(counts, i);
    KeysDistinct(k, k');
  }

  /** With no negative count, the sorted pairs are `n` positive ones followed by zeros. */
  lemma SortedShape(counts: seq<int>)
    requires |counts| == 5 && forall k :: 0 <= k < 5 ==> counts[k] >= 0
    ensures var s, n := Sorted(counts), |Positive(Sorted(counts))|;
      n <= 5 && Descending(s) && Positive(s) == s[..n] && Zero(s) == s[n..]
      && (forall i :: 0 <= i < n ==> s[i].1 > 0) && (forall i :: n <= i < 5 ==> s[i].1 == 0)
  {
    var s := Sorted(counts);
    SortDescendingSorted(Entries(counts));
    forall i | 0 <= i < 5 ensures s[i].1 >= 0 {
      var k := SortedEntry(counts, i);
    }
    PositivePrefix(s);
    var n := |Positive(s)|;
    forall i | 0 <= i < n ensures s[i].1 > 0 {
      PositiveAreAbove(s, i);
    }
    forall i | n <= i < 5 ensures s[i].1 == 0 {
      assert s[i] == Zero(s)[i - n];
      ZeroAreZero(s, i - n);
    }
  }

  /** The strongest elements have positive counts, at most two of them, and a positive
   *  element left out means two were taken, each at least as strong as it. */
  lemma StrongestRule(counts: seq<int>)
    requires |counts| == 5 && forall k :: 0 <= k < 5 ==> counts[k] >= 0
    ensures var st := BalanceOf(counts).strongest;
      |st| <= 2
      && (forall k :: 0 <= k < 5 && CountKeys[k] in st ==> counts[k] > 0)
      && (forall k :: 0 <= k < 5 && counts[k] > 0 && CountKeys[k] !in st ==>
            |st| == 2 && forall j :: 0 <= j < 5 && CountKeys[j] in st ==> counts[j] >= counts[k])
  {
    var s := Sorted(counts);
    SortedShape(counts);
    var n := |Positive(s)|;
    var m := if n <= 2 then n else 2;
    var st := Strongest(s);
    assert st == Names(s[..m]);
    forall k | 0 <= k < 5 && CountKeys[k] in st ensures counts[k] > 0 {
      var i :| 0 <= i < |st| && st[i] == CountKeys[k];
      SortedKey(counts, i, k);
    }
    forall k | 0 <= k < 5 && counts[k] > 0 && CountKeys[k] !in st
      ensures |st| == 2 && forall j :: 0 <= j < 5 && CountKeys[j] in st ==> counts[j] >= counts[k]
    {
      var i := SortedHas(counts, k);
      assert st[..] == Names(s[..m]);
      forall j | 0 <= j < 5 && CountKeys[j] in st ensures counts[j] >= counts[k] {
        var i' :| 0 <= i' < |st| && st[i'] == CountKeys[j];
        SortedKey(counts, i', j);
      }
    }
  }

  /** With some element at 0 the weakest are exactly the elements at 0. */
  lemma WeakestWithZero(counts: seq<int>)
    requires |counts| == 5 && forall k :: 0 <= k < 5 ==> counts[k] >= 0
    requires exists k :: 0 <= k < 5 && counts[k] == 0
    ensures var w := BalanceOf(counts).weakest;
      forall k :: 0 <= k < 5 ==> (CountKeys[k] in w <==> counts[k] == 0)
  {
    var s := Sorted(counts);
    SortedShape(counts);
    var n := |Positive(s)|;
    var k0 :| 0 <= k0 < 5 && counts[k0] == 0;
    var i0 := SortedHas(counts, k0);
    assert n < 5;
    var w := Weakest(s);
    assert w == Names(s[n..]);
    forall k | 0 <= k < 5 ensures CountKeys[k] in w <==> counts[k] == 0 {
      if CountKeys[k] in w {
        var i :| 0 <= i < |w| && w[i] == CountKeys[k];
        SortedKey(counts, n + i, k);
      }
      if counts[k] == 0 {
        var i := SortedHas(counts, k);
        assert w[i - n] == CountKeys[k];
      }
    }
  }

  /** With every element above 0 the weakest are two elements no stronger than any other. */
  lemma WeakestAllPositive(counts: seq<int>)
    requires |counts| == 5 && forall k :: 0 <= k < 5 ==> counts[k] > 0
    ensures var w := BalanceOf(counts).weakest;
      |w| == 2 && forall k, j :: 0 <= k < 5 && 0 <= j < 5 && CountKeys[k] !in w && CountKeys[j] in w ==>
        counts[k] >= counts[j]
  {
    var s := Sorted(counts);
    SortedShape(counts);
    var n := |Positive(s)|;
    if n < 5 {
      var k := SortedEntry(counts, n);
    }
    assert Zero(s) == [];
    var w := Weakest(s);
    assert w == Names(s[3..]);
    forall k, j | 0 <= k < 5 && 0 <= j < 5 && CountKeys[k] !in w && CountKeys[j] in w
      ensures counts[k] >= counts[j]
    {
      var i := SortedHas(counts, k);
      var i' :| 0 <= i' < |w| && w[i'] == CountKeys[j];
      SortedKey(counts, 3 + i', j);
    }
  }

  lemma {:induction false} PositiveAreAbove(s: seq<Entry>, i: nat)
    requires i < |Positive(s)|
    ensures Positive(s)[i].1 > 0
  {
    if s[0].1 > 0 {
      if i > 0 {
        PositiveAreAbove(s[1..], i - 1);
      }
    } else {
      PositiveAreAbove(s[1..], i);
    }
  }

  lemma {:induction false} ZeroAreZero(s: seq<Entry>, i: nat)
    requires i < |Zero(s)|
    ensures Zero(s)[i].1 == 0
  {
    if s[0].1 == 0 {
      if i > 0 {
        ZeroAreZero(s[1..], i - 1);
      }
    } else {
      ZeroAreZero(s[1..], i);
    }
  }

  // ---------------------------------------------------------------------------
  // The chart

  /** The counts the scale's entries give, in key order. */
  function Counts(es: seq<ScaleEntry>): (r: seq<int>)
    ensures |r| == 5 && forall k :: 0 <= k < 5 ==> r[k] == CountOf(es, CountKeys[k])
  {
    [CountOf(es, '金'), CountOf(es, '木'), CountOf(es, '水'), CountOf(es, '火'), CountOf(es, '土')]
  }

  /** The arguments handed to the calendar library: a date without a time gets noon, and
   *  a missing or empty gender reads as male. */
  function LibraryInput(birthday: string, gender: Option<string>): (r: (string, string))
    ensures 'T' !in birthday && ' ' !in birthday ==> r.0 == birthday + " 12:00"
    ensures 'T' in birthday || ' ' in birthday ==> r.0 == birthday
    ensures r.1 == (if gender.None? || gender.value == "" then "male" else gender.value)
  {
    (IndividualAnalysis.FullDateTime(birthday), if gender.None? || gender.value == "" then "male" else gender.value)
  }

  /** The part of the library's result the route reads; `scale` holds the matches of the
   *  scale pattern, empty when there is no scale or no match. */
  datatype Wuxing = Wuxing(year: string, month: string, day: string, hour: string,
    dayStem: string, dayStemWuxing: string, yearStemWuxing: string, scale: seq<ScaleEntry>)

  /** What `calculateAccurateBaZi` returns, without the per-pillar copies of the library's fields. */
  datatype BaziData = BaziData(year: string, month: string, day: string, hour: string,
    dayMaster: string, dayElement: string, yearElement: string, balance: Balance)

  function BaziOf(w: Option<Wuxing>): (r: Option<BaziData>)
    ensures r.None? <==> w.None?
    ensures r.Some? ==> r.value.balance.counts == Counts(w.value.scale)
    ensures r.Some? ==> |r.value.balance.strongest| <= 2
  {
    match w
    case None => None
    case Some(x) =>
      Some(BaziData(x.year, x.month, x.day, x.hour, x.dayStem, x.dayStemWuxing, x.yearStemWuxing,
        BalanceOf(Counts(x.scale))))
  }

  // ---------------------------------------------------------------------------
  // Correcting pillars the answer got wrong

  /** Pillars and day masters from one sample chart, which the route treats as wrong in any answer. */
  const WrongPatterns: seq<string> := [
    ['乙', '巳'], ['丙', '戌'], ['壬', '戌'], ['丙', '午'],
    ['壬', '水'], ['辛', '巳'], ['戊', '午'], ['戊', '土']]

  /** Two characters, a stem and then something that is not a stem. */
  predicate PillarLike(r: string)
  {
    |r| == 2 && StemOrdinal(r[0]) >= 0 && StemOrdinal(r[1]) < 0
  }

  lemma WrongPatternsPillarLike()
    ensures |WrongPatterns| == 8 && forall j :: 0 <= j < 8 ==> PillarLike(WrongPatterns[j])
  {
  }

  /** What each wrong pattern is replaced by, in the order of the replacements. */
  function Replacements(b: BaziData): (r: seq<string>)
    ensures |r| == 8
  {
    var master := b.dayMaster + b.dayElement;
    [b.year, b.month, b.day, b.hour, master, b.year, b.day, master]
  }

  /** The text after the first `n` global replacements. */
  function ReplaceSteps(s: string, rs: seq<string>, n: nat): string
    requires n <= 8 && |rs| == 8
  {
    if n == 0 then s
    else
      WrongPatternsPillarLike();
      ReplaceAny(ReplaceSteps(s, rs, n - 1), [WrongPatterns[n - 1]], rs[n - 1])
  }

  /** The content after correction: the replacements run only when a wrong pattern occurs. */
  function Corrected(content: string, b: BaziData): string
  {
    if ContainsAny(content, WrongPatterns) then ReplaceSteps(content, Replacements(b), 8) else content
  }

  /** Text without any wrong pattern goes through every replacement unchanged. */
  lemma {:induction false} StepsKeepClean(s: string, rs: seq<string>, n: nat)
    requires n <= 8 && |rs| == 8 && !ContainsAny(s, WrongPatterns)
    ensures ReplaceSteps(s, rs, n) == s
  {
    if n > 0 {
      StepsKeepClean(s, rs, n - 1);
      WrongPatternsPillarLike();
      var pats := [WrongPatterns[n - 1]];
      assert !Contains(s, pats[0]);
      CountZeroIffAbsent(s, pats);
    }
  }

  /** The guard changes nothing: correcting is the same as always running the replacements. */
  lemma GuardIsRedundant(content: string, b: BaziData)
    ensures Corrected(content, b) == ReplaceSteps(content, Replacements(b), 8)
  {
    if !ContainsAny(content, WrongPatterns) {
      StepsKeepClean(content, Replacements(b), 8);
    }
  }

  /** Replacing by a pillar-like text that is not itself the pattern `q` cannot create `q`,
   *  and replacing `q` itself removes it. */
  lemma StepRemoves(s: string, p: string, r: string, q: string)
    requires PillarLike(p) && PillarLike(q) && PillarLike(r) && r != q
    requires p == q || !Contains(s, q)
    ensures !Contains(ReplaceAny(s, [p], r), q)
  {
    assert r[..2] == r;
    ReplaceLeavesNoMatch(s, [p], r, q);
  }

  /** After `n` replacements by pillar-like texts that are not wrong patterns, none of the
   *  first `n` wrong patterns is left. */
  lemma {:induction false} StepsRemove(s: string, rs: seq<string>, n: nat)
    requires n <= 8 && |rs| == 8
    requires forall i :: 0 <= i < 8 ==> PillarLike(rs[i]) && rs[i] !in WrongPatterns
    ensures forall j :: 0 <= j < n ==> !Contains(ReplaceSteps(s, rs, n), WrongPatterns[j])
  {
    if n > 0 {
      StepsRemove(s, rs, n - 1);
      WrongPatternsPillarLike();
      var prev := ReplaceSteps(s, rs, n - 1);
      forall j | 0 <= j < n ensures !Contains(ReplaceSteps(s, rs, n), WrongPatterns[j]) {
        StepRemoves(prev, WrongPatterns[n - 1], rs[n - 1], WrongPatterns[j]);
      }
    }
  }

  /** When the chart's pillars and day master are well formed and none of them is on the
   *  wrong list, the corrected content holds no wrong pattern. */
  lemma CorrectionRemovesWrongPatterns(content: string, b: BaziData)
    requires forall i :: 0 <= i < 8 ==> PillarLike(Replacements(b)[i]) && Replacements(b)[i] !in WrongPatterns
    ensures forall j :: 0 <= j < 8 ==> !Contains(Corrected(content, b), WrongPatterns[j])
  {
    GuardIsRedundant(content, b);
    StepsRemove(content, Replacements(b), 8);
  }

  /** A text shorter than a pattern holds no occurrence of it. */
  lemma {:induction false} ShorterLacks(t: string, p: string)
    requires |t| < |p|
    ensures !Contains(t, p)
    decreases |t|
  {
    if |t| > 0 {
      ShorterLacks(t[1..], p);
    }
  }

  /** A step whose pattern differs from the two-character text reached so far keeps it. */
  lemma StepKeeps(s: string, rs: seq<string>, n: nat, t: string)
    requires 0 < n <= 8 && |rs| == 8 && ReplaceSteps(s, rs, n - 1) == t
    requires |t| == 2 && t != WrongPatterns[n - 1]
    ensures ReplaceSteps(s, rs, n) == t
  {
    WrongPatternsPillarLike();
    var p := WrongPatterns[n - 1];
    assert !StartsWith(t, p);
    ShorterLacks(t[1..], p);
    CountZeroIffAbsent(t, [p]);
  }

  /** A step whose pattern is the whole text reached so far turns it into the replacement. */
  lemma StepReplacesWhole(s: string, rs: seq<string>, n: nat)
    requires 0 < n <= 8 && |rs| == 8 && ReplaceSteps(s, rs, n - 1) == WrongPatterns[n - 1]
    ensures ReplaceSteps(s, rs, n) == rs[n - 1]
  {
    WrongPatternsPillarLike();
    var p := WrongPatterns[n - 1];
    assert StartsWith(p, p);
    assert p[|p|..] == [];
    assert rs[n - 1] + [] == rs[n - 1];
  }

  /** A chart whose own day pillar is on the wrong list loses it: an answer naming the
   *  correct day pillar 丙午 comes back naming the hour pillar. */
  lemma CorrectDayPillarOverwritten()
    ensures var b := BaziData("甲子", "丙寅", "丙午", "戊子", "丙", "火", "木", Balance([], [], []));
      Corrected("丙午", b) == "戊子"
  {
    var b := BaziData("甲子", "丙寅", "丙午", "戊子", "丙", "火", "木", Balance([], [], []));
    var rs := Replacements(b);
    var day: string := ['丙', '午'];
    var hour: string := ['戊', '子'];
    assert rs[3] == hour;
    assert Contains(day, WrongPatterns[3]) by {
      assert StartsWith(day, WrongPatterns[3]);
    }
    StepKeeps(day, rs, 1, day);
    StepKeeps(day, rs, 2, day);
    StepKeeps(day, rs, 3, day);
    StepReplacesWhole(day, rs, 4);
    StepKeeps(day, rs, 5, hour);
    StepKeeps(day, rs, 6, hour);
    StepKeeps(day, rs, 7, hour);
    StepKeeps(day, rs, 8, hour);
  }

  // ---------------------------------------------------------------------------
  // The answer

  /** The fields of the answer object the route reads and writes. */
  datatype Answer = Answer(title: Option<string>, content: Option<string>)

  /** The AI call failed, or returned a text and what `JSON.parse` made of the span from its
   *  first `{` to its last `}` (`None` when parsing throws). */
  datatype Reply = Failed | Replied(text: string, parsed: Option<Answer>)

  /** `/\{[\s\S]*\}/` matches exactly when a `{` is followed somewhere by a `}`. */
  predicate HasObject(text: string)
  {
    exists i, j :: 0 <= i < j < |text| && text[i] == '{' && text[j] == '}'
  }

  /** The answer made from a text that holds no readable object. */
  function PlainAnswer(concern: string, text: string): Answer
  {
    Answer(Some(concern + "指導建議"), Some(Trim(text)))
  }

  const KnownConcerns: seq<string> := ["健康", "財運", "感情", "事業"]

  const HealthGuidance: string := "根據您的生辰信息，您的體質特點需要特別關注五行平衡。關於您提到的健康問題，從命理角度分析主要與當前流年氣場和個人體質的配置相關。建議您可以通過調整作息、注意飲食平衡，以及選擇合適的調養時機來改善。\n\n💡 更詳細的體質分析、具體調養方法和時機選擇，請參閱報告中的其他相關章節，您將獲得更全面的健康管理方案。"
  const WealthGuidance: string := "從您的生辰來看，財運的發展與五行流通和時機把握密切相關。關於您的財務問題，命理上分析主要是當前流年對您的財星運勢產生了一定影響。建議您可以通過穩健理財、把握合適投資時機的方式來改善財務狀況。\n\n💡 更詳細的財運分析、投資時機和具體理財策略，請參閱報告中的其他相關章節，您將獲得更全面的財富管理指引。"
  const LoveGuidance: string := "根據您的命盤配置，感情運勢與人際磁場和桃花時機有著重要關聯。關於您的感情困擾，從命理角度分析與當前的人際能量和情感週期相關。建議您可以通過提升個人魅力、選擇合適的溝通時機來改善感情狀況。\n\n💡 更詳細的桃花分析、最佳行動時機和具體感情策略，請參閱報告中的其他相關章節，您將獲得更全面的感情經營指引。"
  const CareerGuidance: string := "從您的命格來看，事業發展與官星配置和流年運勢變化密切相關。關於您的職涯問題，命理分析顯示與當前的事業運勢週期和個人能力發揮有關。建議您可以通過提升專業技能、把握合適的行動時機來推進事業發展。\n\n💡 更詳細的事業運分析、最佳發展時機和具體職涯策略，請參閱報告中的其他相關章節，您將獲得更全面的事業規劃指引。"
  const GeneralGuidance: string := "根據您的生辰資訊，您的命格具有獨特的特質。關於您提到的問題，從命理角度分析與您當前的運勢週期和個人氣場相關。建議您可以通過調整心態、把握合適時機來逐步改善現況。\n\n💡 更詳細的命理分析、具體改善方法和行動時機，請參閱報告中的其他相關章節，您將獲得更全面和針對性的解決方案。"

  /** The stock guidance used when the AI call fails, by concern. */
  function Fallback(concern: string): Answer
  {
    if concern == KnownConcerns[0] then Answer(Some("健康分析指導"), Some(HealthGuidance))
    else if concern == KnownConcerns[1] then Answer(Some("財運分析指導"), Some(WealthGuidance))
    else if concern == KnownConcerns[2] then Answer(Some("感情分析指導"), Some(LoveGuidance))
    else if concern == KnownConcerns[3] then Answer(Some("事業分析指導"), Some(CareerGuidance))
    else Answer(Some("命理分析指導"), Some(GeneralGuidance))
  }

  /** A known concern gets its own guidance titled after it; any other gets the general one. */
  lemma FallbackRule(concern: string)
    ensures concern in KnownConcerns ==> Fallback(concern).title == Some(concern + "分析指導")
    ensures concern !in KnownConcerns ==> Fallback(concern) == Answer(Some("命理分析指導"), Some(GeneralGuidance))
  {
    assert KnownConcerns[0] + "分析指導" == "健康分析指導";
    assert KnownConcerns[1] + "分析指導" == "財運分析指導";
    assert KnownConcerns[2] + "分析指導" == "感情分析指導";
    assert KnownConcerns[3] + "分析指導" == "事業分析指導";
  }

  /** What `generatePersonalizedSolution` returns once the chart and the reply are known. */
  function Solution(concern: string, bazi: Option<BaziData>, reply: Reply): Answer
  {
    match reply
    case Failed => Fallback(concern)
    case Replied(text, parsed) =>
      if !HasObject(text) || parsed.None? then PlainAnswer(concern, text)
      else
        var a := parsed.value;
        if bazi.Some? && a.content.Some? && a.content.value != "" then
          a.(content := Some(Corrected(a.content.value, bazi.value)))
        else a
  }

  /** The three ways an answer is made: stock guidance on failure, the trimmed text under a
   *  title naming the concern when no object can be read, and otherwise the parsed object
   *  with its title kept and its content corrected only when there is a chart and a content. */
  lemma SolutionRule(concern: string, bazi: Option<BaziData>, reply: Reply)
    ensures reply.Failed? ==> Solution(concern, bazi, reply) == Fallback(concern)
    ensures reply.Replied? && (!HasObject(reply.text) || reply.parsed.None?) ==>
      Solution(concern, bazi, reply) == Answer(Some(concern + "指導建議"), Some(Trim(reply.text)))
    ensures reply.Replied? && HasObject(reply.text) && reply.parsed.Some? ==>
      var a, r := reply.parsed.value, Solution(concern, bazi, reply);
      r.title == a.title
      && (bazi.None? || a.content.None? || a.content == Some("") ==> r == a)
      && (bazi.Some? && a.content.Some? ==> r.content == Some(Corrected(a.content.value, bazi.value)))
  {
    if reply.Replied? && HasObject(reply.text) && reply.parsed.Some? {
      var a := reply.parsed.value;
      if bazi.Some? && a.content == Some("") {
        assert !ContainsAny("", WrongPatterns) by {
          forall j | 0 <= j < |WrongPatterns| ensures !Contains("", WrongPatterns[j]) {
            assert !StartsWith("", WrongPatterns[j]);
          }
        }
      }
    }
  }

  /** With a well-formed chart no wrong pattern survives in a parsed answer's content. */
  lemma SolutionHasNoWrongPattern(concern: string, b: BaziData, reply: Reply)
    requires forall i :: 0 <= i < 8 ==> PillarLike(Replacements(b)[i]) && Replacements(b)[i] !in WrongPatterns
    requires reply.Replied? && HasObject(reply.text) && reply.parsed.Some?
    requires reply.parsed.value.content.Some?
    ensures var r := Solution(concern, Some(b), reply);
      r.content.Some? && forall j :: 0 <= j < 8 ==> !Contains(r.content.value, WrongPatterns[j])
  {
    var c := reply.parsed.value.content.value;
    SolutionRule(concern, Some(b), reply);
    CorrectionRemovesWrongPatterns(c, b);
  }

  // ---------------------------------------------------------------------------
  // The handler

  datatype UserInfo = UserInfo(problem: Option<string>, concern: Option<string>,
    birthday: Option<string>, gender: Option<string>)

  /** The request body: unreadable (not JSON, or `null`), or an object with or without `userInfo`. */
  datatype Request = Unreadable | Body(userInfo: Option<UserInfo>)

  datatype Response = BadRequest(error: string) | Solved(solution: Answer) | Unavailable(error: string)

  predicate Falsy(s: Option<string>)
  {
    s.None? || s.value == ""
  }

  /** `POST`, given the answer `generatePersonalizedSolution` would produce. */
  function Post(request: Request, solution: Answer): (r: Response)
    ensures r.BadRequest? <==>
      request.Body? && (request.userInfo.None? || Falsy(request.userInfo.value.problem)
        || Falsy(request.userInfo.value.concern))
    ensures r.Unavailable? <==> request.Unreadable?
    ensures r.Solved? ==> r.solution == solution
  {
    match request
    case Unreadable => Unavailable("分析服務暫時不可用，請稍後再試")
    case Body(info) =>
      if info.None? || Falsy(info.value.problem) || Falsy(info.value.concern) then BadRequest("缺少必要的用戶資訊")
      else Solved(solution)
  }
}
