/** Keeping the first entry of each key, as the chart components filter a relationship list
 *  through a `Set` of keys already seen, and the sorted-pair keys they build. */
module Dedup {
  /** `a < b` on strings as JavaScript's default sort compares them: character by character,
   *  a proper prefix first. */
  predicate StringLess(a: string, b: string)
  {
    if |a| == 0 then |b| > 0
    else if |b| == 0 then false
    else if a[0] != b[0] then a[0] < b[0]
    else StringLess(a[1..], b[1..])
  }

  /** Of two different strings exactly one is less than the other; a string is never less than itself. */
  lemma {:induction false} StringLessTotal(a: string, b: string)
    ensures !StringLess(a, a)
    ensures a != b ==> (StringLess(a, b) <==> !StringLess(b, a))
  {
    if |a| > 0 {
      StringLessTotal(a[1..], a[1..]);
    }
    if |a| > 0 && |b| > 0 && a[0] == b[0] {
      StringLessTotal(a[1..], b[1..]);
      assert a == [a[0]] + a[1..] && b == [b[0]] + b[1..];
    }
  }

  /** `[a, b].sort().join("")`. */
  function SortedPair(a: string, b: string): (r: string)
  {
    if StringLess(b, a) then b + a else a + b
  }

  /** The sorted pair does not depend on the order of its arguments, and holds both. */
  lemma SortedPairSymmetric(a: string, b: string)
    ensures SortedPair(a, b) == SortedPair(b, a)
    ensures SortedPair(a, b) == a + b || SortedPair(a, b) == b + a
  {
    StringLessTotal(a, b);
  }

  /** For one-character strings a sorted-pair key followed by a label names the unordered
   *  pair and the label: two keys agree exactly when the pairs and the labels do. */
  lemma PairKeyUnordered(x: char, y: char, t: string, u: char, v: char, w: string)
    ensures SortedPair([x], [y]) + t == SortedPair([u], [v]) + w <==>
      multiset{x, y} == multiset{u, v} && t == w
  {
    SortedPairSymmetric([x], [y]);
    SortedPairSymmetric([u], [v]);
    var k1, k2 := SortedPair([x], [y]) + t, SortedPair([u], [v]) + w;
    if k1 == k2 {
      assert k1[0] == k2[0] && k1[1] == k2[1] && k1[2..] == k2[2..];
      assert k1[2..] == t && k2[2..] == w;
    }
    if multiset{x, y} == multiset{u, v} && t == w {
      assert x in multiset{u, v} && y in multiset{u, v};
      if x == u {
        assert multiset{y} == multiset{x, y} - multiset{x};
        assert y == v;
      } else {
        assert x == v;
        assert multiset{y} == multiset{x, y} - multiset{x};
        assert y == u;
        StringLessTotal([x], [y]);
        assert SortedPair([u], [v]) == SortedPair([x], [y]);
      }
    }
  }

  /** Whether `xs[i]` is the first entry with its key. */
  ghost predicate IsFirst<T>(xs: seq<T>, key: T -> string, i: nat)
    requires i < |xs|
  {
    forall m :: 0 <= m < i ==> key(xs[m]) != key(xs[i])
  }

  /** The entries among the first `n` that are the first with their key, in list order. */
  ghost function Firsts<T>(xs: seq<T>, key: T -> string, n: nat): seq<T>
    requires n <= |xs|
  {
    if n == 0 then []
    else Firsts(xs, key, n - 1) + (if IsFirst(xs, key, n - 1) then [xs[n - 1]] else [])
  }

  /** The keys of the first `n` entries. */
  ghost function Keys<T>(xs: seq<T>, key: T -> string, n: nat): set<string>
    requires n <= |xs|
  {
    set m | 0 <= m < n :: key(xs[m])
  }

  /** `list.filter(x => { if (seen.has(key(x))) return false; seen.add(key(x)); return true; })`. */
  method FilterUnseen<T>(xs: seq<T>, key: T -> string) returns (unique: seq<T>)
    ensures unique == Firsts(xs, key, |xs|)
  {
    var seen: set<string> := {};
    unique := [];
    for i := 0 to |xs|
      invariant unique == Firsts(xs, key, i)
      invariant seen == Keys(xs, key, i)
    {
      var k := key(xs[i]);
      assert k in seen <==> !IsFirst(xs, key, i);
      assert Keys(xs, key, i + 1) == seen + {k};
      if k !in seen {
        seen := seen + {k};
        unique := unique + [xs[i]];
      }
    }
  }

  /** The kept entries carry exactly the keys of the list. */
  lemma {:induction false} FirstsKeys<T>(xs: seq<T>, key: T -> string, n: nat)
    requires n <= |xs|
    ensures Keys(Firsts(xs, key, n), key, |Firsts(xs, key, n)|) == Keys(xs, key, n)
  {
    if n > 0 {
      FirstsKeys(xs, key, n - 1);
      var f, g := Firsts(xs, key, n - 1), Firsts(xs, key, n);
      assert Keys(xs, key, n) == Keys(xs, key, n - 1) + {key(xs[n - 1])};
      if IsFirst(xs, key, n - 1) {
        assert Keys(g, key, |g|) == Keys(f, key, |f|) + {key(xs[n - 1])} by {
          assert forall j :: 0 <= j < |f| ==> g[j] == f[j];
          assert g[|f|] == xs[n - 1];
        }
      } else {
        assert g == f;
        var m :| 0 <= m < n - 1 && key(xs[m]) == key(xs[n - 1]);
        assert key(xs[n - 1]) in Keys(xs, key, n - 1);
      }
    }
  }

  /** No two kept entries share a key. */
  lemma {:induction false} FirstsDistinct<T>(xs: seq<T>, key: T -> string, n: nat)
    requires n <= |xs|
    ensures forall a, b :: 0 <= a < b < |Firsts(xs, key, n)| ==> key(Firsts(xs, key, n)[a]) != key(Firsts(xs, key, n)[b])
  {
    if n > 0 {
      FirstsDistinct(xs, key, n - 1);
      var f, g := Firsts(xs, key, n - 1), Firsts(xs, key, n);
      if IsFirst(xs, key, n - 1) {
        FirstsKeys(xs, key, n - 1);
        forall a, b | 0 <= a < b < |g|
          ensures key(g[a]) != key(g[b])
        {
          assert g[a] == f[a];
          if b < |f| {
            assert g[b] == f[b];
          } else {
            assert g[b] == xs[n - 1];
            assert key(f[a]) in Keys(f, key, |f|);
            var m :| 0 <= m < n - 1 && key(xs[m]) == key(f[a]);
          }
        }
      }
    }
  }

  /** A non-empty list keeps at least its first entry. */
  lemma {:induction false} FirstsNonEmpty<T>(xs: seq<T>, key: T -> string, n: nat)
    requires 0 < n <= |xs|
    ensures |Firsts(xs, key, n)| > 0
  {
    if n > 1 {
      FirstsNonEmpty(xs, key, n - 1);
    }
  }

  /** The filtered list is empty exactly when the list is. */
  lemma FirstsEmpty<T>(xs: seq<T>, key: T -> string)
    ensures |Firsts(xs, key, |xs|)| == 0 <==> |xs| == 0
  {
    if |xs| > 0 {
      FirstsNonEmpty(xs, key, |xs|);
    }
  }
}
