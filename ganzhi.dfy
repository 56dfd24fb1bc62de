/** The sexagenary (ganzhi) vocabulary shared by the BaZi code: the ten heavenly stems,
 *  the twelve earthly branches, the five elements in their generating order, and the
 *  JavaScript arithmetic and indexing the calculators use on them. */
module Ganzhi {
  import opened Wrappers
  import opened Strings

  /** 甲乙丙丁戊己庚辛壬癸 */
  const Stems: string := "甲乙丙丁戊己庚辛壬癸"
  /** 子丑寅卯辰巳午未申酉戌亥 */
  const Branches: string := "子丑寅卯辰巳午未申酉戌亥"
  /** 木火土金水: each element generates the next and controls the one after that. */
  const Elements: seq<string> := ["木", "火", "土", "金", "水"]

  lemma TablesDistinct()
    ensures |Stems| == 10 && |Branches| == 12 && |Elements| == 5
    ensures forall i, j :: 0 <= i < j < |Stems| ==> Stems[i] != Stems[j]
    ensures forall i, j :: 0 <= i < j < |Branches| ==> Branches[i] != Branches[j]
  {
  }

  /** The stem at index `i`, spelled out so that table lemmas need not index the literal. */
  function StemChar(i: nat): (c: char)
    requires i < 10
    ensures c == Stems[i]
  {
    match i
    case 0 => '甲' case 1 => '乙' case 2 => '丙' case 3 => '丁' case 4 => '戊'
    case 5 => '己' case 6 => '庚' case 7 => '辛' case 8 => '壬' case _ => '癸'
  }

  /** The branch at index `i`, spelled out likewise. */
  function BranchChar(i: nat): (c: char)
    requires i < 12
    ensures c == Branches[i]
  {
    match i
    case 0 => '子' case 1 => '丑' case 2 => '寅' case 3 => '卯' case 4 => '辰' case 5 => '巳'
    case 6 => '午' case 7 => '未' case 8 => '申' case 9 => '酉' case 10 => '戌' case _ => '亥'
  }

  /** The index of a stem character, -1 for any other character. */
  function StemOrdinal(c: char): (r: int)
    ensures -1 <= r < 10
  {
    match c
    case '甲' => 0 case '乙' => 1 case '丙' => 2 case '丁' => 3 case '戊' => 4
    case '己' => 5 case '庚' => 6 case '辛' => 7 case '壬' => 8 case '癸' => 9
    case _ => -1
  }

  lemma StemOrdinalInverse(i: nat)
    requires i < 10
    ensures StemOrdinal(StemChar(i)) == i
  {
  }

  /** The index of a branch character, -1 for any other character. */
  function BranchOrdinal(c: char): (r: int)
    ensures -1 <= r < 12
  {
    match c
    case '子' => 0 case '丑' => 1 case '寅' => 2 case '卯' => 3 case '辰' => 4 case '巳' => 5
    case '午' => 6 case '未' => 7 case '申' => 8 case '酉' => 9 case '戌' => 10 case '亥' => 11
    case _ => -1
  }

  lemma BranchOrdinalInverse(i: nat)
    requires i < 12
    ensures BranchOrdinal(BranchChar(i)) == i
  {
  }

  lemma BranchCharInjective(i: nat, j: nat)
    requires i < 12 && j < 12 && i != j
    ensures BranchChar(i) != BranchChar(j)
  {
    BranchOrdinalInverse(i);
    BranchOrdinalInverse(j);
  }

  /** JavaScript's `a % n`: the remainder takes the sign of the dividend. */
  function JsRem(a: int, n: int): (r: int)
    requires n > 0
    ensures a >= 0 ==> r == a % n
    ensures a < 0 ==> -n < r <= 0 && r == -((-a) % n)
  {
    if a >= 0 then a % n else -((-a) % n)
  }

  /** Adding a multiple of 10 leaves the last digit alone. */
  lemma ModTenShift(x: int, k: int)
    ensures (x + 10 * k) % 10 == x % 10
  {
    assert x + 10 * k == 10 * (x / 10 + k) + x % 10;
  }

  /** Adding an even number keeps the parity. */
  lemma ParityShift(x: int, k: int)
    ensures (x + 2 * k) % 2 == x % 2
  {
    assert x + 2 * k == 2 * (x / 2 + k) + x % 2;
  }

  /** Taking a remainder by an even number keeps the parity. */
  lemma EvenModParity(n: nat, m: nat)
    requires m > 0 && m % 2 == 0
    ensures n % m % 2 == n % 2
  {
    var q, h := n / m, m / 2;
    assert n == 2 * (h * q) + n % m;
  }

  /** `array[i]`: `undefined` (None) outside the array. */
  function At<T>(s: seq<T>, i: int): (r: Option<T>)
    ensures r.Some? <==> 0 <= i < |s|
    ensures r.Some? ==> r.value == s[i]
  {
    if 0 <= i < |s| then Some(s[i]) else None
  }

  /** A looked-up character in a template literal: `undefined` prints as its name. */
  function Show(c: Option<char>): (r: string)
    ensures c.Some? ==> r == [c.value]
  {
    if c.Some? then [c.value] else "undefined"
  }

  /** The element of the stem at index `i`: two consecutive stems per element. */
  function StemElement(i: nat): string
    requires i < 10
  {
    Elements[i / 2]
  }

  /** Yang stems sit at even indices. */
  predicate IsYangIndex(i: nat)
  {
    i % 2 == 0
  }

  /** The index of a one-character stem name, if it is one. */
  function StemIndex(s: string): (r: Option<nat>)
    ensures r.Some? ==> r.value < 10 && s == [Stems[r.value]]
    ensures r.None? ==> forall i :: 0 <= i < 10 ==> s != [Stems[i]]
  {
    if |s| == 1 && IndexOfChar(Stems, s[0]) >= 0 then Some(IndexOfChar(Stems, s[0])) else None
  }

  /** The index of a one-character branch name, if it is one. */
  function BranchIndex(s: string): (r: Option<nat>)
    ensures r.Some? ==> r.value < 12 && s == [Branches[r.value]]
    ensures r.None? ==> forall i :: 0 <= i < 12 ==> s != [Branches[i]]
  {
    if |s| == 1 && IndexOfChar(Branches, s[0]) >= 0 then Some(IndexOfChar(Branches, s[0])) else None
  }

  /** The stem-to-element dictionary the calculators repeat: 甲乙木 丙丁火 戊己土 庚辛金 壬癸水. */
  function StemElementOf(c: char): Option<string>
  {
    match c
    case '甲' => Some("木") case '乙' => Some("木") case '丙' => Some("火") case '丁' => Some("火")
    case '戊' => Some("土") case '己' => Some("土") case '庚' => Some("金") case '辛' => Some("金")
    case '壬' => Some("水") case '癸' => Some("水")
    case _ => None
  }

  /** The dictionary holds exactly the ten stems, each with the element of its pair. */
  lemma StemElementOfRule(c: char)
    ensures StemElementOf(c).Some? <==> c in Stems
    ensures forall i :: 0 <= i < 10 && c == StemChar(i) ==> StemElementOf(c) == Some(StemElement(i))
  {
  }

  /** `elementMap[stem] || "土"` for a stem that may be `undefined`. */
  function ElementOrEarth(stem: Option<char>): (r: string)
    ensures stem.Some? && stem.value in Stems ==> r == StemElementOf(stem.value).value
    ensures stem.None? || stem.value !in Stems ==> r == "土"
  {
    StemElementOfRule(if stem.Some? then stem.value else ' ');
    if stem.Some? && StemElementOf(stem.value).Some? then StemElementOf(stem.value).value else "土"
  }

  /** The element of a stem name, for the calculators that default unknown stems to 土. */
  function StemElementOr(s: string, default: string): (r: string)
    ensures StemIndex(s).Some? ==> r == StemElement(StemIndex(s).value)
    ensures StemIndex(s).None? ==> r == default
  {
    if StemIndex(s).Some? then StemElement(StemIndex(s).value) else default
  }

  /** The element of the branch at index `i`: 子水 丑土 寅木 卯木 辰土 巳火 午火 未土 申金 酉金 戌土 亥水. */
  function BranchElement(i: nat): string
    requires i < 12
  {
    ["水", "土", "木", "木", "土", "火", "火", "土", "金", "金", "土", "水"][i]
  }

  /** A pillar as the calculators print it: stem then branch. */
  function PillarText(stem: nat, branch: nat): (r: string)
    requires stem < 10 && branch < 12
    ensures |r| == 2 && r[0] == Stems[stem] && r[1] == Branches[branch]
  {
    [Stems[stem], Branches[branch]]
  }

  /** Inside both tables, the two characters a script prints are the pillar. */
  lemma ShownPillar(stem: int, branch: int)
    requires 0 <= stem < 10 && 0 <= branch < 12
    ensures Show(At(Stems, stem)) + Show(At(Branches, branch)) == PillarText(stem, branch)
  {
  }

  /** The value of `a + b` for two looked-up characters. Beside a character `undefined`
   *  prints as its name, but `undefined + undefined` is the number NaN, not a string. */
  datatype Joined = Text(text: string) | NaN

  function Plus(a: Option<char>, b: Option<char>): (r: Joined)
    ensures r.NaN? <==> a.None? && b.None?
    ensures r.Text? ==> |r.text| >= 2 && r.text == Show(a) + Show(b)
  {
    if a.None? && b.None? then NaN else Text(Show(a) + Show(b))
  }

  /** `stems[s] + branches[b]`. */
  function JoinAt(stemIndex: int, branchIndex: int): Joined
  {
    Plus(At(Stems, stemIndex), At(Branches, branchIndex))
  }

  /** Inside both tables the sum is the two-character pillar. */
  lemma JoinAtText(stemIndex: int, branchIndex: int)
    requires 0 <= stemIndex < 10 && 0 <= branchIndex < 12
    ensures JoinAt(stemIndex, branchIndex) == Text(PillarText(stemIndex, branchIndex))
  {
  }

  /** With non-negative dividends the JavaScript remainders index both tables. */
  lemma JoinAtRem(a: int, b: int)
    requires a >= 0 && b >= 0
    ensures JoinAt(JsRem(a, 10), JsRem(b, 12)) == Text(PillarText(a % 10, b % 12))
  {
    JoinAtText(a % 10, b % 12);
  }

  /** `${value}` in a template literal: NaN prints as `NaN`. */
  function AsText(v: Joined): (r: string)
    ensures v.Text? ==> r == v.text
  {
    if v.Text? then v.text else "NaN"
  }

  /** `value[i]`: a character of a string, `undefined` past its end or on NaN. */
  function CharAt(v: Joined, i: nat): (r: Option<char>)
    ensures r.Some? <==> v.Text? && i < |v.text|
    ensures r.Some? ==> r.value == v.text[i]
  {
    if v.Text? && i < |v.text| then Some(v.text[i]) else None
  }
}
