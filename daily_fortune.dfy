/** The daily-fortune endpoint: simplified solar pillars for a birthday and a chosen
 *  date, a 0..100 score from the five-element relations between them, the fortune
 *  band the score falls in and the texts shown for that band. */
module DailyFortune {
  import opened Wrappers
  import opened Strings
  import opened Ganzhi
  import BaziRelationships

  /** The three pillars the endpoint prints, each the value of a `+` of two lookups. */
  datatype Pillars = Pillars(year: Joined, month: Joined, day: Joined)

  /** `calculatePillars`. `julianDay` is the number of whole days since 1 January 1900,
   *  negative before it; a negative remainder indexes nothing. */
  function CalculatePillars(year: int, month: int, julianDay: int): (p: Pillars)
    ensures p.day == DayPillar(julianDay)
  {
    Pillars(
      JoinAt(JsRem(year - 4, 10), JsRem(year - 4, 12)),
      JoinAt(JsRem(year * 12 + month, 10), JsRem(month + 1, 12)),
      DayPillar(julianDay))
  }

  /** The day pillar, from the day count alone. */
  function DayPillar(julianDay: int): Joined
  {
    JoinAt(JsRem(julianDay, 10), JsRem(julianDay, 12))
  }

  /** From year 4 on and from 1900 on every pillar is a real stem and branch. */
  lemma PillarsOfValidDate(year: int, month: int, julianDay: int)
    requires year >= 4 && 1 <= month <= 12 && julianDay >= 0
    ensures CalculatePillars(year, month, julianDay) == Pillars(
      Text(PillarText((year - 4) % 10, (year - 4) % 12)),
      Text(PillarText((year * 12 + month) % 10, (month + 1) % 12)),
      Text(PillarText(julianDay % 10, julianDay % 12)))
  {
    JoinAtRem(year - 4, year - 4);
    JoinAtRem(year * 12 + month, month + 1);
    JoinAtRem(julianDay, julianDay);
  }

  /** Before 1900 a day whose two remainders are both negative is the number NaN, and
   *  one whose stem remainder alone is zero prints `undefined` after its stem. */
  lemma EarlyDayPillar(julianDay: int)
    ensures julianDay < 0 && (-julianDay) % 10 != 0 && (-julianDay) % 12 != 0 ==> DayPillar(julianDay) == NaN
    ensures DayPillar(-10) == Text("甲undefined")
  {
  }

  /** The month formula pairs a stem and a branch of opposite polarity, so the month
   *  pillar is never one of the sixty pillars of the cycle. */
  lemma MonthPillarOutsideCycle(year: nat, month: nat)
    requires 1 <= month <= 12
    ensures forall k :: 0 <= k < 60 ==>
      CalculatePillars(year, month, 0).month != Text(PillarText(k % 10, k % 12))
  {
    var s, b := (year * 12 + month) % 10, (month + 1) % 12;
    assert s % 2 != b % 2 by {
      EvenModParity(year * 12 + month, 10);
      EvenModParity(month + 1, 12);
      assert year * 12 + month == 2 * (year * 6) + month;
    }
    assert CalculatePillars(year, month, 0).month == Text(PillarText(s, b)) by {
      JoinAtRem(year * 12 + month, month + 1);
    }
    OppositeParityOutsideCycle(s, b);
  }

  /** A stem and a branch of opposite polarity never meet in the sixty-pillar cycle. */
  lemma OppositeParityOutsideCycle(s: nat, b: nat)
    requires s < 10 && b < 12 && s % 2 != b % 2
    ensures forall k :: 0 <= k < 60 ==> Text(PillarText(s, b)) != Text(PillarText(k % 10, k % 12))
  {
    forall k | 0 <= k < 60
      ensures PillarText(s, b) != PillarText(k % 10, k % 12)
    {
      EvenModParity(k, 10);
      EvenModParity(k, 12);
      if s != k % 10 {
        StemOrdinalInverse(s);
        StemOrdinalInverse(k % 10);
        assert StemChar(s) != StemChar(k % 10);
      } else {
        BranchCharInjective(b, k % 12);
      }
    }
  }

  /** `FIVE_ELEMENTS`, in its key order: each element with the stems and branches it owns. */
  const FiveElements: seq<(string, string)> :=
    [("木", "甲乙寅卯"), ("火", "丙丁巳午"), ("土", "戊己辰戌丑未"), ("金", "庚辛申酉"), ("水", "壬癸子亥")]

  /** The key of the first entry whose list holds `c`. */
  function FirstListed(entries: seq<(string, string)>, c: char): Option<string>
  {
    if |entries| == 0 then None
    else if c in entries[0].1 then Some(entries[0].0)
    else FirstListed(entries[1..], c)
  }

  /** Some key comes back exactly when some list holds `c`, and it is the key of a list holding `c`. */
  lemma {:induction false} FirstListedSpec(entries: seq<(string, string)>, c: char)
    ensures FirstListed(entries, c).Some? <==> exists k :: 0 <= k < |entries| && c in entries[k].1
    ensures FirstListed(entries, c).Some? ==>
      exists k :: 0 <= k < |entries| && c in entries[k].1 && FirstListed(entries, c).value == entries[k].0
  {
    if |entries| > 0 && c !in entries[0].1 {
      FirstListedSpec(entries[1..], c);
      assert forall k :: 1 <= k < |entries| ==> entries[k] == entries[1..][k - 1];
    }
  }

  /** `getElement`: the element owning a stem or branch character, null for any other. */
  function GetElement(c: char): Option<string>
  {
    FirstListed(FiveElements, c)
  }

  /** No character is listed under two elements. */
  lemma ElementListsDisjoint()
    ensures forall a, b, c :: 0 <= a < b < |FiveElements| && c in FiveElements[a].1 ==> c !in FiveElements[b].1
  {
  }

  /** Only the five elements come back, each for exactly the characters listed under it. */
  lemma GetElementUnique(c: char, k: nat)
    requires k < |FiveElements|
    ensures GetElement(c) == Some(FiveElements[k].0) <==> c in FiveElements[k].1
    ensures GetElement(c).Some? ==> GetElement(c).value in Elements
  {
    FirstListedSpec(FiveElements, c);
    ElementListsDisjoint();
  }

  /** Each stem gets the element of its pair. */
  lemma GetElementOfStem(i: nat)
    requires i < 10
    ensures GetElement(StemChar(i)) == Some(StemElement(i))
  {
    assert StemChar(i) in FiveElements[i / 2].1;
    GetElementUnique(StemChar(i), i / 2);
  }

  /** Each branch gets its own element. */
  lemma GetElementOfBranch(j: nat)
    requires j < 12
    ensures GetElement(BranchChar(j)) == Some(BranchElement(j))
  {
    var k := if j in {2, 3} then 0 else if j in {5, 6} then 1 else if j in {1, 4, 7, 10} then 2 else if j in {8, 9} then 3 else 4;
    assert BranchChar(j) in FiveElements[k].1;
    GetElementUnique(BranchChar(j), k);
  }

  /** A character that is neither a stem nor a branch has no element. */
  lemma GetElementOther(c: char)
    requires StemOrdinal(c) < 0 && BranchOrdinal(c) < 0
    ensures GetElement(c) == None
  {
    forall k | 0 <= k < |FiveElements|
      ensures c !in FiveElements[k].1
    {
    }
    FirstListedSpec(FiveElements, c);
  }

  /** One entry of `ELEMENT_RELATIONS`. */
  datatype Relation = Relation(generates: string, controls: string, controlledBy: string)

  /** `ELEMENT_RELATIONS[element]`. */
  function ElementRelation(e: string): (r: Option<Relation>)
    ensures r.Some? <==> e in Elements
  {
    if e == "木" then Some(Relation("火", "土", "金"))
    else if e == "火" then Some(Relation("土", "金", "水"))
    else if e == "土" then Some(Relation("金", "水", "木"))
    else if e == "金" then Some(Relation("水", "木", "火"))
    else if e == "水" then Some(Relation("木", "火", "土"))
    else None
  }

  /** The table is the generating order: each element generates the next, controls the
   *  one after and is controlled by the third. */
  lemma ElementRelationRule(k: nat)
    requires k < 5
    ensures ElementRelation(Elements[k]) ==
      Some(Relation(Elements[(k + 1) % 5], Elements[(k + 2) % 5], Elements[(k + 3) % 5]))
  {
  }

  /** The score change for one date element against the day master. */
  function ElementDelta(dayMaster: Option<string>, dateElement: Option<string>): (d: int)
    requires dayMaster.None? || dayMaster.value in Elements
  {
    if dateElement.None? || dayMaster.None? then 0
    else
      var relation := ElementRelation(dayMaster.value).value;
      if relation.generates == dateElement.value then 15
      else if relation.controlledBy == dateElement.value then -10
      else if dateElement.value == dayMaster.value then 10
      else 0
  }

  /** +15 when the day master generates the date's element, −10 when that element
   *  controls the day master, +10 for the same element and 0 for the other two. */
  lemma ElementDeltaRule(a: nat, b: nat)
    requires a < 5 && b < 5
    ensures ElementDelta(Some(Elements[a]), Some(Elements[b])) ==
      if b == (a + 1) % 5 then 15 else if b == (a + 3) % 5 then -10 else if a == b then 10 else 0
  {
    ElementRelationRule(a);
  }

  /** An unknown element on either side changes nothing. */
  lemma ElementDeltaUnknown(dayMaster: Option<string>, dateElement: Option<string>)
    requires dayMaster.None? || dayMaster.value in Elements
    requires dayMaster.None? || dateElement.None?
    ensures ElementDelta(dayMaster, dateElement) == 0
  {
  }

  /** The total element change over a list of date elements. */
  function ElementSum(dayMaster: Option<string>, dateElements: seq<Option<string>>): (r: int)
    requires dayMaster.None? || dayMaster.value in Elements
    ensures -10 * |dateElements| <= r <= 15 * |dateElements|
  {
    if |dateElements| == 0 then 0
    else ElementSum(dayMaster, dateElements[..|dateElements| - 1]) + ElementDelta(dayMaster, dateElements[|dateElements| - 1])
  }

  function Abs(x: int): nat
  {
    if x < 0 then -x else x
  }

  /** The clash test as written: `indexOf` gives -1 for a character that is not a
   *  branch, and the distance test still fires for -1 against 巳 (index 5). */
  function ClashAdjustmentAsWritten(birthIndex: int, dateIndex: int): int
  {
    if Abs(birthIndex - dateIndex) == 6 then -15 else 0
  }

  /** The clash adjustment, applied only when both day branches are real branches. */
  function ClashAdjustment(birthIndex: int, dateIndex: int): int
  {
    if birthIndex >= 0 && dateIndex >= 0 && Abs(birthIndex - dateIndex) == 6 then -15 else 0
  }

  /** For real branches the adjustment fires exactly on the six clashing pairs 子午, 丑未, …. */
  lemma ClashAdjustmentRule(i: nat, j: nat)
    requires i < 12 && j < 12
    ensures ClashAdjustment(i, j) == -15 <==> BaziRelationships.ClashTable(BranchChar(i), BranchChar(j)).Some?
    ensures ClashAdjustment(i, j) == ClashAdjustmentAsWritten(i, j)
  {
    BaziRelationships.ClashTableRule(i, j);
  }

  /** `EARTHLY_BRANCHES.indexOf(c)`: -1 for `undefined` and for any character that is not a branch. */
  function BranchIndex(c: Option<char>): (r: int)
    ensures c.Some? ==> r == BranchOrdinal(c.value)
  {
    if c.None? then -1 else BranchOrdinal(c.value)
  }

  /** A day pillar printed before 1900 may have no branch, yet as written it "clashes"
   *  with every 巳 day: -1 and 5 are six apart. */
  lemma ClashAsWrittenSpurious()
    ensures BranchIndex(CharAt(DayPillar(-1), 1)) == -1
    ensures BranchIndex(CharAt(DayPillar(-10), 1)) == -1
    ensures BranchIndex(CharAt(DayPillar(5), 1)) == 5
    ensures ClashAdjustmentAsWritten(-1, 5) == -15
    ensures ClashAdjustment(-1, 5) == 0
  {
    JoinAtText(5, 5);
    assert CharAt(DayPillar(-10), 1) == Some('u');
  }

  /** `indexOf` on the branch list finds each branch at its own index. */
  lemma BranchIndexOf(i: nat)
    requires i < 12
    ensures IndexOfChar(Branches, BranchChar(i)) == i
  {
    TablesDistinct();
  }

  /** `indexOf` on the branch list is the branch ordinal, -1 for any other character. */
  lemma BranchIndexOfOrdinal(c: char)
    ensures IndexOfChar(Branches, c) == BranchOrdinal(c)
  {
    if BranchOrdinal(c) >= 0 {
      assert c == BranchChar(BranchOrdinal(c));
      BranchIndexOf(BranchOrdinal(c));
    } else {
      forall i | 0 <= i < 12
        ensures Branches[i] != c
      {
        BranchOrdinalInverse(i);
      }
    }
  }

  /** The six combining (六合) pairs the score rewards. */
  const CombiningPairs: seq<(int, int)> := [(0, 1), (2, 11), (3, 10), (4, 9), (5, 8), (6, 7)]

  /** Whether a pair holds the two branch indices, in either order. */
  predicate Matches(p: (int, int), b: int, d: int)
  {
    (b == p.0 && d == p.1) || (b == p.1 && d == p.0)
  }

  /** How many of the pairs match the two branch indices. */
  function CombineCount(pairs: seq<(int, int)>, b: int, d: int): nat
  {
    if |pairs| == 0 then 0
    else CombineCount(pairs[..|pairs| - 1], b, d) + (if Matches(pairs[|pairs| - 1], b, d) then 1 else 0)
  }

  lemma {:induction false} CombineCountNone(pairs: seq<(int, int)>, b: int, d: int)
    requires forall k :: 0 <= k < |pairs| ==> !Matches(pairs[k], b, d)
    ensures CombineCount(pairs, b, d) == 0
  {
    if |pairs| > 0 {
      CombineCountNone(pairs[..|pairs| - 1], b, d);
    }
  }

  lemma {:induction false} CombineCountOne(pairs: seq<(int, int)>, b: int, d: int, m: nat)
    requires m < |pairs| && Matches(pairs[m], b, d)
    requires forall k :: 0 <= k < |pairs| && k != m ==> !Matches(pairs[k], b, d)
    ensures CombineCount(pairs, b, d) == 1
  {
    var init := pairs[..|pairs| - 1];
    if m == |pairs| - 1 {
      CombineCountNone(init, b, d);
    } else {
      CombineCountOne(init, b, d, m);
    }
  }

  /** Every combining pair sums to 1 modulo 12, so at most one pair matches, and it
   *  matches exactly when the branches form a 六合. */
  lemma CombineRule(b: int, d: int)
    ensures CombineCount(CombiningPairs, b, d) <= 1
    ensures CombineCount(CombiningPairs, b, d) == 1 <==> 0 <= b < 12 && 0 <= d < 12 && (b + d) % 12 == 1
  {
    var ps := CombiningPairs;
    if 0 <= b < 12 && 0 <= d < 12 && (b + d) % 12 == 1 {
      var lo := if b < d then b else d;
      var m := if lo == 0 then 0 else lo - 1;
      CombineCountOne(ps, b, d, m);
    } else {
      CombineCountNone(ps, b, d);
    }
  }

  lemma CombineIsSixHarmony(i: nat, j: nat)
    requires i < 12 && j < 12
    ensures CombineCount(CombiningPairs, i, j) == 1 <==> BaziRelationships.SixTable(BranchChar(i), BranchChar(j)).Some?
  {
    CombineRule(i, j);
    BaziRelationships.SixTableRule(i, j);
  }

  /** A clash and a combination never both apply: combining indices differ in parity, clashing ones do not. */
  lemma ClashCombineExclusive(b: int, d: int)
    ensures ClashAdjustmentAsWritten(b, d) == 0 || CombineCount(CombiningPairs, b, d) == 0
    ensures ClashAdjustment(b, d) == 0 || CombineCount(CombiningPairs, b, d) == 0
  {
    CombineRule(b, d);
  }

  /** The "randomness" term: the two character codes of the date's day pillar. On the
   *  number NaN `charCodeAt` is no method, and the call throws (None). */
  function DayFactor(day: Joined): (f: Option<int>)
    requires Printed(day)
    ensures f.None? <==> day.NaN?
    ensures f.Some? ==> -10 <= f.value <= 9
  {
    if day.NaN? then None else Some(((day.text[0] as int + day.text[1] as int) % 20) - 10)
  }

  /** `Math.max(0, Math.min(100, x))`. */
  function Clamp(x: int): (r: int)
    ensures 0 <= r <= 100
    ensures 0 <= x <= 100 ==> r == x
    ensures x < 0 ==> r == 0
    ensures x > 100 ==> r == 100
  {
    if x < 0 then 0 else if x > 100 then 100 else x
  }

  /** `getElement` of a looked-up character; `undefined` is in no list. */
  function ElementOf(c: Option<char>): (r: Option<string>)
    ensures r.Some? ==> r.value in Elements
  {
    if c.None? then None
    else
      GetElementUnique(c.value, 0);
      GetElement(c.value)
  }

  /** The elements of the first characters of the chosen date's pillars. */
  function DateElements(date: Pillars): seq<Option<string>>
  {
    [ElementOf(CharAt(date.year, 0)), ElementOf(CharAt(date.month, 0)), ElementOf(CharAt(date.day, 0))]
  }

  /** A pillar as `+` prints it: NaN, or text of at least two characters. */
  predicate Printed(v: Joined)
  {
    v.Text? ==> |v.text| >= 2
  }

  predicate WellFormed(p: Pillars)
  {
    Printed(p.year) && Printed(p.month) && Printed(p.day)
  }

  /** Every pillar `calculatePillars` returns is NaN or at least two characters long. */
  lemma PillarsWellFormed(year: int, month: int, julianDay: int)
    ensures WellFormed(CalculatePillars(year, month, julianDay))
  {
  }

  /** The score before clamping: base 50, the element terms, the clash and combination
   *  terms on the day branches and the day factor; None where the day factor throws.
   *  `guarded` chooses the clash test: as written, or only between real branches. */
  function ScoreWith(birth: Pillars, date: Pillars, guarded: bool): (r: Option<int>)
    requires WellFormed(birth) && WellFormed(date)
    ensures r.None? <==> date.day.NaN?
  {
    var dm := ElementOf(CharAt(birth.day, 0));
    var bi, di := BranchIndex(CharAt(birth.day, 1)), BranchIndex(CharAt(date.day, 1));
    var clash := if guarded then ClashAdjustment(bi, di) else ClashAdjustmentAsWritten(bi, di);
    var factor := DayFactor(date.day);
    if factor.None? then None
    else Some(50 + ElementSum(dm, DateElements(date)) + clash + 20 * CombineCount(CombiningPairs, bi, di) + factor.value)
  }

  /** The score before clamping as the program computes it. */
  function RawScore(birth: Pillars, date: Pillars): Option<int>
    requires WellFormed(birth) && WellFormed(date)
  {
    ScoreWith(birth, date, false)
  }

  /** The score the clash rule intends: no clash unless both day branches are branches. */
  function IntendedRawScore(birth: Pillars, date: Pillars): Option<int>
    requires WellFormed(birth) && WellFormed(date)
  {
    ScoreWith(birth, date, true)
  }

  /** Before clamping the score lies in [-5, 124], so both bounds of the clamp can bite;
   *  it is missing exactly when the date's day pillar is NaN. */
  lemma RawScoreRange(birth: Pillars, date: Pillars)
    requires WellFormed(birth) && WellFormed(date)
    ensures RawScore(birth, date).None? <==> date.day.NaN?
    ensures RawScore(birth, date).Some? ==> -5 <= RawScore(birth, date).value <= 124
    ensures IntendedRawScore(birth, date).Some? ==> -5 <= IntendedRawScore(birth, date).value <= 124
  {
    var bi, di := BranchIndex(CharAt(birth.day, 1)), BranchIndex(CharAt(date.day, 1));
    CombineRule(bi, di);
    ClashCombineExclusive(bi, di);
  }

  /** When both day pillars carry a real branch the program's score is the intended one;
   *  a pillar with no branch against a 巳 day loses 15 points it should keep. */
  lemma ScoreAgainstIntended(birth: Pillars, date: Pillars)
    requires WellFormed(birth) && WellFormed(date)
    ensures var bi, di := BranchIndex(CharAt(birth.day, 1)), BranchIndex(CharAt(date.day, 1));
      bi >= 0 && di >= 0 ==> RawScore(birth, date) == IntendedRawScore(birth, date)
    ensures BranchIndex(CharAt(birth.day, 1)) == -1 && BranchIndex(CharAt(date.day, 1)) == 5 && date.day.Text? ==>
      RawScore(birth, date).value == IntendedRawScore(birth, date).value - 15
  {
    var bi, di := BranchIndex(CharAt(birth.day, 1)), BranchIndex(CharAt(date.day, 1));
    if bi >= 0 && di >= 0 && bi < 12 && di < 12 {
      ClashAdjustmentRule(bi, di);
    }
  }

  /** The clamped score. */
  function FortuneScore(birth: Pillars, date: Pillars): (r: Option<int>)
    requires WellFormed(birth) && WellFormed(date)
    ensures r.None? <==> date.day.NaN?
    ensures r.Some? ==> 0 <= r.value <= 100
  {
    var raw := RawScore(birth, date);
    if raw.None? then None else Some(Clamp(raw.value))
  }

  /** The `forEach` over the date's elements: the sum of their deltas. */
  method SumElementDeltas(dayMaster: Option<string>, dateElements: seq<Option<string>>) returns (delta: int)
    requires dayMaster.None? || dayMaster.value in Elements
    ensures delta == ElementSum(dayMaster, dateElements)
  {
    delta := 0;
    for i := 0 to |dateElements|
      invariant delta == ElementSum(dayMaster, dateElements[..i])
    {
      assert dateElements[..i + 1][..i] == dateElements[..i];
      var dateElement := dateElements[i];
      if dateElement.Some? && dayMaster.Some? {
        var relation := ElementRelation(dayMaster.value).value;
        if relation.generates == dateElement.value {
          delta := delta + 15;
        } else if relation.controlledBy == dateElement.value {
          delta := delta - 10;
        } else if dateElement.value == dayMaster.value {
          delta := delta + 10;
        }
      }
    }
    assert dateElements[..|dateElements|] == dateElements;
  }

  /** The loop over `combiningPairs`: 20 for each pair the two branch indices form. */
  method CombineBonus(birthIndex: int, dateIndex: int) returns (bonus: int)
    ensures bonus == 20 * CombineCount(CombiningPairs, birthIndex, dateIndex)
  {
    bonus := 0;
    for k := 0 to |CombiningPairs|
      invariant bonus == 20 * CombineCount(CombiningPairs[..k], birthIndex, dateIndex)
    {
      assert CombiningPairs[..k + 1][..k] == CombiningPairs[..k];
      var (a, b) := CombiningPairs[k];
      if (birthIndex == a && dateIndex == b) || (birthIndex == b && dateIndex == a) {
        bonus := bonus + 20;
      }
    }
    assert CombiningPairs[..|CombiningPairs|] == CombiningPairs;
  }

  /** `calculateFortuneScore` on pillars from `calculatePillars`; None where it throws. */
  method CalculateFortuneScore(birth: Pillars, date: Pillars) returns (score: Option<int>)
    requires WellFormed(birth) && WellFormed(date)
    ensures score == FortuneScore(birth, date)
  {
    var total := 50;
    var dayMaster := ElementOf(CharAt(birth.day, 0));
    var delta := SumElementDeltas(dayMaster, DateElements(date));
    total := total + delta;
    var birthIndex := BranchIndex(CharAt(birth.day, 1));
    var dateIndex := BranchIndex(CharAt(date.day, 1));
    if Abs(birthIndex - dateIndex) == 6 {
      total := total - 15;
    }
    var bonus := CombineBonus(birthIndex, dateIndex);
    total := total + bonus;
    if date.day.NaN? {
      return None;
    }
    total := total + ((date.day.text[0] as int + date.day.text[1] as int) % 20) - 10;
    score := Some(if total < 0 then 0 else if total > 100 then 100 else total);
  }

  /** One entry of `FORTUNE_LEVELS`. */
  datatype Band = Band(level: string, min: int, max: int, background: string, text: string)

  const FortuneLevels: seq<Band> := [
    Band("大吉", 90, 100, "#6BA547", "#FFFFFF"),
    Band("中吉", 75, 89, "#B8D87A", "#FFFFFF"),
    Band("吉", 60, 74, "#D4E79E", "#374151"),
    Band("凶", 40, 59, "#F5A623", "#FFFFFF"),
    Band("中凶", 20, 39, "#E85D3A", "#FFFFFF"),
    Band("大凶", 0, 19, "#C62828", "#FFFFFF")]

  /** The level, score and colours `getFortuneLevel` returns. */
  datatype Fortune = Fortune(level: string, score: int, background: string, text: string)

  predicate InBand(b: Band, score: int)
  {
    b.min <= score <= b.max
  }

  function FromBand(b: Band, score: int): Fortune
  {
    Fortune(b.level, score, b.background, b.text)
  }

  /** The fallback `getFortuneLevel` returns when no band holds the score. */
  const DefaultFortuneBand: Band := Band("中吉", 75, 89, "#B8D87A", "#FFFFFF")

  /** The levels by threshold: 90 and up 大吉, 75 中吉, 60 吉, 40 凶, 20 中凶, 0 大凶. */
  function LevelFor(score: int): Band
  {
    if score > 100 || score < 0 then DefaultFortuneBand
    else if score >= 90 then FortuneLevels[0]
    else if score >= 75 then FortuneLevels[1]
    else if score >= 60 then FortuneLevels[2]
    else if score >= 40 then FortuneLevels[3]
    else if score >= 20 then FortuneLevels[4]
    else FortuneLevels[5]
  }

  /** `getFortuneLevel`: the first band, in table order, that holds the score. */
  method GetFortuneLevel(score: int) returns (f: Fortune)
    ensures f == FromBand(LevelFor(score), score)
  {
    var k := 0;
    while k < |FortuneLevels|
      invariant 0 <= k <= |FortuneLevels|
      invariant forall j :: 0 <= j < k ==> !InBand(FortuneLevels[j], score)
    {
      var range := FortuneLevels[k];
      if score >= range.min && score <= range.max {
        return Fortune(range.level, score, range.background, range.text);
      }
      k := k + 1;
    }
    return Fortune("中吉", score, "#B8D87A", "#FFFFFF");
  }

  /** The bands partition 0..100: every score there lies in exactly one band, which is
   *  the one the thresholds choose, so the fallback is never taken. */
  lemma BandsPartition(score: int)
    requires 0 <= score <= 100
    ensures InBand(LevelFor(score), score)
    ensures exists k :: 0 <= k < |FortuneLevels| && LevelFor(score) == FortuneLevels[k]
    ensures forall k :: 0 <= k < |FortuneLevels| && InBand(FortuneLevels[k], score) ==> FortuneLevels[k] == LevelFor(score)
  {
  }

  /** Outside 0..100 no band holds the score and the 中吉 colours come back. */
  lemma OutOfRangeFallback(score: int)
    requires score < 0 || score > 100
    ensures forall k :: 0 <= k < |FortuneLevels| ==> !InBand(FortuneLevels[k], score)
    ensures LevelFor(score) == DefaultFortuneBand
  {
  }

  /** The description and recommendations `generateFortuneDetails` returns. */
  datatype Details = Details(description: string, recommendations: seq<string>)

  /** The `descriptions` dictionary. */
  function Description(level: string): Option<string>
  {
    if level == "大吉" then Some("今日運勢極佳！諸事順遂，把握機會積極進取。")
    else if level == "中吉" then Some("今日運勢良好，適合處理重要事務，保持積極心態。")
    else if level == "吉" then Some("今日運勢平穩向上，穩扎穩打可獲得不錯成果。")
    else if level == "凶" then Some("今日運勢起伏較大，謹慎行事，避免重大決策。")
    else if level == "中凶" then Some("今日運勢欠佳，宜保守行事，注意言行舉止。")
    else if level == "大凶" then Some("今日運勢不利，諸事宜靜不宜動，多加小心謹慎。")
    else None
  }

  /** The `recommendations` dictionary: wealth, love, health and career, in that order. */
  function Recommendations(level: string): Option<seq<string>>
  {
    if level == "大吉" then Some(["財運：適合投資理財，商談合作", "感情：桃花運旺，利於表白約會", "健康：精神飽滿，適合運動健身", "事業：貴人相助，宜主動出擊"])
    else if level == "中吉" then Some(["財運：收入穩定，可嘗試小額投資", "感情：感情和睦，適合溝通交流", "健康：身體狀況良好，注意飲食", "事業：工作順利，可推進重要項目"])
    else if level == "吉" then Some(["財運：量入為出，避免衝動消費", "感情：平淡是福，珍惜眼前人", "健康：適度休息，保持規律作息", "事業：按部就班，穩步前進"])
    else if level == "凶" then Some(["財運：不宜投資，謹防破財", "感情：避免爭執，多加包容", "健康：注意安全，避免意外", "事業：低調行事，避免樹敵"])
    else if level == "中凶" then Some(["財運：財運欠佳，守財為上", "感情：易有口角，控制情緒", "健康：注意身體，及時就醫", "事業：暫緩計劃，以守為攻"])
    else if level == "大凶" then Some(["財運：嚴防破財，切勿投資", "感情：避免衝突，冷靜處理", "健康：謹防疾病，多加休息", "事業：諸事不宜，靜待時機"])
    else None
  }

  /** `generateFortuneDetails`: the level's texts, or the 中吉 texts for an unknown level. */
  function GenerateFortuneDetails(level: string): (d: Details)
    ensures |d.recommendations| == 4
    ensures Description(level).None? ==> d.description == Description("中吉").value
    ensures Recommendations(level).None? ==> d.recommendations == Recommendations("中吉").value
    ensures Description(level).Some? ==> d.description == Description(level).value
    ensures Recommendations(level).Some? ==> d.recommendations == Recommendations(level).value
  {
    Details(
      if Description(level).Some? then Description(level).value else Description("中吉").value,
      if Recommendations(level).Some? then Recommendations(level).value else Recommendations("中吉").value)
  }

  /** Both dictionaries hold exactly the six band names, so every level `getFortuneLevel`
   *  returns finds its own texts. */
  lemma DetailsCoverBands(level: string)
    ensures Description(level).Some? <==> exists k :: 0 <= k < |FortuneLevels| && FortuneLevels[k].level == level
    ensures Recommendations(level).Some? <==> Description(level).Some?
  {
    if Description(level).Some? {
      var k := if level == "大吉" then 0 else if level == "中吉" then 1 else if level == "吉" then 2
        else if level == "凶" then 3 else if level == "中凶" then 4 else 5;
      assert FortuneLevels[k].level == level;
    }
  }
}
