/** The yearly ganzhi and the simplified four pillars of the ganzhi-analysis route. */
module GanzhiAnalysis {
  import opened Wrappers
  import opened Ganzhi

  /** `getYearlyStems`: the stem and branch of a year, `undefined` before year 4. */
  datatype StemBranch = StemBranch(stem: Option<char>, branch: Option<char>)

  function GetYearlyStems(year: int): (r: StemBranch)
    ensures year >= 4 ==> r == StemBranch(Some(StemChar((year - 4) % 10)), Some(BranchChar((year - 4) % 12)))
  {
    StemBranch(At(Stems, JsRem(year - 4, 10)), At(Branches, JsRem(year - 4, 12)))
  }

  /** The local calendar fields of `new Date(birthDateTime)`; parsing the string is not modelled. */
  datatype DateTime = DateTime(year: int, month: int, day: int, hour: int)

  predicate ValidDateTime(t: DateTime)
  {
    t.year >= 4 && 1 <= t.month <= 12 && 1 <= t.day <= 31 && 0 <= t.hour <= 23
  }

  datatype FourPillars = FourPillars(year: string, month: string, day: string, hour: string)

  /** A pillar printed from two table lookups. */
  function LookupPillar(stemIndex: int, branchIndex: int): string
  {
    Show(At(Stems, stemIndex)) + Show(At(Branches, branchIndex))
  }

  lemma LookupPillarText(stem: int, branch: int)
    requires 0 <= stem < 10 && 0 <= branch < 12
    ensures LookupPillar(stem, branch) == PillarText(stem, branch)
  {
  }

  /** `generateBaZi`. `parsed` is the date the string parses to, `None` for an Invalid
   *  Date, whose NaN fields index nothing. */
  function GenerateBaZi(birthDateTime: string, parsed: Option<DateTime>): (r: Option<FourPillars>)
    ensures r.None? <==> birthDateTime == ""
  {
    if birthDateTime == "" then None
    else if parsed.None? then
      var u := Show(None) + Show(None);
      Some(FourPillars(u, u, u, u))
    else
      var t := parsed.value;
      var y := GetYearlyStems(t.year);
      Some(FourPillars(
        Show(y.stem) + Show(y.branch),
        LookupPillar(JsRem(t.month - 1, 10), JsRem(t.month - 1, 12)),
        LookupPillar(JsRem(t.day - 1, 10), JsRem(t.day - 1, 12)),
        LookupPillar(JsRem(JsFloorDiv(t.hour, 2), 10), JsRem(JsFloorDiv(t.hour, 2), 12))))
  }

  /** `Math.floor(a / b)` for a positive divisor. */
  function JsFloorDiv(a: int, b: int): (r: int)
    requires b > 0
    ensures b * r <= a < b * r + b
  {
    a / b
  }

  /** The pillar at position `k` of the sixty-pillar cycle. */
  function CyclePillar(k: nat): string
  {
    PillarText(k % 10, k % 12)
  }

  lemma ModOfMod60(n: nat)
    ensures n % 60 % 10 == n % 10 && n % 60 % 12 == n % 12
  {
    var q := n / 60;
    assert n == 10 * (6 * q) + n % 60;
    assert n == 12 * (5 * q) + n % 60;
  }

  /** The indices of each pillar of a valid date. */
  lemma PillarIndices(birthDateTime: string, t: DateTime)
    requires birthDateTime != "" && ValidDateTime(t)
    ensures GenerateBaZi(birthDateTime, Some(t)) == Some(FourPillars(
      PillarText((t.year - 4) % 10, (t.year - 4) % 12),
      PillarText((t.month - 1) % 10, (t.month - 1) % 12),
      PillarText((t.day - 1) % 10, (t.day - 1) % 12),
      PillarText(t.hour / 2 % 10, t.hour / 2 % 12)))
  {
    var y := GetYearlyStems(t.year);
    assert Show(y.stem) + Show(y.branch) == PillarText((t.year - 4) % 10, (t.year - 4) % 12);
    LookupPillarText((t.month - 1) % 10, (t.month - 1) % 12);
    LookupPillarText((t.day - 1) % 10, (t.day - 1) % 12);
    LookupPillarText(t.hour / 2 % 10, t.hour / 2 % 12);
  }

  /** Each pillar of a valid date is one of the sixty: the year at (y−4) mod 60, the month
   *  at m−1, the day at d−1 and the hour at ⌊h/2⌋. */
  lemma PillarsInCycle(birthDateTime: string, t: DateTime)
    requires birthDateTime != "" && ValidDateTime(t)
    ensures var r := GenerateBaZi(birthDateTime, Some(t));
      && r.Some? && r.value.year == CyclePillar((t.year - 4) % 60)
      && r.value.month == CyclePillar(t.month - 1) && r.value.day == CyclePillar(t.day - 1)
      && r.value.hour == CyclePillar(t.hour / 2)
  {
    YearPillarInCycle(birthDateTime, t);
    OtherPillarsInCycle(birthDateTime, t);
  }

  /** The month, day and hour pillars of a valid date sit at m−1, d−1 and ⌊h/2⌋. */
  lemma OtherPillarsInCycle(birthDateTime: string, t: DateTime)
    requires birthDateTime != "" && ValidDateTime(t)
    ensures var p := GenerateBaZi(birthDateTime, Some(t)).value;
      && p.month == CyclePillar(t.month - 1) && p.day == CyclePillar(t.day - 1)
      && p.hour == CyclePillar(t.hour / 2)
  {
    MonthInCycle(birthDateTime, t);
    DayInCycle(birthDateTime, t);
    HourInCycle(birthDateTime, t);
  }

  /** The year pillar of a valid date sits at (y−4) mod 60. */
  lemma YearPillarInCycle(birthDateTime: string, t: DateTime)
    requires birthDateTime != "" && ValidDateTime(t)
    ensures GenerateBaZi(birthDateTime, Some(t)).value.year == CyclePillar((t.year - 4) % 60)
  {
    var y := GetYearlyStems(t.year);
    YearInCycle(t.year - 4);
    assert Show(y.stem) + Show(y.branch) == PillarText((t.year - 4) % 10, (t.year - 4) % 12);
  }

  lemma MonthInCycle(birthDateTime: string, t: DateTime)
    requires birthDateTime != "" && ValidDateTime(t)
    ensures GenerateBaZi(birthDateTime, Some(t)).value.month == CyclePillar(t.month - 1)
  {
    LookupInCycle(t.month - 1);
  }

  lemma DayInCycle(birthDateTime: string, t: DateTime)
    requires birthDateTime != "" && ValidDateTime(t)
    ensures GenerateBaZi(birthDateTime, Some(t)).value.day == CyclePillar(t.day - 1)
  {
    LookupInCycle(t.day - 1);
  }

  lemma HourInCycle(birthDateTime: string, t: DateTime)
    requires birthDateTime != "" && ValidDateTime(t)
    ensures GenerateBaZi(birthDateTime, Some(t)).value.hour == CyclePillar(t.hour / 2)
  {
    LookupInCycle(t.hour / 2);
  }

  /** Looking up position `k` in both tables prints the cycle's pillar `k`. */
  lemma LookupInCycle(k: nat)
    ensures LookupPillar(JsRem(k, 10), JsRem(k, 12)) == CyclePillar(k)
  {
    LookupPillarText(k % 10, k % 12);
  }

  /** A year's place in the cycle gives back its stem and branch. */
  lemma YearInCycle(n: nat)
    ensures CyclePillar(n % 60) == PillarText(n % 10, n % 12)
  {
    ModOfMod60(n);
  }

  /** Each pillar of a valid date is exactly one stem followed by one branch. */
  lemma PillarsAreStemBranch(birthDateTime: string, t: DateTime)
    requires birthDateTime != "" && ValidDateTime(t)
    ensures var p := GenerateBaZi(birthDateTime, Some(t)).value;
      forall s :: s in [p.year, p.month, p.day, p.hour] ==> |s| == 2 && s[0] in Stems && s[1] in Branches
  {
    PillarIndices(birthDateTime, t);
  }

  /** An unparseable date prints `undefined` for every lookup. */
  lemma InvalidDatePillars(birthDateTime: string)
    requires birthDateTime != ""
    ensures var p := GenerateBaZi(birthDateTime, None).value;
      p.year == p.month == p.day == p.hour == "undefinedundefined"
  {
  }
}
