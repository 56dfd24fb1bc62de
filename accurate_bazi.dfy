/** `accurateBaziCalculation.js`: the input date string the calendar library receives, and the
 *  arithmetic fallback that stands in when the library fails. The calendar library itself and
 *  JavaScript's `Date` are not modelled: the fallback receives the year, month, hour and the
 *  whole days since 1900-01-01 that `Date` would give. */
module AccurateBazi {
  import opened Wrappers
  import opened Ganzhi
  import MonthTable

  /** The time of day appended to a bare date. */
  const Noon: string := " 12:00:00"

  /** The string handed to the calendar library: a string with neither `T` nor a space gets
   *  noon appended; any other string goes through `moment(...).format(...)`, which is given. */
  function DateString(birthDateTime: string, momentFormatted: string): (r: string)
    ensures 'T' !in birthDateTime && ' ' !in birthDateTime ==> r == birthDateTime + Noon
    ensures 'T' in birthDateTime || ' ' in birthDateTime ==> r == momentFormatted
  {
    if 'T' !in birthDateTime && ' ' !in birthDateTime then birthDateTime + Noon else momentFormatted
  }

  /** Noon is appended at most once: a defaulted string holds a space, so defaulting it again
   *  hands it to the formatter instead. */
  lemma NoonAppendedOnce(date: string, momentFormatted: string, again: string)
    requires 'T' !in date && ' ' !in date
    ensures DateString(DateString(date, momentFormatted), again) == again
  {
    assert (date + Noon)[|date|] == ' ';
  }

  /** The eight indices of `calculateFallbackBaZi`, as JavaScript computes them: `%` keeps the
   *  sign of its left operand, so dates before year 4 or before 1900 give negative indices. */
  datatype Indices = Indices(
    yearStem: int, yearBranch: int, dayStem: int, dayBranch: int,
    monthStem: int, monthBranch: int, hourBranch: int, hourStem: int)

  /** `Math.floor((hour + 1) / 2) % 12`: the two-hour period, with 23:00 starting 子. */
  function HourBranchIndex(hour: int): (r: int)
    ensures hour >= -1 ==> 0 <= r < 12
  {
    JsRem((hour + 1) / 2, 12)
  }

  function FallbackIndices(year: int, month: int, daysSinceReference: int, hour: int): (r: Indices)
    ensures year >= 4 ==> 0 <= r.yearStem < 10 && 0 <= r.yearBranch < 12
    ensures daysSinceReference >= 0 ==> 0 <= r.dayStem < 10 && 0 <= r.dayBranch < 12
    ensures year >= 4 && month >= 1 ==> 0 <= r.monthStem < 10
    ensures month >= 0 ==> 0 <= r.monthBranch < 12
  {
    var dayStem := JsRem(daysSinceReference + 9, 10);
    var hourBranch := HourBranchIndex(hour);
    Indices(
      JsRem(year - 4, 10), JsRem(year - 4, 12),
      dayStem, JsRem(daysSinceReference + 11, 12),
      JsRem((year - 4) * 12 + month - 1, 10), JsRem(month + 1, 12),
      hourBranch, JsRem(dayStem * 12 + hourBranch, 10))
  }

  /** The object `calculateFallbackBaZi` returns; a missing array entry is `undefined` (None). */
  datatype FallbackBaZi = FallbackBaZi(
    year: Joined, month: Joined, day: Joined, hour: Joined,
    dayMaster: Option<char>, dayBranch: Option<char>, monthBranch: Option<char>,
    yearStem: Option<char>, yearBranch: Option<char>, monthStem: Option<char>,
    dayStem: Option<char>, hourStem: Option<char>, hourBranch: Option<char>,
    dayElement: string, yearElement: string)

  function CalculateFallbackBaZi(year: int, month: int, daysSinceReference: int, hour: int): FallbackBaZi
  {
    var ix := FallbackIndices(year, month, daysSinceReference, hour);
    var yearStem, yearBranch := At(Stems, ix.yearStem), At(Branches, ix.yearBranch);
    var dayStem, dayBranch := At(Stems, ix.dayStem), At(Branches, ix.dayBranch);
    var monthStem, monthBranch := At(Stems, ix.monthStem), At(Branches, ix.monthBranch);
    var hourStem, hourBranch := At(Stems, ix.hourStem), At(Branches, ix.hourBranch);
    FallbackBaZi(
      JoinAt(ix.yearStem, ix.yearBranch), JoinAt(ix.monthStem, ix.monthBranch),
      JoinAt(ix.dayStem, ix.dayBranch), JoinAt(ix.hourStem, ix.hourBranch),
      dayStem, dayBranch, monthBranch, yearStem, yearBranch, monthStem,
      dayStem, hourStem, hourBranch,
      ElementOrEarth(dayStem), ElementOrEarth(yearStem))
  }

  /** Inputs a real date produces: a year from 4 on, a month 1-12, a day on or after
   *  1900-01-01 and an hour 0-23. */
  predicate ValidInput(year: int, month: int, daysSinceReference: int, hour: int)
  {
    year >= 4 && 1 <= month <= 12 && daysSinceReference >= 0 && 0 <= hour <= 23
  }

  /** For such inputs the indices are the Euclidean remainders of the formulas. */
  lemma FallbackIndexFormulas(year: int, month: int, daysSinceReference: int, hour: int)
    requires ValidInput(year, month, daysSinceReference, hour)
    ensures var ix := FallbackIndices(year, month, daysSinceReference, hour);
      && ix.yearStem == (year - 4) % 10 && ix.yearBranch == (year - 4) % 12
      && ix.dayStem == (daysSinceReference + 9) % 10 && ix.dayBranch == (daysSinceReference + 11) % 12
      && ix.monthStem == ((year - 4) * 12 + month - 1) % 10 && ix.monthBranch == (month + 1) % 12
      && ix.hourBranch == ((hour + 1) / 2) % 12 && ix.hourStem == (ix.dayStem * 12 + ix.hourBranch) % 10
  {
    var ix := FallbackIndices(year, month, daysSinceReference, hour);
    assert ix.dayStem * 12 + ix.hourBranch >= 0;
  }

  /** For such inputs every index lies inside its table, so each pillar is the text of the
   *  stem and the branch of its two indices. */
  lemma FallbackPillars(year: int, month: int, daysSinceReference: int, hour: int, ix: Indices)
    requires ValidInput(year, month, daysSinceReference, hour)
    requires ix == FallbackIndices(year, month, daysSinceReference, hour)
    ensures 0 <= ix.yearStem < 10 && 0 <= ix.monthStem < 10 && 0 <= ix.dayStem < 10 && 0 <= ix.hourStem < 10
    ensures 0 <= ix.yearBranch < 12 && 0 <= ix.monthBranch < 12 && 0 <= ix.dayBranch < 12 && 0 <= ix.hourBranch < 12
    ensures CalculateFallbackBaZi(year, month, daysSinceReference, hour).year == Text(PillarText(ix.yearStem, ix.yearBranch))
    ensures CalculateFallbackBaZi(year, month, daysSinceReference, hour).month == Text(PillarText(ix.monthStem, ix.monthBranch))
    ensures CalculateFallbackBaZi(year, month, daysSinceReference, hour).day == Text(PillarText(ix.dayStem, ix.dayBranch))
    ensures CalculateFallbackBaZi(year, month, daysSinceReference, hour).hour == Text(PillarText(ix.hourStem, ix.hourBranch))
  {
    assert ix.dayStem * 12 + ix.hourBranch >= 0;
    JoinAtText(ix.yearStem, ix.yearBranch);
    JoinAtText(ix.monthStem, ix.monthBranch);
    JoinAtText(ix.dayStem, ix.dayBranch);
    JoinAtText(ix.hourStem, ix.hourBranch);
  }

  /** For such inputs the day master is the day stem and the elements are those of the stems. */
  lemma FallbackFields(year: int, month: int, daysSinceReference: int, hour: int)
    requires ValidInput(year, month, daysSinceReference, hour)
    ensures var r, ix := CalculateFallbackBaZi(year, month, daysSinceReference, hour),
      FallbackIndices(year, month, daysSinceReference, hour);
      && 0 <= ix.dayStem < 10 && 0 <= ix.yearStem < 10
      && r.dayMaster == r.dayStem == Some(Stems[ix.dayStem])
      && r.dayElement == StemElement(ix.dayStem) && r.yearElement == StemElement(ix.yearStem)
  {
    var ix := FallbackIndices(year, month, daysSinceReference, hour);
    StemElementOfRule(Stems[ix.dayStem]);
    StemElementOfRule(Stems[ix.yearStem]);
  }

  /** The pillars are sums of two lookups: for the year 3 both year remainders are -1, and
   *  the year pillar is the number NaN rather than text. */
  lemma FallbackYearBeforeFour(month: int, daysSinceReference: int, hour: int)
    ensures CalculateFallbackBaZi(3, month, daysSinceReference, hour).year == NaN
  {
  }

  /** Every fallback pillar is one of the sixty of the cycle: stem and branch index share
   *  their parity (yang stems go with yang branches). */
  lemma FallbackPillarsInCycle(year: int, month: int, daysSinceReference: int, hour: int)
    requires ValidInput(year, month, daysSinceReference, hour)
    ensures var ix := FallbackIndices(year, month, daysSinceReference, hour);
      && ix.yearStem % 2 == ix.yearBranch % 2 && ix.monthStem % 2 == ix.monthBranch % 2
      && ix.dayStem % 2 == ix.dayBranch % 2 && ix.hourStem % 2 == ix.hourBranch % 2
  {
    var ix := FallbackIndices(year, month, daysSinceReference, hour);
    FallbackIndexFormulas(year, month, daysSinceReference, hour);
    YearParity(year - 4);
    DayParity(daysSinceReference);
    MonthParity(year - 4, month);
    HourParity(ix.dayStem, ix.hourBranch);
  }

  lemma YearParity(y: nat)
    ensures y % 10 % 2 == y % 12 % 2
  {
    EvenModParity(y, 10);
    EvenModParity(y, 12);
  }

  lemma DayParity(d: nat)
    ensures (d + 9) % 10 % 2 == (d + 11) % 12 % 2
  {
    EvenModParity(d + 9, 10);
    EvenModParity(d + 11, 12);
    ParityShift(d + 9, 1);
  }

  lemma MonthParity(y: nat, month: int)
    requires 1 <= month <= 12
    ensures (y * 12 + month - 1) % 10 % 2 == (month + 1) % 12 % 2
  {
    EvenModParity(y * 12 + month - 1, 10);
    EvenModParity(month + 1, 12);
    assert y * 12 + month - 1 == 2 * (6 * y - 1) + (month + 1);
  }

  lemma HourParity(dayStem: nat, hourBranch: nat)
    ensures (dayStem * 12 + hourBranch) % 10 % 2 == hourBranch % 2
  {
    EvenModParity(dayStem * 12 + hourBranch, 10);
    assert dayStem * 12 + hourBranch == 2 * (6 * dayStem) + hourBranch;
  }

  /** 23:00 and midnight both fall in the 子 period, and each later period covers an odd
   *  hour and the even hour after it. */
  lemma HourPeriods(h: int)
    requires 1 <= h <= 21 && h % 2 == 1
    ensures HourBranchIndex(23) == 0 && HourBranchIndex(0) == 0
    ensures HourBranchIndex(h) == HourBranchIndex(h + 1) == (h + 1) / 2
  {
  }

  /** The hour stem is the 五鼠遁 rule: the 子 hour of a day with stem `d` has stem `2d mod 10`,
   *  and each later period advances one stem. */
  lemma HourStemRule(dayStem: nat, hourBranch: nat)
    ensures (dayStem * 12 + hourBranch) % 10 == (2 * (dayStem % 5) + hourBranch) % 10
  {
    var q, e := dayStem / 5, dayStem % 5;
    assert dayStem == 5 * q + e;
    assert dayStem * 12 + hourBranch == (2 * e + hourBranch) + 10 * (6 * q + e);
    ModTenShift(2 * e + hourBranch, 6 * q + e);
  }

  /** From March on the fallback's month stem is the 五虎遁 table's stem for the same year. */
  lemma MonthStemMatchesTable(year: int, month: int)
    requires year >= 4 && 3 <= month <= 12
    ensures ((year - 4) * 12 + month - 1) % 10
      == (MonthTable.FirstMonthStem((year - 4) % 10) + (month + 9) % 12) % 10
  {
    var i := (year - 4) % 10;
    var e := i % 5;
    YearTermParts(year - 4, month - 1);
    assert (month + 9) % 12 == month - 3;
    assert MonthTable.FirstMonthStem(i) == (2 * e + 2) % 10;
    AddMod10(2 * e + 2, month - 3);
  }

  lemma AddMod10(a: nat, b: nat)
    ensures (a % 10 + b) % 10 == (a + b) % 10
  {
    assert a + b == 10 * (a / 10) + (a % 10 + b);
  }

  /** In January and February it is the table's stem for the previous year, whose row those
   *  months close. */
  lemma MonthStemJanuaryFebruary(year: int, month: int)
    requires year >= 5 && 1 <= month <= 2
    ensures ((year - 4) * 12 + month - 1) % 10
      == (MonthTable.FirstMonthStem((year - 5) % 10) + (month + 9) % 12) % 10
  {
    var i := (year - 5) % 10;
    YearTermParts(year - 5, month + 11);
    assert (year - 4) * 12 + month - 1 == (year - 5) * 12 + (month + 11);
    assert (month + 9) % 12 == month + 9;
    assert MonthTable.FirstMonthStem(i) == (2 * (i % 5) + 2) % 10;
  }

  /** `(12 y + m) mod 10` in terms of the stem cycle of `y`. */
  lemma YearTermParts(y: nat, m: nat)
    ensures (y * 12 + m) % 10 == (2 * (y % 10 % 5) + m) % 10
  {
    HourStemRule(y, m);
    assert y % 10 % 5 == y % 5;
  }
}
