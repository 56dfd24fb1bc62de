/** The individual-analysis route: the birth time defaulted to noon, the four pillars with
 *  an hour pillar from the actual birth hour, and the fixed chart used when the
 *  calculation throws. The calendar library and `Date` parsing are not modelled; their
 *  results are inputs. */
module IndividualAnalysis {
  import opened Wrappers
  import opened Ganzhi
  import BaziCalculator
  import AccurateBazi

  /** A bare date (no `T`, no space) gets ` 12:00`; anything else is kept. */
  function FullDateTime(birthDateTime: string): (r: string)
    ensures 'T' !in birthDateTime && ' ' !in birthDateTime ==> r == birthDateTime + " 12:00"
    ensures 'T' in birthDateTime || ' ' in birthDateTime ==> r == birthDateTime
  {
    if 'T' !in birthDateTime && ' ' !in birthDateTime then birthDateTime + " 12:00" else birthDateTime
  }

  /** Defaulting is idempotent: the completed string holds a space. */
  lemma FullDateTimeIdempotent(birthDateTime: string)
    ensures FullDateTime(FullDateTime(birthDateTime)) == FullDateTime(birthDateTime)
  {
    if 'T' !in birthDateTime && ' ' !in birthDateTime {
      assert (birthDateTime + " 12:00")[|birthDateTime|] == ' ';
    }
  }

  /** The hour pillar: the branch of the period and the stem `(dayStemIndex * 12 + branch) % 10`,
   *  where `indexOf` gives -1 for a day stem that is not one of the ten. */
  function HourPillar(hour: int, dayStem: Option<char>): string
  {
    HourPillarAt(hour, if dayStem.Some? then StemOrdinal(dayStem.value) else -1)
  }

  /** The hour pillar from the day stem's index. */
  function HourPillarAt(hour: int, dayStemIndex: int): string
  {
    var hourBranchIndex := AccurateBazi.HourBranchIndex(hour);
    Show(At(Stems, JsRem(dayStemIndex * 12 + hourBranchIndex, 10))) + Show(At(Branches, hourBranchIndex))
  }

  /** For a real hour and day stem the hour pillar is the 五鼠遁 pillar: the 子 hour of a
   *  day with stem `d` has stem `2d mod 10`, and each period advances one stem and one branch. */
  lemma HourPillarRule(hour: int, d: nat)
    requires 0 <= hour <= 23 && d < 10
    ensures var b := (hour + 1) / 2 % 12;
      HourPillar(hour, Some(StemChar(d))) == PillarText((2 * (d % 5) + b) % 10, b)
  {
    StemOrdinalInverse(d);
    assert HourPillar(hour, Some(StemChar(d))) == HourPillarAt(hour, d);
    HourIndicesByRule(hour, d, (hour + 1) / 2 % 12, (2 * (d % 5) + (hour + 1) / 2 % 12) % 10);
    HourPillarAtIndices(hour, d, (hour + 1) / 2 % 12, (2 * (d % 5) + (hour + 1) / 2 % 12) % 10);
  }

  /** The same pillar in the fallback calculators' terms: stem index `(d * 12 + b) % 10`. */
  lemma HourPillarByIndices(hour: int, d: nat)
    requires 0 <= hour <= 23 && d < 10
    ensures var b := (hour + 1) / 2 % 12;
      HourPillar(hour, Some(StemChar(d))) == PillarText((d * 12 + b) % 10, b)
  {
    StemOrdinalInverse(d);
    assert HourPillar(hour, Some(StemChar(d))) == HourPillarAt(hour, d);
    HourIndices(hour, d, (hour + 1) / 2 % 12, (d * 12 + (hour + 1) / 2 % 12) % 10);
    HourPillarAtIndices(hour, d, (hour + 1) / 2 % 12, (d * 12 + (hour + 1) / 2 % 12) % 10);
  }

  /** The same indices, with the stem by the 五鼠遁 rule. */
  lemma HourIndicesByRule(hour: int, d: nat, b: int, k: int)
    requires 0 <= hour <= 23 && d < 10
    requires b == (hour + 1) / 2 % 12 && k == (2 * (d % 5) + b) % 10
    ensures AccurateBazi.HourBranchIndex(hour) == b && JsRem(d * 12 + b, 10) == k
    ensures 0 <= b < 12 && 0 <= k < 10
  {
    AccurateBazi.HourStemRule(d, b);
  }

  /** Given the indices it computes, `HourPillarAt` prints that pillar. */
  lemma HourPillarAtIndices(hour: int, d: int, b: int, k: int)
    requires 0 <= b < 12 && 0 <= k < 10
    requires AccurateBazi.HourBranchIndex(hour) == b && JsRem(d * 12 + b, 10) == k
    ensures HourPillarAt(hour, d) == PillarText(k, b)
  {
    ShownPillar(k, b);
  }

  /** The branch and stem indices `HourPillar` computes, for a real hour and day stem. */
  lemma HourIndices(hour: int, d: nat, b: int, k: int)
    requires 0 <= hour <= 23 && d < 10
    requires b == (hour + 1) / 2 % 12 && k == (d * 12 + b) % 10
    ensures AccurateBazi.HourBranchIndex(hour) == b && JsRem(d * 12 + b, 10) == k
    ensures 0 <= b < 12 && 0 <= k < 10
  {
  }

  /** Stem and branch always share their parity, so the hour pillar is one of the sixty. */
  lemma HourPillarInCycle(hour: int, d: nat)
    requires 0 <= hour <= 23 && d < 10
    ensures var b := (hour + 1) / 2 % 12;
      (2 * (d % 5) + b) % 10 % 2 == b % 2
  {
    var b := (hour + 1) / 2 % 12;
    EvenModParity(2 * (d % 5) + b, 10);
  }

  /** With no known day stem the index is -1: only the 寅 period lands on a stem (甲, from
   *  `-10 % 10`); every other period prints `undefined`. */
  lemma HourPillarUnknownDayStem(hour: int)
    requires 0 <= hour <= 23
    ensures AccurateBazi.HourBranchIndex(hour) == 2 ==> HourPillar(hour, None)[0] == '甲'
    ensures AccurateBazi.HourBranchIndex(hour) != 2 ==> HourPillar(hour, None)[..9] == "undefined"
  {
  }

  /** What `new Date(FullDateTime(birthDateTime))` and the calendar library give: the year,
   *  month and hour, and the year and day pillars (`getMonthPillar` looks the same year
   *  pillar up again for its stem). */
  datatype Calendar = Calendar(
    year: int, month: int, hour: int,
    yearPillar: BaziCalculator.Pillar, dayPillar: BaziCalculator.Pillar)

  /** The chart `calculateBaziWithTime` returns. */
  datatype Chart = Chart(year: string, month: string, day: string, hour: string,
    yearElement: Option<string>, dayElement: Option<string>)

  /** The year stem as `getMonthPillar` looks it up; `undefined` finds no table row. */
  function StemKey(stem: Option<char>): string
  {
    if stem.Some? then [stem.value] else ""
  }

  /** The chart used when the calculation throws. */
  const FallbackChart: Chart := Chart("甲戌", "丙寅", "己丑", "甲子", Some("木"), Some("土"))

  /** `calculateBaziWithTime`; `None` stands for a calculation that threw. */
  function CalculateBaziWithTime(calendar: Option<Calendar>): (r: Chart)
    ensures calendar.None? ==> r == FallbackChart
    ensures calendar.Some? ==>
      (r.yearElement == calendar.value.yearPillar.element && r.dayElement == calendar.value.dayPillar.element
       && r.hour == HourPillar(calendar.value.hour, calendar.value.dayPillar.tianGan))
  {
    if calendar.None? then FallbackChart
    else
      var c := calendar.value;
      var monthPillar := BaziCalculator.GetMonthPillar(StemKey(c.yearPillar.tianGan), c.year, c.month);
      Chart(
        Show(c.yearPillar.tianGan) + Show(c.yearPillar.diZhi),
        monthPillar.combined,
        Show(c.dayPillar.tianGan) + Show(c.dayPillar.diZhi),
        HourPillar(c.hour, c.dayPillar.tianGan),
        c.yearPillar.element, c.dayPillar.element)
  }

  /** The fallback chart's elements are those of its stems: 甲 gives 木 and 己 gives 土. */
  lemma FallbackChartElements()
    ensures FallbackChart.yearElement == BaziCalculator.WuXing(FallbackChart.year[0])
    ensures FallbackChart.dayElement == BaziCalculator.WuXing(FallbackChart.day[0])
  {
  }

  /** The fallback's month 丙寅 is the 寅 month of a 甲 year in the 五虎遁 table. */
  lemma FallbackChartMonth()
    ensures BaziCalculator.GetMonthPillar([FallbackChart.year[0]], 1984, 3).combined == FallbackChart.month
  {
    var t := BaziCalculator.TablePillar(StemChar(2), BranchChar(2));
    BaziCalculator.MonthPillarByTable(0, 0, 1984, 3);
    assert [FallbackChart.year[0]] == [StemChar(0)];
    assert t.combined == FallbackChart.month;
  }

  /** The fallback's hour 甲子 is the 子 hour of its 己 day. */
  lemma FallbackChartHour()
    ensures HourPillar(0, Some(FallbackChart.day[0])) == FallbackChart.hour
  {
    assert FallbackChart.day[0] == StemChar(5);
    HourPillarRule(0, 5);
    assert HourPillar(0, Some(StemChar(5))) == PillarText(0, 0);
    assert PillarText(0, 0) == [Stems[0], Branches[0]] == FallbackChart.hour;
  }

  /** The route's outcome before the analysis call: a body that is not JSON and a missing
   *  or empty `birthDateTime` are both answered 400; otherwise the chart is computed. */
  datatype Outcome = BadRequest(error: string) | Analyse(chart: Chart)

  function Handle(jsonOk: bool, birthDateTime: Option<string>, calendar: Option<Calendar>): (r: Outcome)
    ensures r.BadRequest? <==> !jsonOk || birthDateTime.None? || birthDateTime.value == ""
    ensures r.Analyse? ==> r.chart == CalculateBaziWithTime(calendar)
  {
    if !jsonOk then BadRequest("Invalid JSON format in request body")
    else if birthDateTime.None? || birthDateTime.value == "" then BadRequest("Missing required birthday information")
    else Analyse(CalculateBaziWithTime(calendar))
  }
}
