/** `src/lib/baziCalculator.js`: the `BaziCalculator` class's arithmetic fallbacks for the
 *  year and day pillars, the 五虎遁 month-pillar table with its fallback, and the element
 *  advice and personality lookups. The calendar library's own pillars are foreign: the year
 *  stem it reports enters `GetMonthPillar` as a parameter, and the day difference from
 *  1900-01-01 enters `DayPillarFallback` as a number. */
/** The 五虎遁 table of `getMonthPillar` and the rule its rows follow. */
module MonthTable {
  import opened Wrappers
  import opened Ganzhi

  /** 五虎遁: the twelve month pillars from 寅 month on, for each year stem. */
  function WuHuDun(yearStem: char): Option<seq<string>>
  {
    match yearStem
    case '甲' => Some(["丙寅", "丁卯", "戊辰", "己巳", "庚午", "辛未", "壬申", "癸酉", "甲戌", "乙亥", "丙子", "丁丑"])
    case '己' => Some(["丙寅", "丁卯", "戊辰", "己巳", "庚午", "辛未", "壬申", "癸酉", "甲戌", "乙亥", "丙子", "丁丑"])
    case '乙' => Some(["戊寅", "己卯", "庚辰", "辛巳", "壬午", "癸未", "甲申", "乙酉", "丙戌", "丁亥", "戊子", "己丑"])
    case '庚' => Some(["戊寅", "己卯", "庚辰", "辛巳", "壬午", "癸未", "甲申", "乙酉", "丙戌", "丁亥", "戊子", "己丑"])
    case '丙' => Some(["庚寅", "辛卯", "壬辰", "癸巳", "甲午", "乙未", "丙申", "丁酉", "戊戌", "己亥", "庚子", "辛丑"])
    case '辛' => Some(["庚寅", "辛卯", "壬辰", "癸巳", "甲午", "乙未", "丙申", "丁酉", "戊戌", "己亥", "庚子", "辛丑"])
    case '丁' => Some(["壬寅", "癸卯", "甲辰", "乙巳", "丙午", "丁未", "戊申", "己酉", "庚戌", "辛亥", "壬子", "癸丑"])
    case '壬' => Some(["壬寅", "癸卯", "甲辰", "乙巳", "丙午", "丁未", "戊申", "己酉", "庚戌", "辛亥", "壬子", "癸丑"])
    case '戊' => Some(["甲寅", "乙卯", "丙辰", "丁巳", "戊午", "己未", "庚申", "辛酉", "壬戌", "癸亥", "甲子", "乙丑"])
    case '癸' => Some(["甲寅", "乙卯", "丙辰", "丁巳", "戊午", "己未", "庚申", "辛酉", "壬戌", "癸亥", "甲子", "乙丑"])
    case _ => None
  }

  /** The stem index of the 寅 month for a year stem: 甲己 丙, 乙庚 戊, 丙辛 庚, 丁壬 壬, 戊癸 甲. */
  function FirstMonthStem(yearStemIndex: nat): (s0: nat)
    requires yearStemIndex < 10
    ensures s0 < 10 && s0 % 2 == 0
  {
    (2 * (yearStemIndex % 5) + 2) % 10
  }

  /** Every row of the table follows the rule: entry `k` is the stem `k` places after the
   *  first month's stem with the branch `k + 2` (the month of 寅 is the third branch). */
  lemma WuHuDunRule(i: nat, k: nat)
    requires i < 10 && k < 12
    ensures WuHuDun(StemChar(i)).Some? && |WuHuDun(StemChar(i)).value| == 12
    ensures WuHuDun(StemChar(i)).value[k] == [StemChar((FirstMonthStem(i) + k) % 10), BranchChar((k + 2) % 12)]
  {
    if i == 0 {
      assert FirstMonthStem(i) == 2 && StemChar(i) == '甲';
      RowJia(k);
    } else if i == 1 {
      assert FirstMonthStem(i) == 4 && StemChar(i) == '乙';
      RowYi(k);
    } else if i == 2 {
      assert FirstMonthStem(i) == 6 && StemChar(i) == '丙';
      RowBing(k);
    } else if i == 3 {
      assert FirstMonthStem(i) == 8 && StemChar(i) == '丁';
      RowDing(k);
    } else if i == 4 {
      assert FirstMonthStem(i) == 0 && StemChar(i) == '戊';
      RowWu(k);
    } else if i == 5 {
      assert FirstMonthStem(i) == 2 && StemChar(i) == '己';
      RowJi(k);
    } else if i == 6 {
      assert FirstMonthStem(i) == 4 && StemChar(i) == '庚';
      RowGeng(k);
    } else if i == 7 {
      assert FirstMonthStem(i) == 6 && StemChar(i) == '辛';
      RowXin(k);
    } else if i == 8 {
      assert FirstMonthStem(i) == 8 && StemChar(i) == '壬';
      RowRen(k);
    } else {
      assert FirstMonthStem(i) == 0 && StemChar(i) == '癸';
      RowGui(k);
    }
  }

  lemma RowJia(k: nat)
    requires k < 12
    ensures WuHuDun('甲').Some? && |WuHuDun('甲').value| == 12
    ensures WuHuDun('甲').value[k] == [StemChar((2 + k) % 10), BranchChar((k + 2) % 12)]
  {
  }

  lemma RowYi(k: nat)
    requires k < 12
    ensures WuHuDun('乙').Some? && |WuHuDun('乙').value| == 12
    ensures WuHuDun('乙').value[k] == [StemChar((4 + k) % 10), BranchChar((k + 2) % 12)]
  {
  }

  lemma RowBing(k: nat)
    requires k < 12
    ensures WuHuDun('丙').Some? && |WuHuDun('丙').value| == 12
    ensures WuHuDun('丙').value[k] == [StemChar((6 + k) % 10), BranchChar((k + 2) % 12)]
  {
  }

  lemma RowDing(k: nat)
    requires k < 12
    ensures WuHuDun('丁').Some? && |WuHuDun('丁').value| == 12
    ensures WuHuDun('丁').value[k] == [StemChar((8 + k) % 10), BranchChar((k + 2) % 12)]
  {
  }

  lemma RowWu(k: nat)
    requires k < 12
    ensures WuHuDun('戊').Some? && |WuHuDun('戊').value| == 12
    ensures WuHuDun('戊').value[k] == [StemChar((0 + k) % 10), BranchChar((k + 2) % 12)]
  {
  }

  lemma RowJi(k: nat)
    requires k < 12
    ensures WuHuDun('己').Some? && |WuHuDun('己').value| == 12
    ensures WuHuDun('己').value[k] == [StemChar((2 + k) % 10), BranchChar((k + 2) % 12)]
  {
  }

  lemma RowGeng(k: nat)
    requires k < 12
    ensures WuHuDun('庚').Some? && |WuHuDun('庚').value| == 12
    ensures WuHuDun('庚').value[k] == [StemChar((4 + k) % 10), BranchChar((k + 2) % 12)]
  {
  }

  lemma RowXin(k: nat)
    requires k < 12
    ensures WuHuDun('辛').Some? && |WuHuDun('辛').value| == 12
    ensures WuHuDun('辛').value[k] == [StemChar((6 + k) % 10), BranchChar((k + 2) % 12)]
  {
  }

  lemma RowRen(k: nat)
    requires k < 12
    ensures WuHuDun('壬').Some? && |WuHuDun('壬').value| == 12
    ensures WuHuDun('壬').value[k] == [StemChar((8 + k) % 10), BranchChar((k + 2) % 12)]
  {
  }

  lemma RowGui(k: nat)
    requires k < 12
    ensures WuHuDun('癸').Some? && |WuHuDun('癸').value| == 12
    ensures WuHuDun('癸').value[k] == [StemChar((0 + k) % 10), BranchChar((k + 2) % 12)]
  {
  }

  /** Stems five apart share their row. */
  lemma WuHuDunPairedRows(i: nat)
    requires i < 5
    ensures WuHuDun(StemChar(i)) == WuHuDun(StemChar(i + 5))
  {
  }
}

module BaziCalculator {
  import opened Wrappers
  import opened Ganzhi
  import opened MonthTable

  /** `wuXing`: the element of each stem and branch character. */
  function WuXing(c: char): Option<string>
  {
    match c
    case '甲' => Some("木") case '乙' => Some("木") case '丙' => Some("火") case '丁' => Some("火")
    case '戊' => Some("土") case '己' => Some("土") case '庚' => Some("金") case '辛' => Some("金")
    case '壬' => Some("水") case '癸' => Some("水")
    case '子' => Some("水") case '丑' => Some("土") case '寅' => Some("木") case '卯' => Some("木")
    case '辰' => Some("土") case '巳' => Some("火") case '午' => Some("火") case '未' => Some("土")
    case '申' => Some("金") case '酉' => Some("金") case '戌' => Some("土") case '亥' => Some("水")
    case _ => None
  }

  /** The table gives a stem the element of its pair and a branch its traditional element. */
  lemma WuXingRule(i: nat, j: nat)
    requires i < 10 && j < 12
    ensures WuXing(StemChar(i)) == Some(StemElement(i))
    ensures WuXing(BranchChar(j)) == Some(BranchElement(j))
  {
  }

  /** A pillar as the fallbacks return it: an index outside the arrays gives `undefined`. */
  datatype Pillar = Pillar(tianGan: Option<char>, diZhi: Option<char>, element: Option<string>)

  /** The pillar whose stem and branch sit at JavaScript remainders of `n`. */
  function CyclePillar(n: int): Pillar
  {
    var tianGan := At(Stems, JsRem(n, 10));
    Pillar(tianGan, At(Branches, JsRem(n, 12)), if tianGan.Some? then WuXing(tianGan.value) else None)
  }

  /** `getYearPillarFallback`: the stem and branch count from the year 4 (a 甲子 year). */
  function YearPillarFallback(year: int): (r: Pillar)
    ensures year >= 4 ==>
      r == Pillar(Some(StemChar((year - 4) % 10)), Some(BranchChar((year - 4) % 12)), Some(StemElement((year - 4) % 10)))
    ensures year < 4 && (4 - year) % 10 != 0 ==> r.tianGan.None? && r.element.None?
  {
    WuXingRule((if year >= 4 then (year - 4) % 10 else 0), 0);
    CyclePillar(year - 4)
  }

  /** The year pillar repeats every sixty years. */
  lemma YearPillarCycle(year: int)
    requires year >= 4
    ensures YearPillarFallback(year + 60) == YearPillarFallback(year)
  {
    assert (year + 60 - 4) % 10 == (year - 4) % 10;
    assert (year + 60 - 4) % 12 == (year - 4) % 12;
  }

  /** 1984 is a 甲子 year of wood. */
  lemma YearPillarExample()
    ensures YearPillarFallback(1984) == Pillar(Some('甲'), Some('子'), Some("木"))
  {
  }

  /** `getDayPillarFallback`, given the whole days since 1900-01-01 (day 0 is 甲子). */
  function DayPillarFallback(daysDiff: int): (r: Pillar)
    ensures daysDiff >= 0 ==>
      r == Pillar(Some(StemChar(daysDiff % 10)), Some(BranchChar(daysDiff % 12)), Some(StemElement(daysDiff % 10)))
    ensures daysDiff < 0 && (-daysDiff) % 10 != 0 ==> r.tianGan.None? && r.element.None?
  {
    WuXingRule((if daysDiff >= 0 then daysDiff % 10 else 0), 0);
    CyclePillar(daysDiff)
  }

  /** The day pillar repeats every sixty days. */
  lemma DayPillarCycle(daysDiff: int)
    requires daysDiff >= 0
    ensures DayPillarFallback(daysDiff + 60) == DayPillarFallback(daysDiff)
  {
    assert (daysDiff + 60) % 10 == daysDiff % 10;
    assert (daysDiff + 60) % 12 == daysDiff % 12;
  }

  /** `analyzeElementStrength`'s strength table (`strong` texts only; `weak` is never read). */
  function StrongText(element: string): Option<string>
  {
    if element == "木" then Some("春季出生，木旺")
    else if element == "火" then Some("夏季出生，火旺")
    else if element == "土" then Some("四季末出生，土旺")
    else if element == "金" then Some("秋季出生，金旺")
    else if element == "水" then Some("冬季出生，水旺")
    else None
  }

  /** The season of a month number 1-12. */
  function Season(month: int): (r: string)
    ensures 3 <= month <= 5 <==> r == "春季"
    ensures 6 <= month <= 8 <==> r == "夏季"
    ensures 9 <= month <= 11 <==> r == "秋季"
    ensures r == "冬季" <==> !(3 <= month <= 11)
  {
    if 3 <= month <= 5 then "春季"
    else if 6 <= month <= 8 then "夏季"
    else if 9 <= month <= 11 then "秋季"
    else "冬季"
  }

  datatype Strength = Strength(description: string, season: string, advice: string)

  /** `analyzeElementStrength`: the strength text of the day element, the season of the
   *  current month (a parameter here; the source reads the clock), and the element advice.
   *  The year element is accepted and ignored, as in the source. */
  function AnalyzeElementStrength(yearElement: string, dayElement: string, currentMonth: int): (r: Strength)
    ensures r.description == "中等強度" <==> dayElement !in FiveElements
    ensures r.season == Season(currentMonth)
    ensures r.advice == GetElementAdvice(dayElement)
  {
    var strong := StrongText(dayElement);
    Strength(if strong.Some? then strong.value else "中等強度", Season(currentMonth), GetElementAdvice(dayElement))
  }

  const FiveElements: seq<string> := ["木", "火", "土", "金", "水"]

  /** `getElementAdvice`: one sentence per element, a general one for anything else. */
  function GetElementAdvice(element: string): (r: string)
    ensures r == "根據個人情況調整" <==> element !in FiveElements
  {
    if element == "木" then "宜東方發展，忌金屬尖銳物品，多接觸綠色植物"
    else if element == "火" then "宜南方發展，忌水濕環境，多使用紅色物品"
    else if element == "土" then "宜中央或西南發展，穩重踏實，多使用黃色物品"
    else if element == "金" then "宜西方發展，忌火熱環境，多使用白色金屬物品"
    else if element == "水" then "宜北方發展，忌土燥環境，多使用黑色或藍色物品"
    else "根據個人情況調整"
  }

  /** `getPersonalityAnalysis`: one sketch per element, a placeholder for anything else. */
  function GetPersonalityAnalysis(dayElement: string): (r: string)
    ensures r == "性格特質需要進一步分析" <==> dayElement !in FiveElements
  {
    if dayElement == "木" then "性格正直，具有成長性和創造力，但有時過於理想化"
    else if dayElement == "火" then "性格熱情，具有領導力和行動力，但有時過於急躁"
    else if dayElement == "土" then "性格穩重，具有包容性和責任感，但有時過於保守"
    else if dayElement == "金" then "性格堅毅，具有組織力和決斷力，但有時過於固執"
    else if dayElement == "水" then "性格靈活，具有智慧和適應力，但有時過於多變"
    else "性格特質需要進一步分析"
  }

  // ---------------------------------------------------------------------------
  // Month pillars

  /** The month index of the source: `(month + 9) % 12`, so month 3 (寅) is 0 and month 1 is 10. */
  function MonthIndex(month: int): (r: int)
    ensures month >= -9 ==> 0 <= r < 12 && r == (month + 9) % 12
    ensures month < -9 ==> r <= 0
  {
    JsRem(month + 9, 12)
  }

  /** A month pillar; the source's one-character `tianGan` and `diZhi` strings are characters here. */
  datatype MonthPillar = MonthPillar(tianGan: char, diZhi: char, combined: string, element: Option<string>)

  /** The table entry `getMonthPillar` reads: None when the year stem has no row or the
   *  month index is out of range. */
  function MonthEntry(yearStem: string, month: int): (r: Option<string>)
    ensures r.Some? ==> |r.value| >= 2
  {
    var row := if |yearStem| == 1 then WuHuDun(yearStem[0]) else None;
    var monthIndex := MonthIndex(month);
    if row.None? || monthIndex < 0 || monthIndex >= |row.value| || |row.value[monthIndex]| < 2 then None
    else Some(row.value[monthIndex])
  }

  /** `getMonthPillar`: the table entry for the calendar library's year stem and the month,
   *  or, when there is none, the fallback as the source writes it. */
  function GetMonthPillar(yearStem: string, year: int, month: int): (r: MonthPillar)
    ensures r.element == WuXing(r.tianGan)
  {
    var entry := MonthEntry(yearStem, month);
    if entry.None? then MonthPillarFallbackAsWritten(year, month) else EntryPillar(entry.value)
  }

  /** A table entry split into its stem and branch characters. */
  function EntryPillar(entry: string): (r: MonthPillar)
    requires |entry| >= 2
    ensures r.tianGan == entry[0] && r.diZhi == entry[1] && r.element == WuXing(r.tianGan)
    ensures |entry| == 2 ==> r.combined == [r.tianGan, r.diZhi]
  {
    MonthPillar(entry[0], entry[1], entry, WuXing(entry[0]))
  }

  /** For a valid year stem and a month 1-12 the table path is taken, and with `k` the
   *  month index it gives the stem `(s0 + k) % 10` and the branch `(k + 2) % 12`. */
  lemma MonthPillarByTable(i: nat, k: nat, year: int, month: int)
    requires i < 10 && 1 <= month <= 12 && k == (month + 9) % 12
    ensures GetMonthPillar([StemChar(i)], year, month) ==
      TablePillar(StemChar((FirstMonthStem(i) + k) % 10), BranchChar((k + 2) % 12))
  {
    var entry := [StemChar((FirstMonthStem(i) + k) % 10), BranchChar((k + 2) % 12)];
    assert MonthEntry([StemChar(i)], month) == Some(entry) by {
      WuHuDunRule(i, k);
      assert MonthIndex(month) == k;
    }
  }

  /** A month pillar from its stem and branch characters. */
  function TablePillar(stem: char, branch: char): MonthPillar
  {
    MonthPillar(stem, branch, [stem, branch], WuXing(stem))
  }

  /** The clamp of the fallback: months below 1 count as 1, above 12 as 12. */
  function ValidMonth(month: int): (r: int)
    ensures 1 <= r <= 12
    ensures 1 <= month <= 12 ==> r == month
  {
    if month < 1 then 1 else if month > 12 then 12 else month
  }

  /** The `switch` on the year stem: the first month's stem index, 丙 (2) for an unknown stem. */
  function SwitchFirstStem(yearStem: Option<char>): (s0: nat)
    ensures s0 < 10
    ensures yearStem.None? ==> s0 == 2
  {
    if yearStem.None? then 2
    else match yearStem.value
      case '甲' => 2 case '己' => 2
      case '乙' => 4 case '庚' => 4
      case '丙' => 6 case '辛' => 6
      case '丁' => 8 case '壬' => 8
      case '戊' => 0 case '癸' => 0
      case _ => 2
  }

  /** The `switch` agrees with the table's rule for every stem. */
  lemma SwitchFirstStemRule(i: nat)
    requires i < 10
    ensures SwitchFirstStem(Some(StemChar(i))) == FirstMonthStem(i)
  {
    assert FirstMonthStem(i) == [2, 4, 6, 8, 0][i % 5];
  }

  /** `getMonthPillarFallback` as the source writes it: the stem follows the 五虎遁 rule but
   *  the branch is `diZhi[monthIndex]`, two places before the month's branch. */
  function MonthPillarFallbackAsWritten(year: int, month: int): (r: MonthPillar)
    ensures r.combined == [r.tianGan, r.diZhi] && r.element == WuXing(r.tianGan)
  {
    var validMonth := ValidMonth(month);
    var yearStem := At(Stems, JsRem(year - 4, 10));
    var monthIndex := (validMonth + 9) % 12;
    var tianGan := Stems[(SwitchFirstStem(yearStem) + monthIndex) % 10];
    var diZhi := Branches[monthIndex];
    MonthPillar(tianGan, diZhi, [tianGan, diZhi], WuXing(tianGan))
  }

  /** The fallback with the branch the table gives, `diZhi[(monthIndex + 2) % 12]`. */
  function MonthPillarFallback(year: int, month: int): (r: MonthPillar)
    ensures r.combined == [r.tianGan, r.diZhi] && r.element == WuXing(r.tianGan)
  {
    var validMonth := ValidMonth(month);
    var yearStem := At(Stems, JsRem(year - 4, 10));
    var monthIndex := (validMonth + 9) % 12;
    var tianGan := Stems[(SwitchFirstStem(yearStem) + monthIndex) % 10];
    var diZhi := Branches[(monthIndex + 2) % 12];
    MonthPillar(tianGan, diZhi, [tianGan, diZhi], WuXing(tianGan))
  }

  /** The fallback as written, for a year from 4 on and a month 1-12: the stem of the
   *  五虎遁 rule with the branch `monthIndex`. */
  lemma WrittenFallbackPillar(year: int, month: int)
    requires year >= 4 && 1 <= month <= 12
    ensures var i, k := (year - 4) % 10, (month + 9) % 12;
      MonthPillarFallbackAsWritten(year, month) == TablePillar(StemChar((FirstMonthStem(i) + k) % 10), BranchChar(k))
  {
    var i := (year - 4) % 10;
    SwitchFirstStemRule(i);
    assert At(Stems, JsRem(year - 4, 10)) == Some(StemChar(i));
  }

  /** The corrected fallback: the stem of the rule with the branch `monthIndex + 2`, the
   *  very pillar `MonthPillarByTable` gives for the table path. */
  lemma CorrectedFallbackPillar(year: int, month: int)
    requires year >= 4 && 1 <= month <= 12
    ensures var i, k := (year - 4) % 10, (month + 9) % 12;
      MonthPillarFallback(year, month) == TablePillar(StemChar((FirstMonthStem(i) + k) % 10), BranchChar((k + 2) % 12))
  {
    var i := (year - 4) % 10;
    SwitchFirstStemRule(i);
    assert At(Stems, JsRem(year - 4, 10)) == Some(StemChar(i));
  }

  /** As written, the fallback keeps the stem of the corrected one and misses its branch for
   *  every month: January gives 戌 where the table gives 子. */
  lemma FallbackBranchDisagrees(year: int, month: int)
    requires year >= 4 && 1 <= month <= 12
    ensures var written, corrected := MonthPillarFallbackAsWritten(year, month), MonthPillarFallback(year, month);
      written.tianGan == corrected.tianGan && written.diZhi != corrected.diZhi
  {
    var i, k := (year - 4) % 10, (month + 9) % 12;
    BranchCharInjective(k, (k + 2) % 12);
    WrittenFallbackPillar(year, month);
    CorrectedFallbackPillar(year, month);
  }

  /** January of 1984 (a 甲 year): the corrected fallback, like the table, gives 丙子; the
   *  fallback as written gives 丙戌. */
  lemma FallbackJanuaryExample()
    ensures MonthPillarFallback(1984, 1).tianGan == '丙' && MonthPillarFallback(1984, 1).diZhi == '子'
    ensures MonthPillarFallbackAsWritten(1984, 1).tianGan == '丙'
    ensures MonthPillarFallbackAsWritten(1984, 1).diZhi == '戌'
  {
    CorrectedFallbackPillar(1984, 1);
    WrittenFallbackPillar(1984, 1);
  }
}
