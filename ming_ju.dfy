/** The 命局 report card: the concern spelling it keys on, the current year's ganzhi, the
 *  day-master strength read from the five-element scale, the look of its three tabs, the
 *  profile behind the personalised fallback text, and the key of its per-tab cache. */
module MingJu {
  import opened Wrappers
  import opened Ganzhi
  import Strings

  // ---------------------------------------------------------------------------
  // Concerns

  /** The simplified spellings `normalizeConcern` rewrites. */
  const SimplifiedConcerns: seq<string> := ["事业", "财运", "关系", "恋爱"]

  /** `mapping[concern] || concern`: 事业 and 财运 become 事業 and 財運, 关系 and 恋爱 become 感情,
   *  and every other concern is kept as it is. */
  function NormalizeConcern(concern: string): (r: string)
    ensures r != concern <==> concern in SimplifiedConcerns
    ensures r != concern ==> r in ["事業", "財運", "感情"]
  {
    if concern == "事业" then "事業"
    else if concern == "财运" then "財運"
    else if concern == "关系" || concern == "恋爱" then "感情"
    else concern
  }

  /** Normalising twice changes nothing more. */
  lemma NormalizeConcernIdempotent(concern: string)
    ensures NormalizeConcern(NormalizeConcern(concern)) == NormalizeConcern(concern)
  {
  }

  // ---------------------------------------------------------------------------
  // The current year

  /** `getCurrentYearGanZhi`, with the clock's year as a parameter. */
  datatype YearInfo = YearInfo(year: int, ganZhi: Joined)

  function CurrentYearGanZhi(year: int): (r: YearInfo)
    ensures r.year == year
  {
    YearInfo(year, JoinAt(JsRem(year - 4, 10), JsRem(year - 4, 12)))
  }

  /** From year 4 on the text is the pillar of the sexagenary cycle, which repeats every 60 years. */
  lemma {:induction false} YearGanZhiCycle(year: int)
    requires year >= 4
    ensures CurrentYearGanZhi(year).ganZhi == Text(PillarText((year - 4) % 10, (year - 4) % 12))
    ensures CurrentYearGanZhi(year + 60).ganZhi == CurrentYearGanZhi(year).ganZhi
  {
    var m := year - 4;
    JoinAtRem(m, m);
    JoinAtRem(m + 60, m + 60);
    assert (m + 60) % 10 == m % 10 && (m + 60) % 12 == m % 12;
  }

  /** 2025 is 乙巳. */
  lemma YearGanZhi2025()
    ensures CurrentYearGanZhi(2025).ganZhi == Text("乙巳")
  {
    JoinAtRem(2021, 2021);
  }

  /** Before year 4 both remainders are negative, both lookups are `undefined`, and their sum is NaN. */
  lemma YearGanZhiBeforeCycle(year: int)
    requires 0 <= year < 4
    ensures CurrentYearGanZhi(year).ganZhi == NaN
  {
  }

  // ---------------------------------------------------------------------------
  // Day-master strength

  /** The number `\d+\.?\d*` that the scale pattern captures: its digits before and after the point. */
  datatype Numeral = Numeral(whole: string, fraction: string)

  predicate AllDigits(s: string)
  {
    forall k :: 0 <= k < |s| ==> Strings.IsDigit(s[k])
  }

  /** The capture of `(\d+\.?\d*)%` anchored at the front of `s`: a run of digits, an optional
   *  point with more digits, and then a `%`; no backtracking can find another. */
  function NumeralAt(s: string): (r: Option<Numeral>)
    ensures r.Some? ==> |r.value.whole| >= 1 && AllDigits(r.value.whole) && AllDigits(r.value.fraction)
    ensures r.Some? ==> |r.value.whole| < |s| && s[..|r.value.whole|] == r.value.whole
  {
    var w := Strings.DigitRun(s);
    if w == 0 || w == |s| then None
    else if s[w] == '%' then Some(Numeral(s[..w], ""))
    else if s[w] == '.' then
      var f := Strings.DigitRun(s[w + 1..]);
      if w + 1 + f < |s| && s[w + 1 + f] == '%' then Some(Numeral(s[..w], s[w + 1..w + 1 + f])) else None
    else None
  }

  /** Whether the pattern `prefix(\d+\.?\d*)%` matches starting at position `i`. */
  predicate MatchesAt(s: string, prefix: string, i: nat)
  {
    i + |prefix| <= |s| && s[i..i + |prefix|] == prefix && NumeralAt(s[i + |prefix|..]).Some?
  }

  /** The leftmost position at or after `from` where the pattern matches, or -1. */
  function FirstMatch(s: string, prefix: string, from: nat): (r: int)
    ensures r == -1 || (from <= r && MatchesAt(s, prefix, r))
    ensures forall j :: from <= j && (r == -1 || j < r) ==> !MatchesAt(s, prefix, j)
    decreases |s| - from
  {
    if from + |prefix| > |s| then -1
    else if MatchesAt(s, prefix, from) then from
    else FirstMatch(s, prefix, from + 1)
  }

  /** `scale.match(new RegExp(`${element}:(\\d+\\.?\\d*)%`))`: the number after the first
   *  `element:` that is followed by one. */
  function ScaleMatch(scale: string, element: string): (r: Option<Numeral>)
    ensures r.None? <==> forall j :: !MatchesAt(scale, element + ":", j)
  {
    var i := FirstMatch(scale, element + ":", 0);
    if i < 0 then None else NumeralAt(scale[i + |element| + 1..])
  }

  /** The value of a digit string after the point. */
  function FractionValue(f: string): real
    requires AllDigits(f)
  {
    if |f| == 0 then 0.0
    else (((f[0] as int) - ('0' as int)) as real + FractionValue(f[1..])) / 10.0
  }

  /** `parseFloat` of the capture, read exactly. */
  function Value(n: Numeral): real
    requires AllDigits(n.whole) && AllDigits(n.fraction)
  {
    Strings.DigitsValue(n.whole) as real + FractionValue(n.fraction)
  }

  /** The day-master strength of `getAccurateBaziInfo`: 偏強 from 35%, 偏弱 up to 15%, 中等 in
   *  between and whenever the scale is empty or holds no percentage for the element. */
  function DayMasterStrength(scale: string, element: string): (r: string)
    ensures r in ["偏強", "偏弱", "中等"]
    ensures ScaleMatch(scale, element).None? ==> r == "中等"
  {
    if scale == "" then "中等"
    else match ScaleMatch(scale, element)
      case None => "中等"
      case Some(n) => if Value(n) >= 35.0 then "偏強" else if Value(n) <= 15.0 then "偏弱" else "中等"
  }

  /** Every digit is zero. */
  predicate AllZero(f: string)
  {
    forall k :: 0 <= k < |f| ==> f[k] == '0'
  }

  /** The digits after the point are worth less than one, and nothing only when all are zero. */
  lemma {:induction false} FractionBounds(f: string)
    requires AllDigits(f)
    ensures 0.0 <= FractionValue(f) < 1.0
    ensures FractionValue(f) == 0.0 <==> AllZero(f)
  {
    if |f| > 0 {
      FractionBounds(f[1..]);
      if AllZero(f) {
        assert AllZero(f[1..]) by {
          forall k | 0 <= k < |f| - 1
            ensures f[1..][k] == '0'
          {
            assert f[1..][k] == f[k + 1];
          }
        }
      }
      if FractionValue(f) == 0.0 {
        assert forall k :: 1 <= k < |f| ==> f[k] == f[1..][k - 1];
      }
    }
  }

  /** The bands read off the printed digits: 偏強 exactly when the whole part is at least 35;
   *  偏弱 exactly when it is below 15, or 15 with nothing but zeros after the point. */
  lemma StrengthByDigits(scale: string, element: string)
    requires scale != "" && ScaleMatch(scale, element).Some?
    ensures var n := ScaleMatch(scale, element).value; var w := Strings.DigitsValue(n.whole);
      (DayMasterStrength(scale, element) == "偏強" <==> w >= 35) &&
      (DayMasterStrength(scale, element) == "偏弱" <==> w < 15 || (w == 15 && AllZero(n.fraction))) &&
      (DayMasterStrength(scale, element) == "中等" <==> 15 <= w < 35 && !(w == 15 && AllZero(n.fraction)))
  {
    var n := ScaleMatch(scale, element).value;
    var w, f := Strings.DigitsValue(n.whole), FractionValue(n.fraction);
    FractionBounds(n.fraction);
    WholeDecidesBand(w, f, AllZero(n.fraction));
    var r := DayMasterStrength(scale, element);
    assert Value(n) == w as real + f;
    assert "偏強"[1] != "偏弱"[1] && "偏強"[1] != "中等"[1] && "偏弱"[1] != "中等"[1];
    if w as real + f >= 35.0 {
      assert r == "偏強";
    } else if w as real + f <= 15.0 {
      assert r == "偏弱";
    } else {
      assert r == "中等";
    }
  }

  /** A whole part `w` plus a fraction below one reaches 35 exactly when `w` does, and stays at
   *  most 15 exactly when `w` is below 15 or is 15 with a zero fraction. */
  lemma WholeDecidesBand(w: nat, f: real, zero: bool)
    requires 0.0 <= f < 1.0 && (f == 0.0 <==> zero)
    ensures w as real + f >= 35.0 <==> w >= 35
    ensures w as real + f <= 15.0 <==> w < 15 || (w == 15 && zero)
  {
  }

  /** The traits `elementCharacteristics` holds for one element. */
  datatype Traits = Traits(characteristics: string, strengths: string, weaknesses: string)

  /** The traits table, in the order 木火土金水 of `Ganzhi.Elements`. */
  const TraitTable: seq<Traits> := [
    Traits("柔韌堅毅，成長向上", "創造力強、適應性佳、成長學習能力好", "有時過於理想化、需要更多實際執行力"),
    Traits("熱情活力，光明磊落", "領導能力強、創意豐富、熱情主動", "有時過於急躁、需要更多耐心和冷靜"),
    Traits("穩重包容，厚德載物", "穩重可靠、包容力強、執行力佳", "有時過於保守、需要更多創新突破"),
    Traits("剛正果決，精準高效", "決斷力強、執行力佳、分析能力好", "有時過於剛硬、需要更多靈活變通"),
    Traits("智慧靈活，深謀遠慮", "智慧深邃、靈活變通、直覺敏銳", "有時過於多變、需要更多堅持專注")]

  /** The position of an element name in 木火土金水, or -1. */
  function ElementSlot(element: string): (r: int)
    ensures -1 <= r < 5
    ensures r >= 0 <==> element in Elements
    ensures r >= 0 ==> Elements[r] == element
  {
    if element == "木" then 0 else if element == "火" then 1 else if element == "土" then 2
    else if element == "金" then 3 else if element == "水" then 4 else -1
  }

  /** `elementCharacteristics[dayElement] || elementCharacteristics["土"]`. */
  function ElementTraits(element: string): (r: Traits)
    ensures element in Elements ==> r == TraitTable[ElementSlot(element)]
    ensures element !in Elements ==> r == TraitTable[2]
  {
    var i := ElementSlot(element);
    if i >= 0 then TraitTable[i] else TraitTable[2]
  }

  /** Different elements carry different traits; any other name is read as 土. */
  lemma ElementTraitsDistinct(a: string, b: string)
    requires a in Elements && b in Elements && a != b
    ensures ElementTraits(a) != ElementTraits(b)
    ensures ElementTraits("") == ElementTraits("土")
  {
    assert TraitTable[0].characteristics[0] == '柔' && TraitTable[1].characteristics[0] == '熱';
    assert TraitTable[2].characteristics[0] == '穩' && TraitTable[3].characteristics[0] == '剛';
    assert TraitTable[4].characteristics[0] == '智';
  }

  /** The fields of `getWuxingData`'s result that `getAccurateBaziInfo` reads. */
  datatype WuxingData = WuxingData(dayStem: string, dayStemWuxing: string, yearStem: string,
    yearBranch: string, nayin: string, wuxingScale: Option<string>)

  /** The summary `getAccurateBaziInfo` returns. */
  datatype BaziInfo = BaziInfo(year: string, element: string, dayMaster: string, strength: string, traits: Traits)

  /** The catch branch's fixed summary, used when the chart library throws. */
  const FallbackInfo: BaziInfo :=
    BaziInfo("庚子", "壁上土", "庚金", "中等", Traits("穩重務實，循序漸進", "穩重可靠、務實進取", "有時過於保守、需要創新"))

  /** `getAccurateBaziInfo`, with `None` for a chart library that throws: the day master is the
   *  day stem and its element, the year the year pillar, the strength read from the scale
   *  (`wuxingScale || ""`), and the traits those of the day element. */
  function AccurateBaziInfo(data: Option<WuxingData>): (r: BaziInfo)
    ensures data.None? ==> r == FallbackInfo
    ensures data.Some? ==> r.dayMaster == data.value.dayStem + data.value.dayStemWuxing
    ensures data.Some? ==> r.traits == ElementTraits(data.value.dayStemWuxing)
    ensures data.Some? && data.value.wuxingScale.None? ==> r.strength == "中等"
  {
    match data
    case None => FallbackInfo
    case Some(d) =>
      var scale := d.wuxingScale.GetOr("");
      BaziInfo(d.yearStem + d.yearBranch, d.nayin, d.dayStem + d.dayStemWuxing,
        DayMasterStrength(scale, d.dayStemWuxing), ElementTraits(d.dayStemWuxing))
  }

  // ---------------------------------------------------------------------------
  // Tabs

  /** `TABS`: the day-master tab and the two concern tabs. */
  const Tabs: seq<string> := ["日主特性", "middle", "right"]

  /** One tab's entry in `TAB_CONFIG`. */
  datatype TabStyle = TabStyle(caption: string, img: string, selectedBg: string, selectedImg: string,
    unselectedBg: string, unselectedImg: string)

  datatype TabPair = TabPair(middle: TabStyle, right: TabStyle)

  /** The concerns `TAB_CONFIG` has entries for. */
  const ConfiguredConcerns: seq<string> := ["健康", "財運", "事業", "工作", "感情"]

  /** The middle tab: the same star on a gold ground for every concern, under its own caption. */
  function MiddleStyle(caption: string): TabStyle
  {
    TabStyle(caption, "/images/report/star2.png", "#DEAB20", "#FFFFFF", "#EFEFEF", "#D09900")
  }

  /** A right tab coloured `accent` when selected; 財運's is the only one whose icon tint differs. */
  function RightStyle(caption: string, img: string, accent: string, tint: string): TabStyle
  {
    TabStyle(caption, img, accent, "#FFFFFF", "#EFEFEF", tint)
  }

  const WealthTabs: TabPair :=
    TabPair(MiddleStyle("財星與十神"), RightStyle("財星定位", "/images/report/money.png", "#D09900", "#D09900"))
  const CareerTabs: TabPair :=
    TabPair(MiddleStyle("事業宮與十神"), RightStyle("財星定位", "/images/report/money.png", "#3263C4", "#3263C4"))

  /** `TAB_CONFIG[concern] || TAB_CONFIG["財運"]`. */
  function TabConfig(concern: string): (r: TabPair)
    ensures concern !in ConfiguredConcerns ==> r == WealthTabs
    ensures concern == "事業" || concern == "工作" ==> r == CareerTabs
  {
    if concern == "健康" then
      TabPair(MiddleStyle("疾厄宮與十神"), RightStyle("調候與病源關鍵", "/images/report/health.png", "#389D7D", "#389D7D"))
    else if concern == "事業" || concern == "工作" then CareerTabs
    else if concern == "感情" then
      TabPair(MiddleStyle("感情宮與十神"), RightStyle("感情定位", "/images/report/heart2.png", "#C74772", "#C74772"))
    else WealthTabs
  }

  /** The translation key of a concern: `concernMap[concern] || "wealth"`. */
  function ConcernKey(concern: string): (r: string)
    ensures concern !in ConfiguredConcerns ==> r == "wealth"
  {
    if concern == "健康" then "health"
    else if concern == "財運" then "wealth"
    else if concern == "事業" || concern == "工作" then "career"
    else if concern == "感情" then "relationship"
    else "wealth"
  }

  /** Two concerns share a translation key exactly when they share a tab configuration, so the
   *  translated captions and the untranslated ones group the concerns alike. */
  lemma ConcernKeyMatchesConfig(a: string, b: string)
    ensures ConcernKey(a) == ConcernKey(b) <==> TabConfig(a) == TabConfig(b)
  {
    var a0, b0 := TabConfig(a).middle.caption, TabConfig(b).middle.caption;
    assert a0[0] == TabConfig(a).middle.caption[0];
    assert TabConfig(a).middle.caption[0] in "疾財事感";
  }

  /** A caption as `getTabLabel` returns it: a translator call with its key, or plain text. */
  datatype Caption = Translated(key: string) | Plain(text: string)

  /** `getTabLabel(tab, concern, t)`, where `translate` says whether a translator `t` was given. */
  function TabLabel(tab: string, concern: string, translate: bool): (r: Caption)
    ensures tab !in Tabs ==> r == Plain("")
    ensures tab in Tabs && !translate ==> r.Plain? && |r.text| > 0
    ensures tab in Tabs && translate ==> r.Translated?
  {
    if tab == "日主特性" then (if translate then Translated("dayMaster") else Plain("日主特性"))
    else if tab == "middle" then
      (if translate then Translated("tabs." + ConcernKey(concern) + ".middle") else Plain(TabConfig(concern).middle.caption))
    else if tab == "right" then
      (if translate then Translated("tabs." + ConcernKey(concern) + ".right") else Plain(TabConfig(concern).right.caption))
    else Plain("")
  }

  /** `getTabImg`: the sun for the day-master tab, the configured icon otherwise, "" for an unknown tab. */
  function TabImg(tab: string, concern: string): (r: string)
    ensures tab !in Tabs ==> r == ""
    ensures tab in Tabs ==> |r| > 0
  {
    if tab == "日主特性" then "/images/report/sun.png"
    else if tab == "middle" then TabConfig(concern).middle.img
    else if tab == "right" then TabConfig(concern).right.img
    else ""
  }

  /** `getTabBg`. */
  function TabBg(tab: string, concern: string, selected: bool): (r: string)
  {
    if tab == "日主特性" then (if selected then "#B4003C" else "#EFEFEF")
    else if tab == "middle" then
      (if selected then TabConfig(concern).middle.selectedBg else TabConfig(concern).middle.unselectedBg)
    else if tab == "right" then
      (if selected then TabConfig(concern).right.selectedBg else TabConfig(concern).right.unselectedBg)
    else "#EFEFEF"
  }

  /** `getTabImgColor`; the day-master tab's unselected tint is the string "#F". */
  function TabImgColor(tab: string, concern: string, selected: bool): (r: string)
    ensures selected && tab in Tabs ==> r == "#FFFFFF"
    ensures tab !in Tabs ==> r == "#B4003C"
  {
    if tab == "日主特性" then (if selected then "#FFFFFF" else "#F")
    else if tab == "middle" then
      (if selected then TabConfig(concern).middle.selectedImg else TabConfig(concern).middle.unselectedImg)
    else if tab == "right" then
      (if selected then TabConfig(concern).right.selectedImg else TabConfig(concern).right.unselectedImg)
    else "#B4003C"
  }

  /** Every tab sits on the light grey ground until selected, and a selected tab of `TABS` always
   *  changes colour. */
  lemma SelectedTabStandsOut(tab: string, concern: string)
    ensures TabBg(tab, concern, false) == "#EFEFEF"
    ensures tab in Tabs ==> TabBg(tab, concern, true) != "#EFEFEF"
    ensures tab !in Tabs ==> TabBg(tab, concern, true) == "#EFEFEF"
  {
  }

  /** Any concern without a configuration looks exactly like 財運 in every tab. */
  lemma UnknownConcernLooksLikeWealth(tab: string, concern: string, selected: bool, translate: bool)
    requires concern !in ConfiguredConcerns
    ensures TabLabel(tab, concern, translate) == TabLabel(tab, "財運", translate)
    ensures TabImg(tab, concern) == TabImg(tab, "財運")
    ensures TabBg(tab, concern, selected) == TabBg(tab, "財運", selected)
    ensures TabImgColor(tab, concern, selected) == TabImgColor(tab, "財運", selected)
  {
  }

  /** The CSS filter family the tab icon is tinted with when unselected, by its tint colour;
   *  #DEAB20 and #D09900 share one filter, and #B4003C shares the fallback's. */
  datatype Tone = Gold | Teal | Blue | Rose | Crimson

  function IconTone(color: string): Tone
  {
    if color == "#DEAB20" || color == "#D09900" then Gold
    else if color == "#389D7D" then Teal
    else if color == "#3263C4" then Blue
    else if color == "#C74772" then Rose
    else Crimson
  }

  /** An unselected icon is tinted in the colour its tab's ground takes when selected, the
   *  day-master tab's "#F" included, which reaches the fallback filter. */
  lemma UnselectedIconMatchesSelectedGround(tab: string, concern: string)
    requires tab in Tabs
    ensures IconTone(TabImgColor(tab, concern, false)) == IconTone(TabBg(tab, concern, true))
  {
  }

  // ---------------------------------------------------------------------------
  // The profile behind the personalised text

  /** The birth year `generatePersonalizedContent` reads: no date at all (the default 2000), a
   *  parsed year, or a date `Date` cannot read (a NaN year). */
  datatype Birth = NoBirthDate | BornIn(year: int) | InvalidDate

  /** `2025 - birthYear`, `None` for NaN. */
  function Age(birth: Birth): (r: Option<int>)
    ensures r.None? <==> birth.InvalidDate?
    ensures birth.NoBirthDate? ==> r == Some(25)
  {
    match birth
    case NoBirthDate => Some(2025 - 2000)
    case BornIn(y) => Some(2025 - y)
    case InvalidDate => None
  }

  /** `isYoung ? "青年" : isMidAge ? "中年" : "長者"`; NaN fails both tests. */
  function LifeStage(age: Option<int>): (r: string)
    ensures r == "青年" <==> age.Some? && age.value < 35
    ensures r == "中年" <==> age.Some? && 35 <= age.value < 55
    ensures r == "長者" <==> age.None? || age.value >= 55
  {
    if age.Some? && age.value < 35 then "青年"
    else if age.Some? && age.value < 55 then "中年"
    else "長者"
  }

  /** By birth year: after 1990 青年, 1971 to 1990 中年, up to 1970 長者; a missing date counts as
   *  2000 and an unreadable one as 長者. */
  lemma LifeStageByBirthYear(birth: Birth)
    ensures birth.BornIn? ==>
      (LifeStage(Age(birth)) == "青年" <==> birth.year > 1990) &&
      (LifeStage(Age(birth)) == "中年" <==> 1970 < birth.year <= 1990) &&
      (LifeStage(Age(birth)) == "長者" <==> birth.year <= 1970)
    ensures birth.NoBirthDate? ==> LifeStage(Age(birth)) == "青年"
    ensures birth.InvalidDate? ==> LifeStage(Age(birth)) == "長者"
  {
  }

  /** The gender reference: 女性 for the three female spellings, 男性 for everything else. */
  function GenderRef(gender: string): (r: string)
    ensures r == "女性" <==> gender in ["female", "女", "女性"]
    ensures r != "女性" ==> r == "男性"
  {
    if gender == "female" || gender == "女" || gender == "女性" then "女性" else "男性"
  }

  // ---------------------------------------------------------------------------
  // The cache

  /** A value in a template literal that may be `undefined`. */
  function ShowText(s: Option<string>): string
  {
    if s.Some? then s.value else "undefined"
  }

  /** `getCacheKey`: `${tab}_${birthDateTime}_${concern}_${currentYear}`. */
  function CacheKey(tab: string, birthDateTime: Option<string>, concern: Option<string>, year: int): (r: string)
    ensures Strings.StartsWith(r, tab + "_")
  {
    tab + "_" + ShowText(birthDateTime) + "_" + ShowText(concern) + "_" + Strings.IntString(year)
  }

  lemma IntStringNoUnderscore(n: int)
    ensures '_' !in Strings.IntString(n)
  {
    var s := Strings.NatString(if n >= 0 then n else -n);
    assert forall k :: 0 <= k < |s| ==> s[k] != '_';
  }

  /** While no part holds an underscore the key splits back into its four parts, so different
   *  tabs, dates, concerns or years never share a cache entry. */
  lemma {:induction false} CacheKeySplits(tab: string, birthDateTime: Option<string>, concern: Option<string>, year: int)
    requires '_' !in tab && '_' !in ShowText(birthDateTime) && '_' !in ShowText(concern)
    ensures Strings.Split(CacheKey(tab, birthDateTime, concern, year), '_') ==
      [tab, ShowText(birthDateTime), ShowText(concern), Strings.IntString(year)]
  {
    IntStringNoUnderscore(year);
    var a, b, c, d := tab, ShowText(birthDateTime), ShowText(concern), Strings.IntString(year);
    Strings.SplitJoin([a, b, c, d], '_');
    JoinFour(a, b, c, d);
  }

  lemma JoinFour(a: string, b: string, c: string, d: string)
    ensures Strings.Join([a, b, c, d], "_") == a + "_" + b + "_" + c + "_" + d
  {
    assert Strings.Join([d], "_") == d;
    assert [c, d][1..] == [d];
    assert Strings.Join([c, d], "_") == c + "_" + d;
    assert [b, c, d][1..] == [c, d];
    assert Strings.Join([b, c, d], "_") == b + "_" + (c + "_" + d);
    assert [a, b, c, d][1..] == [b, c, d];
  }
}
