/** The restart-chemistry route's parser: three fixed ice-breaking rituals whose principles
 *  name the couple's year, day and month pillars, and a fixed piece of general advice. */
module RestartChemistry {
  import opened Wrappers

  /** The pillar fields a chart object may carry; `None` is a missing or falsy field. */
  datatype ChartFields = ChartFields(
    year: Option<string>, yearPillar: Option<string>,
    day: Option<string>, dayPillar: Option<string>,
    month: Option<string>, monthPillar: Option<string>)

  /** `a || b` on strings: the empty string is falsy. */
  function Or(a: Option<string>, b: string): (r: string)
    ensures a.Some? && a.value != "" ==> r == a.value
    ensures (a.None? || a.value == "") ==> r == b
  {
    if a.Some? && a.value != "" then a.value else b
  }

  /** The year, day and month pillars a parser works with. */
  datatype Pillars = Pillars(year: string, day: string, month: string)

  /** The pillars used when nothing else is known: 甲子/丙寅/戊辰 for the female and
   *  乙丑/丁卯/己巳 for the male. */
  const FemaleDefaults: Pillars := Pillars("甲子", "丙寅", "戊辰")
  const MaleDefaults: Pillars := Pillars("乙丑", "丁卯", "己巳")

  /** Each pillar is read as `.year`, then `.yearPillar`, then the default (likewise for
   *  the day and the month); data that is missing or not an object gives the defaults. */
  function ExtractPillars(data: Option<ChartFields>, defaults: Pillars): Pillars
  {
    if data.None? then defaults
    else
      var f := data.value;
      Pillars(Or(f.year, Or(f.yearPillar, defaults.year)),
              Or(f.day, Or(f.dayPillar, defaults.day)),
              Or(f.month, Or(f.monthPillar, defaults.month)))
  }

  /** One ritual: its title, its steps, the principle behind it and its colour gradient. */
  datatype IceBreaker = IceBreaker(title: string, steps: seq<string>, principle: string, gradient: string)

  datatype Chemistry = Chemistry(iceBreakers: seq<IceBreaker>, generalAdvice: string)

  const Gradient: string := "linear-gradient(135deg, #C74772 0%, #D09900 100%)"

  /** The fixed part of a ritual: its title and its three steps. */
  datatype Ritual = Ritual(title: string, steps: seq<string>)

  const TraditionalRituals: seq<Ritual> := [
    Ritual("雙人能量流轉茶會", [
      "選擇帶有花香（木元素）的茶葉，搭配紅色茶具（火元素）",
      "在客廳東南方位佈置溫馨茶席，點燃暖色蠟燭",
      "泡茶時輪流分享當天最溫暖的一個時刻"]),
    Ritual("五行音波共振舞", [
      "女方選金屬音質（鐘聲/鋼琴曲），男方選水屬性音樂（流水聲）",
      "交叉播放不同元素音樂，隨音樂自由擺動身體",
      "每首歌結束後擁抱10秒，感受彼此能量"]),
    Ritual("星光願力投射劇場", [
      "用暖黃燈光（火）與陶土燭台（土）佈置陽台或房間",
      "準備願景便利貼，各自寫下對未來3個月的期待",
      "輪流演出自己的願景，另一人扮演支持者角色"])]

  const SimplifiedRituals: seq<Ritual> := [
    Ritual("双人能量流转茶会", [
      "选择带有花香（木元素）的茶叶，搭配红色茶具（火元素）",
      "在客厅东南方位布置温馨茶席，点燃暖色蜡烛",
      "泡茶时轮流分享当天最温暖的一个时刻"]),
    Ritual("五行音波共振舞", [
      "女方选金属音质（钟声/钢琴曲），男方选水属性音乐（流水声）",
      "交叉播放不同元素音乐，随音乐自由摆动身体",
      "每首歌结束后拥抱10秒，感受彼此能量"]),
    Ritual("星光愿力投射剧场", [
      "用暖黄灯光（火）与陶土烛台（土）布置阳台或房间",
      "准备愿景便利贴，各自写下对未来3个月的期待",
      "轮流演出自己的愿景，另一人扮演支持者角色"])]

  const TraditionalAdvice: string := "基於你們的八字配置分析，建議增加「元素體驗日」活動（週一金屬日一起烹飪、週三木日公園野餐），調整表達方式為「火元素表達法」—說話前先微笑3秒，將抱怨轉為「我希望我們可以...」的正向表達。每日進行「五行擊掌」儀式，按金木水火土順序擊掌五次，幫助你們的能量完整流動，重建默契與和諧。"

  const SimplifiedAdvice: string := "基于你们的八字配置分析，建议增加「元素体验日」活动（周一金属日一起烹饪、周三木日公园野餐），调整表达方式为「火元素表达法」—说话前先微笑3秒，将抱怨转为「我希望我们可以...」的正向表达。每日进行「五行击掌」仪式，按金木水火土顺序击掌五次，帮助你们的能量完整流动，重建默契与和谐。"

  /** The three principles: a fixed opening, the female pillar, a one-character joint
   *  (與/与), the male pillar and a fixed close. */
  function Opening(isSimplified: bool, k: nat): string
  {
    if k == 0 then (if isSimplified then "根据你们的八字分析，" else "根據你們的八字分析，")
    else if k == 1 then (if isSimplified then "以金生水→水生木的循环，针对你们八字中的" else "以金生水→水生木的循環，針對你們八字中的")
    else (if isSimplified then "运用火土相生破解你们八字中水过旺的怀旧倾向，" else "運用火土相生破解你們八字中水過旺的懷舊傾向，")
  }

  /** The pillar's kind (年, 日 or 月) followed by 與 or 与. */
  function Joint(isSimplified: bool, k: nat): string
  {
    [if k == 0 then '年' else if k == 1 then '日' else '月', if isSimplified then '与' else '與']
  }

  function Close(isSimplified: bool, k: nat): string
  {
    if k == 0 then (if isSimplified then "年的五行配置，需要木生火的能量流转来化解沉寂" else "年的五行配置，需要木生火的能量流轉來化解沉寂")
    else if k == 1 then (if isSimplified then "日柱进行能量调和" else "日柱進行能量調和")
    else (if isSimplified then "月柱需要暖土稳定" else "月柱需要暖土穩定")
  }

  function Principle(isSimplified: bool, k: nat, femalePillar: string, malePillar: string): string
  {
    Opening(isSimplified, k) + femalePillar + Joint(isSimplified, k) + malePillar + Close(isSimplified, k)
  }

  /** The three rituals in traditional or simplified characters, with the year, day and
   *  month pillars filled into their principles. */
  function IceBreakers(isSimplified: bool, female: Pillars, male: Pillars): (r: seq<IceBreaker>)
    ensures |r| == 3
    ensures forall k :: 0 <= k < 3 ==> |r[k].steps| == 3 && r[k].gradient == Gradient
    ensures r[0].principle == Principle(isSimplified, 0, female.year, male.year)
    ensures r[1].principle == Principle(isSimplified, 1, female.day, male.day)
    ensures r[2].principle == Principle(isSimplified, 2, female.month, male.month)
  {
    var rituals := if isSimplified then SimplifiedRituals else TraditionalRituals;
    [ IceBreaker(rituals[0].title, rituals[0].steps, Principle(isSimplified, 0, female.year, male.year), Gradient),
      IceBreaker(rituals[1].title, rituals[1].steps, Principle(isSimplified, 1, female.day, male.day), Gradient),
      IceBreaker(rituals[2].title, rituals[2].steps, Principle(isSimplified, 2, female.month, male.month), Gradient) ]
  }

  /** Each principle holds the female pillar right after its opening and the male pillar
   *  one character after that pillar's kind. */
  lemma PrincipleNamesPillars(isSimplified: bool, k: nat, fp: string, mp: string)
    ensures var p := Principle(isSimplified, k, fp, mp);
      var o := |Opening(isSimplified, k)|;
      |p| > o + |fp| + 2 + |mp|
      && p[o..o + |fp|] == fp && p[o + |fp| + 2..o + |fp| + 2 + |mp|] == mp
  {
    var o, j, c := Opening(isSimplified, k), Joint(isSimplified, k), Close(isSimplified, k);
    var p := Principle(isSimplified, k, fp, mp);
    assert p == o + fp + j + mp + c;
    assert |j| == 2 && |c| > 0;
    assert p[|o|..|o| + |fp|] == fp;
    assert p[|o| + |fp| + 2..|o| + |fp| + 2 + |mp|] == mp;
  }

  function GeneralAdvice(isSimplified: bool): string
  {
    if isSimplified then SimplifiedAdvice else TraditionalAdvice
  }

  /** `parseRestartChemistry`. `content` is `None` when it is not a string. The answer's
   *  text is never read: only its presence decides between `null` and the fixed rituals. */
  function ParseRestartChemistry(content: Option<string>, femaleData: Option<ChartFields>,
                                 maleData: Option<ChartFields>, isSimplified: bool): (r: Option<Chemistry>)
    ensures r.None? <==> content.None? || content.value == ""
  {
    if content.None? || content.value == "" then None
    else
      var female := ExtractPillars(femaleData, FemaleDefaults);
      var male := ExtractPillars(maleData, MaleDefaults);
      Some(Chemistry(IceBreakers(isSimplified, female, male), GeneralAdvice(isSimplified)))
  }

  /** Every pillar read is non-empty: a field that is present wins, and an empty or missing
   *  one falls through to the next, ending at a default. */
  lemma ExtractedPillarsNonEmpty(data: Option<ChartFields>, defaults: Pillars)
    requires defaults.year != "" && defaults.day != "" && defaults.month != ""
    ensures var p := ExtractPillars(data, defaults);
      p.year != "" && p.day != "" && p.month != ""
  {
  }

  /** The lookup order of one pillar: the `.year` field when set, else `.yearPillar` when
   *  set, else the default. */
  lemma ExtractYearOrder(f: ChartFields, defaults: Pillars)
    ensures var p := ExtractPillars(Some(f), defaults);
      (f.year.Some? && f.year.value != "" ==> p.year == f.year.value)
      && ((f.year.None? || f.year.value == "") && f.yearPillar.Some? && f.yearPillar.value != "" ==> p.year == f.yearPillar.value)
      && ((f.year.None? || f.year.value == "") && (f.yearPillar.None? || f.yearPillar.value == "") ==> p.year == defaults.year)
  {
  }

  /** An object whose pillar fields are all missing gives the same pillars as no object. */
  lemma EmptyObjectIsDefault(defaults: Pillars)
    ensures ExtractPillars(Some(ChartFields(None, None, None, None, None, None)), defaults) == ExtractPillars(None, defaults)
  {
  }

  /** Three rituals of three steps each, all with the same gradient, and the advice in the
   *  chosen script. */
  lemma ParsedShape(content: Option<string>, femaleData: Option<ChartFields>,
                    maleData: Option<ChartFields>, isSimplified: bool)
    requires content.Some? && content.value != ""
    ensures var r := ParseRestartChemistry(content, femaleData, maleData, isSimplified).value;
      |r.iceBreakers| == 3
      && (forall i :: 0 <= i < 3 ==> |r.iceBreakers[i].steps| == 3 && r.iceBreakers[i].gradient == Gradient)
      && r.generalAdvice == GeneralAdvice(isSimplified)
  {
    var female := ExtractPillars(femaleData, FemaleDefaults);
    var male := ExtractPillars(maleData, MaleDefaults);
    var b := IceBreakers(isSimplified, female, male);
    assert ParseRestartChemistry(content, femaleData, maleData, isSimplified).value == Chemistry(b, GeneralAdvice(isSimplified));
  }

  /** The answer's text does not matter: any two non-empty answers give the same result. */
  lemma ContentIgnored(a: string, b: string, femaleData: Option<ChartFields>,
                       maleData: Option<ChartFields>, isSimplified: bool)
    requires a != "" && b != ""
    ensures ParseRestartChemistry(Some(a), femaleData, maleData, isSimplified)
         == ParseRestartChemistry(Some(b), femaleData, maleData, isSimplified)
  {
  }

  /** The year, day or month pillar, for the principle of ritual `k`. */
  function PillarOfKind(p: Pillars, k: nat): string
  {
    if k == 0 then p.year else if k == 1 then p.day else p.month
  }

  /** Ritual `k`'s principle names the female and the male pillar of its kind. */
  lemma IceBreakerNamesPillars(isSimplified: bool, female: Pillars, male: Pillars, k: nat)
    requires k < 3
    ensures var p := IceBreakers(isSimplified, female, male)[k].principle;
      var fp, mp, o := PillarOfKind(female, k), PillarOfKind(male, k), |Opening(isSimplified, k)|;
      |p| > o + |fp| + 2 + |mp|
      && p[o..o + |fp|] == fp && p[o + |fp| + 2..o + |fp| + 2 + |mp|] == mp
  {
    PrincipleNamesPillars(isSimplified, k, PillarOfKind(female, k), PillarOfKind(male, k));
  }

  /** The parsed rituals are those of the pillars read from the couple's chart data, so
   *  each principle names the couple's own pillars of its kind. */
  lemma ParsedRituals(content: string, femaleData: Option<ChartFields>,
                      maleData: Option<ChartFields>, isSimplified: bool)
    requires content != ""
    ensures ParseRestartChemistry(Some(content), femaleData, maleData, isSimplified).value.iceBreakers
         == IceBreakers(isSimplified, ExtractPillars(femaleData, FemaleDefaults), ExtractPillars(maleData, MaleDefaults))
  {
  }
}
