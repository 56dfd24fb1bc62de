/** The couple season-analysis route: the four seasons rotated to start at the current one
 *  and labelled in the chosen script, each season's text either the cleaned text found for
 *  it, lengthened with the couple's stock text when short, or the stock text, and the
 *  request handling. Finding a season's text in the answer and the clean-up replacements
 *  are not modelled; their results are inputs. */
module CoupleSeasonAnalysis {
  import opened Wrappers
  import opened Strings
  import SeasonAnalysis

  // ---------------------------------------------------------------------------
  // Labels

  /** `getSeasonContext`, in simplified or traditional characters. */
  function Context(season: string, current: string, isSimplified: bool): string
  {
    if season == current then (if isSimplified then "【当前季节】" else "【當前季節】")
    else if isSimplified then "【未来参考】" else "【未來參考】"
  }

  /** Each label is a bracket group around a bracket-free word, marking the current season
   *  exactly when the season is the current one. */
  lemma ContextShape(season: string, current: string, isSimplified: bool) returns (word: string)
    ensures Context(season, current, isSimplified) == ['【'] + word + ['】'] && '】' !in word
    ensures (word == "当前季节" || word == "當前季節") <==> season == current
  {
    word := if season == current then (if isSimplified then "当前季节" else "當前季節")
      else if isSimplified then "未来参考" else "未來參考";
  }

  function Labelled(season: string, current: string, isSimplified: bool): string
  {
    season + Context(season, current, isSimplified)
  }

  /** Removing the label gives back the season's own name, in either script. */
  lemma UnlabelRoundTrip(season: string, current: string, isSimplified: bool)
    requires season in SeasonAnalysis.Seasons
    ensures SeasonAnalysis.RemoveFirstBracket(Labelled(season, current, isSimplified)) == season
  {
    SeasonAnalysis.SeasonsBracketFree(SeasonAnalysis.SeasonIndex(season));
    var word := ContextShape(season, current, isSimplified);
    SeasonAnalysis.BracketRemoved(season, word, Context(season, current, isSimplified));
  }

  // ---------------------------------------------------------------------------
  // Stock texts

  /** `user1Info.name || "男方"` and `user2Info.name || "女方"`. */
  function Name1(name: Option<string>): string
  {
    if name.None? || name.value == "" then "男方" else name.value
  }

  function Name2(name: Option<string>): string
  {
    if name.None? || name.value == "" then "女方" else name.value
  }

  const Concerns: seq<string> := ["感情", "婚姻"]

  function ConcernIndex(concern: string): (r: int)
    ensures -1 <= r < 2
    ensures r >= 0 ==> Concerns[r] == concern
    ensures r < 0 <==> concern !in Concerns
  {
    if concern == Concerns[0] then 0 else if concern == Concerns[1] then 1 else -1
  }

  const SimplifiedLoveSpring: string := "在春季木旺期间，感情迎来新的萌芽机会。木主生发，利于双方开放沟通、增进理解。建议：1）多进行户外活动增进感情，2）共同制定年度感情目标，3）辰月适合深入了解彼此内心世界。春季宜主动表达关爱，为全年感情发展奠定基础。"
  const SimplifiedLoveSummer: string := "在夏季需特别注意情绪管理。火旺易引发争执，双方应保持理性。建议：1）控制脾气避免激烈争吵，2）给彼此适当空间冷静思考，3）重大决定延后到秋季讨论。未月注意家庭经济压力对感情的影响，多关注对方优点维护感情稳定。"
  const SimplifiedLoveAutumn: string := "迎来感情收获期。金气收敛利于感情关系稳定发展。建议：1）申月适合深度交流化解前期误会，2）酉月感情巩固可做重要承诺规划未来，3）戌月注意家庭责任分工避免摩擦。秋季是感情关系成熟和收获的最佳时机，把握机会巩固感情基础。"
  const SimplifiedLoveWinter: string := "进入感情深化黄金期！水旺调候最利修复感情裂痕。建议：1）亥子月加强情感交流培养共同兴趣，2）共同规划未来蓝图制定长期目标，3）丑月总结感情经验为来年发展做准备。冬季深度沟通效果最佳，是修复关系和增进理解的关键时期。"
  const SimplifiedMarriageSpring: string := "迎来婚姻新生期，木气生发利于婚姻关系更新发展。建议：1）重新审视婚姻目标调整相处模式，2）增加夫妻共同活动增进亲密度，3）改善沟通方式提升理解品质。辰月适合处理婚姻中的实际问题，为全年婚姻和谐奠定基础。"
  const SimplifiedMarriageSummer: string := "面临婚姻考验期。火旺冲克易发生冲突，需要谨慎应对。建议：1）避免讨论敏感话题减少争执，2）暂缓重大婚姻决定等待理性时机，3）加强家庭责任感共同面对挑战。未月特别注意经济压力对婚姻和谐的影响，多展现关爱支持。"
  const SimplifiedMarriageAutumn: string := "进入婚姻稳定期。金气收敛有助婚姻关系成熟发展。建议：1）申月利于解决婚姻中的实际问题，2）酉月适合巩固夫妻关系做出长期承诺，3）戌月注意家务分工维护家庭和谐。秋季是婚姻关系巩固和升华的最佳时机。"
  const SimplifiedMarriageWinter: string := "迎来婚姻修复最佳期！水旺调候利于重建和谐夫妻关系。建议：1）制定夫妻沟通规则改善互动品质，2）重新分配家庭责任实现公平合理，3）规划婚姻长期目标加强亲密关系。丑月总结婚姻经验制定来年发展计划，为婚姻长久幸福做准备。"
  const TraditionalLoveSpring: string := "在春季木旺期間，感情迎來新的萌芽機會。木主生發，利於雙方開放溝通、增進理解。建議：1）多進行戶外活動增進感情，2）共同制定年度感情目標，3）辰月適合深入了解彼此內心世界。春季宜主動表達關愛，為全年感情發展奠定基礎。"
  const TraditionalLoveSummer: string := "在夏季需特別注意情緒管理。火旺易引發爭執，雙方應保持理性。建議：1）控制脾氣避免激烈爭吵，2）給彼此適當空間冷靜思考，3）重大決定延後到秋季討論。未月注意家庭經濟壓力對感情的影響，多關注對方優點維護感情穩定。"
  const TraditionalLoveAutumn: string := "迎來感情收穫期。金氣收斂利於感情關係穩定發展。建議：1）申月適合深度交流化解前期誤會，2）酉月感情鞏固可做重要承諾規劃未來，3）戌月注意家庭責任分工避免摩擦。秋季是感情關係成熟和收穫的最佳時機，把握機會鞏固感情基礎。"
  const TraditionalLoveWinter: string := "進入感情深化黃金期！水旺調候最利修復感情裂痕。建議：1）亥子月加強情感交流培養共同興趣，2）共同規劃未來藍圖制定長期目標，3）丑月總結感情經驗為來年發展做準備。冬季深度溝通效果最佳，是修復關係和增進理解的關鍵時期。"
  const TraditionalMarriageSpring: string := "迎來婚姻新生期，木氣生發利於婚姻關係更新發展。建議：1）重新審視婚姻目標調整相處模式，2）增加夫妻共同活動增進親密度，3）改善溝通方式提升理解品質。辰月適合處理婚姻中的實際問題，為全年婚姻和諧奠定基礎。"
  const TraditionalMarriageSummer: string := "面臨婚姻考驗期。火旺沖克易發生衝突，需要謹慎應對。建議：1）避免討論敏感話題減少爭執，2）暫緩重大婚姻決定等待理性時機，3）加強家庭責任感共同面對挑戰。未月特別注意經濟壓力對婚姻和諧的影響，多展現關愛支持。"
  const TraditionalMarriageAutumn: string := "進入婚姻穩定期。金氣收斂有助婚姻關係成熟發展。建議：1）申月利於解決婚姻中的實際問題，2）酉月適合鞏固夫妻關係做出長期承諾，3）戌月注意家務分工維護家庭和諧。秋季是婚姻關係鞏固和升華的最佳時機。"
  const TraditionalMarriageWinter: string := "迎來婚姻修復最佳期！水旺調候利於重建和諧夫妻關係。建議：1）制定夫妻溝通規則改善互動品質，2）重新分配家庭責任實現公平合理，3）規劃婚姻長期目標加強親密關係。丑月總結婚姻經驗制定來年發展計劃，為婚姻長久幸福做準備。"

  const GenericSimplified: string := "期间请根据双方具体情况谨慎分析夫妻关系发展。建议加强沟通理解，共同面对季节性的关系挑战，把握有利时机促进感情发展。"
  const GenericTraditional: string := "期間請根據雙方具體情況謹慎分析夫妻關係發展。建議加強溝通理解，共同面對季節性的關係挑戰，把握有利時機促進感情發展。"

  /** The route's stock texts after the two names, by script, concern and season in base
   *  order; concern 2 holds the closing words for any other concern, after the season's
   *  name. The parsing functions take the table as a parameter `stock`; the route passes
   *  this one. */
  function StockText(simplified: bool, concern: nat, season: nat): string
  {
    if simplified == true && concern == 0 && season == 0 then SimplifiedLoveSpring else
    if simplified == true && concern == 0 && season == 1 then SimplifiedLoveSummer else
    if simplified == true && concern == 0 && season == 2 then SimplifiedLoveAutumn else
    if simplified == true && concern == 0 && season == 3 then SimplifiedLoveWinter else
    if simplified == true && concern == 1 && season == 0 then SimplifiedMarriageSpring else
    if simplified == true && concern == 1 && season == 1 then SimplifiedMarriageSummer else
    if simplified == true && concern == 1 && season == 2 then SimplifiedMarriageAutumn else
    if simplified == true && concern == 1 && season == 3 then SimplifiedMarriageWinter else
    if simplified == false && concern == 0 && season == 0 then TraditionalLoveSpring else
    if simplified == false && concern == 0 && season == 1 then TraditionalLoveSummer else
    if simplified == false && concern == 0 && season == 2 then TraditionalLoveAutumn else
    if simplified == false && concern == 0 && season == 3 then TraditionalLoveWinter else
    if simplified == false && concern == 1 && season == 0 then TraditionalMarriageSpring else
    if simplified == false && concern == 1 && season == 1 then TraditionalMarriageSummer else
    if simplified == false && concern == 1 && season == 2 then TraditionalMarriageAutumn else
    if simplified == false && concern == 1 && season == 3 then TraditionalMarriageWinter else
    if simplified == true && concern == 2 then GenericSimplified else
    if simplified == false && concern == 2 then GenericTraditional else
    ""
  }

  /** `getCoupleFallbackSeasonContent`: the two names joined by 与 or 與, then the concern's
   *  text for the season, or 在, the season and the generic closing words. */
  function FallbackContent(season: string, concern: string, name1: string, name2: string,
    isSimplified: bool, stock: (bool, nat, nat) -> string): string
  {
    var c, k := ConcernIndex(concern), SeasonAnalysis.SeasonIndex(season);
    var couple := name1 + (if isSimplified then "与" else "與") + name2;
    if c >= 0 && k >= 0 then couple + stock(isSimplified, c, k)
    else couple + "在" + season + stock(isSimplified, 2, 0)
  }

  /** Every stock text opens with the couple's names; a known concern's text continues with
   *  the table's entry, any other with 在 and the season. */
  lemma FallbackContentRule(season: string, concern: string, name1: string, name2: string,
    isSimplified: bool, stock: (bool, nat, nat) -> string)
    requires season in SeasonAnalysis.Seasons
    ensures var couple := name1 + (if isSimplified then "与" else "與") + name2;
      var r := FallbackContent(season, concern, name1, name2, isSimplified, stock);
      StartsWith(r, couple)
      && (concern in Concerns ==> r == couple + stock(isSimplified, ConcernIndex(concern), SeasonAnalysis.SeasonIndex(season)))
      && (concern !in Concerns ==> StartsWith(r, couple + "在" + season))
  {
    var couple := name1 + (if isSimplified then "与" else "與") + name2;
    var r := FallbackContent(season, concern, name1, name2, isSimplified, stock);
    assert r[..|couple|] == couple;
    if concern !in Concerns {
      var p := couple + "在" + season;
      assert r[..|p|] == p;
    }
  }

  // ---------------------------------------------------------------------------
  // The parsed result

  /** The base entries, their key points in the chosen script; content is filled in later. */
  function BaseSeasons(isSimplified: bool): (r: seq<SeasonAnalysis.Season>)
    ensures |r| == 4 && forall k :: 0 <= k < 4 ==> r[k].name == SeasonAnalysis.Seasons[k]
  {
    [SeasonAnalysis.Season("春季", "寅卯辰月，木旺", "🌸", "bg-green-500",
       if isSimplified then ["感情萌芽", "寅卯辰月", "木旺生发"] else ["感情萌芽", "寅卯辰月", "木旺生發"], ""),
     SeasonAnalysis.Season("夏季", "巳午未月，火土極旺", "☀️", "bg-red-500",
       if isSimplified then ["情感考验", "巳午未月", "火旺冲克"] else ["情感考驗", "巳午未月", "火旺沖克"], ""),
     SeasonAnalysis.Season("秋季", "申酉戌月，金旺", "🍂", "bg-yellow-500",
       if isSimplified then ["感情收获", "申酉戌月", "金旺调和"] else ["感情收穫", "申酉戌月", "金旺調和"], ""),
     SeasonAnalysis.Season("冬季", "亥子丑月，水旺", "❄️", "bg-blue-500",
       if isSimplified then ["感情修复", "亥子丑月", "水旺调候"] else ["感情修復", "亥子丑月", "水旺調候"], "")]
  }

  /** What the season's found text becomes once cleaned: under 150 characters it is
   *  followed by a space and the stock text when that is longer than 100 characters. */
  function Lengthened(cleaned: string, fallback: string): string
  {
    if |cleaned| < 200 && |cleaned| < 150 && |fallback| > 100 then cleaned + " " + fallback else cleaned
  }

  /** A season's text: the found text, cleaned and perhaps lengthened, when it was longer
   *  than 20 characters before cleaning; the stock text otherwise. */
  function SeasonContent(raw: string, clean: string -> string, fallback: string): string
  {
    if |raw| > 20 then Lengthened(clean(raw), fallback) else fallback
  }

  /** The stock text is appended exactly to a short cleaned text, and then after one space;
   *  a cleaned text of 150 characters or more is kept as it is. */
  lemma SeasonContentRule(raw: string, clean: string -> string, fallback: string)
    ensures |raw| <= 20 ==> SeasonContent(raw, clean, fallback) == fallback
    ensures |raw| > 20 && |clean(raw)| < 150 && |fallback| > 100 ==>
      SeasonContent(raw, clean, fallback) == clean(raw) + " " + fallback
    ensures |raw| > 20 && (|clean(raw)| >= 150 || |fallback| <= 100) ==>
      SeasonContent(raw, clean, fallback) == clean(raw)
    ensures |raw| > 20 ==> StartsWith(SeasonContent(raw, clean, fallback), clean(raw))
  {
    var c := clean(raw);
    if |raw| > 20 {
      assert SeasonContent(raw, clean, fallback)[..|c|] == c;
    }
  }

  datatype CoupleInfo = CoupleInfo(name1: Option<string>, name2: Option<string>)

  /** A base entry as the `forEach` leaves it: labelled, and with its text. */
  function Entry(b: SeasonAnalysis.Season, found: string -> string, clean: string -> string, concern: string,
    current: string, names: CoupleInfo, isSimplified: bool, stock: (bool, nat, nat) -> string): SeasonAnalysis.Season
  {
    var fallback := FallbackContent(b.name, concern, Name1(names.name1), Name2(names.name2), isSimplified, stock);
    b.(name := Labelled(b.name, current, isSimplified), content := SeasonContent(found(b.name), clean, fallback))
  }

  /** The `forEach` over base entries `base` rotated to start at the current season. */
  function ParsedFrom(base: seq<SeasonAnalysis.Season>, content: string, found: string -> string,
    clean: string -> string, concern: string, current: string, names: CoupleInfo, isSimplified: bool,
    stock: (bool, nat, nat) -> string): SeasonAnalysis.SeasonResult
    requires |base| == 4
  {
    var ordered := SeasonAnalysis.Ordered(base, current);
    SeasonAnalysis.SeasonResult(
      seq(4, i requires 0 <= i < 4 => Entry(ordered[i], found, clean, concern, current, names, isSimplified, stock)),
      content, Title(concern))
  }

  /** `parseCoupleSeasonContent`, over the route's base entries; the title is always in
   *  traditional characters. */
  function Parsed(content: string, found: string -> string, clean: string -> string, concern: string,
    current: string, names: CoupleInfo, isSimplified: bool, stock: (bool, nat, nat) -> string): SeasonAnalysis.SeasonResult
  {
    ParsedFrom(BaseSeasons(isSimplified), content, found, clean, concern, current, names, isSimplified, stock)
  }

  function Title(concern: string): string
  {
    "夫妻關鍵季節&注意事項 (" + concern + "指南)"
  }

  /** Four seasons in rotated order, each named with its label, read back to its own season,
   *  and given the text the content rule decides. */
  lemma ParsedRule(content: string, found: string -> string, clean: string -> string, concern: string,
    current: string, names: CoupleInfo, isSimplified: bool, stock: (bool, nat, nat) -> string, i: nat)
    requires i < 4
    ensures var r := Parsed(content, found, clean, concern, current, names, isSimplified, stock);
      var season := SeasonAnalysis.Ordered(SeasonAnalysis.Seasons, current)[i];
      var fallback := FallbackContent(season, concern, Name1(names.name1), Name2(names.name2), isSimplified, stock);
      |r.seasons| == 4 && r.seasons[i].name == Labelled(season, current, isSimplified)
      && SeasonAnalysis.RemoveFirstBracket(r.seasons[i].name) == season
      && r.seasons[i].content == SeasonContent(found(season), clean, fallback)
  {
    var k := SeasonAnalysis.Source(current, i);
    SeasonAnalysis.OrderedRule(BaseSeasons(isSimplified), current, i);
    SeasonAnalysis.OrderedRule(SeasonAnalysis.Seasons, current, i);
    UnlabelRoundTrip(SeasonAnalysis.Seasons[k], current, isSimplified);
  }

  /** One pass of the `forEach`: the found text cleaned, then lengthened, and the label. */
  method FillSeason(b: SeasonAnalysis.Season, found: string -> string, clean: string -> string, concern: string,
    current: string, names: CoupleInfo, isSimplified: bool, stock: (bool, nat, nat) -> string)
    returns (e: SeasonAnalysis.Season)
    ensures e == Entry(b, found, clean, concern, current, names, isSimplified, stock)
  {
    var raw := found(b.name);
    var fallback := FallbackContent(b.name, concern, Name1(names.name1), Name2(names.name2), isSimplified, stock);
    var text;
    if |raw| > 20 {
      text := clean(raw);
      if |text| < 200 && |text| < 150 && |fallback| > 100 {
        text := text + " " + fallback;
      }
    } else {
      text := fallback;
    }
    e := b.(name := Labelled(b.name, current, isSimplified), content := text);
  }

  /** The `forEach` over the rotated base entries; `parseCoupleSeasonContent` passes
   *  `BaseSeasons(isSimplified)`. */
  method ParseCoupleSeasonContent(base: seq<SeasonAnalysis.Season>, content: string, found: string -> string,
    clean: string -> string, concern: string, current: string, names: CoupleInfo, isSimplified: bool,
    stock: (bool, nat, nat) -> string) returns (r: SeasonAnalysis.SeasonResult)
    requires |base| == 4
    ensures r == ParsedFrom(base, content, found, clean, concern, current, names, isSimplified, stock)
  {
    var ordered := SeasonAnalysis.Ordered(base, current);
    var seasons: seq<SeasonAnalysis.Season> := [];
    var i := 0;
    while i < 4
      invariant i <= 4 && |seasons| == i
      invariant forall j :: 0 <= j < i ==>
        seasons[j] == Entry(ordered[j], found, clean, concern, current, names, isSimplified, stock)
    {
      var e := FillSeason(ordered[i], found, clean, concern, current, names, isSimplified, stock);
      seasons := seasons + [e];
      i := i + 1;
    }
    ghost var parsed := ParsedFrom(base, content, found, clean, concern, current, names, isSimplified, stock);
    assert forall j :: 0 <= j < 4 ==> seasons[j] == parsed.seasons[j];
    r := SeasonAnalysis.SeasonResult(seasons, content, Title(concern));
  }

  /** `getCoupleFallbackSeasonData`: the base order with plain names and the stock texts,
   *  and title and summary in the chosen script. */
  function FallbackData(concern: string, names: CoupleInfo, isSimplified: bool,
    stock: (bool, nat, nat) -> string): (r: SeasonAnalysis.SeasonResult)
    ensures |r.seasons| == 4
    ensures forall k :: 0 <= k < 4 ==>
      r.seasons[k].name == SeasonAnalysis.Seasons[k] && r.seasons[k].content == FallbackContent(SeasonAnalysis.Seasons[k], concern, Name1(names.name1), Name2(names.name2), isSimplified, stock)
  {
    var base := BaseSeasons(isSimplified);
    var name1, name2 := Name1(names.name1), Name2(names.name2);
    SeasonAnalysis.SeasonResult(
      seq(4, k requires 0 <= k < 4 =>
        base[k].(content := FallbackContent(SeasonAnalysis.Seasons[k], concern, name1, name2, isSimplified, stock))),
      if isSimplified then name1 + "与" + name2 + "的夫妻季节分析基础版本。" else name1 + "與" + name2 + "的夫妻季節分析基礎版本。",
      if isSimplified then "夫妻关键季节&注意事项 (" + concern + "指南)" else "夫妻關鍵季節&注意事項 (" + concern + "指南)")
  }

  // ---------------------------------------------------------------------------
  // The request

  datatype Request = Request(user1: Option<CoupleInfo>, user2: Option<CoupleInfo>,
    concern: Option<string>, isSimplified: Option<bool>)

  /** The destructuring defaults: concern 感情 and traditional characters when absent. */
  function ConcernOf(r: Request): string
  {
    if r.concern.None? then "感情" else r.concern.value
  }

  function SimplifiedOf(r: Request): bool
  {
    r.isSimplified == Some(true)
  }

  datatype Response = BadRequest(error: string) | Failed(error: string) | Analysed(analysis: SeasonAnalysis.SeasonResult)

  /** `POST`, given whether the AI call answered, its content, and the parse of that content. */
  function Post(request: Request, answered: bool, aiContent: Option<string>, parsed: SeasonAnalysis.SeasonResult): (r: Response)
    ensures r.BadRequest? <==> request.user1.None? || request.user2.None?
    ensures r.Analysed? <==>
      (request.user1.Some? && request.user2.Some? && answered && aiContent.Some? && aiContent.value != "")
  {
    if request.user1.None? || request.user2.None? then BadRequest("Missing couple information")
    else if !answered then Failed("AI analysis service unavailable")
    else if aiContent.None? || aiContent.value == "" then Failed("No couple season analysis generated")
    else Analysed(parsed)
  }
}
