/** The couple's specific-problem card: classifying the problem text, reading a status, a
 *  timeline and a "when to move on" from the compatibility score, the capped advice lists
 *  built from the AI analysis, the element-pair compatibility table, and the plan the
 *  fallback path picks for a relationship in need of repair. */
module CoupleSpecificProblemSolution {
  import opened Wrappers
  import opened Strings
  import Ganzhi

  /** The first `n` entries of a list: `list.slice(0, n)`. */
  function Slice<T>(s: seq<T>, n: nat): (r: seq<T>)
    ensures |r| <= n && |r| <= |s| && r == s[..|r|]
    ensures |s| <= n ==> r == s
  {
    if |s| <= n then s else s[..n]
  }

  /** `x || d` for a text field whose missing value is read as "". */
  function OrDefault(s: string, d: string): string
  {
    if s == "" then d else s
  }

  // ---------------------------------------------------------------------------
  // The problem type of the AI path

  /** `analyzeProblemTypeFromAI`'s tests, in order: a type and its two keywords. */
  datatype Probe = Probe(kind: string, words: seq<string>)

  const AiProbes: seq<Probe> := [
    Probe("breakup", ["分手", "離婚"]), Probe("communication", ["溝通", "交流"]),
    Probe("trust", ["信任", "背叛"]), Probe("distance", ["距離", "異地"]), Probe("family", ["家庭", "父母"])]

  /** The first probe at or after `from` whose keywords occur in `text`, or -1. */
  function FirstProbe(text: string, probes: seq<Probe>, from: nat): (r: int)
    ensures r == -1 || (from <= r < |probes| && ContainsAny(text, probes[r].words))
    ensures forall j :: from <= j < |probes| && (r == -1 || j < r) ==> !ContainsAny(text, probes[j].words)
    decreases |probes| - from
  {
    if from >= |probes| then -1
    else if ContainsAny(text, probes[from].words) then from
    else FirstProbe(text, probes, from + 1)
  }

  /** `analyzeProblemTypeFromAI(problem)`, `None` for a missing problem: "general" for an empty
   *  one, otherwise the type of the first probe whose keyword occurs in the lower-cased text. */
  function ProblemTypeFromAI(problem: Option<string>): (r: string)
    ensures problem.None? || problem.value == "" ==> r == "general"
    ensures problem.Some? && problem.value != "" ==>
      var i := FirstProbe(Lower(problem.value), AiProbes, 0);
      (i == -1 ==> r == "general") && (i >= 0 ==> r == AiProbes[i].kind)
  {
    if problem.None? || problem.value == "" then "general"
    else
      var i := FirstProbe(Lower(problem.value), AiProbes, 0);
      if i < 0 then "general" else AiProbes[i].kind
  }

  /** A problem naming a breakup is a breakup, whatever else it names; "general" means no probe matched. */
  lemma BreakupFirst(problem: string)
    requires problem != "" && ContainsAny(Lower(problem), ["分手", "離婚"])
    ensures ProblemTypeFromAI(Some(problem)) == "breakup"
  {
  }

  // ---------------------------------------------------------------------------
  // The compatibility score and the bands read from it

  /** `parseInt(compatibility.score || compatibility.overallScore) || 50` for integer scores:
   *  a zero or missing score falls through to the next. */
  function Score(score: Option<int>, overallScore: Option<int>): (r: int)
    ensures r != 0
    ensures score.Some? && score.value != 0 ==> r == score.value
    ensures (score.None? || score.value == 0) && overallScore.Some? && overallScore.value != 0 ==> r == overallScore.value
    ensures (score.None? || score.value == 0) && (overallScore.None? || overallScore.value == 0) ==> r == 50
  {
    var v := if score.Some? && score.value != 0 then score else overallScore;
    if v.Some? && v.value != 0 then v.value else 50
  }

  /** `analyzeRelationshipStatusFromAI`. */
  function Status(score: int): (r: string)
    ensures r == "strong" <==> score >= 80
    ensures r == "stable" <==> 60 <= score < 80
    ensures r == "challenging" <==> 40 <= score < 60
    ensures r == "critical" <==> score < 40
  {
    if score >= 80 then "strong" else if score >= 60 then "stable" else if score >= 40 then "challenging" else "critical"
  }

  const TimelineTexts: seq<string> := [
    "2-4 週內可見明顯改善，3-6 個月達到穩定狀態",
    "1-2 個月開始看到進展，6-12 個月達到理想狀態",
    "3-6 個月的持續努力，12-18 個月建立穩固基礎"]

  /** Which of `generateTimelineFromAI`'s three texts a score gets: 0 from 70, 1 from 50, else 2. */
  function TimelineBand(score: int): (b: nat)
    ensures b < 3
    ensures b == 0 <==> score >= 70
    ensures b == 1 <==> 50 <= score < 70
  {
    if score >= 70 then 0 else if score >= 50 then 1 else 2
  }

  function Timeline(score: int): string
  {
    TimelineTexts[TimelineBand(score)]
  }

  const MoveOnTexts: seq<string> := [
    "如果在 6 個月的努力後仍然沒有改善，可能需要重新評估這段關係的未來",
    "給彼此 12 個月的時間努力，如果核心問題持續存在且無法解決，考慮是否適合繼續",
    "建議持續努力至少 18 個月，大多數關係問題都可以通過時間和努力得到改善"]

  /** Which of `generateMoveOnAdviceFromAI`'s texts a score gets: 0 below 30, 1 below 50, else 2. */
  function MoveOnBand(score: int): (b: nat)
    ensures b < 3
    ensures b == 0 <==> score < 30
    ensures b == 1 <==> 30 <= score < 50
  {
    if score < 30 then 0 else if score < 50 then 1 else 2
  }

  function MoveOnAdvice(score: int): string
  {
    MoveOnTexts[MoveOnBand(score)]
  }

  /** A higher score never gets a slower timeline, a weaker status or less patience before moving on. */
  lemma BandsMonotone(low: int, high: int)
    requires low <= high
    ensures TimelineBand(high) <= TimelineBand(low)
    ensures MoveOnBand(low) <= MoveOnBand(high)
    ensures Status(low) == "strong" ==> Status(high) == "strong"
  {
  }

  /** Without a score the relationship reads as challenging, improving in one to two months, with at
   *  least eighteen months of effort advised; a critical one gets the slowest timeline. */
  lemma MissingScoreBands(score: int)
    ensures Status(Score(None, None)) == "challenging"
    ensures TimelineBand(Score(None, None)) == 1 && MoveOnBand(Score(None, None)) == 2
    ensures Status(score) == "critical" ==> TimelineBand(score) == 2 && MoveOnBand(score) < 2
  {
    assert Score(None, None) == 50;
  }

  // ---------------------------------------------------------------------------
  // The advice lists

  const DefaultStrengths: seq<string> := ["相互理解", "共同目標"]

  /** `generateStrengtheningAdviceFromAI`: each strength (or the two defaults when the list is
   *  missing) as a "強化…以增進關係" line, then two fixed lines, cut to three. */
  function StrengtheningAdvice(strengths: Option<seq<string>>): (r: seq<string>)
    ensures var s := strengths.GetOr(DefaultStrengths);
      |r| == (if |s| + 2 < 3 then |s| + 2 else 3) &&
      forall i :: 0 <= i < |r| && i < |s| ==> r[i] == "強化" + s[i] + "以增進關係"
  {
    var s := strengths.GetOr(DefaultStrengths);
    var lines := seq(|s|, i requires 0 <= i < |s| => "強化" + s[i] + "以增進關係");
    Slice(lines + ["定期回顧關係進展，慶祝每一個小成就", "保持個人成長的同時，也要共同成長"], 3)
  }

  /** `list.forEach((x) => result.push(...note(x)))`: the notes of each entry, in order. */
  function FlatMap<T>(xs: seq<T>, note: T -> seq<string>): seq<string>
  {
    if |xs| == 0 then [] else FlatMap(xs[..|xs| - 1], note) + note(xs[|xs| - 1])
  }

  /** An AI advice entry with the two fields `generatePracticalAdviceFromAI` reads ("" when missing). */
  datatype AdviceItem = AdviceItem(interaction: string, communication: string)

  /** `item.interaction || item.communication`, when either is set. */
  function AdviceNote(item: AdviceItem): (r: seq<string>)
    ensures |r| <= 1
  {
    if item.interaction != "" then [item.interaction]
    else if item.communication != "" then [item.communication]
    else []
  }

  const PracticalBase: seq<string> := [
    "建立固定的溝通時間，每日分享彼此的想法和感受",
    "練習積極聆聽，給予對方完整的注意力",
    "設定共同目標，一起努力達成並慶祝成功"]

  /** The one problem-specific practical tip: 溝通 before 信任 before 距離. */
  function PracticalTip(problem: Option<string>): (r: seq<string>)
    ensures |r| <= 1
  {
    if problem.None? || problem.value == "" then []
    else
      var text := Lower(problem.value);
      if Contains(text, "溝通") then ["使用「我」語句表達感受，避免指責性語言"]
      else if Contains(text, "信任") then ["保持透明度，分享日常生活和想法"]
      else if Contains(text, "距離") then ["制定固定的視訊時間，保持情感連結"]
      else []
  }

  /** `generatePracticalAdviceFromAI`: the three fixed tips, one per usable AI advice entry, the
   *  problem's tip, cut to five. */
  method PracticalAdvice(advice: seq<AdviceItem>, problem: Option<string>) returns (tips: seq<string>)
    ensures tips == Slice(PracticalBase + FlatMap(advice, AdviceNote) + PracticalTip(problem), 5)
    ensures 3 <= |tips| <= 5 && tips[..3] == PracticalBase
  {
    var practical := PracticalBase;
    for i := 0 to |advice|
      invariant practical == PracticalBase + FlatMap(advice[..i], AdviceNote)
    {
      assert advice[..i + 1][..i] == advice[..i];
      var item := advice[i];
      if item.interaction != "" || item.communication != "" {
        practical := practical + [if item.interaction != "" then item.interaction else item.communication];
      }
    }
    assert advice[..|advice|] == advice;
    practical := practical + PracticalTip(problem);
    tips := Slice(practical, 5);
  }

  const SpiritualBase: seq<string> := [
    "保持內心平靜，用愛與耐心對待關係中的挑戰",
    "相信緣分，尊重彼此的成長和改變",
    "以感恩的心珍惜相處的每一刻"]

  /** A challenge's note: 情緒 before 價值觀. */
  function ChallengeNote(challenge: string): (r: seq<string>)
    ensures |r| <= 1
  {
    if Contains(challenge, "情緒") then ["學會情緒管理，以慈悲心對待自己和伴侶"]
    else if Contains(challenge, "價值觀") then ["尊重差異，在多元中尋找和諧統一"]
    else []
  }

  /** The problem's spiritual note: 分手 before 背叛. */
  function SpiritualTip(problem: Option<string>): (r: seq<string>)
    ensures |r| <= 1
  {
    if problem.None? || problem.value == "" then []
    else
      var text := Lower(problem.value);
      if Contains(text, "分手") then ["放下執著，相信一切都是最好的安排"]
      else if Contains(text, "背叛") then ["學會寬恕，為自己的心靈找到平靜"]
      else []
  }

  /** `generateSpiritualGuidanceFromAI`: three fixed lines, one per recognised challenge, the
   *  problem's line, cut to four. */
  method SpiritualGuidance(challenges: seq<string>, problem: Option<string>) returns (guidance: seq<string>)
    ensures guidance == Slice(SpiritualBase + FlatMap(challenges, ChallengeNote) + SpiritualTip(problem), 4)
    ensures 3 <= |guidance| <= 4 && guidance[..3] == SpiritualBase
  {
    var lines := SpiritualBase;
    for i := 0 to |challenges|
      invariant lines == SpiritualBase + FlatMap(challenges[..i], ChallengeNote)
    {
      assert challenges[..i + 1][..i] == challenges[..i];
      if Contains(challenges[i], "情緒") {
        lines := lines + ["學會情緒管理，以慈悲心對待自己和伴侶"];
      } else if Contains(challenges[i], "價值觀") {
        lines := lines + ["尊重差異，在多元中尋找和諧統一"];
      }
    }
    assert challenges[..|challenges|] == challenges;
    lines := lines + SpiritualTip(problem);
    guidance := Slice(lines, 4);
  }

  const IndicatorBase: seq<string> := [
    "雙方溝通變得更加開放和誠實",
    "衝突解決時間明顯縮短",
    "彼此支持和理解程度提升"]

  /** A strength's indicator: 溝通 before 信任. */
  function StrengthIndicator(strength: string): (r: seq<string>)
    ensures |r| <= 1
  {
    if Contains(strength, "溝通") then ["能夠輕鬆討論敏感話題"]
    else if Contains(strength, "信任") then ["彼此分享更多個人想法"]
    else []
  }

  /** The problem's indicator: 溝通 before 信任. */
  function ProblemIndicator(problem: Option<string>): (r: seq<string>)
    ensures |r| <= 1
  {
    if problem.None? || problem.value == "" then []
    else
      var text := Lower(problem.value);
      if Contains(text, "溝通") then ["爭吵頻率明顯減少"]
      else if Contains(text, "信任") then ["願意分享更多私人資訊"]
      else []
  }

  /** `generateSuccessIndicatorsFromAI`: three fixed indicators, one per recognised strength, the
   *  problem's indicator, cut to five. */
  method SuccessIndicators(strengths: seq<string>, problem: Option<string>) returns (indicators: seq<string>)
    ensures indicators == Slice(IndicatorBase + FlatMap(strengths, StrengthIndicator) + ProblemIndicator(problem), 5)
    ensures 3 <= |indicators| <= 5 && indicators[..3] == IndicatorBase
  {
    var lines := IndicatorBase;
    for i := 0 to |strengths|
      invariant lines == IndicatorBase + FlatMap(strengths[..i], StrengthIndicator)
    {
      assert strengths[..i + 1][..i] == strengths[..i];
      if Contains(strengths[i], "溝通") {
        lines := lines + ["能夠輕鬆討論敏感話題"];
      } else if Contains(strengths[i], "信任") {
        lines := lines + ["彼此分享更多個人想法"];
      }
    }
    assert strengths[..|strengths|] == strengths;
    lines := lines + ProblemIndicator(problem);
    indicators := Slice(lines, 5);
  }

  /** Each entry adds at most one line, so lists with no entries and no problem keep the fixed lines. */
  lemma {:induction false} FlatMapShort<T>(xs: seq<T>, note: T -> seq<string>)
    requires forall x :: |note(x)| <= 1
    ensures |FlatMap(xs, note)| <= |xs|
  {
    if |xs| > 0 {
      FlatMapShort(xs[..|xs| - 1], note);
    }
  }

  /** With nothing recognised the lists are the fixed lines alone; with many recognised entries
   *  the cap keeps the first ones in order. */
  lemma FixedLinesOnly(challenges: seq<string>)
    requires forall i :: 0 <= i < |challenges| ==> ChallengeNote(challenges[i]) == []
    ensures Slice(SpiritualBase + FlatMap(challenges, ChallengeNote) + SpiritualTip(None), 4) == SpiritualBase
  {
    FlatMapEmpty(challenges, ChallengeNote);
  }

  lemma {:induction false} FlatMapEmpty<T>(xs: seq<T>, note: T -> seq<string>)
    requires forall i :: 0 <= i < |xs| ==> note(xs[i]) == []
    ensures FlatMap(xs, note) == []
  {
    if |xs| > 0 {
      FlatMapEmpty(xs[..|xs| - 1], note);
    }
  }

  // ---------------------------------------------------------------------------
  // The specific problem of the fallback path

  /** One of `analyzeSpecificProblem`'s keyword groups: the type and status it sets and the tag it adds. */
  datatype Category = Category(kind: string, words: seq<string>, repair: bool, tag: string)

  const BreakupKeywords: seq<string> := ["分手", "分開", "分離", "離開", "結束", "break", "separated"]
  const CheatingKeywords: seq<string> := ["出軌", "劈腿", "第三者", "外遇", "背叛", "cheat", "affair"]
  const DistanceKeywords: seq<string> := ["疏遠", "冷漠", "冷戰", "不理", "距離", "distant", "cold"]
  const StrengthenKeywords: seq<string> := ["增進", "改善", "更好", "提升", "深化", "strengthen", "improve"]
  const CommitmentKeywords: seq<string> := ["結婚", "訂婚", "承諾", "未來", "穩定", "marriage", "commitment"]

  /** The groups in the order they are tested. */
  const Categories: seq<Category> := [
    Category("breakup", BreakupKeywords, true, "分手修復"),
    Category("infidelity", CheatingKeywords, true, "出軌修復"),
    Category("emotional_distance", DistanceKeywords, true, "感情疏遠"),
    Category("strengthen", StrengthenKeywords, false, "關係增進"),
    Category("commitment", CommitmentKeywords, false, "承諾發展")]

  /** The analysis: a problem type, "repair" or "strengthen", and the tags found. */
  datatype Analysis = Analysis(kind: string, status: string, keywords: seq<string>)

  /** The problem value: a string, or anything else (`typeof problem !== "string"`). */
  datatype Problem = Text(text: string) | NotText

  /** The last of the first `n` groups whose keywords occur, or -1. */
  function LastMatch(text: string, n: nat): (r: int)
    requires n <= |Categories|
    ensures -1 <= r < n
    ensures r >= 0 ==> ContainsAny(text, Categories[r].words)
    ensures forall j :: r < j < n ==> !ContainsAny(text, Categories[j].words)
  {
    if n == 0 then -1
    else if ContainsAny(text, Categories[n - 1].words) then n - 1
    else LastMatch(text, n - 1)
  }

  /** The tags of the first `n` groups whose keywords occur, in group order. */
  function Tags(text: string, n: nat): (r: seq<string>)
    requires n <= |Categories|
    ensures |r| <= n
  {
    if n == 0 then []
    else Tags(text, n - 1) + (if ContainsAny(text, Categories[n - 1].words) then [Categories[n - 1].tag] else [])
  }

  /** The analysis of lower-cased text after the first `n` groups: the last matching group's type
   *  and status, or general/strengthen, with every matching group's tag. */
  function AnalysisAfter(text: string, n: nat): Analysis
    requires n <= |Categories|
  {
    var i := LastMatch(text, n);
    Analysis(if i < 0 then "general" else Categories[i].kind,
      if i >= 0 && Categories[i].repair then "repair" else "strengthen",
      Tags(text, n))
  }

  /** The analysis of a problem: general/strengthen/no tags for a non-string or empty problem. */
  function SpecificAnalysis(problem: Problem): Analysis
  {
    if problem.NotText? || problem.text == "" then Analysis("general", "strengthen", [])
    else AnalysisAfter(Lower(problem.text), |Categories|)
  }

  /** `analyzeSpecificProblem`: each group that matches overwrites the type and status and adds its tag. */
  method AnalyzeSpecificProblem(problem: Problem) returns (a: Analysis)
    ensures a == SpecificAnalysis(problem)
  {
    if problem.NotText? || problem.text == "" {
      return Analysis("general", "strengthen", []);
    }
    var text := Lower(problem.text);
    var kind, status, keywords := "general", "strengthen", [];
    if ContainsAny(text, BreakupKeywords) {
      kind, status, keywords := "breakup", "repair", keywords + ["分手修復"];
    }
    assert Analysis(kind, status, keywords) == AnalysisAfter(text, 1);
    if ContainsAny(text, CheatingKeywords) {
      kind, status, keywords := "infidelity", "repair", keywords + ["出軌修復"];
    }
    assert Analysis(kind, status, keywords) == AnalysisAfter(text, 2);
    if ContainsAny(text, DistanceKeywords) {
      kind, status, keywords := "emotional_distance", "repair", keywords + ["感情疏遠"];
    }
    assert Analysis(kind, status, keywords) == AnalysisAfter(text, 3);
    if ContainsAny(text, StrengthenKeywords) {
      kind, status, keywords := "strengthen", "strengthen", keywords + ["關係增進"];
    }
    assert Analysis(kind, status, keywords) == AnalysisAfter(text, 4);
    if ContainsAny(text, CommitmentKeywords) {
      kind, status, keywords := "commitment", "strengthen", keywords + ["承諾發展"];
    }
    a := Analysis(kind, status, keywords);
  }

  /** The types that call for repair. */
  const RepairKinds: seq<string> := ["breakup", "infidelity", "emotional_distance"]

  /** The status is "repair" exactly when the type is breakup, infidelity or emotional_distance,
   *  and the type is "general" exactly when no tag was found. */
  lemma RepairIffTroubleKind(problem: Problem)
    ensures SpecificAnalysis(problem).status == "repair" <==> SpecificAnalysis(problem).kind in RepairKinds
    ensures SpecificAnalysis(problem).kind == "general" <==> SpecificAnalysis(problem).keywords == []
  {
    if problem.Text? && problem.text != "" {
      var text := Lower(problem.text);
      TagsEmpty(text, |Categories|);
      var i := LastMatch(text, |Categories|);
      if i >= 0 {
        assert Categories[i].kind != "general";
        assert Categories[i].repair <==> Categories[i].kind in RepairKinds;
      }
    }
  }

  /** No tag was found exactly when no group matched. */
  lemma {:induction false} TagsEmpty(text: string, n: nat)
    requires n <= |Categories|
    ensures Tags(text, n) == [] <==> LastMatch(text, n) == -1
  {
    if n > 0 {
      TagsEmpty(text, n - 1);
    }
  }

  // ---------------------------------------------------------------------------
  // Compatibility of the two dominant elements

  datatype Compatibility = Compatibility(score: int, relationship: string)

  /** The entries of `compatibilityMatrix`, one per unordered pair of elements, by the two
   *  characters of the key. */
  function MatrixEntry(key: string): Option<Compatibility>
  {
    if |key| != 2 then None
    else match (key[0], key[1])
      case ('金', '金') => Some(Compatibility(75, "同元素共鳴"))
      case ('金', '木') => Some(Compatibility(40, "金克木"))
      case ('金', '水') => Some(Compatibility(85, "金生水"))
      case ('金', '火') => Some(Compatibility(30, "火克金"))
      case ('金', '土') => Some(Compatibility(80, "土生金"))
      case ('木', '木') => Some(Compatibility(75, "同元素共鳴"))
      case ('木', '水') => Some(Compatibility(85, "水生木"))
      case ('木', '火') => Some(Compatibility(80, "木生火"))
      case ('木', '土') => Some(Compatibility(40, "木克土"))
      case ('水', '水') => Some(Compatibility(75, "同元素共鳴"))
      case ('水', '火') => Some(Compatibility(35, "水火相剋"))
      case ('水', '土') => Some(Compatibility(30, "土克水"))
      case ('火', '火') => Some(Compatibility(75, "同元素共鳴"))
      case ('火', '土') => Some(Compatibility(80, "火生土"))
      case ('土', '土') => Some(Compatibility(75, "同元素共鳴"))
      case _ => None
  }

  /** `compatibilityMatrix[e1 + e2] || compatibilityMatrix[e2 + e1] || {60, "中性"}`. */
  function CoupleCompatibility(element1: string, element2: string): (r: Compatibility)
    ensures MatrixEntry(element1 + element2).None? && MatrixEntry(element2 + element1).None? ==>
      r == Compatibility(60, "中性")
  {
    match MatrixEntry(element1 + element2)
    case Some(c) => c
    case None => MatrixEntry(element2 + element1).GetOr(Compatibility(60, "中性"))
  }

  /** The generating cycle 木火土金水: `Ganzhi.Elements[i]` generates the next one. */
  predicate Generates(i: nat, j: nat)
  {
    j == (i + 1) % 5
  }

  /** Each element controls the one two places on. */
  predicate Controls(i: nat, j: nat)
  {
    j == (i + 2) % 5
  }

  /** For the five elements the lookup does not depend on the order of the partners, and the score
   *  follows the cycle: 75 for the same element, at least 80 when one generates the other, at
   *  most 40 when one controls the other. */
  lemma CompatibilityFollowsCycle(i: nat, j: nat)
    requires i < 5 && j < 5
    ensures var c := CoupleCompatibility(Ganzhi.Elements[i], Ganzhi.Elements[j]);
      c == CoupleCompatibility(Ganzhi.Elements[j], Ganzhi.Elements[i]) &&
      (c.score == 75 <==> i == j) &&
      (c.score >= 80 <==> Generates(i, j) || Generates(j, i)) &&
      (c.score <= 40 <==> Controls(i, j) || Controls(j, i))
  {
    assert Ganzhi.Elements[i] + Ganzhi.Elements[j] == [Ganzhi.Elements[i][0], Ganzhi.Elements[j][0]];
    assert Ganzhi.Elements[j] + Ganzhi.Elements[i] == [Ganzhi.Elements[j][0], Ganzhi.Elements[i][0]];
  }

  // ---------------------------------------------------------------------------
  // The plan for the problem

  /** The solution `generateTargetedSolution` picks; the repair plan names the pair's relationship. */
  datatype Plan = MoveOnPlan | RepairPlan(relationship: string) | GenericPlan | StrengthenPlan

  /** `generateTargetedSolution`: the repair branch for a "repair" status, where a score below 50
   *  with infidelity advises moving on, 50 or more advises repair, and anything else gets the
   *  generic plan; every other status gets the strengthening plan. */
  function TargetedPlan(analysis: Analysis, compatibility: Compatibility): (p: Plan)
    ensures p.StrengthenPlan? <==> analysis.status != "repair"
    ensures p.MoveOnPlan? <==> analysis.status == "repair" && compatibility.score < 50 && analysis.kind == "infidelity"
    ensures p.RepairPlan? <==> analysis.status == "repair" && compatibility.score >= 50
    ensures p.RepairPlan? ==> p.relationship == compatibility.relationship
  {
    if analysis.status == "repair" then
      if compatibility.score < 50 && analysis.kind == "infidelity" then MoveOnPlan
      else if compatibility.score >= 50 then RepairPlan(compatibility.relationship)
      else GenericPlan
    else StrengthenPlan
  }

  /** Infidelity between a controlling pair of elements gets the advice to move on, and between a
   *  generating pair the repair plan. */
  lemma InfidelityPlans(problem: Problem, i: nat, j: nat)
    requires i < 5 && j < 5
    requires SpecificAnalysis(problem).kind == "infidelity"
    ensures var c := CoupleCompatibility(Ganzhi.Elements[i], Ganzhi.Elements[j]);
      (Controls(i, j) ==> TargetedPlan(SpecificAnalysis(problem), c) == MoveOnPlan) &&
      (Generates(i, j) ==> TargetedPlan(SpecificAnalysis(problem), c).RepairPlan?)
  {
    RepairIffTroubleKind(problem);
    CompatibilityFollowsCycle(i, j);
  }

  /** `supportMessages[type] || supportMessages["strengthen"]`: the comfort, hope and strength lines. */
  datatype Support = Support(comfort: string, hope: string, strength: string)

  const SupportMessages: map<string, Support> := map[
    "breakup" := Support("分手雖然痛苦，但這可能是宇宙為你們安排的一個重新檢視關係的機會。",
      "真正的愛情經得起考驗，如果你們有緣分，星象會指引你們重新相聚。",
      "這段時間專注於自我成長，讓自己成為更好的人，才能吸引對方回來。"),
    "infidelity" := Support("背叛帶來的傷痛很深，但請記住，這不代表你不夠好。",
      "有些關係經過修復後會變得更加堅固，但前提是雙方都願意真心改變。",
      "無論結果如何，這都是你學會自愛和設立界限的重要課程。"),
    "emotional_distance" := Support("感情的起伏是自然的，就像月圓月缺一樣，這只是一個階段。",
      "透過五行調和，你們可以重新找回彼此的共鳴頻率。",
      "真誠的溝通和耐心是破冰的最好方法。"),
    "strengthen" := Support("你們的感情已經有很好的基礎，現在是深化關係的絕佳時機。",
      "根據你們的八字配對，這段關係有很大的成長潛力。",
      "持續的關愛和理解會讓你們的感情越來越穩固。"),
    "commitment" := Support("想要進一步承諾是美好的，這代表你們對這段關係有信心。",
      "星象顯示，你們有建立長久關係的潛力。",
      "慢慢來，讓關係自然發展到下一個階段。")]

  /** `generateEmotionalSupport`. */
  function EmotionalSupport(kind: string): (r: Support)
    ensures kind in SupportMessages ==> r == SupportMessages[kind]
    ensures kind !in SupportMessages ==> r == SupportMessages["strengthen"]
  {
    if kind in SupportMessages then SupportMessages[kind] else SupportMessages["strengthen"]
  }

  /** Every type the analysis gives has its own messages except "general", which is comforted as
   *  a relationship to strengthen. */
  lemma SupportForEveryKind(problem: Problem)
    ensures var k := SpecificAnalysis(problem).kind;
      (k != "general" ==> k in SupportMessages) &&
      (k == "general" ==> EmotionalSupport(k) == SupportMessages["strengthen"])
  {
    if problem.Text? && problem.text != "" {
      var i := LastMatch(Lower(problem.text), |Categories|);
      if i >= 0 {
        assert Categories[i].kind in SupportMessages;
      }
    }
  }

  // ---------------------------------------------------------------------------
  // The AI path's solutions

  /** A solution of the AI response ("" for a missing text field). */
  datatype AiSolution = AiSolution(kind: string, description: string, timeline: string, steps: Option<seq<string>>)

  /** An entry of `generateTargetedAdviceFromAI`. */
  datatype Targeted = Targeted(category: string, advice: string, urgent: bool)

  /** `generateTargetedAdviceFromAI`: one entry per solution, urgent exactly when its timeline says 立即. */
  function TargetedAdvice(solutions: seq<AiSolution>): (r: seq<Targeted>)
    ensures |r| == |solutions|
    ensures forall i :: 0 <= i < |r| ==> (r[i].urgent <==> Contains(solutions[i].timeline, "立即"))
    ensures forall i :: 0 <= i < |r| ==> r[i].category != "" && r[i].advice != ""
  {
    seq(|solutions|, i requires 0 <= i < |solutions| =>
      Targeted(OrDefault(solutions[i].kind, "建議"), OrDefault(solutions[i].description, "建議生成中..."),
        Contains(solutions[i].timeline, "立即")))
  }

  /** An entry of `generateActionPlanFromAI`. */
  datatype PlanStep = PlanStep(step: string, action: string, timeline: string, category: string)

  /** The steps of a solution (none when it lists none). */
  function StepsOf(s: AiSolution): seq<string>
  {
    s.steps.GetOr([])
  }

  /** The entry for step `j` of solution `index`, labelled "index+1.j+1". */
  function Entry(s: AiSolution, index: nat, j: nat): PlanStep
    requires j < |StepsOf(s)|
  {
    PlanStep(NatString(index + 1) + "." + NatString(j + 1), StepsOf(s)[j],
      OrDefault(s.timeline, "持續進行"), OrDefault(s.kind, "行動方案"))
  }

  /** The entries of the first `j` steps of solution `index`. */
  function Entries(s: AiSolution, index: nat, j: nat): seq<PlanStep>
    requires j <= |StepsOf(s)|
  {
    if j == 0 then [] else Entries(s, index, j - 1) + [Entry(s, index, j - 1)]
  }

  /** The action plan of the first `n` solutions: every step of each, in order. */
  function PlanOf(solutions: seq<AiSolution>, n: nat): seq<PlanStep>
    requires n <= |solutions|
  {
    if n == 0 then [] else PlanOf(solutions, n - 1) + Entries(solutions[n - 1], n - 1, |StepsOf(solutions[n - 1])|)
  }

  /** `generateActionPlanFromAI`: a step entry for every step of every solution. */
  method ActionPlan(solutions: seq<AiSolution>) returns (plan: seq<PlanStep>)
    ensures plan == PlanOf(solutions, |solutions|)
  {
    plan := [];
    for i := 0 to |solutions|
      invariant plan == PlanOf(solutions, i)
    {
      var s := solutions[i];
      if s.steps.Some? {
        var steps := s.steps.value;
        for j := 0 to |steps|
          invariant plan == PlanOf(solutions, i) + Entries(s, i, j)
        {
          plan := plan + [PlanStep(NatString(i + 1) + "." + NatString(j + 1), steps[j],
            OrDefault(s.timeline, "持續進行"), OrDefault(s.kind, "行動方案"))];
        }
      }
    }
  }

  /** All steps of the first `n` solutions, in order. */
  function AllSteps(solutions: seq<AiSolution>, n: nat): seq<string>
    requires n <= |solutions|
  {
    if n == 0 then [] else AllSteps(solutions, n - 1) + StepsOf(solutions[n - 1])
  }

  /** The actions of a list of entries. */
  function Actions(plan: seq<PlanStep>): seq<string>
  {
    if |plan| == 0 then [] else Actions(plan[..|plan| - 1]) + [plan[|plan| - 1].action]
  }

  lemma {:induction false} ActionsAppend(a: seq<PlanStep>, b: seq<PlanStep>)
    ensures Actions(a + b) == Actions(a) + Actions(b)
    decreases |b|
  {
    if |b| == 0 {
      assert a + b == a;
    } else {
      ActionsAppend(a, b[..|b| - 1]);
      assert (a + b)[..|a + b| - 1] == a + b[..|b| - 1];
    }
  }

  /** A solution's entries carry its steps as their actions, in order. */
  lemma {:induction false} EntriesActions(s: AiSolution, index: nat, j: nat)
    requires j <= |StepsOf(s)|
    ensures Actions(Entries(s, index, j)) == StepsOf(s)[..j]
  {
    if j > 0 {
      EntriesActions(s, index, j - 1);
      ActionsAppend(Entries(s, index, j - 1), [Entry(s, index, j - 1)]);
      assert Actions([Entry(s, index, j - 1)]) == [StepsOf(s)[j - 1]];
      assert StepsOf(s)[..j] == StepsOf(s)[..j - 1] + [StepsOf(s)[j - 1]];
    }
  }

  /** There is one entry per step, and the entries' actions are the steps of all solutions in order. */
  lemma {:induction false} PlanHasEveryStep(solutions: seq<AiSolution>, n: nat)
    requires n <= |solutions|
    ensures Actions(PlanOf(solutions, n)) == AllSteps(solutions, n)
    ensures |PlanOf(solutions, n)| == |AllSteps(solutions, n)|
  {
    if n > 0 {
      PlanHasEveryStep(solutions, n - 1);
      var s := solutions[n - 1];
      EntriesActions(s, n - 1, |StepsOf(s)|);
      ActionsAppend(PlanOf(solutions, n - 1), Entries(s, n - 1, |StepsOf(s)|));
      ActionsLength(Entries(s, n - 1, |StepsOf(s)|));
      assert StepsOf(s)[..|StepsOf(s)|] == StepsOf(s);
    }
  }

  lemma {:induction false} ActionsLength(plan: seq<PlanStep>)
    ensures |Actions(plan)| == |plan|
  {
    if |plan| > 0 {
      ActionsLength(plan[..|plan| - 1]);
    }
  }

  /** Step `j` of solution `i` is labelled with the two one-based numbers joined by a point. */
  lemma EntryLabel(s: AiSolution, index: nat, j: nat)
    requires j < |StepsOf(s)|
    ensures Split(Entry(s, index, j).step, '.') == [NatString(index + 1), NatString(j + 1)]
  {
    var a, b := NatString(index + 1), NatString(j + 1);
    assert '.' !in a by { assert forall k :: 0 <= k < |a| ==> a[k] != '.'; }
    assert '.' !in b by { assert forall k :: 0 <= k < |b| ==> b[k] != '.'; }
    SplitCons(a, '.', b);
    SplitSingle(b, '.');
  }
}
