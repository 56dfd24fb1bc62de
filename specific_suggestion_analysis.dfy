/** The specific-suggestion route: the AI's "five suggestions" and "five taboos" sections
 *  cut into at most five items each, the dated fallback lists used when a section yields
 *  nothing, and the request handler with its error path. */
module SpecificSuggestionAnalysis {
  import opened Wrappers
  import opened Strings
  import Words

  /** A JavaScript value read as a condition: missing or `""` is false. */
  predicate Truthy(o: Option<string>)
  {
    o.Some? && o.value != ""
  }

  // ---------------------------------------------------------------------------
  // Hits of the numbered-list patterns

  /** One `matchAll` hit: group 1 (the number), group 2, and group 3, which only the
   *  primary "1. title: content" pattern has. */
  datatype Match = Match(number: string, second: Option<string>, third: Option<string>)

  /** The hits of the three patterns on one section text: "1. title: content",
   *  "1. text", and Chinese numerals "一、text". */
  datatype Hits = Hits(primary: seq<Match>, numbered: seq<Match>, chinese: seq<Match>)

  /** The first pattern with any hit is the one used. */
  function Chosen(h: Hits): (r: seq<Match>)
    ensures |r| == 0 <==> |h.primary| == 0 && |h.numbered| == 0 && |h.chinese| == 0
    ensures r in {h.primary, h.numbered, h.chinese}
  {
    if |h.primary| > 0 then h.primary else if |h.numbered| > 0 then h.numbered else h.chinese
  }

  /** The first five hits, each made into an item by its position. */
  function FirstFive<T>(ms: seq<Match>, item: (Match, nat) -> T): (r: seq<T>)
    ensures |r| == (if |ms| < 5 then |ms| else 5)
    ensures forall k :: 0 <= k < |r| ==> r[k] == item(ms[k], k)
  {
    var n := if |ms| < 5 then |ms| else 5;
    seq(n, k requires 0 <= k < n => item(ms[k], k))
  }

  /** `matches.forEach((match, index) => { if (index < 5) { ... push ... } })`. */
  method EachOfFirstFive<T>(matches: seq<Match>, item: (Match, nat) -> T) returns (r: seq<T>)
    ensures r == FirstFive(matches, item)
  {
    r := [];
    for index := 0 to |matches|
      invariant |r| == (if index < 5 then index else 5)
      invariant forall k :: 0 <= k < |r| ==> r[k] == item(matches[k], k)
    {
      if index < 5 {
        r := r + [item(matches[index], index)];
      }
    }
  }

  /** The three patterns tried in order, as the parsers do. */
  method ChooseMatches(h: Hits) returns (matches: seq<Match>)
    ensures matches == Chosen(h)
  {
    matches := h.primary;
    if |matches| == 0 {
      matches := h.numbered;
    }
    if |matches| == 0 {
      matches := h.chinese;
    }
  }

  // ---------------------------------------------------------------------------
  // Cutting one hit into title and content

  /** `fullText.indexOf("：") || fullText.indexOf(":")`: -1 is truthy, so the ASCII colon
   *  is only looked for when the full-width one stands at position 0. */
  function ColonIndex(t: string): (r: int)
    ensures r != 0
    ensures r == -1 <==> '：' !in t || (t[0] == '：' && ':' !in t)
    ensures r > 0 ==> r < |t| && (t[r] == '：' || t[r] == ':')
    ensures r > 0 && t[r] == ':' ==> t[0] == '：'
    ensures r > 0 && t[r] == '：' ==> '：' !in t[..r]
  {
    var i := IndexOfChar(t, '：');
    if i == 0 then IndexOfChar(t, ':')
    else
      assert i > 0 ==> forall k :: 0 <= k < i ==> t[..i][k] != '：';
      i
  }

  /** `match[2] || match[1] || ""`; group 1 is always a matched string. */
  function FullText(m: Match): string
  {
    if Truthy(m.second) then m.second.value else m.number
  }

  /** The placeholder title `${label} ${index + 1}`. */
  function Numbered(word: string, index: nat): string
  {
    word + " " + NatString(index + 1)
  }

  datatype Piece = Piece(title: string, content: string)

  /** Title and content of the `index`-th hit before any cleaning. */
  function RawPiece(m: Match, index: nat, word: string): Piece
  {
    if Truthy(m.third) then
      Piece(if Truthy(m.second) then m.second.value else Numbered(word, index), m.third.value)
    else
      var t := FullText(m);
      var ci := ColonIndex(t);
      if 0 < ci && 5 * ci < 2 * |t| then Piece(t[..ci], t[ci + 1..])
      else Piece(Numbered(word, index), t)
  }

  /** Without a third group the full text is either cut at its colon, which then stands in
   *  the first 40% of the text, or kept whole behind a numbered placeholder title; nothing
   *  but that one colon is lost. */
  lemma RawPieceRule(m: Match, index: nat, word: string)
    requires !Truthy(m.third)
    ensures var p, t := RawPiece(m, index, word), FullText(m);
      (p.title == Numbered(word, index) && p.content == t)
      || (exists c :: (c == '：' || c == ':') && t == p.title + [c] + p.content
            && 0 < |p.title| && 5 * |p.title| < 2 * |t|)
    ensures var p, t := RawPiece(m, index, word), FullText(m);
      p.content == t <==> !(0 < ColonIndex(t) && 5 * ColonIndex(t) < 2 * |t|)
  {
    var p, t := RawPiece(m, index, word), FullText(m);
    var ci := ColonIndex(t);
    if 0 < ci && 5 * ci < 2 * |t| {
      assert t == t[..ci] + [t[ci]] + t[ci + 1..];
    }
  }

  // ---------------------------------------------------------------------------
  // Cleaning

  /** `s.replace(/[：:]/g, "")`. */
  function NoColons(s: string): (r: string)
    ensures '：' !in r && ':' !in r
    ensures |r| <= |s|
    ensures '：' !in s && ':' !in s ==> r == s
  {
    if |s| == 0 then ""
    else (if s[0] == '：' || s[0] == ':' then "" else [s[0]]) + NoColons(s[1..])
  }

  /** Over 150 characters: the first 120 and "...". */
  function Shortened(s: string): string
  {
    if |s| > 150 then s[..120] + "..." else s
  }

  /** `s.replace(/ending$/, "")`. */
  function DropEnding(s: string, e: string): (r: string)
    ensures r == s || r + e == s
  {
    if EndsWith(s, e) then s[..|s| - |e|] else s
  }

  /** The endings removed one after the other, in the listed order. */
  function DropEndings(s: string, es: seq<string>): (r: string)
    ensures |r| <= |s| && r == s[..|r|]
    decreases |es|
  {
    if |es| == 0 then s
    else
      var t := DropEnding(s, es[0]);
      assert t == s[..|t|];
      DropEndings(t, es[1..])
  }

  /** Trim, line-feed runs and then white-space runs to one space, shorten, and drop the
   *  canned closing sentences. */
  function CleanContent(c: string, endings: seq<string>): string
  {
    DropEndings(Shortened(Words.CollapseRuns(Words.CollapseRuns(Trim(c), false), true)), endings)
  }

  /** Every cleaned content is at most 150 characters and holds no line feed or other white
   *  space than single spaces. */
  lemma CleanContentRule(c: string, endings: seq<string>)
    ensures var r := CleanContent(c, endings);
      |r| <= 150 && Words.Collapsed(r) && '\n' !in r
  {
    var a := Words.CollapseRuns(Words.CollapseRuns(Trim(c), false), true);
    Words.CollapseSpaces(Words.CollapseRuns(Trim(c), false));
    var b := Shortened(a);
    if |a| > 150 {
      Words.CollapsedPrefix(a, 120);
    }
    assert Words.Collapsed(b);
    var r := DropEndings(b, endings);
    Words.CollapsedPrefix(b, |r|);
    assert Words.Collapsed(r);
    forall k | 0 <= k < |r| ensures r[k] != '\n' {
      assert r[k] == '\n' ==> IsJsSpace(r[k]);
    }
  }

  // ---------------------------------------------------------------------------
  // Suggestions

  datatype Suggestion = Suggestion(title: string, description: string, icon: string, category: string)

  const SuggestionIcons: seq<string> := ["🎯", "💡", "⭐", "🚀", "🔮"]

  function SuggestionCategories(simplified: bool): seq<string>
  {
    if simplified then ["核心型", "实用型", "提升型", "突破型", "智慧型"]
    else ["核心型", "實用型", "提升型", "突破型", "智慧型"]
  }

  /** `table[index] || fallback`. */
  function Pick(table: seq<string>, index: nat, fallback: string): string
  {
    if index < |table| && table[index] != "" then table[index] else fallback
  }

  /** Every entry of a table is non-empty, so `table[index] || fallback` is the entry. */
  lemma PickEntry(table: seq<string>, index: nat, fallback: string)
    requires index < |table| && Filled(table)
    ensures Pick(table, index, fallback) == table[index]
  {
    assert |table[index]| > 0;
  }

  predicate Filled(table: seq<string>)
  {
    forall j :: 0 <= j < |table| ==> |table[j]| > 0
  }

  lemma SuggestionTablesFilled(simplified: bool)
    ensures |SuggestionIcons| == 5 && Filled(SuggestionIcons)
    ensures |SuggestionCategories(simplified)| == 5 && Filled(SuggestionCategories(simplified))
  {
  }

  const SuggestionClosingSimplified: string := "根据你的八字分析，建议持续观察并调整策略，以达到最佳效果。"
  const SuggestionClosingTraditional: string := "根據你的八字分析，建議持續觀察並調整策略，以達到最佳效果。"

  /** The four closing sentences removed, each with and without a leading "...". */
  function Closings(simplified: string, traditional: string): seq<string>
  {
    ["..." + simplified, simplified, "..." + traditional, traditional]
  }

  function SuggestionAt(m: Match, index: nat, simplified: bool): Suggestion
  {
    var p := RawPiece(m, index, if simplified then "建议" else "建議");
    Suggestion(NoColons(Trim(p.title)),
               CleanContent(p.content, Closings(SuggestionClosingSimplified, SuggestionClosingTraditional)),
               Pick(SuggestionIcons, index, "💫"),
               Pick(SuggestionCategories(simplified), index, if simplified then "建议型" else "建議型"))
  }

  /** The suggestion made of hit number `index`. */
  function SuggestionMaker(simplified: bool): (Match, nat) -> Suggestion
  {
    (m: Match, index: nat) => SuggestionAt(m, index, simplified)
  }

  /** `parseSuggestionsFromText`: the first five hits of the first pattern that has any. */
  function Suggestions(h: Hits, simplified: bool): seq<Suggestion>
  {
    FirstFive(Chosen(h), SuggestionMaker(simplified))
  }

  method ParseSuggestionsFromText(h: Hits, simplified: bool) returns (r: seq<Suggestion>)
    ensures r == Suggestions(h, simplified)
  {
    var matches := ChooseMatches(h);
    r := EachOfFirstFive(matches, SuggestionMaker(simplified));
  }

  /** At most five suggestions, none only when no pattern hit; titles free of colons,
   *  descriptions cleaned, and icon and category taken by position. */
  lemma SuggestionsRule(h: Hits, simplified: bool)
    ensures var r := Suggestions(h, simplified);
      |r| <= 5 && (|r| == 0 <==> |Chosen(h)| == 0)
    ensures var r := Suggestions(h, simplified);
      forall k :: 0 <= k < |r| ==>
        '：' !in r[k].title && ':' !in r[k].title
        && |r[k].description| <= 150 && Words.Collapsed(r[k].description)
        && r[k].icon == SuggestionIcons[k] && r[k].category == SuggestionCategories(simplified)[k]
  {
    var r, ms := Suggestions(h, simplified), Chosen(h);
    SuggestionTablesFilled(simplified);
    forall k | 0 <= k < |r|
      ensures '：' !in r[k].title && ':' !in r[k].title
        && |r[k].description| <= 150 && Words.Collapsed(r[k].description)
        && r[k].icon == SuggestionIcons[k] && r[k].category == SuggestionCategories(simplified)[k]
    {
      assert r[k] == SuggestionAt(ms[k], k, simplified);
      PickEntry(SuggestionIcons, k, "💫");
      PickEntry(SuggestionCategories(simplified), k, if simplified then "建议型" else "建議型");
      var p := RawPiece(ms[k], k, if simplified then "建议" else "建議");
      CleanContentRule(p.content, Closings(SuggestionClosingSimplified, SuggestionClosingTraditional));
    }
  }

  // ---------------------------------------------------------------------------
  // Taboos

  datatype Taboo = Taboo(title: string, description: string, icon: string, level: string, consequence: string)

  const TabooIcons: seq<string> := ["🚫", "⚠️", "❌", "🔴", "🛑"]

  lemma TabooTablesFilled(simplified: bool)
    ensures |TabooIcons| == 5 && Filled(TabooIcons)
    ensures |TabooLevels(simplified)| == 5 && Filled(TabooLevels(simplified))
    ensures |TabooConsequences(simplified)| == 5 && Filled(TabooConsequences(simplified))
  {
  }

  function TabooLevels(simplified: bool): seq<string>
  {
    if simplified then ["严禁", "避免", "谨慎", "警惕", "注意"]
    else ["嚴禁", "避免", "謹慎", "警惕", "注意"]
  }

  function TabooConsequences(simplified: bool): seq<string>
  {
    if simplified then ["影响运势", "阻碍发展", "增加风险", "损害利益", "破坏平衡"]
    else ["影響運勢", "阻礙發展", "增加風險", "損害利益", "破壞平衡"]
  }

  const TabooClosingSimplified: string := "避免此行为可能导致的负面后果，建议谨慎处理相关事务。"
  const TabooClosingTraditional: string := "避免此行為可能導致的負面後果，建議謹慎處理相關事務。"

  function TabooAt(m: Match, index: nat, simplified: bool): Taboo
  {
    var p := RawPiece(m, index, "禁忌");
    Taboo(NoColons(Trim(p.title)),
          CleanContent(p.content, Closings(TabooClosingSimplified, TabooClosingTraditional)),
          Pick(TabooIcons, index, "⛔"),
          Pick(TabooLevels(simplified), index, "注意"),
          Pick(TabooConsequences(simplified), index, if simplified then "可能影响整体运势" else "可能影響整體運勢"))
  }

  /** The taboo made of hit number `index`. */
  function TabooMaker(simplified: bool): (Match, nat) -> Taboo
  {
    (m: Match, index: nat) => TabooAt(m, index, simplified)
  }

  /** `parseTaboosFromText`: the first five hits of the first pattern that has any. */
  function Taboos(h: Hits, simplified: bool): seq<Taboo>
  {
    FirstFive(Chosen(h), TabooMaker(simplified))
  }

  method ParseTaboosFromText(h: Hits, simplified: bool) returns (r: seq<Taboo>)
    ensures r == Taboos(h, simplified)
  {
    var matches := ChooseMatches(h);
    r := EachOfFirstFive(matches, TabooMaker(simplified));
  }

  /** At most five taboos, none only when no pattern hit; titles free of colons,
   *  descriptions cleaned, and icon, level and consequence taken by position. */
  lemma TaboosRule(h: Hits, simplified: bool)
    ensures var r := Taboos(h, simplified);
      |r| <= 5 && (|r| == 0 <==> |Chosen(h)| == 0)
    ensures var r := Taboos(h, simplified);
      forall k :: 0 <= k < |r| ==>
        '：' !in r[k].title && ':' !in r[k].title
        && |r[k].description| <= 150 && Words.Collapsed(r[k].description)
        && r[k].icon == TabooIcons[k] && r[k].level == TabooLevels(simplified)[k]
        && r[k].consequence == TabooConsequences(simplified)[k]
  {
    var r, ms := Taboos(h, simplified), Chosen(h);
    TabooTablesFilled(simplified);
    forall k | 0 <= k < |r|
      ensures '：' !in r[k].title && ':' !in r[k].title
        && |r[k].description| <= 150 && Words.Collapsed(r[k].description)
        && r[k].icon == TabooIcons[k] && r[k].level == TabooLevels(simplified)[k]
        && r[k].consequence == TabooConsequences(simplified)[k]
    {
      assert r[k] == TabooAt(ms[k], k, simplified);
      PickEntry(TabooIcons, k, "⛔");
      PickEntry(TabooLevels(simplified), k, "注意");
      PickEntry(TabooConsequences(simplified), k, if simplified then "可能影响整体运势" else "可能影響整體運勢");
      var p := RawPiece(ms[k], k, "禁忌");
      CleanContentRule(p.content, Closings(TabooClosingSimplified, TabooClosingTraditional));
    }
  }

  // ---------------------------------------------------------------------------
  // Dated fallback lists

  /** The current month (1 to 12) and year, read from the clock. */
  datatype Clock = Clock(month: nat, year: nat)

  /** Near, middle and far dates the fallback texts name. */
  datatype Dates = Dates(near: string, middle: string, far: string)

  function SuggestionDates(simplified: bool, c: Clock): Dates
  {
    var next := NatString(c.year + 1);
    if c.month == 11 then Dates("11月底前", "今年底（12月）", "明年初（" + next + "年1-2月）")
    else if c.month == 12 then Dates("12月底前", "明年初（" + next + "年1月）", "明年春季（" + next + "年3-5月）")
    else Dates("10月底前", if simplified then "接下来的冬季（11-1月）" else "接下來的冬季（11-1月）",
               "明年春季（" + next + "年3-5月）")
  }

  function TabooDates(simplified: bool, c: Clock): Dates
  {
    if c.month == 11 then Dates("11月底前", if simplified then "接下来的12月" else "接下來的12月", "今年底")
    else if c.month == 12 then Dates("12月底前", "明年初（" + NatString(c.year + 1) + "年1月）", "年底前")
    else Dates("10月底前", if simplified then "接下来两个月（11-12月）" else "接下來兩個月（11-12月）", "今年底")
  }

  /** The near-term deadline is the end of the current month, or of October before it:
   *  never a month already past. */
  lemma DeadlineRule(simplified: bool, c: Clock)
    requires 1 <= c.month <= 12
    ensures var m := if c.month < 10 then 10 else c.month;
      SuggestionDates(simplified, c).near == NatString(m) + "月底前"
      && TabooDates(simplified, c).near == NatString(m) + "月底前"
  {
    if c.month == 11 {
      assert NatString(11) == "11";
    } else if c.month == 12 {
      assert NatString(12) == "12";
    } else {
      assert NatString(10) == "10";
    }
  }

  /** The far date of the suggestions always lies in next year, and names it. */
  lemma FarDateRule(simplified: bool, c: Clock)
    ensures Contains(SuggestionDates(simplified, c).far, "明年")
      && Contains(SuggestionDates(simplified, c).far, NatString(c.year + 1) + "年")
  {
    var next := NatString(c.year + 1);
    var far := SuggestionDates(simplified, c).far;
    var pre := if c.month == 11 then "明年初（" else "明年春季（";
    var post := if c.month == 11 then "1-2月）" else "3-5月）";
    assert far == pre + (next + "年") + post;
    ContainsAt(next + "年", next + "年", 0);
    ContainsInfix(pre, next + "年", post, next + "年");
    ContainsAt(far, "明年", 0);
  }

  /** The text around the date of fallback item `k`: item `k` reads `pre + date + post`. */
  function SuggestionFrame(simplified: bool, k: nat): (string, string)
    requires k < 5
  {
    if simplified then
      match k
      case 0 => ("根据你的八字分析，建议", "调整居住或工作环境，增强有利的风水元素。选择适合的方位和布局，有助于提升整体运势。")
      case 1 => ("依据你的命理周期，建议", "期间进行重要决策。关注个人运势周期，把握最佳行动时机，今年底前完成重要规划。")
      case 2 => ("针对你的八字特点，建议从现在开始加强相应的个人能力。透过学习和实践，在", "前提升自身竞争力和适应能力。")
      case 3 => ("根据你的社交宫位分析，建议接下来几个月扩展有益的人际关系。与贵人建立良好关系，在", "建立稳固的合作基础。")
      case 4 => ("基于你的性格特质，建议从现在开始保持积极正面的心态。透过冥想、运动等方式调节情绪，在", "达到内心平衡与和谐。")
    else
      match k
      case 0 => ("根據你的八字分析，建議", "調整居住或工作環境，增強有利的風水元素。選擇適合的方位和佈局，有助於提升整體運勢。")
      case 1 => ("依據你的命理週期，建議", "期間進行重要決策。關注個人運勢週期，把握最佳行動時機，今年底前完成重要規劃。")
      case 2 => ("針對你的八字特點，建議從現在開始加強相應的個人能力。透過學習和實踐，在", "前提升自身競爭力和適應能力。")
      case 3 => ("根據你的社交宮位分析，建議接下來幾個月擴展有益的人際關係。與貴人建立良好關係，在", "建立穩固的合作基礎。")
      case 4 => ("基於你的性格特質，建議從現在開始保持積極正面的心態。透過冥想、運動等方式調節情緒，在", "達到內心平衡與和諧。")
  }

  /** Which date item `k` names: near, middle, far, middle, far. */
  function SuggestionDate(d: Dates, k: nat): string
  {
    if k == 0 then d.near else if k == 1 || k == 3 then d.middle else d.far
  }

  function FallbackSuggestionHeads(simplified: bool): seq<(string, string, string)>
  {
    if simplified then
      [("环境调整", "🏠", "环境型"), ("时机把握", "⏰", "时机型"), ("个人提升", "📚", "提升型"),
       ("人际网络", "🤝", "人脉型"), ("心态调整", "🧘", "心理型")]
    else
      [("環境調整", "🏠", "環境型"), ("時機把握", "⏰", "時機型"), ("個人提升", "📚", "提升型"),
       ("人際網絡", "🤝", "人脈型"), ("心態調整", "🧘", "心理型")]
  }

  /** `generateFallbackSuggestions`. */
  function FallbackSuggestions(simplified: bool, c: Clock): seq<Suggestion>
  {
    var d := SuggestionDates(simplified, c);
    var heads := FallbackSuggestionHeads(simplified);
    seq(5, k requires 0 <= k < 5 =>
      Suggestion(heads[k].0, SuggestionFrame(simplified, k).0 + SuggestionDate(d, k) + SuggestionFrame(simplified, k).1,
                 heads[k].1, heads[k].2))
  }

  /** Exactly five fallback suggestions, each naming its date. */
  lemma FallbackSuggestionsRule(simplified: bool, c: Clock)
    ensures var r := FallbackSuggestions(simplified, c);
      |r| == 5 && forall k :: 0 <= k < 5 ==>
        Contains(r[k].description, SuggestionDate(SuggestionDates(simplified, c), k))
  {
    var r := FallbackSuggestions(simplified, c);
    var d := SuggestionDates(simplified, c);
    forall k | 0 <= k < 5 ensures Contains(r[k].description, SuggestionDate(d, k)) {
      var t := SuggestionDate(d, k);
      ContainsAt(t, t, 0);
      ContainsInfix(SuggestionFrame(simplified, k).0, t, SuggestionFrame(simplified, k).1, t);
    }
  }

  /** The text around the date of fallback taboo `k`; taboo 3 names no date. */
  function TabooFrame(simplified: bool, k: nat): (string, string)
    requires k < 5
  {
    if simplified then
      match k
      case 0 => ("", "避免在情绪激动或压力大时做重要决定。冷静思考，咨询可靠建议后再行动，以免造成不必要的损失。")
      case 1 => ("", "期间远离充满负能量的人和环境，避免长期处于消极氛围中。选择积极正面的环境，维持良好运势。")
      case 2 => ("从现在到", "注意工作与生活平衡，避免过度透支身体和精神。适当休息和放松，保持身心健康状态。")
      case 3 => ("接下来几个月避免参与高风险投机活动，包括赌博、投机股票等。稳健理财，避免因贪心造成财务损失。", "")
      case 4 => ("", "前的重要决策不要完全忽视内心直觉和感受。适当相信第六感，但也要结合理性分析，避免错失机会。")
    else
      match k
      case 0 => ("", "避免在情緒激動或壓力大時做重要決定。冷靜思考，諮詢可靠建議後再行動，以免造成不必要的損失。")
      case 1 => ("", "期間遠離充滿負能量的人和環境，避免長期處於消極氛圍中。選擇積極正面的環境，維持良好運勢。")
      case 2 => ("從現在到", "注意工作與生活平衡，避免過度透支身體和精神。適當休息和放鬆，保持身心健康狀態。")
      case 3 => ("接下來幾個月避免參與高風險投機活動，包括賭博、投機股票等。穩健理財，避免因貪心造成財務損失。", "")
      case 4 => ("", "前的重要決策不要完全忽視內心直覺和感受。適當相信第六感，但也要結合理性分析，避免錯失機會。")
  }

  /** Which date taboo `k` names: near, middle, year end, none, year end. */
  function TabooDate(d: Dates, k: nat): string
  {
    if k == 0 then d.near else if k == 1 then d.middle else if k == 3 then "" else d.far
  }

  function FallbackTabooHeads(simplified: bool): seq<(string, string, string, string)>
  {
    if simplified then
      [("冲动决策", "🚫", "严禁", "可能导致重大失误"), ("负面环境", "⚠️", "避免", "影响个人气场"),
       ("过度劳累", "😵", "注意", "损害身体健康"), ("投机行为", "🎰", "禁止", "财务风险增大"),
       ("忽视直觉", "🔮", "警惕", "错失重要机会")]
    else
      [("衝動決策", "🚫", "嚴禁", "可能導致重大失誤"), ("負面環境", "⚠️", "避免", "影響個人氣場"),
       ("過度勞累", "😵", "注意", "損害身體健康"), ("投機行為", "🎰", "禁止", "財務風險增大"),
       ("忽視直覺", "🔮", "警惕", "錯失重要機會")]
  }

  /** `generateFallbackTaboos`. */
  function FallbackTaboos(simplified: bool, c: Clock): seq<Taboo>
  {
    var d := TabooDates(simplified, c);
    var heads := FallbackTabooHeads(simplified);
    seq(5, k requires 0 <= k < 5 =>
      Taboo(heads[k].0, TabooFrame(simplified, k).0 + TabooDate(d, k) + TabooFrame(simplified, k).1,
            heads[k].1, heads[k].2, heads[k].3))
  }

  /** Exactly five fallback taboos; every one but the fourth names its date, and the first
   *  opens with the near-term deadline. */
  lemma FallbackTaboosRule(simplified: bool, c: Clock)
    ensures var r := FallbackTaboos(simplified, c);
      |r| == 5 && StartsWith(r[0].description, TabooDates(simplified, c).near)
      && forall k :: 0 <= k < 5 && k != 3 ==>
        Contains(r[k].description, TabooDate(TabooDates(simplified, c), k))
  {
    TabooOpensWithDeadline(simplified, c);
    forall k | 0 <= k < 5 && k != 3
      ensures Contains(FallbackTaboos(simplified, c)[k].description, TabooDate(TabooDates(simplified, c), k))
    {
      TabooNamesDate(simplified, c, k);
    }
  }

  /** The first fallback taboo opens with the near-term deadline. */
  lemma TabooOpensWithDeadline(simplified: bool, c: Clock)
    ensures |FallbackTaboos(simplified, c)| == 5
    ensures StartsWith(FallbackTaboos(simplified, c)[0].description, TabooDates(simplified, c).near)
  {
    var d := TabooDates(simplified, c);
    var f := TabooFrame(simplified, 0);
    assert FallbackTaboos(simplified, c)[0].description == f.0 + d.near + f.1;
    FirstTabooFrame(simplified);
    ConcatEnds(f.0 + d.near, f.1);
  }

  /** Nothing stands before the first taboo's date. */
  lemma FirstTabooFrame(simplified: bool)
    ensures TabooFrame(simplified, 0).0 == ""
  {
  }

  /** Fallback taboo `k` reads its frame around its date. */
  lemma TabooNamesDate(simplified: bool, c: Clock, k: nat)
    requires k < 5
    ensures Contains(FallbackTaboos(simplified, c)[k].description, TabooDate(TabooDates(simplified, c), k))
  {
    var t := TabooDate(TabooDates(simplified, c), k);
    var f := TabooFrame(simplified, k);
    assert FallbackTaboos(simplified, c)[k].description == f.0 + t + f.1;
    ContainsAt(t, t, 0);
    ContainsInfix(f.0, t, f.1, t);
  }

  // ---------------------------------------------------------------------------
  // Parsing the answer

  datatype Parsed = Parsed(suggestions: seq<Suggestion>, taboos: seq<Taboo>)

  /** `parseSpecificSuggestionContent`: a section that yields nothing is replaced by its
   *  fallback list. */
  function ParsedContent(suggestionHits: Hits, tabooHits: Hits, simplified: bool, c: Clock): Parsed
  {
    var s := Suggestions(suggestionHits, simplified);
    var t := Taboos(tabooHits, simplified);
    Parsed(if |s| > 0 then s else FallbackSuggestions(simplified, c),
           if |t| > 0 then t else FallbackTaboos(simplified, c))
  }

  method ParseSpecificSuggestionContent(suggestionHits: Hits, tabooHits: Hits, simplified: bool, c: Clock)
    returns (r: Parsed)
    ensures r == ParsedContent(suggestionHits, tabooHits, simplified, c)
  {
    var suggestions := ParseSuggestionsFromText(suggestionHits, simplified);
    var taboos := ParseTaboosFromText(tabooHits, simplified);
    r := Parsed(if |suggestions| > 0 then suggestions else FallbackSuggestions(simplified, c),
                if |taboos| > 0 then taboos else FallbackTaboos(simplified, c));
  }

  /** Both lists hold one to five items, and exactly five fallback items when no pattern
   *  hit in that section. */
  lemma ParsedContentRule(suggestionHits: Hits, tabooHits: Hits, simplified: bool, c: Clock)
    ensures var r := ParsedContent(suggestionHits, tabooHits, simplified, c);
      1 <= |r.suggestions| <= 5 && 1 <= |r.taboos| <= 5
    ensures var r := ParsedContent(suggestionHits, tabooHits, simplified, c);
      |Chosen(suggestionHits)| == 0 ==> r.suggestions == FallbackSuggestions(simplified, c)
    ensures var r := ParsedContent(suggestionHits, tabooHits, simplified, c);
      |Chosen(tabooHits)| == 0 ==> r.taboos == FallbackTaboos(simplified, c)
  {
    SuggestionsRule(suggestionHits, simplified);
    TaboosRule(tabooHits, simplified);
    FallbackSuggestionsRule(simplified, c);
    FallbackTaboosRule(simplified, c);
  }

  // ---------------------------------------------------------------------------
  // The handler

  datatype UserInfo = UserInfo(birthDateTime: Option<string>, concern: Option<string>,
                               problem: Option<string>, gender: Option<string>)

  datatype Body = Body(userInfo: Option<UserInfo>, locale: Option<string>)

  predicate SimplifiedLocale(locale: Option<string>)
  {
    locale == Some("china") || locale == Some("zh-CN")
  }

  datatype Analysis = Analysis(
    title: string, subtitle: string, suggestions: seq<Suggestion>, taboos: seq<Taboo>,
    concern: Option<string>, problem: Option<string>, userBirthday: Option<string>,
    userGender: string, aiResponse: string)

  datatype Response = BadRequest | Success(data: Analysis, fallback: bool)

  function Title(simplified: bool): string
  {
    if simplified then "针对性建议" else "針對性建議"
  }

  /** The data of a successful analysis. */
  function Answered(u: UserInfo, simplified: bool, answer: string, p: Parsed): Analysis
  {
    var problem := if Truthy(u.problem) then u.problem.value
                   else if simplified then "个人关注问题" else "個人關注問題";
    Analysis(Title(simplified), (if simplified then "专门解决：" else "專門解決：") + problem,
             p.suggestions, p.taboos, u.concern, u.problem, u.birthDateTime,
             if u.gender == Some("male") then "男性" else "女性", answer)
  }

  /** The data returned from the catch block. */
  function ErrorData(simplified: bool, c: Clock): Analysis
  {
    var unspecified := "未指定";
    Analysis(Title(simplified),
             if simplified then "基于传统风水命理的一般性建议" else "基於傳統風水命理的一般性建議",
             FallbackSuggestions(simplified, c), FallbackTaboos(simplified, c),
             Some(if simplified then "综合" else "綜合"), Some(if simplified then "一般性问题" else "一般性問題"),
             Some(unspecified), unspecified, if simplified then "使用预设建议内容" else "使用預設建議內容")
  }

  /** The handler. `body` is the parsed JSON body (None when it is not JSON) and `answer`
   *  the AI's reply (None when the call fails). The catch block reads the body a second
   *  time to learn the locale; `rereadSeesLocale` says whether that read succeeds. */
  function Handle(body: Option<Body>, answer: Option<string>, suggestionHits: Hits, tabooHits: Hits,
                  c: Clock, rereadSeesLocale: bool): Response
  {
    if body.Some? && body.value.userInfo.None? then BadRequest
    else if body.Some? && answer.Some? then
      var simplified := SimplifiedLocale(body.value.locale);
      Success(Answered(body.value.userInfo.value, simplified, answer.value,
                       ParsedContent(suggestionHits, tabooHits, simplified, c)), false)
    else
      var simplified := rereadSeesLocale && body.Some? && SimplifiedLocale(body.value.locale);
      Success(ErrorData(simplified, c), true)
  }

  /** `POST` as written: the catch block calls `request.json()` again, but a request body
   *  can be read only once, so that call always throws and the error data is always in
   *  traditional script. */
  function PostAsWritten(body: Option<Body>, answer: Option<string>, suggestionHits: Hits, tabooHits: Hits,
                         c: Clock): (r: Response)
  {
    Handle(body, answer, suggestionHits, tabooHits, c, false)
  }

  /** A simplified-script request whose AI call fails gets a traditional-script answer. */
  lemma ErrorFallbackIgnoresLocale(h: Hits, c: Clock)
    ensures var body := Some(Body(Some(UserInfo(None, None, None, None)), Some("china")));
      PostAsWritten(body, None, h, h, c).data.title == "針對性建議"
      && SimplifiedLocale(body.value.locale)
  {
  }

  /** `POST` with the locale remembered for the catch block, as its comment intends. */
  function Post(body: Option<Body>, answer: Option<string>, suggestionHits: Hits, tabooHits: Hits,
                c: Clock): Response
  {
    Handle(body, answer, suggestionHits, tabooHits, c, true)
  }

  /** 400 exactly when the body has no user information; an analysis of the answer exactly
   *  when the AI answered; the fallback data otherwise. */
  lemma PostOutcome(body: Option<Body>, answer: Option<string>, suggestionHits: Hits, tabooHits: Hits,
                    c: Clock)
    ensures var r := Post(body, answer, suggestionHits, tabooHits, c);
      (r.BadRequest? <==> body.Some? && body.value.userInfo.None?)
      && (r.Success? && !r.fallback <==> body.Some? && body.value.userInfo.Some? && answer.Some?)
      && (r.Success? && !r.fallback ==> r.data.aiResponse == answer.value)
  {
  }

  /** Every answer is in the request's script, and holds one to five suggestions and taboos,
   *  five of each on the fallback path. */
  lemma PostContent(body: Option<Body>, answer: Option<string>, suggestionHits: Hits, tabooHits: Hits,
                    c: Clock)
    ensures var r := Post(body, answer, suggestionHits, tabooHits, c);
      r.Success? ==> (r.data.title == "针对性建议" <==> body.Some? && SimplifiedLocale(body.value.locale))
    ensures var r := Post(body, answer, suggestionHits, tabooHits, c);
      r.Success? ==> 1 <= |r.data.suggestions| <= 5 && 1 <= |r.data.taboos| <= 5
    ensures var r := Post(body, answer, suggestionHits, tabooHits, c);
      r.Success? && r.fallback ==> |r.data.suggestions| == 5 && |r.data.taboos| == 5
  {
    if body.Some? && body.value.userInfo.Some? && answer.Some? {
      AnsweredShape(body.value.userInfo.value, SimplifiedLocale(body.value.locale), answer.value,
                    suggestionHits, tabooHits, c);
    } else {
      ErrorDataShape(body.Some? && SimplifiedLocale(body.value.locale), c);
    }
  }

  /** An analysed answer is titled in its script and holds one to five of each list. */
  lemma AnsweredShape(u: UserInfo, simplified: bool, answer: string, suggestionHits: Hits, tabooHits: Hits,
                      c: Clock)
    ensures var d := Answered(u, simplified, answer, ParsedContent(suggestionHits, tabooHits, simplified, c));
      (d.title == "针对性建议" <==> simplified)
      && 1 <= |d.suggestions| <= 5 && 1 <= |d.taboos| <= 5
  {
    ParsedContentRule(suggestionHits, tabooHits, simplified, c);
  }

  /** The catch block's data is titled in its script and holds five of each list. */
  lemma ErrorDataShape(simplified: bool, c: Clock)
    ensures var d := ErrorData(simplified, c);
      (d.title == "针对性建议" <==> simplified) && |d.suggestions| == 5 && |d.taboos| == 5
  {
    FallbackSuggestionsRule(simplified, c);
    FallbackTaboosRule(simplified, c);
  }
}
