/** The season-analysis route: the prompt's per-season sections, the four seasons rotated
 *  to start at the current one and labelled, each season's text shortened or replaced by
 *  the stock text for the concern, and the request handling. Finding a season's text in
 *  the answer with the route's regular expressions and the clean-up replacements are not
 *  modelled; their results are inputs. */
module SeasonAnalysis {
  import opened Wrappers
  import opened Strings

  // ---------------------------------------------------------------------------
  // The four seasons

  const Seasons: seq<string> := ["春季", "夏季", "秋季", "冬季"]
  const Periods: seq<string> := ["寅卯辰月，木旺", "巳午未月，火土極旺", "申酉戌月，金旺", "亥子丑月，水旺"]

  /** `findIndex` of a season name among the four, -1 for any other name. */
  function SeasonIndex(name: string): (r: int)
    ensures -1 <= r < 4
    ensures r >= 0 ==> Seasons[r] == name
    ensures r < 0 <==> name !in Seasons
  {
    if name == Seasons[0] then 0
    else if name == Seasons[1] then 1
    else if name == Seasons[2] then 2
    else if name == Seasons[3] then 3
    else -1
  }

  /** The four names differ (each starts with its own character). */
  lemma SeasonsDistinct(i: nat, j: nat)
    requires i < 4 && j < 4 && Seasons[i] == Seasons[j]
    ensures i == j
  {
    assert Seasons[i][0] == Seasons[j][0];
  }

  /** `[...s.slice(c), ...s.slice(0, c)]`. */
  function Rotate<T>(s: seq<T>, c: nat): (r: seq<T>)
    requires c <= |s|
    ensures |r| == |s|
  {
    s[c..] + s[..c]
  }

  /** `n` taken round a cycle of four, for `n < 8`. */
  function Wrap(n: nat): (r: nat)
    requires n < 8
    ensures r < 4 && (r == n || r == n - 4)
  {
    if n < 4 then n else n - 4
  }

  /** Position `i` of the rotation holds position `c + i` of the original, counted round the cycle. */
  lemma RotateAt<T>(s: seq<T>, c: nat, i: nat)
    requires |s| == 4 && c < 4 && i < 4
    ensures Rotate(s, c)[i] == s[Wrap(c + i)]
  {
    if c + i < 4 {
      assert Rotate(s, c)[i] == s[c..][i];
    } else {
      assert Rotate(s, c)[i] == s[..c][i - (4 - c)];
    }
  }

  /** The base entries from the current season on, or unchanged when it is none of the four. */
  function Ordered<T>(base: seq<T>, current: string): (r: seq<T>)
    requires |base| == 4
    ensures |r| == 4
  {
    var c := SeasonIndex(current);
    if c >= 0 then Rotate(base, c) else base
  }

  /** Where the order's position `i` comes from in the base order. */
  function Source(current: string, i: nat): (k: nat)
    requires i < 4
    ensures k < 4
  {
    var c := SeasonIndex(current);
    if c >= 0 then Wrap(c + i) else i
  }

  /** The order is a rotation that starts at the current season; an unknown current season
   *  keeps the base order. */
  lemma OrderedRule<T>(base: seq<T>, current: string, i: nat)
    requires |base| == 4 && i < 4
    ensures Ordered(base, current)[i] == base[Source(current, i)]
    ensures current !in Seasons ==> Source(current, i) == i
  {
    if current in Seasons {
      RotateAt(base, SeasonIndex(current), i);
    }
  }

  /** Every base entry appears in the order, so no season is lost or repeated. */
  lemma OrderedHasAll<T>(base: seq<T>, current: string, k: nat) returns (i: nat)
    requires |base| == 4 && k < 4
    ensures i < 4 && Ordered(base, current)[i] == base[k]
  {
    var c := SeasonIndex(current);
    i := if c < 0 then k else if k >= c then k - c else k + 4 - c;
    OrderedRule(base, current, i);
  }

  /** Different positions come from different base positions. */
  lemma SourceInjective(current: string, i: nat, j: nat)
    requires i < 4 && j < 4 && i != j
    ensures Source(current, i) != Source(current, j)
  {
  }

  /** The current season comes first. */
  lemma CurrentFirst(current: string)
    requires current in Seasons
    ensures Ordered(Seasons, current)[0] == current
  {
    OrderedRule(Seasons, current, 0);
  }

  // ---------------------------------------------------------------------------
  // Labels

  /** `getSeasonContext`. */
  function Context(season: string, current: string): string
  {
    if season == current then "【當前季節】" else "【未來參考】"
  }

  /** The displayed name: the season followed by its label. */
  function Labelled(season: string, current: string): string
  {
    season + Context(season, current)
  }

  /** Exactly the current season is labelled current. */
  lemma OneCurrent(current: string, i: nat, j: nat)
    requires i < 4 && j < 4 && i != j
    ensures Context(Ordered(Seasons, current)[i], current) == "【當前季節】" ==>
      Context(Ordered(Seasons, current)[j], current) == "【未來參考】"
  {
    OrderedRule(Seasons, current, i);
    OrderedRule(Seasons, current, j);
    SourceInjective(current, i, j);
    if Ordered(Seasons, current)[i] == Ordered(Seasons, current)[j] {
      SeasonsDistinct(Source(current, i), Source(current, j));
    }
  }

  /** `name.replace(/【[^】]*】/, "")`: the first `【` that some `】` follows, up to the first
   *  such `】`, is removed. */
  function RemoveFirstBracket(s: string): (r: string)
  {
    var i := IndexOfChar(s, '【');
    if i < 0 then s
    else
      var j := IndexOfChar(s[i..], '】');
      if j < 0 then s else s[..i] + s[i + j + 1..]
  }

  /** Removing a bracket group that follows a bracket-free text gives back that text. */
  lemma BracketRemoved(a: string, x: string, group: string)
    requires '【' !in a && '】' !in x && group == ['【'] + x + ['】']
    ensures RemoveFirstBracket(a + group) == a
  {
    var s := a + group;
    assert s[|a|] == '【';
    var i := IndexOfChar(s, '【');
    assert i == |a|;
    var t := s[i..];
    assert t == ['【'] + x + ['】'];
    assert t[|x| + 1] == '】';
    var j := IndexOfChar(t, '】');
    assert j == |x| + 1;
    assert s[..i] == a;
  }

  /** A label is a bracket group around a bracket-free word. */
  lemma ContextShape(season: string, current: string) returns (word: string)
    ensures Context(season, current) == ['【'] + word + ['】'] && '】' !in word
  {
    word := if season == current then "當前季節" else "未來參考";
  }

  lemma SeasonsBracketFree(k: nat)
    requires k < 4
    ensures '【' !in Seasons[k]
  {
  }

  /** Removing the label gives back the season's own name. */
  lemma UnlabelRoundTrip(season: string, current: string)
    requires season in Seasons
    ensures RemoveFirstBracket(Labelled(season, current)) == season
  {
    SeasonsBracketFree(SeasonIndex(season));
    var word := ContextShape(season, current);
    BracketRemoved(season, word, Context(season, current));
  }

  // ---------------------------------------------------------------------------
  // The prompt's sections

  /** The tag in front of a season's section heading. */
  function Priority(season: string, index: nat, current: string): string
  {
    if season == current then "【當前季節 - 立即行動】"
    else if index == 0 then "【即將來臨】"
    else "【未來參考】"
  }

  /** The current season is tagged for action, else the first season as coming up, and every
   *  other season for reference. */
  lemma PriorityRule(season: string, index: nat, current: string)
    ensures Priority(season, index, current) == "【當前季節 - 立即行動】" <==> season == current
    ensures Priority(season, index, current) == "【即將來臨】" <==> season != current && index == 0
    ensures Priority(season, index, current) == "【未來參考】" <==> season != current && index > 0
  {
  }

  /** The focus text with the concern between its parts, empty for a name that is not a season. */
  const FocusParts: seq<seq<string>> := [
    ["八字中木的作用（印星、比劫、食傷等）、對", "的正面影響和風險、具體建議和注意事項（至少3條具體行動建議）、辰月的特殊性分析"],
    ["火旺對用戶八字的沖克情況、", "方面的危險和機遇、極致防護措施（至少3條具體措施）、未月土旺的特殊影響"],
    ["申月（金水）的影響和建議、酉月（純金）的最佳時機、戌月（土金）的注意事項、對", "的具體操作指導（至少3條建議）"],
    ["亥子月水旺的調候作用對", "的具體幫助、丑月土金庫的特殊性和機遇、對", "的修復和規劃建議（至少3條具體建議）、來年準備工作的具體指導、調候對整體命局的改善作用"]]

  function Focus(season: string, concern: string): string
  {
    var k := SeasonIndex(season);
    if k < 0 then "" else Join(FocusParts[k], concern)
  }

  /** `seasonPeriods[season]`, printed as `undefined` for a name that is not a season. */
  function PeriodOf(season: string): string
  {
    var k := SeasonIndex(season);
    if k < 0 then "undefined" else Periods[k]
  }

  /** The two extra lines the current season's section ends with. */
  function UrgentLines(month: nat, isLatePart: bool): string
  {
    "\n- **當前" + NatString(month) + "月" + (if isLatePart then "下旬" else "上旬")
      + "的緊急注意事項**\n- **本月剩餘時間的具體行動計劃**"
  }

  /** The opening of a section: its tag and its season. */
  function SectionHead(season: string, index: nat, current: string): string
  {
    "#### **" + Priority(season, index, current) + " " + season
  }

  /** The rest of a section's first part: the period, the concern and the season's focus. */
  function SectionBody(season: string, concern: string): string
  {
    "（" + PeriodOf(season) + "）**：\n根據用戶八字分析" + season + "對其" + concern + "的具體影響。需包含：\n- "
      + Focus(season, concern)
  }

  /** `createSeasonSection(season, index)`. */
  function SeasonSection(season: string, index: nat, current: string, concern: string,
    month: nat, isLatePart: bool): string
  {
    var section := SectionHead(season, index, current) + SectionBody(season, concern);
    if season == current then section + UrgentLines(month, isLatePart) else section
  }

  /** Only the current season's section carries the urgent lines; every section opens with
   *  its tag and its season. */
  lemma SeasonSectionShape(season: string, index: nat, current: string, concern: string,
    month: nat, isLatePart: bool)
    ensures StartsWith(SeasonSection(season, index, current, concern, month, isLatePart),
      "#### **" + Priority(season, index, current) + " " + season)
    ensures season == current ==>
      EndsWith(SeasonSection(season, index, current, concern, month, isLatePart), UrgentLines(month, isLatePart))
  {
    var head, body := SectionHead(season, index, current), SectionBody(season, concern);
    ConcatEnds(head, body);
    if season == current {
      var u := UrgentLines(month, isLatePart);
      ConcatEnds(head + body, u);
      assert (head + body + u)[..|head|] == (head + body)[..|head|];
    }
  }

  /** `relevantSeasons.map(createSeasonSection).join("\n\n")`. */
  function SeasonSections(relevant: seq<string>, current: string, concern: string,
    month: nat, isLatePart: bool): string
  {
    Join(seq(|relevant|, i requires 0 <= i < |relevant| =>
      SeasonSection(relevant[i], i, current, concern, month, isLatePart)), "\n\n")
  }

  // ---------------------------------------------------------------------------
  // Shortening a long text

  predicate IsStop(c: char)
  {
    c == '。' || c == '！' || c == '？'
  }

  /** `text.split(/[。！？]/)`. */
  function Sentences(s: string): (r: seq<string>)
    ensures |r| >= 1
    ensures forall i, k :: 0 <= i < |r| && 0 <= k < |r[i]| ==> !IsStop(r[i][k])
    decreases |s|
  {
    if |s| == 0 then [""]
    else if IsStop(s[0]) then [""] + Sentences(s[1..])
    else
      var rest := Sentences(s[1..]);
      [[s[0]] + rest[0]] + rest[1..]
  }

  /** The text with each of 。！？ written as 。. */
  function StopsAsFullStops(s: string): (r: string)
    ensures |r| == |s|
  {
    seq(|s|, i requires 0 <= i < |s| => if IsStop(s[i]) then '。' else s[i])
  }

  /** Joining the sentences with 。 gives the text back, every stop written as 。. */
  lemma {:induction false} SentencesJoin(s: string)
    ensures Join(Sentences(s), "。") == StopsAsFullStops(s)
    decreases |s|
  {
    if |s| > 0 {
      SentencesJoin(s[1..]);
      var rest := Sentences(s[1..]);
      assert StopsAsFullStops(s) == [StopsAsFullStops(s)[0]] + StopsAsFullStops(s[1..]);
      if IsStop(s[0]) {
        JoinCons("", rest, "。");
      } else {
        JoinHead([s[0]], rest, "。");
      }
    }
  }

  /** Joining a list with one more part in front. */
  lemma JoinCons(a: string, rest: seq<string>, d: string)
    requires |rest| >= 1
    ensures Join([a] + rest, d) == a + d + Join(rest, d)
  {
    assert ([a] + rest)[1..] == rest;
  }

  /** Joining when the first part grows by a prefix. */
  lemma JoinHead(c: string, rest: seq<string>, d: string)
    requires |rest| >= 1
    ensures Join([c + rest[0]] + rest[1..], d) == c + Join(rest, d)
  {
    if |rest| > 1 {
      JoinCons(c + rest[0], rest[1..], d);
      JoinCons(rest[0], rest[1..], d);
      assert [rest[0]] + rest[1..] == rest;
    }
  }

  /** `trimmed += sentence + "。"` while `trimmed.length + sentence.length < 1200`, from `acc`. */
  function Rebuilt(ss: seq<string>, acc: string): string
    decreases |ss|
  {
    if |ss| == 0 then acc
    else if |acc| + |ss[0]| < 1200 then Rebuilt(ss[1..], acc + ss[0] + "。")
    else acc
  }

  /** Sentences each followed by 。. */
  function WithStops(ss: seq<string>): string
  {
    if |ss| == 0 then "" else WithStops(ss[..|ss| - 1]) + ss[|ss| - 1] + "。"
  }

  lemma WithStopsSnoc(done: seq<string>, x: string)
    ensures WithStops(done + [x]) == WithStops(done) + x + "。"
  {
    assert (done + [x])[..|done|] == done;
  }

  /** A prefix one longer is the head and the tail's prefix. */
  lemma PrefixCons(ss: seq<string>, k: nat)
    requires k < |ss|
    ensures ss[..k + 1] == [ss[0]] + ss[1..][..k]
    ensures k + 1 < |ss| ==> ss[k + 1] == ss[1..][k]
  {
  }

  /** The rebuilt text is the first `k` sentences each with a full stop, no longer than 1200
   *  characters, and the next sentence would not have fitted. */
  lemma {:induction false} RebuiltShape(ss: seq<string>, acc: string, done: seq<string>) returns (k: nat)
    requires acc == WithStops(done) && |acc| <= 1200
    ensures k <= |ss| && Rebuilt(ss, acc) == WithStops(done + ss[..k])
    ensures |Rebuilt(ss, acc)| <= 1200
    ensures k < |ss| ==> |Rebuilt(ss, acc)| + |ss[k]| >= 1200
    decreases |ss|
  {
    if |ss| == 0 {
      k := 0;
      assert done + ss[..0] == done;
    } else if |acc| + |ss[0]| < 1200 {
      var acc' := acc + ss[0] + "。";
      assert Rebuilt(ss, acc) == Rebuilt(ss[1..], acc');
      WithStopsSnoc(done, ss[0]);
      var k' := RebuiltShape(ss[1..], acc', done + [ss[0]]);
      k := k' + 1;
      PrefixCons(ss, k');
      assert done + [ss[0]] + ss[1..][..k'] == done + ss[..k];
    } else {
      k := 0;
      assert done + ss[..0] == done;
    }
  }

  /** The rebuilt text is empty exactly when the first sentence does not fit. */
  lemma RebuiltEmpty(ss: seq<string>)
    requires |ss| >= 1
    ensures Rebuilt(ss, "") == "" <==> |ss[0]| >= 1200
  {
    if |ss[0]| < 1200 {
      assert Rebuilt(ss, "") == Rebuilt(ss[1..], "" + ss[0] + "。");
      RebuiltGrows(ss[1..], "" + ss[0] + "。");
    }
  }

  lemma {:induction false} RebuiltGrows(ss: seq<string>, acc: string)
    ensures |Rebuilt(ss, acc)| >= |acc|
    decreases |ss|
  {
    if |ss| > 0 && |acc| + |ss[0]| < 1200 {
      RebuiltGrows(ss[1..], acc + ss[0] + "。");
    }
  }

  /** What a season's text becomes: unchanged up to 1500 characters; longer, the whole
   *  sentences that fit under 1200, or the first 1200 characters and `...` when none fits. */
  function Shorten(s: string): string
  {
    if |s| <= 1500 then s
    else
      var t := Rebuilt(Sentences(s), "");
      if t != "" then t else s[..1200] + "..."
  }

  /** A long text becomes at most 1203 characters, made of whole sentences when the first
   *  sentence fits. */
  lemma ShortenRule(s: string)
    ensures |s| <= 1500 ==> Shorten(s) == s
    ensures |s| > 1500 ==> |Shorten(s)| <= 1203
    ensures |s| > 1500 && |Sentences(s)[0]| < 1200 ==>
      exists k :: 0 < k <= |Sentences(s)| && Shorten(s) == WithStops(Sentences(s)[..k])
    ensures |s| > 1500 && |Sentences(s)[0]| >= 1200 ==> Shorten(s) == s[..1200] + "..."
  {
    if |s| > 1500 {
      var ss := Sentences(s);
      var k := RebuiltShape(ss, "", []);
      RebuiltEmpty(ss);
      assert [] + ss[..k] == ss[..k];
      if |ss[0]| < 1200 {
        if k == 0 {
        }
        assert Shorten(s) == WithStops(ss[..k]);
      }
    }
  }

  /** The shortening loop. */
  method ShortenContent(s: string) returns (r: string)
    ensures r == Shorten(s)
  {
    r := s;
    if |s| > 1500 {
      var sentences := Sentences(s);
      var trimmed := "";
      var i := 0;
      while i < |sentences|
        invariant i <= |sentences|
        invariant Rebuilt(sentences[i..], trimmed) == Rebuilt(sentences, "")
      {
        if |trimmed| + |sentences[i]| < 1200 {
          trimmed := trimmed + sentences[i] + "。";
        } else {
          break;
        }
        i := i + 1;
      }
      r := if trimmed != "" then trimmed else s[..1200] + "...";
    }
  }

  // ---------------------------------------------------------------------------
  // Stock texts

  const Concerns: seq<string> := ["財運", "健康", "事業", "感情"]

  const WealthSpring: string := "春季是木的能量最強的時候，就像春天樹木開始發芽生長一樣。這個時候最適合學習新技能和建立人脈關係，因為木代表成長和學習。不過要小心的是，木太旺會影響到土（脾胃），所以在投資理財方面要保守一點，不要太衝動。春天的木氣會慢慢生出火氣，讓人想法變多，但也容易變得太樂觀而做出冒險的決定。建議：制定今年的財務目標、多學習理財知識、維持好的工作關係、小心評估新的投資機會。這三個月是為全年打基礎的重要時期。"
  const WealthSummer: string := "夏季火的能量最強，就像大太陽很熱一樣，這時候最容易破財！火太旺會讓人情緒激動、容易衝動，很容易因為一時衝動而亂花錢或做錯投資決定。中醫說火克金，金代表錢財，所以夏天是一年中最容易漏財的時候。5-7月期間一定要：嚴格控制開支、絕對不要投機炒股、不要借錢給別人或跟別人合夥、努力保住工作、多存一些緊急備用金。特別是6-7月火氣最旺的時候，更要小心。這段時間保守一點總比後悔好。"
  const WealthAutumn: string := "秋季金的能量最強，就像秋風涼爽、適合收穫一樣，這是一年中財運最好的時候！金代表收穫和理性思考，這時候頭腦會比較清楚，不容易做錯決定。金克木，可以壓制春夏時期累積的衝動情緒，讓人變得理性。8月開始適合：收回別人欠你的錢、整理投資狀況、尋找穩定的理財方式、談重要的合作案。9月是最好的時機，適合簽合約賺錢。10月要開始為長期做規劃。要好好把握這三個月的黃金時期，為明年的財運打好基礎。"
  const WealthWinter: string := "冬季水的能量最強，就像冬天要儲存能量一樣，這是學習理財智慧的好時機。水代表智慧和深度思考，這時候適合冷靜地分析和規劃。水能滅火，可以幫助平復夏天累積的浮躁情緒，讓人重新變得理性。11-1月適合：深入學習投資理財知識、研究市場趨勢、制定明年的財務目標、修復之前因為衝動而搞壞的財務關係。特別是12月最適合做總結和規劃。水有流動的特性，這時候可以調整資產配置。重點是培養理財的智慧和耐心，為明年創造財富做好準備。"
  const HealthSpring: string := "春季木氣旺盛，就像春天萬物生長一樣，這是養肝最好的時候。中醫說肝屬木，春天木的能量強，所以肝臟功能會比較活躍，有助於身體排毒和新陳代謝。不過木太旺可能會影響脾胃（土），所以要注意飲食。春天陽氣上升，容易肝火旺，情緒起伏會比較大。建議：多到戶外運動曬太陽、多吃綠色蔬菜養肝、保持規律作息不要熬夜、學會管理情緒不要太急躁。4月天氣變化大，適合做身體調理。要順應春天向上生長的特性，多活動少坐著，為全年健康打好基礎。"
  const HealthSummer: string := "夏季火氣最旺，就像大熱天一樣，對健康是最大的考驗！火太旺會讓心血管系統壓力很大，容易高血壓、心跳快等問題。中醫說火克金，金主肺，所以呼吸系統也容易出問題。火旺還會消耗身體的水分，容易口乾、失眠。一定要：避免在大太陽下曝曬、不要做太激烈的運動、多喝水防止脫水、保持心情平靜不要太激動、規律睡眠不要熬夜、少吃辣的油炸食物。6-7月最熱的時候特別要注意心臟保養。這是一年中最需要小心養生的時期。"
  const HealthAutumn: string := "秋季金氣當令，就像秋天涼爽乾燥一樣，最適合養肺。中醫說肺屬金，秋天金的能量強，可以幫助修復夏天火熱對肺部造成的傷害。金生水，也開始為冬天的腎臟保養做準備。不過要注意秋燥，皮膚和呼吸道容易乾燥。8月開始適合：吃一些滋潤的食物如梨子、白木耳、多做深呼吸運動強化肺部、注意皮膚保濕、適量進補為冬天做準備。9月是調理肺部的最佳時機。10月要注意保暖。要把握秋天收斂的特性，適度運動但不要太劇烈，為冬天儲存健康能量。"
  const HealthWinter: string := "冬季水氣旺盛，就像冬天需要保暖儲存能量一樣，這是養腎的關鍵時期。中醫說腎屬水，冬天水的能量強，腎臟功能會比較活躍。水克火，可以平衡全年火氣對身體的傷害，是修復元氣的最好時機。水生木，也為明年春天做準備。不過要注意保暖，水太寒會影響脾胃。11-1月適合：多吃溫熱的食物如羊肉湯、早睡晚起順應自然、做溫和的運動不要大汗、泡腳保暖。12月是調理腎臟的最佳時期。要順應冬天收藏的特性，多休息少消耗，為明年的健康儲備充足的活力。"
  const CareerSpring: string := "春季木氣生發，就像春天植物開始生長一樣，這是學習和發展的好時機。木代表成長和學習，這時候學東西會比較快，也容易得到貴人幫助。木主仁慈，人際關係會比較和諧，適合建立工作上的人脈。不過要注意木旺克土，執行力可能會弱一點，想法很多但要努力去實現。建議：制定今年的職業發展計劃、積極參加訓練課程學習新技能、主動認識同行建立人脈、開始有價值的新專案。4月是把想法變成行動的好時機。要把握春天向上發展的能量，為全年事業打好基礎。"
  const CareerSummer: string := "夏季火氣旺盛，就像夏天太熱容易讓人煩躁一樣，在職場上是最危險的時期！火太旺會讓人情緒激動，很容易跟同事或老闆發生衝突，嚴重影響工作關係。火克金，金代表決策力，這時候容易做錯重要決定。火旺還會讓人野心太大，容易因為太急躁而做出錯誤的職業選擇。一定要：控制脾氣避免職場衝突、暫時不要做重大的職業決定、專心把現在的工作做好、維護好現有的人際關係、絕對不要在這時候換工作或創業。6-7月火氣最旺時要特別小心。保持穩定最重要。"
  const CareerAutumn: string := "秋季金氣當令，就像秋天收穫一樣，這是事業發展的黃金時期！金代表收穫和理性判斷，這時候頭腦清楚，決策能力會大幅提升，是職業突破的最好時機。金克木，可以控制春夏累積的浮躁心情，讓人更專注更有執行力。8月開始適合：總結工作成果爭取老闆認可、積極申請升職加薪、尋找更好的工作機會、展示專業能力。9月是做重要職業決定的最佳時機。10月適合制定長期的職業規劃。要好好把握這個收穫的季節，實現事業上的重要突破。"
  const CareerWinter: string := "冬季水氣旺盛，就像冬天需要儲存能量一樣，這是培養職業智慧的關鍵時期。水代表智慧和深度思考，適合學習和規劃。水生木，為明年春天的事業發展做準備。水主流動變化，適合調整職業方向。11-1月適合：深入學習專業知識、關注行業趨勢變化、制定明年的職業目標、養成長期學習的習慣。12月是總結經驗、規劃未來的重要時期。水代表智慧謀略，這時候制定的職業規劃通常比較有遠見。要培養職業智慧和戰略思維，深思熟慮為明年的事業成功做好充分準備。"
  const LoveSpring: string := "春季木氣生發，就像春天花開一樣，這是感情萌芽的美好時機。木代表生長和包容，這時候感情容易有新的開始，也容易增進彼此的感情。木主仁愛，會讓人更有愛心和包容心，有助於理解對方。不過要注意木旺克土，感情雖然美好但可能不夠穩定，需要加強感情的基礎。建議：多安排戶外約會活動、真誠地表達自己的想法、一起規劃美好的未來、培養共同的興趣愛好。單身的人容易遇到好的對象，有伴的人感情會升溫。4月適合深入了解對方。要把握春天浪漫的氣氛，讓感情自然成長。"
  const LoveSummer: string := "夏季火氣旺盛，就像夏天炎熱一樣，感情容易有劇烈的波動！火太旺會讓人情緒激動，很容易因為小事情吵架，感情關係面臨考驗。火克金，理性思考能力下降，容易做出傷害感情的衝動決定。火旺還會讓人佔有欲和控制欲變強，可能因為嫉妒而破壞和諧。一定要：控制脾氣避免激烈爭吵、給彼此一些冷靜的空間、暫時不要做分手或結婚等重大決定、多看對方的優點、避免在情緒激動時討論敏感話題。6-7月火氣最旺時特別需要情緒管理。這是感情最危險的考驗期。"
  const LoveAutumn: string := "秋季金氣當令，就像秋天成熟收穫一樣，這是感情深化的好時機。金代表成熟和理性，能夠客觀地看待感情關係，做出明智的感情決定。金克木，可以調節春夏累積的感情波動，讓關係變得穩定成熟。8月開始適合：深入地溝通化解誤會、重新思考感情的未來、考慮訂婚結婚等重要承諾、規劃共同的人生目標。9月是做重要感情決定的最佳時機。10月適合建立穩固的感情基礎。金雖然利於收穫，但要注意不要太冷漠，要保持感情的溫度。把握成熟的秋天，讓感情關係更上一層樓。"
  const LoveWinter: string := "冬季水氣旺盛，就像冬天深沉寧靜一樣，這是感情修復和深化的關鍵時期。水代表深情和智慧，能夠包容一切，有助於修復感情創傷和增進理解。水生木，為明年春天感情的新發展做準備。水主變化，適合調整相處的方式。11-1月適合：深夜談心增進理解、分享真實的內心想法、一起修復過去的感情創傷、培養更深的情感連結。12月是總結感情經驗、規劃長期關係的重要時期。水代表智慧和包容，這時候培養的感情深度會影響一輩子。要培養真摯的深情，為明年的感情幸福打好基礎。"

  /** The route's stock texts, by concern and by season in base order. The parsing
   *  functions take the table as a parameter `stock`; the route passes this one. */
  function StockText(concern: nat, season: nat): string
  {
    if concern == 0 && season == 0 then WealthSpring else
    if concern == 0 && season == 1 then WealthSummer else
    if concern == 0 && season == 2 then WealthAutumn else
    if concern == 0 && season == 3 then WealthWinter else
    if concern == 1 && season == 0 then HealthSpring else
    if concern == 1 && season == 1 then HealthSummer else
    if concern == 1 && season == 2 then HealthAutumn else
    if concern == 1 && season == 3 then HealthWinter else
    if concern == 2 && season == 0 then CareerSpring else
    if concern == 2 && season == 1 then CareerSummer else
    if concern == 2 && season == 2 then CareerAutumn else
    if concern == 2 && season == 3 then CareerWinter else
    if concern == 3 && season == 0 then LoveSpring else
    if concern == 3 && season == 1 then LoveSummer else
    if concern == 3 && season == 2 then LoveAutumn else
    if concern == 3 && season == 3 then LoveWinter else
    ""
  }

  function ConcernIndex(concern: string): (r: int)
    ensures -1 <= r < 4
    ensures r >= 0 ==> Concerns[r] == concern
    ensures r < 0 <==> concern !in Concerns
  {
    if concern == Concerns[0] then 0
    else if concern == Concerns[1] then 1
    else if concern == Concerns[2] then 2
    else if concern == Concerns[3] then 3
    else -1
  }

  /** `getFallbackSeasonContent`: the label and the concern's text for the season, or a
   *  generic sentence naming the season. */
  function FallbackContent(season: string, concern: string, current: string, stock: (nat, nat) -> string): string
  {
    var c, k := ConcernIndex(concern), SeasonIndex(season);
    if c >= 0 && k >= 0 then Context(season, current) + " " + stock(c, k)
    else season + "期間請根據個人情況謹慎分析。"
  }

  /** A known concern's text opens with the season's label; any other concern gets the
   *  generic sentence. */
  lemma FallbackContentRule(season: string, concern: string, current: string, stock: (nat, nat) -> string)
    requires season in Seasons
    ensures concern in Concerns ==>
      FallbackContent(season, concern, current, stock)
        == Context(season, current) + " " + stock(ConcernIndex(concern), SeasonIndex(season))
    ensures concern !in Concerns ==>
      FallbackContent(season, concern, current, stock) == season + "期間請根據個人情況謹慎分析。"
  {
    if concern in Concerns {
      var t := FallbackContent(season, concern, current, stock);
      var p := Context(season, current) + " ";
      assert t[..|p|] == p;
    }
  }

  // ---------------------------------------------------------------------------
  // The parsed result

  datatype Season = Season(name: string, period: string, icon: string, color: string,
    keyPoints: seq<string>, content: string)

  /** The base entries; their content is filled in later. */
  const BaseSeasons: seq<Season> := [
    Season("春季", "寅卯辰月，木旺", "🌸", "bg-green-500", ["印星助學", "寅卯辰月", "木旺"], ""),
    Season("夏季", "巳午未月，火土極旺", "☀️", "bg-red-500", ["極端防護", "巳午未月", "火旺"], ""),
    Season("秋季", "申酉戌月，金旺", "🍂", "bg-yellow-500", ["黃金收穫", "申酉戌月", "金旺"], ""),
    Season("冬季", "亥子丑月，水旺", "❄️", "bg-blue-500", ["黃金修復期", "亥子丑月", "水旺"], "")]

  lemma BaseSeasonNames()
    ensures forall k :: 0 <= k < 4 ==> BaseSeasons[k].name == Seasons[k]
  {
  }

  datatype SeasonResult = SeasonResult(seasons: seq<Season>, fullContent: string, title: string)

  /** A season's text: the cleaned and shortened text found for it when that was longer
   *  than 20 characters before cleaning, and the stock text otherwise. */
  function SeasonContent(raw: string, clean: string -> string, season: string, concern: string,
    current: string, stock: (nat, nat) -> string): string
  {
    if |raw| > 20 then Shorten(clean(raw)) else FallbackContent(season, concern, current, stock)
  }

  /** The entry at position `i` of the order, labelled and with its text. `found` gives the
   *  trimmed text the patterns find for a season, "" when they find none; `clean` is the
   *  chain of clean-up replacements. */
  function SeasonAt(i: nat, found: string -> string, clean: string -> string, concern: string,
    current: string, stock: (nat, nat) -> string): Season
    requires i < 4
  {
    var b := Ordered(BaseSeasons, current)[i];
    var content := SeasonContent(found(b.name), clean, b.name, concern, current, stock);
    b.(name := Labelled(b.name, current), content := content)
  }

  function Title(concern: string): string
  {
    "關鍵季節&注意事項 (" + concern + "指南)"
  }

  /** `parseSeasonContent`. */
  function Parsed(content: string, found: string -> string, clean: string -> string, concern: string,
    current: string, stock: (nat, nat) -> string): SeasonResult
  {
    SeasonResult(seq(4, i requires 0 <= i < 4 => SeasonAt(i, found, clean, concern, current, stock)), content, Title(concern))
  }

  /** The result has four seasons in rotated order, each named with its label and read back
   *  to its own season, and a season whose text was too short gets the stock text. */
  lemma ParsedRule(content: string, found: string -> string, clean: string -> string, concern: string,
    current: string, stock: (nat, nat) -> string, i: nat)
    requires i < 4
    ensures var r := Parsed(content, found, clean, concern, current, stock);
      var season := Ordered(Seasons, current)[i];
      |r.seasons| == 4 && r.seasons[i].name == Labelled(season, current)
      && RemoveFirstBracket(r.seasons[i].name) == season
      && (|found(season)| <= 20 ==> r.seasons[i].content == FallbackContent(season, concern, current, stock))
      && (|found(season)| > 20 ==> r.seasons[i].content == Shorten(clean(found(season))))
  {
    BaseSeasonNames();
    OrderedRule(BaseSeasons, current, i);
    OrderedRule(Seasons, current, i);
    UnlabelRoundTrip(Seasons[Source(current, i)], current);
  }

  /** The `forEach` that fills each season's text. */
  method ParseSeasonContent(content: string, found: string -> string, clean: string -> string,
    concern: string, current: string, stock: (nat, nat) -> string) returns (r: SeasonResult)
    ensures r == Parsed(content, found, clean, concern, current, stock)
  {
    var ordered := Ordered(BaseSeasons, current);
    var seasons: seq<Season> := [];
    var i := 0;
    while i < 4
      invariant i <= 4 && |seasons| == i
      invariant forall j :: 0 <= j < i ==> seasons[j] == SeasonAt(j, found, clean, concern, current, stock)
    {
      var b := ordered[i];
      var raw := found(b.name);
      var text;
      if |raw| > 20 {
        text := ShortenContent(clean(raw));
      } else {
        text := FallbackContent(b.name, concern, current, stock);
      }
      seasons := seasons + [b.(name := Labelled(b.name, current), content := text)];
      i := i + 1;
    }
    r := SeasonResult(seasons, content, Title(concern));
  }

  /** `getFallbackSeasonData`: the base order, unlabelled names, and the stock texts. */
  function FallbackData(concern: string, current: string, stock: (nat, nat) -> string): (r: SeasonResult)
    ensures |r.seasons| == 4
    ensures forall k :: 0 <= k < 4 ==>
      r.seasons[k].name == Seasons[k] && r.seasons[k].content == FallbackContent(Seasons[k], concern, current, stock)
  {
    SeasonResult(seq(4, k requires 0 <= k < 4 => BaseSeasons[k].(content := FallbackContent(Seasons[k], concern, current, stock))),
      "使用基礎季節分析。", Title(concern))
  }

  // ---------------------------------------------------------------------------
  // The request

  /** `currentDate?.currentSeason || "秋季"`. */
  function CurrentSeason(given: Option<string>): string
  {
    if given.None? || given.value == "" then "秋季" else given.value
  }

  /** `currentDate?.month || now`. */
  function CurrentMonth(given: Option<nat>, now: nat): nat
  {
    if given.None? || given.value == 0 then now else given.value
  }

  /** `currentDate?.relevantSeasons || [...]`: any given array is kept, even an empty one. */
  function RelevantSeasons(given: Option<seq<string>>): seq<string>
  {
    if given.None? then ["秋季", "冬季", "春季", "夏季"] else given.value
  }

  /** The locales answered in simplified characters. */
  predicate Simplified(locale: Option<string>)
  {
    locale == Some("china") || locale == Some("zh-CN")
  }

  datatype Response = BadRequest(error: string) | Failed(error: string) | Analysed(analysis: SeasonResult)

  /** `POST`, given the user's concern (`None` without `userInfo`), whether the AI call
   *  answered, its content, and the parse of that content. */
  function Post(concern: Option<string>, answered: bool, aiContent: Option<string>, parsed: SeasonResult): (r: Response)
    ensures r.BadRequest? <==> concern.None?
    ensures r.Analysed? <==> concern.Some? && answered && aiContent.Some? && aiContent.value != ""
  {
    if concern.None? then BadRequest("Missing user information")
    else if !answered then Failed("AI analysis service unavailable")
    else if aiContent.None? || aiContent.value == "" then Failed("No analysis generated")
    else Analysed(parsed)
  }
}
