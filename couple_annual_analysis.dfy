/** The couple annual-analysis route: the AI answer cut into current-year, next-year and
 *  monthly sections by a line classifier, the monthly focus picked from the monthly lines,
 *  and the basic year and month analyses used for every missing part. */
module CoupleAnnualAnalysis {
  import opened Wrappers
  import opened Strings
  import Words

  // ---------------------------------------------------------------------------
  // Numbers as the route prints them

  /** `${month}`, `undefined` when the request has no month. */
  function MonthString(month: Option<int>): string
  {
    if month.Some? then IntString(month.value) else "undefined"
  }

  // ---------------------------------------------------------------------------
  // The line classifier

  /** The section a line belongs to; `NoSection` before the first heading. */
  datatype Section = NoSection | CurrentYear | NextYear | Monthly

  /** The words that open the monthly section. */
  const MonthlyMarkers: seq<string> := ["月份", "農曆", "农历", "應對", "应对"]

  /** The section a line opens: one naming the current year and 年, else one naming the
   *  next year and 年, else one with a monthly marker; `NoSection` for any other line. */
  function Heading(t: string, cy: string, ny: string): Section
  {
    if Contains(t, cy) && Contains(t, "年") then CurrentYear
    else if Contains(t, ny) && Contains(t, "年") then NextYear
    else if ContainsAny(t, MonthlyMarkers) then Monthly
    else NoSection
  }

  /** Each test is tried in priority order: a line naming both years opens the
   *  current-year section, and a monthly marker counts only on a line naming neither year
   *  with 年. */
  lemma HeadingPriority(t: string, cy: string, ny: string)
    ensures Heading(t, cy, ny) == CurrentYear <==> Contains(t, cy) && Contains(t, "年")
    ensures Heading(t, cy, ny) == NextYear <==>
      !(Contains(t, cy) && Contains(t, "年")) && Contains(t, ny) && Contains(t, "年")
    ensures Heading(t, cy, ny) == Monthly <==>
      !(Contains(t, cy) && Contains(t, "年")) && !(Contains(t, ny) && Contains(t, "年"))
      && ContainsAny(t, MonthlyMarkers)
  {
  }

  /** `aiResponse.split("\n").filter((line) => line.trim())`, each line then trimmed. */
  function Lines(ai: string): seq<string>
  {
    Words.TrimAll(NonBlankLines(Split(ai, '\n')))
  }

  function NonBlankLines(ls: seq<string>): (r: seq<string>)
    ensures |r| <= |ls|
    ensures forall k :: 0 <= k < |r| ==> !IsBlank(r[k])
  {
    if |ls| == 0 then [] else if IsBlank(ls[0]) then NonBlankLines(ls[1..]) else [ls[0]] + NonBlankLines(ls[1..])
  }

  /** The loop's state: the open section and the three accumulated texts. */
  datatype State = State(section: Section, current: string, next: string, monthly: string)

  /** `t` and a newline appended to the text of section `s`. */
  function Add(st: State, s: Section, t: string): State
  {
    match s
    case CurrentYear => st.(current := st.current + t + "\n")
    case NextYear => st.(next := st.next + t + "\n")
    case Monthly => st.(monthly := st.monthly + t + "\n")
    case NoSection => st
  }

  /** One line: a heading switches the section and is kept in it; any other line longer
   *  than 10 characters is kept in the open section. */
  function Step(st: State, t: string, cy: string, ny: string): State
  {
    var h := Heading(t, cy, ny);
    if h != NoSection then Add(st.(section := h), h, t)
    else if st.section != NoSection && |t| > 10 then Add(st, st.section, t)
    else st
  }

  /** The state after the first `n` lines. */
  function Fold(ts: seq<string>, n: nat, cy: string, ny: string): State
    requires n <= |ts|
  {
    if n == 0 then State(NoSection, "", "", "") else Step(Fold(ts, n - 1, cy, ny), ts[n - 1], cy, ny)
  }

  // A reference reading of the same loop, line by line.

  /** The section opened by the latest heading among the first `n` lines. */
  function LastHeading(ts: seq<string>, n: nat, cy: string, ny: string): Section
    requires n <= |ts|
  {
    if n == 0 then NoSection
    else if Heading(ts[n - 1], cy, ny) != NoSection then Heading(ts[n - 1], cy, ny)
    else LastHeading(ts, n - 1, cy, ny)
  }

  /** The section line `k` is kept in: its own when it is a heading, else the latest
   *  heading's when it is longer than 10 characters, else none. */
  function Owner(ts: seq<string>, k: nat, cy: string, ny: string): Section
    requires k < |ts|
  {
    var h := Heading(ts[k], cy, ny);
    if h != NoSection then h else if |ts[k]| > 10 then LastHeading(ts, k, cy, ny) else NoSection
  }

  /** The lines among the first `n` kept in section `s`, each followed by a newline. */
  function Collected(ts: seq<string>, s: Section, n: nat, cy: string, ny: string): string
    requires n <= |ts|
  {
    if n == 0 then ""
    else Collected(ts, s, n - 1, cy, ny) + (if Owner(ts, n - 1, cy, ny) == s then ts[n - 1] + "\n" else "")
  }

  /** The loop's section is the latest heading's, and each text holds exactly the lines
   *  whose owner is that section, in order. */
  lemma {:induction false} FoldCollects(ts: seq<string>, n: nat, cy: string, ny: string)
    requires n <= |ts|
    ensures var st := Fold(ts, n, cy, ny);
      st.section == LastHeading(ts, n, cy, ny)
      && st.current == Collected(ts, CurrentYear, n, cy, ny)
      && st.next == Collected(ts, NextYear, n, cy, ny)
      && st.monthly == Collected(ts, Monthly, n, cy, ny)
  {
    if n > 0 {
      FoldCollects(ts, n - 1, cy, ny);
    }
  }

  /** `extractMonthlyFocus`: the first line naming the year with 月 or 建議, trimmed. */
  function MonthlyFocus(lines: seq<string>, year: string): Option<string>
  {
    if |lines| == 0 then None
    else if Focus(lines[0], year) then Some(Trim(lines[0]))
    else MonthlyFocus(lines[1..], year)
  }

  predicate Focus(line: string, year: string)
  {
    Contains(line, year) && (Contains(line, "月") || Contains(line, "建議"))
  }

  /** The focus is the trimmed first matching line, and there is none exactly when no line
   *  matches. */
  lemma {:induction false} MonthlyFocusRule(lines: seq<string>, year: string)
    ensures MonthlyFocus(lines, year).None? <==> forall k :: 0 <= k < |lines| ==> !Focus(lines[k], year)
    ensures MonthlyFocus(lines, year).Some? ==>
      exists k :: 0 <= k < |lines| && Focus(lines[k], year) && MonthlyFocus(lines, year).value == Trim(lines[k])
        && forall j :: 0 <= j < k ==> !Focus(lines[j], year)
  {
    if |lines| > 0 {
      if Focus(lines[0], year) {
        assert MonthlyFocus(lines, year) == Some(Trim(lines[0]));
      } else {
        var rest := lines[1..];
        assert MonthlyFocus(lines, year) == MonthlyFocus(rest, year);
        assert forall k :: 0 < k < |lines| ==> lines[k] == rest[k - 1];
        MonthlyFocusRule(rest, year);
        if MonthlyFocus(rest, year).Some? {
          var k :| 0 <= k < |rest| && Focus(rest[k], year)
            && MonthlyFocus(rest, year).value == Trim(rest[k]) && forall j :: 0 <= j < k ==> !Focus(rest[j], year);
          assert Focus(lines[k + 1], year) && forall j :: 0 <= j < k + 1 ==> !Focus(lines[j], year);
        }
      }
    }
  }

  /** The loop of `extractMonthlyFocus`, returning at the first match. */
  method ExtractMonthlyFocus(monthlyText: string, year: nat) returns (r: Option<string>)
    ensures r == MonthlyFocus(Split(monthlyText, '\n'), NatString(year))
  {
    var lines := Split(monthlyText, '\n');
    var y := NatString(year);
    var i := 0;
    while i < |lines|
      invariant i <= |lines|
      invariant MonthlyFocus(lines[i..], y) == MonthlyFocus(lines, y)
    {
      var line := lines[i];
      if Contains(line, y) && (Contains(line, "月") || Contains(line, "建議")) {
        return Some(Trim(line));
      }
      assert lines[i..][1..] == lines[i + 1..];
      i := i + 1;
    }
    return None;
  }

  // ---------------------------------------------------------------------------
  // The basic analyses

  /** `compatibilityData?.score || 75`: a missing or zero score counts as 75. */
  function Score(score: Option<int>): (r: int)
    ensures score.None? || score.value == 0 ==> r == 75
    ensures score.Some? && score.value != 0 ==> r == score.value
  {
    if score.None? || score.value == 0 then 75 else score.value
  }

  /** The level word for a score: 80 and above, 70 and above, anything lower. */
  function Level(score: int, simplified: bool): (r: string)
    ensures score >= 80 <==> r == (if simplified then "优秀" else "優秀")
    ensures 70 <= score < 80 <==> r == "良好"
    ensures score < 70 <==> r == (if simplified then "稳定" else "穩定")
  {
    if score >= 80 then (if simplified then "优秀" else "優秀")
    else if score >= 70 then "良好"
    else if simplified then "稳定" else "穩定"
  }

  /** The element pairs with a set phrase. */
  function Combination(key: string, simplified: bool): Option<string>
  {
    if key == "金水" then Some(if simplified then "金水相生，感情和谐，" else "金水相生，感情和諧，")
    else if key == "水木" then Some(if simplified then "水木相生，关系持续成长，" else "水木相生，關係持續成長，")
    else if key == "木火" then Some(if simplified then "木火相生，热情洋溢，" else "木火相生，熱情洋溢，")
    else if key == "火土" then Some(if simplified then "火土相生，感情踏实稳固，" else "火土相生，感情踏實穩固，")
    else if key == "土金" then Some("土金相生，相互支持，")
    else if key == "金火" then Some(if simplified then "金火相克，需要调和，" else "金火相剋，需要調和，")
    else if key == "火水" then Some("水火不容，需要包容，")
    else if key == "水土" then Some(if simplified then "水土相克，需要理解，" else "水土相剋，需要理解，")
    else if key == "土木" then Some(if simplified then "土木相克，需要沟通，" else "土木相剋，需要溝通，")
    else if key == "木金" then Some("金克木，需要平衡，")
    else None
  }

  /** Every key is two different characters, and no key is another read backwards. */
  lemma CombinationKeys(key: string, simplified: bool)
    requires Combination(key, simplified).Some?
    ensures |key| == 2 && key[0] != key[1]
    ensures Combination([key[1], key[0]], simplified).None?
  {
  }

  function ElementFallback(simplified: bool): string
  {
    if simplified then "需要相互调适，" else "需要相互調適，"
  }

  /** `getElementYearAnalysis`: the phrase for the pair in either order, or the fallback. */
  function ElementYearAnalysis(e1: string, e2: string, simplified: bool): string
  {
    var c1, c2 := Combination(e1 + e2, simplified), Combination(e2 + e1, simplified);
    if c1.Some? then c1.value else if c2.Some? then c2.value else ElementFallback(simplified)
  }

  /** The order of the two elements does not matter. */
  lemma ElementYearSymmetric(e1: string, e2: string, simplified: bool)
    ensures ElementYearAnalysis(e1, e2, simplified) == ElementYearAnalysis(e2, e1, simplified)
  {
    var c1, c2 := Combination(e1 + e2, simplified), Combination(e2 + e1, simplified);
    if c1.Some? && c2.Some? {
      CombinationKeys(e1 + e2, simplified);
      if |e1| == 1 {
        assert false;
      } else {
        assert e1 + e2 == e2 + e1;
      }
    }
  }

  /** Two equal elements always get the fallback. */
  lemma SameElementFallback(e: string, simplified: bool)
    ensures ElementYearAnalysis(e, e, simplified) == ElementFallback(simplified)
  {
    if Combination(e + e, simplified).Some? {
      CombinationKeys(e + e, simplified);
      assert false;
    }
  }

  /** `generateBasicYearAnalysis`. */
  function BasicYearAnalysis(year: nat, e1: string, e2: string, score: Option<int>, simplified: bool): string
  {
    var s := Score(score);
    var level := Level(s, simplified);
    var elements := ElementYearAnalysis(e1, e2, simplified);
    if simplified then NatString(year) + "年整体配对评分" + IntString(s) + "分，属于" + level + "配对。" + elements + "建议加强沟通，维持感情稳定发展。"
    else NatString(year) + "年整體配對評分" + IntString(s) + "分，屬於" + level + "配對。" + elements + "建議加強溝通，維持感情穩定發展。"
  }

  datatype Season = Winter | Spring | Summer | Autumn

  /** The season of a month: up to 3 winter, up to 6 spring, up to 9 summer, otherwise
   *  autumn; a missing month compares false with every bound. */
  function SeasonOf(month: Option<int>): (r: Season)
    ensures r == Winter <==> month.Some? && month.value <= 3
    ensures r == Spring <==> month.Some? && 3 < month.value <= 6
    ensures r == Summer <==> month.Some? && 6 < month.value <= 9
    ensures r == Autumn <==> month.None? || month.value > 9
  {
    if month.None? then Autumn
    else if month.value <= 3 then Winter
    else if month.value <= 6 then Spring
    else if month.value <= 9 then Summer
    else Autumn
  }

  function SeasonAdvice(season: Season, simplified: bool): string
  {
    match season
    case Spring => if simplified then "春季感情升温，适合增进感情" else "春季感情昇溫，適合增進感情"
    case Summer => if simplified then "夏季需要冷静，避免情绪化决定" else "夏季需要冷靜，避免情緒化決定"
    case Autumn => if simplified then "秋季适合规划未来，讨论重要事项" else "秋季適合規劃未來，討論重要事項"
    case Winter => if simplified then "冬季注重内在交流，培养默契" else "冬季注重內在交流，培養默契"
  }

  /** `generateBasicMonthlyAdvice`. */
  function BasicMonthlyAdvice(year: nat, month: Option<int>, e1: string, e2: string, simplified: bool): string
  {
    var advice := SeasonAdvice(SeasonOf(month), simplified);
    if simplified then NatString(year) + "年" + MonthString(month) + "月，" + advice + "。根据" + e1 + "命与" + e2 + "命的配合，建议此时期重点关注相互理解和支持。"
    else NatString(year) + "年" + MonthString(month) + "月，" + advice + "。根據" + e1 + "命與" + e2 + "命的配合，建議此時期重點關注相互理解和支持。"
  }

  // ---------------------------------------------------------------------------
  // The structured result

  datatype YearEntry = YearEntry(title: string, description: string, monthlyFocus: string)

  /** The inputs the analyses share. */
  datatype Couple = Couple(month: Option<int>, e1: string, e2: string, score: Option<int>, simplified: bool)

  function CurrentTitle(cy: nat, simplified: bool): string
  {
    NatString(cy) + (if simplified then "年感情运势" else "年感情運勢")
  }

  function NextTitle(ny: nat, simplified: bool): string
  {
    NatString(ny) + (if simplified then "年关键应对策略" else "年關鍵應對策略")
  }

  /** The object keyed by the two years; a second equal key replaces the first entry. */
  function Keyed(cy: nat, ny: nat, current: YearEntry, next: YearEntry): (r: map<nat, YearEntry>)
    ensures r.Keys == {cy, ny} && r[ny] == next
    ensures cy != ny ==> r[cy] == current
  {
    map[cy := current][ny := next]
  }

  /** The returned object, given the loop's final state and the two monthly focuses. */
  function Entries(st: State, f1: Option<string>, f2: Option<string>, cy: nat, ny: nat, c: Couple): map<nat, YearEntry>
  {
    var cur, nxt := Trim(st.current), Trim(st.next);
    Keyed(cy, ny,
      YearEntry(CurrentTitle(cy, c.simplified),
        if cur != "" then cur else BasicYearAnalysis(cy, c.e1, c.e2, c.score, c.simplified),
        if f1.Some? then f1.value else BasicMonthlyAdvice(cy, c.month, c.e1, c.e2, c.simplified)),
      YearEntry(NextTitle(ny, c.simplified),
        if nxt != "" then nxt else BasicYearAnalysis(ny, c.e1, c.e2, c.score, c.simplified),
        if f2.Some? then f2.value else BasicMonthlyAdvice(ny, Some(6), c.e1, c.e2, c.simplified)))
  }

  /** `parseAndStructureAIResponse`, given the loop's final state. */
  function Structured(st: State, cy: nat, ny: nat, c: Couple): map<nat, YearEntry>
  {
    var monthly := Split(st.monthly, '\n');
    Entries(st, MonthlyFocus(monthly, NatString(cy)), MonthlyFocus(monthly, NatString(ny)), cy, ny, c)
  }

  /** What the route returns for an AI answer `ai`. */
  function Parsed(ai: string, cy: nat, ny: nat, c: Couple): map<nat, YearEntry>
  {
    var ts := Lines(ai);
    Structured(Fold(ts, |ts|, NatString(cy), NatString(ny)), cy, ny, c)
  }

  /** The classifier loop of `parseAndStructureAIResponse`. */
  method ClassifyLines(ts: seq<string>, cy: nat, ny: nat) returns (st: State)
    ensures st == Fold(ts, |ts|, NatString(cy), NatString(ny))
  {
    var y1, y2 := NatString(cy), NatString(ny);
    var section := NoSection;
    var current, next, monthly := "", "", "";
    for i := 0 to |ts|
      invariant State(section, current, next, monthly) == Fold(ts, i, y1, y2)
    {
      var t := ts[i];
      if Contains(t, y1) && Contains(t, "年") {
        section := CurrentYear;
        current := current + t + "\n";
      } else if Contains(t, y2) && Contains(t, "年") {
        section := NextYear;
        next := next + t + "\n";
      } else if ContainsAny(t, MonthlyMarkers) {
        section := Monthly;
        monthly := monthly + t + "\n";
      } else if section != NoSection && |t| > 10 {
        if section == CurrentYear {
          current := current + t + "\n";
        } else if section == NextYear {
          next := next + t + "\n";
        } else {
          monthly := monthly + t + "\n";
        }
      }
    }
    st := State(section, current, next, monthly);
  }

  /** `parseAndStructureAIResponse`. */
  method ParseAndStructure(ai: string, cy: nat, ny: nat, c: Couple) returns (r: map<nat, YearEntry>)
    ensures r == Parsed(ai, cy, ny, c)
  {
    var st := ClassifyLines(Lines(ai), cy, ny);
    var f1 := ExtractMonthlyFocus(st.monthly, cy);
    var f2 := ExtractMonthlyFocus(st.monthly, ny);
    r := Entries(st, f1, f2, cy, ny, c);
  }

  /** A year's description is its collected lines, trimmed, when there are any, and the
   *  basic analysis otherwise; the result is keyed by the two years. */
  lemma ParsedRule(ai: string, cy: nat, ny: nat, c: Couple)
    requires cy != ny
    ensures var ts := Lines(ai);
      var y1, y2 := NatString(cy), NatString(ny);
      var r := Parsed(ai, cy, ny, c);
      var cur := Trim(Collected(ts, CurrentYear, |ts|, y1, y2));
      r.Keys == {cy, ny}
      && r[cy].description == (if cur != "" then cur else BasicYearAnalysis(cy, c.e1, c.e2, c.score, c.simplified))
      && r[ny].title == NextTitle(ny, c.simplified)
  {
    var ts := Lines(ai);
    FoldCollects(ts, |ts|, NatString(cy), NatString(ny));
  }

  /** `generateFallbackAnnualStrategy`: the basic analyses for both years. */
  function FallbackStrategy(cy: nat, ny: nat, c: Couple): map<nat, YearEntry>
  {
    Keyed(cy, ny,
      YearEntry(CurrentTitle(cy, c.simplified), BasicYearAnalysis(cy, c.e1, c.e2, c.score, c.simplified),
        BasicMonthlyAdvice(cy, c.month, c.e1, c.e2, c.simplified)),
      YearEntry(NextTitle(ny, c.simplified), BasicYearAnalysis(ny, c.e1, c.e2, c.score, c.simplified),
        BasicMonthlyAdvice(ny, Some(6), c.e1, c.e2, c.simplified)))
  }

  /** An answer with no line at all gives exactly the fallback strategy. */
  lemma EmptyAnswerIsFallback(cy: nat, ny: nat, c: Couple)
    ensures Parsed("", cy, ny, c) == FallbackStrategy(cy, ny, c)
  {
    assert Split("", '\n') == [""];
    assert IsBlank("");
    assert Lines("") == [];
    var y1, y2 := NatString(cy), NatString(ny);
    assert !Contains("", y1) && !Contains("", y2);
    assert MonthlyFocus([""], y1).None? && MonthlyFocus([""], y2).None?;
    EmptyStateIsFallback(cy, ny, c);
  }

  lemma EmptyStateIsFallback(cy: nat, ny: nat, c: Couple)
    ensures Entries(State(NoSection, "", "", ""), None, None, cy, ny, c) == FallbackStrategy(cy, ny, c)
  {
    assert Trim("") == "";
  }

  // ---------------------------------------------------------------------------
  // The request

  datatype Response = BadRequest(error: string) | Success(annualStrategy: map<nat, YearEntry>)

  /** `POST`: both birthdays are required; an AI call that fails (`None`) gives the
   *  fallback strategy. */
  function Post(user1Birthday: Option<string>, user2Birthday: Option<string>, ai: Option<string>,
    cy: nat, ny: nat, c: Couple): (r: Response)
    ensures r.BadRequest? <==> user1Birthday.None? || user1Birthday.value == "" || user2Birthday.None? || user2Birthday.value == ""
    ensures r.Success? && ai.None? ==> r.annualStrategy == FallbackStrategy(cy, ny, c)
    ensures r.Success? ==> r.annualStrategy.Keys == {cy, ny}
  {
    if user1Birthday.None? || user1Birthday.value == "" || user2Birthday.None? || user2Birthday.value == "" then
      BadRequest("Missing required birthday information")
    else if ai.None? then Success(FallbackStrategy(cy, ny, c))
    else Success(Parsed(ai.value, cy, ny, c))
  }
}
