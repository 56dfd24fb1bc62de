/** The couple's core-suggestion card: cleaning the AI text of markdown bold markers and
 *  simplified characters, the relationship-taboo parser, the situations and action advice
 *  pulled from the text, and the key the analysis is cached under. */
module CoupleCoreSuggestion {
  import opened Wrappers
  import opened Strings
  import MingJu
  import Words

  // ---------------------------------------------------------------------------
  // Markdown bold markers

  /** The characters `.` does not match in a JavaScript regular expression. */
  predicate IsLineTerminator(c: char)
  {
    c == '\n' || c == '\r' || c == '\U{2028}' || c == '\U{2029}'
  }

  predicate NoTerminator(s: string)
  {
    forall k :: 0 <= k < |s| ==> !IsLineTerminator(s[k])
  }

  // replace(/\*\*(.*?)\*\*/g, "$1"): a `**` closed by the next `**` on the same line loses both markers.
  function BoldPairs(s: string): (r: string)
    decreases |s|
  {
    if |s| == 0 then s
    else if StartsWith(s, "**") && IndexOf(s[2..], "**") >= 0 && NoTerminator(s[2..2 + IndexOf(s[2..], "**")]) then
      var j := IndexOf(s[2..], "**");
      s[2..2 + j] + BoldPairs(s[4 + j..])
    else [s[0]] + BoldPairs(s[1..])
  }

  // replace(/\*\*\s*/g, ""): every remaining `**` goes, with the white space after it.
  function Hanging(s: string): (r: string)
    decreases |s|
  {
    if |s| == 0 then s
    else if StartsWith(s, "**") then Hanging(s[2 + SpaceRun(s[2..])..])
    else [s[0]] + Hanging(s[1..])
  }

  // replace(/\s*\*\*/g, ""): every `**` goes, with the white space before it.
  function Trailing(s: string): (r: string)
    decreases |s|
  {
    if |s| == 0 then s
    else if StartsWith(s[SpaceRun(s)..], "**") then Trailing(s[SpaceRun(s) + 2..])
    else [s[0]] + Trailing(s[1..])
  }

  /** `cleanMarkdownFormatting`: the three replacements in turn; "" (falsy) is returned as it is. */
  function CleanMarkdown(text: string): (r: string)
    ensures text == "" ==> r == ""
  {
    if text == "" then text else Trailing(Hanging(BoldPairs(text)))
  }

  /** No two adjacent stars. */
  predicate NoDoubleStar(s: string)
  {
    forall i :: 0 <= i < |s| - 1 ==> !(s[i] == '*' && s[i + 1] == '*')
  }

  lemma NoDoubleStarIffAbsent(s: string)
    ensures NoDoubleStar(s) <==> !Contains(s, "**")
  {
    if Contains(s, "**") {
      var i := IndexOf(s, "**");
      assert s[i] == s[i..i + 2][0] && s[i + 1] == s[i..i + 2][1];
    }
    if !NoDoubleStar(s) {
      var i :| 0 <= i < |s| - 1 && s[i] == '*' && s[i + 1] == '*';
      assert s[i..i + 2] == "**";
      ContainsAt(s, "**", i);
    }
  }

  /** After the second replacement no `**` is left: removing one never brings two stars together. */
  lemma {:induction false} HangingNoDoubleStar(s: string)
    ensures NoDoubleStar(Hanging(s))
    decreases |s|
  {
    if |s| > 0 {
      if StartsWith(s, "**") {
        HangingNoDoubleStar(s[2 + SpaceRun(s[2..])..]);
      } else {
        HangingNoDoubleStar(s[1..]);
        var t := Hanging(s[1..]);
        if s[0] == '*' && |t| > 0 {
          assert s[..2] != "**";
          assert s[1] != '*';
          assert t == [s[1]] + Hanging(s[2..]) by {
            assert !StartsWith(s[1..], "**");
            assert s[1..][1..] == s[2..];
          }
        }
        assert forall i :: 1 <= i < |t| ==> ([s[0]] + t)[i] == t[i - 1];
      }
    }
  }

  /** Text without `**` passes the third replacement unchanged. */
  lemma {:induction false} TrailingIdentity(s: string)
    requires NoDoubleStar(s)
    ensures Trailing(s) == s
    decreases |s|
  {
    if |s| > 0 {
      var k := SpaceRun(s);
      if k + 2 <= |s| {
        assert s[k..][..2][0] == s[k] && s[k..][..2][1] == s[k + 1];
      }
      forall i | 0 <= i < |s[1..]| - 1
        ensures !(s[1..][i] == '*' && s[1..][i + 1] == '*')
      {
        assert s[1..][i] == s[i + 1] && s[1..][i + 1] == s[i + 2];
      }
      TrailingIdentity(s[1..]);
      assert [s[0]] + s[1..] == s;
    }
  }

  /** The cleaned text never holds `**`. */
  lemma CleanMarkdownNoBold(text: string)
    ensures !Contains(CleanMarkdown(text), "**")
  {
    if text != "" {
      var h := Hanging(BoldPairs(text));
      HangingNoDoubleStar(BoldPairs(text));
      TrailingIdentity(h);
      NoDoubleStarIffAbsent(h);
    } else {
      assert !StartsWith("", "**");
    }
  }

  // ---------------------------------------------------------------------------
  // Simplified to traditional characters

  /** `conversionMap` in the order `Object.entries` yields it: first-definition order, each
   *  key once (时机与方法 and 约会 are written twice, with the same value). */
  const Conversions: seq<(Key, string)> := Leading + Later

  /** A key of the map: a non-empty pattern. */
  type Key = s: string | |s| > 0 witness "计划"

  /** The first entries, down to the compound that must go before its own first word. */
  const Leading: seq<(Key, string)> := [("计划", "計劃"), ("约会", "約會"), ("时机与方法", "時機與方法"), ("时机", "時機")]

  const Later: seq<(Key, string)> :=
    Later1 + Later2 + Later3 + Later4 + Later5 + Later6 + Later7 + Later8

  const Later1: seq<(Key, string)> := [
    ("发展", "發展"), ("过程", "過程"), ("说话", "說話"), ("沟通", "溝通"),
    ("经济", "經濟"), ("财务", "財務"), ("诚实", "誠實"), ("诚信", "誠信")]

  const Later2: seq<(Key, string)> := [
    ("学习", "學習"), ("实践", "實踐"), ("实际", "實際"), ("实现", "實現"),
    ("应该", "應該"), ("应当", "應當"), ("选择", "選擇"), ("环境", "環境")]

  const Later3: seq<(Key, string)> := [
    ("围绕", "圍繞"), ("创造", "創造"), ("营造", "營造"), ("维护", "維護"),
    ("维持", "維持"), ("关系", "關係"), ("问题", "問題"), ("处理", "處理")]

  const Later4: seq<(Key, string)> := [
    ("联系", "聯系"), ("连接", "連接"), ("设计", "設計"), ("装饰", "裝飾"),
    ("风格", "風格"), ("样式", "樣式"), ("颜色", "顏色"), ("颜值", "顏值")]

  const Later5: seq<(Key, string)> := [
    ("质量", "質量"), ("质感", "質感"), ("共同制定年度计划", "共同制定年度計劃"), ("制定", "制定"),
    ("讨论", "討論"), ("决定", "決定"), ("项目", "項目"), ("规划", "規劃")]

  const Later6: seq<(Key, string)> := [
    ("管理", "管理"), ("资源", "資源"), ("资金", "資金"), ("资产", "資產"),
    ("协调", "協調"), ("协商", "協商"), ("调整", "調整"), ("调节", "調節")]

  const Later7: seq<(Key, string)> := [
    ("调和", "調和"), ("运气", "運氣"), ("运势", "運勢"), ("行动建议", "行動建議"),
    ("升温", "升溫"), ("庆典", "慶典"), ("温暖", "溫暖"), ("压力", "壓力")]

  const Later8: seq<(Key, string)> := [
    ("节点", "節點"), ("绿色", "綠色"), ("练习", "練習"), ("习惯", "習慣")]

  /** The text after the first `n` global replacements. */
  function ConvertFirst(text: string, n: nat): string
    requires n <= |Conversions|
  {
    if n == 0 then text
    else
      ReplaceAny(ConvertFirst(text, n - 1), [Conversions[n - 1].0], Conversions[n - 1].1)
  }

  /** `convertToTraditionalChinese`: each key replaced everywhere, one key after another. */
  method ConvertToTraditional(text: string) returns (converted: string)
    ensures converted == ConvertFirst(text, |Conversions|)
  {
    converted := text;
    for i := 0 to |Conversions|
      invariant converted == ConvertFirst(text, i)
    {
      var (simplified, traditional) := Conversions[i];
      converted := ReplaceAny(converted, [simplified], traditional);
    }
  }

  /** Text holding none of the keys is left alone. */
  lemma {:induction false} KeyFreeUnchanged(text: string, n: nat)
    requires n <= |Conversions|
    requires forall i :: 0 <= i < n ==> !Contains(text, Conversions[i].0)
    ensures ConvertFirst(text, n) == text
  {
    if n > 0 {
      KeyFreeUnchanged(text, n - 1);
      CountZeroIffAbsent(text, [Conversions[n - 1].0]);
    }
  }

  /** 时机与方法 is converted whole before 时机 is: after its own step no occurrence is left for
   *  the shorter key to split. */
  lemma CompoundBeforePart(text: string)
    ensures Conversions[2].0 == "时机与方法" && Conversions[3].0 == "时机"
    ensures !Contains(ConvertFirst(text, 3), "时机与方法")
  {
    assert Conversions[2] == Leading[2] && Conversions[3] == Leading[3];
    var q := "时机与方法";
    var r := "時機與方法";
    assert forall i :: 1 <= i < |r| ==> r[i] != q[0];
    assert forall i :: 1 <= i < |q| ==> q[i] != r[0];
    assert r[..|q|] != q by { assert r[0] != q[0]; }
    ReplaceLeavesNoMatch(ConvertFirst(text, 2), [q], r, q);
  }

  /** `cleanContent`: markdown markers first, then the characters. */
  function CleanText(text: string): string
  {
    if text == "" then text else ConvertFirst(CleanMarkdown(text), |Conversions|)
  }

  method CleanContent(text: string) returns (cleaned: string)
    ensures cleaned == CleanText(text)
  {
    if text == "" {
      return text;
    }
    cleaned := CleanMarkdown(text);
    cleaned := ConvertToTraditional(cleaned);
  }

  // ---------------------------------------------------------------------------
  // Relationship taboos

  datatype Subsection = Subsection(title: string, content: string)
  datatype Section = Section(title: string, color: string, subsections: seq<Subsection>)
  datatype MonthlyNote = MonthlyNote(title: string, content: string)

  /** The structured "感情關係禁忌" card. */
  datatype Taboos = Taboos(sections: seq<Section>, monthlyNote: MonthlyNote)

  /** The colour of a main section header line; None for every other line. */
  function HeaderColor(line: string): (r: Option<string>)
  {
    if line == "溝通禁忌" then Some("bg-pink-600")
    else if line == "行為禁忌" then Some("bg-red-600")
    else if line == "環境禁忌" then Some("bg-red-800")
    else None
  }

  /** The lines that open a subsection. */
  const SubHeaders: seq<string> := ["女方忌用", "男方忌用", "春季", "夏季", "戊月", "約會避開", "同房禁忌"]

  /** Where the subsection being collected sits: its section and its place in that section. */
  datatype Cursor = Cursor(section: nat, sub: nat)

  /** The parser's variables: the sections so far, `currentSubsection`, `collectingContent`
   *  and the 每月初 line the monthly note is made from. The section being filled is always
   *  the last one. */
  datatype ParseState = ParseState(sections: seq<Section>, current: Option<Cursor>, collecting: string, monthly: Option<string>)

  predicate ValidState(st: ParseState)
  {
    st.current.Some? ==>
      st.current.value.section < |st.sections| &&
      st.current.value.sub < |st.sections[st.current.value.section].subsections|
  }

  /** Section and subsection titles, in order. */
  predicate SameOutline(a: seq<Section>, b: seq<Section>)
  {
    |a| == |b| &&
    forall i :: 0 <= i < |a| ==>
      a[i].title == b[i].title && a[i].color == b[i].color &&
      |a[i].subsections| == |b[i].subsections| &&
      forall j :: 0 <= j < |a[i].subsections| ==> a[i].subsections[j].title == b[i].subsections[j].title
  }

  /** Writing the collected text into the subsection under the cursor, which may lie in an
   *  earlier section than the last one. */
  function SetContent(sections: seq<Section>, c: Cursor, content: string): (r: seq<Section>)
    requires c.section < |sections| && c.sub < |sections[c.section].subsections|
    ensures SameOutline(r, sections)
    ensures r[c.section].subsections[c.sub].content == content
  {
    var sec := sections[c.section];
    sections[c.section := sec.(subsections := sec.subsections[c.sub := sec.subsections[c.sub].(content := content)])]
  }

  /** `if (currentSubsection && collectingContent.trim())`: the collected text is saved. */
  function Flush(st: ParseState): (r: ParseState)
    requires ValidState(st)
    ensures ValidState(r) && SameOutline(r.sections, st.sections)
    ensures r.current == st.current && r.monthly == st.monthly
  {
    if st.current.Some? && Trim(st.collecting) != "" then
      st.(sections := SetContent(st.sections, st.current.value, Trim(st.collecting)), collecting := "")
    else st
  }

  /** One trimmed line of the loop. A main header opens a section but leaves the subsection
   *  being collected as it is. */
  function Step(st: ParseState, line: string): (r: ParseState)
    requires ValidState(st)
    ensures ValidState(r)
  {
    if HeaderColor(line).Some? then
      st.(sections := st.sections + [Section(line, HeaderColor(line).value, [])])
    else if StartsWith(line, "每月初") then
      st.(monthly := Some(line))
    else if |st.sections| == 0 then st
    else if line in SubHeaders then
      var f := Flush(st);
      var last := |f.sections| - 1;
      var sec := f.sections[last];
      f.(sections := f.sections[last := sec.(subsections := sec.subsections + [Subsection(line, "")])],
         current := Some(Cursor(last, |sec.subsections|)))
    else if st.current.Some? then
      st.(collecting := (if st.collecting == "" then "" else st.collecting + " ") + line)
    else st
  }

  /** `content.split("\n").filter((line) => line.trim() !== "")`. */
  function NonBlankLines(lines: seq<string>): (r: seq<string>)
    ensures forall i :: 0 <= i < |r| ==> !IsBlank(r[i])
  {
    if |lines| == 0 then []
    else NonBlankLines(lines[..|lines| - 1]) + (if IsBlank(lines[|lines| - 1]) then [] else [lines[|lines| - 1]])
  }

  function Lines(content: string): seq<string>
  {
    Words.TrimAll(NonBlankLines(Split(content, '\n')))
  }

  const Start := ParseState([], None, "", None)

  /** The state after the first `n` (trimmed) lines. */
  function Run(lines: seq<string>, n: nat): (r: ParseState)
    requires n <= |lines|
    ensures ValidState(r)
  {
    if n == 0 then Start else Step(Run(lines, n - 1), lines[n - 1])
  }

  const FallbackSections := [
    Section("溝通禁忌", "bg-pink-600", [
      Subsection("女方忌用", "「你總是…」「為什麼不…」（黃木食神受剋易引爆情緒）"),
      Subsection("男方忌用", "「隨便」「以後再說」（子水七殺過量拖延強化冷暴力）")]),
    Section("行為禁忌", "bg-red-600", [
      Subsection("春季", "避免在申時（15-17時）討論敏感話題，因此時金氣旺盛易引發爭執"),
      Subsection("夏季", "忌在臥室西北方放置尖銳物品，防止金木相剋影響感情"),
      Subsection("戊月", "2025年農曆九月需特別注意財務規劃，避免因金錢問題產生隔閡")]),
    Section("環境禁忌", "bg-red-800", [
      Subsection("約會避開", "約會避開：火鍋店（火氣過重）、地下室（水氣滯沉）"),
      Subsection("同房禁忌", "子時（23-1點）宜砂，易成心結；可改為備忘錄次日再議")])]

  const DefaultMonthly := MonthlyNote("每月初", "化解方法：在客廳東南方懸掛牡丹圖（木火相生），共同佩戴鴛鴦玉佩增強緣分")

  /** The note a 每月初 line gives: the line, cleaned. */
  function NoteOf(line: Option<string>): Option<MonthlyNote>
  {
    if line.Some? then Some(MonthlyNote("每月初", CleanText(line.value))) else None
  }

  /** After the loop: the last subsection is saved, then the hard-coded sections stand in when
   *  no header was found, and the default note when no 每月初 line was. */
  function Finish(st: ParseState): Taboos
    requires ValidState(st)
  {
    var f := Flush(st);
    Taboos(if |f.sections| == 0 then FallbackSections else f.sections,
           if f.monthly.Some? then NoteOf(f.monthly).value else DefaultMonthly)
  }

  /** What `parseRelationshipTaboosContent` builds from a text. */
  function TabooStructure(content: string): Taboos
  {
    Finish(Run(Lines(content), |Lines(content)|))
  }

  /** The body of the loop over the lines, on the parser's four variables. */
  method TakeLine(sections: seq<Section>, current: Option<Cursor>, collecting: string, monthly: Option<string>, line: string)
    returns (sections': seq<Section>, current': Option<Cursor>, collecting': string, monthly': Option<string>)
    requires ValidState(ParseState(sections, current, collecting, monthly))
    ensures ParseState(sections', current', collecting', monthly') == Step(ParseState(sections, current, collecting, monthly), line)
  {
    sections', current', collecting', monthly' := sections, current, collecting, monthly;
    var color := HeaderColor(line);
    if color.Some? {
      sections' := sections + [Section(line, color.value, [])];
    } else if StartsWith(line, "每月初") {
      monthly' := Some(line);
    } else if |sections| > 0 {
      if line in SubHeaders {
        if current.Some? && Trim(collecting) != "" {
          sections' := SetContent(sections, current.value, Trim(collecting));
          collecting' := "";
        }
        var last := |sections'| - 1;
        current' := Some(Cursor(last, |sections'[last].subsections|));
        sections' := sections'[last := sections'[last].(subsections := sections'[last].subsections + [Subsection(line, "")])];
      } else if current.Some? {
        if collecting != "" {
          collecting' := collecting + " ";
        }
        collecting' := collecting' + line;
      }
    }
  }

  /** The loop over the non-blank lines, each trimmed as it is read. */
  method ReadLines(lines: seq<string>)
    returns (sections: seq<Section>, current: Option<Cursor>, collecting: string, monthly: Option<string>)
    ensures ParseState(sections, current, collecting, monthly) == Run(Words.TrimAll(lines), |lines|)
  {
    sections, current, collecting, monthly := [], None, "", None;
    for i := 0 to |lines|
      invariant ParseState(sections, current, collecting, monthly) == Run(Words.TrimAll(lines), i)
    {
      sections, current, collecting, monthly := TakeLine(sections, current, collecting, monthly, Trim(lines[i]));
    }
  }

  /** What follows the loop: the last subsection is saved, the note is cleaned, and the
   *  fallbacks stand in. */
  method FinishTaboos(sections: seq<Section>, current: Option<Cursor>, collecting: string, monthly: Option<string>)
    returns (taboos: Taboos)
    requires ValidState(ParseState(sections, current, collecting, monthly))
    ensures taboos == Finish(ParseState(sections, current, collecting, monthly))
  {
    var saved := sections;
    if current.Some? && Trim(collecting) != "" {
      saved := SetContent(sections, current.value, Trim(collecting));
    }
    if |saved| == 0 {
      saved := FallbackSections;
    }
    var note := DefaultMonthly;
    if monthly.Some? {
      var cleaned := CleanContent(monthly.value);
      note := MonthlyNote("每月初", cleaned);
    }
    taboos := Taboos(saved, note);
  }

  /** `parseRelationshipTaboosContent`: one pass over the lines, then the last subsection and
   *  the fallbacks. */
  method ParseTaboos(content: string) returns (taboos: Taboos)
    ensures taboos == TabooStructure(content)
  {
    var sections, current, collecting, monthly := ReadLines(NonBlankLines(Split(content, '\n')));
    taboos := FinishTaboos(sections, current, collecting, monthly);
  }

  function Titles(sections: seq<Section>): (r: seq<string>)
    ensures |r| == |sections| && forall i :: 0 <= i < |r| ==> r[i] == sections[i].title
  {
    seq(|sections|, i requires 0 <= i < |sections| => sections[i].title)
  }

  /** Every section carries the colour of its header. */
  predicate Colored(sections: seq<Section>)
  {
    forall i :: 0 <= i < |sections| ==> HeaderColor(sections[i].title) == Some(sections[i].color)
  }

  /** Every subsection is headed by one of the subsection lines. */
  predicate SubTitled(sections: seq<Section>)
  {
    forall i, j :: 0 <= i < |sections| && 0 <= j < |sections[i].subsections| ==>
      sections[i].subsections[j].title in SubHeaders
  }

  /** The main header lines among the first `n` lines, trimmed, in order. */
  function HeaderLines(lines: seq<string>, n: nat): seq<string>
    requires n <= |lines|
  {
    if n == 0 then []
    else HeaderLines(lines, n - 1) + (if HeaderColor(lines[n - 1]).Some? then [lines[n - 1]] else [])
  }

  /** The last of the first `n` lines that starts with 每月初, trimmed. */
  function LastMonthly(lines: seq<string>, n: nat): Option<string>
    requires n <= |lines|
  {
    if n == 0 then None
    else if StartsWith(lines[n - 1], "每月初") then Some(lines[n - 1])
    else LastMonthly(lines, n - 1)
  }

  lemma OutlineKeeps(a: seq<Section>, b: seq<Section>)
    requires SameOutline(a, b)
    ensures Titles(a) == Titles(b)
    ensures Colored(b) ==> Colored(a)
    ensures SubTitled(b) ==> SubTitled(a)
  {
  }

  lemma HeaderNotMonthly(line: string)
    requires HeaderColor(line).Some?
    ensures !StartsWith(line, "每月初")
  {
    assert line[0] != '每';
  }

  /** A main header adds its section, with its colour and no subsections yet. */
  lemma AddSection(sections: seq<Section>, line: string)
    requires Colored(sections) && SubTitled(sections) && HeaderColor(line).Some?
    ensures var r := sections + [Section(line, HeaderColor(line).value, [])];
      Titles(r) == Titles(sections) + [line] && Colored(r) && SubTitled(r)
  {
  }

  /** A subsection line adds an empty subsection to the last section. */
  lemma AddSubsection(sections: seq<Section>, line: string)
    requires Colored(sections) && SubTitled(sections) && |sections| > 0 && line in SubHeaders
    ensures var last := |sections| - 1;
      var r := sections[last := sections[last].(subsections := sections[last].subsections + [Subsection(line, "")])];
      Titles(r) == Titles(sections) && Colored(r) && SubTitled(r)
  {
    var last := |sections| - 1;
    var r := sections[last := sections[last].(subsections := sections[last].subsections + [Subsection(line, "")])];
    assert forall j :: 0 <= j < |r[last].subsections| ==> r[last].subsections[j].title in SubHeaders;
  }

  /** One line adds its title when it is a main header and keeps every section labelled. */
  lemma StepOutline(st: ParseState, line: string)
    requires ValidState(st) && Colored(st.sections) && SubTitled(st.sections)
    ensures Titles(Step(st, line).sections) == Titles(st.sections) + (if HeaderColor(line).Some? then [line] else [])
    ensures Colored(Step(st, line).sections) && SubTitled(Step(st, line).sections)
  {
    if HeaderColor(line).Some? {
      AddSection(st.sections, line);
    } else if !StartsWith(line, "每月初") && |st.sections| > 0 && line in SubHeaders {
      var f := Flush(st).sections;
      OutlineKeeps(f, st.sections);
      AddSubsection(f, line);
    } else {
      assert Step(st, line).sections == st.sections;
    }
  }

  /** The sections opened so far are the header lines read so far. */
  lemma {:induction false} RunOutline(lines: seq<string>, n: nat)
    requires n <= |lines|
    ensures Titles(Run(lines, n).sections) == HeaderLines(lines, n)
    ensures Colored(Run(lines, n).sections) && SubTitled(Run(lines, n).sections)
  {
    if n == 0 {
      assert Run(lines, n) == Start;
      assert Titles(Start.sections) == [];
    } else {
      RunOutline(lines, n - 1);
      var st, line := Run(lines, n - 1), lines[n - 1];
      assert ValidState(st);
      assert Colored(st.sections);
      assert SubTitled(st.sections);
      StepOutline(st, line);
      assert Run(lines, n) == Step(st, line);
      assert HeaderLines(lines, n) == HeaderLines(lines, n - 1) + (if HeaderColor(line).Some? then [line] else []);
      assert Titles(Run(lines, n).sections) == Titles(Step(st, line).sections);
    }
  }

  /** Only a 每月初 line touches the monthly note. */
  lemma StepMonthly(st: ParseState, line: string)
    requires ValidState(st)
    ensures Step(st, line).monthly == (if StartsWith(line, "每月初") then Some(line) else st.monthly)
  {
    if HeaderColor(line).Some? {
      HeaderNotMonthly(line);
    }
  }

  /** One more line read: the note's line changes only on a 每月初 line. */
  lemma RunMonthlyStep(lines: seq<string>, n: nat, monthly: Option<string>)
    requires 0 < n <= |lines| && Run(lines, n - 1).monthly == monthly
    ensures Run(lines, n).monthly == (if StartsWith(lines[n - 1], "每月初") then Some(lines[n - 1]) else monthly)
  {
    StepMonthly(Run(lines, n - 1), lines[n - 1]);
  }

  /** The monthly note comes from the last 每月初 line read so far. */
  lemma {:induction false} RunMonthly(lines: seq<string>, n: nat)
    requires n <= |lines|
    ensures Run(lines, n).monthly == LastMonthly(lines, n)
  {
    if n > 0 {
      RunMonthly(lines, n - 1);
      RunMonthlyStep(lines, n, LastMonthly(lines, n - 1));
    }
  }

  /** The three built-in sections. */
  lemma FallbackOutline()
    ensures Titles(FallbackSections) == ["溝通禁忌", "行為禁忌", "環境禁忌"]
    ensures Colored(FallbackSections) && SubTitled(FallbackSections)
  {
    var f := FallbackSections;
    assert HeaderColor(f[0].title) == Some(f[0].color);
    assert HeaderColor(f[1].title) == Some(f[1].color);
    assert HeaderColor(f[2].title) == Some(f[2].color);
  }

  /** The card shows one section per main header line, in the order of the text, each with
   *  its header's colour and only the known subsection titles; with no header line at all it
   *  shows the three built-in sections. */
  lemma TabooSections(content: string)
    ensures var headers := HeaderLines(Lines(content), |Lines(content)|);
      Titles(TabooStructure(content).sections) ==
        (if headers == [] then ["溝通禁忌", "行為禁忌", "環境禁忌"] else headers)
    ensures Colored(TabooStructure(content).sections) && SubTitled(TabooStructure(content).sections)
  {
    var lines := Lines(content);
    var st := Run(lines, |lines|);
    RunOutline(lines, |lines|);
    OutlineKeeps(Flush(st).sections, st.sections);
    FallbackOutline();
  }

  /** The monthly note is the last 每月初 line, cleaned, or the built-in remedy when there is none. */
  lemma TabooMonthlyNote(content: string)
    ensures var note := LastMonthly(Lines(content), |Lines(content)|);
      TabooStructure(content).monthlyNote ==
        (if note.Some? then MonthlyNote("每月初", CleanText(note.value)) else DefaultMonthly)
  {
    var lines := Lines(content);
    RunMonthly(lines, |lines|);
    var st := Run(lines, |lines|);
    assert Flush(st).monthly == st.monthly;
  }

  // ---------------------------------------------------------------------------
  // Situations

  /** `situationPatterns`, in the order they are tried. */
  const SituationWords: seq<string> := ["約會", "聚會", "旅行", "工作", "社交"]

  const DefaultSituations: seq<string> := ["重要場合", "日常生活", "特殊時刻"]

  lemma SituationWordsDistinct()
    ensures forall i, j :: 0 <= i < j < |SituationWords| ==> SituationWords[i] != SituationWords[j]
    ensures forall i :: 0 <= i < |SituationWords| ==> |SituationWords[i]| > 0
  {
  }

  /** The words among the first `n` patterns that occur in the text, in pattern order. */
  function FoundWords(content: string, n: nat): (r: seq<string>)
    requires n <= |SituationWords|
    ensures forall i :: 0 <= i < |r| ==> r[i] in SituationWords[..n] && Contains(content, r[i])
  {
    if n == 0 then []
    else FoundWords(content, n - 1) + (if Contains(content, SituationWords[n - 1]) then [SituationWords[n - 1]] else [])
  }

  /** At most the first three found words, or the three generic situations. */
  function Situations(content: string): seq<string>
  {
    var found := FoundWords(content, |SituationWords|);
    if |found| > 0 then found[..if |found| < 3 then |found| else 3] else DefaultSituations
  }

  /** `extractSituations`: every match of every pattern, each word pushed the first time. */
  method ExtractSituations(content: string) returns (situations: seq<string>)
    ensures situations == Situations(content)
  {
    SituationWordsDistinct();
    var found: seq<string> := [];
    for p := 0 to |SituationWords|
      invariant found == FoundWords(content, p)
    {
      var word := SituationWords[p];
      var matches := CountAny(content, [word]);
      CountZeroIffAbsent(content, [word]);
      for m := 0 to matches
        invariant found == FoundWords(content, p) + (if m > 0 then [word] else [])
      {
        if word !in found {
          found := found + [word];
        }
      }
    }
    situations := if |found| > 0 then found[..if |found| < 3 then |found| else 3] else DefaultSituations;
  }

  /** The situations are at most three distinct words that occur in the text, taken in pattern
   *  order; the generic three appear exactly when none of the words occurs. */
  lemma SituationsShape(content: string)
    ensures var r := Situations(content);
      |r| <= 3 &&
      (r == DefaultSituations <==> forall i :: 0 <= i < |SituationWords| ==> !Contains(content, SituationWords[i])) &&
      (r != DefaultSituations ==>
        r <= FoundWords(content, |SituationWords|) &&
        forall i :: 0 <= i < |r| ==> r[i] in SituationWords && Contains(content, r[i]))
  {
    SituationWordsDistinct();
    FoundWordsDistinct(content, |SituationWords|);
    var found := FoundWords(content, |SituationWords|);
    FoundIffContained(content, |SituationWords|);
    if |found| > 0 {
      assert found[0] in SituationWords;
      assert DefaultSituations[0] !in SituationWords;
    }
  }

  /** No word is found twice. */
  lemma {:induction false} FoundWordsDistinct(content: string, n: nat)
    requires n <= |SituationWords|
    ensures forall i, j :: 0 <= i < j < |FoundWords(content, n)| ==> FoundWords(content, n)[i] != FoundWords(content, n)[j]
  {
    if n > 0 {
      FoundWordsDistinct(content, n - 1);
      SituationWordsDistinct();
      assert SituationWords[n - 1] !in SituationWords[..n - 1];
    }
  }

  /** Some word is found exactly when one of the patterns occurs. */
  lemma {:induction false} FoundIffContained(content: string, n: nat)
    requires n <= |SituationWords|
    ensures FoundWords(content, n) == [] <==> forall i :: 0 <= i < n ==> !Contains(content, SituationWords[i])
  {
    if n > 0 {
      FoundIffContained(content, n - 1);
    }
  }

  // ---------------------------------------------------------------------------
  // Action advice

  /** `split(/•|\n/)`: the pieces between bullets and line breaks. */
  function Pieces(text: string): seq<string>
  {
    LineParts(Split(text, '•'))
  }

  function LineParts(parts: seq<string>): seq<string>
  {
    if |parts| == 0 then [] else Split(parts[0], '\n') + LineParts(parts[1..])
  }

  /** The filter on the cleaned pieces. */
  predicate Keep(item: string)
  {
    |item| > 5 && !Contains(item, "開運物") && !Contains(item, "女方") && !Contains(item, "共同")
  }

  /** `.map((item) => cleanContent(item.trim()))`. */
  function CleanPieces(pieces: seq<string>): (r: seq<string>)
    ensures |r| == |pieces| && forall i :: 0 <= i < |r| ==> r[i] == CleanText(Trim(pieces[i]))
  {
    seq(|pieces|, i requires 0 <= i < |pieces| => CleanText(Trim(pieces[i])))
  }

  /** `.filter(…)` with the length and word tests. */
  function KeptItems(items: seq<string>): (r: seq<string>)
    ensures forall i :: 0 <= i < |r| ==> Keep(r[i])
  {
    if |items| == 0 then []
    else (if Keep(items[0]) then [items[0]] else []) + KeptItems(items[1..])
  }

  /** The items one capture of an action-advice pattern yields. */
  function ActionItems(capture: string): (r: seq<string>)
  {
    KeptItems(CleanPieces(Pieces(Trim(capture))))
  }

  /** `match && match[1]` (an empty capture is falsy). */
  predicate Captured(capture: Option<string>)
  {
    capture.Some? && capture.value != ""
  }

  /** The first pattern, from `k` on, whose capture yields at least one item; -1 when none does. */
  function FirstAdvice(captures: seq<Option<string>>, k: nat): (i: int)
    requires k <= |captures|
    ensures -1 <= i < |captures| && (i >= k || i == -1)
    ensures i >= 0 ==> Captured(captures[i]) && ActionItems(captures[i].value) != []
    ensures forall j :: k <= j < |captures| && (i == -1 || j < i) ==>
      !(Captured(captures[j]) && ActionItems(captures[j].value) != [])
    decreases |captures| - k
  {
    if k == |captures| then -1
    else if Captured(captures[k]) && ActionItems(captures[k].value) != [] then k
    else FirstAdvice(captures, k + 1)
  }

  /** The two bullets the direct pattern captures, each kept when non-empty. */
  function DirectItems(direct: Option<(Option<string>, Option<string>)>): (r: seq<string>)
    ensures |r| <= 2
  {
    match direct
    case None => []
    case Some((first, second)) =>
      (if Captured(first) then [CleanText(Trim(first.value))] else []) +
      (if Captured(second) then [CleanText(Trim(second.value))] else [])
  }

  /** What `extractActionAdvice` returns, given the capture of each of its patterns (in order)
   *  and the captures of the direct pattern when it matches. */
  function ActionAdvice(captures: seq<Option<string>>, direct: Option<(Option<string>, Option<string>)>): (r: seq<string>)
    ensures |r| <= 3
    ensures FirstAdvice(captures, 0) >= 0 ==>
      r != [] && r <= ActionItems(captures[FirstAdvice(captures, 0)].value) && forall i :: 0 <= i < |r| ==> Keep(r[i])
    ensures FirstAdvice(captures, 0) == -1 ==> |r| <= 2
  {
    var i := FirstAdvice(captures, 0);
    if i >= 0 then
      var items := ActionItems(captures[i].value);
      items[..if |items| < 3 then |items| else 3]
    else DirectItems(direct)
  }

  /** `extractActionAdvice`: the patterns in turn, the first that yields items wins. */
  method ExtractActionAdvice(captures: seq<Option<string>>, direct: Option<(Option<string>, Option<string>)>)
    returns (advice: seq<string>)
    ensures advice == ActionAdvice(captures, direct)
  {
    for k := 0 to |captures|
      invariant FirstAdvice(captures, 0) == FirstAdvice(captures, k)
    {
      if Captured(captures[k]) {
        var items := ActionItems(captures[k].value);
        if |items| > 0 {
          return items[..if |items| < 3 then |items| else 3];
        }
      }
    }
    advice := DirectItems(direct);
  }

  // ---------------------------------------------------------------------------
  // Cache key

  /** The two fields `getCacheKey` reads from a partner; None is `undefined`. */
  datatype Partner = Partner(birthDateTime: Option<string>, birthday: Option<string>)

  /** `user.birthDateTime || user.birthday` as a template literal shows it. */
  function DateText(p: Partner): string
  {
    if p.birthDateTime.Some? && p.birthDateTime.value != "" then p.birthDateTime.value
    else if p.birthday.Some? then p.birthday.value
    else "undefined"
  }

  /** `getCacheKey`: `couple_core_suggestion_<date1>_<date2>_感情_<year>`. */
  function CacheKey(user1: Partner, user2: Partner, year: int): (r: string)
    ensures StartsWith(r, "couple_core_suggestion_")
  {
    "couple_core_suggestion_" + DateText(user1) + "_" + DateText(user2) + "_感情_" + IntString(year)
  }

  lemma KeyShape(a: string, b: string, y: string)
    ensures "couple_core_suggestion_" + a + "_" + b + "_感情_" + y ==
      "couple" + "_" + ("core" + "_" + ("suggestion" + "_" + (a + "_" + b + "_" + "感情" + "_" + y)))
  {
    var head := "couple" + "_" + ("core" + "_" + ("suggestion" + "_"));
    assert "couple_core_suggestion_" == head;
    assert "_感情_" == "_" + "感情" + "_";
  }

  /** While neither date holds an underscore, the key splits back into its seven parts, so
   *  different dates or years never share a cache entry. */
  lemma CacheKeySplits(user1: Partner, user2: Partner, year: int)
    requires '_' !in DateText(user1) && '_' !in DateText(user2)
    ensures Split(CacheKey(user1, user2, year), '_') ==
      ["couple", "core", "suggestion", DateText(user1), DateText(user2), "感情", IntString(year)]
  {
    var a, b, y := DateText(user1), DateText(user2), IntString(year);
    MingJu.IntStringNoUnderscore(year);
    var rest := Join([a, b, "感情", y], "_");
    MingJu.JoinFour(a, b, "感情", y);
    SplitJoin([a, b, "感情", y], '_');
    KeyShape(a, b, y);
    var s3 := "suggestion" + "_" + rest;
    var s2 := "core" + "_" + s3;
    SplitCons("suggestion", '_', rest);
    SplitCons("core", '_', s3);
    SplitCons("couple", '_', s2);
  }
}
