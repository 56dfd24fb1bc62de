/** The emergency-feng-shui route: its own simplified chart for a partner whose chart was
 *  not sent, and the reading of the AI's answer into exactly three coloured
 *  recommendations. The AI call is not modelled, and neither is the regular expression
 *  that cuts the answer at blank lines: its pieces are an input. */
module EmergencyFengShui {
  import opened Wrappers
  import opened Strings
  import opened Ganzhi
  import opened Words

  // ---------------------------------------------------------------------------
  // calculateBaZi

  /** The fields of `new Date(birthDate)` the chart uses: the year, the month 1-12 and the
   *  whole days since 1970-01-01. */
  datatype BirthDate = BirthDate(year: int, month: int, daysSinceEpoch: int)

  /** The four pillars, each the value of a `+` of two lookups. */
  datatype Chart = Chart(year: Joined, month: Joined, day: Joined, hour: Joined)

  /** `calculateBaZi`; `None` stands for an Invalid Date, whose NaN indices find nothing. */
  function CalculateBaZi(date: Option<BirthDate>): (r: Chart)
    ensures r.hour == Text("甲子")
  {
    if date.None? then
      Chart(JoinAt(-1, -1), JoinAt(-1, -1), JoinAt(-1, -1), Text("甲子"))
    else
      var d := date.value;
      Chart(YearPillar(d), MonthPillar(JsRem(d.year - 4, 10), d.month), DayPillar(d), Text("甲子"))
  }

  /** The year pillar counts from the year 4, a 甲子 year. */
  function YearPillar(d: BirthDate): Joined
  {
    JoinAt(JsRem(d.year - 4, 10), JsRem(d.year - 4, 12))
  }

  /** The month stem is `(yearStem * 2 + month) % 10` and the branch `(month + 1) % 12`. */
  function MonthPillar(yearStemIndex: int, month: int): Joined
  {
    JoinAt(JsRem(yearStemIndex * 2 + month, 10), JsRem(month + 1, 12))
  }

  /** The day pillar counts from four days before 1970-01-01. */
  function DayPillar(d: BirthDate): Joined
  {
    JoinAt(JsRem(d.daysSinceEpoch + 4, 10), JsRem(d.daysSinceEpoch + 4, 12))
  }

  /** A date from year 4 on, with a month 1-12, on or after 1970-01-01. */
  predicate ValidDate(d: BirthDate)
  {
    d.year >= 4 && 1 <= d.month <= 12 && d.daysSinceEpoch >= 0
  }

  /** For such a date the year and day pillars are the stated remainders. */
  lemma ChartIndices(d: BirthDate)
    requires ValidDate(d)
    ensures YearPillar(d) == Text(PillarText((d.year - 4) % 10, (d.year - 4) % 12))
    ensures DayPillar(d) == Text(PillarText((d.daysSinceEpoch + 4) % 10, (d.daysSinceEpoch + 4) % 12))
  {
    JoinAtRem(d.year - 4, d.year - 4);
    JoinAtRem(d.daysSinceEpoch + 4, d.daysSinceEpoch + 4);
  }

  /** For such a date the month stem counts from the year stem index. */
  lemma MonthFromYearStem(d: BirthDate)
    requires ValidDate(d)
    ensures CalculateBaZi(Some(d)).month == MonthPillar((d.year - 4) % 10, d.month)
  {
    assert JsRem(d.year - 4, 10) == (d.year - 4) % 10;
  }

  /** The month stem is `(yearStem * 2 + m) % 10` and the month branch `(m + 1) % 12`. */
  lemma MonthIndices(ys: int, month: int)
    requires 0 <= ys < 10 && 1 <= month <= 12
    ensures MonthPillar(ys, month) == Text(PillarText((ys * 2 + month) % 10, (month + 1) % 12))
  {
    JoinAtRem(ys * 2 + month, month + 1);
  }

  /** The month stem and branch always differ in parity, so the month pillar this route
   *  prints is never one of the sixty of the cycle (a yang stem never meets a yin branch). */
  lemma MonthPillarOutsideCycle(d: BirthDate)
    requires ValidDate(d)
    ensures var ys := (d.year - 4) % 10;
      (ys * 2 + d.month) % 10 % 2 != (d.month + 1) % 12 % 2
  {
    var ys := (d.year - 4) % 10;
    EvenModParity(ys * 2 + d.month, 10);
    EvenModParity(d.month + 1, 12);
  }

  /** The year and day pillars, in contrast, keep stem and branch parity together. */
  lemma YearAndDayInCycle(d: BirthDate)
    requires ValidDate(d)
    ensures (d.year - 4) % 10 % 2 == (d.year - 4) % 12 % 2
    ensures (d.daysSinceEpoch + 4) % 10 % 2 == (d.daysSinceEpoch + 4) % 12 % 2
  {
    EvenModParity(d.year - 4, 10);
    EvenModParity(d.year - 4, 12);
    EvenModParity(d.daysSinceEpoch + 4, 10);
    EvenModParity(d.daysSinceEpoch + 4, 12);
  }

  /** An Invalid Date finds nothing in either table, so the first three pillars are the
   *  number NaN rather than text; the hour stays 甲子. */
  lemma InvalidDateChart()
    ensures var c := CalculateBaZi(None);
      c.year == c.month == c.day == NaN && c.hour == Text("甲子")
  {
  }

  /** Before 1970 a day whose stem and branch remainders are both negative is NaN too,
   *  while one with a single negative remainder prints `undefined` beside a character. */
  lemma EarlyDayPillar(d: BirthDate)
    ensures d.daysSinceEpoch == -5 ==> CalculateBaZi(Some(d)).day == NaN
    ensures d.daysSinceEpoch == -14 ==> CalculateBaZi(Some(d)).day == Text("甲undefined")
  {
  }

  // ---------------------------------------------------------------------------
  // parseEmergencyFengShui

  datatype Recommendation = Recommendation(title: string, description: string, color: string)

  /** The colour of the recommendation at each position. */
  const Colors: seq<string> := ["#B08D57", "#C4839F", "#7B8B5C"]

  /** The three recommendations used to make up the count. */
  function Fallbacks(isSimplified: bool): (r: seq<Recommendation>)
    ensures |r| == 3 && forall i :: 0 <= i < 3 ==> r[i].color == Colors[i]
  {
    if isSimplified then [
      Recommendation("卧室摆放金属风铃", "在卧室东侧挂置小型金属风铃，调和五行能量，增强感情和谐，每日清晨轻拨一次。", Colors[0]),
      Recommendation("客厅点燃暖色蜡烛", "每晚点燃暖黄色蜡烛30分钟，营造温馨氛围，促进深度沟通，建议使用天然蜂蜡。", Colors[1]),
      Recommendation("床头放置红色元素", "在床头摆放红色靠枕或花朵，激活爱情能量，增强彼此感情连结。", Colors[2])]
    else [
      Recommendation("臥室擺放金屬風鈴", "在臥室東側掛置小型金屬風鈴，調和五行能量，增強感情和諧，每日清晨輕撥一次。", Colors[0]),
      Recommendation("客廳點燃暖色蠟燭", "每晚點燃暖黃色蠟燭30分鐘，營造溫馨氛圍，促進深度溝通，建議使用天然蜂蠟。", Colors[1]),
      Recommendation("床頭放置紅色元素", "在床頭擺放紅色靠枕或花朵，激活愛情能量，增強彼此感情連結。", Colors[2])]
  }

  /** `.replace(/^\d+[\.\)]\s*\/, "")`: a leading number with `.` or `)` and the white
   *  space after it are dropped. */
  function StripNumber(s: string): (r: string)
    ensures |r| <= |s|
  {
    var n := DigitRun(s);
    if 0 < n < |s| && (s[n] == '.' || s[n] == ')') then TrimStart(s[n + 1..]) else s
  }

  /** `.replace(/^【|】$/g, "")`: a 【 at the front and a 】 at the end are dropped. */
  function StripBrackets(s: string): (r: string)
    ensures |r| <= |s|
  {
    var a := if |s| > 0 && s[0] == '【' then s[1..] else s;
    if |a| > 0 && a[|a| - 1] == '】' then a[..|a| - 1] else a
  }

  function CleanTitle(line: string): string
  {
    StripBrackets(StripNumber(line))
  }

  /** A leading number, its `.` or `)` and the white space after it are what is dropped. */
  lemma StripNumberRule(number: string, sep: char, space: string, rest: string)
    requires |number| > 0 && forall k :: 0 <= k < |number| ==> IsDigit(number[k])
    requires sep == '.' || sep == ')'
    requires forall k :: 0 <= k < |space| ==> IsJsSpace(space[k])
    requires |rest| > 0 && !IsJsSpace(rest[0])
    ensures StripNumber(number + [sep] + space + rest) == rest
  {
    var tail := [sep] + space + rest;
    var s := number + tail;
    assert s == number + [sep] + space + rest;
    DigitRunOfPrefix(number, tail);
    assert s[|number|] == sep;
    assert s[|number| + 1..] == space + rest;
    TrimStartOfSpaces(space, rest);
  }

  /** A title in 【】 brackets loses exactly the two brackets. */
  lemma StripBracketsRule(text: string)
    ensures StripBrackets("【" + text + "】") == text
  {
    var s := "【" + text + "】";
    assert s[1..] == text + "】";
  }

  /** A numbered, bracketed heading such as `1. 【床頭放置紅色元素】` is cleaned to the
   *  text between the brackets. */
  lemma CleanTitleOfHeading(number: string, sep: char, space: string, text: string)
    requires |number| > 0 && forall k :: 0 <= k < |number| ==> IsDigit(number[k])
    requires sep == '.' || sep == ')'
    requires forall k :: 0 <= k < |space| ==> IsJsSpace(space[k])
    ensures CleanTitle(number + [sep] + space + "【" + text + "】") == text
  {
    var rest := "【" + text + "】";
    assert number + [sep] + space + "【" + text + "】" == number + [sep] + space + rest;
    StripNumberRule(number, sep, space, rest);
    StripBracketsRule(text);
  }

  lemma {:induction false} DigitRunOfPrefix(a: string, b: string)
    requires forall k :: 0 <= k < |a| ==> IsDigit(a[k])
    requires |b| > 0 && !IsDigit(b[0])
    ensures DigitRun(a + b) == |a|
    decreases |a|
  {
    if |a| > 0 {
      assert (a + b)[1..] == a[1..] + b;
      DigitRunOfPrefix(a[1..], b);
    }
  }

  lemma {:induction false} TrimStartOfSpaces(space: string, rest: string)
    requires forall k :: 0 <= k < |space| ==> IsJsSpace(space[k])
    requires |rest| > 0 && !IsJsSpace(rest[0])
    ensures TrimStart(space + rest) == rest
    decreases |space|
  {
    if |space| > 0 {
      assert (space + rest)[1..] == space[1..] + rest;
      TrimStartOfSpaces(space[1..], rest);
    } else {
      assert space + rest == rest;
      TrimStartOfSpaceFree(rest);
    }
  }

  /** A title and a description read from one part of the answer. */
  type Candidate = (string, string)

  /** One blank-line-separated part, given as its trimmed non-empty lines: the first
   *  cleaned into the title and the rest joined by spaces into the description; both must
   *  be non-empty. */
  function CandidateOfLines(lines: seq<string>): Option<Candidate>
  {
    if |lines| >= 2 then
      var title, description := CleanTitle(lines[0]), Join(lines[1..], " ");
      if |title| > 0 && |description| > 0 then Some((title, description)) else None
    else None
  }

  /** Each part trimmed and cut into its trimmed non-empty lines. */
  function SectionLines(sections: seq<string>): (r: seq<seq<string>>)
    ensures |r| == |sections|
  {
    seq(|sections|, k requires 0 <= k < |sections| => TrimmedLines(Trim(sections[k]), 0))
  }

  /** A description is never what rejects a part: two or more non-empty lines always give
   *  one, so a part is read exactly when its cleaned first line is not empty. */
  lemma DescriptionNeverEmpty(lines: seq<string>)
    requires |lines| >= 2 && forall k :: 0 <= k < |lines| ==> |lines[k]| > 0
    ensures CandidateOfLines(lines).Some? <==> |CleanTitle(lines[0])| > 0
    ensures CandidateOfLines(lines).Some? ==> CandidateOfLines(lines).value == (CleanTitle(lines[0]), Join(lines[1..], " "))
  {
    assert |lines[1..][0]| > 0;
    JoinStartsWithFirst(lines[1..]);
  }

  /** `content.split(/\n\s*\n/).filter((s) => s.trim().length > 0)`, given the split. */
  function NonBlank(blocks: seq<string>): (r: seq<string>)
    ensures |r| <= |blocks|
    ensures forall k :: 0 <= k < |r| ==> !IsBlank(r[k])
  {
    if |blocks| == 0 then []
    else if IsBlank(blocks[0]) then NonBlank(blocks[1..])
    else [blocks[0]] + NonBlank(blocks[1..])
  }

  /** The values among the first `i` options, in order. */
  function Somes<T>(opts: seq<Option<T>>, i: nat): (r: seq<T>)
    requires i <= |opts|
    ensures |r| <= i
  {
    if i == 0 then []
    else Somes(opts, i - 1) + (if opts[i - 1].Some? then [opts[i - 1].value] else [])
  }

  /** Collecting further only appends. */
  lemma {:induction false} SomesPrefix<T>(opts: seq<Option<T>>, i: nat, j: nat)
    requires i <= j <= |opts|
    ensures Somes(opts, i) <= Somes(opts, j)
    decreases j - i
  {
    if i < j {
      SomesPrefix(opts, i, j - 1);
    }
  }

  /** The section pass's candidate for each part, given as its lines. */
  function LineOptions(lines: seq<seq<string>>): (r: seq<Option<Candidate>>)
    ensures |r| == |lines|
  {
    seq(|lines|, k requires 0 <= k < |lines| => CandidateOfLines(lines[k]))
  }

  /** The action words that mark a line of the answer as a recommendation. */
  const Keywords: seq<string> := ["擺放", "摆放", "點燃", "点燃", "放置", "鋪設", "铺设"]

  const DefaultDescription: string := "具體的風水改善建議，有助於提升感情和諧。"

  /** `allLines[i + 1] || default`: the kept line after `i`, or the stock description. */
  function NextOrDefault(lines: seq<string>, i: nat): string
    requires i < |lines|
  {
    if i + 1 < |lines| && lines[i + 1] != "" then lines[i + 1] else DefaultDescription
  }

  /** The keyword pass's candidate for each kept line: a line with an action word, with the
   *  line after it as its description. */
  function KeywordOptions(lines: seq<string>): (r: seq<Option<Candidate>>)
    ensures |r| == |lines|
    ensures forall k :: 0 <= k < |r| ==>
      r[k] == if ContainsAny(lines[k], Keywords) then Some((lines[k], NextOrDefault(lines, k))) else None
  {
    seq(|lines|, k requires 0 <= k < |lines| =>
      if ContainsAny(lines[k], Keywords) then Some((lines[k], NextOrDefault(lines, k))) else None)
  }

  /** The kept lines are longer than 20 characters, so the stock description is used only
   *  for the last kept line. */
  lemma KeywordDescription(lines: seq<string>, i: nat)
    requires i < |lines| && forall k :: 0 <= k < |lines| ==> |lines[k]| > 20
    ensures NextOrDefault(lines, i) == if i + 1 < |lines| then lines[i + 1] else DefaultDescription
  {
  }

  /** The first three of a list, or all of it. */
  function Take3<T>(s: seq<T>): (r: seq<T>)
    ensures |r| == (if |s| <= 3 then |s| else 3) && r <= s
    ensures |s| <= 3 ==> r == s
  {
    if |s| <= 3 then s else s[..3]
  }

  /** Candidates coloured by their position. */
  function Colored(cs: seq<Candidate>): (r: seq<Recommendation>)
    requires |cs| <= 3
    ensures |r| == |cs|
    ensures forall k :: 0 <= k < |r| ==> r[k] == Recommendation(cs[k].0, cs[k].1, Colors[k])
  {
    seq(|cs|, k requires 0 <= k < |cs| => Recommendation(cs[k].0, cs[k].1, Colors[k]))
  }

  /** The section pass: the first three candidates among the non-blank parts. */
  function SectionPass(blocks: seq<string>): (r: seq<Candidate>)
    ensures |r| <= 3
  {
    var lines := SectionLines(NonBlank(blocks));
    Take3(Somes(LineOptions(lines), |lines|))
  }

  /** The keyword pass: the first three candidates among the kept lines. */
  function KeywordPass(content: string): (r: seq<Candidate>)
    ensures |r| <= 3
  {
    var lines := TrimmedLines(content, 20);
    Take3(Somes(KeywordOptions(lines), |lines|))
  }

  /** Colouring one more candidate appends one recommendation with the next colour. */
  lemma ColoredAppend(cs: seq<Candidate>, c: Candidate)
    requires |cs| < 3
    ensures Colored(cs + [c]) == Colored(cs) + [Recommendation(c.0, c.1, Colors[|cs|])]
  {
  }

  /** A prefix of length three, or the whole list, is what taking three gives. */
  lemma Take3OfPrefix<T>(p: seq<T>, s: seq<T>)
    requires p <= s && (|p| == 3 || p == s) && |p| <= 3
    ensures Take3(s) == p
  {
  }

  /** What `parseEmergencyFengShui` returns: `None` for content that is not a non-empty
   *  string or that yields no candidate; otherwise the section pass, or the keyword pass
   *  when the section pass found nothing, coloured by position and made up to three from
   *  the fallbacks. */
  function Parsed(content: Option<string>, blocks: seq<string>, isSimplified: bool): Option<seq<Recommendation>>
  {
    if content.None? || content.value == "" then None
    else
      var picked := Picked(content.value, blocks);
      if |picked| == 0 then None else Some(Colored(picked) + Fallbacks(isSimplified)[|picked|..])
  }

  /** The section pass, or the keyword pass when the section pass found nothing. */
  function Picked(content: string, blocks: seq<string>): (r: seq<Candidate>)
    ensures |r| <= 3
  {
    var first := SectionPass(blocks);
    if |first| > 0 then first else KeywordPass(content)
  }

  /** `parseEmergencyFengShui`. `content` is `None` when it is not a string; `blocks` is
   *  what cutting it at blank lines gives. */
  method ParseEmergencyFengShui(content: Option<string>, blocks: seq<string>, isSimplified: bool)
    returns (r: Option<seq<Recommendation>>)
    ensures r == Parsed(content, blocks, isSimplified)
  {
    if content.None? || content.value == "" {
      return None;
    }
    var recommendations := ReadBoth(content.value, blocks);
    if |recommendations| == 0 {
      return None;
    }
    ghost var picked := Picked(content.value, blocks);
    recommendations := PadToThree(recommendations, isSimplified);
    assert recommendations[..3] == recommendations == Colored(picked) + Fallbacks(isSimplified)[|picked|..];
    r := Some(recommendations[..3]);
  }

  /** The two loops: the parts first, the kept lines when no part was read. */
  method ReadBoth(content: string, blocks: seq<string>) returns (recommendations: seq<Recommendation>)
    ensures recommendations == Colored(Picked(content, blocks))
  {
    recommendations := ReadSections(SectionLines(NonBlank(blocks)));
    if |recommendations| == 0 {
      recommendations := ReadKeywordLines(TrimmedLines(content, 20));
    }
  }

  /** The first loop: one recommendation per readable part, until there are three. The
   *  parts come cut into lines. */
  method ReadSections(lines: seq<seq<string>>) returns (recommendations: seq<Recommendation>)
    ensures recommendations == Colored(Take3(Somes(LineOptions(lines), |lines|)))
  {
    ghost var options := LineOptions(lines);
    recommendations := [];
    var i := 0;
    while i < |lines| && |recommendations| < 3
      invariant i <= |lines|
      invariant |Somes(options, i)| <= 3
      invariant recommendations == Colored(Somes(options, i))
    {
      var candidate := CandidateOfLines(lines[i]);
      if candidate.Some? {
        ColoredAppend(Somes(options, i), candidate.value);
        recommendations := recommendations + [Recommendation(candidate.value.0, candidate.value.1, Colors[|recommendations|])];
      }
      i := i + 1;
    }
    SomesPrefix(options, i, |lines|);
    Take3OfPrefix(Somes(options, i), Somes(options, |lines|));
  }

  /** The second loop: one recommendation per kept line with an action word, until there
   *  are three. */
  method ReadKeywordLines(lines: seq<string>) returns (recommendations: seq<Recommendation>)
    ensures recommendations == Colored(Take3(Somes(KeywordOptions(lines), |lines|)))
  {
    ghost var options := KeywordOptions(lines);
    recommendations := [];
    var j := 0;
    while j < |lines| && |recommendations| < 3
      invariant j <= |lines|
      invariant |Somes(options, j)| <= 3
      invariant recommendations == Colored(Somes(options, j))
    {
      var line := lines[j];
      if ContainsAny(line, Keywords) {
        var nextLine := if j + 1 < |lines| then lines[j + 1] else "";
        var description := if nextLine != "" then nextLine else DefaultDescription;
        ColoredAppend(Somes(options, j), (line, description));
        recommendations := recommendations + [Recommendation(line, description, Colors[|recommendations|])];
      }
      j := j + 1;
    }
    SomesPrefix(options, j, |lines|);
    Take3OfPrefix(Somes(options, j), Somes(options, |lines|));
  }

  /** The padding loop: fallbacks are appended, each at its own position, up to three. */
  method PadToThree(picked: seq<Recommendation>, isSimplified: bool) returns (recommendations: seq<Recommendation>)
    requires |picked| <= 3
    ensures recommendations == picked + Fallbacks(isSimplified)[|picked|..]
  {
    var fallbacks := Fallbacks(isSimplified);
    recommendations := picked;
    while |recommendations| < 3
      invariant |picked| <= |recommendations| <= 3
      invariant recommendations == picked + fallbacks[|picked|..|recommendations|]
      decreases 3 - |recommendations|
    {
      recommendations := recommendations + [fallbacks[|recommendations|]];
    }
    assert fallbacks[|picked|..|recommendations|] == fallbacks[|picked|..];
  }

  /** A result has exactly three recommendations, the one at position `i` coloured
   *  `Colors[i]`. */
  lemma ParsedShape(content: Option<string>, blocks: seq<string>, isSimplified: bool)
    ensures var r := Parsed(content, blocks, isSimplified);
      r.Some? ==> |r.value| == 3 && forall i :: 0 <= i < 3 ==> r.value[i].color == Colors[i]
  {
  }

  /** `null` exactly for content that is missing or empty, or that neither pass can read. */
  lemma ParsedNone(content: Option<string>, blocks: seq<string>, isSimplified: bool)
    ensures Parsed(content, blocks, isSimplified).None? <==>
      content.None? || content.value == "" || (SectionPass(blocks) == [] && KeywordPass(content.value) == [])
  {
  }

  /** Parts of the answer come first: when any part reads as a recommendation, the keyword
   *  pass is not consulted and the first recommendations are the parts' candidates in order. */
  lemma SectionsTakePrecedence(content: string, blocks: seq<string>, isSimplified: bool, k: nat)
    requires content != "" && k < |SectionPass(blocks)|
    ensures var c := SectionPass(blocks)[k];
      Parsed(Some(content), blocks, isSimplified).value[k] == Recommendation(c.0, c.1, Colors[k])
  {
  }

  /** The section pass reads the parts in order and stops at three: it is a prefix of all
   *  the parts' candidates, and holds all of them when there are at most three. */
  lemma SectionPassPrefix(blocks: seq<string>)
    ensures var sections := NonBlank(blocks);
      var all := Somes(LineOptions(SectionLines(sections)), |sections|);
      SectionPass(blocks) <= all && (|all| <= 3 ==> SectionPass(blocks) == all)
  {
  }
}
