/** The couple-specific-problem route: each partner's chart (calendar library first, index
 *  arithmetic when that throws), the labelled pillars and day-master text shown for it,
 *  the pillars read back from the AI's answer, and the rule that an answer without a
 *  chart is replaced by the computed one. The AI call and its regular expressions are
 *  not modelled: the two captured groups are inputs. */
module CoupleSpecificProblem {
  import opened Wrappers
  import opened Strings
  import opened Ganzhi
  import opened Words
  import BaziCalculator
  import AccurateBazi
  import IndividualAnalysis

  /** The object `calculateBaZi` returns, with each pillar as the route prints it in a
   *  template literal (a NaN pillar of the fallback prints as `NaN`). */
  datatype BaziData = BaziData(year: string, month: string, day: string, hour: string,
    dayStem: Option<char>, dayBranch: Option<char>)

  /** The year and day pillars the calendar library gives. */
  datatype Library = Library(yearPillar: BaziCalculator.Pillar, dayPillar: BaziCalculator.Pillar)

  /** `calculateBaZi`'s main path: library pillars, the 五虎遁 month and the hour rule. */
  function CalculateBaZiMain(lib: Library, year: int, month: int, hour: int): (r: BaziData)
    ensures r.hour == IndividualAnalysis.HourPillar(hour, lib.dayPillar.tianGan)
    ensures r.dayStem == lib.dayPillar.tianGan && r.dayBranch == lib.dayPillar.diZhi
  {
    var monthPillar := BaziCalculator.GetMonthPillar(IndividualAnalysis.StemKey(lib.yearPillar.tianGan), year, month);
    BaziData(
      Show(lib.yearPillar.tianGan) + Show(lib.yearPillar.diZhi),
      monthPillar.combined,
      Show(lib.dayPillar.tianGan) + Show(lib.dayPillar.diZhi),
      IndividualAnalysis.HourPillar(hour, lib.dayPillar.tianGan),
      lib.dayPillar.tianGan, lib.dayPillar.diZhi)
  }

  /** `calculateBaZi`: `None` for a library call that threw. The catch path repeats the
   *  shared fallback calculator's index arithmetic, so it is that calculator here. */
  function CalculateBaZi(lib: Option<Library>, year: int, month: int, daysSinceReference: int, hour: int): (r: BaziData)
    ensures lib.Some? ==> r == CalculateBaZiMain(lib.value, year, month, hour)
    ensures lib.None? ==> var f := AccurateBazi.CalculateFallbackBaZi(year, month, daysSinceReference, hour);
      r == BaziData(AsText(f.year), AsText(f.month), AsText(f.day), AsText(f.hour), f.dayMaster, f.dayBranch)
  {
    if lib.Some? then CalculateBaZiMain(lib.value, year, month, hour)
    else
      var f := AccurateBazi.CalculateFallbackBaZi(year, month, daysSinceReference, hour);
      BaziData(AsText(f.year), AsText(f.month), AsText(f.day), AsText(f.hour), f.dayMaster, f.dayBranch)
  }

  /** A fallback year pillar that is NaN (the year 3) is printed as `NaN`. */
  lemma FallbackNaNYearPrinted(month: int, daysSinceReference: int, hour: int)
    ensures CalculateBaZi(None, 3, month, daysSinceReference, hour).year == "NaN"
  {
    AccurateBazi.FallbackYearBeforeFour(month, daysSinceReference, hour);
  }

  /** On a real date both paths build the hour pillar by the same rule from their own day
   *  stem. */
  lemma FallbackHourRule(year: int, month: int, daysSinceReference: int, hour: int)
    requires AccurateBazi.ValidInput(year, month, daysSinceReference, hour)
    ensures var r := CalculateBaZi(None, year, month, daysSinceReference, hour);
      r.hour == IndividualAnalysis.HourPillar(hour, r.dayStem)
  {
    var ix := AccurateBazi.FallbackIndices(year, month, daysSinceReference, hour);
    var f := AccurateBazi.CalculateFallbackBaZi(year, month, daysSinceReference, hour);
    FallbackHourParts(year, month, daysSinceReference, hour, ix, f);
    FallbackHourIndices(year, month, daysSinceReference, hour, ix);
    HourFromIndices(hour, ix);
  }

  /** The fallback's hour text and day stem, read off its indices. */
  lemma FallbackHourParts(year: int, month: int, daysSinceReference: int, hour: int,
                          ix: AccurateBazi.Indices, f: AccurateBazi.FallbackBaZi)
    requires AccurateBazi.ValidInput(year, month, daysSinceReference, hour)
    requires ix == AccurateBazi.FallbackIndices(year, month, daysSinceReference, hour)
    requires f == AccurateBazi.CalculateFallbackBaZi(year, month, daysSinceReference, hour)
    ensures CalculateBaZi(None, year, month, daysSinceReference, hour).hour == PillarText(ix.hourStem, ix.hourBranch)
    ensures CalculateBaZi(None, year, month, daysSinceReference, hour).dayStem == Some(StemChar(ix.dayStem))
  {
    FallbackHourIndices(year, month, daysSinceReference, hour, ix);
    JoinAtText(ix.hourStem, ix.hourBranch);
    assert f.hour == JoinAt(ix.hourStem, ix.hourBranch);
    assert f.dayMaster == At(Stems, ix.dayStem) == Some(StemChar(ix.dayStem));
  }

  /** The fallback's day stem and hour indices, as the hour pillar rule reads them. */
  lemma FallbackHourIndices(year: int, month: int, daysSinceReference: int, hour: int, ix: AccurateBazi.Indices)
    requires AccurateBazi.ValidInput(year, month, daysSinceReference, hour)
    requires ix == AccurateBazi.FallbackIndices(year, month, daysSinceReference, hour)
    ensures 0 <= ix.dayStem < 10 && 0 <= ix.hourStem < 10 && 0 <= ix.hourBranch < 12
    ensures ix.hourBranch == AccurateBazi.HourBranchIndex(hour)
    ensures ix.hourStem == JsRem(ix.dayStem * 12 + ix.hourBranch, 10)
  {
  }

  lemma HourFromIndices(hour: int, ix: AccurateBazi.Indices)
    requires 0 <= hour <= 23 && 0 <= ix.dayStem < 10
    requires ix.hourBranch == AccurateBazi.HourBranchIndex(hour)
    requires ix.hourStem == JsRem(ix.dayStem * 12 + ix.hourBranch, 10)
    ensures IndividualAnalysis.HourPillar(hour, Some(StemChar(ix.dayStem))) == PillarText(ix.hourStem, ix.hourBranch)
  {
    var d, b := ix.dayStem, (hour + 1) / 2 % 12;
    assert ix.hourBranch == b;
    assert ix.hourStem == (d * 12 + b) % 10;
    IndividualAnalysis.HourPillarByIndices(hour, d);
  }

  /** The four pillar labels; only the hour's differs between the scripts. */
  function PillarLabels(isSimplified: bool): (r: seq<string>)
    ensures |r| == 4
  {
    if isSimplified then ["年柱-", "月柱-", "日柱-", "时柱-"] else ["年柱-", "月柱-", "日柱-", "時柱-"]
  }

  /** `formatBirthDate`: "未提供" for a missing date; the calendar formatting is an input. */
  function FormatBirthDate(birthDateTime: string, formatted: string): (r: string)
    ensures birthDateTime == "" ==> r == "未提供"
    ensures birthDateTime != "" ==> r == formatted
  {
    if birthDateTime == "" then "未提供" else formatted
  }

  /** The day-master sketches, one per stem, in traditional or simplified script. */
  function StemSketch(isSimplified: bool, c: char): Option<string>
  {
    if isSimplified then
      match c
      case '甲' => Some("甲木如大树，性格正直，具有领导能力") case '乙' => Some("乙木如花草，性格温和，适应力强")
      case '丙' => Some("丙火如太阳，性格热情，充满活力") case '丁' => Some("丁火如烛光，性格温暖，富有创造力")
      case '戊' => Some("戊土如山岳，性格稳重，值得信赖") case '己' => Some("己土如田园，性格务实，善于包容")
      case '庚' => Some("庚金如刀剑，性格果断，意志坚强") case '辛' => Some("辛金如珠宝，性格细腻，追求完美")
      case '壬' => Some("壬水如江河，性格灵活，智慧深邃") case '癸' => Some("癸水如雨露，性格柔和，富有同情心")
      case _ => None
    else
      match c
      case '甲' => Some("甲木如大樹，性格正直，具有領導能力") case '乙' => Some("乙木如花草，性格溫和，適應力強")
      case '丙' => Some("丙火如太陽，性格熱情，充滿活力") case '丁' => Some("丁火如燭光，性格溫暖，富有創造力")
      case '戊' => Some("戊土如山嶽，性格穩重，值得信賴") case '己' => Some("己土如田園，性格務實，善於包容")
      case '庚' => Some("庚金如刀劍，性格果斷，意志堅強") case '辛' => Some("辛金如珠寶，性格細膩，追求完美")
      case '壬' => Some("壬水如江河，性格靈活，智慧深邃") case '癸' => Some("癸水如雨露，性格柔和，富有同情心")
      case _ => None
  }

  function SketchOrDefault(isSimplified: bool, dayMaster: Option<char>): string
  {
    var sketch := if dayMaster.Some? then StemSketch(isSimplified, dayMaster.value) else None;
    if sketch.Some? then sketch.value
    else if isSimplified then "性格独特，具有独特的人格魅力" else "性格獨特，具有獨特的人格魅力"
  }

  /** Each of the ten stems has a sketch, and it opens with the stem and its element. */
  lemma StemSketchOfStem(isSimplified: bool, i: nat)
    requires i < 10
    ensures StemSketch(isSimplified, StemChar(i)).Some?
    ensures StemSketch(isSimplified, StemChar(i)).value[..2] == [StemChar(i)] + StemElement(i)
  {
    if i < 5 {
      if i == 0 {} else if i == 1 {} else if i == 2 {} else if i == 3 {} else {}
    } else {
      if i == 5 {} else if i == 6 {} else if i == 7 {} else if i == 8 {} else {}
    }
  }

  /** Nothing but a stem has a sketch. */
  lemma StemSketchOther(isSimplified: bool, c: char)
    requires StemOrdinal(c) < 0
    ensures StemSketch(isSimplified, c).None?
  {
  }

  /** What `generateBaZiAnalysis` returns for one partner. */
  datatype Analysis = Analysis(birthDate: string, bazi: string, description: string, pillars: seq<string>)

  /** `generateBaZiAnalysis`, given the chart and the formatted birth date. */
  function GenerateBaZiAnalysis(data: BaziData, birthDate: string, isSimplified: bool): (r: Analysis)
    ensures r.birthDate == birthDate && |r.pillars| == 4
    ensures forall k :: 0 <= k < 4 ==> StartsWith(r.pillars[k], PillarLabels(isSimplified)[k])
  {
    var labels := PillarLabels(isSimplified);
    var element := ElementOrEarth(data.dayStem);
    Analysis(
      birthDate,
      data.year + " " + data.month + " " + data.day + " " + data.hour,
      "日主" + Show(data.dayStem) + element + "，" + SketchOrDefault(isSimplified, data.dayStem),
      [labels[0] + data.year, labels[1] + data.month, labels[2] + data.day, labels[3] + data.hour])
  }

  /** The chart text is the four pillars joined by single spaces. */
  lemma BaziIsJoin(data: BaziData, birthDate: string, isSimplified: bool)
    ensures GenerateBaZiAnalysis(data, birthDate, isSimplified).bazi
      == Join([data.year, data.month, data.day, data.hour], " ")
  {
    var ps := [data.year, data.month, data.day, data.hour];
    assert Join(ps[3..], " ") == data.hour;
    assert Join(ps[2..], " ") == data.day + " " + Join(ps[3..], " ");
    assert Join(ps[1..], " ") == data.month + " " + Join(ps[2..], " ");
    assert Join(ps, " ") == data.year + " " + Join(ps[1..], " ");
  }

  /** The description names the day master and its element, with the sketch of that stem. */
  lemma DescriptionOfStem(data: BaziData, birthDate: string, isSimplified: bool, i: nat)
    requires i < 10 && data.dayStem == Some(StemChar(i))
    ensures GenerateBaZiAnalysis(data, birthDate, isSimplified).description
      == "日主" + [StemChar(i)] + StemElement(i) + "，" + StemSketch(isSimplified, StemChar(i)).value
  {
    StemOrdinalInverse(i);
    StemSketchOfStem(isSimplified, i);
  }

  /** A day stem that is not one of the ten is described as 土 with the generic sketch. */
  lemma DescriptionUnknownStem(data: BaziData, birthDate: string, isSimplified: bool)
    requires data.dayStem.None? || StemOrdinal(data.dayStem.value) < 0
    ensures GenerateBaZiAnalysis(data, birthDate, isSimplified).description
      == "日主" + Show(data.dayStem) + "土，"
        + (if isSimplified then "性格独特，具有独特的人格魅力" else "性格獨特，具有獨特的人格魅力")
  {
    if data.dayStem.Some? {
      StemSketchOther(isSimplified, data.dayStem.value);
    }
  }

  /** `parts[k] || default`: an empty piece falls back to the default. */
  function PieceOr(part: string, default: string): string
  {
    if part != "" then part else default
  }

  /** The pillars read from the AI's chart text: the text is trimmed and cut at white-space
   *  runs, and with at least four pieces each label gets its piece (or a default). */
  function ParsedPillars(baziText: string, isSimplified: bool, defaults: seq<string>): (r: seq<string>)
    requires |defaults| == 4
    ensures |r| == 0 || |r| == 4
  {
    var parts := SplitWs(Trim(baziText));
    var labels := PillarLabels(isSimplified);
    if |parts| >= 4 then
      [labels[0] + PieceOr(parts[0], defaults[0]), labels[1] + PieceOr(parts[1], defaults[1]),
       labels[2] + PieceOr(parts[2], defaults[2]), labels[3] + PieceOr(parts[3], defaults[3])]
    else []
  }

  /** A trimmed text that splits into two or more pieces has no empty piece. */
  lemma TrimmedPiecesNonEmpty(baziText: string)
    requires |SplitWs(Trim(baziText))| >= 2
    ensures forall k :: 0 <= k < |SplitWs(Trim(baziText))| ==> SplitWs(Trim(baziText))[k] != ""
  {
    var t := Trim(baziText);
    TrimShape(baziText);
    assert |t| > 0;
    SplitWsPiecesNonEmpty(t);
  }

  /** Pillars are produced exactly when the trimmed text has four or more pieces. */
  lemma ParsedPillarsCount(baziText: string, isSimplified: bool, defaults: seq<string>)
    requires |defaults| == 4
    ensures |ParsedPillars(baziText, isSimplified, defaults)| == 4 <==> |SplitWs(Trim(baziText))| >= 4
  {
  }

  /** The defaults are never used: each label gets its own piece of the text. */
  lemma ParsedPillarsPieces(baziText: string, isSimplified: bool, defaults: seq<string>)
    requires |defaults| == 4 && |SplitWs(Trim(baziText))| >= 4
    ensures var parts, labels := SplitWs(Trim(baziText)), PillarLabels(isSimplified);
      ParsedPillars(baziText, isSimplified, defaults)
        == [labels[0] + parts[0], labels[1] + parts[1], labels[2] + parts[2], labels[3] + parts[3]]
  {
    var parts := SplitWs(Trim(baziText));
    TrimmedPiecesNonEmpty(baziText);
    assert PieceOr(parts[0], defaults[0]) == parts[0] && PieceOr(parts[1], defaults[1]) == parts[1];
    assert PieceOr(parts[2], defaults[2]) == parts[2] && PieceOr(parts[3], defaults[3]) == parts[3];
  }

  /** Reading back the chart text the route itself writes gives its own pillars. */
  lemma ParsedPillarsRoundTrip(data: BaziData, birthDate: string, isSimplified: bool, defaults: seq<string>)
    requires |defaults| == 4
    requires Visible(data.year) && Visible(data.month) && Visible(data.day) && Visible(data.hour)
    ensures var a := GenerateBaZiAnalysis(data, birthDate, isSimplified);
      ParsedPillars(a.bazi, isSimplified, defaults) == a.pillars
  {
    var ps := [data.year, data.month, data.day, data.hour];
    var a := GenerateBaZiAnalysis(data, birthDate, isSimplified);
    var j := Join(ps, " ");
    BaziIsJoin(data, birthDate, isSimplified);
    SplitWsJoin(ps);
    JoinStartsWithFirst(ps);
    JoinEndsWithLast(ps);
    TrimStartOfSpaceFree(j);
    TrimEndOfSpaceFree(j);
    ParsedPillarsPieces(a.bazi, isSimplified, defaults);
  }

  /** A join of pieces whose last piece ends in a visible character ends in that character. */
  lemma {:induction false} JoinEndsWithLast(ps: seq<string>)
    requires |ps| >= 1 && Visible(ps[|ps| - 1])
    ensures |Join(ps, " ")| > 0 && !IsJsSpace(Join(ps, " ")[|Join(ps, " ")| - 1])
    decreases |ps|
  {
    if |ps| > 1 {
      JoinEndsWithLast(ps[1..]);
      assert ps[0] + " " + Join(ps[1..], " ") == Join(ps, " ");
    }
  }

  lemma TrimEndOfSpaceFree(s: string)
    requires |s| == 0 || !IsJsSpace(s[|s| - 1])
    ensures TrimEnd(s) == s
  {
  }

  /** `.replace(/（([^）]*)）/, "$1")`: the first full-width bracket pair that closes is
   *  dropped, keeping what it held. */
  function UnwrapFirstBracket(s: string): (r: string)
    ensures '（' !in s ==> r == s
  {
    var i := IndexOfChar(s, '（');
    if i < 0 then s
    else
      var j := IndexOfChar(s[i + 1..], '）');
      if j < 0 then s else s[..i] + s[i + 1..][..j] + s[i + 1..][j + 1..]
  }

  /** Unwrapping removes exactly the two bracket characters when a pair closes, and
   *  nothing else. */
  lemma UnwrapFirstBracketRule(s: string)
    ensures |UnwrapFirstBracket(s)| == |s| || |UnwrapFirstBracket(s)| == |s| - 2
    ensures |UnwrapFirstBracket(s)| == |s| - 2 <==>
      (exists i, j :: 0 <= i < j < |s| && s[i] == '（' && s[j] == '）')
  {
    var i := IndexOfChar(s, '（');
    if i >= 0 {
      var j := IndexOfChar(s[i + 1..], '）');
      if j < 0 {
        forall b | i < b < |s| ensures s[b] != '）' {
          assert s[b] == s[i + 1..][b - i - 1];
        }
      } else {
        assert s[i + 1..][j] == '）';
        assert s[i + 1 + j] == '）';
      }
    }
  }

  /** One partner's section as the parser leaves it. */
  datatype Section = Section(birthDate: string, bazi: string, description: string, pillars: seq<string>)

  /** `parseAnalysisResponse` for one partner, given the regular expression's two captured
   *  groups (`None` when it does not match). */
  function ParseSection(birthDate: string, groups: Option<(string, string)>, isSimplified: bool,
                        defaults: seq<string>): (r: Section)
    requires |defaults| == 4
    ensures groups.None? ==> r == Section(birthDate, "", "", [])
    ensures groups.Some? ==>
      (r.bazi == Trim(groups.value.0) && r.pillars == ParsedPillars(groups.value.0, isSimplified, defaults))
  {
    if groups.None? then Section(birthDate, "", "", [])
    else
      var (baziText, rest) := groups.value;
      Section(birthDate, Trim(baziText), Trim(UnwrapFirstBracket(rest)),
        ParsedPillars(baziText, isSimplified, defaults))
  }

  /** The defaults each partner's parser would fill in. */
  const FemaleDefaults: seq<string> := ["甲子", "乙丑", "丙寅", "丁卯"]
  const MaleDefaults: seq<string> := ["戊辰", "己巳", "庚午", "辛未"]

  /** A partner's final data: the parsed section, or the computed analysis when the parse
   *  found no chart, with the computed chart always attached as `realBazi`. */
  datatype Partner = Partner(section: Section, realBazi: string)

  function Reconcile(parsed: Section, computed: Analysis): (r: Partner)
    ensures r.realBazi == computed.bazi
    ensures IsBlank(parsed.bazi) ==> r.section == Section(computed.birthDate, computed.bazi,
      if parsed.description != "" then parsed.description else computed.description, computed.pillars)
    ensures !IsBlank(parsed.bazi) ==> r.section == parsed
  {
    var section :=
      if parsed.bazi == "" || Trim(parsed.bazi) == "" then
        Section(computed.birthDate, computed.bazi,
          if parsed.description != "" then parsed.description else computed.description, computed.pillars)
      else parsed;
    Partner(section, computed.bazi)
  }

  /** When the AI answer carries no chart for a partner, what is shown is exactly the computed
   *  chart and pillars. */
  lemma UnmatchedUsesComputed(birthDate: string, isSimplified: bool, computed: Analysis)
    ensures var p := Reconcile(ParseSection(birthDate, None, isSimplified, FemaleDefaults), computed);
      p.section == Section(computed.birthDate, computed.bazi, computed.description, computed.pillars)
  {
  }

  /** Whatever the AI answered, the chart shown for a partner is never blank when the
   *  computed one is not. */
  lemma ShownChartNeverBlank(parsed: Section, computed: Analysis)
    requires !IsBlank(computed.bazi)
    ensures !IsBlank(Reconcile(parsed, computed).section.bazi)
  {
  }

  /** The route's own chart text is never blank: it starts with the year pillar's first character. */
  lemma ComputedChartNotBlank(data: BaziData, birthDate: string, isSimplified: bool)
    requires Visible(data.year)
    ensures !IsBlank(GenerateBaZiAnalysis(data, birthDate, isSimplified).bazi)
  {
    var b := GenerateBaZiAnalysis(data, birthDate, isSimplified).bazi;
    assert b[0] == data.year[0];
    TrimStartOfSpaceFree(b);
  }
}
