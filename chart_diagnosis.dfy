/** The couple chart diagnosis route (`/api/chart-diagnosis`): the line filter and the
 *  section state machine that cut the AI's answer into the woman's analysis, the man's
 *  analysis and the key signs of the joint chart, the fallbacks for empty sections, and
 *  the handler around them.
 *
 *  The route's Chinese literals are stored double-encoded: the UTF-8 bytes of each word were
 *  read back as Windows-1252 text, and the bytes that code page leaves undefined were lost.
 *  The parser is therefore written over a `Vocabulary`: `AsWritten` holds the literals as
 *  they stand in the route, `Intended` the Chinese words they were made from. */
module ChartDiagnosis {
  import opened Wrappers
  import opened Strings
  import opened Words

  /** A text in traditional and in simplified characters. */
  datatype Phrase = Phrase(traditional: string, simplified: string)

  function Pick(p: Phrase, simplified: bool): string
  {
    if simplified then p.simplified else p.traditional
  }

  /** The words the route recognises and the texts it writes. */
  datatype Vocabulary = Vocabulary(
    femaleHeader: string,         // 女方分析
    femaleWord: string,           // 女方
    maleHeader: string,           // 男方分析
    maleWord: string,             // 男方
    keyHeaders: seq<string>,      // 關鍵合盤, 合盤徵象, 关键合盘, 合盘征象
    titlePrefix: string,          // 命局：
    titleStops: seq<char>,        // the characters the title capture stops at
    disclaimers: seq<string>,     // structural sentences dropped from the content
    sectionWords: seq<string>,    // the section names dropped from the content
    monthWord: string,            // 月
    bornIn: Phrase,               // 命生於 / 命生于
    femaleTail: Phrase,
    maleTail: Phrase,
    keyFallback: Phrase,
    errorTitle: string,
    errorFemale: string,
    errorMale: string,
    errorKey: string)

  /** The literals exactly as the route holds them. */
  const AsWritten := Vocabulary(
    "\U{00E5}\U{00A5}\U{00B3}\U{00E6}\U{2013}\U{00B9}\U{00E5}\U{02C6}\U{2020}\U{00E6}",
    "\U{00E5}\U{00A5}\U{00B3}\U{00E6}\U{2013}\U{00B9}",
    "\U{00E7}\U{201D}\U{00B7}\U{00E6}\U{2013}\U{00B9}\U{00E5}\U{02C6}\U{2020}\U{00E6}",
    "\U{00E7}\U{201D}\U{00B7}\U{00E6}\U{2013}\U{00B9}",
    ["\U{00E9}\U{2014}\U{0153}\U{00E9}\U{00B5}\U{00E5}\U{02C6}\U{00E7}\U{203A}\U{00A4}", "\U{00E5}\U{02C6}\U{00E7}\U{203A}\U{00A4}\U{00E5}\U{00BE}\U{00B5}\U{00E8}\U{00B1}\U{00A1}", "\U{00E5}\U{2026}\U{00B3}\U{00E9}\U{201D}\U{00AE}\U{00E5}\U{02C6}\U{00E7}\U{203A}\U{02DC}", "\U{00E5}\U{02C6}\U{00E7}\U{203A}\U{02DC}\U{00E5}\U{00BE}\U{00E8}\U{00B1}\U{00A1}"],
    "\U{00E5}\U{2018}\U{00BD}\U{00E5}\U{00B1}\U{20AC}\U{00EF}\U{00BC}\U{0161}",
    ['\U{00EF}', '\U{00BC}', '\U{0161}', '\n'],
    ["\U{00E4}\U{00BB}\U{00A5}\U{00E4}\U{00B8}\U{0160}\U{00E8}\U{00A8}\U{00BA}\U{00E6}\U{2013}\U{00B7}\U{00E5}\U{0178}\U{00BA}\U{00E6}\U{2013}\U{00BC}",
     "\U{00E5}\U{2018}\U{00BD}\U{00E7}\U{2020}\U{00E5}\U{00A6}\U{201A}\U{00E9}\U{00A1}",
     "\U{00E9}\U{00A1}\U{02DC}\U{00E6}\U{00AD}\U{00A4}\U{00E5}\U{02C6}\U{2020}\U{00E6}",
     "\U{00E5}\U{0178}\U{00BA}\U{00E6}\U{2013}\U{00BC}\U{00E9}\U{203A}\U{2122}\U{00E6}\U{2013}\U{00B9}\U{00E5}\U{2026}\U{00AB}\U{00E5}\U{00AD}\U{2014}\U{00E7}\U{00B5}\U{00E6}\U{00A7}\U{2039}",
     "\U{00E8}\U{2018}\U{2014}\U{00E9}\U{2021}\U{00E5}\U{2022}\U{00E9}\U{00A1}\U{0152}\U{00E6}\U{00A0}\U{00B9}\U{00E6}\U{00BA}",
     "\U{00E5}\U{00AF}\U{00E8}\U{00A1}\U{0152}\U{00E6}\U{20AC}\U{00A7}\U{00E8}\U{00AA}\U{00BF}\U{00E6}\U{2022}\U{00B4}",
     "\U{00E8}\U{00AB}\U{2039}\U{00E6}\U{00E4}\U{00BE}\U{203A}",
     "\U{00E6}\U{00A0}\U{00BC}\U{00E5}\U{00BC}\U{00E5}\U{00A6}\U{201A}\U{00E4}\U{00B8}\U{2039}",
     "\U{00E8}\U{00AB}\U{2039}\U{00E7}\U{00A2}\U{00BA}\U{00E4}\U{00BF}\U{00E5}\U{02C6}\U{2020}\U{00E6}"],
    ["\U{00E5}\U{00A5}\U{00B3}\U{00E6}\U{2013}\U{00B9}\U{00E5}\U{02C6}\U{2020}\U{00E6}", "\U{00E7}\U{201D}\U{00B7}\U{00E6}\U{2013}\U{00B9}\U{00E5}\U{02C6}\U{2020}\U{00E6}", "\U{00E9}\U{2014}\U{0153}\U{00E9}\U{00B5}\U{00E5}\U{02C6}\U{00E7}\U{203A}\U{00A4}", "\U{00E5}\U{02C6}\U{00E7}\U{203A}\U{00A4}\U{00E5}\U{00BE}\U{00B5}\U{00E8}\U{00B1}\U{00A1}"],
    "\U{00E6}\U{0153}\U{02C6}",
    Phrase("\U{00E5}\U{2018}\U{00BD}\U{00E7}\U{201D}\U{0178}\U{00E6}\U{2013}\U{00BC}", "\U{00E5}\U{2018}\U{00BD}\U{00E7}\U{201D}\U{0178}\U{00E4}\U{00BA}"),
    Phrase("\U{00E6}\U{0153}\U{02C6}\U{00EF}\U{00BC}\U{0152}\U{00E7}\U{2022}\U{00B6}\U{00E5}\U{2030}\U{00E5}\U{00A4}\U{00A7}\U{00E9}\U{2039}\U{00E6}\U{00B5}\U{00E5}\U{00B9}\U{00B4}2025\U{00E4}\U{00B9}\U{2122}\U{00E5}\U{00B7}\U{00B3}\U{00E5}\U{00B9}\U{00B4}\U{00E5}\U{00BD}\U{00B1}\U{00E9}\U{0178}\U{00BF}\U{00E4}\U{00B8}\U{2039}\U{00EF}\U{00BC}\U{0152}\U{00E6}\U{0192}\U{2026}\U{00E6}\U{201E}\U{0178}\U{00E8}\U{00A1}\U{00A8}\U{00E9}\U{201D}\U{00E6}\U{00A8}\U{00A1}\U{00E5}\U{00BC}\U{00E5}\U{2026}\U{00B7}\U{00E6}\U{0153}\U{2030}\U{00E7}\U{00A8}\U{00E7}\U{2030}\U{00B9}\U{00E7}\U{2030}\U{00B9}\U{00E5}\U{00BE}\U{00B5}\U{00EF}\U{00BC}\U{0152}\U{00E9}\U{0153}\U{20AC}\U{00E8}\U{00A6}\U{00E7}\U{2030}\U{00B9}\U{00E5}\U{02C6}\U{00A5}\U{00E9}\U{2014}\U{0153}\U{00E6}\U{00B3}\U{00A8}\U{00E6}\U{00BA}\U{00E9}\U{20AC}\U{0161}\U{00E6}\U{2013}\U{00B9}\U{00E5}\U{00BC}\U{00E7}\U{0161}\U{201E}\U{00E8}\U{00AA}\U{00BF}\U{00E6}\U{2022}\U{00B4}\U{00E3}\U{20AC}\U{201A}",
           "\U{00E6}\U{0153}\U{02C6}\U{00EF}\U{00BC}\U{0152}\U{00E5}\U{00BD}\U{201C}\U{00E5}\U{2030}\U{00E5}\U{00A4}\U{00A7}\U{00E8}\U{00BF}\U{00E6}\U{00B5}\U{00E5}\U{00B9}\U{00B4}2025\U{00E4}\U{00B9}\U{2122}\U{00E5}\U{00B7}\U{00B3}\U{00E5}\U{00B9}\U{00B4}\U{00E5}\U{00BD}\U{00B1}\U{00E5}\U{201C}\U{00E4}\U{00B8}\U{2039}\U{00EF}\U{00BC}\U{0152}\U{00E6}\U{0192}\U{2026}\U{00E6}\U{201E}\U{0178}\U{00E8}\U{00A1}\U{00A8}\U{00E8}\U{00BE}\U{00BE}\U{00E6}\U{00A8}\U{00A1}\U{00E5}\U{00BC}\U{00E5}\U{2026}\U{00B7}\U{00E6}\U{0153}\U{2030}\U{00E7}\U{2039}\U{00AC}\U{00E7}\U{2030}\U{00B9}\U{00E7}\U{2030}\U{00B9}\U{00E5}\U{00BE}\U{00EF}\U{00BC}\U{0152}\U{00E9}\U{0153}\U{20AC}\U{00E8}\U{00A6}\U{00E7}\U{2030}\U{00B9}\U{00E5}\U{02C6}\U{00AB}\U{00E5}\U{2026}\U{00B3}\U{00E6}\U{00B3}\U{00A8}\U{00E6}\U{00B2}\U{0178}\U{00E9}\U{20AC}\U{0161}\U{00E6}\U{2013}\U{00B9}\U{00E5}\U{00BC}\U{00E7}\U{0161}\U{201E}\U{00E8}\U{00B0}\U{0192}\U{00E6}\U{2022}\U{00B4}\U{00E3}\U{20AC}\U{201A}"),
    Phrase("\U{00E6}\U{0153}\U{02C6}\U{00EF}\U{00BC}\U{0152}\U{00E6}\U{20AC}\U{00A7}\U{00E6}\U{00A0}\U{00BC}\U{00E5}\U{201A}\U{00BE}\U{00E5}\U{2018}\U{00E5}\U{2019}\U{0152}\U{00E6}\U{0192}\U{2026}\U{00E6}\U{201E}\U{0178}\U{00E9}\U{0153}\U{20AC}\U{00E6}\U{00B1}\U{201A}\U{00E5}\U{0153}\U{00A8}\U{00E7}\U{2022}\U{00B6}\U{00E5}\U{2030}\U{00E6}\U{2122}\U{201A}\U{00E9}\U{2039}\U{00E5}\U{00BD}\U{00B1}\U{00E9}\U{0178}\U{00BF}\U{00E4}\U{00B8}\U{2039}\U{00E5}\U{2018}\U{02C6}\U{00E7}\U{00BE}\U{00E7}\U{2030}\U{00B9}\U{00E5}\U{00AE}\U{0161}\U{00E6}\U{00A8}\U{00A1}\U{00E5}\U{00BC}\U{00EF}\U{00BC}\U{0152}\U{00E5}\U{00B0}\U{00E6}\U{201E}\U{0178}\U{00E6}\U{0192}\U{2026}\U{00E9}\U{2014}\U{0153}\U{00E4}\U{00BF}\U{201A}\U{00E7}\U{0161}\U{201E}\U{00E8}\U{2122}\U{2022}\U{00E7}\U{2020}\U{00E6}\U{2013}\U{00B9}\U{00E5}\U{00BC}\U{00E9}\U{0153}\U{20AC}\U{00E8}\U{00A6}\U{00E7}\U{203A}\U{00B8}\U{00E4}\U{00BA}\U{2019}\U{00E7}\U{2020}\U{00E8}\U{00A7}\U{00A3}\U{00E3}\U{20AC}\U{201A}",
           "\U{00E6}\U{0153}\U{02C6}\U{00EF}\U{00BC}\U{0152}\U{00E6}\U{20AC}\U{00A7}\U{00E6}\U{00A0}\U{00BC}\U{00E5}\U{20AC}\U{00BE}\U{00E5}\U{2018}\U{00E5}\U{2019}\U{0152}\U{00E6}\U{0192}\U{2026}\U{00E6}\U{201E}\U{0178}\U{00E9}\U{0153}\U{20AC}\U{00E6}\U{00B1}\U{201A}\U{00E5}\U{0153}\U{00A8}\U{00E5}\U{00BD}\U{201C}\U{00E5}\U{2030}\U{00E6}\U{2014}\U{00B6}\U{00E8}\U{00BF}\U{00E5}\U{00BD}\U{00B1}\U{00E5}\U{201C}\U{00E4}\U{00B8}\U{2039}\U{00E5}\U{2018}\U{02C6}\U{00E7}\U{00B0}\U{00E7}\U{2030}\U{00B9}\U{00E5}\U{00AE}\U{0161}\U{00E6}\U{00A8}\U{00A1}\U{00E5}\U{00BC}\U{00EF}\U{00BC}\U{0152}\U{00E5}\U{00AF}\U{00B9}\U{00E6}\U{201E}\U{0178}\U{00E6}\U{0192}\U{2026}\U{00E5}\U{2026}\U{00B3}\U{00E7}\U{00B3}\U{00BB}\U{00E7}\U{0161}\U{201E}\U{00E5}\U{00A4}\U{201E}\U{00E7}\U{2020}\U{00E6}\U{2013}\U{00B9}\U{00E5}\U{00BC}\U{00E9}\U{0153}\U{20AC}\U{00E8}\U{00A6}\U{00E7}\U{203A}\U{00B8}\U{00E4}\U{00BA}\U{2019}\U{00E7}\U{2020}\U{00E8}\U{00A7}\U{00A3}\U{00E3}\U{20AC}\U{201A}"),
    Phrase("\U{00E6}\U{00A0}\U{00B9}\U{00E6}\U{201C}\U{0161}\U{00E9}\U{203A}\U{2122}\U{00E6}\U{2013}\U{00B9}\U{00E5}\U{2026}\U{00AB}\U{00E5}\U{00AD}\U{2014}\U{00E5}\U{02C6}\U{00E7}\U{203A}\U{00A4}\U{00E5}\U{02C6}\U{2020}\U{00E6}\U{00EF}\U{00BC}\U{0152}\U{00E4}\U{00B8}\U{00BB}\U{00E8}\U{00A6}\U{00E9}\U{2014}\U{0153}\U{00E6}\U{00B3}\U{00A8}\U{00E9}\U{00BB}\U{00E5}\U{0153}\U{00A8}\U{00E6}\U{2013}\U{00BC}\U{00E4}\U{00BA}\U{201D}\U{00E8}\U{00A1}\U{0152}\U{00E4}\U{00BA}\U{2019}\U{00E5}\U{2039}\U{2022}\U{00E5}\U{2019}\U{0152}\U{00E6}\U{20AC}\U{00A7}\U{00E6}\U{00A0}\U{00BC}\U{00E5}\U{00B7}\U{00AE}\U{00E7}\U{2022}\U{00B0}\U{00E5}\U{00A6}\U{201A}\U{00E4}\U{00BD}\U{2022}\U{00E5}\U{00BD}\U{00B1}\U{00E9}\U{0178}\U{00BF}\U{00E6}\U{0192}\U{2026}\U{00E6}\U{201E}\U{0178}\U{00E6}\U{00BA}\U{00E9}\U{20AC}\U{0161}\U{00EF}\U{00BC}\U{0152}\U{00E5}\U{00BB}\U{00BA}\U{00E8}\U{00AD}\U{00B0}\U{00E9}\U{20AC}\U{0161}\U{00E9}\U{00E7}\U{203A}\U{00B8}\U{00E4}\U{00BA}\U{2019}\U{00E7}\U{2020}\U{00E8}\U{00A7}\U{00A3}\U{00E5}\U{2019}\U{0152}\U{00E8}\U{00AA}\U{00BF}\U{00E6}\U{2022}\U{00B4}\U{00E6}\U{00BA}\U{00E9}\U{20AC}\U{0161}\U{00E6}\U{2013}\U{00B9}\U{00E5}\U{00BC}\U{00E4}\U{00BE}\U{2020}\U{00E6}\U{201D}\U{00B9}\U{00E5}\U{2013}\U{201E}\U{00E9}\U{2014}\U{0153}\U{00E4}\U{00BF}\U{201A}\U{00E5}\U{201C}\U{00E8}\U{00B3}\U{00AA}\U{00E3}\U{20AC}\U{201A}",
           "\U{00E6}\U{00A0}\U{00B9}\U{00E6}\U{00AE}\U{00E5}\U{0152}\U{00E6}\U{2013}\U{00B9}\U{00E5}\U{2026}\U{00AB}\U{00E5}\U{00AD}\U{2014}\U{00E5}\U{02C6}\U{00E7}\U{203A}\U{02DC}\U{00E5}\U{02C6}\U{2020}\U{00E6}\U{00EF}\U{00BC}\U{0152}\U{00E4}\U{00B8}\U{00BB}\U{00E8}\U{00A6}\U{00E5}\U{2026}\U{00B3}\U{00E6}\U{00B3}\U{00A8}\U{00E7}\U{201A}\U{00B9}\U{00E5}\U{0153}\U{00A8}\U{00E4}\U{00BA}\U{00E4}\U{00BA}\U{201D}\U{00E8}\U{00A1}\U{0152}\U{00E4}\U{00BA}\U{2019}\U{00E5}\U{0160}\U{00A8}\U{00E5}\U{2019}\U{0152}\U{00E6}\U{20AC}\U{00A7}\U{00E6}\U{00A0}\U{00BC}\U{00E5}\U{00B7}\U{00AE}\U{00E5}\U{00BC}\U{201A}\U{00E5}\U{00A6}\U{201A}\U{00E4}\U{00BD}\U{2022}\U{00E5}\U{00BD}\U{00B1}\U{00E5}\U{201C}\U{00E6}\U{0192}\U{2026}\U{00E6}\U{201E}\U{0178}\U{00E6}\U{00B2}\U{0178}\U{00E9}\U{20AC}\U{0161}\U{00EF}\U{00BC}\U{0152}\U{00E5}\U{00BB}\U{00BA}\U{00E8}\U{00AE}\U{00AE}\U{00E9}\U{20AC}\U{0161}\U{00E8}\U{00BF}\U{2021}\U{00E7}\U{203A}\U{00B8}\U{00E4}\U{00BA}\U{2019}\U{00E7}\U{2020}\U{00E8}\U{00A7}\U{00A3}\U{00E5}\U{2019}\U{0152}\U{00E8}\U{00B0}\U{0192}\U{00E6}\U{2022}\U{00B4}\U{00E6}\U{00B2}\U{0178}\U{00E9}\U{20AC}\U{0161}\U{00E6}\U{2013}\U{00B9}\U{00E5}\U{00BC}\U{00E6}\U{00A5}\U{00E6}\U{201D}\U{00B9}\U{00E5}\U{2013}\U{201E}\U{00E5}\U{2026}\U{00B3}\U{00E7}\U{00B3}\U{00BB}\U{00E5}\U{201C}\U{00E8}\U{00B4}\U{00A8}\U{00E3}\U{20AC}\U{201A}"),
    "\U{00E5}\U{2018}\U{00BD}\U{00E5}\U{00B1}\U{20AC}\U{00EF}\U{00BC}\U{0161}\U{00E8}\U{00A8}\U{02C6}\U{00E7}\U{00AE}\U{2014}\U{00E4}\U{00B8}\U{00AD}",
    "\U{00E6}\U{00AD}\U{00A3}\U{00E5}\U{0153}\U{00A8}\U{00E5}\U{02C6}\U{2020}\U{00E6}\U{00E6}\U{201A}\U{00A8}\U{00E7}\U{0161}\U{201E}\U{00E5}\U{2018}\U{00BD}\U{00E5}\U{00B1}\U{20AC}\U{00E7}\U{2030}\U{00B9}\U{00E5}\U{00BE}\U{00B5}\U{00E5}\U{2019}\U{0152}\U{00E6}\U{0192}\U{2026}\U{00E6}\U{201E}\U{0178}\U{00E6}\U{00A8}\U{00A1}\U{00E5}\U{00BC}...",
    "\U{00E6}\U{00AD}\U{00A3}\U{00E5}\U{0153}\U{00A8}\U{00E5}\U{02C6}\U{2020}\U{00E6}\U{00E4}\U{00BC}\U{00B4}\U{00E4}\U{00BE}\U{00B6}\U{00E7}\U{0161}\U{201E}\U{00E5}\U{2018}\U{00BD}\U{00E5}\U{00B1}\U{20AC}\U{00E7}\U{2030}\U{00B9}\U{00E5}\U{00BE}\U{00B5}\U{00E5}\U{2019}\U{0152}\U{00E6}\U{20AC}\U{00A7}\U{00E6}\U{00A0}\U{00BC}\U{00E5}\U{201A}\U{00BE}\U{00E5}\U{2018}...",
    "\U{00E6}\U{00AD}\U{00A3}\U{00E5}\U{0153}\U{00A8}\U{00E5}\U{02C6}\U{2020}\U{00E6}\U{00E9}\U{2014}\U{0153}\U{00E9}\U{00B5}\U{00E5}\U{02C6}\U{00E7}\U{203A}\U{00A4}\U{00E5}\U{00BE}\U{00B5}\U{00E8}\U{00B1}\U{00A1}\U{00EF}\U{00BC}\U{0152}\U{00E5}\U{0152}\U{2026}\U{00E6}\U{2039}\U{00AC}\U{00E4}\U{00BA}\U{201D}\U{00E8}\U{00A1}\U{0152}\U{00E4}\U{00BA}\U{2019}\U{00E5}\U{2039}\U{2022}\U{00E5}\U{2019}\U{0152}\U{00E6}\U{0192}\U{2026}\U{00E6}\U{201E}\U{0178}\U{00E5}\U{00BE}\U{00AA}\U{00E7}\U{2019}\U{00B0}\U{00E6}\U{00A8}\U{00A1}\U{00E5}\U{00BC}...")

  /** The same route with the words it looks for in the answer in plain Chinese; the texts
   *  it writes are kept as they stand. */
  const Intended := AsWritten.(
    femaleHeader := "女方分析",
    femaleWord := "女方",
    maleHeader := "男方分析",
    maleWord := "男方",
    keyHeaders := ["關鍵合盤", "合盤徵象", "关键合盘", "合盘征象"],
    titlePrefix := "命局：",
    titleStops := ['：', '\n'],
    disclaimers := ["以上診斷基於", "命理如鏡", "願此分析", "基於雙方八字結構", "著重問題根源", "可行性調整", "請提供",
      "格式如下", "請確保分析"],
    sectionWords := ["女方分析", "男方分析", "關鍵合盤", "合盤徵象"])

  // ---------------------------------------------------------------------------
  // shouldIncludeLine

  /** `^\d+\.\s*\*\*`: digits, a dot, white space, then two stars. */
  predicate NumberThenBold(t: string)
  {
    var d := DigitRun(t);
    d > 0 && d < |t| && t[d] == '.' && StartsWith(t[d + 1 + SpaceRun(t[d + 1..])..], "**")
  }

  /** `^\*\*\d+\.`: two stars, digits, then a dot. */
  predicate BoldNumber(t: string)
  {
    StartsWith(t, "**") && var d := DigitRun(t[2..]); d > 0 && 2 + d < |t| && t[2 + d] == '.'
  }

  /** `^\d+\.\s*$`: digits and a dot, then only white space. */
  predicate NumberOnly(t: string)
  {
    var d := DigitRun(t);
    d > 0 && d < |t| && t[d] == '.' && AllSpace(t[d + 1..])
  }

  /** `^\*+\s*$`: stars, then only white space. */
  predicate StarsOnly(t: string)
  {
    var n := CharRun(t, '*');
    n > 0 && AllSpace(t[n..])
  }

  predicate IsMarkerChar(c: char)
  {
    IsDigit(c) || c == '*' || c == '-' || c == '+'
  }

  /** `^[\d\*\-\+]+$`: nothing but digits, stars, dashes and plus signs. */
  predicate MarkersOnly(t: string)
  {
    |t| > 0 && forall k :: 0 <= k < |t| ==> IsMarkerChar(t[k])
  }

  /** `shouldIncludeLine`: whether a line of the answer is kept as content. */
  predicate ShouldIncludeLine(voc: Vocabulary, line: string)
  {
    var t := Trim(line);
    t != ""
    && !(StartsWith(t, "**") || StartsWith(t, "#") || StartsWith(t, "---"))
    && !(NumberThenBold(t) || BoldNumber(t) || NumberOnly(t))
    && !(NumberOnly(t) || StarsOnly(t) || MarkersOnly(t))
    && !ContainsAny(t, voc.disclaimers)
    && !ContainsAny(t, voc.sectionWords)
    && !NumberThenBold(t)
    && |t| >= 15
  }

  /** A kept line is at least 15 characters once trimmed, opens with no markdown marker and
   *  holds none of the dropped words. */
  lemma KeptLineShape(voc: Vocabulary, line: string)
    requires ShouldIncludeLine(voc, line)
    ensures var t := Trim(line);
      && |t| >= 15 && !StartsWith(t, "**") && !StartsWith(t, "#") && !StartsWith(t, "---")
      && !NumberThenBold(t) && !ContainsAny(t, voc.disclaimers) && !ContainsAny(t, voc.sectionWords)
  {
  }

  /** Conversely, every line at least 15 characters long once trimmed, opening with a
   *  character other than a digit, `*`, `#`, `-` or `+`, and free of the dropped words is
   *  kept. */
  lemma PlainLineKept(voc: Vocabulary, line: string)
    requires var t := Trim(line);
      && |t| >= 15 && !IsMarkerChar(t[0]) && t[0] != '#'
      && !ContainsAny(t, voc.disclaimers) && !ContainsAny(t, voc.sectionWords)
    ensures ShouldIncludeLine(voc, line)
  {
    var t := Trim(line);
    assert DigitRun(t) == 0;
    assert CharRun(t, '*') == 0;
    assert !StartsWith(t, "**") && !StartsWith(t, "#") && !StartsWith(t, "---") by {
      assert t[0] != "**"[0] && t[0] != "---"[0];
    }
  }

  // ---------------------------------------------------------------------------
  // The title capture: `line.match(/命局：([^：\n]+)/)`

  /** The length of the run of characters outside `stops` at the front of `s`. */
  function RunOutside(s: string, stops: seq<char>): (n: nat)
    ensures n <= |s|
    ensures forall k :: 0 <= k < n ==> s[k] !in stops
    ensures n < |s| ==> s[n] in stops
    decreases |s|
  {
    if |s| > 0 && s[0] !in stops then 1 + RunOutside(s[1..], stops) else 0
  }

  /** The prefix stands at `p` and a character outside `stops` follows it. */
  predicate TitleAt(t: string, p: nat, prefix: string, stops: seq<char>)
  {
    p + |prefix| < |t| && t[p..p + |prefix|] == prefix && t[p + |prefix|] !in stops
  }

  /** The first match at or after `p`: the longest run of characters outside `stops` after the
   *  leftmost prefix that is followed by one; none when no prefix is. */
  function TitleFrom(t: string, p: nat, prefix: string, stops: seq<char>): (r: Option<string>)
    requires p <= |t|
    ensures r.Some? ==> (|r.value| > 0 && (forall k :: 0 <= k < |r.value| ==> r.value[k] !in stops)
      && Contains(t, prefix + r.value))
    ensures r.None? <==> forall q :: p <= q <= |t| ==> !TitleAt(t, q, prefix, stops)
    decreases |t| - p
  {
    if p == |t| then None
    else if TitleAt(t, p, prefix, stops) then
      var rest := t[p + |prefix|..];
      var n := RunOutside(rest, stops);
      assert t[p..p + |prefix| + n] == prefix + rest[..n];
      ContainsAt(t, prefix + rest[..n], p);
      Some(rest[..n])
    else TitleFrom(t, p + 1, prefix, stops)
  }

  function TitleMatch(voc: Vocabulary, t: string): Option<string>
  {
    TitleFrom(t, 0, voc.titlePrefix, voc.titleStops)
  }

  // ---------------------------------------------------------------------------
  // The section state machine of `parseChartDiagnosis`

  /** What `calculateBaZi` gives that the parser uses. */
  datatype BaziData = BaziData(dayMaster: string, monthBranch: string)

  datatype Section = Female | Male | KeySymptoms

  /** The returned `sections` object. */
  datatype Diagnosis = Diagnosis(femaleTitle: string, femaleContent: string, maleTitle: string, maleContent: string,
                                 keySymptoms: string)

  /** The loop's variables: the sections so far, `currentSection` and `contentBuffer`. */
  datatype State = State(d: Diagnosis, current: Option<Section>, buffer: seq<string>)

  /** A chart's title before the answer is read. */
  function DefaultTitle(voc: Vocabulary, b: BaziData): string
  {
    voc.titlePrefix + b.dayMaster + b.monthBranch + voc.monthWord
  }

  function Defaults(voc: Vocabulary, her: BaziData, him: BaziData): Diagnosis
  {
    Diagnosis(DefaultTitle(voc, her), "", DefaultTitle(voc, him), "", "")
  }

  function Initial(voc: Vocabulary, her: BaziData, him: BaziData): State
  {
    State(Defaults(voc, her, him), None, [])
  }

  /** The content of a section. */
  function Content(d: Diagnosis, s: Section): string
  {
    match s
    case Female => d.femaleContent
    case Male => d.maleContent
    case KeySymptoms => d.keySymptoms
  }

  /** The content of a section replaced. */
  function Store(d: Diagnosis, s: Section, text: string): (r: Diagnosis)
    ensures Content(r, s) == text
    ensures forall o :: o != s ==> Content(r, o) == Content(d, o)
    ensures r.femaleTitle == d.femaleTitle && r.maleTitle == d.maleTitle
  {
    match s
    case Female => d.(femaleContent := text)
    case Male => d.(maleContent := text)
    case KeySymptoms => d.(keySymptoms := text)
  }

  /** "Save previous section": the buffer joined with single spaces becomes the content of
   *  the current section, when there is one and the buffer is not empty. */
  function Flush(st: State): (r: Diagnosis)
    ensures r.femaleTitle == st.d.femaleTitle && r.maleTitle == st.d.maleTitle
  {
    if st.current.Some? && |st.buffer| > 0 then Store(st.d, st.current.value, Join(st.buffer, " ")) else st.d
  }

  predicate StartsFemale(voc: Vocabulary, t: string, current: Option<Section>)
  {
    Contains(t, voc.femaleHeader) || (Contains(t, voc.femaleWord) && current.None?)
  }

  predicate StartsMale(voc: Vocabulary, t: string, current: Option<Section>)
  {
    Contains(t, voc.maleHeader) || (Contains(t, voc.maleWord) && current == Some(Female))
  }

  predicate StartsKey(voc: Vocabulary, t: string)
  {
    ContainsAny(t, voc.keyHeaders)
  }

  predicate IsTitleLine(voc: Vocabulary, t: string, current: Option<Section>)
  {
    StartsWith(t, voc.titlePrefix) && (current == Some(Female) || current == Some(Male))
  }

  /** The title line's text, `line.replace(prefix, "").trim()`, as the title of `s`. */
  function SetTitle(d: Diagnosis, s: Section, title: string): Diagnosis
  {
    match s
    case Female => d.(femaleTitle := title)
    case Male => d.(maleTitle := title)
    case KeySymptoms => d
  }

  /** `shouldIncludeLine` as the value the state machine is given. */
  function Filter(voc: Vocabulary): string -> bool
  {
    t => ShouldIncludeLine(voc, t)
  }

  /** One trimmed line of the answer; `keep` is the line filter. */
  function Step(voc: Vocabulary, keep: string -> bool, st: State, t: string): State
  {
    if StartsFemale(voc, t, st.current) then
      var m := TitleMatch(voc, t);
      var d := Flush(st);
      State(if m.Some? then d.(femaleTitle := m.value) else d, Some(Female), [])
    else if StartsMale(voc, t, st.current) then
      var m := TitleMatch(voc, t);
      var d := Flush(st);
      State(if m.Some? then d.(maleTitle := m.value) else d, Some(Male), [])
    else if StartsKey(voc, t) then
      State(Flush(st), Some(KeySymptoms), [])
    else if IsTitleLine(voc, t, st.current) then
      st.(d := SetTitle(st.d, st.current.value, Trim(t[|voc.titlePrefix|..])))
    else if t != "" && keep(t) && st.current.Some? then
      st.(buffer := st.buffer + [t])
    else st
  }

  /** The state after the first `n` lines. */
  function Run(voc: Vocabulary, keep: string -> bool, ts: seq<string>, n: nat, init: State): State
    requires n <= |ts|
  {
    if n == 0 then init else Step(voc, keep, Run(voc, keep, ts, n - 1, init), ts[n - 1])
  }

  /** The fallback content of the woman's or the man's section. */
  function ChartFallback(voc: Vocabulary, b: BaziData, tail: Phrase, simplified: bool): string
  {
    b.dayMaster + Pick(voc.bornIn, simplified) + b.monthBranch + Pick(tail, simplified)
  }

  /** "Ensure we have some content for each section". */
  function WithFallbacks(voc: Vocabulary, d: Diagnosis, her: BaziData, him: BaziData, simplified: bool): Diagnosis
  {
    d.(femaleContent := if d.femaleContent == "" then ChartFallback(voc, her, voc.femaleTail, simplified) else d.femaleContent,
       maleContent := if d.maleContent == "" then ChartFallback(voc, him, voc.maleTail, simplified) else d.maleContent,
       keySymptoms := if d.keySymptoms == "" then Pick(voc.keyFallback, simplified) else d.keySymptoms)
  }

  /** `parseChartDiagnosis`; a text that is not a string (None) makes `split` throw, and the
   *  function's own `catch` returns the defaults with empty contents. */
  function Parse(voc: Vocabulary, aiText: Option<string>, her: BaziData, him: BaziData, simplified: bool): Diagnosis
  {
    if aiText.None? then Defaults(voc, her, him)
    else
      var ts := TrimmedLines(aiText.value, 0);
      WithFallbacks(voc, Flush(Run(voc, Filter(voc), ts, |ts|, Initial(voc, her, him))), her, him, simplified)
  }

  /** One pass of the loop of `parseChartDiagnosis`: the line `t` read in the state
   *  (`sections`, `current`, `buffer`). */
  method ReadLine(voc: Vocabulary, keep: string -> bool, sections0: Diagnosis, current0: Option<Section>,
                  buffer0: seq<string>, t: string)
    returns (sections: Diagnosis, current: Option<Section>, buffer: seq<string>)
    ensures State(sections, current, buffer) == Step(voc, keep, State(sections0, current0, buffer0), t)
  {
    sections, current, buffer := sections0, current0, buffer0;
    if StartsFemale(voc, t, current) {
      if current.Some? && |buffer| > 0 {
        sections := Store(sections, current.value, Join(buffer, " "));
      }
      current, buffer := Some(Female), [];
      var m := TitleMatch(voc, t);
      if m.Some? {
        sections := sections.(femaleTitle := m.value);
      }
    } else if StartsMale(voc, t, current) {
      if current.Some? && |buffer| > 0 {
        sections := Store(sections, current.value, Join(buffer, " "));
      }
      current, buffer := Some(Male), [];
      var m := TitleMatch(voc, t);
      if m.Some? {
        sections := sections.(maleTitle := m.value);
      }
    } else if StartsKey(voc, t) {
      if current.Some? && |buffer| > 0 {
        sections := Store(sections, current.value, Join(buffer, " "));
      }
      current, buffer := Some(KeySymptoms), [];
    } else if IsTitleLine(voc, t, current) {
      var title := Trim(t[|voc.titlePrefix|..]);
      if current == Some(Female) {
        sections := sections.(femaleTitle := title);
      } else {
        sections := sections.(maleTitle := title);
      }
    } else if t != "" && keep(t) && current.Some? {
      buffer := buffer + [t];
    }
  }

  /** The loop of `parseChartDiagnosis` over the trimmed non-blank lines, from the state
   *  `init`, with the line filter `keep`. */
  method ReadLines(voc: Vocabulary, keep: string -> bool, lines: seq<string>, init: State)
    returns (sections: Diagnosis, current: Option<Section>, buffer: seq<string>)
    ensures State(sections, current, buffer) == Run(voc, keep, lines, |lines|, init)
  {
    sections, current, buffer := init.d, init.current, init.buffer;
    for i := 0 to |lines|
      invariant State(sections, current, buffer) == Run(voc, keep, lines, i, init)
    {
      sections, current, buffer := ReadLine(voc, keep, sections, current, buffer, lines[i]);
    }
  }

  /** `parseChartDiagnosis`. */
  method ParseChartDiagnosis(voc: Vocabulary, aiText: Option<string>, her: BaziData, him: BaziData, simplified: bool)
    returns (sections: Diagnosis)
    ensures sections == Parse(voc, aiText, her, him, simplified)
  {
    sections := Defaults(voc, her, him);
    if aiText.None? {
      return;
    }
    var lines := TrimmedLines(aiText.value, 0);
    var current, buffer;
    sections, current, buffer := ReadLines(voc, Filter(voc), lines, Initial(voc, her, him));
    if current.Some? && |buffer| > 0 {
      sections := Store(sections, current.value, Join(buffer, " "));
    }
    if sections.femaleContent == "" {
      sections := sections.(femaleContent := ChartFallback(voc, her, voc.femaleTail, simplified));
    }
    if sections.maleContent == "" {
      sections := sections.(maleContent := ChartFallback(voc, him, voc.maleTail, simplified));
    }
    if sections.keySymptoms == "" {
      sections := sections.(keySymptoms := Pick(voc.keyFallback, simplified));
    }
  }

  // ---------------------------------------------------------------------------
  // What the state machine promises

  /** Where a line leaves the reader: the woman's section opens on her header, or on her
   *  word while no section is open; the man's on his header, or on his word inside her
   *  section; the key signs on any of their headers; any other line keeps the section. */
  lemma NextSectionRule(voc: Vocabulary, keep: string -> bool, st: State, t: string)
    ensures var c, n := st.current, Step(voc, keep, st, t).current;
      && (n == Some(Female) <==>
            StartsFemale(voc, t, c) || (c == Some(Female) && !StartsMale(voc, t, c) && !StartsKey(voc, t)))
      && (n == Some(Male) <==>
            !StartsFemale(voc, t, c) && (StartsMale(voc, t, c) || (c == Some(Male) && !StartsKey(voc, t))))
      && (n == Some(KeySymptoms) <==>
            !StartsFemale(voc, t, c) && !StartsMale(voc, t, c) && (StartsKey(voc, t) || c == Some(KeySymptoms)))
      && (n.None? <==> c.None? && !StartsFemale(voc, t, c) && !StartsMale(voc, t, c) && !StartsKey(voc, t))
  {
  }

  /** A header line saves the buffer, joined with single spaces, as the content of the
   *  section it closes when that section has lines, leaves every other content alone, and
   *  starts an empty buffer. */
  lemma HeaderFlushes(voc: Vocabulary, keep: string -> bool, st: State, t: string)
    requires StartsFemale(voc, t, st.current) || StartsMale(voc, t, st.current) || StartsKey(voc, t)
    ensures Step(voc, keep, st, t).buffer == []
    ensures st.current.Some? && |st.buffer| > 0 ==>
      Content(Step(voc, keep, st, t).d, st.current.value) == Join(st.buffer, " ")
    ensures forall s :: st.current != Some(s) || |st.buffer| == 0 ==> Content(Step(voc, keep, st, t).d, s) == Content(st.d, s)
  {
  }

  /** A title line inside the woman's or the man's section gives that section the rest of
   *  the line, trimmed, as its title; the section, the buffer, the contents and the other
   *  title stay. */
  lemma TitleLineRule(voc: Vocabulary, keep: string -> bool, st: State, t: string)
    requires !StartsFemale(voc, t, st.current) && !StartsMale(voc, t, st.current) && !StartsKey(voc, t)
    requires IsTitleLine(voc, t, st.current)
    ensures Step(voc, keep, st, t).current == st.current && Step(voc, keep, st, t).buffer == st.buffer
    ensures Step(voc, keep, st, t).d.femaleContent == st.d.femaleContent
    ensures Step(voc, keep, st, t).d.maleContent == st.d.maleContent
    ensures Step(voc, keep, st, t).d.keySymptoms == st.d.keySymptoms
    ensures st.current == Some(Female) ==>
      Step(voc, keep, st, t).d == st.d.(femaleTitle := Trim(t[|voc.titlePrefix|..]))
    ensures st.current == Some(Male) ==>
      Step(voc, keep, st, t).d == st.d.(maleTitle := Trim(t[|voc.titlePrefix|..]))
  {
    var title := Trim(t[|voc.titlePrefix|..]);
    assert Step(voc, keep, st, t) == st.(d := SetTitle(st.d, st.current.value, title));
  }

  /** The loop's invariant: the buffer holds only lines of the answer that the filter keeps,
   *  and it is empty while no section is open. */
  predicate Consistent(voc: Vocabulary, keep: string -> bool, ts: seq<string>, st: State)
  {
    (st.current.None? ==> st.buffer == [])
    && forall k :: 0 <= k < |st.buffer| ==> keep(st.buffer[k]) && st.buffer[k] in ts
  }

  lemma {:induction false} RunConsistent(voc: Vocabulary, keep: string -> bool, ts: seq<string>, n: nat, init: State)
    requires n <= |ts| && init.current.None? && init.buffer == []
    ensures Consistent(voc, keep, ts, Run(voc, keep, ts, n, init))
  {
    if n > 0 {
      RunConsistent(voc, keep, ts, n - 1, init);
    }
  }

  /** Once a string is parsed every section has content, the lines collected for it or its
   *  fallback text in the requested script; a text that is not a string leaves the default
   *  titles and empty contents. */
  lemma ParseFills(voc: Vocabulary, aiText: Option<string>, her: BaziData, him: BaziData, simplified: bool)
    requires Pick(voc.femaleTail, simplified) != "" && Pick(voc.maleTail, simplified) != ""
    requires Pick(voc.keyFallback, simplified) != ""
    ensures var r := Parse(voc, aiText, her, him, simplified);
      aiText.Some? ==> r.femaleContent != "" && r.maleContent != "" && r.keySymptoms != ""
    ensures aiText.None? ==> Parse(voc, aiText, her, him, simplified) == Diagnosis(DefaultTitle(voc, her), "", DefaultTitle(voc, him), "", "")
  {
    if aiText.Some? {
      var ts := TrimmedLines(aiText.value, 0);
      var d := Flush(Run(voc, Filter(voc), ts, |ts|, Initial(voc, her, him)));
      assert Parse(voc, aiText, her, him, simplified) == WithFallbacks(voc, d, her, him, simplified);
      FallbacksFill(voc, d, her, him, simplified);
    }
  }

  lemma FallbacksFill(voc: Vocabulary, d: Diagnosis, her: BaziData, him: BaziData, simplified: bool)
    requires Pick(voc.femaleTail, simplified) != "" && Pick(voc.maleTail, simplified) != ""
    requires Pick(voc.keyFallback, simplified) != ""
    ensures var r := WithFallbacks(voc, d, her, him, simplified);
      r.femaleContent != "" && r.maleContent != "" && r.keySymptoms != ""
  {
  }

  /** Both vocabularies write fallback texts that are never empty. */
  lemma FallbackTextsPresent(simplified: bool)
    ensures Pick(AsWritten.femaleTail, simplified) != "" && Pick(AsWritten.maleTail, simplified) != ""
    ensures Pick(AsWritten.keyFallback, simplified) != ""
    ensures Pick(Intended.femaleTail, simplified) != "" && Pick(Intended.maleTail, simplified) != ""
    ensures Pick(Intended.keyFallback, simplified) != ""
  {
  }

  lemma ContainsPrefixOf(t: string, p: string, q: string)
    requires Contains(t, p + q)
    ensures Contains(t, p)
  {
    var i := ContainsWitness(t, p + q);
    assert t[i..i + |p|] == (p + q)[..|p|];
    ContainsAt(t, p, i);
  }

  /** A line without the title prefix leaves both titles alone. */
  lemma StepKeepsTitles(voc: Vocabulary, keep: string -> bool, st: State, t: string)
    requires !Contains(t, voc.titlePrefix)
    ensures Step(voc, keep, st, t).d.femaleTitle == st.d.femaleTitle && Step(voc, keep, st, t).d.maleTitle == st.d.maleTitle
  {
    var m := TitleMatch(voc, t);
    if m.Some? {
      ContainsPrefixOf(t, voc.titlePrefix, m.value);
    }
  }

  lemma {:induction false} RunKeepsTitles(voc: Vocabulary, keep: string -> bool, ts: seq<string>, n: nat, init: State)
    requires n <= |ts|
    requires forall k :: 0 <= k < |ts| ==> !Contains(ts[k], voc.titlePrefix)
    ensures Run(voc, keep, ts, n, init).d.femaleTitle == init.d.femaleTitle
    ensures Run(voc, keep, ts, n, init).d.maleTitle == init.d.maleTitle
  {
    if n > 0 {
      RunKeepsTitles(voc, keep, ts, n - 1, init);
      StepKeepsTitles(voc, keep, Run(voc, keep, ts, n - 1, init), ts[n - 1]);
    }
  }

  /** Without the title prefix anywhere in the answer, both titles stay the prefix, the day
   *  master, the month branch and the month word. */
  lemma DefaultTitlesKept(voc: Vocabulary, text: string, her: BaziData, him: BaziData, simplified: bool)
    requires !Contains(text, voc.titlePrefix)
    ensures Parse(voc, Some(text), her, him, simplified).femaleTitle == DefaultTitle(voc, her)
    ensures Parse(voc, Some(text), her, him, simplified).maleTitle == DefaultTitle(voc, him)
  {
    var ts := TrimmedLines(text, 0);
    forall k | 0 <= k < |ts|
      ensures !Contains(ts[k], voc.titlePrefix)
    {
      if Contains(ts[k], voc.titlePrefix) {
        TrimmedLineInText(text, 0, k, voc.titlePrefix);
      }
    }
    var init := Initial(voc, her, him);
    RunKeepsTitles(voc, Filter(voc), ts, |ts|, init);
    var d := Flush(Run(voc, Filter(voc), ts, |ts|, init));
    assert Parse(voc, Some(text), her, him, simplified) == WithFallbacks(voc, d, her, him, simplified);
  }

  // ---------------------------------------------------------------------------
  // The double-encoded words

  /** No section header: a line that neither opens a section by a header nor by the
   *  woman's word. */
  predicate Unmarked(voc: Vocabulary, t: string)
  {
    !Contains(t, voc.femaleHeader) && !Contains(t, voc.femaleWord) && !Contains(t, voc.maleHeader)
    && !StartsKey(voc, t)
  }

  /** While no line carries a header, no section opens and nothing changes. */
  lemma {:induction false} RunStaysClosed(voc: Vocabulary, keep: string -> bool, ts: seq<string>, n: nat, init: State)
    requires n <= |ts| && init.current.None?
    requires forall k :: 0 <= k < |ts| ==> Unmarked(voc, ts[k])
    ensures Run(voc, keep, ts, n, init) == init
  {
    if n > 0 {
      RunStaysClosed(voc, keep, ts, n - 1, init);
      assert Unmarked(voc, ts[n - 1]);
    }
  }

  /** A character of a text is contained in it as a one-character text. */
  lemma CharContained(s: string, i: nat)
    requires i < |s|
    ensures Contains(s, [s[i]])
  {
    assert s[i..i + 1] == [s[i]];
    ContainsAt(s, [s[i]], i);
  }

  lemma ContainedChar(s: string, c: char)
    requires Contains(s, [c])
    ensures c in s
  {
    var x := ContainsWitness(s, [c]);
    assert s[x..x + 1][0] == s[x];
  }

  /** A text without the character `c` has no line holding `c`. */
  lemma LineLacks(text: string, k: nat, c: char)
    requires k < |TrimmedLines(text, 0)| && c !in text
    ensures c !in TrimmedLines(text, 0)[k]
  {
    var line := TrimmedLines(text, 0)[k];
    if c in line {
      var i :| 0 <= i < |line| && line[i] == c;
      CharContained(line, i);
      TrimmedLineInText(text, 0, k, [c]);
      ContainedChar(text, c);
    }
  }

  /** Every header word opens with one of the characters `cs`. */
  predicate HeadersStartWith(voc: Vocabulary, cs: set<char>)
  {
    && |voc.femaleHeader| > 0 && voc.femaleHeader[0] in cs
    && |voc.femaleWord| > 0 && voc.femaleWord[0] in cs
    && |voc.maleHeader| > 0 && voc.maleHeader[0] in cs
    && forall h :: 0 <= h < |voc.keyHeaders| ==> |voc.keyHeaders[h]| > 0 && voc.keyHeaders[h][0] in cs
  }

  /** An answer without the characters the header words open with leaves every section
   *  closed: both titles keep their defaults and every content is its fallback text. */
  lemma HeadersNeverMatch(voc: Vocabulary, cs: set<char>, text: string, her: BaziData, him: BaziData, simplified: bool)
    requires HeadersStartWith(voc, cs) && forall c :: c in cs ==> c !in text
    ensures Parse(voc, Some(text), her, him, simplified) == WithFallbacks(voc, Defaults(voc, her, him), her, him, simplified)
  {
    var ts := TrimmedLines(text, 0);
    forall k | 0 <= k < |ts|
      ensures Unmarked(voc, ts[k])
    {
      LineLacks(text, k, voc.femaleHeader[0]);
      LacksCharNoMatch(ts[k], voc.femaleHeader, 0);
      LineLacks(text, k, voc.femaleWord[0]);
      LacksCharNoMatch(ts[k], voc.femaleWord, 0);
      LineLacks(text, k, voc.maleHeader[0]);
      LacksCharNoMatch(ts[k], voc.maleHeader, 0);
      forall h | 0 <= h < |voc.keyHeaders|
        ensures !Contains(ts[k], voc.keyHeaders[h])
      {
        LineLacks(text, k, voc.keyHeaders[h][0]);
        LacksCharNoMatch(ts[k], voc.keyHeaders[h], 0);
      }
    }
    RunStaysClosed(voc, Filter(voc), ts, |ts|, Initial(voc, her, him));
  }

  /** The route's header words all open with `å`, `ç` or `é`. */
  lemma WrittenHeadersStart()
    ensures HeadersStartWith(AsWritten, {'\U{00E5}', '\U{00E7}', '\U{00E9}'})
  {
  }

  /** As written, an answer without the characters `å`, `ç` and `é` (any answer written in
   *  Chinese characters) holds none of the route's headers: no section ever opens, no line is
   *  collected, both titles keep their defaults and every content is its fallback text. */
  lemma WrittenHeadersNeverMatch(text: string, her: BaziData, him: BaziData, simplified: bool)
    requires '\U{00E5}' !in text && '\U{00E7}' !in text && '\U{00E9}' !in text
    ensures Parse(AsWritten, Some(text), her, him, simplified)
      == WithFallbacks(AsWritten, Defaults(AsWritten, her, him), her, him, simplified)
  {
    WrittenHeadersStart();
    HeadersNeverMatch(AsWritten, {'\U{00E5}', '\U{00E7}', '\U{00E9}'}, text, her, him, simplified);
  }

  /** A line holding the woman's header opens her section, and a kept line after it that
   *  holds no header and no title goes into her buffer. */
  lemma {:induction false} HeaderCollects(voc: Vocabulary, keep: string -> bool, ts: seq<string>, init: State)
    requires |ts| == 2 && init.current.None? && init.buffer == []
    requires Contains(ts[0], voc.femaleHeader) && ts[1] != "" && keep(ts[1]) && !StartsWith(ts[1], voc.titlePrefix)
    requires !StartsFemale(voc, ts[1], Some(Female)) && !StartsMale(voc, ts[1], Some(Female)) && !StartsKey(voc, ts[1])
    ensures Run(voc, keep, ts, |ts|, init).current == Some(Female)
    ensures Run(voc, keep, ts, |ts|, init).buffer == [ts[1]]
  {
    var s1 := Step(voc, keep, init, ts[0]);
    assert s1.current == Some(Female) && s1.buffer == [];
    assert Run(voc, keep, ts, 1, init) == s1;
  }

  /** An answer whose lines leave the woman's section open with one line in its buffer
   *  gives her that line as content. */
  lemma ParseFemaleBuffer(voc: Vocabulary, text: string, c: string, her: BaziData, him: BaziData, simplified: bool)
    requires c != ""
    requires Run(voc, Filter(voc), TrimmedLines(text, 0), |TrimmedLines(text, 0)|, Initial(voc, her, him)).current
      == Some(Female)
    requires Run(voc, Filter(voc), TrimmedLines(text, 0), |TrimmedLines(text, 0)|, Initial(voc, her, him)).buffer == [c]
    ensures Parse(voc, Some(text), her, him, simplified).femaleContent == c
  {
  }

  /** The plain Chinese words of the woman's header and of the title prefix. */
  lemma IntendedWords()
    ensures Intended.femaleHeader == "女方分析" && Intended.titlePrefix == "命局："
  {
  }

  /** A line that can sit in the body of the woman's section: not blank, kept by the
   *  filter, no title line and no header. */
  predicate BodyLine(voc: Vocabulary, c: string)
  {
    && c != "" && Filter(voc)(c) && !StartsWith(c, voc.titlePrefix)
    && !StartsFemale(voc, c, Some(Female)) && !StartsMale(voc, c, Some(Female)) && !StartsKey(voc, c)
  }

  /** An answer whose lines are a line holding the woman's header and then a body line
   *  gives her that line as content. */
  lemma HeaderThenLine(voc: Vocabulary, text: string, h: string, c: string, her: BaziData, him: BaziData, simplified: bool)
    requires TrimmedLines(text, 0) == [h, c] && Contains(h, voc.femaleHeader) && BodyLine(voc, c)
    ensures Parse(voc, Some(text), her, him, simplified).femaleContent == c
  {
    HeaderCollects(voc, Filter(voc), TrimmedLines(text, 0), Initial(voc, her, him));
    ParseFemaleBuffer(voc, text, c, her, him, simplified);
  }

  /** With the words in plain Chinese, an answer whose lines are a line holding 女方分析 and
   *  then a body line gives the woman that line as content. */
  lemma IntendedHeaderCollects(text: string, h: string, c: string, her: BaziData, him: BaziData, simplified: bool)
    requires TrimmedLines(text, 0) == [h, c] && Contains(h, "女方分析") && BodyLine(Intended, c)
    ensures Parse(Intended, Some(text), her, him, simplified).femaleContent == c
  {
    IntendedWords();
    HeaderThenLine(Intended, text, h, c, her, him, simplified);
  }

  // ---------------------------------------------------------------------------
  // The handler

  /** The fields of the request body the route reads; `isSimplified` defaults to false. */
  datatype Request = Request(femaleBirth: Option<string>, maleBirth: Option<string>, isSimplified: bool)

  /** What the AI call gave: a failure (a status that is not OK, or no first choice), or the
   *  first choice's content, None when it is not a string. */
  datatype AiReply = Failed | Reply(content: Option<string>)

  datatype Response = BadRequest | Diagnosed(diagnosis: Diagnosis)

  /** The fixed sections `POST` returns from its `catch`. */
  function ErrorFallback(voc: Vocabulary): Diagnosis
  {
    Diagnosis(voc.errorTitle, voc.errorFemale, voc.errorTitle, voc.errorMale, voc.errorKey)
  }

  /** `user?.birthDateTime` is truthy. */
  predicate HasBirth(b: Option<string>)
  {
    b.Some? && b.value != ""
  }

  /** `POST`, given the parsed body (None when it is not JSON), the AI reply and
   *  `calculateBaZi`. */
  function Handle(voc: Vocabulary, body: Option<Request>, ai: AiReply, bazi: string -> BaziData): Response
  {
    if body.None? then Diagnosed(ErrorFallback(voc))
    else if !HasBirth(body.value.femaleBirth) || !HasBirth(body.value.maleBirth) then BadRequest
    else if ai.Failed? then Diagnosed(ErrorFallback(voc))
    else
      var req := body.value;
      Diagnosed(Parse(voc, ai.content, bazi(req.femaleBirth.value), bazi(req.maleBirth.value), req.isSimplified))
  }

  /** The route with its literals as they stand. */
  function PostAsWritten(body: Option<Request>, ai: AiReply, bazi: string -> BaziData): Response
  {
    Handle(AsWritten, body, ai, bazi)
  }

  /** The route with the words it looks for in plain Chinese. */
  function Post(body: Option<Request>, ai: AiReply, bazi: string -> BaziData): Response
  {
    Handle(Intended, body, ai, bazi)
  }

  /** A missing birth date of either partner is refused; a body that is not JSON or a
   *  failed AI call gives the fixed sections; otherwise the answer is parsed, and every
   *  section of an answer that is a string has content. */
  lemma PostOutcome(body: Option<Request>, ai: AiReply, bazi: string -> BaziData)
    ensures Post(body, ai, bazi).BadRequest? <==>
      body.Some? && (!HasBirth(body.value.femaleBirth) || !HasBirth(body.value.maleBirth))
    ensures body.None? ==> Post(body, ai, bazi) == Diagnosed(ErrorFallback(Intended))
    ensures body.Some? && ai.Failed? && HasBirth(body.value.femaleBirth) && HasBirth(body.value.maleBirth) ==>
      Post(body, ai, bazi) == Diagnosed(ErrorFallback(Intended))
    ensures body.Some? && ai.Reply? && ai.content.Some? && !Post(body, ai, bazi).BadRequest? ==>
      var d := Post(body, ai, bazi).diagnosis;
      d.femaleContent != "" && d.maleContent != "" && d.keySymptoms != ""
  {
    if body.Some? && ai.Reply? && HasBirth(body.value.femaleBirth) && HasBirth(body.value.maleBirth) {
      var req := body.value;
      FallbackTextsPresent(req.isSimplified);
      ParseFills(Intended, ai.content, bazi(req.femaleBirth.value), bazi(req.maleBirth.value), req.isSimplified);
    }
  }
}
