# HarmoniQ mobile: a Dafny model of its core

HarmoniQ is a feng-shui and destiny-analysis app (a Next.js web app wrapped for phones).
This project models, in Dafny, the parts of it that compute or decide something. It proves
properties of that model; nothing of the app itself is run.

- **The source patchers.** `add-api-base.py`, `fix-api-calls.js` and `fix-api-calls-v2.js`
  rewrite the app's `fetch("/api/…")` calls to go through an `API_BASE` constant and insert
  its declaration. They are modelled as imperative methods over a file system held as a map
  from path to lines or text. The proofs cover the insertion-point search, the replacement
  counts, the skipping of files that are missing or already patched, and what a second run
  does.
- **The BaZi (four pillars) arithmetic.** The ten heavenly stems and twelve earthly branches
  (`Ganzhi`), the fallback year, month, day and hour pillars of `baziCalculator.js`,
  `accurateBaziCalculation.js` and the routes that carry their own copies, the 五虎遁
  month-stem table, the stem and branch relationship tables of `baziRelationships.js`,
  element distributions and ten gods (`baziChartData.js`), and the daily-fortune score
  and its bands.
- **The answer parsers of the API routes.** Each AI-backed route cuts the model's answer
  into sections, items and titles, with fallbacks for every missing part. The AI call,
  clocks and regular-expression engines are not modelled: their results are parameters.
  The line classifiers, state machines, caps, rotations and fallbacks around them are
  modelled.
- **Component logic.** The React cards' classifiers, lookups, de-duplication, truncation
  and parsers (`CoupleSpecificProblemSolution`, `CoupleCoreSuggestion`, `MingJu`,
  `CoreSuggestion`, `BaziPersonalityAnalysis`, `BaziDetailedChart`,
  `BaziRelationshipDiagram`), the deep-link handler, the middleware's redirect decision,
  the API URL helpers and mobile navigation.
- **The chat test scripts' scoring.** The `TestResults` tally, and the redirection and
  context-retention scoring.

JavaScript's behaviour is written out where it matters:
- truncating `%` (`Ganzhi.JsRem`);
- `undefined` in string concatenation, and `undefined + undefined` giving `NaN`;
- `||` defaults on falsy values;
- the insertion order of object keys (`Object.entries`).

Shared modules:
- `Strings`: substring search, replace-all with match counts, split, join and trim;
- `Words`: splitting at white-space runs;
- `Dedup`: keep-first de-duplication;
- `Wrappers`: optional values.

## Model

| member | source | states |
|---|---|---|
| AccurateBazi.DateString | src/lib/accurateBaziCalculation.js:20-31 | a string with neither `T` nor a space gets " 12:00:00" appended; any other string is handed to the date formatter |
| AccurateBazi.NoonAppendedOnce | src/lib/accurateBaziCalculation.js:26-30 | the default time is appended at most once: a string it was appended to goes to the formatter when normalised again |
| AccurateBazi.HourBranchIndex | src/lib/accurateBaziCalculation.js:115 | for any hour from −1 on, the hour's branch index lies in 0..11 |
| AccurateBazi.FallbackIndices | src/lib/accurateBaziCalculation.js:106-116 | each stem index lies in 0..9 and each branch index in 0..11 as soon as its JavaScript remainder cannot be negative (year from 4, days from the 1900 reference, month from 1) |
| AccurateBazi.FallbackIndexFormulas | src/lib/accurateBaziCalculation.js:106-116 | for such inputs the indices are exactly the remainders of the source's formulas for year, day, month and hour |
| AccurateBazi.FallbackPillars | src/lib/accurateBaziCalculation.js:118-123 | for such inputs each of the four pillars is the stem text followed by the branch text of its two indices |
| AccurateBazi.FallbackFields | src/lib/accurateBaziCalculation.js:124-157 | the day master is the day stem, and the day and year elements are the elements of the day and year stems |
| AccurateBazi.FallbackYearBeforeFour | src/lib/accurateBaziCalculation.js:106-119 | for the year 3 both year remainders are −1, both lookups are undefined, and the year pillar is NaN rather than text |
| AccurateBazi.FallbackPillarsInCycle | src/lib/accurateBaziCalculation.js:106-116 | in each fallback pillar the stem and branch indices share their parity, so every pillar is one of the sixty of the cycle |
| AccurateBazi.HourPeriods | src/lib/accurateBaziCalculation.js:115 | 23:00 and midnight both fall in the 子 period, and each period covers an odd hour and the even hour after it |
| AccurateBazi.HourStemRule | src/lib/accurateBaziCalculation.js:116 | the hour stem follows the 五鼠遁 rule: the 子 hour of a day with stem d has stem 2d mod 10, and each later period advances it by one |
| AccurateBazi.MonthStemMatchesTable | src/lib/accurateBaziCalculation.js:113 | from March on, the fallback's month stem equals the 五虎遁 table's stem for the same year |
| AccurateBazi.MonthStemJanuaryFebruary | src/lib/accurateBaziCalculation.js:113 | in January and February it equals the table's stem for the previous year |
| AccurateBazi.CalculateFallbackBaZi | src/lib/accurateBaziCalculation.js:71-136 | the fallback chart built from the eight indices; FallbackPillars and FallbackFields state its pillars and fields, FallbackYearBeforeFour what it gives before the year 4 |
| AddApiBase.SpaceRun | add-api-base.py:68 | a `\s+` or `\s*` of the declaration pattern takes exactly the leading run of whitespace characters |
| AddApiBase.WordRun | add-api-base.py:68 | the `\w+` of the declaration pattern takes exactly the leading run of word characters |
| AddApiBase.DeclLines | add-api-base.py:66-68 | one flag per line, set exactly for the lines the declaration pattern matches somewhere |
| AddApiBase.BraceLines | add-api-base.py:71 | one flag per line, set exactly for the lines whose stripped text is `{` or whose right-stripped text ends with `{` |
| AddApiBase.FirstBrace | add-api-base.py:70-73 | the first brace line of the window, or none exactly when the window holds no brace line |
| AddApiBase.FindSite | add-api-base.py:66-75 | a site found lies at or after the start line, with its brace line at or below its declaration line |
| AddApiBase.FindSiteFirst | add-api-base.py:66-75 | the site is the first declaration line, top-down, whose 10-line window (itself included) holds a brace line, paired with the first brace line of that window; declaration lines without one are passed over, and there is no site exactly when no declaration line anchors |
| AddApiBase.FindInsertLine | add-api-base.py:63-75 | the nested loop with both breaks gives the line after the site's brace line, or −1 when there is no site |
| AddApiBase.PatchFile | add-api-base.py:49-83 | the per-file body gives the outcome and the new content of the patch specification |
| AddApiBase.ApiBaseLineDeclares | add-api-base.py:42 | the inserted line itself contains `const API_BASE` |
| AddApiBase.PatchOutcome | add-api-base.py:53-83 | a line is added only to a file that uses `${API_BASE}` without declaring it, at the line after the site's brace, and the new content is the old lines with the declaration inserted there; a declared file, an unused constant or a missing site leaves the content unchanged with the matching report |
| AddApiBase.PatchInsertsOneLine | add-api-base.py:63-80 | a rewrite keeps every old line in order and adds exactly the declaration line, right after a brace line that lies within 10 lines below a declaration line |
| AddApiBase.PatchedDeclares | add-api-base.py:53-80 | after a rewrite the file declares the constant |
| AddApiBase.PatchIdempotent | add-api-base.py:53-55 | patching a patched file changes nothing and reports "already has API_BASE" instead of adding a line |
| AddApiBase.RunScript | add-api-base.py:44-83 | the script's loop over the listed paths gives the files and the log of the run specification |
| AddApiBase.RunLog | add-api-base.py:44-83 | a run creates no file and reports every listed path in order, "not found" exactly for the paths that do not exist |
| AddApiBase.RunFiles | add-api-base.py:44-80 | a run leaves every unlisted file alone and each listed file as one patch leaves it; a path listed twice is not patched twice |
| AddApiBase.RunIdempotent | add-api-base.py:44-83 | running the script a second time changes no file and adds no line |
| AddApiBase.QuietRun | add-api-base.py:44-83 | when no listed file would gain a line, a run leaves every file as it was |
| AddApiBase.IsWordChar | add-api-base.py:68 | Python's `\w` on one character; WordRun states that the `\w+` of the pattern takes exactly the leading run of such characters |
| AddApiBase.ExportDeclAt | add-api-base.py:68 | the `export` alternative of the declaration pattern at the start of a text; DeclLines flags a line exactly when it or the arrow alternative holds at some position |
| AddApiBase.ArrowDeclAt | add-api-base.py:68 | the `const name = (` alternative of the declaration pattern at the start of a text; DeclLines flags a line exactly when it or the export alternative holds at some position |
| AddApiBase.DeclMatch | add-api-base.py:68 | `re.search` of the declaration pattern in a line; DeclLines flags exactly the lines it holds for |
| AddApiBase.IsBraceLine | add-api-base.py:71 | the brace test of the inner loop; BraceLines flags exactly the lines it holds for |
| AddApiBase.SiteOf | add-api-base.py:66-75 | the declaration line and brace line the nested search settles on; FindSiteFirst states it is the first anchoring declaration line with the first brace line of its window |
| AddApiBase.InsertLine | add-api-base.py:64-75 | `insert_line` after the search; FindInsertLine computes it with the nested loops and their breaks |
| AddApiBase.Patch | add-api-base.py:49-83 | the outcome and new content of one existing file; PatchOutcome, PatchInsertsOneLine, PatchedDeclares and PatchIdempotent state what it does |
| AddApiBase.Step | add-api-base.py:44-83 | one pass of the loop over the file list; RunScript's loop keeps the fold of it as its invariant |
| AddApiBase.RunAll | add-api-base.py:44-83 | the script over the listed paths in order; RunLog, RunFiles, RunIdempotent and QuietRun state what it does |
| AiAnalysis.LastIndexOfChar | src/app/api/ai-analysis/route.js:347 | `lastIndexOf` gives the last position holding the character, with none after it, and -1 exactly when the character is absent |
| AiAnalysis.Closing | src/app/api/ai-analysis/route.js:10-12 | the lazy `(.*?)` stops at the first closing marker on the same line, which lies inside the text |
| AiAnalysis.HeaderMatch | src/app/api/ai-analysis/route.js:8 | `#{1,6}\s*` matches exactly where a `#` stands, takes at least that character and deletes the match |
| AiAnalysis.PairMatch | src/app/api/ai-analysis/route.js:10-12 | a bold or italic match keeps exactly the text between its two markers |
| AiAnalysis.LinkMatch | src/app/api/ai-analysis/route.js:20 | a link match keeps exactly the text right after the `[` |
| AiAnalysis.Match | src/app/api/ai-analysis/route.js:8-20 | every pattern match takes at least one character and puts in its place only characters of the text |
| AiAnalysis.HeadersLeaveNoHash | src/app/api/ai-analysis/route.js:8 | after the header replacement no `#` is left anywhere in the text |
| AiAnalysis.CollapseBlankRunsRule | src/app/api/ai-analysis/route.js:18 | after `\n{3,}` → `\n\n` no three line breaks stand in a row, and the text starts with at most two and never more than before |
| AiAnalysis.CollapseKeeps | src/app/api/ai-analysis/route.js:18 | a text without three line breaks in a row is left unchanged |
| AiAnalysis.CleanMarkdown | src/app/api/ai-analysis/route.js:4-23 | the cleaned text starts and ends with a visible character (it is trimmed) |
| AiAnalysis.LinkAfterCollapseExample | src/app/api/ai-analysis/route.js:18-20 | the link step runs after the collapse, so `[\n\n](u)\n` passes the collapse unchanged and then becomes three line breaks in a row |
| AiAnalysis.RemoveIntroRule | src/app/api/ai-analysis/route.js:26-43 | without a blank line after a line mentioning 詳細 the text is returned unchanged; otherwise the lines after the first such blank line, joined and trimmed |
| AiAnalysis.IntroRemovalKeepsOut | src/app/api/ai-analysis/route.js:26-43 | removing the introduction brings in no character but line feeds: one absent from the text stays absent |
| AiAnalysis.RiZhuTextHasNoHash | src/app/api/ai-analysis/route.js:4-43 | the 日主特性 text that is sent holds no `#`, before and after the introduction is removed |
| AiAnalysis.Stringify | src/app/api/ai-analysis/route.js:323 | an object becomes text in braces and a string its quoted form |
| AiAnalysis.WrapRule | src/app/api/ai-analysis/route.js:312-327 | a lone section wrapped as `{ sections: [section] }` passes the sections validation exactly when its title and content are strings |
| AiAnalysis.Span | src/app/api/ai-analysis/route.js:210 | `/\{[\s\S]*\}/` finds nothing exactly when no `}` follows the first `{`, and what it finds is braced |
| AiAnalysis.Balanced | src/app/api/ai-analysis/route.js:213-215 | a match of the balanced-object pattern is braced text at the start of the input |
| AiAnalysis.BalancedMatches | src/app/api/ai-analysis/route.js:213-215 | every balanced match found is braced |
| AiAnalysis.JsonCandidate | src/app/api/ai-analysis/route.js:200-231 | the JSON text taken from the answer is braced, and there is none exactly when neither the stripped nor the raw answer has a `{…}` span |
| AiAnalysis.AggressiveCleanSpan | src/app/api/ai-analysis/route.js:343-351 | the corrected aggressive cleaning keeps exactly the text from the first `{` to the last `}` with curly quotes straightened, which is braced |
| AiAnalysis.AggressiveCleanKeepsTail | src/app/api/ai-analysis/route.js:343-351 | as written, with text before the first `{` and a visible character after the last `}`, the second cut keeps that character, so the result is longer than the intended one |
| AiAnalysis.LifeStage | src/app/api/ai-analysis/route.js:423-424 | under 35 years 青年, under 55 中年, otherwise (and for an invalid date) 長者 |
| AiAnalysis.GenderRef | src/app/api/ai-analysis/route.js:410-425 | 女性 exactly for "female" or 女, 男性 for every other or missing gender |
| AiAnalysis.FallbackTemplate | src/app/api/ai-analysis/route.js:408-534 | every concern branch fills three keyword texts, three descriptions and the analysis, all non-empty |
| AiAnalysis.PersonalizedFallback | src/app/api/ai-analysis/route.js:408-534 | the fallback is JSON object text (braced) |
| AiAnalysis.KeywordListValid | src/app/api/ai-analysis/route.js:252-258 | every fallback keyword has a non-empty string text and description, numbered 1 to 3 |
| AiAnalysis.AnswerValid | src/app/api/ai-analysis/route.js:237-270 | an answer built from a filled template passes the old-shape validation, with three keywords numbered 1 to 3 |
| AiAnalysis.FallbackValid | src/app/api/ai-analysis/route.js:246-270 | the personalized fallback passes the route's own keyword validation for every concern and user |
| AiAnalysis.PostOutcome | src/app/api/ai-analysis/route.js:49-65 | a body that is not JSON gets the 400 answer and only it; a failed AI call sends the personalized fallback marked `fallback: true`; a received answer is sent unmarked |
| AiAnalysis.RecoverRule | src/app/api/ai-analysis/route.js:340-375 | the corrected recovery sends text that parses or the fallback |
| AiAnalysis.ValidatedJsonRule | src/app/api/ai-analysis/route.js:198-331 | on the JSON path the content sent parses, is a wrapped lone section, or is the fallback, and it is the answer's own candidate whenever that passes validation |
| AiAnalysis.PostContent | src/app/api/ai-analysis/route.js:176-383 | for a non-日主特性 request the content sent parses, is a wrapped lone section or is the fallback text, and the fallback itself is valid |
| AiAnalysis.DoubleEncodedFallback | src/app/api/ai-analysis/route.js:362-375 | as written, when nothing parses the fallback text is stringified again and sent as a quoted string; corrected, the fallback object text is sent |
| AiAnalysis.RecoverFallsBack | src/app/api/ai-analysis/route.js:362-375 | when neither the text nor its aggressive cleaning parses, the recovery as written sends the fallback text quoted again; the corrected one sends it as it is |
| AiAnalysis.HandleReply | src/app/api/ai-analysis/route.js:176-383 | a received answer is validated against the request's personalized fallback and sent as a success |
| AiAnalysis.CutAsWritten | src/app/api/ai-analysis/route.js:343-351 | the cut as written ends at the last `}` counted from the first `{`, not from the start of the text |
| AiAnalysis.Scan | src/app/api/ai-analysis/route.js:8-20 | a global `replace` from a position on; Match states that every match it uses takes a character and brings in only characters of the text |
| AiAnalysis.Replace | src/app/api/ai-analysis/route.js:8-16 | one marker replacement of `cleanMarkdownFormatting`; HeadersLeaveNoHash states that the header replacement leaves no `#` |
| AiAnalysis.CollapseBlankRuns | src/app/api/ai-analysis/route.js:18 | the `\n{3,}` replacement; CollapseBlankRunsRule states that no three line breaks stay in a row and CollapseKeeps that a text without them is unchanged |
| AiAnalysis.Unmarked | src/app/api/ai-analysis/route.js:8-16 | the five marker replacements in the route's order; HeadersLeaveNoHash states that no `#` survives them |
| AiAnalysis.Linked | src/app/api/ai-analysis/route.js:18-20 | the collapse and then the link step; LinkAfterCollapseExample shows that this order can leave three line breaks in a row |
| AiAnalysis.RemoveBiographicalIntro | src/app/api/ai-analysis/route.js:26-43 | `removeBiographicalIntro`; RemoveIntroRule states when the first paragraph is dropped and IntroRemovalKeepsOut that no new character comes in |
| AiAnalysis.Escape | src/app/api/ai-analysis/route.js:323 | the quoted form `JSON.stringify` gives a string; Stringify states that a string becomes its quoted form |
| AiAnalysis.Shape | src/app/api/ai-analysis/route.js:237-331 | the validation of a parsed answer (old shape, sections, lone section, error); AnswerValid, FallbackValid and WrapRule state which answers pass |
| AiAnalysis.Wrap | src/app/api/ai-analysis/route.js:312-327 | `{ sections: [section] }`; WrapRule states that a wrapped lone section passes exactly when its title and content are strings |
| AiAnalysis.StripDecorations | src/app/api/ai-analysis/route.js:201-206 | the quotation, bold-line, header and rule lines blanked and the whole trimmed; JsonCandidate states what is looked for in it |
| AiAnalysis.CleanCut | src/app/api/ai-analysis/route.js:343-351 | the intended cut from a `{` to a `}`, quotes straightened and trimmed; AggressiveCleanSpan states its result |
| AiAnalysis.CleanCutAsWritten | src/app/api/ai-analysis/route.js:343-351 | the cut as written, which uses an index of the whole text in the shortened one; CutAsWritten states where it ends |
| AiAnalysis.AggressiveCleanAsWritten | src/app/api/ai-analysis/route.js:341-351 | the aggressive cleaning as written; AggressiveCleanKeepsTail states that it keeps text after the last `}` |
| AiAnalysis.AggressiveClean | src/app/api/ai-analysis/route.js:341-351 | the aggressive cleaning as its comments describe it; AggressiveCleanSpan states that it keeps exactly the braced span |
| AiAnalysis.BirthYear | src/app/api/ai-analysis/route.js:420-422 | the birth year, 2000 without a date and NaN for an invalid one; LifeStage states the stage each gives |
| AiAnalysis.YearElements | src/app/api/ai-analysis/route.js:428-440 | the five listed birth years and the 庚子 壁上土 庚金 default; FallbackTemplate states that every fallback text is filled from it |
| AiAnalysis.Answer | src/app/api/ai-analysis/route.js:443-530 | the fallback object: three keywords numbered 1 to 3 and the analysis; AnswerValid states that it passes the old-shape validation |
| AiAnalysis.FallbackJson | src/app/api/ai-analysis/route.js:408-534 | `generatePersonalizedFallback`; PersonalizedFallback states that its text is braced and FallbackValid that it passes validation |
| AiAnalysis.FinalConcern | src/app/api/ai-analysis/route.js:77 | `concern` or else `userInfo.concern`; HandleReply validates against the fallback of this concern |
| AiAnalysis.IsRiZhuTeXing | src/app/api/ai-analysis/route.js:80 | the 日主特性 test; PostContent states what a request without it gets and RiZhuTextHasNoHash what a request with it gets |
| AiAnalysis.Recover | src/app/api/ai-analysis/route.js:336-375 | the inner `catch`; RecoverRule and RecoverFallsBack state what it sends, corrected and as written |
| AiAnalysis.Validated | src/app/api/ai-analysis/route.js:177-375 | the validation of a received answer; ValidatedJsonRule states what the JSON path sends and RiZhuTextHasNoHash what the plain-text path sends |
| AiAnalysis.Handle | src/app/api/ai-analysis/route.js:49-400 | `POST` over a parsed body, the AI reply and `JSON.parse`; PostOutcome and PostContent state its answers |
| AiAnalysis.PostAsWritten | src/app/api/ai-analysis/route.js:49-400 | the route as written; DoubleEncodedFallback states that it sends the fallback quoted again when nothing parses |
| AiAnalysis.Post | src/app/api/ai-analysis/route.js:49-400 | the route with the corrected recovery; PostContent states that a non-日主特性 request gets content that parses |
| MonthTable.FirstMonthStem | src/lib/baziCalculator.js:178-322 | the 寅 month's stem of every row of the 五虎遁 table is a yang stem (an even index) |
| MonthTable.WuHuDunRule | src/lib/baziCalculator.js:178-322 | every row of the table has 12 entries, and entry k is the stem k places after the row's first stem followed by the branch k + 2 (寅 is the third branch) |
| MonthTable.WuHuDunPairedRows | src/lib/baziCalculator.js:178-322 | stems five apart (甲己, 乙庚, 丙辛, 丁壬, 戊癸) share their row |
| MonthTable.WuHuDun | src/lib/baziCalculator.js:178-322 | the 五虎遁 table of twelve month pillars per year stem; WuHuDunRule states each entry's stem and branch and WuHuDunPairedRows which rows coincide |
| BaziCalculator.WuXingRule | src/lib/baziCalculator.js:42-65 | the element table gives each stem the element of its pair and each branch its traditional element |
| BaziCalculator.YearPillarFallback | src/lib/baziCalculator.js:87-96 | from the year 4 on, the stem and branch count from a 甲子 year with the stem's element; for earlier years that are not a multiple of 10 before 4 the stem and element are undefined |
| BaziCalculator.YearPillarCycle | src/lib/baziCalculator.js:87-96 | the fallback year pillar repeats every sixty years |
| BaziCalculator.YearPillarExample | src/lib/baziCalculator.js:87-96 | 1984 is a 甲子 year of wood |
| BaziCalculator.DayPillarFallback | src/lib/baziCalculator.js:126-142 | from 1900-01-01 (day 0, 甲子) on, the day pillar is the stem and branch of the day count; before it, the stem and element are undefined unless the count is a multiple of 10 |
| BaziCalculator.DayPillarCycle | src/lib/baziCalculator.js:126-142 | the fallback day pillar repeats every sixty days |
| BaziCalculator.Season | src/lib/baziCalculator.js:155-160 | months 3–5 are 春季, 6–8 夏季, 9–11 秋季, and every other month 冬季 |
| BaziCalculator.AnalyzeElementStrength | src/lib/baziCalculator.js:145-167 | the description is 中等強度 exactly for a day element outside the five; the season is the current month's and the advice is the element advice |
| BaziCalculator.GetElementAdvice | src/lib/baziCalculator.js:427-437 | the general advice is given exactly for an element outside the five |
| BaziCalculator.GetPersonalityAnalysis | src/lib/baziCalculator.js:440-450 | the placeholder sketch is given exactly for an element outside the five |
| BaziCalculator.MonthIndex | src/lib/baziCalculator.js:324 | for months from −9 on the index is (month + 9) mod 12 and lies in 0..11; below that the JavaScript remainder is not positive |
| BaziCalculator.MonthEntry | src/lib/baziCalculator.js:327-340 | an entry found in the table holds at least a stem and a branch |
| BaziCalculator.GetMonthPillar | src/lib/baziCalculator.js:170-358 | whichever path is taken, the pillar's element is the element of its stem |
| BaziCalculator.EntryPillar | src/lib/baziCalculator.js:344-352 | the pillar is the entry's first character as stem and second as branch, with the stem's element |
| BaziCalculator.MonthPillarByTable | src/lib/baziCalculator.js:170-352 | for a valid year stem and a month 1–12 the table path is taken and gives the stem (first stem + k) mod 10 and the branch k + 2, with k the month index |
| BaziCalculator.ValidMonth | src/lib/baziCalculator.js:364 | the clamped month lies in 1..12 and equals the month when that already does |
| BaziCalculator.SwitchFirstStem | src/lib/baziCalculator.js:375-398 | the switch gives a stem index below 10, and 丙 (2) when the year stem is undefined |
| BaziCalculator.SwitchFirstStemRule | src/lib/baziCalculator.js:178-398 | the switch agrees with the table's first month stem for every stem |
| BaziCalculator.MonthPillarFallbackAsWritten | src/lib/baziCalculator.js:360-411 | the fallback as written gives a pillar whose text is its stem and branch and whose element is its stem's |
| BaziCalculator.MonthPillarFallback | src/lib/baziCalculator.js:360-411 | the corrected fallback gives a pillar whose text is its stem and branch and whose element is its stem's |
| BaziCalculator.WrittenFallbackPillar | src/lib/baziCalculator.js:367-404 | as written, for a year from 4 on and a month 1–12, the stem follows the 五虎遁 rule but the branch is the month index itself |
| BaziCalculator.CorrectedFallbackPillar | src/lib/baziCalculator.js:367-404 | corrected, the branch is the month index + 2, the very pillar the table path gives |
| BaziCalculator.FallbackBranchDisagrees | src/lib/baziCalculator.js:401-404 | as written, the fallback keeps the corrected stem and misses its branch for every month |
| BaziCalculator.FallbackJanuaryExample | src/lib/baziCalculator.js:401-404 | January 1984: the corrected fallback, like the table, gives 丙子; the fallback as written gives 丙戌 |
| BaziCalculator.WuXing | src/lib/baziCalculator.js:42-65 | the `wuXing` table; WuXingRule states each stem's and branch's element |
| BaziCalculator.CyclePillar | src/lib/baziCalculator.js:87-142 | the pillar at JavaScript remainders of a count, shared by the year and day fallbacks; YearPillarFallback and DayPillarFallback state what it gives from the start of each count |
| BaziCalculator.StrongText | src/lib/baziCalculator.js:145-167 | the strength texts of `analyzeElementStrength`; AnalyzeElementStrength states when 中等強度 is given instead |
| BaziCalculator.TablePillar | src/lib/baziCalculator.js:344-352 | the month pillar built from a table entry's two characters; EntryPillar states its stem, branch and element |
| BaziChartData.KeySlot | src/lib/baziChartData.js:143-190 | an element name has its own slot among the five counts, and any other string has none |
| BaziChartData.RoundPercentNearest | src/lib/baziChartData.js:207 | the rounded percentage is within one half of count/total × 100, ties rounding up, and never above 100 |
| BaziChartData.AddWeighted | src/lib/baziChartData.js:159-177 | adding the weight for every entry that names an element raises each element's count by the weight times its occurrences and leaves the five slots |
| BaziChartData.CalculateElementDistribution | src/lib/baziChartData.js:142-217 | each element's count is 3 per stem, 2 per branch and 1 per hidden stem naming it; the total is the sum of the five counts; each percentage is the rounded share of the total, or 0 when the total is 0 |
| BaziChartData.TotalIsWeightedSum | src/lib/baziChartData.js:152-201 | the total is 3 per recognised stem, 2 per recognised branch and 1 per recognised hidden stem, whatever their elements |
| BaziChartData.OccurrencesPartition | src/lib/baziChartData.js:159-177 | every recognised entry is counted under exactly one element |
| BaziChartData.GetYinYang | src/lib/baziChartData.js:220-223 | 陽 exactly for the five yang stems, 陰 for anything else |
| BaziChartData.YinYangRule | src/lib/baziChartData.js:220-223 | 陽 exactly for the stems at even places of the stem cycle; non-stems are 陰 |
| BaziChartData.YinYangOfStem | src/lib/baziChartData.js:220-223 | the i-th stem is 陽 for even i and 陰 for odd i |
| BaziChartData.PersonalityAgrees | src/lib/baziChartData.js:228-323 | each stem's personality card carries the element of its stem pair, the polarity getYinYang gives and a real title |
| BaziChartData.PersonalityFallback | src/lib/baziChartData.js:314-322 | any other day stem gets the 待探索 card with the given element and 陰 |
| BaziChartData.CycleIndex | src/lib/baziChartData.js:501-503 | the position of an element in 木火土金水, −1 for anything else |
| BaziChartData.StemInfoRule | src/lib/baziChartData.js:471-485 | the stem table gives each stem the element of its pair and yang at even places |
| BaziChartData.TenGodManualRule | src/lib/baziChartData.js:469-526 | for all hundred pairs of stems, the table-driven ten god equals the rule by element distance and polarity |
| BaziChartData.TenGodTotal | src/lib/baziChartData.js:469-526 | two valid stems never give "-", and a stem is 比肩 to the day master exactly when it is the day master |
| BaziChartData.TenGodUnknown | src/lib/baziChartData.js:484-489 | an unknown stem on either side gives "-" |
| BaziChartData.CalculateTenGod | src/lib/baziChartData.js:457-463 | "-" when either stem is missing or empty, the table's ten god otherwise |
| BaziChartData.ThreeRows | src/lib/baziChartData.js:420-431 | there are three rows and row i holds the i-th item when there is one |
| BaziChartData.FillThreeRows | src/lib/baziChartData.js:421-431 | the forEach that pushes item i into row i for i below 3 fills the three rows, each with at most one item |
| BaziChartData.FormatHiddenStems | src/lib/baziChartData.js:420-431 | three rows of hidden-stem labels; a missing list gives three empty rows and extra hidden stems are ignored |
| BaziChartData.GetHiddenStemTenGods | src/lib/baziChartData.js:438-450 | three rows of ten gods against the day master; a missing list gives three empty rows |
| BaziChartData.TenGodCellsNamed | src/lib/baziChartData.js:438-526 | with a valid day master every filled cell of a valid hidden stem is a ten god, never "-" |
| BaziChartData.GetDetailedChartData | src/lib/baziChartData.js:351-417 | the grid has four columns in every row, the star-luck, day-seat and empty-void rows are all "-", and the relationship notes are passed through |
| BaziChartData.DetailedChartColumn | src/lib/baziChartData.js:351-417 | column i of every row comes from pillar i (year, month, day, hour); hidden-stem gods are taken against the day stem; a missing or empty nayin shows "-" |
| BaziChartData.Weighted | src/lib/baziChartData.js:142-201 | the weighted count of one element; CalculateElementDistribution states that each count is 3 per stem, 2 per branch and 1 per hidden stem naming it |
| BaziChartData.RoundPercent | src/lib/baziChartData.js:207 | `Math.round(count / total * 100)` in exact arithmetic; RoundPercentNearest states that it is the nearest integer with halves up |
| BaziChartData.GetDayMasterPersonality | src/lib/baziChartData.js:228-323 | the personality card of a day stem; PersonalityAgrees states each stem's element and PersonalityFallback the card for any other stem |
| BaziChartData.StemInfo | src/lib/baziChartData.js:471-485 | the element and polarity table of `calculateTenGodManual`; StemInfoRule states the element of each stem pair and yang at even places |
| BaziChartData.TenGodName | src/lib/baziChartData.js:506-525 | the god for a generating-order distance 1 to 4 and equal or opposite polarity; TenGodManualRule states that the table-driven god follows it |
| BaziChartData.CalculateTenGodManual | src/lib/baziChartData.js:469-526 | `calculateTenGodManual`; TenGodManualRule states its result for all hundred pairs of stems, TenGodTotal and TenGodUnknown when it gives "-" |
| BaziChartData.HiddenLabels | src/lib/baziChartData.js:420-431 | the stem-and-element labels of a hidden-stem list; FormatHiddenStems states the three rows made from them |
| BaziChartData.TenGodLabels | src/lib/baziChartData.js:438-450 | each hidden stem's god against the day master; GetHiddenStemTenGods and TenGodCellsNamed state the rows made from them |
| BaziChartData.OrDash | src/lib/baziChartData.js:351-417 | `value` or else "-"; GetDetailedChartData states which grid rows are all "-" |
| BaziDetailedChart.ZodiacAnimal | src/components/BaziDetailedChart.jsx:35-63 | the year's animal is always one of the twelve, and the i-th branch gets the i-th animal |
| BaziDetailedChart.GetElementColor | src/components/BaziDetailedChart.jsx:480-489 | grey (#6b7280) exactly for a missing element or anything outside the five |
| BaziDetailedChart.ElementColorsDistinct | src/components/BaziDetailedChart.jsx:480-489 | the five elements get five different colours |
| BaziDetailedChart.CardOf | src/components/BaziDetailedChart.jsx:157-178 | a missing pillar shows "-" three times; a non-empty stem or branch is shown as it is |
| BaziDetailedChart.HiddenCell | src/components/BaziDetailedChart.jsx:258-286 | corrected, an empty hidden-stem row shows "-" in #999 |
| BaziDetailedChart.HiddenCells | src/components/BaziDetailedChart.jsx:258-286 | each pillar has three hidden-stem cells |
| BaziDetailedChart.HiddenCellsAsWrittenGrey | src/components/BaziDetailedChart.jsx:263-282 | as written, every hidden-stem cell is grey and a row without a hidden stem shows nothing, because each cell indexes a one-label row rather than the label |
| BaziDetailedChart.HiddenCellsByElement | src/components/BaziDetailedChart.jsx:263-282 | corrected, a valid hidden stem shows itself in its element's colour, and a row without one shows "-" in #999 |
| BaziDetailedChart.HiddenCellCounterexample | src/components/BaziDetailedChart.jsx:263-282 | the hidden stem 甲木 in the first row: "甲木" in grey as written, "甲" in green as intended |
| BaziDetailedChart.TenGodCell | src/components/BaziDetailedChart.jsx:290-308 | a hidden ten-god cell shows its row's gods joined by spaces; an empty row is truthy and shows the empty text |
| BaziDetailedChart.StemPairKeyUnordered | src/components/BaziDetailedChart.jsx:345-356 | two stem findings count as repeats exactly when they join the same two stems in either order |
| BaziDetailedChart.BranchPairKeyUnordered | src/components/BaziDetailedChart.jsx:384-396 | two branch findings count as repeats exactly when they join the same two branches in either order under the same relationship |
| BaziDetailedChart.StemItems | src/components/BaziDetailedChart.jsx:363-372 | one item per kept stem finding: both stems, then the type, the relationship or 合 |
| BaziDetailedChart.BranchItems | src/components/BaziDetailedChart.jsx:404-411 | one item per kept branch finding: both branches, then the relationship |
| BaziDetailedChart.HarmonyItems | src/components/BaziDetailedChart.jsx:426-440 | one item per three-harmony finding: its branches joined, then its type or "" |
| BaziDetailedChart.Line | src/components/BaziDetailedChart.jsx:357-377 | a feature line is shown exactly when it has items |
| BaziDetailedChart.ChartFeatures | src/components/BaziDetailedChart.jsx:341-458 | stem findings are shown without repeated pairs, branch findings without repeated pair and relationship, every three-harmony finding as it is, and the fallback exactly when both pair lists are missing or empty |
| BaziDetailedChart.FallbackIffNoPairLines | src/components/BaziDetailedChart.jsx:341-458 | the fallback is shown exactly when neither a stem line nor a branch line is, even beside a three-harmony line |
| BaziDetailedChart.HiddenCellAsWritten | src/components/BaziDetailedChart.jsx:263-282 | a hidden-stem cell as written; HiddenCellsAsWrittenGrey states that every such cell is grey and an empty row shows nothing |
| BaziDetailedChart.StemPairKey | src/components/BaziDetailedChart.jsx:345-356 | the sorted-pair key of a stem finding; StemPairKeyUnordered states that two findings share it exactly when they join the same two stems |
| BaziDetailedChart.BranchPairKey | src/components/BaziDetailedChart.jsx:384-396 | the sorted-pair key of a branch finding with its relationship; BranchPairKeyUnordered states when two findings share it |
| BaziDetailedChart.StemLabel | src/components/BaziDetailedChart.jsx:367-369 | `rel.type` or else `rel.relationship` or else 合; StemItems states that each kept stem finding's item ends with it |
| BaziPersonalityAnalysis.ElementColor | src/components/BaziPersonalityAnalysis.jsx:15-21 | a colour exactly for the five elements |
| BaziPersonalityAnalysis.CharacterImage | src/components/BaziPersonalityAnalysis.jsx:27-40 | an illustration exactly for the ten stems; any other day master gets the drawn placeholder |
| BaziPersonalityAnalysis.ImageFileNamesStem | src/components/BaziPersonalityAnalysis.jsx:27-38 | each stem's file is named by the stem and its element, with a .png or .PNG suffix |
| BaziPersonalityAnalysis.Classify | src/components/BaziPersonalityAnalysis.jsx:163-181 | 缺失 exactly at 0%, 過旺 exactly from 30%, 適中 exactly from 15% to below 30%, 偏弱 otherwise and for a missing percentage; the advice names the element |
| BaziPersonalityAnalysis.ShownLabels | src/components/BaziPersonalityAnalysis.jsx:183-216 | every 缺失 and 過旺 card is shown, 適中 only from 25%, 偏弱 only at 10% or less, and nothing for a missing percentage |
| BaziPersonalityAnalysis.Percentage | src/components/BaziPersonalityAnalysis.jsx:164-165 | a percentage exactly for an element the distribution holds |
| BaziPersonalityAnalysis.CardsExactlyShown | src/components/BaziPersonalityAnalysis.jsx:163-216 | every card belongs to a listed element whose percentage is shown and carries its classification and colour, and every such element has a card |
| BaziPersonalityAnalysis.StrengthCardsColored | src/components/BaziPersonalityAnalysis.jsx:24-216 | at most five cards, in 金木水火土 order, each coloured by its element |
| BaziPersonalityAnalysis.Shown | src/components/BaziPersonalityAnalysis.jsx:183-216 | whether a strength card renders; ShownLabels states which classifications are shown |
| BaziPersonalityAnalysis.Cards | src/components/BaziPersonalityAnalysis.jsx:163-216 | the cards for a list of elements, skipping those that render nothing; CardsExactlyShown states which cards appear and what they carry |
| BaziPersonalityAnalysis.StrengthCards | src/components/BaziPersonalityAnalysis.jsx:24-216 | the strength section over 金木水火土; StrengthCardsColored states its order, length and colours |
| BaziRelationshipDiagram.AnimalOrdinal | src/components/BaziRelationshipDiagram.jsx:31-44 | the place of an animal character among the twelve, −1 for any other character |
| BaziRelationshipDiagram.ZodiacLookup | src/components/BaziRelationshipDiagram.jsx:31-47 | whatever the zodiac table finds is one of the twelve animals |
| BaziRelationshipDiagram.ZodiacAnimal | src/components/BaziRelationshipDiagram.jsx:46-47 | the year's animal is always one of the twelve |
| BaziRelationshipDiagram.ZodiacOfBranch | src/components/BaziRelationshipDiagram.jsx:31-47 | each branch, and its animal character, names the animal of that branch |
| BaziRelationshipDiagram.ZodiacDefault | src/components/BaziRelationshipDiagram.jsx:46-47 | a missing or empty year branch, and any value the table does not list, gives the rat |
| BaziRelationshipDiagram.ZodiacImage | src/components/BaziRelationshipDiagram.jsx:104 | the header image lies under /images/animals/ and is a .png |
| BaziRelationshipDiagram.ElementFromStem | src/components/BaziRelationshipDiagram.jsx:59-68 | the element of a stem is always one of the five, 土 for a non-stem |
| BaziRelationshipDiagram.PillarColorOfStem | src/components/BaziRelationshipDiagram.jsx:50-133 | a stem is drawn in its element's colour, and any other value in 土's colour |
| BaziRelationshipDiagram.PillarColorsByElement | src/components/BaziRelationshipDiagram.jsx:50-133 | two stems share a colour exactly when they share an element |
| BaziRelationshipDiagram.FormatPillars | src/components/BaziRelationshipDiagram.jsx:15-29 | four pillars in year, month, day, hour order, each with its label, its stem and branch, the two joined, and its stem's colour |
| BaziRelationshipDiagram.StemKeyUnordered | src/components/BaziRelationshipDiagram.jsx:75 | two stem findings count as repeats exactly when they join the same two stems, in either order, with the same type |
| BaziRelationshipDiagram.BranchKeyUnordered | src/components/BaziRelationshipDiagram.jsx:86 | two branch findings count as repeats exactly when they join the same two branches, in either order, with the same type |
| BaziRelationshipDiagram.UniqueStemCombinations | src/components/BaziRelationshipDiagram.jsx:71-80 | nothing when the list is missing, otherwise the first finding of each stem pair and type, in list order |
| BaziRelationshipDiagram.UniqueBranchRelationships | src/components/BaziRelationshipDiagram.jsx:82-91 | nothing when the list is missing, otherwise the first finding of each branch pair and type, in list order |
| BaziRelationshipDiagram.EmptyStateIffNothingFound | src/components/BaziRelationshipDiagram.jsx:302-309 | the empty-state notice shows exactly when the chart holds no stem, branch or three-harmony finding at all, since removing repeats never empties a list |
| BaziRelationshipDiagram.Badge | src/components/BaziRelationshipDiagram.jsx:214 | a hidden combination's badge is 暗 before its type, any other badge is the type |
| BaziRelationshipDiagram.Summary | src/components/BaziRelationshipDiagram.jsx:315-322 | the summary box shows exactly when there are notes |
| BaziRelationshipDiagram.SummarySplits | src/components/BaziRelationshipDiagram.jsx:319 | notes without a "；" of their own can be read back from the summary line |
| BaziRelationshipDiagram.ElementColor | src/components/BaziRelationshipDiagram.jsx:50-56 | the tab's `elementColors`; PillarColorsByElement states that different elements get different colours |
| BaziRelationshipDiagram.PillarColor | src/components/BaziRelationshipDiagram.jsx:132-133 | the colour of a stem through its element; PillarColorOfStem states it for stems and other values |
| BaziRelationshipDiagram.StemKey | src/components/BaziRelationshipDiagram.jsx:75 | the sorted-pair key of a stem finding with its type; StemKeyUnordered states when two findings share it |
| BaziRelationshipDiagram.BranchKey | src/components/BaziRelationshipDiagram.jsx:86 | the sorted-pair key of a branch finding with its type; BranchKeyUnordered states when two findings share it |
| BaziRelationshipDiagram.EmptyState | src/components/BaziRelationshipDiagram.jsx:302-309 | whether the empty-state notice shows; EmptyStateIffNothingFound states exactly when it shows |
| Dedup.StringLessTotal | src/components/BaziRelationshipDiagram.jsx:75 | the default sort order of strings is strict and total: of two different strings exactly one comes first |
| Dedup.SortedPairSymmetric | src/components/BaziRelationshipDiagram.jsx:75-86 | the sorted pair does not depend on the order of its two strings and holds both |
| Dedup.PairKeyUnordered | src/components/BaziRelationshipDiagram.jsx:75-86 | for one-character strings, two sorted-pair keys followed by labels agree exactly when the pairs and the labels agree |
| Dedup.FilterUnseen | src/components/BaziRelationshipDiagram.jsx:73-79 | the filter with a seen set keeps the first entry of each key, in list order |
| Dedup.FirstsKeys | src/components/BaziRelationshipDiagram.jsx:73-79 | the kept entries carry exactly the keys of the list |
| Dedup.FirstsDistinct | src/components/BaziRelationshipDiagram.jsx:73-79 | no two kept entries share a key |
| Dedup.FirstsNonEmpty | src/components/BaziRelationshipDiagram.jsx:73-79 | a non-empty list keeps at least its first entry |
| Dedup.FirstsEmpty | src/components/BaziRelationshipDiagram.jsx:73-79 | the filtered list is empty exactly when the list is |
| Dedup.StringLess | src/components/BaziRelationshipDiagram.jsx:75 | the default sort's string order, character by character with a proper prefix first; StringLessTotal states that it is strict and total |
| Dedup.SortedPair | src/components/BaziRelationshipDiagram.jsx:75-86 | `[a, b].sort().join("")`; SortedPairSymmetric states that it ignores the order of the two strings and PairKeyUnordered when two keys agree |
| Dedup.Firsts | src/components/BaziRelationshipDiagram.jsx:73-79 | the entries that are the first with their key, in list order; FilterUnseen states that the filter keeps exactly these, FirstsKeys, FirstsDistinct, FirstsNonEmpty and FirstsEmpty what they are |
| Dedup.Keys | src/components/BaziRelationshipDiagram.jsx:73-79 | the keys of the first n entries; FirstsKeys states that the kept entries carry exactly these |
| BaziRelationships.StemTableRule | src/lib/baziRelationships.js:9-20 | two stems combine exactly when their places are five apart, and the combination transforms into the element two steps after the lower stem's element |
| BaziRelationships.StemTableNames | src/lib/baziRelationships.js:9-20 | every stem combination is named 合化 followed by the element it transforms into |
| BaziRelationships.ClashTableRule | src/lib/baziRelationships.js:83-96 | two branches clash exactly when they are six apart |
| BaziRelationships.SixTableRule | src/lib/baziRelationships.js:23-36 | six-harmony pairs are the branches whose places add up to 1 modulo 12 |
| BaziRelationships.HarmTableRule | src/lib/baziRelationships.js:137-150 | harm pairs are the branches whose places add up to 7 modulo 12 |
| BaziRelationships.HalfTableRule | src/lib/baziRelationships.js:55-80 | half-harmony pairs are two different branches of one three-harmony group, the groups being the residues modulo 4 |
| BaziRelationships.DestructionTableRule | src/lib/baziRelationships.js:121-134 | a destruction pairs each yang branch with the branch three places before it |
| BaziRelationships.PunishmentTableRule | src/lib/baziRelationships.js:99-118 | punishments are any two of 寅巳申, any two of 丑未戌, 子 with 卯, and 辰, 午, 酉, 亥 each with itself; a branch with itself is 自刑 and any other pair 相刑 |
| BaziRelationships.StemTableSymmetric | src/lib/baziRelationships.js:9-20 | the stem table lists both orders of every pair with the same entry |
| BaziRelationships.HarmonyTablesSymmetric | src/lib/baziRelationships.js:23-80 | the six-harmony and half-harmony tables list both orders of every pair with the same entry |
| BaziRelationships.ConflictTablesSymmetric | src/lib/baziRelationships.js:83-118 | the clash and punishment tables list both orders of every pair with the same entry |
| BaziRelationships.DamageTablesSymmetric | src/lib/baziRelationships.js:121-150 | the destruction and harm tables list both orders of every pair with the same entry |
| BaziRelationships.AnalyzeStemCombination | src/lib/baziRelationships.js:164-167 | an entry is found only for a two-character key, and for two one-character stems it is the table's entry for the pair |
| BaziRelationships.StemCombinationSymmetric | src/lib/baziRelationships.js:164-167 | swapping the two stems gives the same answer, for all strings |
| BaziRelationships.StemCombinationRule | src/lib/baziRelationships.js:9-167 | two stems combine exactly when they are five apart |
| BaziRelationships.BranchRelation | src/lib/baziRelationships.js:176-210 | there is no relation exactly when none of the six tables lists the pair |
| BaziRelationships.AnalyzeBranchRelationship | src/lib/baziRelationships.js:176-210 | a relation is found only for a two-character key, and for two one-character branches it is the first listed category |
| BaziRelationships.BranchRelationshipSymmetric | src/lib/baziRelationships.js:176-210 | swapping the two branches gives the same relation, for all strings |
| BaziRelationships.BranchRelationRule | src/lib/baziRelationships.js:176-210 | each category against its rule in priority order: a pair in several tables is reported under the first of six-harmony, half-harmony, clash, punishment, destruction and harm |
| BaziRelationships.PriorityExamples | src/lib/baziRelationships.js:176-210 | 寅亥 is a destruction reported as a six-harmony; 寅申 is a punishment reported as a clash; 午未 is a six-harmony of type 合化土 |
| BaziRelationships.FirstHit | src/lib/baziRelationships.js:227-233 | the loop finds an entry exactly when some key has one, and then the entry of the first such key |
| BaziRelationships.ThreeTableRotation | src/lib/baziRelationships.js:39-52 | the three-harmony table is closed under rotation of its keys |
| BaziRelationships.ThreeTableNoReflection | src/lib/baziRelationships.js:39-52 | no reflection of a listed key is listed |
| BaziRelationships.ThreeHarmonyOfChars | src/lib/baziRelationships.js:219-233 | for one-character branches the six tries reduce to a key and its reflection |
| BaziRelationships.ThreeHarmonyPermutation | src/lib/baziRelationships.js:219-233 | the order of the three branches does not change the answer |
| BaziRelationships.ThreeTableSound | src/lib/baziRelationships.js:39-52 | every listed key is three different branches of one group, the groups being the residues modulo 4 |
| BaziRelationships.ThreeTableComplete | src/lib/baziRelationships.js:39-52 | of three different branches of one group, some order or its reflection is listed |
| BaziRelationships.ThreeHarmonyRule | src/lib/baziRelationships.js:39-233 | three branches form a three-harmony exactly when they are three different members of one group, whatever their order |
| BaziRelationships.FourPairs | src/lib/baziRelationships.js:276-295 | over four pillars the two nested loops visit exactly the six pairs, in this order |
| BaziRelationships.FourTriples | src/lib/baziRelationships.js:314-316 | over four pillars the three nested loops visit exactly the four triples, in this order |
| BaziRelationships.StemFindingAt | src/lib/baziRelationships.js:276-291 | a finding exists only for two pillars that are present |
| BaziRelationships.CollectPairs | src/lib/baziRelationships.js:276-291 | the nested loops push what is found for each pair i < j, in loop order |
| BaziRelationships.CollectTriples | src/lib/baziRelationships.js:314-336 | the nested loops push what is found for each triple i < j < k, in loop order |
| BaziRelationships.CollectTriplesFrom | src/lib/baziRelationships.js:315-335 | the middle loop for a fixed first index appends exactly the findings for every j and k after it, in loop order |
| BaziRelationships.CollectTriplesTo | src/lib/baziRelationships.js:316-334 | the innermost loop appends exactly the findings for every k after j, in loop order |
| BaziRelationships.StemCombinations | src/lib/baziRelationships.js:276-291 | the stem loops give the findings of the six stem pairs in loop order |
| BaziRelationships.BranchRelationships | src/lib/baziRelationships.js:294-311 | the branch loops give the findings of the six branch pairs in loop order |
| BaziRelationships.ThreeHarmonies | src/lib/baziRelationships.js:314-336 | the triple loops give the findings of the four branch triples in loop order |
| BaziRelationships.AnalyzeAllRelationships | src/lib/baziRelationships.js:242-341 | the result holds every stem pair's, branch pair's and branch triple's finding in loop order, and the notes describing them |
| BaziRelationships.Notes | src/lib/baziRelationships.js:348-374 | one note per stem combination, then one per branch relation, then one per three-harmony, in order |
| BaziRelationships.GenerateRelationshipNotes | src/lib/baziRelationships.js:348-374 | the three forEach loops build exactly that list of notes |
| BaziRelationships.HiddenMeansNotAdjacent | src/lib/baziRelationships.js:276-291 | a stem combination is hidden exactly when its pillars are not adjacent, and adjacent exactly when the second pillar follows the first |
| BaziRelationships.ColorLookup | src/lib/baziRelationships.js:381-399 | the colour listed for a type, or grey #8c8c8c when it is not listed |
| BaziRelationships.GetRelationshipColor | src/lib/baziRelationships.js:381-399 | a listed type gets its own colour, never grey; every other type gets grey |
| BaziRelationships.StemTable | src/lib/baziRelationships.js:9-20 | the 天干合化 table; StemTableRule states that exactly the stems five apart combine and StemTableNames how each combination is named |
| BaziRelationships.SixTable | src/lib/baziRelationships.js:23-36 | the 地支六合 table; SixTableRule states that it lists the branches whose places add up to 1 modulo 12 |
| BaziRelationships.HalfTable | src/lib/baziRelationships.js:55-80 | the 地支半合 table; HalfTableRule states that it lists two different branches of one three-harmony group |
| BaziRelationships.ClashTable | src/lib/baziRelationships.js:83-96 | the 地支相沖 table; ClashTableRule states that it lists the branches six apart |
| BaziRelationships.PunishmentTable | src/lib/baziRelationships.js:99-118 | the 地支相刑 table; PunishmentTableRule states the pairs it lists |
| BaziRelationships.DestructionTable | src/lib/baziRelationships.js:121-134 | the 地支相破 table; DestructionTableRule states the pairs it lists |
| BaziRelationships.HarmTable | src/lib/baziRelationships.js:137-150 | the 地支相害 table; HarmTableRule states that it lists the branches whose places add up to 7 modulo 12 |
| BaziRelationships.ThreeTable | src/lib/baziRelationships.js:39-52 | the 地支三合 table; ThreeTableSound, ThreeTableComplete and ThreeTableRotation state which keys it lists |
| BaziRelationships.ThreeLookup | src/lib/baziRelationships.js:228-229 | `BRANCH_THREE_HARMONIES[key]` for one key; FirstHit states what the loop over the six keys finds |
| BaziRelationships.CheckThreeHarmony | src/lib/baziRelationships.js:219-233 | `checkThreeHarmony`; ThreeHarmonyRule states that it finds a harmony exactly for three different branches of one group, in any order |
| BaziRelationships.BranchFindingAt | src/lib/baziRelationships.js:294-311 | the finding pushed for branches i and j; BranchRelationships states the list the branch loops build from it |
| BaziRelationships.HarmonyFindingAt | src/lib/baziRelationships.js:314-336 | the finding pushed for branches i, j and k; ThreeHarmonies states the list the triple loops build from it |
| BaziRelationships.StemNote | src/lib/baziRelationships.js:352-360 | the note of one stem combination; Notes and GenerateRelationshipNotes state the list of notes built from it |
| BaziRelationships.BranchNote | src/lib/baziRelationships.js:363-366 | the note of one branch relation; Notes and GenerateRelationshipNotes state the list of notes built from it |
| BaziRelationships.HarmonyNote | src/lib/baziRelationships.js:369-371 | the note of one three-harmony; Notes and GenerateRelationshipNotes state the list of notes built from it |
| ChartDiagnosis.KeptLineShape | src/app/api/chart-diagnosis/route.js:101-161 | a kept line is at least 15 characters once trimmed, opens with no `**`, `#` or `---` marker nor digits-dot-stars, and holds no disclaimer and no section word |
| ChartDiagnosis.PlainLineKept | src/app/api/chart-diagnosis/route.js:101-161 | conversely, every line of at least 15 characters once trimmed that opens with a character other than a digit, `*`, `#`, `-` or `+` and holds none of the dropped words is kept |
| ChartDiagnosis.RunOutside | src/app/api/chart-diagnosis/route.js:373 | the `[^：\n]+` of the title pattern takes exactly the leading run of characters outside its excluded set |
| ChartDiagnosis.TitleFrom | src/app/api/chart-diagnosis/route.js:373-377 | a title found is a non-empty run of allowed characters that follows the prefix in the line; there is none exactly when no occurrence of the prefix is followed by an allowed character |
| ChartDiagnosis.Store | src/app/api/chart-diagnosis/route.js:362-367 | saving replaces the content of one section and leaves the other contents and both titles alone |
| ChartDiagnosis.Flush | src/app/api/chart-diagnosis/route.js:361-368 | saving the buffer never changes a title |
| ChartDiagnosis.ReadLine | src/app/api/chart-diagnosis/route.js:352-446 | one pass of the loop body leaves the reader in the state the step specification gives |
| ChartDiagnosis.ReadLines | src/app/api/chart-diagnosis/route.js:348-447 | the loop over the trimmed non-blank lines gives the state of the run specification |
| ChartDiagnosis.ParseChartDiagnosis | src/app/api/chart-diagnosis/route.js:327-480 | the parser gives the sections of the parse specification |
| ChartDiagnosis.NextSectionRule | src/app/api/chart-diagnosis/route.js:356-424 | the woman's section opens on her header, or on her word while no section is open; the man's on his header, or on his word inside hers; the key signs on any of their headers; any other line keeps the current section |
| ChartDiagnosis.HeaderFlushes | src/app/api/chart-diagnosis/route.js:356-424 | a header line saves the buffer, joined with single spaces, as the content of the section it closes when that section has lines, leaves every other content alone, and starts an empty buffer |
| ChartDiagnosis.TitleLineRule | src/app/api/chart-diagnosis/route.js:425-437 | a title line inside the woman's or man's section sets that section's title to the rest of the line trimmed, and changes nothing else |
| ChartDiagnosis.RunConsistent | src/app/api/chart-diagnosis/route.js:352-447 | throughout the loop the reader's state stays consistent: a buffer is only held while a section is open |
| ChartDiagnosis.ParseFills | src/app/api/chart-diagnosis/route.js:449-479 | once an answer string is parsed every section has content, its collected lines or its fallback text; an answer that is not a string leaves the default titles and empty contents |
| ChartDiagnosis.FallbacksFill | src/app/api/chart-diagnosis/route.js:458-473 | after the fallbacks every section has content |
| ChartDiagnosis.FallbackTextsPresent | src/app/api/chart-diagnosis/route.js:458-473 | the fallback texts, as written and in plain Chinese, are never empty in either script |
| ChartDiagnosis.StepKeepsTitles | src/app/api/chart-diagnosis/route.js:425-437 | a line without the title prefix leaves both titles alone |
| ChartDiagnosis.RunKeepsTitles | src/app/api/chart-diagnosis/route.js:352-447 | while no line holds the title prefix, both titles stay as they were |
| ChartDiagnosis.DefaultTitlesKept | src/app/api/chart-diagnosis/route.js:334-437 | without the title prefix anywhere in the answer both titles stay the default built from the day master, the month branch and the month word |
| ChartDiagnosis.RunStaysClosed | src/app/api/chart-diagnosis/route.js:352-447 | while no line holds a header, no section opens and the state does not change |
| ChartDiagnosis.LineLacks | src/app/api/chart-diagnosis/route.js:348 | a text without a character has no line holding it |
| ChartDiagnosis.HeadersNeverMatch | src/app/api/chart-diagnosis/route.js:327-480 | an answer without the characters the header words open with leaves every section closed: the titles keep their defaults and every content is its fallback |
| ChartDiagnosis.WrittenHeadersStart | src/app/api/chart-diagnosis/route.js:356-410 | the route's header words all open with å, ç or é |
| ChartDiagnosis.WrittenHeadersNeverMatch | src/app/api/chart-diagnosis/route.js:327-480 | as written, an answer without å, ç and é, such as any answer in Chinese characters, gets the default titles and every fallback text |
| ChartDiagnosis.HeaderCollects | src/app/api/chart-diagnosis/route.js:356-446 | a line holding the woman's header opens her section, and a kept line after it holding no header or title goes into her buffer |
| ChartDiagnosis.ParseFemaleBuffer | src/app/api/chart-diagnosis/route.js:449-456 | an answer whose lines leave her section open with one line buffered gives her that line as content |
| ChartDiagnosis.IntendedWords | src/app/api/chart-diagnosis/route.js:356-377 | in plain Chinese the woman's header word is 女方分析 and the title prefix is 命局： |
| ChartDiagnosis.HeaderThenLine | src/app/api/chart-diagnosis/route.js:327-480 | a header line followed by a body line gives the woman that line as content |
| ChartDiagnosis.IntendedHeaderCollects | src/app/api/chart-diagnosis/route.js:327-480 | with the words in plain Chinese, an answer of a line holding 女方分析 and then a body line gives the woman that line as content |
| ChartDiagnosis.PostOutcome | src/app/api/chart-diagnosis/route.js:167-324 | a missing birth date of either partner is refused; a body that is not JSON or a failed AI call gives the fixed error sections; otherwise every section of a string answer has content |
| ChartDiagnosis.ShouldIncludeLine | src/app/api/chart-diagnosis/route.js:101-161 | `shouldIncludeLine`; KeptLineShape states what a kept line looks like and PlainLineKept which lines are kept |
| ChartDiagnosis.TitleMatch | src/app/api/chart-diagnosis/route.js:373-377 | the title pattern's capture in a line; TitleFrom states that a title found is a non-empty run of allowed characters after the prefix |
| ChartDiagnosis.DefaultTitle | src/app/api/chart-diagnosis/route.js:334-343 | a chart's title before the answer is read; DefaultTitlesKept states when it survives the parse |
| ChartDiagnosis.Step | src/app/api/chart-diagnosis/route.js:352-446 | one trimmed line of the parse loop; ReadLine computes it, and NextSectionRule, HeaderFlushes and TitleLineRule state what it does |
| ChartDiagnosis.Run | src/app/api/chart-diagnosis/route.js:348-447 | the state after the loop's first lines; ReadLines computes it, and RunConsistent, RunKeepsTitles and RunStaysClosed state what it keeps |
| ChartDiagnosis.WithFallbacks | src/app/api/chart-diagnosis/route.js:458-473 | the fallback texts put into empty sections; FallbacksFill states that every section then has content |
| ChartDiagnosis.Parse | src/app/api/chart-diagnosis/route.js:327-480 | `parseChartDiagnosis`; ParseChartDiagnosis computes it, ParseFills states that every section gets content and WrittenHeadersNeverMatch what it gives as written |
| ChartDiagnosis.ErrorFallback | src/app/api/chart-diagnosis/route.js:309-324 | the fixed sections of `POST`'s `catch`; PostOutcome states that an unreadable body or a failed AI call gets them |
| ChartDiagnosis.Handle | src/app/api/chart-diagnosis/route.js:167-324 | `POST` over a parsed body, the AI reply and the chart calculation; PostOutcome states its answers |
| ChartDiagnosis.PostAsWritten | src/app/api/chart-diagnosis/route.js:167-480 | the route with its literals as they stand; WrittenHeadersNeverMatch states that a Chinese answer then gets the default titles and every fallback text |
| ChartDiagnosis.Post | src/app/api/chart-diagnosis/route.js:167-480 | the route with its words in plain Chinese; PostOutcome states its answers and IntendedHeaderCollects that a header line then opens the woman's section |
| ChartDiagnosis.ChartFallback | src/app/api/chart-diagnosis/route.js:458-473 | the fallback content of the woman's or man's section; WithFallbacks fills an empty section with it and FallbacksFill states that every section then has content |
| CoreSuggestion.SubsectionButtonColor | src/components/CoreSuggestion.jsx:154-164 | a subsection's button colour is one of the six listed |
| CoreSuggestion.SubsectionColorsCycle | src/components/CoreSuggestion.jsx:154-164 | the colours repeat every six subsections, and six consecutive subsections get six different colours |
| CoreSuggestion.ButtonsByTitle | src/components/CoreSuggestion.jsx:167-198 | a listed category keeps its own two or four buttons, and every other title gets the buttons of 五行調和 |
| CoreSuggestion.Pieces | src/components/CoreSuggestion.jsx:206 | splitting on 。！？ and line breaks gives at least one piece, and no piece holds a separator |
| CoreSuggestion.PiecesInText | src/components/CoreSuggestion.jsx:206 | every piece is a stretch of the text, the first at its start |
| CoreSuggestion.LongPieces | src/components/CoreSuggestion.jsx:207 | the kept pieces are, in order, trimmed pieces longer than ten characters |
| CoreSuggestion.ParseContentToDetails | src/components/CoreSuggestion.jsx:201-212 | at most six details, each a trimmed piece longer than ten characters |
| CoreSuggestion.DetailsShape | src/components/CoreSuggestion.jsx:201-212 | each detail is longer than ten characters, trimmed, free of 。！？ and line breaks, and taken word for word from the text |
| CoreSuggestion.Description | src/components/CoreSuggestion.jsx:116-118 | a text of at most 200 characters is kept whole; a longer one is cut to its first 200 characters followed by "..." |
| CoreSuggestion.IconList | src/components/CoreSuggestion.jsx:127-132 | one icon per category with its title and colour, only the first one active |
| CoreSuggestion.CaptureRun | src/components/CoreSuggestion.jsx:218-221 | the `[^。\n]*` of a motto pattern takes exactly the leading run without 。 or a line break |
| CoreSuggestion.MatchCapture | src/components/CoreSuggestion.jsx:222-228 | there is no capture only when the text holds neither the keyword with a full-width colon nor with an ASCII colon |
| CoreSuggestion.MatchCaptureFound | src/components/CoreSuggestion.jsx:222-228 | a capture follows the keyword and a colon in the text and holds neither 。 nor a line break |
| CoreSuggestion.FallbackMotto | src/components/CoreSuggestion.jsx:231-241 | a concern without its own motto gets the generic sentence |
| CoreSuggestion.MottoIndex | src/components/CoreSuggestion.jsx:222-228 | the first pattern, from a given one on, whose capture is not empty, or −1 when there is none |
| CoreSuggestion.MottoFromText | src/components/CoreSuggestion.jsx:215-229 | a motto taken from the text is the trimmed non-empty capture after one of the keywords and a colon, free of 。 and line breaks |
| CoreSuggestion.MottoFallback | src/components/CoreSuggestion.jsx:215-241 | a text naming none of the three keywords with a colon gets the concern's fallback motto |
| CoreSuggestion.ButtonMapping | src/components/CoreSuggestion.jsx:167-196 | the buttons listed per category title; ButtonsByTitle states that a listed category keeps its own two or four buttons |
| CoreSuggestion.ButtonsForCategory | src/components/CoreSuggestion.jsx:167-198 | a category's buttons, or the 五行調和 buttons for an unlisted title; ButtonsByTitle states which it gives |
| CoreSuggestion.ExtractMotto | src/components/CoreSuggestion.jsx:215-241 | `extractMottoFromContent`; MottoFromText states what a motto taken from the text looks like and MottoFallback when the concern's fallback is used |
| CoupleAnnualAnalysis.HeadingPriority | src/app/api/couple-annual-analysis/route.js:211-230 | a line opens the current-year section iff it names the current year and 年; the next-year section iff it does not and names the next year and 年; the monthly section iff neither and it has a monthly marker |
| CoupleAnnualAnalysis.FoldCollects | src/app/api/couple-annual-analysis/route.js:200-241 | after the classifier loop, the open section is the latest heading's and each accumulated text is exactly the lines owned by that section (headings, or lines over 10 characters after a heading), in order |
| CoupleAnnualAnalysis.ClassifyLines | src/app/api/couple-annual-analysis/route.js:206-241 | the loop's section and three accumulators equal the fold of the per-line step over all lines |
| CoupleAnnualAnalysis.MonthlyFocusRule | src/app/api/couple-annual-analysis/route.js:294-305 | the monthly focus is the trimmed first line naming the year with 月 or 建議, and there is none iff no line matches |
| CoupleAnnualAnalysis.ExtractMonthlyFocus | src/app/api/couple-annual-analysis/route.js:294-305 | the early-returning loop returns the first matching line trimmed, or null |
| CoupleAnnualAnalysis.Score | src/app/api/couple-annual-analysis/route.js:314 | a missing or zero score counts as 75, any other score is kept |
| CoupleAnnualAnalysis.Level | src/app/api/couple-annual-analysis/route.js:315-326 | 優秀 iff the score is at least 80, 良好 iff 70 to 79, 穩定 iff below 70 |
| CoupleAnnualAnalysis.SeasonOf | src/app/api/couple-annual-analysis/route.js:361-368 | winter iff month ≤ 3, spring iff 4-6, summer iff 7-9, autumn iff above 9 or missing |
| CoupleAnnualAnalysis.CombinationKeys | src/app/api/couple-annual-analysis/route.js:384-407 | every key of the element-pair table is two different characters and no key is another key reversed |
| CoupleAnnualAnalysis.ElementYearSymmetric | src/app/api/couple-annual-analysis/route.js:409-413 | the element phrase does not depend on the order of the two elements |
| CoupleAnnualAnalysis.SameElementFallback | src/app/api/couple-annual-analysis/route.js:409-413 | two equal elements always get the fallback phrase |
| CoupleAnnualAnalysis.Keyed | src/app/api/couple-annual-analysis/route.js:244-291 | the result has exactly the two year keys; the next-year entry is always present and the current-year entry survives only when the years differ |
| CoupleAnnualAnalysis.ParseAndStructure | src/app/api/couple-annual-analysis/route.js:189-292 | the parse equals the classifier fold, the two monthly focuses and the basic-analysis defaults |
| CoupleAnnualAnalysis.ParsedRule | src/app/api/couple-annual-analysis/route.js:244-291 | for distinct years the current-year description is the trimmed collected lines when non-empty, the basic analysis otherwise |
| CoupleAnnualAnalysis.EmptyAnswerIsFallback | src/app/api/couple-annual-analysis/route.js:189-292 | an empty answer gives exactly the fallback strategy |
| CoupleAnnualAnalysis.Post | src/app/api/couple-annual-analysis/route.js:9-59 | 400 iff a birthday is missing or empty; a failed AI call gives the fallback strategy; a success always has the two year keys |
| CoupleAnnualAnalysis.Heading | src/app/api/couple-annual-analysis/route.js:211-230 | the section a line opens; HeadingPriority states when a line opens the current-year section |
| CoupleAnnualAnalysis.Lines | src/app/api/couple-annual-analysis/route.js:200-209 | the non-blank lines of the answer, each trimmed; ClassifyLines reads them in order |
| CoupleAnnualAnalysis.Step | src/app/api/couple-annual-analysis/route.js:211-240 | one line of the classifier loop; FoldCollects states what the loop over all lines collects |
| CoupleAnnualAnalysis.Fold | src/app/api/couple-annual-analysis/route.js:206-241 | the classifier's state after the first lines; ClassifyLines computes it and FoldCollects states its section and texts |
| CoupleAnnualAnalysis.MonthlyFocus | src/app/api/couple-annual-analysis/route.js:294-305 | `extractMonthlyFocus`; MonthlyFocusRule states that it is the first matching line trimmed |
| CoupleAnnualAnalysis.Combination | src/app/api/couple-annual-analysis/route.js:384-407 | the element pairs with a set phrase; CombinationKeys states that its keys are pairs of different characters listed in one order only |
| CoupleAnnualAnalysis.ElementYearAnalysis | src/app/api/couple-annual-analysis/route.js:377-414 | `getElementYearAnalysis`; ElementYearSymmetric states that the order of the elements does not matter and SameElementFallback that equal elements get the fallback |
| CoupleAnnualAnalysis.BasicYearAnalysis | src/app/api/couple-annual-analysis/route.js:307-338 | `generateBasicYearAnalysis`; Score and Level state the score and level it names |
| CoupleAnnualAnalysis.BasicMonthlyAdvice | src/app/api/couple-annual-analysis/route.js:340-375 | `generateBasicMonthlyAdvice`; SeasonOf states the season whose advice it gives |
| CoupleAnnualAnalysis.Structured | src/app/api/couple-annual-analysis/route.js:189-292 | `parseAndStructureAIResponse` from the loop's final state; Keyed states its keys |
| CoupleAnnualAnalysis.Parsed | src/app/api/couple-annual-analysis/route.js:189-292 | what the route returns for an answer; ParseAndStructure states how it is built and ParsedRule what the current-year entry holds |
| CoupleAnnualAnalysis.FallbackStrategy | src/app/api/couple-annual-analysis/route.js:416-464 | `generateFallbackAnnualStrategy`; EmptyAnswerIsFallback states that an empty answer gives it and Post that a failed AI call does |
| CoupleAnnualAnalysis.LastHeading | src/app/api/couple-annual-analysis/route.js:206-241 | the section opened by the latest heading; FoldCollects states that the loop's open section is it |
| CoupleAnnualAnalysis.Owner | src/app/api/couple-annual-analysis/route.js:211-240 | the section a line is kept in: its own as a heading, else the latest heading's when longer than 10 characters; FoldCollects states that each text holds exactly its lines |
| CoupleAnnualAnalysis.Collected | src/app/api/couple-annual-analysis/route.js:206-241 | the lines kept in a section, each with a newline; FoldCollects states that the loop's three texts are exactly these |
| CoupleCoreSuggestion.CleanMarkdown | src/components/CoupleCoreSuggestion.jsx:114-122 | an empty text is returned as it is |
| CoupleCoreSuggestion.NoDoubleStarIffAbsent | src/components/CoupleCoreSuggestion.jsx:119-121 | the character-level test for two adjacent stars agrees with "the text contains `**`" |
| CoupleCoreSuggestion.HangingNoDoubleStar | src/components/CoupleCoreSuggestion.jsx:120 | removing every `**` with the whitespace after it leaves no `**` |
| CoupleCoreSuggestion.TrailingIdentity | src/components/CoupleCoreSuggestion.jsx:121 | once no `**` is left, the third replacement changes nothing |
| CoupleCoreSuggestion.CleanMarkdownNoBold | src/components/CoupleCoreSuggestion.jsx:114-122 | the cleaned text never contains `**` |
| CoupleCoreSuggestion.ConvertToTraditional | src/components/CoupleCoreSuggestion.jsx:125-204 | the loop over the table's entries replaces every occurrence of each simplified key by its traditional text, in table order |
| CoupleCoreSuggestion.KeyFreeUnchanged | src/components/CoupleCoreSuggestion.jsx:125-204 | a text containing none of the simplified keys is left unchanged |
| CoupleCoreSuggestion.CompoundBeforePart | src/components/CoupleCoreSuggestion.jsx:128-200 | 时机与方法 comes before 时机 in the table, so after the compound's pass no 时机与方法 is left for the shorter key to split |
| CoupleCoreSuggestion.CleanContent | src/components/CoupleCoreSuggestion.jsx:207-215 | cleaning is the markdown clean-up followed by the conversion, and an empty text stays empty |
| CoupleCoreSuggestion.SetContent | src/components/CoupleCoreSuggestion.jsx:1040-1070 | saving a subsection's content keeps every title, colour and subsection in place and sets that one content |
| CoupleCoreSuggestion.Flush | src/components/CoupleCoreSuggestion.jsx:1040-1044 | saving the collected text keeps the state valid and the outline, the open subsection and the monthly line unchanged |
| CoupleCoreSuggestion.Step | src/components/CoupleCoreSuggestion.jsx:993-1065 | every line keeps the parser's state valid: the open subsection, when there is one, exists |
| CoupleCoreSuggestion.NonBlankLines | src/components/CoupleCoreSuggestion.jsx:985-987 | no kept line is blank |
| Words.TrimAll | src/components/CoupleCoreSuggestion.jsx:994 | each line is trimmed as it is read |
| CoupleCoreSuggestion.Run | src/components/CoupleCoreSuggestion.jsx:993-1065 | the state stays valid throughout the loop |
| CoupleCoreSuggestion.TakeLine | src/components/CoupleCoreSuggestion.jsx:993-1065 | one pass of the loop body gives the state the step specification gives |
| CoupleCoreSuggestion.ReadLines | src/components/CoupleCoreSuggestion.jsx:985-1065 | the loop over the non-blank lines, each trimmed, gives the state of the run specification |
| CoupleCoreSuggestion.FinishTaboos | src/components/CoupleCoreSuggestion.jsx:1067-1140 | after the loop the last subsection is saved, the fallback sections stand in when none was found, and the monthly note is the cleaned last 每月初 line or the default |
| CoupleCoreSuggestion.ParseTaboos | src/components/CoupleCoreSuggestion.jsx:973-1140 | the parser gives the taboo structure of the specification |
| CoupleCoreSuggestion.Titles | src/components/CoupleCoreSuggestion.jsx:996-1024 | one title per section, in order |
| CoupleCoreSuggestion.AddSection | src/components/CoupleCoreSuggestion.jsx:996-1024 | a header line adds one section titled by the line, with its colour, and keeps every section coloured and every subsection titled |
| CoupleCoreSuggestion.AddSubsection | src/components/CoupleCoreSuggestion.jsx:1036-1053 | a sub-header adds an empty subsection to the last section and keeps every title and colour |
| CoupleCoreSuggestion.StepOutline | src/components/CoupleCoreSuggestion.jsx:993-1065 | a line adds a section title exactly when it is one of the three headers, and every section stays coloured and every subsection titled |
| CoupleCoreSuggestion.RunOutline | src/components/CoupleCoreSuggestion.jsx:993-1065 | after the loop the section titles are the header lines in order |
| CoupleCoreSuggestion.StepMonthly | src/components/CoupleCoreSuggestion.jsx:1027-1033 | the monthly line is replaced exactly by a line starting with 每月初 |
| CoupleCoreSuggestion.RunMonthly | src/components/CoupleCoreSuggestion.jsx:993-1065 | after the loop the monthly line is the last line starting with 每月初 |
| CoupleCoreSuggestion.FallbackOutline | src/components/CoupleCoreSuggestion.jsx:1073-1131 | the fallback has the three sections 溝通禁忌, 行為禁忌 and 環境禁忌, coloured and with titled subsections |
| CoupleCoreSuggestion.TabooSections | src/components/CoupleCoreSuggestion.jsx:973-1131 | the section titles are the header lines of the content in order, or the three fallback titles when it has none; every section is coloured and every subsection titled |
| CoupleCoreSuggestion.TabooMonthlyNote | src/components/CoupleCoreSuggestion.jsx:1027-1139 | the monthly note is the cleaned last 每月初 line of the content, or the default note when there is none |
| CoupleCoreSuggestion.SituationWordsDistinct | src/components/CoupleCoreSuggestion.jsx:816 | the five situation words are distinct and non-empty |
| CoupleCoreSuggestion.FoundWords | src/components/CoupleCoreSuggestion.jsx:818-828 | every word found is one of the words searched and occurs in the content |
| CoupleCoreSuggestion.ExtractSituations | src/components/CoupleCoreSuggestion.jsx:815-833 | the loops over the patterns and their matches give the situations of the specification |
| CoupleCoreSuggestion.SituationsShape | src/components/CoupleCoreSuggestion.jsx:815-833 | at most three situations; the three defaults exactly when no situation word occurs; otherwise a prefix of the words found, each a situation word occurring in the content |
| CoupleCoreSuggestion.FoundWordsDistinct | src/components/CoupleCoreSuggestion.jsx:823-825 | no word is found twice |
| CoupleCoreSuggestion.FoundIffContained | src/components/CoupleCoreSuggestion.jsx:818-828 | nothing is found exactly when none of the words occurs |
| CoupleCoreSuggestion.CleanPieces | src/components/CoupleCoreSuggestion.jsx:598-600 | each piece is trimmed and then cleaned |
| CoupleCoreSuggestion.KeptItems | src/components/CoupleCoreSuggestion.jsx:601-607 | every item kept is longer than five characters and mentions none of 開運物, 女方 and 共同 |
| CoupleCoreSuggestion.FirstAdvice | src/components/CoupleCoreSuggestion.jsx:583-617 | the first pattern whose capture is non-empty and yields items, or −1 when none does |
| CoupleCoreSuggestion.DirectItems | src/components/CoupleCoreSuggestion.jsx:622-631 | the direct pattern yields at most two items |
| CoupleCoreSuggestion.ActionAdvice | src/components/CoupleCoreSuggestion.jsx:570-634 | at most three items; when a pattern's capture yields items the result is a non-empty prefix of them, each kept; otherwise at most the two items of the direct pattern |
| CoupleCoreSuggestion.ExtractActionAdvice | src/components/CoupleCoreSuggestion.jsx:570-634 | the loop over the patterns gives the advice of the specification |
| CoupleCoreSuggestion.CacheKey | src/components/CoupleCoreSuggestion.jsx:1506-1512 | the key starts with couple_core_suggestion_ |
| CoupleCoreSuggestion.CacheKeySplits | src/components/CoupleCoreSuggestion.jsx:1506-1512 | for dates without an underscore the key splits on underscores into the prefix words, both dates, 感情 and the year, so different inputs give different keys |
| CoupleCoreSuggestion.BoldPairs | src/components/CoupleCoreSuggestion.jsx:119 | the `**text**` replacement; CleanMarkdownNoBold states, with the two later replacements, that no `**` is left |
| CoupleCoreSuggestion.Hanging | src/components/CoupleCoreSuggestion.jsx:120 | the removal of each `**` with the white space after it; HangingNoDoubleStar states that no `**` is left |
| CoupleCoreSuggestion.Trailing | src/components/CoupleCoreSuggestion.jsx:121 | the removal of each `**` with the white space before it; TrailingIdentity states that it changes nothing once no `**` is left |
| CoupleCoreSuggestion.NoDoubleStar | src/components/CoupleCoreSuggestion.jsx:119-121 | no two adjacent stars; NoDoubleStarIffAbsent states that this means the text does not contain `**` |
| CoupleCoreSuggestion.ConvertFirst | src/components/CoupleCoreSuggestion.jsx:125-204 | the text after the conversion table's first replacements; ConvertToTraditional's loop keeps it as its invariant, KeyFreeUnchanged and CompoundBeforePart state what it does |
| CoupleCoreSuggestion.CleanText | src/components/CoupleCoreSuggestion.jsx:207-215 | `cleanContent`; CleanContent computes it and states that an empty text stays empty |
| CoupleCoreSuggestion.HeaderColor | src/components/CoupleCoreSuggestion.jsx:996-1024 | the colour of a main header line, none for any other line; AddSection and StepOutline state what a header line does |
| CoupleCoreSuggestion.Lines | src/components/CoupleCoreSuggestion.jsx:985-987 | the non-blank lines of the content, each trimmed; NonBlankLines and TrimAll state what they are |
| CoupleCoreSuggestion.NoteOf | src/components/CoupleCoreSuggestion.jsx:1027-1033 | the monthly note a 每月初 line gives, cleaned; TabooMonthlyNote states the note of a content |
| CoupleCoreSuggestion.Finish | src/components/CoupleCoreSuggestion.jsx:1067-1140 | what follows the loop: the last subsection saved, then the fallback sections and note where none was found; FinishTaboos computes it and FallbackOutline states the fallback |
| CoupleCoreSuggestion.TabooStructure | src/components/CoupleCoreSuggestion.jsx:973-1140 | what `parseRelationshipTaboosContent` builds; ParseTaboos computes it, TabooSections and TabooMonthlyNote state its sections and note |
| CoupleCoreSuggestion.HeaderLines | src/components/CoupleCoreSuggestion.jsx:996-1024 | the main header lines among the first lines, in order; RunOutline states that the section titles are these |
| CoupleCoreSuggestion.LastMonthly | src/components/CoupleCoreSuggestion.jsx:1027-1033 | the last line starting with 每月初 among the first lines; RunMonthly states that the loop keeps it |
| CoupleCoreSuggestion.Situations | src/components/CoupleCoreSuggestion.jsx:815-833 | the first three situation words found, or the three defaults; ExtractSituations computes it and SituationsShape states its shape |
| CoupleCoreSuggestion.Pieces | src/components/CoupleCoreSuggestion.jsx:597 | the pieces between bullets and line breaks; CleanPieces states what is made of each |
| CoupleCoreSuggestion.Keep | src/components/CoupleCoreSuggestion.jsx:599-605 | the filter on cleaned pieces; KeptItems states that every kept item passes it |
| CoupleCoreSuggestion.ActionItems | src/components/CoupleCoreSuggestion.jsx:596-605 | the items one capture yields; ActionAdvice states that the advice is a non-empty prefix of them when they exist |
| CoupleCoreSuggestion.DateText | src/components/CoupleCoreSuggestion.jsx:1507-1508 | `birthDateTime` or else `birthday`; CacheKeySplits states that the key splits back into its words when the dates hold no underscore |
| CoupleSeasonAnalysis.ContextShape | src/app/api/couple-season-analysis/route.js:275-282 | each label is a bracketed word in the chosen script, and the word means "current season" iff the season is the current one |
| CoupleSeasonAnalysis.UnlabelRoundTrip | src/app/api/couple-season-analysis/route.js:337-340 | removing the first bracket group from a labelled season name gives back the plain season name, in either script |
| CoupleSeasonAnalysis.FallbackContentRule | src/app/api/couple-season-analysis/route.js:484-532 | every stock text starts with the two names joined by 与 or 與; a known concern continues with its table entry, any other concern with 在 and the season |
| CoupleSeasonAnalysis.SeasonContentRule | src/app/api/couple-season-analysis/route.js:423-464 | found text of at most 20 characters is replaced by the stock text; otherwise the cleaned text gets " " plus the stock text iff it is under 150 characters and the stock text is over 100; the result always starts with the cleaned text |
| CoupleSeasonAnalysis.ParsedRule | src/app/api/couple-season-analysis/route.js:324-466 | the result has 4 seasons in rotated order, each named with its label, unlabelling to its own season, with the text the content rule gives |
| CoupleSeasonAnalysis.FillSeason | src/app/api/couple-season-analysis/route.js:343-464 | one pass of the forEach leaves the entry labelled and with the content rule's text |
| CoupleSeasonAnalysis.ParseCoupleSeasonContent | src/app/api/couple-season-analysis/route.js:266-472 | the forEach over the rotated base entries gives exactly the parsed result |
| CoupleSeasonAnalysis.FallbackData | src/app/api/couple-season-analysis/route.js:534-619 | the fallback data has the 4 seasons in base order, plain names, and each season's stock text |
| CoupleSeasonAnalysis.Post | src/app/api/couple-season-analysis/route.js:5-264 | 400 iff a partner's information is missing; analysed iff both are present, the AI answered and its content is non-empty |
| CoupleSeasonAnalysis.ConcernIndex | src/app/api/couple-season-analysis/route.js:522-525 | a concern indexes the stock table iff it is 感情 or 婚姻 |
| CoupleSeasonAnalysis.Context | src/app/api/couple-season-analysis/route.js:276-282 | `getSeasonContext` in either script; ContextShape states that it is a bracketed word meaning "current season" iff the season is the current one |
| CoupleSeasonAnalysis.Labelled | src/app/api/couple-season-analysis/route.js:337-340 | the season name followed by its label; UnlabelRoundTrip states that removing the label gives the season back |
| CoupleSeasonAnalysis.Name1 | src/app/api/couple-season-analysis/route.js:491 | the first name, or 男方 when absent or empty; FallbackContentRule states that every stock text opens with it |
| CoupleSeasonAnalysis.Name2 | src/app/api/couple-season-analysis/route.js:492 | the second name, or 女方 when absent or empty; FallbackContentRule states that every stock text opens with it after 与 or 與 |
| CoupleSeasonAnalysis.StockText | src/app/api/couple-season-analysis/route.js:494-531 | the route's stock texts by script, concern and season; FallbackContentRule states where the chosen one sits in the fallback text |
| CoupleSeasonAnalysis.FallbackContent | src/app/api/couple-season-analysis/route.js:484-532 | `getCoupleFallbackSeasonContent`; FallbackContentRule states its opening names and, per concern, what follows |
| CoupleSeasonAnalysis.Lengthened | src/app/api/couple-season-analysis/route.js:437-451 | a cleaned text under 150 characters followed by a space and the stock text when that is longer than 100; SeasonContentRule states both cases |
| CoupleSeasonAnalysis.SeasonContent | src/app/api/couple-season-analysis/route.js:423-464 | a season's text; SeasonContentRule states when the stock text replaces, follows or is left out of the found text |
| CoupleSeasonAnalysis.Entry | src/app/api/couple-season-analysis/route.js:343-464 | a base entry after one pass of the forEach; FillSeason computes it and ParsedRule states its name and text |
| CoupleSeasonAnalysis.ParsedFrom | src/app/api/couple-season-analysis/route.js:325-466 | the forEach over rotated base entries; ParseCoupleSeasonContent computes it with a loop |
| CoupleSeasonAnalysis.Parsed | src/app/api/couple-season-analysis/route.js:266-472 | `parseCoupleSeasonContent`; ParsedRule states that each of the 4 rotated seasons is labelled and has the content rule's text |
| CoupleSeasonAnalysis.Title | src/app/api/couple-season-analysis/route.js:468-471 | the parsed result's title, always in traditional characters, naming the concern |
| CoupleSeasonAnalysis.ConcernOf | src/app/api/couple-season-analysis/route.js:12 | the request's concern, 感情 when absent; Post and FallbackData take the concern it gives |
| CoupleSeasonAnalysis.SimplifiedOf | src/app/api/couple-season-analysis/route.js:13 | simplified script only when the request says true, traditional otherwise |
| CoupleSpecificProblem.CalculateBaZiMain | src/app/api/couple-specific-problem-analysis/route.js:37-78 | the main path takes the year and day pillars from the calendar library and builds the hour pillar by the hour rule from the library's day stem |
| CoupleSpecificProblem.CalculateBaZi | src/app/api/couple-specific-problem-analysis/route.js:33-170 | a library call that throws falls back to the index arithmetic of the shared fallback calculator, each pillar printed as the route prints it |
| CoupleSpecificProblem.FallbackNaNYearPrinted | src/app/api/couple-specific-problem-analysis/route.js:125-129 | the fallback's year pillar for the year 3 has a negative index and prints as NaN |
| CoupleSpecificProblem.FallbackHourRule | src/app/api/couple-specific-problem-analysis/route.js:140-158 | the fallback's hour pillar follows the same hour rule from its own day stem as the main path |
| CoupleSpecificProblem.HourFromIndices | src/app/api/couple-specific-problem-analysis/route.js:150-155 | the fallback's hour stem and branch indices give the pillar the hour rule gives |
| CoupleSpecificProblem.PillarLabels | src/app/api/couple-specific-problem-analysis/route.js:177-179 | four labels, 時柱 or 时柱 by script |
| CoupleSpecificProblem.FormatBirthDate | src/app/api/couple-specific-problem-analysis/route.js:22-30 | a missing birth date is shown as 未提供; otherwise the formatted date |
| CoupleSpecificProblem.StemSketchOfStem | src/app/api/couple-specific-problem-analysis/route.js:197-238 | each of the ten stems has a sketch in both scripts, opening with the stem and its element |
| CoupleSpecificProblem.StemSketchOther | src/app/api/couple-specific-problem-analysis/route.js:197-222 | nothing but a stem has a sketch |
| CoupleSpecificProblem.GenerateBaZiAnalysis | src/app/api/couple-specific-problem-analysis/route.js:172-252 | four pillars, each opening with its label, and the formatted birth date |
| CoupleSpecificProblem.BaziIsJoin | src/app/api/couple-specific-problem-analysis/route.js:189 | the chart text is the four pillars joined by single spaces |
| CoupleSpecificProblem.DescriptionOfStem | src/app/api/couple-specific-problem-analysis/route.js:240-241 | the description names the day master, its element and the stem's sketch |
| CoupleSpecificProblem.DescriptionUnknownStem | src/app/api/couple-specific-problem-analysis/route.js:224-241 | a day stem that is not one of the ten is described as 土 with the generic sketch |
| CoupleSpecificProblem.ParsedPillars | src/app/api/couple-specific-problem-analysis/route.js:411-421 | the pillars read from the chart text are either none or four |
| CoupleSpecificProblem.TrimmedPiecesNonEmpty | src/app/api/couple-specific-problem-analysis/route.js:411 | splitting a trimmed text at white-space runs leaves no empty piece |
| CoupleSpecificProblem.ParsedPillarsCount | src/app/api/couple-specific-problem-analysis/route.js:411-421 | pillars are read exactly when the trimmed chart text has four or more pieces |
| CoupleSpecificProblem.ParsedPillarsPieces | src/app/api/couple-specific-problem-analysis/route.js:412-421 | the defaults 甲子, 乙丑, 丙寅, 丁卯 are never used: each label gets its own piece |
| CoupleSpecificProblem.ParsedPillarsRoundTrip | src/app/api/couple-specific-problem-analysis/route.js:172-421 | reading back the chart text the route itself writes gives the route's own pillars |
| CoupleSpecificProblem.JoinEndsWithLast | src/app/api/couple-specific-problem-analysis/route.js:189 | a join whose last piece ends in a visible character ends in that character |
| CoupleSpecificProblem.UnwrapFirstBracket | src/app/api/couple-specific-problem-analysis/route.js:408-410 | a text with no full-width opening bracket is unchanged |
| CoupleSpecificProblem.UnwrapFirstBracketRule | src/app/api/couple-specific-problem-analysis/route.js:408-410 | the unwrap removes exactly two characters when some full-width bracket pair closes, and nothing otherwise |
| CoupleSpecificProblem.ParseSection | src/app/api/couple-specific-problem-analysis/route.js:380-429 | with no match the section is empty apart from the birth date; with one, the chart text is the trimmed capture and the pillars are read from it |
| CoupleSpecificProblem.Reconcile | src/app/api/couple-specific-problem-analysis/route.js:494-517 | a blank parsed chart is replaced by the computed chart, keeping a parsed description when there is one; the computed chart text is always kept as the backup |
| CoupleSpecificProblem.UnmatchedUsesComputed | src/app/api/couple-specific-problem-analysis/route.js:380-505 | when the answer has no chart for a partner, the computed chart, description and pillars are shown |
| CoupleSpecificProblem.ShownChartNeverBlank | src/app/api/couple-specific-problem-analysis/route.js:494-514 | the chart shown is never blank when the computed one is not |
| CoupleSpecificProblem.ComputedChartNotBlank | src/app/api/couple-specific-problem-analysis/route.js:172-252 | the route's own chart text is never blank |
| CoupleSpecificProblem.StemSketch | src/app/api/couple-specific-problem-analysis/route.js:197-222 | the day-master sketch table in both scripts; StemSketchOfStem states that each stem has one opening with the stem and its element, StemSketchOther that nothing else has one |
| CoupleSpecificProblem.SketchOrDefault | src/app/api/couple-specific-problem-analysis/route.js:224-241 | the day master's sketch or the generic one; DescriptionOfStem and DescriptionUnknownStem state which appears |
| CoupleSpecificProblem.PieceOr | src/app/api/couple-specific-problem-analysis/route.js:412-421 | a piece or its default when empty; ParsedPillarsPieces states that the defaults are never used |
| CoupleSpecificProblemSolution.FirstProbe | src/components/CoupleSpecificProblemSolution.jsx:234-250 | the index returned is the first probe whose keyword occurs, and no earlier probe matches; -1 means none matches |
| CoupleSpecificProblemSolution.ProblemTypeFromAI | src/components/CoupleSpecificProblemSolution.jsx:234-250 | a missing or empty problem is "general"; otherwise the type is the first probe that matches (breakup, communication, trust, distance, family), or "general" if none does |
| CoupleSpecificProblemSolution.BreakupFirst | src/components/CoupleSpecificProblemSolution.jsx:238-240 | a problem naming 分手 or 離婚 is a breakup, whatever else it names |
| CoupleSpecificProblemSolution.Score | src/components/CoupleSpecificProblemSolution.jsx:254-258 | the score is never 0: a non-zero score is used, else a non-zero overall score, else 50 |
| CoupleSpecificProblemSolution.Status | src/components/CoupleSpecificProblemSolution.jsx:252-263 | strong iff ≥80; stable iff 60–79; challenging iff 40–59; critical iff below 40 |
| CoupleSpecificProblemSolution.TimelineBand | src/components/CoupleSpecificProblemSolution.jsx:362-377 | the first timeline iff the score is ≥70; the second iff 50–69; otherwise the third |
| CoupleSpecificProblemSolution.MoveOnBand | src/components/CoupleSpecificProblemSolution.jsx:379-394 | the 6-month text iff the score is below 30; the 12-month text iff 30–49; otherwise the 18-month text |
| CoupleSpecificProblemSolution.BandsMonotone | src/components/CoupleSpecificProblemSolution.jsx:252-394 | a higher score never gets a slower timeline, less patience before moving on, or a weaker status than strong |
| CoupleSpecificProblemSolution.MissingScoreBands | src/components/CoupleSpecificProblemSolution.jsx:252-394 | without a score the status is challenging, the timeline the middle one and the 18-month advice applies; a critical score gets the slowest timeline and one of the two shorter deadlines |
| CoupleSpecificProblemSolution.StrengtheningAdvice | src/components/CoupleSpecificProblemSolution.jsx:175-185 | at most three lines, min(3, strengths + 2) of them; line i is 強化 + strength i + 以增進關係; a missing list uses the two defaults |
| CoupleSpecificProblemSolution.PracticalAdvice | src/components/CoupleSpecificProblemSolution.jsx:265-298 | the result is the three fixed tips, one per advice entry with an interaction or communication, then the problem's tip, cut to five; it holds 3 to 5 tips and starts with the fixed three |
| CoupleSpecificProblemSolution.SpiritualGuidance | src/components/CoupleSpecificProblemSolution.jsx:300-329 | the result is the three fixed lines, one per challenge naming 情緒 or 價值觀, then the problem's line, cut to four; it holds 3 to 4 lines and starts with the fixed three |
| CoupleSpecificProblemSolution.SuccessIndicators | src/components/CoupleSpecificProblemSolution.jsx:331-360 | the result is the three fixed indicators, one per strength naming 溝通 or 信任, then the problem's indicator, cut to five; it holds 3 to 5 and starts with the fixed three |
| CoupleSpecificProblemSolution.FlatMapShort | src/components/CoupleSpecificProblemSolution.jsx:265-360 | entries that add at most one line each add at most as many lines as there are entries |
| CoupleSpecificProblemSolution.FixedLinesOnly | src/components/CoupleSpecificProblemSolution.jsx:300-329 | with no recognised challenge and no problem the guidance is the three fixed lines |
| CoupleSpecificProblemSolution.FlatMapEmpty | src/components/CoupleSpecificProblemSolution.jsx:300-329 | entries that add no line add nothing |
| CoupleSpecificProblemSolution.LastMatch | src/components/CoupleSpecificProblemSolution.jsx:531-568 | the index returned is a matching group and no later group matches; -1 means none matches |
| CoupleSpecificProblemSolution.Tags | src/components/CoupleSpecificProblemSolution.jsx:531-568 | one tag at most per group |
| CoupleSpecificProblemSolution.AnalyzeSpecificProblem | src/components/CoupleSpecificProblemSolution.jsx:474-571 | the result is the reference analysis: general/strengthen/no tags for a non-string or empty problem; otherwise the type and status of the last matching group and the tags of all matching groups, in order |
| CoupleSpecificProblemSolution.RepairIffTroubleKind | src/components/CoupleSpecificProblemSolution.jsx:531-568 | the status is repair iff the type is breakup, infidelity or emotional_distance; the type is general iff no tag was found |
| CoupleSpecificProblemSolution.TagsEmpty | src/components/CoupleSpecificProblemSolution.jsx:531-568 | no tag is found iff no group matches |
| CoupleSpecificProblemSolution.CoupleCompatibility | src/components/CoupleSpecificProblemSolution.jsx:573-603 | when neither order of the two elements is in the table the result is {60, 中性} |
| CoupleSpecificProblemSolution.CompatibilityFollowsCycle | src/components/CoupleSpecificProblemSolution.jsx:578-602 | for the five elements the lookup is symmetric; the score is 75 iff same element, ≥80 iff one generates the other, ≤40 iff one controls the other |
| CoupleSpecificProblemSolution.TargetedPlan | src/components/CoupleSpecificProblemSolution.jsx:645-747 | the strengthening plan iff the status is not repair; move-on iff repair, score below 50 and infidelity; repair iff repair and score ≥50, naming the pair's relationship; the generic plan otherwise |
| CoupleSpecificProblemSolution.InfidelityPlans | src/components/CoupleSpecificProblemSolution.jsx:573-747 | infidelity between a controlling pair of elements gets the move-on plan; between a generating pair it gets the repair plan |
| CoupleSpecificProblemSolution.EmotionalSupport | src/components/CoupleSpecificProblemSolution.jsx:605-643 | a type with messages gets its own; any other type gets the strengthen messages |
| CoupleSpecificProblemSolution.SupportForEveryKind | src/components/CoupleSpecificProblemSolution.jsx:474-643 | every type the analysis yields except general has its own messages; general gets the strengthen ones |
| CoupleSpecificProblemSolution.TargetedAdvice | src/components/CoupleSpecificProblemSolution.jsx:396-404 | one entry per solution, urgent iff its timeline contains 立即, with non-empty category and advice |
| CoupleSpecificProblemSolution.ActionPlan | src/components/CoupleSpecificProblemSolution.jsx:406-425 | the result is the reference plan: an entry for every step of every solution, in order |
| CoupleSpecificProblemSolution.ActionsAppend | src/components/CoupleSpecificProblemSolution.jsx:406-425 | the actions of two lists joined are the actions of each, joined |
| CoupleSpecificProblemSolution.EntriesActions | src/components/CoupleSpecificProblemSolution.jsx:411-420 | a solution's entries carry its steps as their actions, in order |
| CoupleSpecificProblemSolution.PlanHasEveryStep | src/components/CoupleSpecificProblemSolution.jsx:406-425 | there is exactly one entry per step, and the entries' actions are all the steps in order |
| CoupleSpecificProblemSolution.ActionsLength | src/components/CoupleSpecificProblemSolution.jsx:406-425 | one action per entry |
| CoupleSpecificProblemSolution.EntryLabel | src/components/CoupleSpecificProblemSolution.jsx:414 | the label of step j of solution i splits at the point into the numbers i+1 and j+1 |
| CoupleSpecificProblemSolution.Slice | src/components/CoupleSpecificProblemSolution.jsx:184-359 | a slice is a prefix no longer than the cap, and the whole list when it fits |
| CoupleSpecificProblemSolution.Timeline | src/components/CoupleSpecificProblemSolution.jsx:362-377 | `generateTimelineFromAI`'s text for a score; TimelineBand states which band each score falls in and BandsMonotone that a higher score never gets a slower one |
| CoupleSpecificProblemSolution.MoveOnAdvice | src/components/CoupleSpecificProblemSolution.jsx:379-394 | `generateMoveOnAdviceFromAI`'s text for a score; MoveOnBand states which band each score falls in |
| CoupleSpecificProblemSolution.FlatMap | src/components/CoupleSpecificProblemSolution.jsx:265-360 | the notes the forEach loops push, entry by entry; FlatMapShort and FlatMapEmpty bound them, and the three advice methods are proved equal to their use |
| CoupleSpecificProblemSolution.AnalysisAfter | src/components/CoupleSpecificProblemSolution.jsx:531-568 | the keyword groups after the first n; AnalyzeSpecificProblem is proved equal to it group by group |
| CoupleSpecificProblemSolution.SpecificAnalysis | src/components/CoupleSpecificProblemSolution.jsx:474-571 | `analyzeSpecificProblem`; AnalyzeSpecificProblem computes it, RepairIffTroubleKind and TagsEmpty state its status and tags |
| CoupleSpecificProblemSolution.MatrixEntry | src/components/CoupleSpecificProblemSolution.jsx:578-602 | `compatibilityMatrix`; CompatibilityFollowsCycle states that its scores follow the generating and controlling cycles |
| CoupleSpecificProblemSolution.Generates | src/components/CoupleSpecificProblemSolution.jsx:578-602 | the generating cycle 木火土金水, the reference definition CompatibilityFollowsCycle holds the table to |
| CoupleSpecificProblemSolution.Controls | src/components/CoupleSpecificProblemSolution.jsx:578-602 | the controlling cycle, each element controlling the one two places on; CompatibilityFollowsCycle holds the table to it |
| CoupleSpecificProblemSolution.Entry | src/components/CoupleSpecificProblemSolution.jsx:412-418 | one plan entry; EntryLabel states that its label splits back into the two numbers |
| CoupleSpecificProblemSolution.Entries | src/components/CoupleSpecificProblemSolution.jsx:411-420 | a solution's first j entries; EntriesActions states that their actions are its first j steps |
| CoupleSpecificProblemSolution.PlanOf | src/components/CoupleSpecificProblemSolution.jsx:406-425 | `generateActionPlan` over the first n solutions; ActionPlan computes it and PlanHasEveryStep states that it holds every step in order |
| CoupleSpecificProblemSolution.AllSteps | src/components/CoupleSpecificProblemSolution.jsx:406-425 | every step of the first n solutions, in order; PlanHasEveryStep states that the plan's actions are these |
| CoupleSpecificProblemSolution.Actions | src/components/CoupleSpecificProblemSolution.jsx:406-425 | the actions of a list of entries; ActionsAppend and ActionsLength state how it joins and its length |
| DailyFortune.CalculatePillars | api-reference/daily-fortune.js:71-93 | the day pillar is the stem and branch of the day count's remainders, or NaN / undefined text where a negative remainder indexes nothing |
| DailyFortune.PillarsOfValidDate | api-reference/daily-fortune.js:71-93 | from the year 4 and from 1900 on each pillar is the real stem and branch of its formula |
| DailyFortune.EarlyDayPillar | api-reference/daily-fortune.js:84-91 | before 1900 a day whose remainders are both negative is the number NaN, and one whose stem remainder alone is zero prints undefined after its stem |
| DailyFortune.MonthPillarOutsideCycle | api-reference/daily-fortune.js:80-90 | the month formula pairs a stem and a branch of opposite polarity, so the month pillar is never one of the sixty pillars of the cycle |
| DailyFortune.OppositeParityOutsideCycle | api-reference/daily-fortune.js:80-81 | a stem and a branch of opposite polarity never meet in the sixty-pillar cycle |
| DailyFortune.FirstListedSpec | api-reference/daily-fortune.js:98-105 | the loop over the lists finds a key exactly when some list holds the character, and it is the key of such a list |
| DailyFortune.ElementListsDisjoint | api-reference/daily-fortune.js:41-47 | no character is listed under two elements |
| DailyFortune.GetElementUnique | api-reference/daily-fortune.js:41-105 | only the five elements come back, each exactly for the characters listed under it |
| DailyFortune.GetElementOfStem | api-reference/daily-fortune.js:41-105 | each stem gets the element of its pair |
| DailyFortune.GetElementOfBranch | api-reference/daily-fortune.js:41-105 | each branch gets its own element |
| DailyFortune.GetElementOther | api-reference/daily-fortune.js:98-105 | a character that is neither a stem nor a branch has no element (null) |
| DailyFortune.ElementRelation | api-reference/daily-fortune.js:50-56 | a relation exists exactly for the five elements |
| DailyFortune.ElementRelationRule | api-reference/daily-fortune.js:50-56 | each element generates the next in the generating order, controls the one after and is controlled by the third |
| DailyFortune.ElementDeltaRule | api-reference/daily-fortune.js:125-137 | +15 when the day master generates the date's element, −10 when that element controls the day master, +10 for the same element, 0 otherwise |
| DailyFortune.ElementDeltaUnknown | api-reference/daily-fortune.js:126 | an unknown element on either side changes nothing |
| DailyFortune.ElementSum | api-reference/daily-fortune.js:125-137 | the total over the date's elements lies between −10 and +15 per element |
| DailyFortune.ClashAdjustmentRule | api-reference/daily-fortune.js:142-147 | on real branches the distance-6 test fires exactly on the six clashing pairs, and agrees with the test as written |
| DailyFortune.BranchIndex | api-reference/daily-fortune.js:142-143 | indexOf gives the branch ordinal, −1 for an undefined character |
| DailyFortune.ClashAsWrittenSpurious | api-reference/daily-fortune.js:84-147 | a pillar before 1900 can have no branch (index −1), and −1 and 5 are six apart, so as written such a day "clashes" with every 巳 day |
| DailyFortune.BranchIndexOf | api-reference/daily-fortune.js:25-142 | indexOf finds each branch at its own index |
| DailyFortune.BranchIndexOfOrdinal | api-reference/daily-fortune.js:25-142 | indexOf on the branch list is the branch ordinal, −1 for any other character |
| DailyFortune.CombineRule | api-reference/daily-fortune.js:150-165 | every combining pair sums to 1 modulo 12, so at most one pair matches, exactly when the indices are real and sum to 1 modulo 12 |
| DailyFortune.CombineIsSixHarmony | api-reference/daily-fortune.js:150-157 | the combining pairs are exactly the six harmonies (六合) |
| DailyFortune.ClashCombineExclusive | api-reference/daily-fortune.js:145-165 | a clash and a combination never both apply |
| DailyFortune.DayFactor | api-reference/daily-fortune.js:168-171 | the day factor lies in [−10, 9]; on a NaN day pillar charCodeAt throws |
| DailyFortune.Clamp | api-reference/daily-fortune.js:174 | the result lies in [0, 100] and leaves values inside the range unchanged |
| DailyFortune.ElementOf | api-reference/daily-fortune.js:114-122 | an element found is one of the five |
| DailyFortune.PillarsWellFormed | api-reference/daily-fortune.js:71-93 | every pillar is NaN or at least two characters long |
| DailyFortune.ScoreWith | api-reference/daily-fortune.js:110-175 | the score is missing exactly when the date's day pillar is NaN (the call throws) |
| DailyFortune.RawScoreRange | api-reference/daily-fortune.js:110-171 | before clamping the score lies in [−5, 124], so both bounds of the clamp can bite |
| DailyFortune.ScoreAgainstIntended | api-reference/daily-fortune.js:142-147 | when both day pillars carry a real branch the score is the intended one; a pillar with no branch against a 巳 day loses 15 points |
| DailyFortune.FortuneScore | api-reference/daily-fortune.js:110-175 | the final score lies in [0, 100] whenever the call does not throw |
| DailyFortune.SumElementDeltas | api-reference/daily-fortune.js:125-137 | the forEach sums the deltas of the date's elements |
| DailyFortune.CombineBonus | api-reference/daily-fortune.js:158-165 | the loop adds 20 for each combining pair the two indices form |
| DailyFortune.CalculateFortuneScore | api-reference/daily-fortune.js:110-175 | the method computes the clamped score of the specification, None where it throws |
| DailyFortune.GetFortuneLevel | api-reference/daily-fortune.js:180-198 | the first band in table order that holds the score, with its colours |
| DailyFortune.BandsPartition | api-reference/daily-fortune.js:59-192 | the bands partition 0..100, so every score there finds exactly one band and the fallback is never taken |
| DailyFortune.OutOfRangeFallback | api-reference/daily-fortune.js:193-197 | outside 0..100 no band holds the score and the 中吉 colours come back |
| DailyFortune.GenerateFortuneDetails | api-reference/daily-fortune.js:203-256 | four recommendations; the level's texts, or the 中吉 texts for an unknown level |
| DailyFortune.DetailsCoverBands | api-reference/daily-fortune.js:59-250 | both dictionaries hold exactly the six band names |
| DailyFortune.DayPillar | api-reference/daily-fortune.js:84-86 | the day pillar from the day count's truncating remainders by 10 and 12; CalculatePillars, PillarsOfValidDate and EarlyDayPillar state when it is a real pillar and when NaN |
| DailyFortune.FirstListed | api-reference/daily-fortune.js:98-105 | the loop over the element lists; FirstListedSpec states that it finds a key exactly when some list holds the character |
| DailyFortune.GetElement | api-reference/daily-fortune.js:98-105 | `getElement`; GetElementUnique, GetElementOfStem, GetElementOfBranch and GetElementOther state which element each character gets |
| DailyFortune.ElementDelta | api-reference/daily-fortune.js:125-137 | the score change for one date element; ElementDeltaRule and ElementDeltaUnknown state each relation's change |
| DailyFortune.ClashAdjustmentAsWritten | api-reference/daily-fortune.js:142-147 | the clash test as the code writes it, −15 when the two indexOf results are 6 apart, −1 included; ClashAsWrittenSpurious exhibits −1 against 巳 |
| DailyFortune.ClashAdjustment | api-reference/daily-fortune.js:142-147 | the clash test only between two real branches; ClashAdjustmentRule states that it fires exactly on the six clashing pairs |
| DailyFortune.CombineCount | api-reference/daily-fortune.js:150-165 | how many combining pairs the two indices form; CombineRule states that it is 0 or 1, and 1 exactly when they sum to 1 modulo 12 |
| DailyFortune.DateElements | api-reference/daily-fortune.js:114-122 | the elements of the first characters of the date's pillars; ElementOf states that each found one is one of the five |
| DailyFortune.WellFormed | api-reference/daily-fortune.js:71-93 | each pillar is NaN or at least two characters; PillarsWellFormed states that calculatePillars always gives such pillars |
| DailyFortune.RawScore | api-reference/daily-fortune.js:110-171 | the score before clamping, with the clash test as written; RawScoreRange bounds it and ScoreAgainstIntended relates it to the intended score |
| DailyFortune.IntendedRawScore | api-reference/daily-fortune.js:110-171 | the score before clamping with the corrected clash test; ScoreAgainstIntended states when it equals the score as written |
| DailyFortune.LevelFor | api-reference/daily-fortune.js:180-198 | the band for a score by threshold; GetFortuneLevel computes it with the loop and BandsPartition states that it is the one band holding the score |
| DailyFortune.Description | api-reference/daily-fortune.js:204-212 | the descriptions dictionary; DetailsCoverBands states that it has exactly the six band names |
| DailyFortune.Recommendations | api-reference/daily-fortune.js:213-250 | the recommendations dictionary; DetailsCoverBands states that it holds exactly the levels the descriptions hold, and GenerateFortuneDetails that it gives four entries |
| DeepLink.ParseSegments | src/components/DeepLinkHandler.tsx:51 | the query's &-separated segments give at most one pair each, in order; empty segments give none |
| DeepLink.GetFirst | src/components/DeepLinkHandler.tsx:52-55 | params.get finds a value exactly when some pair has the key, and then it is the value of the first such pair |
| DeepLink.ParseRendered | src/components/DeepLinkHandler.tsx:51 | a pair written as key=value is read back as that pair when decoding changes nothing |
| DeepLink.ParseSegmentsRendered | src/components/DeepLinkHandler.tsx:51 | the segments written from pairs are read back as those pairs |
| DeepLink.ParseQueryRoundTrip | src/components/DeepLinkHandler.tsx:51 | parsing a query written from pairs gives back its pairs, when decoding changes nothing |
| DeepLink.Pieces | src/components/DeepLinkHandler.tsx:71-82 | one piece per pair, in order |
| DeepLink.ExtrasAppend | src/components/DeepLinkHandler.tsx:71-82 | the extras of a concatenation are the concatenation of the extras |
| DeepLink.ExtrasSnoc | src/components/DeepLinkHandler.tsx:71-82 | the extras grow by one pair's piece per step of the forEach |
| DeepLink.ExtrasOne | src/components/DeepLinkHandler.tsx:71-82 | the extras of one pair are its piece |
| DeepLink.ExtrasReserved | src/components/DeepLinkHandler.tsx:72-79 | pairs whose keys are all reserved (session_id, type, concern, locale) add nothing |
| DeepLink.ExtrasListsKept | src/components/DeepLinkHandler.tsx:71-82 | every pair whose key is not reserved appears among the extras with its value encoded |
| DeepLink.AppendExtras | src/components/DeepLinkHandler.tsx:71-82 | the forEach appends the piece of every pair in order |
| DeepLink.Locale | src/components/DeepLinkHandler.tsx:55 | the locale is never empty: zh-TW when missing or empty |
| DeepLink.Head | src/components/DeepLinkHandler.tsx:66-68 | the route starts with the locale's success page and the session id |
| DeepLink.OnAppUrlOpen | src/components/DeepLinkHandler.tsx:27-103 | the listener with its forEach loop does what the handling specification says |
| DeepLink.HandleIgnores | src/components/DeepLinkHandler.tsx:18-49 | the listener acts only on a native harmoniq:// link whose path is success or empty |
| DeepLink.PaymentHead | src/components/DeepLinkHandler.tsx:57-68 | a success link navigates exactly when it carries a non-empty session id, to the success page of its locale with that id first |
| DeepLink.PaymentKeeps | src/components/DeepLinkHandler.tsx:71-82 | the route keeps every pair whose key is not reserved, with its value encoded |
| DeepLink.SecondQuestionMarkDropped | src/components/DeepLinkHandler.tsx:41 | only the text up to a second ? is read as the query; what follows is dropped |
| DeepLink.RenderedLacksMark | src/components/DeepLinkHandler.tsx:41 | a query written from pairs without ? holds no ? |
| DeepLink.LinkParts | src/components/DeepLinkHandler.tsx:37-41 | a link with one ? splits into its path and its query |
| DeepLink.LinkRoundTrip | src/components/DeepLinkHandler.tsx:34-92 | a link written from plain pairs is read back pair for pair and routed as those pairs |
| DeepLink.ParseSegment | src/components/DeepLinkHandler.tsx:51 | one &-separated segment split at its first =; ParseRendered states that a written pair is read back |
| DeepLink.ParseQuery | src/components/DeepLinkHandler.tsx:51 | `new URLSearchParams(q)` as its pairs; ParseQueryRoundTrip states that a query written from pairs gives them back |
| DeepLink.Get | src/components/DeepLinkHandler.tsx:52-55 | `params.get(key)`; GetFirst states that it is the value of the first pair with the key, and none without one |
| DeepLink.Render | src/components/DeepLinkHandler.tsx:51 | a query written from pairs, the reference the parse is held to; ParseQueryRoundTrip and RenderedLacksMark state what reading it gives |
| DeepLink.Piece | src/components/DeepLinkHandler.tsx:71-82 | what the forEach appends for one pair; ExtrasReserved and ExtrasListsKept state which pairs add something |
| DeepLink.Extras | src/components/DeepLinkHandler.tsx:71-82 | everything the forEach appends; AppendExtras computes it and ExtrasAppend, ExtrasSnoc and ExtrasOne state how it builds up |
| DeepLink.PathAndQuery | src/components/DeepLinkHandler.tsx:37-41 | `split("?")` taken as path and query; LinkParts and SecondQuestionMarkDropped state what it gives |
| DeepLink.Handle | src/components/DeepLinkHandler.tsx:18-103 | what the listener does with one URL; HandleIgnores states when it acts, OnAppUrlOpen that the listener does this and LinkRoundTrip that a written link routes by its pairs |
| DeepLink.Payment | src/components/DeepLinkHandler.tsx:50-92 | what a success link leads to; PaymentHead states when it navigates and where, PaymentKeeps that every unreserved pair is kept |
| EmergencyFengShui.CalculateBaZi | src/app/api/emergency-feng-shui/route.js:4-74 | the hour pillar is always 甲子; an Invalid Date's NaN indices find nothing |
| EmergencyFengShui.ChartIndices | src/app/api/emergency-feng-shui/route.js:41-60 | for a date the year and day pillars are the stated remainders of the year and of the day count |
| EmergencyFengShui.MonthFromYearStem | src/app/api/emergency-feng-shui/route.js:47-50 | the month stem counts from the year stem index |
| EmergencyFengShui.MonthIndices | src/app/api/emergency-feng-shui/route.js:47-50 | the month stem is (yearStem·2 + month) mod 10 and the branch (month + 1) mod 12 |
| EmergencyFengShui.MonthPillarOutsideCycle | src/app/api/emergency-feng-shui/route.js:47-50 | the month stem and branch always differ in parity, so the month pillar printed is never one of the sixty of the cycle |
| EmergencyFengShui.YearAndDayInCycle | src/app/api/emergency-feng-shui/route.js:41-60 | the year and day pillars keep stem and branch parity together |
| EmergencyFengShui.InvalidDateChart | src/app/api/emergency-feng-shui/route.js:5-68 | an Invalid Date gives the number NaN for the first three pillars and 甲子 for the hour |
| EmergencyFengShui.EarlyDayPillar | src/app/api/emergency-feng-shui/route.js:53-60 | before 1970 a day whose remainders are both negative is NaN, and one with a single negative remainder prints undefined |
| EmergencyFengShui.Fallbacks | src/app/api/emergency-feng-shui/route.js:171-218 | three fallback recommendations, the one at position i coloured with the i-th colour |
| EmergencyFengShui.StripNumber | src/app/api/emergency-feng-shui/route.js:111 | removing a leading number never lengthens the title |
| EmergencyFengShui.StripBrackets | src/app/api/emergency-feng-shui/route.js:112 | removing the brackets never lengthens the title |
| EmergencyFengShui.StripNumberRule | src/app/api/emergency-feng-shui/route.js:111 | a leading number, its . or ) and the white space after it are what is dropped |
| EmergencyFengShui.StripBracketsRule | src/app/api/emergency-feng-shui/route.js:112 | a title in 【】 loses exactly the two brackets |
| EmergencyFengShui.CleanTitleOfHeading | src/app/api/emergency-feng-shui/route.js:109-112 | a numbered, bracketed heading is cleaned to the text between the brackets |
| EmergencyFengShui.SectionLines | src/app/api/emergency-feng-shui/route.js:102-106 | each part is cut into its trimmed non-empty lines |
| EmergencyFengShui.DescriptionNeverEmpty | src/app/api/emergency-feng-shui/route.js:108-123 | two or more non-empty lines always give a description, so a part is read exactly when its cleaned first line is not empty |
| EmergencyFengShui.NonBlank | src/app/api/emergency-feng-shui/route.js:90-92 | the parts kept are the non-blank ones |
| EmergencyFengShui.KeywordOptions | src/app/api/emergency-feng-shui/route.js:135-162 | a kept line is a candidate exactly when it holds an action word, with the next kept line as its description |
| EmergencyFengShui.KeywordDescription | src/app/api/emergency-feng-shui/route.js:152-157 | the stock description is used only for the last kept line |
| EmergencyFengShui.Take3 | src/app/api/emergency-feng-shui/route.js:99-221 | the first three of a list, or all of it |
| EmergencyFengShui.Colored | src/app/api/emergency-feng-shui/route.js:116-159 | each candidate is coloured by its position |
| EmergencyFengShui.ColoredAppend | src/app/api/emergency-feng-shui/route.js:116-120 | colouring one more candidate appends one recommendation with the next colour |
| EmergencyFengShui.Take3OfPrefix | src/app/api/emergency-feng-shui/route.js:97-100 | a prefix of length three, or the whole list, is what taking three gives |
| EmergencyFengShui.SectionPass | src/app/api/emergency-feng-shui/route.js:90-124 | the section pass yields at most three recommendations |
| EmergencyFengShui.KeywordPass | src/app/api/emergency-feng-shui/route.js:128-162 | the keyword pass yields at most three recommendations |
| EmergencyFengShui.Picked | src/app/api/emergency-feng-shui/route.js:97-162 | the section pass, or the keyword pass when the section pass found nothing |
| EmergencyFengShui.ParseEmergencyFengShui | src/app/api/emergency-feng-shui/route.js:77-227 | the parser, with its loops, gives the result of the specification |
| EmergencyFengShui.ReadBoth | src/app/api/emergency-feng-shui/route.js:97-162 | the two loops read the parts first and the lines only when no part was read |
| EmergencyFengShui.ReadSections | src/app/api/emergency-feng-shui/route.js:97-124 | the first loop makes one recommendation per readable part, until there are three |
| EmergencyFengShui.ReadKeywordLines | src/app/api/emergency-feng-shui/route.js:135-162 | the second loop makes one recommendation per kept line with an action word, until there are three |
| EmergencyFengShui.PadToThree | src/app/api/emergency-feng-shui/route.js:171-218 | the padding loop appends the fallbacks at their own positions up to three |
| EmergencyFengShui.ParsedShape | src/app/api/emergency-feng-shui/route.js:171-222 | a result has exactly three recommendations, the i-th coloured with the i-th colour |
| EmergencyFengShui.ParsedNone | src/app/api/emergency-feng-shui/route.js:79-168 | null exactly for content that is missing or empty, or that neither pass can read |
| EmergencyFengShui.SectionsTakePrecedence | src/app/api/emergency-feng-shui/route.js:97-128 | when any part reads as a recommendation the keyword pass is not consulted and the parts' candidates come first, in order |
| EmergencyFengShui.SectionPassPrefix | src/app/api/emergency-feng-shui/route.js:97-124 | the section pass is a prefix of all the parts' candidates, and holds all of them when there are at most three |
| EmergencyFengShui.YearPillar | src/app/api/emergency-feng-shui/route.js:41-45 | the year pillar counted from the year 4; ChartIndices and YearAndDayInCycle state its indices and that it is in the cycle |
| EmergencyFengShui.MonthPillar | src/app/api/emergency-feng-shui/route.js:47-50 | the month pillar; MonthIndices states its indices and MonthPillarOutsideCycle that it is never in the sixty cycle |
| EmergencyFengShui.DayPillar | src/app/api/emergency-feng-shui/route.js:53-60 | the day pillar counted from 1970; ChartIndices states its indices and EarlyDayPillar when it is NaN |
| EmergencyFengShui.CleanTitle | src/app/api/emergency-feng-shui/route.js:109-112 | a part's first line cleaned into a title; CleanTitleOfHeading states what a numbered, bracketed heading gives |
| EmergencyFengShui.CandidateOfLines | src/app/api/emergency-feng-shui/route.js:108-123 | one part's title and description; DescriptionNeverEmpty states that two or more lines always make a candidate |
| EmergencyFengShui.NextOrDefault | src/app/api/emergency-feng-shui/route.js:152-157 | the line after a keyword line or the stock description; KeywordDescription states that the stock text only follows the last line |
| EmergencyFengShui.Parsed | src/app/api/emergency-feng-shui/route.js:77-227 | `parseEmergencyFengShui`; ParseEmergencyFengShui computes it, ParsedShape and ParsedNone state its shape and when it is null |
| FixApiCalls.ImportFlags | fix-api-calls.js:117 | one flag per line, set exactly on the lines holding import or require( |
| FixApiCalls.EntryFlags | fix-api-calls.js:119-124 | one flag per line, set exactly on the lines holding an export or function keyword |
| FixApiCalls.BlankFlags | fix-api-calls.js:128-131 | one flag per line, set exactly on the blank lines |
| FixApiCalls.SkipBlank | fix-api-calls.js:127-133 | the first non-blank line at or after the start, or the line count |
| FixApiCalls.InsertIndexFrom | fix-api-calls.js:116-136 | the index chosen never passes the line count |
| FixApiCalls.InsertIndex | fix-api-calls.js:113-136 | the index chosen for a file's lines never passes the line count |
| FixApiCalls.FindInsertIndex | fix-api-calls.js:113-136 | the loop with its inner blank-skipping loop and its break computes the index of the specification |
| FixApiCalls.IndexAtStop | fix-api-calls.js:119-135 | at the first entry line that is not an import line the index is the first non-blank line below it, whatever imports came before |
| FixApiCalls.IndexWithoutStop | fix-api-calls.js:116-136 | without an entry line the index is one past the last import line, or unchanged when there is none |
| FixApiCalls.InsertIndexAtEntry | fix-api-calls.js:113-136 | when some entry line is not an import line the declaration goes below the first such line, skipping blank lines |
| FixApiCalls.InsertIndexWithoutEntry | fix-api-calls.js:113-136 | otherwise the declaration goes after the last import line, or at 0 when there is none |
| FixApiCalls.RewriteCall | fix-api-calls.js:73-107 | one if-block counts the occurrences of its prefix and replaces them all |
| FixApiCalls.FixFile | fix-api-calls.js:65-141 | the per-file body computes the modified flag, count and content of the specification |
| FixApiCalls.SpliceDeclaration | fix-api-calls.js:112-140 | the splice and the re-join give the text of the specification |
| FixApiCalls.RewriteLeaves | fix-api-calls.js:73-107 | a replacement leaves no occurrence of a prefix that it rewrites or that was absent |
| FixApiCalls.RewriteCallsClears | fix-api-calls.js:73-107 | the three replacements leave none of the three prefixes |
| FixApiCalls.FixClears | fix-api-calls.js:73-141 | a fixed file holds no unrewritten call prefix, the declaration line included |
| FixApiCalls.FixModified | fix-api-calls.js:70-143 | the file is written exactly when the content as read held one of the three prefixes, and the count is then positive; otherwise nothing changes |
| FixApiCalls.FixSplices | fix-api-calls.js:109-141 | the declaration is spliced in only into a modified file that did not mention the base, as one extra line at the chosen index |
| FixApiCalls.FixIdempotent | fix-api-calls.js:70-150 | a second pass finds nothing to rewrite and writes nothing |
| FixApiCalls.RunScript | fix-api-calls.js:57-151 | the main loop with its two running totals computes the run of the specification |
| FixApiCalls.RunReports | fix-api-calls.js:57-150 | every path gets one report, in order, "not found" exactly for the missing files, and no file is created |
| FixApiCalls.RunUpdatesCount | fix-api-calls.js:143-147 | a file is reported updated only when at least one call in it was rewritten |
| FixApiCalls.RunTotals | fix-api-calls.js:143-155 | the totals are the sums over the per-file reports, and the calls fixed are never fewer than the files updated |
| FixApiCalls.RunFiles | fix-api-calls.js:57-151 | each listed file ends as one fix leaves it, and no other file changes |
| FixApiCalls.QuietRun | fix-api-calls.js:148-150 | when no listed file needs a fix nothing is written and the totals are zero |
| FixApiCalls.RunIdempotent | fix-api-calls.js:57-151 | a second run changes no file and reports zero calls fixed |
| FixApiCalls.RewriteOne | fix-api-calls.js:73-107 | one prefix's match and replace; RewriteCall computes it and RewriteLeaves states that no rewritten prefix is left |
| FixApiCalls.RewriteCalls | fix-api-calls.js:73-107 | the three replacements in order; RewriteCallsClears states that none of the three prefixes is left |
| FixApiCalls.HasBase | fix-api-calls.js:70-72 | `hasAPIBase`; FixSplices states that the declaration goes in only without it |
| FixApiCalls.Splice | fix-api-calls.js:112-140 | the declaration spliced in at the chosen line; SpliceDeclaration computes it |
| FixApiCalls.Fix | fix-api-calls.js:65-141 | one file's fix; FixFile computes it, FixClears, FixModified, FixSplices and FixIdempotent state what it leaves, when it writes and that a second pass finds nothing |
| FixApiCalls.Step | fix-api-calls.js:57-151 | one iteration of the forEach; RunScript computes the run of them |
| FixApiCalls.RunAll | fix-api-calls.js:57-155 | the script's run; RunScript computes it, RunReports, RunTotals, RunFiles, QuietRun and RunIdempotent state its reports, totals and files |
| FixApiCalls.UpdatedCount | fix-api-calls.js:143-155 | the number of updated reports; RunTotals states that it is the files-updated total |
| FixApiCalls.ReplacementSum | fix-api-calls.js:143-155 | the sum of the updated reports' counts; RunTotals states that it is the calls-fixed total and never below the files updated |
| FixApiCallsV2.PathRun | fix-api-calls-v2.js:98-99 | the longest run of characters other than quotes and backticks at the start |
| FixApiCallsV2.MatchAfterBase | fix-api-calls-v2.js:98-99 | a match of the repair pattern after the base consumes at least one character and stays in the text |
| FixApiCallsV2.QuoteMatchAt | fix-api-calls-v2.js:98-99 | a match of the whole repair pattern consumes at least one character and stays in the text |
| FixApiCallsV2.ExportFlags | fix-api-calls-v2.js:109-111 | one flag per line, set exactly on the trimmed lines starting with an export form |
| FixApiCallsV2.ArrowFlags | fix-api-calls-v2.js:121 | one flag per line, set exactly on the trimmed lines starting with const and holding = ( and ) => |
| FixApiCallsV2.BraceFlags | fix-api-calls-v2.js:114 | one flag per line, set exactly on the lines holding { |
| FixApiCallsV2.NextBrace | fix-api-calls-v2.js:113-116 | the first line at or after the start holding {, or the line count |
| FixApiCallsV2.InsertIndexFrom | fix-api-calls-v2.js:105-125 | the index is −1 or at most one past the line count |
| FixApiCallsV2.InsertIndex | fix-api-calls-v2.js:104-125 | the index for a file's lines is −1 or at most one past the line count |
| FixApiCallsV2.FindInsertIndex | fix-api-calls-v2.js:104-125 | the loop with its unbounded brace scan and its two breaks computes the index of the specification |
| FixApiCallsV2.IndexAtStart | fix-api-calls-v2.js:108-124 | from the first stopping line on, the index is one past the first brace line at or below an exported declaration, or one past an arrow declaration |
| FixApiCallsV2.IndexWithoutStart | fix-api-calls-v2.js:105-125 | with no stopping line the search gives −1 |
| FixApiCallsV2.IndexFound | fix-api-calls-v2.js:108-124 | a positive index comes from a first stopping line |
| FixApiCallsV2.InsertIndexSpec | fix-api-calls-v2.js:104-125 | the index is positive exactly when some line starts a declaration, decided by the first such line; the unbounded brace scan runs one past the last line when no line below holds { |
| FixApiCallsV2.InsertIndexNone | fix-api-calls-v2.js:105-127 | without such a line the index is −1 and nothing is inserted |
| FixApiCallsV2.NoStartBefore | fix-api-calls-v2.js:108-124 | a stopping line means the search cannot come back empty |
| FixApiCallsV2.Clamp | fix-api-calls-v2.js:129 | splice at a start past the end appends |
| FixApiCallsV2.RewritePass | fix-api-calls-v2.js:79-94 | one pass counts the occurrences of its counted forms and replaces the replaced forms when there are any |
| FixApiCallsV2.SpliceDeclaration | fix-api-calls-v2.js:103-131 | the splice, with the loop that finds the index, gives the text of the specification |
| FixApiCallsV2.FixFile | fix-api-calls-v2.js:63-132 | the per-file body computes the modified flag, count and content of the specification |
| FixApiCallsV2.RewriteClears | fix-api-calls-v2.js:74-94 | every template prefix and both unescaped quote prefixes are gone after the two passes |
| FixApiCallsV2.FixModified | fix-api-calls-v2.js:71-134 | the file is written exactly when the content held one of the six prefixes, escaped or not, and then the count is positive |
| FixApiCallsV2.EscapedCountedNotRewritten | fix-api-calls-v2.js:75-88 | a file whose only calls are escaped quote forms is reported as updated with those calls counted, yet the calls stay as they were |
| FixApiCallsV2.EscapedPasses | fix-api-calls-v2.js:75-88 | the escaped quote forms are counted but not rewritten |
| FixApiCallsV2.QuoteFixWithoutBase | fix-api-calls-v2.js:98-99 | without the rewritten base in the text the repair changes nothing |
| FixApiCallsV2.RepairWithoutBase | fix-api-calls-v2.js:97-100 | both repairs leave a text without the rewritten base unchanged |
| FixApiCallsV2.QuoteFixOne | fix-api-calls-v2.js:98-99 | a rewritten call whose path ends in the quote, spaces and a comma gets a closing backtick and loses the spaces |
| FixApiCallsV2.MatchOne | fix-api-calls-v2.js:98-99 | the repair pattern matches such a call up to its comma |
| FixApiCallsV2.FixSplices | fix-api-calls-v2.js:103-131 | the declaration goes in only when the file was modified, did not mention the base and has a declaration to anchor it, as one extra line |
| FixApiCallsV2.RunScript | fix-api-calls-v2.js:55-142 | the main loop with its running totals computes the run of the specification |
| FixApiCallsV2.RunTotals | fix-api-calls-v2.js:134-146 | the totals are the sums over the per-file reports, one report per path, each updated file counting at least one call |
| FixApiCallsV2.RunFiles | fix-api-calls-v2.js:55-142 | a run touches only listed files, each ending as one fix leaves it |
| FixApiCallsV2.RewriteCalls | fix-api-calls-v2.js:74-94 | the patterns.forEach of counts and replaces; RewritePass states one pass and RewriteClears what is left after both |
| FixApiCallsV2.HasBase | fix-api-calls-v2.js:71 | `hasAPIBase`; FixSplices states that the declaration goes in only without it |
| FixApiCallsV2.QuoteFix | fix-api-calls-v2.js:98-99 | one global replace of the repair pattern; QuoteFixOne states what it does to a rewritten call, QuoteFixWithoutBase that it changes nothing without one |
| FixApiCallsV2.Repair | fix-api-calls-v2.js:97-100 | both quote repairs; RepairWithoutBase states that a text without the rewritten base is unchanged |
| FixApiCallsV2.Splice | fix-api-calls-v2.js:103-131 | the declaration splice, or no change when the search found nothing; SpliceDeclaration computes it and InsertIndexNone states when nothing is inserted |
| FixApiCallsV2.Fix | fix-api-calls-v2.js:63-134 | one file's fix; FixFile computes it, FixModified, EscapedCountedNotRewritten and FixSplices state when it writes, what it counts and when it splices |
| FixApiCallsV2.Step | fix-api-calls-v2.js:55-142 | one iteration of the forEach; RunScript computes the run of them |
| FixApiCallsV2.RunAll | fix-api-calls-v2.js:55-146 | the script's run; RunScript computes it, RunTotals and RunFiles state its totals and files |
| FixApiCallsV2.UpdatedCount | fix-api-calls-v2.js:134-146 | the number of updated reports; RunTotals states that it is the files-updated total |
| FixApiCallsV2.ReplacementSum | fix-api-calls-v2.js:134-146 | the sum of the updated reports' counts; RunTotals states that it is the calls-fixed total |
| Ganzhi.TablesDistinct | src/lib/baziCalculator.js:12-38 | ten distinct stems, twelve distinct branches and five elements |
| Ganzhi.StemOrdinalInverse | src/lib/baziCalculator.js:12-24 | indexOf finds each stem at its own index |
| Ganzhi.BranchOrdinalInverse | src/lib/baziCalculator.js:26-38 | indexOf finds each branch at its own index |
| Ganzhi.JsRem | api-reference/daily-fortune.js:77-86 | the % operator keeps the sign of the dividend: a negative year or day count gives a remainder in (−n, 0] |
| Ganzhi.At | api-reference/daily-fortune.js:77-86 | indexing a table gives undefined outside it and the entry inside it |
| Ganzhi.Plus | api-reference/daily-fortune.js:88-91 | adding two looked-up characters is NaN exactly when both are undefined, and otherwise the text of the two with undefined printed by name |
| Ganzhi.StemElementOfRule | src/lib/baziCalculator.js:42-52 | the stem-to-element dictionary holds exactly the ten stems, each with the element of its pair |
| Ganzhi.ElementOrEarth | src/app/api/couple-specific-problem-analysis/route.js:224-238 | an unknown or missing stem defaults to 土 |
| Ganzhi.JoinAtRem | api-reference/daily-fortune.js:77-91 | with non-negative dividends the remainders index both tables and the sum is the two-character pillar |
| Ganzhi.CharAt | api-reference/daily-fortune.js:114-141 | indexing a pillar gives undefined past its end or on NaN |
| Ganzhi.StemElement | src/lib/baziCalculator.js:42-52 | the element of a stem index, two stems per element; StemElementOfRule and BaziCalculator.WuXingRule state that the dictionaries give it |
| Ganzhi.StemElementOf | src/lib/baziCalculator.js:42-52 | the stem-to-element dictionary the calculators repeat; StemElementOfRule states that it holds exactly the ten stems, each with its pair's element |
| Ganzhi.BranchElement | src/lib/baziCalculator.js:53-64 | the element of a branch index; BaziCalculator.WuXingRule and DailyFortune.GetElementOfBranch state that the dictionaries give it |
| Ganzhi.JoinAt | api-reference/daily-fortune.js:88-91 | `stems[s] + branches[b]` with JavaScript's undefined and NaN; JoinAtRem states that in range it is the two-character pillar |
| GanzhiAnalysis.GetYearlyStems | src/app/api/ganzhi-analysis/route.js:41-60 | from the year 4 on the year's stem and branch are the remainders of year − 4 |
| GanzhiAnalysis.GenerateBaZi | src/app/api/ganzhi-analysis/route.js:63-121 | null exactly for a missing birth date |
| GanzhiAnalysis.JsFloorDiv | src/app/api/ganzhi-analysis/route.js:108-109 | Math.floor of a quotient by a positive divisor is the floor |
| GanzhiAnalysis.PillarIndices | src/app/api/ganzhi-analysis/route.js:74-116 | for a valid date each pillar is the stem and branch of its index: year − 4, month − 1, day − 1 and ⌊hour/2⌋ |
| GanzhiAnalysis.PillarsInCycle | src/app/api/ganzhi-analysis/route.js:74-116 | each pillar of a valid date is one of the sixty of the cycle |
| GanzhiAnalysis.PillarsAreStemBranch | src/app/api/ganzhi-analysis/route.js:104-116 | each pillar of a valid date is exactly one stem followed by one branch |
| GanzhiAnalysis.InvalidDatePillars | src/app/api/ganzhi-analysis/route.js:67-116 | an unparseable date prints undefinedundefined for every pillar |
| GanzhiAnalysis.LookupPillar | src/app/api/ganzhi-analysis/route.js:104-116 | a pillar printed from two table lookups; PillarIndices and PillarsAreStemBranch state what it gives for a valid date |
| GanzhiAnalysis.CyclePillar | src/app/api/ganzhi-analysis/route.js:74-116 | the pillar at a position of the sixty cycle, the reference PillarIndices holds each pillar to |
| IndividualAnalysis.FullDateTime | src/app/api/individual-analysis/route.js:9-16 | a date with neither T nor a space gets " 12:00"; anything else is kept |
| IndividualAnalysis.FullDateTimeIdempotent | src/app/api/individual-analysis/route.js:9-16 | defaulting twice is defaulting once |
| IndividualAnalysis.HourPillarRule | src/app/api/individual-analysis/route.js:32-37 | for a real hour and day stem the hour pillar is the 五鼠遁 pillar: the 子 hour of a day with stem d has stem 2d mod 10, and each period advances one stem and one branch |
| IndividualAnalysis.HourPillarByIndices | src/app/api/individual-analysis/route.js:32-37 | the same pillar in the index form (d·12 + b) mod 10 |
| IndividualAnalysis.HourPillarInCycle | src/app/api/individual-analysis/route.js:32-37 | stem and branch share their parity, so the hour pillar is one of the sixty |
| IndividualAnalysis.HourPillarUnknownDayStem | src/app/api/individual-analysis/route.js:33-37 | with an unknown day stem (index −1) only the 寅 period lands on a stem (甲); every other period prints undefined |
| IndividualAnalysis.CalculateBaziWithTime | src/app/api/individual-analysis/route.js:6-64 | a calculation that throws gives the fixed fallback chart; otherwise the elements are those of the calendar's pillars and the hour pillar follows the hour rule |
| IndividualAnalysis.FallbackChartElements | src/app/api/individual-analysis/route.js:55-62 | the fallback's elements are those of its stems: 甲 gives 木 and 己 gives 土 |
| IndividualAnalysis.FallbackChartMonth | src/app/api/individual-analysis/route.js:57 | the fallback's month 丙寅 is the 寅 month of a 甲 year in the 五虎遁 table |
| IndividualAnalysis.FallbackChartHour | src/app/api/individual-analysis/route.js:59 | the fallback's hour 甲子 is the 子 hour of its 己 day |
| IndividualAnalysis.Handle | src/app/api/individual-analysis/route.js:70-121 | bad JSON or a missing birth date gives 400; otherwise the chart is the one calculateBaziWithTime gives |
| IndividualAnalysis.HourPillar | src/app/api/individual-analysis/route.js:32-37 | the hour pillar from the day stem character; HourPillarRule and HourPillarUnknownDayStem state it for a real and an unknown day stem |
| IndividualAnalysis.HourPillarAt | src/app/api/individual-analysis/route.js:33-37 | the hour pillar from the day stem's index; HourPillarByIndices and HourPillarInCycle state its indices and that it is in the cycle |
| JiXiongAnalysis.Gather | src/app/api/jixiong-analysis/route.js:584-587 | taking hits while fewer than `cap` items are held keeps the items already held as a prefix and never goes past `cap` |
| JiXiongAnalysis.GatherMadeFrom | src/app/api/jixiong-analysis/route.js:584-631 | every item added is what the item rule made of one of the hits, at the count of items held when it was added |
| JiXiongAnalysis.GatherPatterns | src/app/api/jixiong-analysis/route.js:582-633 | trying the patterns in turn and stopping at `cap` keeps the held items as a prefix and never exceeds `cap` |
| JiXiongAnalysis.GatherPatternsMadeFrom | src/app/api/jixiong-analysis/route.js:582-633 | every item gathered over all patterns comes from some hit of some pattern |
| JiXiongAnalysis.GatherHits | src/app/api/jixiong-analysis/route.js:365-406 | the `while (exec(...) && items.length < cap)` loop computes exactly the gathering function |
| JiXiongAnalysis.GatherEachPattern | src/app/api/jixiong-analysis/route.js:359-413 | the loop over patterns with its break once `cap` items are held computes exactly the pattern gathering function |
| JiXiongAnalysis.CjkPhrases | src/app/api/jixiong-analysis/route.js:478 | each phrase found is four ideographs of the U+4E00..U+9FFF block occurring in the text |
| JiXiongAnalysis.CjkPhrasesEmpty | src/app/api/jixiong-analysis/route.js:478 | no phrase is found exactly when no four ideographs stand in a row |
| JiXiongAnalysis.CjkPhrasesFirst | src/app/api/jixiong-analysis/route.js:382-384 | the first phrase found is the leftmost run of four ideographs, the one a non-global match returns |
| JiXiongAnalysis.ShortTitle | src/app/api/jixiong-analysis/route.js:381-389 | a title of at most 8 characters is kept; a longer one becomes four characters: a run of four ideographs it contains, or its first four characters when it has none |
| JiXiongAnalysis.LineBreaksToSpace | src/app/api/jixiong-analysis/route.js:392-395 | after replacing each run of `\r` and `\n` by a space no line break remains |
| JiXiongAnalysis.ExtractNumberedItems | src/app/api/jixiong-analysis/route.js:336-418 | the method over the five patterns with the six-item cap computes exactly the numbered-items function |
| JiXiongAnalysis.NumberedItemsRule | src/app/api/jixiong-analysis/route.js:364-407 | at most six items are found; each is made of a hit whose trimmed description is longer than 30 characters, with its cleaned title shortened to at most 8 characters and its cleaned description |
| JiXiongAnalysis.FirstIdiom | src/app/api/jixiong-analysis/route.js:468-473 | the idiom returned is a listed one the text contains, and none is returned only when the text contains no listed idiom |
| JiXiongAnalysis.FirstMeaningful | src/app/api/jixiong-analysis/route.js:479-496 | the phrase returned starts with no weak character and holds a strong one, and none is returned only when no phrase qualifies |
| JiXiongAnalysis.MeaningfulTitleRule | src/app/api/jixiong-analysis/route.js:428-500 | a title found is a listed idiom or a meaningful four-ideograph phrase, and the text contains it; no title is found only when no listed idiom occurs |
| JiXiongAnalysis.FirstRule | src/app/api/jixiong-analysis/route.js:522-549 | the keyword rule chosen is the first whose either keyword occurs in the content; none is chosen only when no keyword of any rule occurs |
| JiXiongAnalysis.ContextualTitleOfNothing | src/app/api/jixiong-analysis/route.js:502-550 | with empty content the title for positions 0 to 5 is the table entry of that position |
| JiXiongAnalysis.CutFrom | src/app/api/jixiong-analysis/route.js:626-627 | cutting at a marker leaves text unchanged when the marker is absent, and otherwise keeps exactly the text before its first occurrence |
| JiXiongAnalysis.Padded | src/app/api/jixiong-analysis/route.js:695-714 | padding keeps the items found as a prefix and ends with exactly three items when at most three were found |
| JiXiongAnalysis.ExtractItems | src/app/api/jixiong-analysis/route.js:420-717 | the method (short-content loop, strategies, padding, slice) computes exactly the section-items function |
| JiXiongAnalysis.ShortList | src/app/api/jixiong-analysis/route.js:553-570 | a content under fifty characters gives the three contextual items of its kind |
| JiXiongAnalysis.PadToThree | src/app/api/jixiong-analysis/route.js:695-713 | padding keeps every gathered item and appends fallback items until there are at least three |
| JiXiongAnalysis.SectionItemsRule | src/app/api/jixiong-analysis/route.js:553-570 | a section always yields exactly three items; one under 50 characters yields the first three table titles with the short text |
| JiXiongAnalysis.ParseJiXiongContent | src/app/api/jixiong-analysis/route.js:206-325 | the method computes exactly the parsed-content function |
| JiXiongAnalysis.SplitRule | src/app/api/jixiong-analysis/route.js:248-274 | with neither section found and at least three numbered items, the items are split with the first half rounded up as 吉象, both halves non-empty and together all the items |
| JiXiongAnalysis.ErrorRule | src/app/api/jixiong-analysis/route.js:297-325 | the truncation error occurs iff no section was found, fewer than three numbered items exist and the trimmed answer does not end in 。！？】 or }; it carries empty lists; a found section always gives three items |
| JiXiongAnalysis.Post | src/app/api/jixiong-analysis/route.js:8-204 | 400 iff the body has no user information; success iff the AI answered with non-empty content, echoing that content and its parse; "AI analysis service unavailable" iff the AI status was not OK |
| JiXiongAnalysis.MadeFrom | src/app/api/jixiong-analysis/route.js:584-631 | every item added comes from some hit at the count it was added at; GatherMadeFrom and GatherPatternsMadeFrom state that gathering keeps it |
| JiXiongAnalysis.Cjk | src/app/api/jixiong-analysis/route.js:478 | `[一-鿿]`; CjkPhrases states that each phrase found is four such characters |
| JiXiongAnalysis.RunAt | src/app/api/jixiong-analysis/route.js:478 | four ideographs in a row at a position; CjkPhrasesEmpty and CjkPhrasesFirst state that phrases are found exactly at such runs, leftmost first |
| JiXiongAnalysis.CleanTitle | src/app/api/jixiong-analysis/route.js:375-378 | a title without ** or 【】, trimmed; NumberedItemsRule states that each numbered item's title is shortened from it |
| JiXiongAnalysis.CleanDescription | src/app/api/jixiong-analysis/route.js:392-395 | a description without ** with line-break runs as spaces, trimmed; LineBreaksToSpace states that no line break remains |
| JiXiongAnalysis.NumberedItem | src/app/api/jixiong-analysis/route.js:366-405 | the item made of one numbered hit; NumberedItemsRule states that each item found comes from a hit with a description over 30 characters |
| JiXiongAnalysis.NumberedItems | src/app/api/jixiong-analysis/route.js:341-418 | `extractNumberedItems`; ExtractNumberedItems computes it and NumberedItemsRule states its cap of six and each item's origin |
| JiXiongAnalysis.MeaningfulTitle | src/app/api/jixiong-analysis/route.js:428-500 | `extractMeaningfulTitles`; MeaningfulTitleRule states that a title found is a listed idiom or a meaningful phrase the text contains |
| JiXiongAnalysis.Rules | src/app/api/jixiong-analysis/route.js:522-549 | the keyword rules of `generateContextualTitle`; FirstRule states that the first rule with a keyword in the content is chosen |
| JiXiongAnalysis.TitleTable | src/app/api/jixiong-analysis/route.js:502-520 | the titles by position; ContextualTitleOfNothing states that empty content gets the entry of its position |
| JiXiongAnalysis.ContextualTitle | src/app/api/jixiong-analysis/route.js:502-550 | `generateContextualTitle`; FirstRule states which rule it takes and ContextualTitleOfNothing what empty content gets |
| JiXiongAnalysis.SectionTitle | src/app/api/jixiong-analysis/route.js:594-618 | a section item's title: a meaningful title, else the cleaned title, else a contextual one when that is short or starts with a weak character |
| JiXiongAnalysis.SectionItem | src/app/api/jixiong-analysis/route.js:588-629 | the item a section hit gives; CutFrom states what cutting at --- and ### keeps, and ExtractItems gathers the items |
| JiXiongAnalysis.ShortItems | src/app/api/jixiong-analysis/route.js:553-570 | the three items of a short section; ShortList computes them and SectionItemsRule states their titles and text |
| JiXiongAnalysis.SectionItems | src/app/api/jixiong-analysis/route.js:420-717 | `extractItems`; ExtractItems computes it, SectionItemsRule states that it always gives exactly three items and what a short section gives, Padded and PadToThree what padding keeps |
| JiXiongAnalysis.SeemsTruncated | src/app/api/jixiong-analysis/route.js:304-305 | the last character of the trimmed answer is not 。！？】 or }; ErrorRule states that the truncation error needs it |
| JiXiongAnalysis.Half | src/app/api/jixiong-analysis/route.js:260 | `Math.ceil(n / 2)`; SplitRule states that the first half gets that many items |
| JiXiongAnalysis.ParsedContent | src/app/api/jixiong-analysis/route.js:206-325 | `parseJiXiongContent`; ParseJiXiongContent computes it, SplitRule and ErrorRule state how numbered items are split and when the error occurs |
| MingJu.NormalizeConcern | src/components/MingJu.jsx:11-22 | a concern changes exactly when it is one of the four simplified spellings 事业/财运/关系/恋爱, and then becomes 事業, 財運 or 感情 |
| MingJu.NormalizeConcernIdempotent | src/components/MingJu.jsx:11-22 | normalising an already normalised concern changes nothing |
| MingJu.CurrentYearGanZhi | src/components/MingJu.jsx:25-61 | the result carries the given year beside its ganzhi |
| MingJu.YearGanZhiCycle | src/components/MingJu.jsx:54-59 | from year 4 on the ganzhi is stem (y−4)%10 followed by branch (y−4)%12, and it repeats every 60 years |
| MingJu.YearGanZhi2025 | src/components/MingJu.jsx:54-59 | 2025 is 乙巳 |
| MingJu.YearGanZhiBeforeCycle | src/components/MingJu.jsx:54-59 | for years 0–3 both JavaScript remainders are negative, both lookups are undefined, and the sum is NaN |
| MingJu.NumeralAt | src/components/MingJu.jsx:81-83 | a capture of `\d+\.?\d*` before `%` has at least one whole digit, only digits after the point, and is a prefix of the text |
| MingJu.FirstMatch | src/components/MingJu.jsx:81-83 | the position returned is the leftmost one where `element:` and a percentage match; -1 means none matches |
| MingJu.ScaleMatch | src/components/MingJu.jsx:79-84 | there is no capture exactly when the pattern matches nowhere in the scale |
| MingJu.DayMasterStrength | src/components/MingJu.jsx:77-94 | the strength is one of 偏強/偏弱/中等, and 中等 when the scale holds no percentage for the day element |
| MingJu.FractionBounds | src/components/MingJu.jsx:86 | the digits after the point weigh less than one, and weigh nothing exactly when all are zero |
| MingJu.StrengthByDigits | src/components/MingJu.jsx:84-94 | with a percentage found: 偏強 iff its whole part is at least 35; 偏弱 iff the whole part is below 15 or is 15 with only zeros after the point; 中等 otherwise |
| MingJu.ElementSlot | src/components/MingJu.jsx:97-123 | the element's position in 木火土金水, -1 exactly for any other name |
| MingJu.ElementTraits | src/components/MingJu.jsx:125-126 | a known element gets its own table entry, any other name gets 土's |
| MingJu.ElementTraitsDistinct | src/components/MingJu.jsx:97-126 | different elements carry different traits, and the empty name reads as 土 |
| MingJu.AccurateBaziInfo | src/components/MingJu.jsx:64-153 | when the chart library throws the fixed 庚子/壁上土/庚金 summary is returned; otherwise the day master is the day stem plus its element, the traits are the day element's, and a missing scale gives 中等 |
| MingJu.TabConfig | src/components/MingJu.jsx:155-252 | 事業 and 工作 share the career tabs; any concern without an entry gets the 財運 tabs |
| MingJu.ConcernKey | src/components/MingJu.jsx:258-266 | any concern without an entry in the concern map gets the key "wealth" |
| MingJu.ConcernKeyMatchesConfig | src/components/MingJu.jsx:155-266 | two concerns share a translation key exactly when they share a tab configuration |
| MingJu.TabLabel | src/components/MingJu.jsx:254-279 | an unknown tab gets ""; a known tab gets a non-empty configured caption without a translator and a translator key with one |
| MingJu.TabImg | src/components/MingJu.jsx:281-286 | an unknown tab gets "" and each of the three tabs gets a non-empty image path |
| MingJu.TabImgColor | src/components/MingJu.jsx:301-312 | a selected tab's icon colour is #FFFFFF; an unknown tab gets #B4003C |
| MingJu.SelectedTabStandsOut | src/components/MingJu.jsx:288-299 | every unselected tab sits on #EFEFEF, and a selected tab of the three always changes colour |
| MingJu.UnknownConcernLooksLikeWealth | src/components/MingJu.jsx:250-312 | a concern without a configuration gets the same labels, images and colours as 財運 in every tab |
| MingJu.UnselectedIconMatchesSelectedGround | src/components/MingJu.jsx:2950-3027 | an unselected icon gets the filter of the colour its tab turns when selected; the day-master tab's "#F" reaches the fallback, which is the #B4003C filter |
| MingJu.Age | src/components/MingJu.jsx:453-457 | the age is NaN exactly for an unreadable date; without a date it is 25 |
| MingJu.LifeStage | src/components/MingJu.jsx:458-469 | 青年 iff the age is below 35; 中年 iff it is 35 to 54; 長者 iff it is 55 or more or NaN |
| MingJu.LifeStageByBirthYear | src/components/MingJu.jsx:453-469 | born after 1990: 青年; 1971–1990: 中年; up to 1970: 長者; a missing date counts as 2000; an unreadable one gives 長者 |
| MingJu.GenderRef | src/components/MingJu.jsx:462-467 | 女性 exactly for female/女/女性; 男性 for every other input |
| MingJu.CacheKey | src/components/MingJu.jsx:2718-2720 | the key starts with the tab and an underscore |
| MingJu.CacheKeySplits | src/components/MingJu.jsx:2718-2720 | while tab, date and concern hold no underscore, splitting the key on "_" gives back the tab, date, concern and year, so different inputs never share a cache entry |
| MingJu.MatchesAt | src/components/MingJu.jsx:81-83 | the pattern `element:` and a percentage matches at a position; FirstMatch and ScaleMatch state that the search finds the leftmost such position |
| MingJu.FractionValue | src/components/MingJu.jsx:86 | the value of the digits after the point; FractionBounds states that it is below one and zero exactly when all digits are zero |
| MingJu.Value | src/components/MingJu.jsx:86 | `parseFloat` of the capture, read exactly; StrengthByDigits states the strength it leads to by its whole digits |
| MingJu.TabBg | src/components/MingJu.jsx:288-299 | `getTabBg`; SelectedTabStandsOut and UnknownConcernLooksLikeWealth state the unselected ground and that a selected tab changes colour |
| MingJu.IconTone | src/components/MingJu.jsx:2950-3027 | the filter family a tint colour gets; UnselectedIconMatchesSelectedGround states that an unselected icon takes its tab's selected colour |
| PatchText.ApiBaseLineLacks | fix-api-calls.js:7-139 | the declaration line holds no newline and no call prefix character |
| PatchText.PrefixShapes | fix-api-calls.js:74-104 | each call prefix the patchers look for starts with fetch( and ends with /api/; the quote forms hold no backtick |
| PatchText.TemplateShape | fix-api-calls.js:80 | the rewritten prefix is fetch( then a backtick and ${API_BASE}/api/ |
| PatchText.TemplateIsNoPrefix | fix-api-calls.js:73-107 | a rewritten call prefix is none of the prefixes the patchers look for |
| PatchText.TemplateCannotForm | fix-api-calls.js:73-107 | the rewritten text can neither start nor complete a call prefix, so the replacements create no new match |
| PatchText.InsertedLinesSplit | fix-api-calls.js:139-140 | splitting the spliced, re-joined file gives back the spliced lines |
| PatchText.SpliceAddsNoCall | fix-api-calls.js:139-140 | splicing the declaration into a file without a call prefix adds none |
| PatchText.InsertAt | fix-api-calls.js:139-140 | `lines.splice(k, 0, line)`; InsertedLinesSplit and SpliceAddsNoCall state what the spliced file reads back as and that it adds no call |
| QuestionFocusAnalysis.KeyIndex | src/app/api/question-focus-analysis/route.js:41 | the position of an element among the keys 金木水火土, −1 for any other character |
| QuestionFocusAnalysis.RoundedCountNearest | src/app/api/question-focus-analysis/route.js:51-53 | the count is the integer nearest to percent·8/100, halves rounded up |
| QuestionFocusAnalysis.RoundedCountRange | src/app/api/question-focus-analysis/route.js:51-53 | a percentage between 0 and 100 gives a count between 0 and 8 |
| QuestionFocusAnalysis.RoundedCountNonNegative | src/app/api/question-focus-analysis/route.js:46-53 | the percentages have no sign, so counts are never negative |
| QuestionFocusAnalysis.CountElements | src/app/api/question-focus-analysis/route.js:41-56 | the forEach over the scale's matches sets each element's count from its last entry, 0 when it has none |
| QuestionFocusAnalysis.CountOfAbsent | src/app/api/question-focus-analysis/route.js:41 | an element with no entry counts 0 |
| QuestionFocusAnalysis.CountOfRange | src/app/api/question-focus-analysis/route.js:46-53 | entries between 0 and 100 percent give counts between 0 and 8 |
| QuestionFocusAnalysis.Entries | src/app/api/question-focus-analysis/route.js:59 | Object.entries lists the five elements in key order with their counts |
| QuestionFocusAnalysis.FirstMax | src/app/api/question-focus-analysis/route.js:59-61 | the position of the first largest count |
| QuestionFocusAnalysis.SortDescending | src/app/api/question-focus-analysis/route.js:59-61 | the stable sort keeps the number of pairs |
| QuestionFocusAnalysis.SortDescendingMembers | src/app/api/question-focus-analysis/route.js:59-61 | the sort keeps exactly the pairs it is given |
| QuestionFocusAnalysis.SortDescendingSorted | src/app/api/question-focus-analysis/route.js:59-61 | the sort's result is in descending order of count |
| QuestionFocusAnalysis.PositivePrefix | src/app/api/question-focus-analysis/route.js:62-68 | in a descending list without negative counts the positive entries form a prefix and the zero entries the rest |
| QuestionFocusAnalysis.AllZero | src/app/api/question-focus-analysis/route.js:62-68 | a descending list without negative counts that starts at 0 is all zeros |
| QuestionFocusAnalysis.Strongest | src/app/api/question-focus-analysis/route.js:62-65 | at most two strongest elements |
| QuestionFocusAnalysis.SortedShape | src/app/api/question-focus-analysis/route.js:59-68 | the sorted pairs are the positive ones followed by the zeros |
| QuestionFocusAnalysis.StrongestRule | src/app/api/question-focus-analysis/route.js:62-65 | the strongest have positive counts, at most two of them, and a positive element left out means two were taken, each at least as strong |
| QuestionFocusAnalysis.WeakestWithZero | src/app/api/question-focus-analysis/route.js:66-68 | with some element at 0 the weakest are exactly the elements at 0 |
| QuestionFocusAnalysis.WeakestAllPositive | src/app/api/question-focus-analysis/route.js:71-73 | with every element above 0 the weakest are two elements no stronger than any other |
| QuestionFocusAnalysis.Counts | src/app/api/question-focus-analysis/route.js:41-56 | the counts the scale's entries give, in key order |
| QuestionFocusAnalysis.LibraryInput | src/app/api/question-focus-analysis/route.js:8-21 | a date without a time gets noon, and a missing gender reads as male |
| QuestionFocusAnalysis.BaziOf | src/app/api/question-focus-analysis/route.js:8-113 | no chart exactly when the library gives none; otherwise the counts of its scale and at most two strongest elements |
| QuestionFocusAnalysis.WrongPatternsPillarLike | src/app/api/question-focus-analysis/route.js:298-307 | eight wrong patterns, each a two-character pillar-like text |
| QuestionFocusAnalysis.Replacements | src/app/api/question-focus-analysis/route.js:320-355 | one replacement per wrong pattern, in order |
| QuestionFocusAnalysis.StepsKeepClean | src/app/api/question-focus-analysis/route.js:320-355 | text without any wrong pattern goes through every replacement unchanged |
| QuestionFocusAnalysis.GuardIsRedundant | src/app/api/question-focus-analysis/route.js:308-355 | the some-pattern guard changes nothing: correcting is the same as always running the replacements |
| QuestionFocusAnalysis.StepRemoves | src/app/api/question-focus-analysis/route.js:320-355 | a replacement removes its pattern and, by a pillar-like text, creates no other |
| QuestionFocusAnalysis.StepsRemove | src/app/api/question-focus-analysis/route.js:320-355 | after the replacements none of the wrong patterns replaced so far is left |
| QuestionFocusAnalysis.CorrectionRemovesWrongPatterns | src/app/api/question-focus-analysis/route.js:297-358 | with a well-formed chart none of whose pillars is on the wrong list, the corrected content holds no wrong pattern |
| QuestionFocusAnalysis.CorrectDayPillarOverwritten | src/app/api/question-focus-analysis/route.js:298-355 | a chart whose own day pillar 丙午 is on the wrong list loses it: an answer naming it comes back naming the hour pillar |
| QuestionFocusAnalysis.FallbackRule | src/app/api/question-focus-analysis/route.js:385-412 | a known concern gets its own guidance titled after it; any other gets the general one |
| QuestionFocusAnalysis.SolutionRule | src/app/api/question-focus-analysis/route.js:284-383 | on failure the stock guidance; without a readable object the trimmed text under a title naming the concern; otherwise the parsed object with its title kept |
| QuestionFocusAnalysis.SolutionHasNoWrongPattern | src/app/api/question-focus-analysis/route.js:297-358 | with a well-formed chart no wrong pattern survives in a parsed answer's content |
| QuestionFocusAnalysis.Post | src/app/api/question-focus-analysis/route.js:420-449 | 400 exactly for a body without user info, problem or concern; 500 for an unreadable body; otherwise the solution |
| QuestionFocusAnalysis.RoundedCount | src/app/api/question-focus-analysis/route.js:53 | `Math.round((percent / 100) * 8)` in exact arithmetic; RoundedCountNearest, RoundedCountRange and RoundedCountNonNegative state that it is the nearest integer and lies in 0..8 |
| QuestionFocusAnalysis.CountOf | src/app/api/question-focus-analysis/route.js:41-56 | an element's count after the forEach, the last entry deciding; CountElements computes it and CountOfAbsent and CountOfRange state its default and range |
| QuestionFocusAnalysis.Sorted | src/app/api/question-focus-analysis/route.js:59-61 | the count pairs after the stable descending sort; SortedShape states that the positive pairs come first, then the zero ones |
| QuestionFocusAnalysis.Weakest | src/app/api/question-focus-analysis/route.js:66-73 | `weakestElements`; WeakestWithZero and WeakestAllPositive state that it is exactly the elements at 0, or the last two when none is |
| QuestionFocusAnalysis.BalanceOf | src/app/api/question-focus-analysis/route.js:59-73 | the strongest and weakest elements of the counts; StrongestRule, WeakestWithZero and WeakestAllPositive state which elements each holds |
| QuestionFocusAnalysis.ReplaceSteps | src/app/api/question-focus-analysis/route.js:320-355 | the text after the first n global replacements; StepsRemove states that none of their wrong patterns is left and StepsKeepClean that clean text is unchanged |
| QuestionFocusAnalysis.Corrected | src/app/api/question-focus-analysis/route.js:297-358 | the content after the wrong-pillar correction; GuardIsRedundant states that the guard changes nothing and CorrectionRemovesWrongPatterns that no wrong pattern is left |
| QuestionFocusAnalysis.HasObject | src/app/api/question-focus-analysis/route.js:288 | `/\{[\s\S]*\}/` matches; SolutionRule states that the plain answer is used without it |
| QuestionFocusAnalysis.PlainAnswer | src/app/api/question-focus-analysis/route.js:367-380 | the answer made of the trimmed reply under the concern's title; SolutionRule states when it is used |
| QuestionFocusAnalysis.Fallback | src/app/api/question-focus-analysis/route.js:385-412 | the stock guidance by concern; FallbackRule states that a known concern gets its own title and any other the general guidance |
| QuestionFocusAnalysis.Solution | src/app/api/question-focus-analysis/route.js:284-383 | `generatePersonalizedSolution` once the chart and reply are known; SolutionRule states each case and SolutionHasNoWrongPattern that no wrong pillar survives |
| RestartChemistry.Or | src/app/api/restart-chemistry/route.js:66-81 | the JavaScript or of two strings: a non-empty first string wins, otherwise the second |
| RestartChemistry.IceBreakers | src/app/api/restart-chemistry/route.js:84-162 | three rituals of three steps each with the shared gradient; the principles name the year, day and month pillars in that order |
| RestartChemistry.PrincipleNamesPillars | src/app/api/restart-chemistry/route.js:106-159 | each principle holds the female pillar right after its opening and the male pillar right after that pillar's kind |
| RestartChemistry.ParseRestartChemistry | src/app/api/restart-chemistry/route.js:36-180 | null exactly when the content is missing, empty or not a string |
| RestartChemistry.ExtractedPillarsNonEmpty | src/app/api/restart-chemistry/route.js:64-82 | every pillar read is non-empty |
| RestartChemistry.ExtractYearOrder | src/app/api/restart-chemistry/route.js:65-78 | a pillar is read from the .year field when set, else .yearPillar when set, else the default |
| RestartChemistry.EmptyObjectIsDefault | src/app/api/restart-chemistry/route.js:62-82 | an object without pillar fields gives the same pillars as no object |
| RestartChemistry.ParsedShape | src/app/api/restart-chemistry/route.js:84-175 | three rituals of three steps each with the same gradient, and the advice in the chosen script |
| RestartChemistry.ContentIgnored | src/app/api/restart-chemistry/route.js:43-175 | the answer's text is never read: any two non-empty answers give the same result |
| RestartChemistry.IceBreakerNamesPillars | src/app/api/restart-chemistry/route.js:104-160 | ritual k's principle names the female and the male pillar of its kind |
| RestartChemistry.ParsedRituals | src/app/api/restart-chemistry/route.js:62-175 | the parsed rituals are those of the pillars read from the couple's chart data |
| RestartChemistry.ExtractPillars | src/app/api/restart-chemistry/route.js:64-82 | each pillar from .year, then .yearPillar, then the default; ExtractYearOrder, ExtractedPillarsNonEmpty and EmptyObjectIsDefault state the order, non-emptiness and defaults |
| RestartChemistry.Principle | src/app/api/restart-chemistry/route.js:106-159 | a ritual's principle text; PrincipleNamesPillars states where the female and the male pillar sit in it |
| RestartChemistry.PillarOfKind | src/app/api/restart-chemistry/route.js:104-160 | the year, day or month pillar of ritual k; IceBreakerNamesPillars states that ritual k's principle names those of both partners |
| RestartChemistry.GeneralAdvice | src/app/api/restart-chemistry/route.js:168-174 | the closing advice in either script; ParsedShape states that every parse carries it |
| SeasonAnalysis.SeasonIndex | src/app/api/season-analysis/route.js:306-308 | findIndex gives the position of a season name, −1 for any other name |
| SeasonAnalysis.SeasonsDistinct | src/app/api/season-analysis/route.js:275-304 | the four season names differ |
| SeasonAnalysis.Rotate | src/app/api/season-analysis/route.js:309-315 | the rotation keeps the length |
| SeasonAnalysis.RotateAt | src/app/api/season-analysis/route.js:309-315 | position i of the rotation holds position c + i of the original, counted round the cycle |
| SeasonAnalysis.Ordered | src/app/api/season-analysis/route.js:306-315 | four entries |
| SeasonAnalysis.OrderedRule | src/app/api/season-analysis/route.js:306-315 | the order starts at the current season and runs round the cycle; an unknown current season keeps the base order |
| SeasonAnalysis.OrderedHasAll | src/app/api/season-analysis/route.js:306-315 | every base entry appears in the order, so no season is lost or repeated |
| SeasonAnalysis.SourceInjective | src/app/api/season-analysis/route.js:306-315 | different positions come from different base positions |
| SeasonAnalysis.CurrentFirst | src/app/api/season-analysis/route.js:306-315 | the current season comes first |
| SeasonAnalysis.OneCurrent | src/app/api/season-analysis/route.js:265-320 | exactly the current season is labelled current |
| SeasonAnalysis.BracketRemoved | src/app/api/season-analysis/route.js:328 | removing the first bracket group after a bracket-free text gives back that text |
| SeasonAnalysis.ContextShape | src/app/api/season-analysis/route.js:265-271 | a label is a bracket group around a bracket-free word |
| SeasonAnalysis.UnlabelRoundTrip | src/app/api/season-analysis/route.js:317-328 | removing the label gives back the season's own name |
| SeasonAnalysis.PriorityRule | src/app/api/season-analysis/route.js:50-55 | the current season is tagged for action, else the first season as coming up, every other season for reference |
| SeasonAnalysis.SeasonSectionShape | src/app/api/season-analysis/route.js:49-80 | every section opens with its tag and its season, and only the current season's section ends with the urgent lines |
| SeasonAnalysis.Sentences | src/app/api/season-analysis/route.js:422 | splitting at 。！？ gives at least one piece, and no piece holds a stop |
| SeasonAnalysis.SentencesJoin | src/app/api/season-analysis/route.js:422-428 | joining the sentences with 。 gives the text back with every stop written as 。 |
| SeasonAnalysis.RebuiltShape | src/app/api/season-analysis/route.js:423-430 | the rebuilt text is the first k sentences each with a full stop, at most 1200 characters, and the next sentence would not have fitted |
| SeasonAnalysis.RebuiltEmpty | src/app/api/season-analysis/route.js:423-432 | the rebuilt text is empty exactly when the first sentence does not fit |
| SeasonAnalysis.ShortenRule | src/app/api/season-analysis/route.js:419-433 | a text up to 1500 characters is kept; a longer one becomes whole sentences of at most 1200 characters, or its first 1200 characters and "..." when the first sentence does not fit |
| SeasonAnalysis.ShortenContent | src/app/api/season-analysis/route.js:420-433 | the shortening loop computes the shortened text of the specification |
| SeasonAnalysis.ConcernIndex | src/app/api/season-analysis/route.js:473-495 | the position of a concern among the four, −1 for any other |
| SeasonAnalysis.FallbackContentRule | src/app/api/season-analysis/route.js:457-501 | a known concern's stock text opens with the season's label; any other concern gets the generic sentence |
| SeasonAnalysis.ParsedRule | src/app/api/season-analysis/route.js:262-450 | four seasons in rotated order, each named with its label and read back to its own season; a season whose text was 20 characters or fewer gets the stock text, and a longer one its cleaned, shortened text |
| SeasonAnalysis.ParseSeasonContent | src/app/api/season-analysis/route.js:324-444 | the forEach that fills each season's text gives the parse of the specification |
| SeasonAnalysis.FallbackData | src/app/api/season-analysis/route.js:503-560 | the base order with unlabelled names and the stock texts |
| SeasonAnalysis.Post | src/app/api/season-analysis/route.js:8-259 | 400 exactly without user information; an analysis exactly when the AI call answered with non-empty content |
| SeasonAnalysis.Context | src/app/api/season-analysis/route.js:265-271 | `getSeasonContext`; ContextShape states that it is a bracketed word and OneCurrent that only the current season is labelled current |
| SeasonAnalysis.Labelled | src/app/api/season-analysis/route.js:317-320 | the season name followed by its label; UnlabelRoundTrip states that removing the label gives the season back |
| SeasonAnalysis.RemoveFirstBracket | src/app/api/season-analysis/route.js:328 | `replace(/【[^】]*】/, "")`; BracketRemoved states that a bracket group after bracket-free text is exactly what goes |
| SeasonAnalysis.Priority | src/app/api/season-analysis/route.js:50-55 | a section's tag; PriorityRule states that the current season is tagged for action and otherwise the first season as coming |
| SeasonAnalysis.SeasonSection | src/app/api/season-analysis/route.js:49-80 | `createSeasonSection`; SeasonSectionShape states that it opens with its tag and season and that the current one ends with the urgent lines |
| SeasonAnalysis.Rebuilt | src/app/api/season-analysis/route.js:423-430 | the sentences added while under 1200 characters; RebuiltShape states that it is a prefix of whole sentences within 1200 and RebuiltEmpty when it is empty |
| SeasonAnalysis.WithStops | src/app/api/season-analysis/route.js:423-430 | sentences each followed by 。; SentencesJoin states that rejoining the split text gives it back |
| SeasonAnalysis.Shorten | src/app/api/season-analysis/route.js:419-433 | what a season's text becomes; ShortenContent computes it and ShortenRule states that up to 1500 characters it is kept and otherwise within 1203 |
| SeasonAnalysis.FallbackContent | src/app/api/season-analysis/route.js:457-501 | `getFallbackSeasonContent`; FallbackContentRule states the label and stock text for a known concern and the generic sentence otherwise |
| SeasonAnalysis.SeasonContent | src/app/api/season-analysis/route.js:419-442 | a season's text; ParsedRule states that it is the stock text up to 20 found characters and the shortened cleaned text beyond |
| SeasonAnalysis.SeasonAt | src/app/api/season-analysis/route.js:324-444 | the entry at a position of the order with its label and text; ParseSeasonContent computes the list of them |
| SeasonAnalysis.Parsed | src/app/api/season-analysis/route.js:262-450 | `parseSeasonContent`; ParsedRule states that each of the 4 rotated seasons is labelled and has the text the content rule gives |
| SeasonAnalysis.CurrentSeason | src/app/api/season-analysis/route.js:32 | the given current season, or 秋季 when absent or empty; Parsed and FallbackData label by it |
| SeasonAnalysis.RelevantSeasons | src/app/api/season-analysis/route.js:33-38 | the given season list, kept even when empty, or the four from 秋季 |
| SeasonAnalysis.SeasonSections | src/app/api/season-analysis/route.js:82-84 | `relevantSeasons.map(createSeasonSection).join("\n\n")`; SeasonSectionShape states the shape of each section |
| ApiConfig.ApiBaseUrl | src/lib/apiConfig.ts:10-15 | the environment's base URL when it is set and non-empty, the live server otherwise; never empty |
| ApiConfig.GetApiUrl | src/lib/apiConfig.ts:22-29 | the URL is the base followed by the path, with exactly one slash put in front of a path that lacks one |
| ApiConfig.BuildApiUrl | src/lib/apiConfig.ts:57-59 | the URL built for an endpoint is the one `getApiUrl` gives |
| ApiConfig.GetApiUrlIdempotent | src/lib/apiConfig.ts:22-29 | normalising an already normalised path changes nothing; a path and the same path with a slash in front give the same URL exactly when the path has no slash of its own |
| ApiConfig.Headers | src/lib/apiConfig.ts:39-45 | the request headers hold Content-Type plus every caller header with the caller's value; Content-Type is application/json unless the caller sets it, and no other key appears |
| Middleware.LoginLocale | src/middleware.js:52-66 | the login locale is zh-CN exactly when the referer contains zh-CN, and zh-TW otherwise |
| Middleware.Decide | src/middleware.js:8-77 | the request is redirected exactly when the path is not public, there is neither a token nor a mobile session header, the referer is not the login page and the path contains /design (the /report test cannot fire because every /report path is public); a public path, a token or a mobile session always passes |
| Middleware.RedirectTarget | src/middleware.js:66-74 | the redirect goes to the referer locale's login page with the requested path as callbackUrl |
| Middleware.LoginPageIsPublic | src/middleware.js:11-18 | the login page is public, so a redirected visitor passes on the next request |
| Middleware.IsPublicRoute | src/middleware.js:11-28 | the pages reachable without signing in; Decide states that they always pass and LoginPageIsPublic that the login page is one |
| Middleware.HasMobileSession | src/middleware.js:45-47 | an X-User-Email or X-User-ID header is present and non-empty; Decide states that it lets the request pass |
| Middleware.RefererText | src/middleware.js:51 | the referer header or ""; LoginLocale states that the login locale follows it |
| Middleware.LoginPath | src/middleware.js:66-74 | the login page of a locale; RedirectTarget states that the redirect goes there and LoginPageIsPublic that it is public |
| MobileNavigation.CurrentLocale | src/utils/mobileNavigation.ts:34 | the locale read from the current path is a non-empty segment without a slash |
| MobileNavigation.CurrentLocaleSegment | src/utils/mobileNavigation.ts:34 | the locale is the first segment of the current path when there is one |
| MobileNavigation.CurrentLocaleDefault | src/utils/mobileNavigation.ts:34 | without a first segment the locale falls back to zh-TW |
| MobileNavigation.LocalTarget | src/utils/mobileNavigation.ts:38-40 | the local page starts with the locale prefix and ends with /index.html |
| MobileNavigation.NavigationRemote | src/utils/mobileNavigation.ts:19-47 | the app goes to the live server exactly for a server route on a native platform, with the path appended unchanged; otherwise it goes to the local page under the current locale |
| MobileNavigation.LocalTargetIdempotent | src/utils/mobileNavigation.ts:38-40 | navigating again to a local page without its /index.html lands on the same page |
| MobileNavigation.LocalisedPathStaysLocal | src/utils/mobileNavigation.ts:9-23 | a path under either locale never needs the live server |
| MobileNavigation.NeedsServer | src/utils/mobileNavigation.ts:9-23 | some live-server route is a prefix of the path; LocalisedPathStaysLocal states that a localised path never is one |
| MobileNavigation.NavigationTarget | src/utils/mobileNavigation.ts:19-47 | `navigateMobile`'s target; NavigationRemote states that it is the live server exactly for a server route on a native platform, LocalTarget and LocalTargetIdempotent what the local page is |
| SpecificSuggestionAnalysis.Chosen | src/app/api/specific-suggestion-analysis/route.js:120-136 | the hits used are those of the first pattern that has any, and there are none only when no pattern hit |
| SpecificSuggestionAnalysis.EachOfFirstFive | src/app/api/specific-suggestion-analysis/route.js:144-147 | the `forEach` with its `index < 5` guard yields exactly the first five hits, each made into an item by its position |
| SpecificSuggestionAnalysis.ChooseMatches | src/app/api/specific-suggestion-analysis/route.js:120-136 | the matches tried in order are the chosen hits |
| SpecificSuggestionAnalysis.ColonIndex | src/app/api/specific-suggestion-analysis/route.js:156-157 | the index is never 0; it is -1 iff there is no 「：」 or only one at position 0 with no ":"; otherwise it points at a colon, at ":" only when 「：」 stands at position 0, and at the first 「：」 otherwise |
| SpecificSuggestionAnalysis.RawPieceRule | src/app/api/specific-suggestion-analysis/route.js:150-166 | without a content group the text is either split at a colon in its first 40% (title + colon + content gives the text back) or kept whole behind a numbered title, and it is kept whole exactly when no such colon exists |
| SpecificSuggestionAnalysis.NoColons | src/app/api/specific-suggestion-analysis/route.js:168 | the cleaned title holds no 「：」 or ":" and a title without colons is unchanged |
| SpecificSuggestionAnalysis.DropEnding | src/app/api/specific-suggestion-analysis/route.js:180-195 | removing an anchored ending either leaves the text unchanged or removes exactly that ending |
| SpecificSuggestionAnalysis.CleanContentRule | src/app/api/specific-suggestion-analysis/route.js:169-195 | a cleaned description is at most 150 characters, has no line feed, no white space other than single spaces and never two spaces in a row |
| SpecificSuggestionAnalysis.SuggestionsRule | src/app/api/specific-suggestion-analysis/route.js:118-212 | at most five suggestions, none only when no pattern hit; titles without colons, cleaned descriptions, icon and category taken from the tables by position |
| SpecificSuggestionAnalysis.ParseSuggestionsFromText | src/app/api/specific-suggestion-analysis/route.js:118-212 | the method's result is the specification list of suggestions |
| SpecificSuggestionAnalysis.TaboosRule | src/app/api/specific-suggestion-analysis/route.js:214-315 | at most five taboos, none only when no pattern hit; titles without colons, cleaned descriptions, icon, level and consequence taken by position |
| SpecificSuggestionAnalysis.ParseTaboosFromText | src/app/api/specific-suggestion-analysis/route.js:214-315 | the method's result is the specification list of taboos |
| SpecificSuggestionAnalysis.DeadlineRule | src/app/api/specific-suggestion-analysis/route.js:317-345 | the near-term deadline of both fallback lists is the end of the current month in November and December and the end of October before that, never a past month |
| SpecificSuggestionAnalysis.FarDateRule | src/app/api/specific-suggestion-analysis/route.js:317-345 | the far date of the fallback suggestions lies in next year and names it |
| SpecificSuggestionAnalysis.FallbackSuggestionsRule | src/app/api/specific-suggestion-analysis/route.js:347-411 | exactly five fallback suggestions, each naming its date (near, middle, far, middle, far) |
| SpecificSuggestionAnalysis.FallbackTaboosRule | src/app/api/specific-suggestion-analysis/route.js:414-513 | exactly five fallback taboos, the first opening with the near deadline and all but the fourth naming their date |
| SpecificSuggestionAnalysis.ParseSpecificSuggestionContent | src/app/api/specific-suggestion-analysis/route.js:49-116 | the method's result is the parsed content with empty lists replaced by their fallbacks |
| SpecificSuggestionAnalysis.ParsedContentRule | src/app/api/specific-suggestion-analysis/route.js:99-108 | both lists hold one to five items, and a section with no hit gets exactly its fallback list |
| SpecificSuggestionAnalysis.ErrorFallbackIgnoresLocale | src/app/api/specific-suggestion-analysis/route.js:690-703 | a simplified-script request whose AI call fails is answered in traditional script, since the catch block's second body read fails |
| SpecificSuggestionAnalysis.PostOutcome | src/app/api/specific-suggestion-analysis/route.js:631-738 | 400 iff the body has no user information; an analysis of the answer iff the AI answered; the fallback data otherwise |
| SpecificSuggestionAnalysis.PostContent | src/app/api/specific-suggestion-analysis/route.js:631-738 | the answer's script follows the request locale, and both lists hold one to five items, exactly five on the fallback path |
| SpecificSuggestionAnalysis.AnsweredShape | src/app/api/specific-suggestion-analysis/route.js:656-684 | an analysed answer is titled in the script of its locale and holds one to five suggestions and taboos |
| SpecificSuggestionAnalysis.ErrorDataShape | src/app/api/specific-suggestion-analysis/route.js:690-738 | the error data is titled in its script and holds five suggestions and five taboos |
| SpecificSuggestionAnalysis.FullText | src/app/api/specific-suggestion-analysis/route.js:150-152 | `match[2] \|\| match[1] \|\| ""`; RawPieceRule states what the piece is made of |
| SpecificSuggestionAnalysis.RawPiece | src/app/api/specific-suggestion-analysis/route.js:150-166 | a hit's title and content before cleaning; RawPieceRule states that without a content group it is the numbered placeholder and the whole text, or the text split at a colon |
| SpecificSuggestionAnalysis.Shortened | src/app/api/specific-suggestion-analysis/route.js:175-176 | over 150 characters, the first 120 and "..."; CleanContentRule states that a cleaned description is at most 150 characters |
| SpecificSuggestionAnalysis.CleanContent | src/app/api/specific-suggestion-analysis/route.js:169-195 | the cleaning of a description; CleanContentRule states its length bound and DropEnding what removing the closings does |
| SpecificSuggestionAnalysis.Suggestions | src/app/api/specific-suggestion-analysis/route.js:118-212 | `parseSuggestionsFromText`; ParseSuggestionsFromText computes it and SuggestionsRule states that it holds at most five, none only without hits |
| SpecificSuggestionAnalysis.Taboos | src/app/api/specific-suggestion-analysis/route.js:214-315 | `parseTaboosFromText`; ParseTaboosFromText computes it and TaboosRule states that it holds at most five, none only without hits |
| SpecificSuggestionAnalysis.SuggestionDates | src/app/api/specific-suggestion-analysis/route.js:317-345 | the dates the fallback suggestions name; DeadlineRule and FarDateRule state them |
| SpecificSuggestionAnalysis.TabooDates | src/app/api/specific-suggestion-analysis/route.js:317-345 | the dates the fallback taboos name; DeadlineRule states the near-term one |
| SpecificSuggestionAnalysis.FallbackSuggestions | src/app/api/specific-suggestion-analysis/route.js:347-411 | `generateFallbackSuggestions`; FallbackSuggestionsRule states that there are five, each naming its date |
| SpecificSuggestionAnalysis.FallbackTaboos | src/app/api/specific-suggestion-analysis/route.js:414-513 | `generateFallbackTaboos`; FallbackTaboosRule states that there are five, each naming its date |
| SpecificSuggestionAnalysis.ParsedContent | src/app/api/specific-suggestion-analysis/route.js:49-116 | `parseSpecificSuggestionContent`; ParseSpecificSuggestionContent computes it and ParsedContentRule states that both lists hold one to five entries |
| SpecificSuggestionAnalysis.Answered | src/app/api/specific-suggestion-analysis/route.js:656-684 | the data of an analysed answer; AnsweredShape states its title by script and that it holds one to five suggestions and taboos |
| SpecificSuggestionAnalysis.ErrorData | src/app/api/specific-suggestion-analysis/route.js:690-738 | the catch block's data; ErrorDataShape states its title by script and its fallback lists |
| SpecificSuggestionAnalysis.Handle | src/app/api/specific-suggestion-analysis/route.js:631-738 | the handler with the catch block's locale read as a parameter; PostOutcome and PostContent state its outcome through Post |
| SpecificSuggestionAnalysis.PostAsWritten | src/app/api/specific-suggestion-analysis/route.js:631-738 | `POST` as written, whose catch block cannot re-read the body; ErrorFallbackIgnoresLocale exhibits a simplified-script request answered in traditional script |
| SpecificSuggestionAnalysis.Post | src/app/api/specific-suggestion-analysis/route.js:631-738 | `POST` with the locale remembered for the catch block; PostOutcome states when it answers 400, an analysis or the error data, PostContent that the script follows the locale |
| SpecificSuggestionAnalysis.SimplifiedLocale | src/app/api/specific-suggestion-analysis/route.js:643 | simplified script for the locales china and zh-CN; PostContent states that the answer's script follows it |
| ChatboxFlows.CountStatus | test-chatbox-flows.js:84-86 | no more records carry a status than there are records |
| ChatboxFlows.StatusCountsBounded | test-chatbox-flows.js:83-86 | a record counts under at most one of pass, fail and warning, so the three counts together never exceed the number of records |
| ChatboxFlows.TestResults.constructor | test-chatbox-flows.js:74-80 | a new tally has no tests, no counts and no records |
| ChatboxFlows.TestResults.Add | test-chatbox-flows.js:82-94 | one more test and one more record; the pass, fail or warning count goes up by one exactly when the status is that word, and the counts stay consistent with the records |
| ContextSwitch.AnalyzeRedirection | test-context-switch.js:124-178 | a reply redirects exactly when it is non-empty and mentions a concern: STRONG exactly when it also holds a boundary phrase, WEAK exactly when it holds no boundary phrase but a bridging phrase, MODERATE otherwise; the strength is NONE exactly when there is no redirect |
| ContextSwitch.RedirectionMonotone | test-context-switch.js:124-178 | a longer reply that contains a shorter one is graded at least as high |
| ContextSwitch.AnalyzeContextRetention | test-context-switch.js:180-194 | a missing reply (a failed request) makes the check throw; otherwise a point for naming the original concern and a point for asking for a birth date or offering numbered choices; 0 exactly when neither holds and 2 exactly when both hold |
| ContextSwitch.MissingReply | test-context-switch.js:124-181 | a missing reply is graded NONE by the redirection check, while the retention check throws on it |
| ContextSwitch.EmptyConcernRemembered | test-context-switch.js:180-194 | an empty concern is found in every reply, so the score is at least 1 |
| ContextSwitch.RetentionMonotone | test-context-switch.js:180-194 | a longer reply that contains a shorter one scores at least as much |
| OfftopicAnalysis.AnalyzeRedirection | test-offtopic-analysis.js:73-131 | a missing or empty reply is NO_RESPONSE with score 0; otherwise the counts are the numbers of boundary and bridging phrases present and the call-to-action flag is set exactly when one occurs |
| OfftopicAnalysis.Classification | test-offtopic-analysis.js:113-130 | a boundary phrase makes a strong redirect whatever else the reply holds; no boundary phrase and no service word is no redirect; a bridging phrase with a call to action is weak; the score follows the kind |
| OfftopicAnalysis.ScoreMonotone | test-offtopic-analysis.js:73-131 | a longer reply that contains a shorter one never scores lower |

## Left out

General:
- The AI service calls, the prompts sent to it, `fetch`, clocks (`new Date()`), `console` logging, `localStorage` and React rendering are left out. Where a result depends on them (the AI's answer, the current year, month or date, a cached value), that result is a parameter.
- The calendar and nayin libraries (`lunar-javascript` and the like) are foreign code. The pillars they report are parameters, and only the arithmetic fallbacks that take over when they throw are modelled.
- Regular expressions whose matching is not the point (section finders, lookaheads, non-greedy captures) are not implemented. Their matches or captured groups are parameters, and the model states what the code does with them.
- Long advisory texts are kept as literal constants only where a property depends on them; description paragraphs and trait lists of stock cards are dropped.
- `parseInt`, `parseFloat` and `Number(…)` on free text are modelled only on the digit strings the code produces; JSON numbers are integers.
- `toLowerCase` is modelled on ASCII letters only; the texts it is applied to are Chinese or ASCII keywords.

Characters, lengths and numbers:
- AddApiBase.IsWordChar: Python's Unicode `\w` is not modelled. Every non-ASCII character that is not white space counts as a word character, so a `\b` next to full-width punctuation such as ，。 or next to an emoji is decided differently from Python. The CRLF-to-LF translation of Python's text-mode read and write is not modelled either: files are sequences of lines.
- ChartDiagnosis.ShouldIncludeLine: lengths are counted in code points, not in the UTF-16 code units of JavaScript's `.length`. A line holding characters outside the Basic Multilingual Plane (emoji) can pass the `>= 15` test in JavaScript and fail it here.
- AiAnalysis.Validated: the `> 200` length test counts code points, not UTF-16 code units.
- SpecificSuggestionAnalysis.RawPiece: the 40% position of the colon split counts code points, not UTF-16 code units.
- SpecificSuggestionAnalysis.Shortened: the 150/120 cut counts code points, not UTF-16 code units, so it never splits a surrogate pair as `substring` can.
- EmergencyFengShui.KeywordPass: the `> 20` line-length filter counts code points, not UTF-16 code units.
- SeasonAnalysis.Shorten: the 1500/1200 limits and the `substring` cut count code points, not UTF-16 code units.
- CoupleSeasonAnalysis.Lengthened: the short-text threshold counts code points, not UTF-16 code units.
- JiXiongAnalysis.ShortTitle: the 8-character limit and the 4-character cut count code points, not UTF-16 code units.
- JiXiongAnalysis.NumberedItem: the `> 30` description test counts code points, not UTF-16 code units.
- JiXiongAnalysis.SectionItems: the `< 50` content test counts code points, not UTF-16 code units.
- CoupleAnnualAnalysis.Step: the `> 10` line test counts code points, not UTF-16 code units.
- CoreSuggestion.Description: the 200-character cut counts code points, not UTF-16 code units.
- CoreSuggestion.ParseContentToDetails: the `> 10` piece test counts code points, not UTF-16 code units.
- CoupleCoreSuggestion.Keep: the `> 5` item test counts code points, not UTF-16 code units.
- Dedup.StringLess: strings are compared by code point, whereas JavaScript's default sort compares UTF-16 code units; the two orders differ only between characters outside the Basic Multilingual Plane and those from U+E000 up.
- BaziChartData.RoundPercent: the percentage is rounded exactly on integers (half up), whereas the source rounds a floating-point quotient with `Math.round`; the two can differ where the quotient lands on a half and floating point errs.
- Ganzhi.JsRem: only integer operands are modelled; the year, month and day numbers the calculators use are integers.

JavaScript object lookups (a key such as `"toString"` or `"constructor"` finds a property inherited from `Object.prototype` in the source, and finds nothing in the model):
- BaziRelationships.AnalyzeStemCombination: `STEM_COMBINATIONS[key]` is modelled as a table of stem pairs only; an inherited property name is not a two-character key, so it cannot arise from two stems, but the model does not cover keys built from other strings.
- BaziRelationships.StemCombinationSymmetric: stated for the table of stem pairs only, for the same reason.
- BaziRelationships.ColorLookup: `colorMap[type]` finds nothing for an inherited property name, where the source would return a function.
- BaziRelationships.GetRelationshipColor: falls back to the default colour for an inherited property name, where the source returns the inherited function.
- QuestionFocusAnalysis.Fallback: `fallbackSolutions[concern]` for a concern named like an inherited property gives the general guidance in the model.
- CoupleAnnualAnalysis.ElementYearAnalysis: `combinations[combo]` for a pair spelling an inherited property name gives the fallback in the model.
- BaziChartData.KeySlot: `elementCounts[e] !== undefined` is true for an inherited property name in the source (and `+= 3` then turns the count into a string); the model gives slot −1.
- BaziChartData.StemInfo: `stemInfo[stem]` for an inherited property name gives `None` in the model.
- BaziChartData.GetDayMasterPersonality: a day stem spelling an inherited property name gives the fallback card in the model.
- MingJu.NormalizeConcern: `mapping[concern] || concern` for an inherited property name keeps the concern in the model.
- MingJu.TabConfig: `TAB_CONFIG[concern] || …` for an inherited property name gives the 財運 tabs in the model.
- MingJu.ConcernKey: `concernMap[concern] || "wealth"` for an inherited property name gives "wealth" in the model.
- MingJu.ElementTraits: `elementCharacteristics[element] || …` for an inherited property name gives the 土 traits in the model.
- CoupleSpecificProblemSolution.EmotionalSupport: `messages[type] || …` for an inherited property name gives the "strengthen" messages in the model.
- CoupleSpecificProblemSolution.CoupleCompatibility: `compatibilityMatrix[key]` for a pair spelling an inherited property name gives the neutral entry in the model.
- BaziRelationshipDiagram.ZodiacLookup: `zodiacMap[key]` for an inherited property name gives `None` in the model.
- BaziRelationshipDiagram.ZodiacAnimal: defaults as `ZodiacLookup` does.
- BaziDetailedChart.ZodiacAnimal: defaults as `ZodiacLookup` does.

Per file:
- DailyFortune: the HTTP handler (method check with 405, input validation with 400, parsing of the two dates) is not modelled; the pillar functions take the calendar numbers directly.
- EmergencyFengShui: the POST handler (prompt, AI call, response shape) is not modelled; the chart fallback and the answer reader are.
- RestartChemistry: `calculateBaZi` (a library wrapper) and the POST handler are not modelled; the parser is.
- CoupleCoreSuggestion: the monthly note of the taboo parser is cleaned once after the loop rather than at each line; cleaning is idempotent on the collected text, so the note is the same.
- CoupleCoreSuggestion: the `try`/`catch` around the taboo parser is left out; the parser as modelled cannot throw.
- CoupleCoreSuggestion: the other extractors of the card (communication advice, accessories, weekly ritual, situation table, colours, energy functions, relationship development, seasonal content, motto, the fallback component data) are not modelled; they are regular-expression pickers whose results only fill the display.
- CoupleSpecificProblemSolution: the text generators whose results are only shown (lines 96-232) and the fallback analysis object of lines 427-472 are not modelled beyond the plan they pick.
- SeasonAnalysis: the stock texts are the `stock` parameter, and the section regular expressions are the `found` and `clean` parameters; the route's concrete table is `StockText`.
- BaziDetailedChart: `getChartFeatures` is unused by the component and is not modelled separately from the feature lines.
- QuestionFocusAnalysis: `getWuxingData` (the library's five-element scale) is a parameter.
- CoupleSpecificProblem: the formatted date is an input, and so are the two regular-expression groups read from the answer.
- IndividualAnalysis and GanzhiAnalysis: `new Date(…)` parsing is not modelled; the local calendar fields are inputs.
- FixApiCallsV2: idempotence of a whole second run is not stated, because it does not hold: escaped call prefixes are counted but never rewritten (`EscapedCountedNotRewritten`).
- ApiConfig: the request made by `fetchApi` is I/O and is left out; the URL and header computations are modelled.
- ChatboxFlows: the scenarios that drive the tally send network requests and are left out; the tally is modelled.
- ContextSwitch: the test scenarios, the requests they send and the suite's `catch` that ends the run when a check throws are left out; the throw of the retention check on a missing reply is modelled as `None`.
- The AI analysis route's prompt building, the request to the AI service, its timing and the log lines are left out; the AI reply (a failure, or the answer's text) is a parameter, and so is `JSON.parse` (a `decode` function from text to an optional JSON value).
- A request body that parses to `null` makes the destructuring outside the `try` throw, which the route does not catch; the model takes the body as either unparseable or a request object and does not model that uncaught error.
- JSON numbers are modelled as integers; the route only writes the integer keyword ids.
- A `null` or non-string `content` in the AI reply throws in the route's `catch` block and ends in the outer fallback; the model folds it into the failed AI call.
- CleanMarkdown: the "at most two line breaks in a row" property is proved for the collapse step only; LinkAfterCollapseExample shows that the later link step can bring three back.
- The `new Date(birthDateTime)` parse is not modelled: the birth date is given as absent, a year, or an invalid date (NaN).
- The 吉凶 route's prompt text, the request to the AI service and the `timestamp` field are left out; `locale` only changes the prompt, so the model does not take it.
- The 吉凶 section, season and item regular expressions are not implemented: their matches (the section text, or "" when none matched, and each hit's two groups) are parameters.
- getFallbackJixiang and getFallbackXiongxiang are not modelled: they are only reached when a half of the split is empty, which SplitRule shows cannot happen.
- The `catch` of parseJiXiongContent ("Content parsing failed") is left out: it is reached only when the answer is not a string.

## Findings

| source | as written | input that shows it | evidently intended | confidence | as-written member | corrected member |
|---|---|---|---|---|---|---|
| src/lib/baziCalculator.js:401-404 | `getMonthPillarFallback` takes the month's branch as `diZhi[monthIndex]`, two places behind the 寅-first month order the table of lines 367-380 uses | year 1984, month 1 (January): the fallback gives the branch 戌 where the table gives 子; `getMonthPillar` reaches the fallback whenever the table path throws | branch `diZhi[(monthIndex + 2) % 12]`, as in the 五虎遁 table | not executed | BaziCalculator.FallbackBranchDisagrees (about BaziCalculator.MonthPillarFallbackAsWritten, which GetMonthPillar calls) | BaziCalculator.CorrectedFallbackPillar (about BaziCalculator.MonthPillarFallback) |
| api-reference/daily-fortune.js:142-147 | the clash test `Math.abs(birthBranchIdx - dateBranchIdx) === 6` also fires when one `indexOf` is −1 (a day pillar with no branch) and the other is 巳 (5) | a birth day pillar with no branch (a day before 1900-01-01) scored against a 巳 day: 15 points are taken off | a clash only between two real branches six apart | not executed | DailyFortune.ClashAsWrittenSpurious (about DailyFortune.ClashAdjustmentAsWritten, which the score uses) | DailyFortune.ClashAdjustmentRule and DailyFortune.ScoreAgainstIntended (about DailyFortune.ClashAdjustment) |
| src/app/api/specific-suggestion-analysis/route.js:690-703 | the `catch` block reads `request.json()` a second time; the body is already consumed, so the read throws and the locale is lost | locale "china" with a failed AI call: the answer is in traditional script | the error fallback in the script of the request's locale | not executed | SpecificSuggestionAnalysis.ErrorFallbackIgnoresLocale (about SpecificSuggestionAnalysis.PostAsWritten) | SpecificSuggestionAnalysis.PostContent (about SpecificSuggestionAnalysis.Post) |
| src/app/api/ai-analysis/route.js:343-351 | the second `substring` of the aggressive cleaning ends at `lastIndexOf("}")` of the original text but is applied to the text already cut at the first `{` | "x{}y": the cleaning gives "{}y", not "{}" | the span from the first `{` to the last `}` | not executed | AiAnalysis.AggressiveCleanKeepsTail (about AiAnalysis.AggressiveCleanAsWritten) | AiAnalysis.AggressiveCleanSpan (about AiAnalysis.AggressiveClean) |
| src/app/api/ai-analysis/route.js:362-375 | the personalised fallback, already a JSON text, is passed through `JSON.stringify` again | an answer that is not JSON even after aggressive cleaning: the content sent is a quoted string starting with `"` | the fallback's JSON text itself | not executed | AiAnalysis.DoubleEncodedFallback (about AiAnalysis.PostAsWritten) | AiAnalysis.RecoverRule and AiAnalysis.PostContent (about AiAnalysis.Post) |
| src/app/api/chart-diagnosis/route.js:356-410 | the section header words are stored double-encoded (UTF-8 bytes read back as Windows-1252), so each starts with å, ç or é | any answer written in Chinese characters: no section opens, both titles keep their defaults and every content is the fallback text | the plain Chinese header words (女方分析 and the others) | not executed | ChartDiagnosis.WrittenHeadersNeverMatch | ChartDiagnosis.IntendedHeaderCollects |
| src/components/BaziDetailedChart.jsx:263-282 | each hidden-stem cell indexes the formatted one-label row as if it were the label itself, so the element lookup never succeeds | hidden stem 甲 (木) in the first row: shown as "甲木" in grey | the stem in its element's colour, and "-" for an empty row | not executed | BaziDetailedChart.HiddenCellsAsWrittenGrey and BaziDetailedChart.HiddenCellCounterexample | BaziDetailedChart.HiddenCellsByElement |
