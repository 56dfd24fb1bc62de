/** The 吉凶 (auspicious and inauspicious signs) route: the AI's answer cut into three
 *  吉象 and three 凶象 items, with numbered-item recovery when neither section heading is
 *  found, contextual titles, padding to three items, and the truncation error. */
module JiXiongAnalysis {
  import opened Wrappers
  import opened Strings

  /** One regex hit: its title group and its description group. */
  datatype Hit = Hit(title: string, description: string)

  datatype Item = Item(title: string, content: string)

  function Pushed(o: Option<Item>): seq<Item>
  {
    if o.Some? then [o.value] else []
  }

  // ---------------------------------------------------------------------------
  // Taking hits while fewer than `cap` items are held

  /** The `while ((match = pattern.exec(content)) !== null && items.length < cap)` loop:
   *  hits are taken in order; `step` makes the item of a hit, given how many items are
   *  already held, or rejects it. */
  function Gather(items: seq<Item>, hs: seq<Hit>, cap: nat, step: (Hit, nat) -> Option<Item>): (r: seq<Item>)
    ensures |items| <= |r| && r[..|items|] == items
    ensures |items| <= cap ==> |r| <= cap
    decreases |hs|
  {
    if |hs| == 0 || |items| >= cap then items
    else
      var next := items + Pushed(step(hs[0], |items|));
      assert next[..|items|] == items;
      Gather(next, hs[1..], cap, step)
  }

  /** Every item added after the first `from` is what `step` made of some hit, at the count
   *  it was added at. */
  predicate MadeFrom(items: seq<Item>, from: nat, hs: seq<Hit>, step: (Hit, nat) -> Option<Item>)
  {
    forall k :: from <= k < |items| ==> MadeAt(items[k], k, hs, step)
  }

  /** `step` makes `item` of some hit when `count` items are held. */
  predicate MadeAt(item: Item, count: nat, hs: seq<Hit>, step: (Hit, nat) -> Option<Item>)
  {
    exists h :: h in hs && step(h, count) == Some(item)
  }

  lemma {:induction false} GatherMadeFrom(items: seq<Item>, hs: seq<Hit>, cap: nat, step: (Hit, nat) -> Option<Item>)
    ensures MadeFrom(Gather(items, hs, cap, step), |items|, hs, step)
    decreases |hs|
  {
    if |hs| > 0 && |items| < cap {
      var next := items + Pushed(step(hs[0], |items|));
      GatherMadeFrom(next, hs[1..], cap, step);
      var r := Gather(items, hs, cap, step);
      assert r == Gather(next, hs[1..], cap, step);
      forall k | |items| <= k < |r| ensures MadeAt(r[k], k, hs, step) {
        if k < |next| {
          assert r[k] == r[..|next|][k] == next[k];
          assert step(hs[0], k) == Some(r[k]);
        } else {
          assert MadeAt(r[k], k, hs[1..], step);
          var h :| h in hs[1..] && step(h, k) == Some(r[k]);
          assert h in hs;
        }
      }
    }
  }

  /** The patterns tried one after the other, stopping once `cap` items are held. */
  function GatherPatterns(items: seq<Item>, pats: seq<seq<Hit>>, cap: nat, step: (Hit, nat) -> Option<Item>): (r: seq<Item>)
    ensures |items| <= |r| && r[..|items|] == items
    ensures |items| <= cap ==> |r| <= cap
    decreases |pats|
  {
    if |pats| == 0 then items
    else
      var next := Gather(items, pats[0], cap, step);
      if |next| >= cap then next
      else
        var r := GatherPatterns(next, pats[1..], cap, step);
        assert r[..|items|] == r[..|next|][..|items|];
        r
  }

  /** Every hit of every pattern, in order. */
  function Flat(pats: seq<seq<Hit>>): seq<Hit>
  {
    if |pats| == 0 then [] else pats[0] + Flat(pats[1..])
  }

  lemma MadeFromMore(items: seq<Item>, from: nat, hs: seq<Hit>, more: seq<Hit>, step: (Hit, nat) -> Option<Item>)
    requires MadeFrom(items, from, hs, step)
    ensures MadeFrom(items, from, hs + more, step) && MadeFrom(items, from, more + hs, step)
  {
    forall k | from <= k < |items|
      ensures MadeAt(items[k], k, hs + more, step) && MadeAt(items[k], k, more + hs, step)
    {
      assert MadeAt(items[k], k, hs, step);
      var h :| h in hs && step(h, k) == Some(items[k]);
      assert h in hs + more && h in more + hs;
    }
  }

  lemma {:induction false} GatherPatternsMadeFrom(items: seq<Item>, pats: seq<seq<Hit>>, cap: nat,
                                                  step: (Hit, nat) -> Option<Item>)
    ensures MadeFrom(GatherPatterns(items, pats, cap, step), |items|, Flat(pats), step)
    decreases |pats|
  {
    if |pats| > 0 {
      var next := Gather(items, pats[0], cap, step);
      var r := GatherPatterns(items, pats, cap, step);
      GatherMadeFrom(items, pats[0], cap, step);
      MadeFromMore(next, |items|, pats[0], Flat(pats[1..]), step);
      if |next| < cap {
        GatherPatternsMadeFrom(next, pats[1..], cap, step);
        MadeFromMore(r, |next|, Flat(pats[1..]), pats[0], step);
        forall k | |items| <= k < |r|
          ensures MadeAt(r[k], k, Flat(pats), step)
        {
          if k < |next| {
            assert r[k] == r[..|next|][k] == next[k];
            assert MadeAt(next[k], k, Flat(pats), step);
          } else {
            assert MadeAt(r[k], k, Flat(pats), step);
          }
        }
      }
    }
  }

  method GatherHits(items0: seq<Item>, hs: seq<Hit>, cap: nat, step: (Hit, nat) -> Option<Item>)
    returns (items: seq<Item>)
    ensures items == Gather(items0, hs, cap, step)
  {
    items := items0;
    var i := 0;
    while i < |hs| && |items| < cap
      invariant 0 <= i <= |hs|
      invariant Gather(items, hs[i..], cap, step) == Gather(items0, hs, cap, step)
    {
      assert hs[i..][1..] == hs[i + 1..];
      var made := step(hs[i], |items|);
      if made.Some? {
        items := items + [made.value];
      }
      i := i + 1;
    }
  }

  /** `for (const pattern of patterns) { while (...) {...}; if (items.length >= cap) break; }` */
  method GatherEachPattern(items0: seq<Item>, pats: seq<seq<Hit>>, cap: nat, step: (Hit, nat) -> Option<Item>)
    returns (items: seq<Item>)
    ensures items == GatherPatterns(items0, pats, cap, step)
  {
    items := items0;
    var p := 0;
    while p < |pats|
      invariant 0 <= p <= |pats|
      invariant GatherPatterns(items, pats[p..], cap, step) == GatherPatterns(items0, pats, cap, step)
    {
      assert pats[p..][1..] == pats[p + 1..];
      items := GatherHits(items, pats[p], cap, step);
      if |items| >= cap {
        break;
      }
      p := p + 1;
    }
  }

  // ---------------------------------------------------------------------------
  // Titles

  /** A character of the CJK Unified Ideographs block, `[一-鿿]`. */
  predicate Cjk(c: char)
  {
    '\U{4E00}' <= c <= '\U{9FFF}'
  }

  predicate AllCjk(s: string)
  {
    forall i :: 0 <= i < |s| ==> Cjk(s[i])
  }

  /** `s.match(/[一-鿿]{4}/g) || []`: four-ideograph runs, left to right without
   *  overlap. */
  function CjkPhrases(s: string): (r: seq<string>)
    ensures forall k :: 0 <= k < |r| ==> |r[k]| == 4 && AllCjk(r[k]) && Contains(s, r[k])
    decreases |s|
  {
    if |s| < 4 then []
    else if AllCjk(s[..4]) then
      var rest := CjkPhrases(s[4..]);
      InSuffix(s, 4, rest);
      ContainsAt(s, s[..4], 0);
      [s[..4]] + rest
    else
      var rest := CjkPhrases(s[1..]);
      InSuffix(s, 1, rest);
      rest
  }

  lemma InSuffix(s: string, n: nat, ps: seq<string>)
    requires n <= |s| && forall k :: 0 <= k < |ps| ==> Contains(s[n..], ps[k])
    ensures forall k :: 0 <= k < |ps| ==> Contains(s, ps[k])
  {
    forall k | 0 <= k < |ps| ensures Contains(s, ps[k]) {
      ContainsSuffix(s, n, ps[k]);
    }
  }

  /** Four ideographs stand in a row at position `i`. */
  predicate RunAt(s: string, i: nat)
  {
    i + 4 <= |s| && AllCjk(s[i..i + 4])
  }

  lemma RunShift(s: string)
    requires |s| > 0
    ensures forall i: nat :: RunAt(s[1..], i) <==> RunAt(s, i + 1)
  {
    forall i: nat ensures RunAt(s[1..], i) <==> RunAt(s, i + 1) {
      if i + 5 <= |s| {
        assert s[1..][i..i + 4] == s[i + 1..i + 5];
      }
    }
  }

  /** There is no phrase exactly when no four ideographs stand in a row. */
  lemma {:induction false} CjkPhrasesEmpty(s: string)
    ensures |CjkPhrases(s)| == 0 <==> forall i: nat :: !RunAt(s, i)
    decreases |s|
  {
    if |s| >= 4 {
      assert s[0..4] == s[..4];
      if !AllCjk(s[..4]) {
        CjkPhrasesEmpty(s[1..]);
        RunShift(s);
        assert !RunAt(s, 0);
        if |CjkPhrases(s)| == 0 {
          forall i: nat ensures !RunAt(s, i) {
            if i > 0 {
              assert !RunAt(s[1..], i - 1);
            }
          }
        }
      } else {
        assert RunAt(s, 0);
      }
    }
  }

  /** The first phrase is the earliest run of four ideographs. */
  lemma {:induction false} CjkPhrasesFirst(s: string)
    requires |CjkPhrases(s)| > 0
    ensures exists i: nat :: (RunAt(s, i) && CjkPhrases(s)[0] == s[i..i + 4]
      && forall j: nat :: j < i ==> !RunAt(s, j))
    decreases |s|
  {
    assert s[0..4] == s[..4];
    if AllCjk(s[..4]) {
      assert RunAt(s, 0) && CjkPhrases(s)[0] == s[0..4];
    } else {
      CjkPhrasesFirst(s[1..]);
      RunShift(s);
      var i: nat :| RunAt(s[1..], i) && CjkPhrases(s[1..])[0] == s[1..][i..i + 4]
        && forall j: nat :: j < i ==> !RunAt(s[1..], j);
      assert s[1..][i..i + 4] == s[i + 1..i + 5];
      forall j: nat | j < i + 1 ensures !RunAt(s, j) {
        if j > 0 {
          assert !RunAt(s[1..], j - 1);
        }
      }
      assert RunAt(s, i + 1);
    }
  }

  /** The title without bold markers and without 【 or 】, trimmed. */
  function CleanTitle(t: string): string
  {
    Trim(ReplaceAny(ReplaceAny(t, ["**"], ""), ["【", "】"], ""))
  }

  /** A title over 8 characters becomes its first run of four ideographs, or else its first
   *  four characters. */
  function ShortTitle(t: string): (r: string)
    ensures |r| <= 8
    ensures |t| <= 8 ==> r == t
    ensures |t| > 8 ==> |r| == 4 && ((AllCjk(r) && Contains(t, r)) || (|CjkPhrases(t)| == 0 && r == t[..4]))
  {
    if |t| > 8 then
      var phrases := CjkPhrases(t);
      if |phrases| > 0 then phrases[0] else t[..4]
    else t
  }

  /** The description without bold markers, each run of line breaks one space, trimmed. */
  function CleanDescription(d: string): string
  {
    Trim(LineBreaksToSpace(ReplaceAny(d, ["**"], "")))
  }

  /** Each run of `\r` and `\n` becomes one space. */
  function LineBreaksToSpace(s: string): (r: string)
    ensures '\n' !in r && '\r' !in r
    decreases |s|
  {
    if |s| == 0 then ""
    else if s[0] == '\r' || s[0] == '\n' then " " + LineBreaksToSpace(SkipBreaks(s[1..]))
    else [s[0]] + LineBreaksToSpace(s[1..])
  }

  function SkipBreaks(s: string): (r: string)
    ensures |r| <= |s|
    decreases |s|
  {
    if |s| > 0 && (s[0] == '\r' || s[0] == '\n') then SkipBreaks(s[1..]) else s
  }

  /** The item `extractNumberedItems` makes of a hit: both groups trimmed, kept only when
   *  the title is non-empty and the description longer than 30 characters. */
  function NumberedItem(h: Hit): Option<Item>
  {
    var title, description := Trim(h.title), Trim(h.description);
    if title != "" && description != "" && |description| > 30 then
      Some(Item(ShortTitle(CleanTitle(title)), CleanDescription(description)))
    else None
  }

  function NumberedStep(): (Hit, nat) -> Option<Item>
  {
    (h: Hit, count: nat) => NumberedItem(h)
  }

  /** `extractNumberedItems`: five patterns tried in order until six items are held. */
  function NumberedItems(pats: seq<seq<Hit>>): seq<Item>
  {
    GatherPatterns([], pats, 6, NumberedStep())
  }

  method ExtractNumberedItems(pats: seq<seq<Hit>>) returns (items: seq<Item>)
    ensures items == NumberedItems(pats)
  {
    items := GatherEachPattern([], pats, 6, NumberedStep());
  }

  /** At most six items, each made of a hit whose trimmed description is longer than 30
   *  characters, with a title of at most 8 characters. */
  lemma NumberedItemsRule(pats: seq<seq<Hit>>)
    ensures var r := NumberedItems(pats);
      |r| <= 6
      && forall k :: 0 <= k < |r| ==>
        |r[k].title| <= 8
        && exists h :: h in Flat(pats) && |Trim(h.description)| > 30
             && r[k] == Item(ShortTitle(CleanTitle(Trim(h.title))), CleanDescription(Trim(h.description)))
  {
    var r := NumberedItems(pats);
    GatherPatternsMadeFrom([], pats, 6, NumberedStep());
    forall k | 0 <= k < |r|
      ensures |r[k].title| <= 8
        && exists h :: h in Flat(pats) && |Trim(h.description)| > 30
             && r[k] == Item(ShortTitle(CleanTitle(Trim(h.title))), CleanDescription(Trim(h.description)))
    {
      assert MadeAt(r[k], k, Flat(pats), NumberedStep());
      var h :| h in Flat(pats) && NumberedStep()(h, k) == Some(r[k]);
      assert NumberedItem(h) == Some(r[k]);
    }
  }

  // ---------------------------------------------------------------------------
  // Titles of section items

  const Idioms: seq<string> := [
    "貴人暗助", "厚積薄發", "穩中得財", "印星護持", "技能避險", "根基穩固", "財源廣進", "事業有成",
    "步步高升", "福星高照", "龍鳳呈祥", "金玉滿堂", "比劫奪財", "小人妨害", "決策失誤", "官非口舌",
    "刑沖動盪", "五行失衡", "破財損耗", "是非纏身", "競爭激烈", "變動頻繁", "壓力沉重", "阻礙重重",
    "暗中得助", "無心插柳", "細水長流", "積少成多", "謹慎有餘", "保守得益", "默默耕耘", "潛龍在淵",
    "厚德載物", "溫和致遠", "韜光養晦", "靜水流深"]

  /** Characters that make a phrase or a title start badly. */
  const WeakStarts: string := "命局中雖此在因若當的是有為但和與或者其實際上因為所以然而"

  /** Characters that make a phrase meaningful. */
  const StrongChars: string := "助發財星技根源進成升照祥滿劫害誤非沖衡耗身爭變壓礙"

  /** The first listed idiom the text contains. */
  function FirstIdiom(text: string, idioms: seq<string>): (r: Option<string>)
    ensures r.Some? ==> r.value in idioms && Contains(text, r.value)
    ensures r.None? ==> forall k :: 0 <= k < |idioms| ==> !Contains(text, idioms[k])
  {
    if |idioms| == 0 then None
    else if Contains(text, idioms[0]) then Some(idioms[0])
    else FirstIdiom(text, idioms[1..])
  }

  predicate Meaningful(phrase: string)
  {
    |phrase| > 0 && phrase[0] !in WeakStarts && exists k :: 0 <= k < |phrase| && phrase[k] in StrongChars
  }

  /** The first four-ideograph phrase that does not start weakly and holds a strong character. */
  function FirstMeaningful(phrases: seq<string>): (r: Option<string>)
    ensures r.Some? ==> r.value in phrases && Meaningful(r.value)
    ensures r.None? ==> forall k :: 0 <= k < |phrases| ==> !Meaningful(phrases[k])
  {
    if |phrases| == 0 then None
    else if Meaningful(phrases[0]) then Some(phrases[0])
    else FirstMeaningful(phrases[1..])
  }

  /** `extractMeaningfulTitles`. */
  function MeaningfulTitle(text: string): Option<string>
  {
    var idiom := FirstIdiom(text, Idioms);
    if idiom.Some? then idiom else FirstMeaningful(CjkPhrases(text))
  }

  /** A found title is a listed idiom the text contains, or a four-ideograph meaningful
   *  phrase of the text; none is found only when no idiom occurs. */
  lemma MeaningfulTitleRule(text: string)
    ensures var r := MeaningfulTitle(text);
      r.Some? ==> ((r.value in Idioms || (|r.value| == 4 && AllCjk(r.value) && Meaningful(r.value)))
        && Contains(text, r.value))
    ensures MeaningfulTitle(text).None? ==> forall k :: 0 <= k < |Idioms| ==> !Contains(text, Idioms[k])
  {
    var r := MeaningfulTitle(text);
    if r.Some? && FirstIdiom(text, Idioms).None? {
      var ps := CjkPhrases(text);
      var k :| 0 <= k < |ps| && ps[k] == r.value;
    }
  }

  /** The keyword rules of `generateContextualTitle`: the first rule with a keyword in the
   *  content gives the title. */
  function Rules(isJixiang: bool): seq<(string, string, string)>
  {
    if isJixiang then
      [("印星", "貴人", "貴人暗助"), ("積累", "細流", "厚積薄發"), ("保守", "穩健", "穩中得財"),
       ("技能", "專業", "技能避險"), ("根基", "基礎", "根基穩固"), ("隱藏", "無心", "暗中得助")]
    else
      [("比劫", "競爭", "比劫奪財"), ("小人", "妨害", "小人妨害"), ("決策", "失誤", "決策失誤"),
       ("官非", "口舌", "官非口舌"), ("刑沖", "動盪", "刑沖動盪"), ("風險", "虧損", "破財損耗")]
  }

  function TitleTable(isJixiang: bool): seq<string>
  {
    if isJixiang then ["貴人暗助", "厚積薄發", "穩中得財", "潛力顯現", "保守得益", "謹慎有餘"]
    else ["比劫奪財", "小人妨害", "決策失誤", "阻礙重重", "壓力沉重", "謹防損失"]
  }

  /** The position of the first rule with a keyword in the content. */
  function FirstRule(content: string, rules: seq<(string, string, string)>): (r: Option<nat>)
    ensures r.Some? ==> (r.value < |rules|
      && (Contains(content, rules[r.value].0) || Contains(content, rules[r.value].1))
      && forall k :: 0 <= k < r.value ==> !Contains(content, rules[k].0) && !Contains(content, rules[k].1))
    ensures r.None? ==> forall k :: 0 <= k < |rules| ==>
      !Contains(content, rules[k].0) && !Contains(content, rules[k].1)
  {
    if |rules| == 0 then None
    else if Contains(content, rules[0].0) || Contains(content, rules[0].1) then Some(0)
    else
      var r := FirstRule(content, rules[1..]);
      if r.Some? then Some(r.value + 1) else None
  }

  /** `generateContextualTitle(content, index, isJixiang)`. */
  function ContextualTitle(content: string, index: nat, isJixiang: bool): string
  {
    var found := FirstRule(content, Rules(isJixiang));
    if found.Some? then Rules(isJixiang)[found.value].2
    else if index < |TitleTable(isJixiang)| then TitleTable(isJixiang)[index]
    else if isJixiang then "福星高照" else "阻礙重重"
  }

  /** With no keyword in the content, the title is the table's entry for the position. */
  lemma ContextualTitleOfNothing(index: nat, isJixiang: bool)
    requires index < 6
    ensures ContextualTitle("", index, isJixiang) == TitleTable(isJixiang)[index]
  {
    var rules := Rules(isJixiang);
    forall k | 0 <= k < |rules| ensures !Contains("", rules[k].0) && !Contains("", rules[k].1) {
    }
  }

  /** `str.test(/^[命局中…]/)`. */
  predicate StartsWeak(t: string)
  {
    |t| > 0 && t[0] in WeakStarts
  }

  /** The title of a section item: a meaningful title of the title and description
   *  together, else the cleaned raw title, else a contextual one. */
  function SectionTitle(rawTitle: string, description: string, count: nat, isJixiang: bool): string
  {
    var found := MeaningfulTitle(rawTitle + description);
    if found.Some? then found.value
    else
      var title := CleanTitle(rawTitle);
      if |title| < 2 || StartsWeak(title) then ContextualTitle(description, count, isJixiang)
      else title
  }

  /** `s.replace(/marker.*$/gs, "")`: everything from the first marker on is cut. */
  function CutFrom(s: string, marker: string): (r: string)
    ensures !Contains(s, marker) ==> r == s
    ensures Contains(s, marker) ==> r == s[..IndexOf(s, marker)]
  {
    var i := IndexOf(s, marker);
    if i >= 0 then s[..i] else s
  }

  /** The item a section hit gives: numbered hits also lose everything from "---" or "###". */
  function SectionItem(h: Hit, count: nat, isJixiang: bool, numbered: bool): Option<Item>
  {
    var rawTitle, description := Trim(h.title), Trim(h.description);
    if rawTitle != "" && description != "" then
      var content := ReplaceAny(description, ["**"], "");
      Some(Item(SectionTitle(rawTitle, description, count, isJixiang),
                Trim(if numbered then CutFrom(CutFrom(content, "---"), "###") else content)))
    else None
  }

  function SectionStep(isJixiang: bool, numbered: bool): (Hit, nat) -> Option<Item>
  {
    (h: Hit, count: nat) => SectionItem(h, count, isJixiang, numbered)
  }

  // ---------------------------------------------------------------------------
  // extractItems

  /** The hits of the two numbered patterns (①②③ and 1. 2. 3.) and of the colon pattern
   *  on one section. */
  datatype SectionHits = SectionHits(numbered: seq<seq<Hit>>, colon: seq<Hit>)

  function ShortText(isJixiang: bool): string
  {
    if isJixiang then "此為有利因素，建議在適當時機謹慎把握，以穩健方式促進發展。"
    else "此為不利因素，需要特別注意防範相關風險，謹慎應對挑戰。"
  }

  function PadText(isJixiang: bool): string
  {
    if isJixiang then "此為有利因素，建議在適當時機謹慎把握，以穩健方式促進發展。根據個人八字特點，此象需要耐心等待時機成熟。"
    else "此為不利因素，需要特別注意防範相關風險，謹慎應對挑戰。建議提前做好準備，化解不利影響。"
  }

  /** The `while (items.length < 3)` padding with contextual titles. */
  function Padded(items: seq<Item>, isJixiang: bool): (r: seq<Item>)
    ensures |items| <= |r| && r[..|items|] == items
    ensures |items| >= 3 ==> r == items
    ensures |items| <= 3 ==> |r| == 3
    decreases 3 - |items|
  {
    if |items| >= 3 then items
    else
      var next := items + [Item(ContextualTitle("", |items|, isJixiang), PadText(isJixiang))];
      var r := Padded(next, isJixiang);
      assert r[..|items|] == r[..|next|][..|items|];
      r
  }

  /** The three items of a short section (under 50 characters). */
  function ShortItems(isJixiang: bool): seq<Item>
  {
    seq(3, i requires 0 <= i < 3 => Item(ContextualTitle("", i, isJixiang), ShortText(isJixiang)))
  }

  /** `extractItems(content, type)`. */
  function SectionItems(content: string, isJixiang: bool, hits: SectionHits): seq<Item>
  {
    if |content| < 50 then ShortItems(isJixiang)
    else
      var first := GatherPatterns([], hits.numbered, 3, SectionStep(isJixiang, true));
      var second := if |first| < 3 then Gather(first, hits.colon, 3, SectionStep(isJixiang, false)) else first;
      Padded(second, isJixiang)[..3]
  }

  method ExtractItems(content: string, isJixiang: bool, hits: SectionHits) returns (items: seq<Item>)
    ensures items == SectionItems(content, isJixiang, hits)
  {
    if |content| < 50 {
      items := ShortList(isJixiang);
      return;
    }
    items := GatherEachPattern([], hits.numbered, 3, SectionStep(isJixiang, true));
    if |items| < 3 {
      items := GatherHits(items, hits.colon, 3, SectionStep(isJixiang, false));
    }
    items := PadToThree(items, isJixiang);
    items := items[..3];
  }

  /** The loop filling the three items of a short section. */
  method ShortList(isJixiang: bool) returns (items: seq<Item>)
    ensures items == ShortItems(isJixiang)
  {
    items := [];
    var text := ShortText(isJixiang);
    for i := 0 to 3
      invariant |items| == i
      invariant forall k :: 0 <= k < i ==> items[k] == Item(ContextualTitle("", k, isJixiang), text)
    {
      items := items + [Item(ContextualTitle("", i, isJixiang), text)];
    }
  }

  /** The loop topping the gathered items up to three. */
  method PadToThree(gathered: seq<Item>, isJixiang: bool) returns (items: seq<Item>)
    ensures items == Padded(gathered, isJixiang) && |items| >= 3
  {
    items := gathered;
    while |items| < 3
      invariant Padded(items, isJixiang) == Padded(gathered, isJixiang)
      decreases 3 - |items|
    {
      items := items + [Item(ContextualTitle("", |items|, isJixiang), PadText(isJixiang))];
    }
  }

  /** Always exactly three items; a section under 50 characters gets the first three
   *  titles of its table with the short text. */
  lemma SectionItemsRule(content: string, isJixiang: bool, hits: SectionHits)
    ensures |SectionItems(content, isJixiang, hits)| == 3
    ensures |content| < 50 ==> forall k :: 0 <= k < 3 ==>
      SectionItems(content, isJixiang, hits)[k] == Item(TitleTable(isJixiang)[k], ShortText(isJixiang))
  {
    if |content| < 50 {
      forall k | 0 <= k < 3
        ensures SectionItems(content, isJixiang, hits)[k] == Item(TitleTable(isJixiang)[k], ShortText(isJixiang))
      {
        ContextualTitleOfNothing(k, isJixiang);
      }
    }
  }

  // ---------------------------------------------------------------------------
  // parseJiXiongContent

  /** The text the section patterns matched ("" when none did). */
  datatype Sections = Sections(jixiang: string, xiongxiang: string, season: string)

  datatype Parsed = Parsed(error: Option<string>, jixiang: seq<Item>, xiongxiang: seq<Item>,
                           seasonInfo: string, fullContent: string)

  const DefaultSeasonInfo: string := "【關鍵季節】請根據個人八字具體分析關鍵時期。"

  /** `!lastChar.match(/[。！？】}]/)` for the last character of the trimmed answer. */
  predicate SeemsTruncated(content: string)
  {
    var t := Trim(content);
    |t| == 0 || t[|t| - 1] !in "。！？】}"
  }

  /** `Math.ceil(n / 2)`. */
  function Half(n: nat): nat
  {
    (n + 1) / 2
  }

  function ParsedContent(content: string, sec: Sections, numbered: seq<seq<Hit>>,
                         jiHits: SectionHits, xiongHits: SectionHits): Parsed
  {
    var all := NumberedItems(numbered);
    if sec.jixiang == "" && sec.xiongxiang == "" && |all| >= 3 then
      Parsed(None, all[..Half(|all|)], all[Half(|all|)..], DefaultSeasonInfo, content)
    else
      var jixiang := if sec.jixiang != "" then SectionItems(sec.jixiang, true, jiHits) else [];
      var xiongxiang := if sec.xiongxiang != "" then SectionItems(sec.xiongxiang, false, xiongHits) else [];
      if |jixiang| == 0 && |xiongxiang| == 0 && SeemsTruncated(content) then
        Parsed(Some("AI response was truncated, please try again"), [], [], "", content)
      else
        Parsed(None, jixiang, xiongxiang, if sec.season != "" then sec.season else DefaultSeasonInfo, content)
  }

  method ParseJiXiongContent(content: string, sec: Sections, numbered: seq<seq<Hit>>,
                             jiHits: SectionHits, xiongHits: SectionHits) returns (r: Parsed)
    ensures r == ParsedContent(content, sec, numbered, jiHits, xiongHits)
  {
    if sec.jixiang == "" && sec.xiongxiang == "" {
      var all := ExtractNumberedItems(numbered);
      if |all| >= 3 {
        var midPoint := Half(|all|);
        return Parsed(None, all[..midPoint], all[midPoint..], DefaultSeasonInfo, content);
      }
    }
    var jixiang: seq<Item> := [];
    if sec.jixiang != "" {
      jixiang := ExtractItems(sec.jixiang, true, jiHits);
    }
    var xiongxiang: seq<Item> := [];
    if sec.xiongxiang != "" {
      xiongxiang := ExtractItems(sec.xiongxiang, false, xiongHits);
    }
    if |jixiang| == 0 && |xiongxiang| == 0 && SeemsTruncated(content) {
      return Parsed(Some("AI response was truncated, please try again"), [], [], "", content);
    }
    r := Parsed(None, jixiang, xiongxiang, if sec.season != "" then sec.season else DefaultSeasonInfo, content);
  }

  /** With neither section found and at least three numbered items, the first half rounded
   *  up become 吉象 and the rest 凶象, both non-empty and together all the items. */
  lemma SplitRule(content: string, sec: Sections, numbered: seq<seq<Hit>>,
                  jiHits: SectionHits, xiongHits: SectionHits)
    requires sec.jixiang == "" && sec.xiongxiang == "" && |NumberedItems(numbered)| >= 3
    ensures var r, all := ParsedContent(content, sec, numbered, jiHits, xiongHits), NumberedItems(numbered);
      r.error.None? && r.jixiang + r.xiongxiang == all
      && 2 * |r.jixiang| - 1 <= |all| <= 2 * |r.jixiang|
      && |r.xiongxiang| > 0 && |r.jixiang| >= |r.xiongxiang|
  {
    var all := NumberedItems(numbered);
    var h := Half(|all|);
    var r := ParsedContent(content, sec, numbered, jiHits, xiongHits);
    assert r == Parsed(None, all[..h], all[h..], DefaultSeasonInfo, content);
    HalfSplit(all);
  }

  /** Cutting at `Half` keeps every item, the first part rounded up. */
  lemma HalfSplit(all: seq<Item>)
    requires |all| >= 3
    ensures var h := Half(|all|);
      h <= |all| && all[..h] + all[h..] == all
      && 2 * |all[..h]| - 1 <= |all| <= 2 * |all[..h]|
      && |all[h..]| > 0 && |all[..h]| >= |all[h..]|
  {
    var h := Half(|all|);
    assert all[..h] + all[h..] == all;
  }

  /** The error is returned exactly when no section was found, fewer than three numbered
   *  items exist, and the answer does not end in 。！？】 or }; it has empty lists. A found
   *  section always gives three items. */
  lemma ErrorRule(content: string, sec: Sections, numbered: seq<seq<Hit>>,
                  jiHits: SectionHits, xiongHits: SectionHits)
    ensures var r := ParsedContent(content, sec, numbered, jiHits, xiongHits);
      r.error.Some? <==> (sec.jixiang == "" && sec.xiongxiang == "" && |NumberedItems(numbered)| < 3
        && SeemsTruncated(content))
    ensures var r := ParsedContent(content, sec, numbered, jiHits, xiongHits);
      r.error.Some? ==> r.jixiang == [] && r.xiongxiang == [] && r.seasonInfo == ""
    ensures var r := ParsedContent(content, sec, numbered, jiHits, xiongHits);
      sec.jixiang != "" ==> |r.jixiang| == 3
    ensures var r := ParsedContent(content, sec, numbered, jiHits, xiongHits);
      sec.xiongxiang != "" ==> |r.xiongxiang| == 3
  {
    SectionItemsRule(sec.jixiang, true, jiHits);
    SectionItemsRule(sec.xiongxiang, false, xiongHits);
  }

  // ---------------------------------------------------------------------------
  // The handler

  datatype Body = Body(userInfo: Option<Option<string>>, locale: Option<string>)

  /** What the AI call gave: a non-OK status, a thrown error, or a body whose first choice
   *  may hold content. */
  datatype AiOutcome = NotOk | Thrown | Answered(content: Option<string>)

  datatype Response =
    | BadRequest
    | ServerError(message: string)
    | Success(concern: Option<string>, content: string, parsed: Parsed)

  /** `POST`. `body` is the parsed JSON (None when it is not JSON); the user information
   *  is modelled by its `concern` only, the one field the answer echoes. */
  function Post(body: Option<Body>, ai: AiOutcome, sec: Sections, numbered: seq<seq<Hit>>,
                jiHits: SectionHits, xiongHits: SectionHits): (r: Response)
    ensures r.BadRequest? <==> body.Some? && body.value.userInfo.None?
    ensures r.Success? <==> (body.Some? && body.value.userInfo.Some? && ai.Answered?
      && ai.content.Some? && ai.content.value != "")
    ensures r == ServerError("AI analysis service unavailable") <==>
      body.Some? && body.value.userInfo.Some? && ai.NotOk?
    ensures r.Success? ==> (r.content == ai.content.value
      && r.parsed == ParsedContent(ai.content.value, sec, numbered, jiHits, xiongHits))
  {
    if body.None? || (ai.Thrown? && body.value.userInfo.Some?) then ServerError("Analysis generation failed")
    else if body.value.userInfo.None? then BadRequest
    else if ai.NotOk? then ServerError("AI analysis service unavailable")
    else if ai.content.None? || ai.content.value == "" then ServerError("No analysis generated")
    else Success(body.value.userInfo.value, ai.content.value,
                 ParsedContent(ai.content.value, sec, numbered, jiHits, xiongHits))
  }
}
