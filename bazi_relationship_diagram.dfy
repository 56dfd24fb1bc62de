/** The stem-branch relationship tab: the zodiac animal of the year branch, the four pillars
 *  coloured by their stem's element, the stem and branch relationship cards with repeats
 *  removed, the empty-state notice and the summary line. */
module BaziRelationshipDiagram {
  import opened Wrappers
  import opened Ganzhi
  import Strings
  import Dedup
  import opened BaziRelationships

  // ---------------------------------------------------------------------------
  // Zodiac animal

  /** The animal names of `zodiacMap`, in branch order 子 to 亥. */
  const Animals: seq<string> :=
    ["rat", "ox", "tiger", "rabbit", "dragon", "snake", "horse", "goat", "monkey", "rooster", "dog", "pig"]
  /** The Chinese animal characters `zodiacMap` also accepts, in the same order: 鼠牛虎兔龍蛇馬羊猴雞狗豬. */
  function AnimalChar(i: nat): char
    requires i < 12
  {
    match i
    case 0 => '鼠' case 1 => '牛' case 2 => '虎' case 3 => '兔' case 4 => '龍' case 5 => '蛇'
    case 6 => '馬' case 7 => '羊' case 8 => '猴' case 9 => '雞' case 10 => '狗' case _ => '豬'
  }

  /** The index of an animal character, -1 for any other character. */
  function AnimalOrdinal(c: char): (r: int)
    ensures -1 <= r < 12
  {
    match c
    case '鼠' => 0 case '牛' => 1 case '虎' => 2 case '兔' => 3 case '龍' => 4 case '蛇' => 5
    case '馬' => 6 case '羊' => 7 case '猴' => 8 case '雞' => 9 case '狗' => 10 case '豬' => 11
    case _ => -1
  }

  /** `zodiacMap[key]`: a branch or an animal character names its animal; anything else is `undefined`. */
  function ZodiacLookup(key: string): (r: Option<string>)
    ensures r.Some? ==> r.value in Animals
  {
    if |key| == 1 && BranchOrdinal(key[0]) >= 0 then Some(Animals[BranchOrdinal(key[0])])
    else if |key| == 1 && AnimalOrdinal(key[0]) >= 0 then Some(Animals[AnimalOrdinal(key[0])])
    else None
  }

  /** `zodiacMap[pillars?.year?.branch || "子"] || "rat"`: a missing or empty year branch reads as 子. */
  function ZodiacAnimal(yearBranch: Option<string>): (r: string)
    ensures r in Animals
  {
    var key := if yearBranch.None? || yearBranch.value == "" then "子" else yearBranch.value;
    var found := ZodiacLookup(key);
    if found.Some? && found.value != "" then found.value else "rat"
  }

  /** Each branch and its animal character name the animal of that branch. */
  lemma ZodiacOfBranch(i: nat)
    requires i < 12
    ensures ZodiacAnimal(Some([BranchChar(i)])) == Animals[i]
    ensures ZodiacAnimal(Some([AnimalChar(i)])) == Animals[i]
  {
    BranchOrdinalInverse(i);
    assert AnimalOrdinal(AnimalChar(i)) == i && BranchOrdinal(AnimalChar(i)) == -1;
  }

  /** A missing year branch is the rat of 子, and so is any year branch the table does not list. */
  lemma ZodiacDefault(other: string)
    requires ZodiacLookup(other).None?
    ensures ZodiacAnimal(None) == "rat" && ZodiacAnimal(Some("")) == "rat"
    ensures ZodiacAnimal(Some(other)) == "rat"
  {
    assert BranchOrdinal('子') == 0;
  }

  /** The header image of the year's animal. */
  function ZodiacImage(yearBranch: Option<string>): (r: string)
    ensures Strings.StartsWith(r, "/images/animals/") && Strings.EndsWith(r, ".png")
  {
    "/images/animals/" + ZodiacAnimal(yearBranch) + ".png"
  }

  // ---------------------------------------------------------------------------
  // The four pillars

  /** A pillar as the chart data gives it. */
  datatype PillarData = PillarData(stem: string, branch: string)

  /** A pillar as displayed: its label, its text and the colour of its stem's element. */
  datatype FormattedPillar = FormattedPillar(caption: string, stem: string, branch: string, combined: string, color: string)

  /** The labels of `pillarLabels`, year to hour. */
  const PillarLabels: seq<string> := ["年柱", "月柱", "日柱", "時柱"]

  /** `getElementFromStem`: `stemElements[stem] || "土"`. */
  function ElementFromStem(stem: string): (r: string)
    ensures r in Elements
  {
    if |stem| == 1 && StemElementOf(stem[0]).Some? then StemElementOf(stem[0]).value else "土"
  }

  /** This tab's `elementColors`. */
  function ElementColor(element: string): string
  {
    if element == "金" then "#B8860B"
    else if element == "木" then "#228B22"
    else if element == "水" then "#1E90FF"
    else if element == "火" then "#DC143C"
    else "#D2691E"
  }

  /** `elementColors[getElementFromStem(stem)]`. */
  function PillarColor(stem: string): string
  {
    ElementColor(ElementFromStem(stem))
  }

  /** A stem is drawn in its element's colour, and a value that is not a stem in 土's colour. */
  lemma PillarColorOfStem(i: nat, other: string)
    requires i < 10
    requires StemIndex(other).None?
    ensures PillarColor([StemChar(i)]) == ElementColor(StemElement(i))
    ensures PillarColor(other) == ElementColor("土")
  {
    StemElementOfRule(StemChar(i));
    if |other| == 1 {
      StemElementOfRule(other[0]);
      assert other == [other[0]];
      assert forall k :: 0 <= k < 10 ==> other[0] != Stems[k];
    }
  }

  /** The five elements have five different colours, so two stems share a colour exactly when
   *  they share an element. */
  lemma PillarColorsByElement(i: nat, j: nat)
    requires i < 10 && j < 10
    ensures PillarColor([StemChar(i)]) == PillarColor([StemChar(j)]) <==> i / 2 == j / 2
  {
    PillarColorOfStem(i, "");
    PillarColorOfStem(j, "");
  }

  /** `formattedPillars`: year, month, day, hour, each labelled and joined stem-then-branch. */
  function FormatPillars(year: PillarData, month: PillarData, day: PillarData, hour: PillarData): (r: seq<FormattedPillar>)
    ensures |r| == 4
    ensures forall k :: 0 <= k < 4 ==>
      r[k].caption == PillarLabels[k] && r[k].combined == r[k].stem + r[k].branch &&
      r[k].color == PillarColor(r[k].stem)
    ensures r[0].stem == year.stem && r[1].stem == month.stem && r[2].stem == day.stem && r[3].stem == hour.stem
    ensures r[0].branch == year.branch && r[1].branch == month.branch && r[2].branch == day.branch && r[3].branch == hour.branch
  {
    var ps := [year, month, day, hour];
    seq(4, k requires 0 <= k < 4 =>
      FormattedPillar(PillarLabels[k], ps[k].stem, ps[k].branch, ps[k].stem + ps[k].branch, PillarColor(ps[k].stem)))
  }

  // ---------------------------------------------------------------------------
  // Relationship cards

  /** `[combo.stem1, combo.stem2].sort().join('') + combo.type`. */
  function StemKey(f: StemFinding): string
  {
    Dedup.SortedPair(f.stem1, f.stem2) + f.combo.kind
  }

  /** `[rel.branch1, rel.branch2].sort().join('') + rel.type`. */
  function BranchKey(f: BranchFinding): string
  {
    Dedup.SortedPair(f.branch1, f.branch2) + f.relation.kind
  }

  /** Two one-character stem findings repeat each other exactly when they join the same two
   *  stems, in either order, with the same type. */
  lemma StemKeyUnordered(f: StemFinding, g: StemFinding)
    requires |f.stem1| == 1 && |f.stem2| == 1 && |g.stem1| == 1 && |g.stem2| == 1
    ensures StemKey(f) == StemKey(g) <==>
      multiset{f.stem1[0], f.stem2[0]} == multiset{g.stem1[0], g.stem2[0]} && f.combo.kind == g.combo.kind
  {
    assert f.stem1 == [f.stem1[0]] && f.stem2 == [f.stem2[0]] && g.stem1 == [g.stem1[0]] && g.stem2 == [g.stem2[0]];
    Dedup.PairKeyUnordered(f.stem1[0], f.stem2[0], f.combo.kind, g.stem1[0], g.stem2[0], g.combo.kind);
  }

  /** The same for branch findings and their relation type. */
  lemma BranchKeyUnordered(f: BranchFinding, g: BranchFinding)
    requires |f.branch1| == 1 && |f.branch2| == 1 && |g.branch1| == 1 && |g.branch2| == 1
    ensures BranchKey(f) == BranchKey(g) <==>
      multiset{f.branch1[0], f.branch2[0]} == multiset{g.branch1[0], g.branch2[0]} && f.relation.kind == g.relation.kind
  {
    assert f.branch1 == [f.branch1[0]] && f.branch2 == [f.branch2[0]];
    assert g.branch1 == [g.branch1[0]] && g.branch2 == [g.branch2[0]];
    Dedup.PairKeyUnordered(f.branch1[0], f.branch2[0], f.relation.kind, g.branch1[0], g.branch2[0], g.relation.kind);
  }

  /** `getUniqueStemCombinations`: nothing when the list is absent, else the first finding of
   *  each stem pair and type, in list order. */
  method UniqueStemCombinations(list: Option<seq<StemFinding>>) returns (unique: seq<StemFinding>)
    ensures list.None? ==> unique == []
    ensures list.Some? ==> unique == Dedup.Firsts(list.value, StemKey, |list.value|)
  {
    if list.None? {
      return [];
    }
    unique := Dedup.FilterUnseen(list.value, StemKey);
  }

  /** `getUniqueBranchRelationships`: the first finding of each branch pair and type. */
  method UniqueBranchRelationships(list: Option<seq<BranchFinding>>) returns (unique: seq<BranchFinding>)
    ensures list.None? ==> unique == []
    ensures list.Some? ==> unique == Dedup.Firsts(list.value, BranchKey, |list.value|)
  {
    if list.None? {
      return [];
    }
    unique := Dedup.FilterUnseen(list.value, BranchKey);
  }

  /** An absent or empty list. */
  predicate NoneOrEmpty<T>(list: Option<seq<T>>)
  {
    list.None? || |list.value| == 0
  }

  /** Whether "此命盤未發現明顯的干支特殊關係" is shown: no stem card, no branch card, and no
   *  three-harmony list or an empty one. */
  predicate EmptyState(uniqueStems: seq<StemFinding>, uniqueBranches: seq<BranchFinding>, harmonies: Option<seq<HarmonyFinding>>)
  {
    |uniqueStems| == 0 && |uniqueBranches| == 0 && NoneOrEmpty(harmonies)
  }

  /** Removing repeats never empties a list, so the notice shows exactly when the chart data
   *  holds no stem, branch or three-harmony finding at all. */
  lemma EmptyStateIffNothingFound(
    stems: Option<seq<StemFinding>>, branches: Option<seq<BranchFinding>>, harmonies: Option<seq<HarmonyFinding>>)
    ensures var us := if stems.Some? then Dedup.Firsts(stems.value, StemKey, |stems.value|) else [];
      var ub := if branches.Some? then Dedup.Firsts(branches.value, BranchKey, |branches.value|) else [];
      EmptyState(us, ub, harmonies) <==> NoneOrEmpty(stems) && NoneOrEmpty(branches) && NoneOrEmpty(harmonies)
  {
    if stems.Some? {
      Dedup.FirstsEmpty(stems.value, StemKey);
    }
    if branches.Some? {
      Dedup.FirstsEmpty(branches.value, BranchKey);
    }
  }

  /** The card badge: `暗` before the type of a hidden combination. */
  function Badge(f: StemFinding): (r: string)
    ensures f.isHidden ==> r == "暗" + f.combo.kind
    ensures !f.isHidden ==> r == f.combo.kind
  {
    (if f.isHidden then "暗" else "") + f.combo.kind
  }

  // ---------------------------------------------------------------------------
  // Summary

  /** The 關係摘要 box: the notes joined with "；", shown only when there are notes. */
  function Summary(notes: Option<seq<string>>): (r: Option<string>)
    ensures r.Some? <==> !NoneOrEmpty(notes)
  {
    if NoneOrEmpty(notes) then None else Some(Strings.Join(notes.value, "；"))
  }

  /** Notes without a "；" of their own can be read back from the summary line. */
  lemma SummarySplits(notes: seq<string>)
    requires |notes| > 0
    requires forall i :: 0 <= i < |notes| ==> '；' !in notes[i]
    ensures Strings.Split(Summary(Some(notes)).value, '；') == notes
  {
    Strings.SplitJoin(notes, '；');
  }
}
