/** The basic-chart tab: the four pillar cards, the grid rows drawn from the detailed chart
 *  data, and the chart-feature lines (stem, branch and three-harmony relationships, with
 *  repeats removed, or a fallback line when the chart has none). */
module BaziDetailedChart {
  import opened Wrappers
  import opened Ganzhi
  import Strings
  import Dedup
  import opened BaziRelationships
  import BaziChartData
  import BaziRelationshipDiagram

  /** The year's animal: this tab carries the same `zodiacMap` and defaults as the
   *  relationship tab. */
  function ZodiacAnimal(yearBranch: Option<string>): (r: string)
    ensures r in BaziRelationshipDiagram.Animals
    ensures forall i :: 0 <= i < 12 && yearBranch == Some([BranchChar(i)]) ==> r == BaziRelationshipDiagram.Animals[i]
  {
    forall i | 0 <= i < 12 {
      BaziRelationshipDiagram.ZodiacOfBranch(i);
    }
    BaziRelationshipDiagram.ZodiacAnimal(yearBranch)
  }

  // ---------------------------------------------------------------------------
  // Colours

  /** `getElementColor`: this tab's colour of an element, grey for anything else. */
  function GetElementColor(element: Option<string>): (r: string)
    ensures element.None? || element.value !in Elements ==> r == "#6b7280"
    ensures element.Some? && element.value in Elements ==> r != "#6b7280"
  {
    if element == Some("金") then "#b8860b"
    else if element == Some("木") then "#22c55e"
    else if element == Some("水") then "#3b82f6"
    else if element == Some("火") then "#ef4444"
    else if element == Some("土") then "#d97706"
    else "#6b7280"
  }

  /** The five elements get five different colours. */
  lemma ElementColorsDistinct(a: nat, b: nat)
    requires a < 5 && b < 5
    ensures GetElementColor(Some(Elements[a])) == GetElementColor(Some(Elements[b])) <==> a == b
  {
  }

  // ---------------------------------------------------------------------------
  // Pillar cards

  /** A pillar card: the stem's god, the stem and the branch, each `value || "-"`. */
  datatype PillarCard = PillarCard(god: string, stem: string, branch: string)

  /** `pillars?.[key] || {}` and the three card lines. */
  function CardOf(pillar: Option<BaziChartData.ChartPillar>): (r: PillarCard)
    ensures pillar.None? ==> r == PillarCard("-", "-", "-")
    ensures pillar.Some? && pillar.value.stem.Some? && pillar.value.stem.value != "" ==> r.stem == pillar.value.stem.value
    ensures pillar.Some? && pillar.value.branch.Some? && pillar.value.branch.value != "" ==> r.branch == pillar.value.branch.value
  {
    if pillar.None? then PillarCard("-", "-", "-")
    else
      var p := pillar.value;
      PillarCard(BaziChartData.OrDash(p.stemTenGod), BaziChartData.OrDash(p.stem), BaziChartData.OrDash(p.branch))
  }

  // ---------------------------------------------------------------------------
  // Grid cells

  /** A grid cell: its text (`undefined` renders nothing) and its colour. */
  datatype Cell = Cell(text: Option<string>, color: string)

  /** A hidden-stem cell as written: `pillarHidden[rowIndex]` is the row array of
   *  `formatHiddenStems`, which is always truthy, so its first entry is shown (nothing for an
   *  empty row) in the colour of its second entry, which a row never has. */
  function HiddenCellAsWritten(row: seq<string>): (c: Cell)
  {
    Cell(if |row| > 0 then Some(row[0]) else None, GetElementColor(if |row| > 1 then Some(row[1]) else None))
  }

  /** A hidden-stem cell as the grid evidently intends it: the entry "甲木" shows its stem 甲 in
   *  the colour of its element 木, and an empty row shows "-" in #999. */
  function HiddenCell(row: seq<string>): (c: Cell)
    ensures |row| == 0 ==> c == Cell(Some("-"), "#999")
  {
    if |row| > 0 && |row[0]| >= 2 then Cell(Some([row[0][0]]), GetElementColor(Some([row[0][1]])))
    else if |row| > 0 then Cell(Some(row[0]), "#6b7280")
    else Cell(Some("-"), "#999")
  }

  /** The hidden-stem cells of a pillar in the grid, rows 0 to 2. */
  function HiddenCells(hidden: Option<seq<BaziChartData.HiddenStem>>, written: bool): (r: seq<Cell>)
    ensures |r| == 3
  {
    var rows := BaziChartData.ThreeRows(BaziChartData.HiddenLabels(hidden));
    seq(3, i requires 0 <= i < 3 => if written then HiddenCellAsWritten(rows[i]) else HiddenCell(rows[i]))
  }

  /** As written, no hidden stem is ever coloured by its element, and a row without a hidden
   *  stem shows nothing rather than "-". */
  lemma HiddenCellsAsWrittenGrey(hidden: Option<seq<BaziChartData.HiddenStem>>, i: nat)
    requires i < 3
    ensures HiddenCells(hidden, true)[i].color == "#6b7280"
    ensures i >= |BaziChartData.HiddenLabels(hidden)| ==> HiddenCells(hidden, true)[i].text.None?
  {
  }

  /** Corrected, a hidden stem of the ten shows itself in its element's colour, and a row with
   *  no hidden stem shows "-". */
  lemma HiddenCellsByElement(hidden: seq<BaziChartData.HiddenStem>, i: nat, s: nat)
    requires i < 3 && s < 10
    ensures i >= |hidden| ==> HiddenCells(Some(hidden), false)[i] == Cell(Some("-"), "#999")
    ensures i < |hidden| && hidden[i] == BaziChartData.HiddenStem(Some([StemChar(s)]), Some(StemElement(s))) ==>
      HiddenCells(Some(hidden), false)[i] == Cell(Some([StemChar(s)]), GetElementColor(Some(StemElement(s))))
  {
    if i < |hidden| && hidden[i] == BaziChartData.HiddenStem(Some([StemChar(s)]), Some(StemElement(s))) {
      var entry := BaziChartData.HiddenLabels(Some(hidden))[i];
      assert entry == [StemChar(s)] + StemElement(s);
      assert |StemElement(s)| == 1 by { assert s / 2 < 5; }
    }
  }

  /** The hidden stem 甲木 in the first row: grey as written, green as intended. */
  lemma HiddenCellCounterexample()
    ensures HiddenCells(Some([BaziChartData.HiddenStem(Some("甲"), Some("木"))]), true)[0] == Cell(Some("甲木"), "#6b7280")
    ensures HiddenCells(Some([BaziChartData.HiddenStem(Some("甲"), Some("木"))]), false)[0] == Cell(Some("甲"), "#22c55e")
  {
    assert BaziChartData.HiddenLabels(Some([BaziChartData.HiddenStem(Some("甲"), Some("木"))]))[0] == "甲木";
  }

  /** A hidden ten-god cell: `pillarGods?.[rowIndex] ? pillarGods[rowIndex].join(" ") : "-"`;
   *  the row array is always truthy, so an empty row shows the empty text. */
  function TenGodCell(row: seq<string>): (r: string)
    ensures |row| == 0 ==> r == ""
    ensures |row| == 1 ==> r == row[0]
  {
    Strings.Join(row, " ")
  }

  // ---------------------------------------------------------------------------
  // Chart features

  /** `[rel.stem1, rel.stem2].sort().join("")`: the stem lines drop repeats of a stem pair
   *  whatever their type. */
  function StemPairKey(f: StemFinding): string
  {
    Dedup.SortedPair(f.stem1, f.stem2)
  }

  /** `[rel.branch1, rel.branch2].sort().join("") + rel.relationship`. */
  function BranchPairKey(f: BranchFinding): string
  {
    Dedup.SortedPair(f.branch1, f.branch2) + f.relation.relationship
  }

  /** Two one-character stem findings repeat each other exactly when they join the same two stems. */
  lemma StemPairKeyUnordered(f: StemFinding, g: StemFinding)
    requires |f.stem1| == 1 && |f.stem2| == 1 && |g.stem1| == 1 && |g.stem2| == 1
    ensures StemPairKey(f) == StemPairKey(g) <==> multiset{f.stem1[0], f.stem2[0]} == multiset{g.stem1[0], g.stem2[0]}
  {
    assert f.stem1 == [f.stem1[0]] && f.stem2 == [f.stem2[0]] && g.stem1 == [g.stem1[0]] && g.stem2 == [g.stem2[0]];
    Dedup.PairKeyUnordered(f.stem1[0], f.stem2[0], "", g.stem1[0], g.stem2[0], "");
    assert StemPairKey(f) + "" == StemPairKey(f) && StemPairKey(g) + "" == StemPairKey(g);
  }

  /** Two one-character branch findings repeat each other exactly when they join the same two
   *  branches under the same relationship name. */
  lemma BranchPairKeyUnordered(f: BranchFinding, g: BranchFinding)
    requires |f.branch1| == 1 && |f.branch2| == 1 && |g.branch1| == 1 && |g.branch2| == 1
    ensures BranchPairKey(f) == BranchPairKey(g) <==>
      multiset{f.branch1[0], f.branch2[0]} == multiset{g.branch1[0], g.branch2[0]} &&
      f.relation.relationship == g.relation.relationship
  {
    assert f.branch1 == [f.branch1[0]] && f.branch2 == [f.branch2[0]];
    assert g.branch1 == [g.branch1[0]] && g.branch2 == [g.branch2[0]];
    Dedup.PairKeyUnordered(f.branch1[0], f.branch2[0], f.relation.relationship, g.branch1[0], g.branch2[0], g.relation.relationship);
  }

  /** `rel.type || rel.relationship || "合"`: a stem finding has no relationship field. */
  function StemLabel(f: StemFinding): string
  {
    if f.combo.kind != "" then f.combo.kind else "合"
  }

  /** The items of a feature line, joined with "；". */
  function StemItems(unique: seq<StemFinding>): (r: seq<string>)
    ensures |r| == |unique|
    ensures forall i :: 0 <= i < |r| ==> r[i] == unique[i].stem1 + unique[i].stem2 + StemLabel(unique[i])
  {
    seq(|unique|, i requires 0 <= i < |unique| => unique[i].stem1 + unique[i].stem2 + StemLabel(unique[i]))
  }

  function BranchItems(unique: seq<BranchFinding>): (r: seq<string>)
    ensures |r| == |unique|
    ensures forall i :: 0 <= i < |r| ==> r[i] == unique[i].branch1 + unique[i].branch2 + unique[i].relation.relationship
  {
    seq(|unique|, i requires 0 <= i < |unique| => unique[i].branch1 + unique[i].branch2 + unique[i].relation.relationship)
  }

  /** `harmony.branches.join("") + (harmony.type || "")`. */
  function HarmonyItems(harmonies: seq<HarmonyFinding>): (r: seq<string>)
    ensures |r| == |harmonies|
    ensures forall i :: 0 <= i < |r| ==> r[i] == Strings.Join(harmonies[i].branches, "") + harmonies[i].combo.kind
  {
    seq(|harmonies|, i requires 0 <= i < |harmonies| => Strings.Join(harmonies[i].branches, "") + harmonies[i].combo.kind)
  }

  /** The 命盤特徵 section. Each line is absent when its list is; the fallback line appears when
   *  the stem and branch lists are absent or empty. */
  datatype Features = Features(stems: Option<string>, branches: Option<string>, harmonies: Option<string>, fallback: bool)

  /** A feature line: the items joined with "；", or nothing when there are none. */
  function Line(items: seq<string>): (r: Option<string>)
    ensures r.Some? <==> |items| > 0
  {
    if |items| == 0 then None else Some(Strings.Join(items, "；"))
  }

  /** The feature section: stem findings without repeated pairs, branch findings without
   *  repeated pair and relationship, every three-harmony finding, and the fallback. */
  method ChartFeatures(
    stems: Option<seq<StemFinding>>, branches: Option<seq<BranchFinding>>, harmonies: Option<seq<HarmonyFinding>>)
    returns (f: Features)
    ensures f.stems == if stems.None? then None else Line(StemItems(Dedup.Firsts(stems.value, StemPairKey, |stems.value|)))
    ensures f.branches == if branches.None? then None else Line(BranchItems(Dedup.Firsts(branches.value, BranchPairKey, |branches.value|)))
    ensures f.harmonies == if harmonies.None? then None else Line(HarmonyItems(harmonies.value))
    ensures f.fallback <==> BaziRelationshipDiagram.NoneOrEmpty(stems) && BaziRelationshipDiagram.NoneOrEmpty(branches)
  {
    var stemLine: Option<string> := None;
    if stems.Some? && |stems.value| > 0 {
      var unique := Dedup.FilterUnseen(stems.value, StemPairKey);
      stemLine := Line(StemItems(unique));
    }
    var branchLine: Option<string> := None;
    if branches.Some? && |branches.value| > 0 {
      var unique := Dedup.FilterUnseen(branches.value, BranchPairKey);
      branchLine := Line(BranchItems(unique));
    }
    var harmonyLine := if harmonies.Some? then Line(HarmonyItems(harmonies.value)) else None;
    var fallback := (stems.None? || |stems.value| == 0) && (branches.None? || |branches.value| == 0);
    f := Features(stemLine, branchLine, harmonyLine, fallback);
  }

  /** The fallback shows exactly when neither a stem line nor a branch line does, and it can
   *  show beside a three-harmony line. */
  lemma FallbackIffNoPairLines(
    stems: Option<seq<StemFinding>>, branches: Option<seq<BranchFinding>>)
    ensures var sl := if stems.None? then None else Line(StemItems(Dedup.Firsts(stems.value, StemPairKey, |stems.value|)));
      var bl := if branches.None? then None else Line(BranchItems(Dedup.Firsts(branches.value, BranchPairKey, |branches.value|)));
      sl.None? && bl.None? <==> BaziRelationshipDiagram.NoneOrEmpty(stems) && BaziRelationshipDiagram.NoneOrEmpty(branches)
  {
    if stems.Some? {
      Dedup.FirstsEmpty(stems.value, StemPairKey);
    }
    if branches.Some? {
      Dedup.FirstsEmpty(branches.value, BranchPairKey);
    }
  }
}
