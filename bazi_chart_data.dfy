/** `baziChartData.js`: the element distribution of a chart, yin and yang of a stem, the day
 *  master's personality card, the ten gods of a stem against the day master, the three-row
 *  hidden-stem grid and the detailed chart rows. The calendar and nayin libraries that supply
 *  the chart are not modelled: their results are the parameters. */
module BaziChartData {
  import opened Wrappers
  import opened Ganzhi
  import opened Strings

  // ---------------------------------------------------------------------------
  // Element distribution

  /** The keys of `elementCounts`, in the order the source lists them: 金木水火土. */
  function KeyChar(k: nat): char
    requires k < 5
  {
    match k
    case 0 => '金' case 1 => '木' case 2 => '水' case 3 => '火' case _ => '土'
  }

  function Key(k: nat): string
    requires k < 5
  {
    [KeyChar(k)]
  }

  /** `elementCounts[e] !== undefined`: the slot of an element name, -1 for any other string. */
  function KeySlot(e: string): (r: int)
    ensures -1 <= r < 5
    ensures r >= 0 ==> e == Key(r)
    ensures r == -1 ==> forall k :: 0 <= k < 5 ==> e != Key(k)
  {
    if |e| != 1 then -1
    else match e[0]
      case '金' => 0 case '木' => 1 case '水' => 2 case '火' => 3 case '土' => 4 case _ => -1
  }

  lemma KeysDistinct(j: nat, k: nat)
    requires j < 5 && k < 5 && j != k
    ensures Key(j) != Key(k)
  {
    assert KeySlot(Key(j)) == j && KeySlot(Key(k)) == k;
  }

  /** The number of entries of `items` equal to `e`. */
  function Occurrences(items: seq<string>, e: string): (n: nat)
    ensures n <= |items|
  {
    if |items| == 0 then 0
    else Occurrences(items[..|items| - 1], e) + (if items[|items| - 1] == e then 1 else 0)
  }

  /** The number of entries of `items` that are element names at all. */
  function Recognized(items: seq<string>): (n: nat)
    ensures n <= |items|
  {
    if |items| == 0 then 0
    else Recognized(items[..|items| - 1]) + (if KeySlot(items[|items| - 1]) >= 0 then 1 else 0)
  }

  /** A hidden stem as the nayin data gives it; a missing field is `undefined` (None). */
  datatype HiddenStem = HiddenStem(stem: Option<string>, element: Option<string>)

  /** The hidden stems of one list whose element is `e`. */
  function HiddenOccurrences(hs: seq<HiddenStem>, e: string): nat
  {
    if |hs| == 0 then 0
    else HiddenOccurrences(hs[..|hs| - 1], e) + (if hs[|hs| - 1].element == Some(e) then 1 else 0)
  }

  /** Over the branches' lists; `None` stands for a value that is not an array and counts nothing. */
  function HiddenTotal(lists: seq<Option<seq<HiddenStem>>>, e: string): nat
  {
    if |lists| == 0 then 0
    else
      var last := lists[|lists| - 1];
      HiddenTotal(lists[..|lists| - 1], e) + (if last.Some? then HiddenOccurrences(last.value, e) else 0)
  }

  /** The hidden stems of one list with a recognised element. */
  function HiddenRecognized(hs: seq<HiddenStem>): nat
  {
    if |hs| == 0 then 0
    else
      var last := hs[|hs| - 1];
      HiddenRecognized(hs[..|hs| - 1]) + (if last.element.Some? && KeySlot(last.element.value) >= 0 then 1 else 0)
  }

  function HiddenRecognizedTotal(lists: seq<Option<seq<HiddenStem>>>): nat
  {
    if |lists| == 0 then 0
    else
      var last := lists[|lists| - 1];
      HiddenRecognizedTotal(lists[..|lists| - 1]) + (if last.Some? then HiddenRecognized(last.value) else 0)
  }

  /** The weighted count of element `e`: 3 per stem, 2 per branch, 1 per hidden stem. */
  function Weighted(stems: seq<string>, branches: seq<string>, hidden: seq<Option<seq<HiddenStem>>>, e: string): nat
  {
    3 * Occurrences(stems, e) + 2 * Occurrences(branches, e) + HiddenTotal(hidden, e)
  }

  /** `Math.round(count / total * 100)` in exact arithmetic: the nearest integer, halves up. */
  function RoundPercent(count: nat, total: nat): (p: nat)
    requires total > 0
  {
    (200 * count + total) / (2 * total)
  }

  /** The rounded percentage is within one half of the exact one, and at most 100. */
  lemma RoundPercentNearest(count: nat, total: nat)
    requires 0 < total && count <= total
    ensures var p := RoundPercent(count, total);
      2 * total * p <= 200 * count + total < 2 * total * (p + 1) && p <= 100
  {
    var p, a, b := RoundPercent(count, total), 200 * count + total, 2 * total;
    assert a == b * p + a % b && 0 <= a % b < b;
    assert 2 * total * (p + 1) == b * p + b;
    assert b * p < b * 101;
    if p >= 101 {
      MulMonotone(b, 101, p);
      assert false;
    }
  }

  lemma MulMonotone(b: nat, x: nat, y: nat)
    requires x <= y
    ensures b * x <= b * y
  {
    assert b * y == b * x + b * (y - x);
  }

  datatype Distribution = Distribution(counts: seq<nat>, percentages: seq<nat>, total: nat)

  /** `elementCounts[e] += w` for every entry of `items` that names an element. */
  method AddWeighted(counts: seq<nat>, items: seq<string>, w: nat) returns (r: seq<nat>)
    requires |counts| == 5
    ensures |r| == 5
    ensures forall k :: 0 <= k < 5 ==> r[k] == counts[k] + w * Occurrences(items, Key(k))
  {
    r := counts;
    for i := 0 to |items|
      invariant |r| == 5
      invariant forall k :: 0 <= k < 5 ==> r[k] == counts[k] + w * Occurrences(items[..i], Key(k))
    {
      assert items[..i + 1][..i] == items[..i];
      var slot := KeySlot(items[i]);
      if slot >= 0 {
        forall k | 0 <= k < 5 && k != slot
          ensures items[i] != Key(k)
        {
          KeysDistinct(slot, k);
        }
        assert w * (Occurrences(items[..i], Key(slot)) + 1) == w * Occurrences(items[..i], Key(slot)) + w;
        r := r[slot := r[slot] + w];
      }
    }
    assert items[..|items|] == items;
  }

  /** `calculateElementDistribution`: stems weigh 3, branches 2, hidden stems 1; names that are
   *  not element keys and lists that are not arrays are skipped. */
  method CalculateElementDistribution(stems: seq<string>, branches: seq<string>, hidden: seq<Option<seq<HiddenStem>>>)
    returns (d: Distribution)
    ensures |d.counts| == 5 && |d.percentages| == 5
    ensures forall k :: 0 <= k < 5 ==> d.counts[k] == Weighted(stems, branches, hidden, Key(k))
    ensures d.total == d.counts[0] + d.counts[1] + d.counts[2] + d.counts[3] + d.counts[4]
    ensures forall k :: 0 <= k < 5 ==>
      d.percentages[k] == if d.total > 0 then RoundPercent(d.counts[k], d.total) else 0
  {
    var counts: seq<nat> := [0, 0, 0, 0, 0];
    counts := AddWeighted(counts, stems, 3);
    counts := AddWeighted(counts, branches, 2);
    for j := 0 to |hidden|
      invariant |counts| == 5
      invariant forall k :: 0 <= k < 5 ==>
        counts[k] == 3 * Occurrences(stems, Key(k)) + 2 * Occurrences(branches, Key(k)) + HiddenTotal(hidden[..j], Key(k))
    {
      assert hidden[..j + 1][..j] == hidden[..j];
      if hidden[j].Some? {
        counts := AddWeighted(counts, ElementNames(hidden[j].value), 1);
        forall k | 0 <= k < 5
          ensures Occurrences(ElementNames(hidden[j].value), Key(k)) == HiddenOccurrences(hidden[j].value, Key(k))
        {
          ElementNamesCount(hidden[j].value, Key(k));
        }
      }
    }
    assert hidden[..|hidden|] == hidden;
    var total := counts[0] + counts[1] + counts[2] + counts[3] + counts[4];
    var percentages: seq<nat> := [];
    for k := 0 to 5
      invariant |percentages| == k
      invariant forall m :: 0 <= m < k ==>
        percentages[m] == if total > 0 then RoundPercent(counts[m], total) else 0
    {
      percentages := percentages + [if total > 0 then RoundPercent(counts[k], total) else 0];
    }
    d := Distribution(counts, percentages, total);
  }

  /** The element of each hidden stem, an absent one as a name no key equals. */
  function ElementNames(hs: seq<HiddenStem>): (r: seq<string>)
    ensures |r| == |hs|
  {
    seq(|hs|, i requires 0 <= i < |hs| => if hs[i].element.Some? then hs[i].element.value else "")
  }

  lemma {:induction false} ElementNamesCount(hs: seq<HiddenStem>, e: string)
    requires e != ""
    ensures Occurrences(ElementNames(hs), e) == HiddenOccurrences(hs, e)
  {
    if |hs| > 0 {
      var init := hs[..|hs| - 1];
      assert ElementNames(hs)[..|hs| - 1] == ElementNames(init);
      ElementNamesCount(init, e);
    }
  }

  /** The total is the weighted number of recognised names: each stem that names an element adds
   *  3, each such branch 2 and each such hidden stem 1, whatever the element. */
  lemma TotalIsWeightedSum(stems: seq<string>, branches: seq<string>, hidden: seq<Option<seq<HiddenStem>>>)
    ensures Weighted(stems, branches, hidden, Key(0)) + Weighted(stems, branches, hidden, Key(1))
      + Weighted(stems, branches, hidden, Key(2)) + Weighted(stems, branches, hidden, Key(3))
      + Weighted(stems, branches, hidden, Key(4))
        == 3 * Recognized(stems) + 2 * Recognized(branches) + HiddenRecognizedTotal(hidden)
  {
    OccurrencesPartition(stems);
    OccurrencesPartition(branches);
    HiddenTotalPartition(hidden);
  }

  /** Every recognised entry is counted under exactly one key. */
  lemma {:induction false} OccurrencesPartition(items: seq<string>)
    ensures Occurrences(items, Key(0)) + Occurrences(items, Key(1)) + Occurrences(items, Key(2))
      + Occurrences(items, Key(3)) + Occurrences(items, Key(4)) == Recognized(items)
  {
    if |items| > 0 {
      OccurrencesPartition(items[..|items| - 1]);
      OneKey(items[|items| - 1]);
    }
  }

  /** A string equals one key when it has a slot and none otherwise. */
  lemma OneKey(e: string)
    ensures (if e == Key(0) then 1 else 0) + (if e == Key(1) then 1 else 0) + (if e == Key(2) then 1 else 0)
      + (if e == Key(3) then 1 else 0) + (if e == Key(4) then 1 else 0) == if KeySlot(e) >= 0 then 1 else 0
  {
    var s := KeySlot(e);
    if s >= 0 {
      forall k | 0 <= k < 5 && k != s
        ensures e != Key(k)
      {
        KeysDistinct(s, k);
      }
    }
  }

  lemma {:induction false} HiddenPartition(hs: seq<HiddenStem>)
    ensures HiddenOccurrences(hs, Key(0)) + HiddenOccurrences(hs, Key(1)) + HiddenOccurrences(hs, Key(2))
      + HiddenOccurrences(hs, Key(3)) + HiddenOccurrences(hs, Key(4)) == HiddenRecognized(hs)
  {
    if |hs| > 0 {
      HiddenPartition(hs[..|hs| - 1]);
      var last := hs[|hs| - 1];
      if last.element.Some? {
        OneKey(last.element.value);
      }
    }
  }

  lemma {:induction false} HiddenTotalPartition(lists: seq<Option<seq<HiddenStem>>>)
    ensures HiddenTotal(lists, Key(0)) + HiddenTotal(lists, Key(1)) + HiddenTotal(lists, Key(2))
      + HiddenTotal(lists, Key(3)) + HiddenTotal(lists, Key(4)) == HiddenRecognizedTotal(lists)
  {
    if |lists| > 0 {
      HiddenTotalPartition(lists[..|lists| - 1]);
      var last := lists[|lists| - 1];
      if last.Some? {
        HiddenPartition(last.value);
      }
    }
  }

  // ---------------------------------------------------------------------------
  // Yin and yang, and the day master's card

  const YangStems: seq<string> := ["甲", "丙", "戊", "庚", "壬"]

  /** `getYinYang`: 陽 for the five yang stems, 陰 for anything else. */
  function GetYinYang(stem: string): (r: string)
    ensures r == "陽" <==> stem in YangStems
    ensures r == "陽" || r == "陰"
  {
    if stem in YangStems then "陽" else "陰"
  }

  /** 陽 exactly for the stems at even indices, 陰 for the others and for non-stems. */
  lemma YinYangRule(stem: string)
    ensures GetYinYang(stem) == "陽" <==> StemIndex(stem).Some? && IsYangIndex(StemIndex(stem).value)
  {
    var ix := StemIndex(stem);
    if ix.Some? {
      var i := ix.value;
      assert stem == [StemChar(i)];
      assert GetYinYang(stem) == (if i % 2 == 0 then "陽" else "陰") by { YinYangOfStem(i); }
    }
  }

  lemma YinYangOfStem(i: nat)
    requires i < 10
    ensures GetYinYang([StemChar(i)]) == if i % 2 == 0 then "陽" else "陰"
  {
    if i % 2 == 0 {
      assert [StemChar(i)] == YangStems[i / 2];
    } else {
      forall k | 0 <= k < 5
        ensures [StemChar(i)] != YangStems[k]
      {
        assert YangStems[k] == [StemChar(2 * k)];
        assert StemChar(i) != StemChar(2 * k);
      }
    }
  }

  /** The card of `getDayMasterPersonality`, without the descriptions and trait lists. */
  datatype Personality = Personality(title: string, element: string, yinYang: string)

  function GetDayMasterPersonality(dayStem: string, dayElement: string): Personality
  {
    var fallback := Personality("待探索", dayElement, GetYinYang(dayStem));
    if |dayStem| != 1 then fallback
    else match dayStem[0]
      case '甲' => Personality("智善隨形", "木", "陽")
      case '乙' => Personality("柔韌靈動", "木", "陰")
      case '丙' => Personality("光明熱情", "火", "陽")
      case '丁' => Personality("溫暖細膩", "火", "陰")
      case '戊' => Personality("穩重可靠", "土", "陽")
      case '己' => Personality("包容養育", "土", "陰")
      case '庚' => Personality("剛毅果斷", "金", "陽")
      case '辛' => Personality("精緻靈巧", "金", "陰")
      case '壬' => Personality("智慧流動", "水", "陽")
      case '癸' => Personality("柔情細水", "水", "陰")
      case _ => fallback
  }

  /** Each stem's card agrees with the element of its pair and with `getYinYang`. */
  lemma PersonalityAgrees(i: nat, dayElement: string)
    requires i < 10
    ensures var p := GetDayMasterPersonality([StemChar(i)], dayElement);
      p.element == StemElement(i) && p.yinYang == GetYinYang([StemChar(i)]) && p.title != "待探索"
  {
    YinYangOfStem(i);
  }

  /** Any other day stem gets the placeholder card, the given element and 陰. */
  lemma PersonalityFallback(dayStem: string, dayElement: string)
    requires |dayStem| != 1 || StemOrdinal(dayStem[0]) < 0
    ensures GetDayMasterPersonality(dayStem, dayElement) == Personality("待探索", dayElement, "陰")
  {
    forall k | 0 <= k < 5
      ensures dayStem != YangStems[k]
    {
      assert YangStems[k] == [StemChar(2 * k)];
      StemOrdinalInverse(2 * k);
    }
  }

  // ---------------------------------------------------------------------------
  // Ten gods

  /** An entry of `stemInfo`: the element and whether the stem is yang. */
  datatype StemData = StemData(element: string, yang: bool)

  function StemInfo(stem: string): Option<StemData>
  {
    if |stem| != 1 then None
    else match stem[0]
      case '甲' => Some(StemData("木", true)) case '乙' => Some(StemData("木", false))
      case '丙' => Some(StemData("火", true)) case '丁' => Some(StemData("火", false))
      case '戊' => Some(StemData("土", true)) case '己' => Some(StemData("土", false))
      case '庚' => Some(StemData("金", true)) case '辛' => Some(StemData("金", false))
      case '壬' => Some(StemData("水", true)) case '癸' => Some(StemData("水", false))
      case _ => None
  }

  /** `elementCycle.indexOf(e)` over 木火土金水, the order of `Elements`. */
  function CycleIndex(e: string): (r: int)
    ensures -1 <= r < 5
  {
    if |e| != 1 then -1
    else match e[0]
      case '木' => 0 case '火' => 1 case '土' => 2 case '金' => 3 case '水' => 4 case _ => -1
  }

  /** The name for a generating-order distance 1-4, by equal or opposite polarity. */
  function TenGodName(diff: int, samePolarity: bool): string
  {
    if diff == 1 then (if samePolarity then "食神" else "傷官")
    else if diff == 2 then (if samePolarity then "偏財" else "正財")
    else if diff == 3 then (if samePolarity then "偏官" else "正官")
    else if diff == 4 then (if samePolarity then "偏印" else "正印")
    else "-"
  }

  /** `calculateTenGodManual`: the god of `stem` seen from the day master. */
  function CalculateTenGodManual(stem: string, dayMaster: string): string
  {
    var s, d := StemInfo(stem), StemInfo(dayMaster);
    if s.None? || d.None? then "-"
    else if s.value.element == d.value.element then
      (if s.value.yang == d.value.yang then "比肩" else "劫財")
    else
      TenGodName(JsRem(CycleIndex(s.value.element) - CycleIndex(d.value.element) + 5, 5),
        s.value.yang == d.value.yang)
  }

  /** The ten gods by index: stem `i` against day master `j`, elements `i / 2` and `j / 2`. */
  function TenGodOf(i: nat, j: nat): string
    requires i < 10 && j < 10
  {
    var rel, same := (i / 2 - j / 2 + 5) % 5, i % 2 == j % 2;
    if rel == 0 then (if same then "比肩" else "劫財") else TenGodName(rel, same)
  }

  /** `stemInfo` gives each stem the element of its pair and yang at even indices. */
  lemma StemInfoRule(i: nat)
    requires i < 10
    ensures StemInfo([StemChar(i)]) == Some(StemData(Elements[i / 2], i % 2 == 0))
  {
  }

  lemma CycleIndexRule(e: nat)
    requires e < 5
    ensures CycleIndex(Elements[e]) == e
  {
  }

  /** The dictionary-driven derivation agrees with the index rule for all hundred pairs. */
  lemma TenGodManualRule(i: nat, j: nat)
    requires i < 10 && j < 10
    ensures CalculateTenGodManual([StemChar(i)], [StemChar(j)]) == TenGodOf(i, j)
  {
    StemInfoRule(i);
    StemInfoRule(j);
    ManualByIndex([StemChar(i)], [StemChar(j)], i, j);
  }

  /** Any two stems whose records are those of indices `i` and `j` get the index rule's name. */
  lemma ManualByIndex(stem: string, dayMaster: string, i: nat, j: nat)
    requires i < 10 && j < 10
    requires StemInfo(stem) == Some(StemData(Elements[i / 2], i % 2 == 0))
    requires StemInfo(dayMaster) == Some(StemData(Elements[j / 2], j % 2 == 0))
    ensures CalculateTenGodManual(stem, dayMaster) == TenGodOf(i, j)
  {
    ManualOfInfos(stem, dayMaster,
      StemData(Elements[i / 2], i % 2 == 0), StemData(Elements[j / 2], j % 2 == 0));
    ElementDistance(i / 2, j / 2);
  }

  /** The manual derivation read off the two looked-up stem records. */
  lemma ManualOfInfos(stem: string, dayMaster: string, a: StemData, b: StemData)
    requires StemInfo(stem) == Some(a) && StemInfo(dayMaster) == Some(b)
    ensures CalculateTenGodManual(stem, dayMaster) ==
      if a.element == b.element then (if a.yang == b.yang then "比肩" else "劫財")
      else TenGodName(JsRem(CycleIndex(a.element) - CycleIndex(b.element) + 5, 5), a.yang == b.yang)
  {
  }

  /** Elements are told apart by their index, and their cycle distance is the index distance. */
  lemma ElementDistance(ei: nat, ej: nat)
    requires ei < 5 && ej < 5
    ensures Elements[ei] == Elements[ej] <==> ei == ej
    ensures JsRem(CycleIndex(Elements[ei]) - CycleIndex(Elements[ej]) + 5, 5) == (ei - ej + 5) % 5
  {
    CycleIndexRule(ei);
    CycleIndexRule(ej);
  }

  /** Two valid stems never give "-"; the day master itself, and only it, is 比肩. */
  lemma TenGodTotal(i: nat, j: nat)
    requires i < 10 && j < 10
    ensures CalculateTenGodManual([StemChar(i)], [StemChar(j)]) != "-"
    ensures CalculateTenGodManual([StemChar(i)], [StemChar(j)]) == "比肩" <==> i == j
  {
    TenGodManualRule(i, j);
  }

  /** An unknown stem on either side gives "-". */
  lemma TenGodUnknown(stem: string, dayMaster: string)
    requires StemInfo(stem).None? || StemInfo(dayMaster).None?
    ensures CalculateTenGodManual(stem, dayMaster) == "-"
  {
  }

  /** `calculateTenGod`: "-" when either stem is missing or empty. */
  function CalculateTenGod(stem: Option<string>, dayMaster: Option<string>): (r: string)
    ensures stem.None? || stem.value == "" || dayMaster.None? || dayMaster.value == "" ==> r == "-"
    ensures stem.Some? && stem.value != "" && dayMaster.Some? && dayMaster.value != "" ==>
      r == CalculateTenGodManual(stem.value, dayMaster.value)
  {
    if stem.None? || stem.value == "" || dayMaster.None? || dayMaster.value == "" then "-"
    else CalculateTenGodManual(stem.value, dayMaster.value)
  }

  // ---------------------------------------------------------------------------
  // The hidden-stem grid

  /** Three rows; row `i` holds the `i`-th item when there is one. */
  function ThreeRows(items: seq<string>): (rows: seq<seq<string>>)
    ensures |rows| == 3
    ensures forall i :: 0 <= i < 3 ==> rows[i] == if i < |items| then [items[i]] else []
  {
    seq(3, i requires 0 <= i < 3 => if i < |items| then [items[i]] else [])
  }

  /** `${value}` of a field that may be `undefined`. */
  function Template(s: Option<string>): string
  {
    if s.Some? then s.value else "undefined"
  }

  /** The grid labels of `formatHiddenStems`: stem then element; a non-array gives none. */
  function HiddenLabels(hidden: Option<seq<HiddenStem>>): seq<string>
  {
    if hidden.None? then []
    else
      var hs := hidden.value;
      seq(|hs|, i requires 0 <= i < |hs| => Template(hs[i].stem) + Template(hs[i].element))
  }

  /** The grid labels of `getHiddenStemTenGods`: each hidden stem's god against the day master. */
  function TenGodLabels(hidden: Option<seq<HiddenStem>>, dayMaster: Option<string>): seq<string>
  {
    if hidden.None? then []
    else seq(|hidden.value|, i requires 0 <= i < |hidden.value| => CalculateTenGod(hidden.value[i].stem, dayMaster))
  }

  /** The rows filled by a `forEach` that pushes item `index` into `rows[index]` when `index < 3`. */
  method FillThreeRows(items: seq<string>) returns (rows: seq<seq<string>>)
    ensures rows == ThreeRows(items)
    ensures forall i :: 0 <= i < 3 ==> |rows[i]| <= 1
  {
    rows := [[], [], []];
    for index := 0 to |items|
      invariant rows == ThreeRows(items[..index])
    {
      assert items[..index + 1][..index] == items[..index];
      if index < 3 {
        rows := rows[index := rows[index] + [items[index]]];
      }
      assert forall i :: 0 <= i < 3 ==> rows[i] == ThreeRows(items[..index + 1])[i];
    }
    assert items[..|items|] == items;
  }

  /** `formatHiddenStems`: three rows whatever the input; extra hidden stems are ignored. */
  method FormatHiddenStems(hidden: Option<seq<HiddenStem>>) returns (rows: seq<seq<string>>)
    ensures rows == ThreeRows(HiddenLabels(hidden))
    ensures hidden.None? ==> rows == [[], [], []]
  {
    rows := FillThreeRows(HiddenLabels(hidden));
  }

  /** `getHiddenStemTenGods`: three rows of ten gods against the day master. */
  method GetHiddenStemTenGods(hidden: Option<seq<HiddenStem>>, dayMaster: Option<string>) returns (rows: seq<seq<string>>)
    ensures rows == ThreeRows(TenGodLabels(hidden, dayMaster))
    ensures hidden.None? ==> rows == [[], [], []]
  {
    rows := FillThreeRows(TenGodLabels(hidden, dayMaster));
  }

  /** With a valid day master, every filled ten-god cell of a valid hidden stem is a god, not "-". */
  lemma TenGodCellsNamed(hidden: seq<HiddenStem>, j: nat, row: nat)
    requires j < 10 && row < 3 && row < |hidden|
    requires hidden[row].stem.Some? && StemIndex(hidden[row].stem.value).Some?
    ensures ThreeRows(TenGodLabels(Some(hidden), Some([StemChar(j)])))[row] != ["-"]
  {
    var i := StemIndex(hidden[row].stem.value).value;
    assert hidden[row].stem.value == [StemChar(i)];
    TenGodTotal(i, j);
  }

  // ---------------------------------------------------------------------------
  // The detailed chart

  /** One pillar of the chart data: stem, branch, nayin, the stem's god and its hidden stems. */
  datatype ChartPillar = ChartPillar(
    stem: Option<string>, branch: Option<string>, nayin: Option<string>,
    stemTenGod: Option<string>, hiddenStems: Option<seq<HiddenStem>>)

  datatype Pillars = Pillars(year: ChartPillar, month: ChartPillar, day: ChartPillar, hour: ChartPillar)
  {
    /** The pillars in the order of the grid's columns. */
    function Columns(): (r: seq<ChartPillar>)
      ensures |r| == 4
    {
      [year, month, day, hour]
    }
  }

  datatype DetailedChart = DetailedChart(
    stemTenGods: seq<Option<string>>, stems: seq<Option<string>>, branches: seq<Option<string>>,
    hiddenStems: seq<seq<seq<string>>>, hiddenStemTenGods: seq<seq<seq<string>>>,
    starLuck: seq<string>, daySeats: seq<string>, emptyVoid: seq<string>, nayin: seq<string>,
    relationshipNotes: seq<string>)

  /** `value || "-"`. */
  function OrDash(s: Option<string>): string
  {
    if s.Some? && s.value != "" then s.value else "-"
  }

  /** `getDetailedChartData`: the twelve grid rows, each with one entry per pillar. */
  function GetDetailedChartData(pillars: Pillars, notes: seq<string>): (r: DetailedChart)
    ensures |r.stems| == |r.branches| == |r.stemTenGods| == |r.nayin| == 4
    ensures |r.hiddenStems| == |r.hiddenStemTenGods| == 4
    ensures r.starLuck == r.daySeats == r.emptyVoid == ["-", "-", "-", "-"]
    ensures r.relationshipNotes == notes
  {
    var c := pillars.Columns();
    DetailedChart(
      [c[0].stemTenGod, c[1].stemTenGod, c[2].stemTenGod, c[3].stemTenGod],
      [c[0].stem, c[1].stem, c[2].stem, c[3].stem],
      [c[0].branch, c[1].branch, c[2].branch, c[3].branch],
      seq(4, i requires 0 <= i < 4 => ThreeRows(HiddenLabels(c[i].hiddenStems))),
      seq(4, i requires 0 <= i < 4 => ThreeRows(TenGodLabels(c[i].hiddenStems, pillars.day.stem))),
      ["-", "-", "-", "-"], ["-", "-", "-", "-"], ["-", "-", "-", "-"],
      [OrDash(c[0].nayin), OrDash(c[1].nayin), OrDash(c[2].nayin), OrDash(c[3].nayin)],
      notes)
  }

  /** Column `i` of every row comes from pillar `i` (year, month, day, hour); the hidden-stem
   *  gods are all taken against the day pillar's stem, and a missing or empty nayin shows "-". */
  lemma DetailedChartColumn(pillars: Pillars, notes: seq<string>, i: nat)
    requires i < 4
    ensures var r, p := GetDetailedChartData(pillars, notes), pillars.Columns()[i];
      && r.stems[i] == p.stem && r.branches[i] == p.branch && r.stemTenGods[i] == p.stemTenGod
      && r.hiddenStems[i] == ThreeRows(HiddenLabels(p.hiddenStems))
      && r.hiddenStemTenGods[i] == ThreeRows(TenGodLabels(p.hiddenStems, pillars.day.stem))
      && (p.nayin.Some? && p.nayin.value != "" ==> r.nayin[i] == p.nayin.value)
      && (p.nayin.None? || p.nayin.value == "" ==> r.nayin[i] == "-")
  {
  }
}
