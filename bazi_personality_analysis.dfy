/** The day-master personality tab: the character illustration chosen by the day-master stem,
 *  and the five-element strength cards, each labelled by its percentage and shown only when
 *  the percentage is missing-element, high or low. */
module BaziPersonalityAnalysis {
  import opened Wrappers
  import opened Ganzhi

  /** The display order of the elements: 金木水火土. */
  const ElementOrder: seq<string> := ["金", "木", "水", "火", "土"]

  /** `elementColors[element]`: `undefined` for anything but the five elements. */
  function ElementColor(element: string): (r: Option<string>)
    ensures r.Some? <==> element in ElementOrder
  {
    if element == "金" then Some("#5B7FBF")
    else if element == "木" then Some("#4CAF50")
    else if element == "水" then Some("#3F83C9")
    else if element == "火" then Some("#E35A5F")
    else if element == "土" then Some("#D4A76A")
    else None
  }

  /** The illustration files of `characterImageMap`, in stem order 甲 to 癸. */
  const ImageFiles: seq<string> := [
    "甲木.png", "乙木.PNG", "丙火.PNG", "丁火.png", "戊土.PNG",
    "己土.png", "庚金.png", "辛金.png", "壬水.PNG", "癸水.PNG"]

  /** `characterImageMap[dayMaster.stem]`: an illustration for each of the ten stems and
   *  `undefined` (the drawn placeholder) for any other day master. */
  function CharacterImage(stem: string): (r: Option<string>)
    ensures r.Some? <==> StemIndex(stem).Some?
  {
    match StemIndex(stem)
    case Some(i) => Some("/images/element-characters/" + ImageFiles[i])
    case None => None
  }

  /** Each stem's file is named by the stem and the stem's element, with a `.png` or `.PNG` suffix. */
  lemma ImageFileNamesStem(i: nat)
    requires i < 10
    ensures ImageFiles[i] == [Stems[i]] + StemElement(i) + ".png" ||
      ImageFiles[i] == [Stems[i]] + StemElement(i) + ".PNG"
  {
    if i < 5 {
      if i < 2 {
        assert i == 0 || i == 1;
      } else {
        assert i == 2 || i == 3 || i == 4;
      }
    } else {
      if i < 7 {
        assert i == 5 || i == 6;
      } else {
        assert i == 7 || i == 8 || i == 9;
      }
    }
  }

  /** A strength card's label and advice. */
  datatype Strength = Strength(grade: string, advice: string)

  /** The strength of one element from `percentages[element]`, which is `undefined` (None) when
   *  the distribution has no entry; `undefined` fails every comparison and lands in 偏弱. */
  function Classify(element: string, percentage: Option<int>): (s: Strength)
    ensures s.grade == "缺失" <==> percentage == Some(0)
    ensures s.grade == "過旺" <==> percentage.Some? && percentage.value >= 30
    ensures s.grade == "適中" <==> percentage.Some? && 15 <= percentage.value < 30
    ensures s.grade == "偏弱" <==> percentage.None? || (percentage.value < 15 && percentage.value != 0)
    ensures Strings.Contains(s.advice, element)
  {
    var p := percentage;
    if p == Some(0) then
      Strings.ContainsAt("建議補強" + element + "元素，可通過顏色、方位、飾品等方式調節。", element, 4);
      Strength("缺失", "建議補強" + element + "元素，可通過顏色、方位、飾品等方式調節。")
    else if p.Some? && p.value >= 30 then
      Strings.ContainsAt(element + "元素偏旺，建議適當平衡，避免過度。", element, 0);
      Strength("過旺", element + "元素偏旺，建議適當平衡，避免過度。")
    else if p.Some? && p.value >= 15 then
      Strings.ContainsAt(element + "元素平衡良好。", element, 0);
      Strength("適中", element + "元素平衡良好。")
    else
      Strings.ContainsAt(element + "元素偏弱，可適當補強。", element, 0);
      Strength("偏弱", element + "元素偏弱，可適當補強。")
  }

  /** Whether the card is rendered: a missing element, 25% or more, or 10% or less. */
  predicate Shown(percentage: Option<int>)
  {
    percentage.Some? && (percentage.value == 0 || percentage.value >= 25 || percentage.value <= 10)
  }

  /** Which labels reach the screen: every 缺失 and 過旺 card, 適中 only from 25% up, 偏弱 only
   *  at 10% or less, and nothing for an element the distribution lacks. */
  lemma ShownLabels(element: string, percentage: Option<int>)
    ensures var s := Classify(element, percentage);
      (s.grade == "缺失" ==> Shown(percentage)) &&
      (s.grade == "過旺" ==> Shown(percentage)) &&
      (s.grade == "適中" ==> (Shown(percentage) <==> percentage.value >= 25)) &&
      (s.grade == "偏弱" ==> (Shown(percentage) <==> percentage.Some? && percentage.value <= 10))
    ensures percentage.None? ==> !Shown(percentage)
  {
  }

  /** A rendered strength card. */
  datatype Card = Card(element: string, strength: Strength, color: Option<string>)

  /** `percentages[element]` for a distribution keyed by element name. */
  function Percentage(percentages: map<string, int>, element: string): (r: Option<int>)
    ensures r.Some? <==> element in percentages
  {
    if element in percentages then Some(percentages[element]) else None
  }

  /** The strength cards for `elements`, in order, skipping those that render `null`. */
  function Cards(percentages: map<string, int>, elements: seq<string>): seq<Card>
  {
    if |elements| == 0 then []
    else
      var e := elements[0];
      var p := Percentage(percentages, e);
      (if Shown(p) then [Card(e, Classify(e, p), ElementColor(e))] else []) + Cards(percentages, elements[1..])
  }

  /** The strength section: one card per element of 金木水火土 whose percentage is shown. */
  function StrengthCards(percentages: map<string, int>): seq<Card>
  {
    Cards(percentages, ElementOrder)
  }

  /** Every card belongs to a listed element whose percentage is shown, carries that element's
   *  classification, and every such element has its card. */
  lemma {:induction false} CardsExactlyShown(percentages: map<string, int>, elements: seq<string>)
    ensures forall c :: c in Cards(percentages, elements) ==>
      c.element in elements && Shown(Percentage(percentages, c.element)) &&
      c.strength == Classify(c.element, Percentage(percentages, c.element)) &&
      c.color == ElementColor(c.element)
    ensures forall e :: e in elements && Shown(Percentage(percentages, e)) ==>
      exists c :: c in Cards(percentages, elements) && c.element == e
    ensures |Cards(percentages, elements)| <= |elements|
  {
    if |elements| > 0 {
      CardsExactlyShown(percentages, elements[1..]);
      var e := elements[0];
      if Shown(Percentage(percentages, e)) {
        assert Cards(percentages, elements)[0].element == e;
      }
      assert forall x :: x in elements ==> x == e || x in elements[1..];
    }
  }

  /** The section always lists the cards in 金木水火土 order, each coloured by its element. */
  lemma StrengthCardsColored(percentages: map<string, int>)
    ensures forall c :: c in StrengthCards(percentages) ==>
      c.color.Some? && c.color == ElementColor(c.element)
    ensures |StrengthCards(percentages)| <= 5
  {
    CardsExactlyShown(percentages, ElementOrder);
  }
}
