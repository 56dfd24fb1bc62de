/** `src/lib/baziRelationships.js`: the pair tables of the stem-branch diagram (stem
 *  combinations, branch six-harmonies, half-harmonies, clashes, punishments, destructions,
 *  harms, three-harmonies) and the analysis of a four-pillar chart built from them.
 *  Each table is a function of the two (or three) characters of its key; a key that is not
 *  exactly that many characters long is in no table. */
module BaziRelationships {
  import opened Wrappers
  import opened Strings
  import opened Ganzhi

  /** A table entry: its `type` (named `kind` here) and its `element`. */
  datatype Combo = Combo(kind: string, element: string)

  /** 天干合化: stems five apart combine. */
  function StemTable(a: char, b: char): Option<Combo>
  {
    match (a, b)
    case ('甲', '己') => Some(Combo("合化土", "土"))
    case ('己', '甲') => Some(Combo("合化土", "土"))
    case ('乙', '庚') => Some(Combo("合化金", "金"))
    case ('庚', '乙') => Some(Combo("合化金", "金"))
    case ('丙', '辛') => Some(Combo("合化水", "水"))
    case ('辛', '丙') => Some(Combo("合化水", "水"))
    case ('丁', '壬') => Some(Combo("合化木", "木"))
    case ('壬', '丁') => Some(Combo("合化木", "木"))
    case ('戊', '癸') => Some(Combo("合化火", "火"))
    case ('癸', '戊') => Some(Combo("合化火", "火"))
    case _ => None
  }

  /** 地支六合 */
  function SixTable(a: char, b: char): Option<Combo>
  {
    match (a, b)
    case ('子', '丑') => Some(Combo("六合", "土"))
    case ('丑', '子') => Some(Combo("六合", "土"))
    case ('寅', '亥') => Some(Combo("六合", "木"))
    case ('亥', '寅') => Some(Combo("六合", "木"))
    case ('卯', '戌') => Some(Combo("六合", "火"))
    case ('戌', '卯') => Some(Combo("六合", "火"))
    case ('辰', '酉') => Some(Combo("六合", "金"))
    case ('酉', '辰') => Some(Combo("六合", "金"))
    case ('巳', '申') => Some(Combo("六合", "水"))
    case ('申', '巳') => Some(Combo("六合", "水"))
    case ('午', '未') => Some(Combo("合化土", "土"))
    case ('未', '午') => Some(Combo("合化土", "土"))
    case _ => None
  }

  /** 地支半合: two of the three branches of a three-harmony. */
  function HalfTable(a: char, b: char): Option<Combo>
  {
    match (a, b)
    case ('申', '子') => Some(Combo("半合水局", "水"))
    case ('子', '申') => Some(Combo("半合水局", "水"))
    case ('子', '辰') => Some(Combo("半合水局", "水"))
    case ('辰', '子') => Some(Combo("半合水局", "水"))
    case ('申', '辰') => Some(Combo("半合水局", "水"))
    case ('辰', '申') => Some(Combo("半合水局", "水"))
    case ('亥', '卯') => Some(Combo("半合木局", "木"))
    case ('卯', '亥') => Some(Combo("半合木局", "木"))
    case ('卯', '未') => Some(Combo("半合木局", "木"))
    case ('未', '卯') => Some(Combo("半合木局", "木"))
    case ('亥', '未') => Some(Combo("半合木局", "木"))
    case ('未', '亥') => Some(Combo("半合木局", "木"))
    case ('寅', '午') => Some(Combo("半合火局", "火"))
    case ('午', '寅') => Some(Combo("半合火局", "火"))
    case ('午', '戌') => Some(Combo("半合火局", "火"))
    case ('戌', '午') => Some(Combo("半合火局", "火"))
    case ('寅', '戌') => Some(Combo("半合火局", "火"))
    case ('戌', '寅') => Some(Combo("半合火局", "火"))
    case ('巳', '酉') => Some(Combo("半合金局", "金"))
    case ('酉', '巳') => Some(Combo("半合金局", "金"))
    case ('酉', '丑') => Some(Combo("半合金局", "金"))
    case ('丑', '酉') => Some(Combo("半合金局", "金"))
    case ('巳', '丑') => Some(Combo("半合金局", "金"))
    case ('丑', '巳') => Some(Combo("半合金局", "金"))
    case _ => None
  }

  /** 地支相沖 */
  function ClashTable(a: char, b: char): Option<string>
  {
    match (a, b)
    case ('子', '午') => Some("相沖")
    case ('午', '子') => Some("相沖")
    case ('丑', '未') => Some("相沖")
    case ('未', '丑') => Some("相沖")
    case ('寅', '申') => Some("相沖")
    case ('申', '寅') => Some("相沖")
    case ('卯', '酉') => Some("相沖")
    case ('酉', '卯') => Some("相沖")
    case ('辰', '戌') => Some("相沖")
    case ('戌', '辰') => Some("相沖")
    case ('巳', '亥') => Some("相沖")
    case ('亥', '巳') => Some("相沖")
    case _ => None
  }

  /** 地支相刑, with the four self-punishments 自刑. */
  function PunishmentTable(a: char, b: char): Option<string>
  {
    match (a, b)
    case ('寅', '巳') => Some("相刑")
    case ('巳', '寅') => Some("相刑")
    case ('巳', '申') => Some("相刑")
    case ('申', '巳') => Some("相刑")
    case ('申', '寅') => Some("相刑")
    case ('寅', '申') => Some("相刑")
    case ('丑', '未') => Some("相刑")
    case ('未', '丑') => Some("相刑")
    case ('未', '戌') => Some("相刑")
    case ('戌', '未') => Some("相刑")
    case ('戌', '丑') => Some("相刑")
    case ('丑', '戌') => Some("相刑")
    case ('子', '卯') => Some("相刑")
    case ('卯', '子') => Some("相刑")
    case ('辰', '辰') => Some("自刑")
    case ('午', '午') => Some("自刑")
    case ('酉', '酉') => Some("自刑")
    case ('亥', '亥') => Some("自刑")
    case _ => None
  }

  /** 地支相破 */
  function DestructionTable(a: char, b: char): Option<string>
  {
    match (a, b)
    case ('子', '酉') => Some("相破")
    case ('酉', '子') => Some("相破")
    case ('丑', '辰') => Some("相破")
    case ('辰', '丑') => Some("相破")
    case ('寅', '亥') => Some("相破")
    case ('亥', '寅') => Some("相破")
    case ('卯', '午') => Some("相破")
    case ('午', '卯') => Some("相破")
    case ('巳', '申') => Some("相破")
    case ('申', '巳') => Some("相破")
    case ('未', '戌') => Some("相破")
    case ('戌', '未') => Some("相破")
    case _ => None
  }

  /** 地支相害 */
  function HarmTable(a: char, b: char): Option<string>
  {
    match (a, b)
    case ('子', '未') => Some("相害")
    case ('未', '子') => Some("相害")
    case ('丑', '午') => Some("相害")
    case ('午', '丑') => Some("相害")
    case ('寅', '巳') => Some("相害")
    case ('巳', '寅') => Some("相害")
    case ('卯', '辰') => Some("相害")
    case ('辰', '卯') => Some("相害")
    case ('申', '亥') => Some("相害")
    case ('亥', '申') => Some("相害")
    case ('酉', '戌') => Some("相害")
    case ('戌', '酉') => Some("相害")
    case _ => None
  }

  /** 地支三合: each group listed in its three rotations. */
  function ThreeTable(a: char, b: char, c: char): Option<Combo>
  {
    match (a, b, c)
    case ('申', '子', '辰') => Some(Combo("三合水局", "水"))
    case ('子', '辰', '申') => Some(Combo("三合水局", "水"))
    case ('辰', '申', '子') => Some(Combo("三合水局", "水"))
    case ('亥', '卯', '未') => Some(Combo("三合木局", "木"))
    case ('卯', '未', '亥') => Some(Combo("三合木局", "木"))
    case ('未', '亥', '卯') => Some(Combo("三合木局", "木"))
    case ('寅', '午', '戌') => Some(Combo("三合火局", "火"))
    case ('午', '戌', '寅') => Some(Combo("三合火局", "火"))
    case ('戌', '寅', '午') => Some(Combo("三合火局", "火"))
    case ('巳', '酉', '丑') => Some(Combo("三合金局", "金"))
    case ('酉', '丑', '巳') => Some(Combo("三合金局", "金"))
    case ('丑', '巳', '酉') => Some(Combo("三合金局", "金"))
    case _ => None
  }

  // ---------------------------------------------------------------------------
  // The tables against the classical index rules

  /** Stems combine exactly when their indices are five apart; the combination transforms
   *  into the element two steps after the element of the lower stem's position. */
  lemma StemTableRule(i: nat, j: nat)
    requires i < 10 && j < 10
    ensures StemTable(StemChar(i), StemChar(j)).Some? <==> (i + 5 == j || j + 5 == i)
    ensures StemTable(StemChar(i), StemChar(j)).Some? ==>
      StemTable(StemChar(i), StemChar(j)).value.element == Elements[(i % 5 + 2) % 5]
  {
  }

  /** Every stem combination is named after the element it transforms into. */
  lemma StemTableNames(a: char, b: char)
    ensures StemTable(a, b).Some? ==> StemTable(a, b).value.kind == "合化" + StemTable(a, b).value.element
  {
  }

  /** Branches clash exactly when they are six apart. */
  lemma ClashTableRule(i: nat, j: nat)
    requires i < 12 && j < 12
    ensures ClashTable(BranchChar(i), BranchChar(j)).Some? <==> (i + 6) % 12 == j
  {
  }

  /** Six-harmony pairs are the branches whose indices add up to 1 modulo 12. */
  lemma SixTableRule(i: nat, j: nat)
    requires i < 12 && j < 12
    ensures SixTable(BranchChar(i), BranchChar(j)).Some? <==> (i + j) % 12 == 1
  {
  }

  /** Harm pairs are the branches whose indices add up to 7 modulo 12. */
  lemma HarmTableRule(i: nat, j: nat)
    requires i < 12 && j < 12
    ensures HarmTable(BranchChar(i), BranchChar(j)).Some? <==> (i + j) % 12 == 7
  {
  }

  /** Half-harmony pairs are two different branches of the same three-harmony group, and
   *  the groups are the residues modulo 4. */
  lemma HalfTableRule(i: nat, j: nat)
    requires i < 12 && j < 12
    ensures HalfTable(BranchChar(i), BranchChar(j)).Some? <==> i != j && i % 4 == j % 4
  {
  }

  /** A destruction pairs each yang branch with the branch three places before it. */
  lemma DestructionTableRule(i: nat, j: nat)
    requires i < 12 && j < 12
    ensures DestructionTable(BranchChar(i), BranchChar(j)).Some? <==>
      (i % 2 == 0 && j == (i + 9) % 12) || (j % 2 == 0 && i == (j + 9) % 12)
  {
  }

  /** Punishments: any two of 寅巳申, any two of 丑未戌, 子 with 卯, and 辰, 午, 酉, 亥 each
   *  with itself (自刑). */
  lemma PunishmentTableRule(i: nat, j: nat)
    requires i < 12 && j < 12
    ensures PunishmentTable(BranchChar(i), BranchChar(j)).Some? <==>
      (i != j && ((i in {2, 5, 8} && j in {2, 5, 8}) || (i in {1, 7, 10} && j in {1, 7, 10}) || (i + j == 3 && i * j == 0))) ||
      (i == j && i in {4, 6, 9, 11})
    ensures PunishmentTable(BranchChar(i), BranchChar(j)).Some? ==>
      PunishmentTable(BranchChar(i), BranchChar(j)).value == (if i == j then "自刑" else "相刑")
  {
  }

  lemma StemTableSymmetric(a: char, b: char)
    ensures StemTable(a, b) == StemTable(b, a)
  {
  }

  lemma HarmonyTablesSymmetric(a: char, b: char)
    ensures SixTable(a, b) == SixTable(b, a)
    ensures HalfTable(a, b) == HalfTable(b, a)
  {
  }

  lemma ConflictTablesSymmetric(a: char, b: char)
    ensures ClashTable(a, b) == ClashTable(b, a)
    ensures PunishmentTable(a, b) == PunishmentTable(b, a)
  {
  }

  lemma DamageTablesSymmetric(a: char, b: char)
    ensures DestructionTable(a, b) == DestructionTable(b, a)
    ensures HarmTable(a, b) == HarmTable(b, a)
  {
  }

  // ---------------------------------------------------------------------------
  // Lookups by concatenated key

  /** `analyzeStemCombination`: the entry for the key `stem1 + stem2`, or null. */
  function AnalyzeStemCombination(stem1: string, stem2: string): (r: Option<Combo>)
    ensures r.Some? ==> |stem1 + stem2| == 2
    ensures |stem1| == 1 && |stem2| == 1 ==> r == StemTable(stem1[0], stem2[0])
  {
    var key := stem1 + stem2;
    if |key| == 2 then StemTable(key[0], key[1]) else None
  }

  /** The order of the two stems does not matter. A two-character first argument with an
   *  empty second one is the same key as the reverse, so this holds for all strings. */
  lemma StemCombinationSymmetric(stem1: string, stem2: string)
    ensures AnalyzeStemCombination(stem1, stem2) == AnalyzeStemCombination(stem2, stem1)
  {
    if |stem1 + stem2| == 2 && |stem1| == 1 {
      StemTableSymmetric(stem1[0], stem2[0]);
    } else {
      assert stem1 == [] || stem2 == [] || |stem1 + stem2| != 2;
      assert stem1 == [] ==> stem1 + stem2 == stem2 + stem1;
      assert stem2 == [] ==> stem1 + stem2 == stem2 + stem1;
    }
  }

  /** For two stem names, a combination exists exactly for stems five apart. */
  lemma StemCombinationRule(i: nat, j: nat)
    requires i < 10 && j < 10
    ensures AnalyzeStemCombination([StemChar(i)], [StemChar(j)]).Some? <==> (i + 5 == j || j + 5 == i)
  {
    StemTableRule(i, j);
  }

  /** A relation as `analyzeBranchRelationship` returns it: the category it was found in, the
   *  table's `type`, and for the harmonies their element. */
  datatype Relation = Relation(relationship: string, kind: string, element: Option<string>)

  /** The branch relation of two branch characters, first category first. */
  function BranchRelation(a: char, b: char): (r: Option<Relation>)
    ensures r.None? <==>
      SixTable(a, b).None? && HalfTable(a, b).None? && ClashTable(a, b).None? &&
      PunishmentTable(a, b).None? && DestructionTable(a, b).None? && HarmTable(a, b).None?
  {
    if SixTable(a, b).Some? then
      Some(Relation("六合", SixTable(a, b).value.kind, Some(SixTable(a, b).value.element)))
    else if HalfTable(a, b).Some? then
      Some(Relation("半合", HalfTable(a, b).value.kind, Some(HalfTable(a, b).value.element)))
    else if ClashTable(a, b).Some? then Some(Relation("相沖", ClashTable(a, b).value, None))
    else if PunishmentTable(a, b).Some? then Some(Relation("相刑", PunishmentTable(a, b).value, None))
    else if DestructionTable(a, b).Some? then Some(Relation("相破", DestructionTable(a, b).value, None))
    else if HarmTable(a, b).Some? then Some(Relation("相害", HarmTable(a, b).value, None))
    else None
  }

  /** `analyzeBranchRelationship`: the relation for the key `branch1 + branch2`, or null. */
  function AnalyzeBranchRelationship(branch1: string, branch2: string): (r: Option<Relation>)
    ensures r.Some? ==> |branch1 + branch2| == 2
    ensures |branch1| == 1 && |branch2| == 1 ==> r == BranchRelation(branch1[0], branch2[0])
  {
    var key := branch1 + branch2;
    if |key| == 2 then BranchRelation(key[0], key[1]) else None
  }

  lemma BranchRelationshipSymmetric(branch1: string, branch2: string)
    ensures AnalyzeBranchRelationship(branch1, branch2) == AnalyzeBranchRelationship(branch2, branch1)
  {
    if |branch1 + branch2| == 2 && |branch1| == 1 {
      HarmonyTablesSymmetric(branch1[0], branch2[0]);
      ConflictTablesSymmetric(branch1[0], branch2[0]);
      DamageTablesSymmetric(branch1[0], branch2[0]);
    } else {
      assert branch1 == [] ==> branch1 + branch2 == branch2 + branch1;
      assert branch2 == [] ==> branch1 + branch2 == branch2 + branch1;
    }
  }

  /** The categories in priority order, each against its index rule: a pair in several
   *  tables is reported under the first of six-harmony, half-harmony, clash, punishment,
   *  destruction and harm. */
  lemma BranchRelationRule(i: nat, j: nat)
    requires i < 12 && j < 12
    ensures var r := AnalyzeBranchRelationship([BranchChar(i)], [BranchChar(j)]);
      var six := (i + j) % 12 == 1;
      var half := i != j && i % 4 == j % 4;
      var clash := (i + 6) % 12 == j;
      (r.Some? && r.value.relationship == "六合" <==> six) &&
      (r.Some? && r.value.relationship == "半合" <==> !six && half) &&
      (r.Some? && r.value.relationship == "相沖" <==> !six && !half && clash)
    ensures var r := AnalyzeBranchRelationship([BranchChar(i)], [BranchChar(j)]);
      r.Some? && r.value.relationship == "相害" ==> (i + j) % 12 == 7
  {
    SixTableRule(i, j);
    HalfTableRule(i, j);
    ClashTableRule(i, j);
    HarmTableRule(i, j);
  }

  /** 寅亥 is both a six-harmony and a destruction, and is reported as the six-harmony;
   *  寅申 is both a clash and a punishment, and is reported as the clash; 午未 is a
   *  six-harmony whose type is 合化土. */
  lemma PriorityExamples()
    ensures DestructionTable('寅', '亥').Some? && AnalyzeBranchRelationship("寅", "亥") == Some(Relation("六合", "六合", Some("木")))
    ensures PunishmentTable('寅', '申').Some? && AnalyzeBranchRelationship("寅", "申") == Some(Relation("相沖", "相沖", None))
    ensures AnalyzeBranchRelationship("午", "未") == Some(Relation("六合", "合化土", Some("土")))
  {
  }

  // ---------------------------------------------------------------------------
  // Three-harmonies

  /** The three-harmony entry for a key, null unless the key has exactly three characters. */
  function ThreeLookup(key: string): Option<Combo>
  {
    if |key| == 3 then ThreeTable(key[0], key[1], key[2]) else None
  }

  /** The first key with an entry, as the `for ... of` loop of `checkThreeHarmony` finds it. */
  function FirstHit(keys: seq<string>): (r: Option<Combo>)
    ensures r.Some? <==> exists i :: 0 <= i < |keys| && ThreeLookup(keys[i]).Some?
    ensures r.Some? ==> exists i :: (0 <= i < |keys| && r == ThreeLookup(keys[i]) &&
      forall k :: 0 <= k < i ==> ThreeLookup(keys[k]).None?)
  {
    if |keys| == 0 then None
    else if ThreeLookup(keys[0]).Some? then ThreeLookup(keys[0])
    else
      var r := FirstHit(keys[1..]);
      assert forall i :: 1 <= i < |keys| ==> keys[i] == keys[1..][i - 1];
      r
  }

  /** `checkThreeHarmony`: the six orders of the three arguments, tried in turn. */
  function CheckThreeHarmony(branch1: string, branch2: string, branch3: string): Option<Combo>
  {
    FirstHit([branch1 + branch2 + branch3, branch1 + branch3 + branch2, branch2 + branch1 + branch3,
              branch2 + branch3 + branch1, branch3 + branch1 + branch2, branch3 + branch2 + branch1])
  }

  /** The table is closed under rotation, with one entry per group. */
  lemma ThreeTableRotation(a: char, b: char, c: char)
    ensures ThreeTable(a, b, c) == ThreeTable(b, c, a)
  {
  }

  /** No reflection of a listed key is listed. */
  lemma ThreeTableNoReflection(a: char, b: char, c: char)
    ensures ThreeTable(a, b, c).Some? ==> ThreeTable(a, c, b).None?
  {
  }

  /** For one-character branches, the six tries reduce to a key and its reflection. */
  lemma ThreeHarmonyOfChars(a: char, b: char, c: char)
    ensures CheckThreeHarmony([a], [b], [c]) ==
      (if ThreeTable(a, b, c).Some? then ThreeTable(a, b, c) else ThreeTable(a, c, b))
  {
    var keys := [[a] + [b] + [c], [a] + [c] + [b], [b] + [a] + [c], [b] + [c] + [a], [c] + [a] + [b], [c] + [b] + [a]];
    CharKey(a, b, c);
    CharKey(a, c, b);
    if ThreeTable(a, b, c).None? {
      assert FirstHit(keys) == FirstHit(keys[1..]);
      if ThreeTable(a, c, b).None? {
        CharKey(b, a, c);
        CharKey(b, c, a);
        CharKey(c, a, b);
        CharKey(c, b, a);
        ThreeTableRotation(a, b, c);
        ThreeTableRotation(b, c, a);
        ThreeTableRotation(a, c, b);
        ThreeTableRotation(c, b, a);
        assert forall i | 0 <= i < |keys| :: ThreeLookup(keys[i]).None?;
      } else {
        assert keys[1..][0] == keys[1];
      }
    }
  }

  lemma CharKey(a: char, b: char, c: char)
    ensures ThreeLookup([a] + [b] + [c]) == ThreeTable(a, b, c)
  {
    assert [a] + [b] + [c] == [a, b, c];
  }

  /** The order of the three branches does not matter. */
  lemma ThreeHarmonyPermutation(a: char, b: char, c: char)
    ensures CheckThreeHarmony([a], [b], [c]) == CheckThreeHarmony([a], [c], [b])
    ensures CheckThreeHarmony([a], [b], [c]) == CheckThreeHarmony([b], [a], [c])
    ensures CheckThreeHarmony([a], [b], [c]) == CheckThreeHarmony([b], [c], [a])
    ensures CheckThreeHarmony([a], [b], [c]) == CheckThreeHarmony([c], [a], [b])
    ensures CheckThreeHarmony([a], [b], [c]) == CheckThreeHarmony([c], [b], [a])
  {
    ThreeHarmonyOfChars(a, b, c);
    ThreeHarmonyOfChars(a, c, b);
    ThreeHarmonyOfChars(b, a, c);
    ThreeHarmonyOfChars(b, c, a);
    ThreeHarmonyOfChars(c, a, b);
    ThreeHarmonyOfChars(c, b, a);
    ThreeTableRotation(a, b, c);
    ThreeTableRotation(b, c, a);
    ThreeTableRotation(a, c, b);
    ThreeTableRotation(c, b, a);
    ThreeTableNoReflection(a, b, c);
    ThreeTableNoReflection(a, c, b);
  }

  /** Every listed key is three different branches of one group; the groups are the
   *  residues modulo 4 (水 申子辰, 金 巳酉丑, 火 寅午戌, 木 亥卯未). */
  lemma ThreeTableSound(a: char, b: char, c: char)
    ensures ThreeTable(a, b, c).Some? ==>
      var i, j, k := BranchOrdinal(a), BranchOrdinal(b), BranchOrdinal(c);
      0 <= i && 0 <= j && 0 <= k && i != j && j != k && i != k && i % 4 == j % 4 && j % 4 == k % 4
  {
  }

  /** Of three different branches of one group, some order or its reflection is listed. */
  lemma ThreeTableComplete(i: nat, j: nat, k: nat)
    requires i < 12 && j < 12 && k < 12
    requires i != j && j != k && i != k && i % 4 == j % 4 && j % 4 == k % 4
    ensures ThreeTable(BranchChar(i), BranchChar(j), BranchChar(k)).Some? ||
            ThreeTable(BranchChar(i), BranchChar(k), BranchChar(j)).Some?
  {
    if i % 4 == 0 {
      assert i in {0, 4, 8} && j in {0, 4, 8} && k in {0, 4, 8};
    } else if i % 4 == 1 {
      assert i in {1, 5, 9} && j in {1, 5, 9} && k in {1, 5, 9};
    } else if i % 4 == 2 {
      assert i in {2, 6, 10} && j in {2, 6, 10} && k in {2, 6, 10};
    } else {
      assert i in {3, 7, 11} && j in {3, 7, 11} && k in {3, 7, 11};
    }
  }

  /** Three one-character branches form a three-harmony exactly when they are three
   *  different members of one group, whatever their order. */
  lemma ThreeHarmonyRule(i: nat, j: nat, k: nat)
    requires i < 12 && j < 12 && k < 12
    ensures CheckThreeHarmony([BranchChar(i)], [BranchChar(j)], [BranchChar(k)]).Some? <==>
      (i != j && j != k && i != k && i % 4 == j % 4 && j % 4 == k % 4)
  {
    ThreeHarmonyOfChars(BranchChar(i), BranchChar(j), BranchChar(k));
    ThreeTableSound(BranchChar(i), BranchChar(j), BranchChar(k));
    ThreeTableSound(BranchChar(i), BranchChar(k), BranchChar(j));
    BranchOrdinalInverse(i);
    BranchOrdinalInverse(j);
    BranchOrdinalInverse(k);
    if i != j && j != k && i != k && i % 4 == j % 4 && j % 4 == k % 4 {
      ThreeTableComplete(i, j, k);
    }
  }

  // ---------------------------------------------------------------------------
  // The whole chart

  /** The pillar names, year to hour. */
  const Pillars: seq<string> := ["年", "月", "日", "時"]

  /** The stems and branches of a chart. A pillar the caller left undefined is the string
   *  "undefined", which is what JavaScript concatenates in its place. */
  datatype Chart = Chart(
    yearStem: string, yearBranch: string, monthStem: string, monthBranch: string,
    dayStem: string, dayBranch: string, hourStem: string, hourBranch: string)
  {
    function StemList(): seq<string>
    {
      [yearStem, monthStem, dayStem, hourStem]
    }

    function BranchList(): seq<string>
    {
      [yearBranch, monthBranch, dayBranch, hourBranch]
    }
  }

  datatype StemFinding = StemFinding(
    pillar1: string, stem1: string, pillar2: string, stem2: string,
    combo: Combo, isAdjacent: bool, isHidden: bool)

  datatype BranchFinding = BranchFinding(
    pillar1: string, branch1: string, pillar2: string, branch2: string, relation: Relation)

  datatype HarmonyFinding = HarmonyFinding(branches: seq<string>, pillars: seq<string>, combo: Combo)

  datatype Relationships = Relationships(
    stemCombinations: seq<StemFinding>,
    branchRelationships: seq<BranchFinding>,
    threeHarmonies: seq<HarmonyFinding>,
    notes: seq<string>)

  /** An optional finding as the list of what the loop pushes for it. */
  function Pushed<T>(o: Option<T>): seq<T>
  {
    if o.Some? then [o.value] else []
  }

  /** What the pair `(i, j)` contributes: the values `f` gives for the pairs `(i, j')` with
   *  `i < j' < j`, in increasing `j'` (the inner loop so far). */
  function PairsTo<T>(f: (nat, nat) -> Option<T>, i: nat, j: nat): seq<T>
    decreases j
  {
    if j <= i + 1 then [] else PairsTo(f, i, j - 1) + Pushed(f(i, j - 1))
  }

  /** All pairs `(i', j')` with `i' < i` and `i' < j' < n`, row by row (the outer loop so far). */
  function PairsUpto<T>(f: (nat, nat) -> Option<T>, n: nat, i: nat): seq<T>
  {
    if i == 0 then [] else PairsUpto(f, n, i - 1) + PairsTo(f, i - 1, n)
  }

  /** Over four pillars the loops visit exactly the six pairs, in this order. */
  lemma FourPairs<T>(f: (nat, nat) -> Option<T>)
    ensures PairsUpto(f, 4, 4) == Pushed(f(0, 1)) + Pushed(f(0, 2)) + Pushed(f(0, 3)) + Pushed(f(1, 2)) + Pushed(f(1, 3)) + Pushed(f(2, 3))
  {
    var a, b, c := Pushed(f(0, 1)), Pushed(f(0, 2)), Pushed(f(0, 3));
    var d, e, g := Pushed(f(1, 2)), Pushed(f(1, 3)), Pushed(f(2, 3));
    assert PairsTo(f, 0, 2) == a;
    assert PairsTo(f, 0, 4) == a + b + c;
    assert PairsTo(f, 1, 3) == d;
    assert PairsTo(f, 1, 4) == d + e;
    assert PairsTo(f, 2, 4) == g;
    assert PairsTo(f, 3, 4) == [];
    assert PairsUpto(f, 4, 1) == a + b + c;
    assert PairsUpto(f, 4, 2) == a + b + c + d + e;
    assert PairsUpto(f, 4, 3) == a + b + c + d + e + g;
  }

  /** The triples `(i, j, k')` with `j < k' < k`. */
  function TriplesTo<T>(f: (nat, nat, nat) -> Option<T>, i: nat, j: nat, k: nat): seq<T>
    decreases k
  {
    if k <= j + 1 then [] else TriplesTo(f, i, j, k - 1) + Pushed(f(i, j, k - 1))
  }

  /** The triples `(i, j', k)` with `i < j' < j` and `j' < k < n`. */
  function TriplesFrom<T>(f: (nat, nat, nat) -> Option<T>, n: nat, i: nat, j: nat): seq<T>
    decreases j
  {
    if j <= i + 1 then [] else TriplesFrom(f, n, i, j - 1) + TriplesTo(f, i, j - 1, n)
  }

  /** The triples `(i', j, k)` with `i' < i` and `i' < j < k < n`. */
  function TriplesUpto<T>(f: (nat, nat, nat) -> Option<T>, n: nat, i: nat): seq<T>
  {
    if i == 0 then [] else TriplesUpto(f, n, i - 1) + TriplesFrom(f, n, i - 1, n)
  }

  lemma FirstRowTriples<T>(f: (nat, nat, nat) -> Option<T>)
    ensures TriplesFrom(f, 4, 0, 4) == Pushed(f(0, 1, 2)) + Pushed(f(0, 1, 3)) + Pushed(f(0, 2, 3))
  {
    assert TriplesTo(f, 0, 1, 4) == Pushed(f(0, 1, 2)) + Pushed(f(0, 1, 3));
    assert TriplesTo(f, 0, 2, 4) == Pushed(f(0, 2, 3));
    assert TriplesTo(f, 0, 3, 4) == [];
    calc {
      TriplesFrom(f, 4, 0, 4);
      TriplesFrom(f, 4, 0, 3) + TriplesTo(f, 0, 3, 4);
      TriplesFrom(f, 4, 0, 2) + TriplesTo(f, 0, 2, 4);
      TriplesTo(f, 0, 1, 4) + TriplesTo(f, 0, 2, 4);
    }
  }

  lemma LaterRowTriples<T>(f: (nat, nat, nat) -> Option<T>)
    ensures TriplesFrom(f, 4, 1, 4) == Pushed(f(1, 2, 3))
    ensures TriplesFrom(f, 4, 2, 4) == []
    ensures TriplesFrom(f, 4, 3, 4) == []
  {
    assert TriplesTo(f, 1, 2, 4) == Pushed(f(1, 2, 3));
    assert TriplesTo(f, 1, 3, 4) == [];
    assert TriplesFrom(f, 4, 1, 3) == TriplesTo(f, 1, 2, 4);
  }

  /** Over four pillars the loops visit exactly the four triples, in this order. */
  lemma FourTriples<T>(f: (nat, nat, nat) -> Option<T>)
    ensures TriplesUpto(f, 4, 4) == Pushed(f(0, 1, 2)) + Pushed(f(0, 1, 3)) + Pushed(f(0, 2, 3)) + Pushed(f(1, 2, 3))
  {
    FirstRowTriples(f);
    LaterRowTriples(f);
    assert TriplesUpto(f, 4, 1) == TriplesFrom(f, 4, 0, 4);
    assert TriplesUpto(f, 4, 2) == TriplesFrom(f, 4, 0, 4) + TriplesFrom(f, 4, 1, 4);
  }

  /** The finding for stems `i` and `j`, if they combine. */
  function StemFindingAt(stems: seq<string>, i: nat, j: nat): (r: Option<StemFinding>)
    ensures r.Some? ==> i < |stems| && j < |stems| && i < |Pillars| && j < |Pillars|
  {
    if i < |stems| && j < |stems| && i < |Pillars| && j < |Pillars| && AnalyzeStemCombination(stems[i], stems[j]).Some? then
      Some(StemFinding(Pillars[i], stems[i], Pillars[j], stems[j], AnalyzeStemCombination(stems[i], stems[j]).value,
                       j == i + 1, j != i + 1))
    else None
  }

  /** The finding for branches `i` and `j`, if they are related. */
  function BranchFindingAt(branches: seq<string>, i: nat, j: nat): Option<BranchFinding>
  {
    if i < |branches| && j < |branches| && i < |Pillars| && j < |Pillars| &&
       AnalyzeBranchRelationship(branches[i], branches[j]).Some?
    then
      Some(BranchFinding(Pillars[i], branches[i], Pillars[j], branches[j],
                         AnalyzeBranchRelationship(branches[i], branches[j]).value))
    else None
  }

  /** The finding for branches `i`, `j` and `k`, if they form a three-harmony. */
  function HarmonyFindingAt(branches: seq<string>, i: nat, j: nat, k: nat): Option<HarmonyFinding>
  {
    if i < |branches| && j < |branches| && k < |branches| && i < |Pillars| && j < |Pillars| && k < |Pillars| &&
       CheckThreeHarmony(branches[i], branches[j], branches[k]).Some?
    then
      Some(HarmonyFinding([branches[i], branches[j], branches[k]], [Pillars[i], Pillars[j], Pillars[k]],
                          CheckThreeHarmony(branches[i], branches[j], branches[k]).value))
    else None
  }

  function StemPick(stems: seq<string>, i: nat, j: nat): seq<StemFinding>
  {
    Pushed(StemFindingAt(stems, i, j))
  }

  function BranchPick(branches: seq<string>, i: nat, j: nat): seq<BranchFinding>
  {
    Pushed(BranchFindingAt(branches, i, j))
  }

  function HarmonyPick(branches: seq<string>, i: nat, j: nat, k: nat): seq<HarmonyFinding>
  {
    Pushed(HarmonyFindingAt(branches, i, j, k))
  }

  /** The two nested loops over the pairs `i < j < n`, pushing what `f` finds for each. */
  method CollectPairs<T>(f: (nat, nat) -> Option<T>, n: nat) returns (found: seq<T>)
    ensures found == PairsUpto(f, n, n)
  {
    found := [];
    for i := 0 to n
      invariant found == PairsUpto(f, n, i)
    {
      for j := i + 1 to n
        invariant found == PairsUpto(f, n, i) + PairsTo(f, i, j)
      {
        var finding := f(i, j);
        if finding.Some? {
          found := found + [finding.value];
        }
      }
    }
  }

  /** The three nested loops over the triples `i < j < k < n`. */
  method CollectTriples<T>(f: (nat, nat, nat) -> Option<T>, n: nat) returns (found: seq<T>)
    ensures found == TriplesUpto(f, n, n)
  {
    found := [];
    for i := 0 to n
      invariant found == TriplesUpto(f, n, i)
    {
      found := CollectTriplesFrom(f, n, i, found);
    }
  }

  /** The middle loop, for the first index `i`: pushes the triples `(i, j, k)`. */
  method CollectTriplesFrom<T>(f: (nat, nat, nat) -> Option<T>, n: nat, i: nat, start: seq<T>)
    returns (found: seq<T>)
    requires i < n
    ensures found == start + TriplesFrom(f, n, i, n)
  {
    found := start;
    for j := i + 1 to n
      invariant found == start + TriplesFrom(f, n, i, j)
    {
      found := CollectTriplesTo(f, n, i, j, found);
      TriplesFromStep(f, n, i, j, start);
    }
  }

  lemma TriplesFromStep<T>(f: (nat, nat, nat) -> Option<T>, n: nat, i: nat, j: nat, start: seq<T>)
    requires i < j
    ensures start + TriplesFrom(f, n, i, j + 1) == start + TriplesFrom(f, n, i, j) + TriplesTo(f, i, j, n)
  {
  }

  /** The innermost loop, for the indices `i < j`: pushes the triples `(i, j, k)`. */
  method CollectTriplesTo<T>(f: (nat, nat, nat) -> Option<T>, n: nat, i: nat, j: nat, start: seq<T>)
    returns (found: seq<T>)
    requires i < j < n
    ensures found == start + TriplesTo(f, i, j, n)
  {
    found := start;
    for k := j + 1 to n
      invariant found == start + TriplesTo(f, i, j, k)
    {
      var finding := f(i, j, k);
      if finding.Some? {
        found := found + [finding.value];
      }
      assert TriplesTo(f, i, j, k + 1) == TriplesTo(f, i, j, k) + Pushed(finding);
    }
  }

  /** The stem-pair loops of `analyzeAllRelationships`. */
  method StemCombinations(stems: seq<string>) returns (found: seq<StemFinding>)
    requires |stems| == 4
    ensures found ==
      StemPick(stems, 0, 1) + StemPick(stems, 0, 2) + StemPick(stems, 0, 3) +
      StemPick(stems, 1, 2) + StemPick(stems, 1, 3) + StemPick(stems, 2, 3)
  {
    var at := (i: nat, j: nat) => StemFindingAt(stems, i, j);
    found := CollectPairs(at, 4);
    FourPairs(at);
  }

  /** The branch-pair loops of `analyzeAllRelationships`. */
  method BranchRelationships(branches: seq<string>) returns (found: seq<BranchFinding>)
    requires |branches| == 4
    ensures found ==
      BranchPick(branches, 0, 1) + BranchPick(branches, 0, 2) + BranchPick(branches, 0, 3) +
      BranchPick(branches, 1, 2) + BranchPick(branches, 1, 3) + BranchPick(branches, 2, 3)
  {
    var at := (i: nat, j: nat) => BranchFindingAt(branches, i, j);
    found := CollectPairs(at, 4);
    FourPairs(at);
  }

  /** The branch-triple loops of `analyzeAllRelationships`. */
  method ThreeHarmonies(branches: seq<string>) returns (found: seq<HarmonyFinding>)
    requires |branches| == 4
    ensures found ==
      HarmonyPick(branches, 0, 1, 2) + HarmonyPick(branches, 0, 1, 3) +
      HarmonyPick(branches, 0, 2, 3) + HarmonyPick(branches, 1, 2, 3)
  {
    var at := (i: nat, j: nat, k: nat) => HarmonyFindingAt(branches, i, j, k);
    found := CollectTriples(at, 4);
    FourTriples(at);
  }

  /** `analyzeAllRelationships`: every stem pair, every branch pair and every branch triple
   *  of the chart in the order of the nested loops, then the notes describing them. */
  method AnalyzeAllRelationships(chart: Chart) returns (r: Relationships)
    ensures var s := chart.StemList();
      r.stemCombinations ==
        StemPick(s, 0, 1) + StemPick(s, 0, 2) + StemPick(s, 0, 3) +
        StemPick(s, 1, 2) + StemPick(s, 1, 3) + StemPick(s, 2, 3)
    ensures var b := chart.BranchList();
      r.branchRelationships ==
        BranchPick(b, 0, 1) + BranchPick(b, 0, 2) + BranchPick(b, 0, 3) +
        BranchPick(b, 1, 2) + BranchPick(b, 1, 3) + BranchPick(b, 2, 3)
    ensures var b := chart.BranchList();
      r.threeHarmonies ==
        HarmonyPick(b, 0, 1, 2) + HarmonyPick(b, 0, 1, 3) + HarmonyPick(b, 0, 2, 3) + HarmonyPick(b, 1, 2, 3)
    ensures r.notes == Notes(r.stemCombinations, r.branchRelationships, r.threeHarmonies)
  {
    var stemCombinations := StemCombinations(chart.StemList());
    var branchRelationships := BranchRelationships(chart.BranchList());
    var threeHarmonies := ThreeHarmonies(chart.BranchList());
    var notes := GenerateRelationshipNotes(stemCombinations, branchRelationships, threeHarmonies);
    r := Relationships(stemCombinations, branchRelationships, threeHarmonies, notes);
  }

  // ---------------------------------------------------------------------------
  // Notes

  /** A hidden combination reads "甲己暗合化土", an adjacent one "甲己合化土". */
  function StemNote(f: StemFinding): string
  {
    if f.isHidden then
      f.stem1 + f.stem2 + "暗合" + (if f.combo.element != "" then "化" + f.combo.element else "")
    else
      f.stem1 + f.stem2 + f.combo.kind
  }

  /** The two branches and the relation's type, or its category when the type is empty. */
  function BranchNote(f: BranchFinding): string
  {
    f.branch1 + f.branch2 + (if f.relation.kind != "" then f.relation.kind else f.relation.relationship)
  }

  /** The three branches joined, then the type. */
  function HarmonyNote(h: HarmonyFinding): string
  {
    Concat(h.branches) + h.combo.kind
  }

  /** One note per stem combination, then per branch relation, then per three-harmony. */
  function Notes(sc: seq<StemFinding>, br: seq<BranchFinding>, th: seq<HarmonyFinding>): (notes: seq<string>)
    ensures |notes| == |sc| + |br| + |th|
    ensures forall i :: 0 <= i < |sc| ==> notes[i] == StemNote(sc[i])
    ensures forall i :: 0 <= i < |br| ==> notes[|sc| + i] == BranchNote(br[i])
    ensures forall i :: 0 <= i < |th| ==> notes[|sc| + |br| + i] == HarmonyNote(th[i])
  {
    seq(|sc|, i requires 0 <= i < |sc| => StemNote(sc[i])) +
    seq(|br|, i requires 0 <= i < |br| => BranchNote(br[i])) +
    seq(|th|, i requires 0 <= i < |th| => HarmonyNote(th[i]))
  }

  /** `generateRelationshipNotes`: three `forEach` loops appending to one list. */
  method GenerateRelationshipNotes(sc: seq<StemFinding>, br: seq<BranchFinding>, th: seq<HarmonyFinding>)
    returns (notes: seq<string>)
    ensures notes == Notes(sc, br, th)
  {
    notes := [];
    for i := 0 to |sc|
      invariant notes == seq(i, k requires 0 <= k < i => StemNote(sc[k]))
    {
      notes := notes + [StemNote(sc[i])];
    }
    for i := 0 to |br|
      invariant notes == Notes(sc, [], []) + seq(i, k requires 0 <= k < i => BranchNote(br[k]))
    {
      notes := notes + [BranchNote(br[i])];
    }
    for i := 0 to |th|
      invariant notes == Notes(sc, br, []) + seq(i, k requires 0 <= k < i => HarmonyNote(th[k]))
    {
      notes := notes + [HarmonyNote(th[i])];
    }
  }

  /** A stem combination is hidden exactly when its pillars are not adjacent, and it is
   *  adjacent exactly when the second pillar follows the first. */
  lemma HiddenMeansNotAdjacent(chart: Chart, r: Relationships, f: StemFinding)
    requires r.stemCombinations ==
      StemPick(chart.StemList(), 0, 1) + StemPick(chart.StemList(), 0, 2) + StemPick(chart.StemList(), 0, 3) +
      StemPick(chart.StemList(), 1, 2) + StemPick(chart.StemList(), 1, 3) + StemPick(chart.StemList(), 2, 3)
    requires f in r.stemCombinations
    ensures f.isHidden == !f.isAdjacent
    ensures exists i, j :: (0 <= i < j < 4 && f.pillar1 == Pillars[i] && f.pillar2 == Pillars[j] &&
      f.isAdjacent == (j == i + 1) && AnalyzeStemCombination(chart.StemList()[i], chart.StemList()[j]) == Some(f.combo))
  {
    var s := chart.StemList();
    var i, j;
    if f in StemPick(s, 0, 1) { i, j := 0, 1; }
    else if f in StemPick(s, 0, 2) { i, j := 0, 2; }
    else if f in StemPick(s, 0, 3) { i, j := 0, 3; }
    else if f in StemPick(s, 1, 2) { i, j := 1, 2; }
    else if f in StemPick(s, 1, 3) { i, j := 1, 3; }
    else { i, j := 2, 3; }
    PickedStemFinding(s, i, j, f);
  }

  /** A finding picked for the stems `i` and `j` names their pillars and their combination,
   *  and is hidden exactly when the two are not adjacent. */
  lemma PickedStemFinding(s: seq<string>, i: nat, j: nat, f: StemFinding)
    requires i < j < 4 && f in StemPick(s, i, j)
    ensures f.isHidden == !f.isAdjacent && f.isAdjacent == (j == i + 1)
    ensures f.pillar1 == Pillars[i] && f.pillar2 == Pillars[j] && i < |s| && j < |s|
    ensures AnalyzeStemCombination(s[i], s[j]) == Some(f.combo)
  {
    assert StemFindingAt(s, i, j) == Some(f);
  }

  // ---------------------------------------------------------------------------
  // Colours

  const ColorTypes: seq<string> :=
    ["合化土", "合化金", "合化水", "合化木", "合化火", "六合", "半合", "三合", "相沖", "相刑", "相破", "相害", "暗合"]
  const ColorCodes: seq<string> :=
    ["#d4a373", "#c0c0c0", "#4a90e2", "#52c41a", "#f5222d", "#52c41a", "#73d13d", "#237804",
     "#ff4d4f", "#ff7a45", "#fa8c16", "#faad14", "#722ed1"]

  /** The colour listed for `t` in `types`, or the grey default. */
  function ColorLookup(types: seq<string>, codes: seq<string>, t: string): (r: string)
    requires |types| == |codes|
    ensures t !in types ==> r == "#8c8c8c"
    ensures t in types ==> exists i :: 0 <= i < |types| && types[i] == t && r == codes[i]
  {
    if |types| == 0 then "#8c8c8c"
    else if types[0] == t then codes[0]
    else
      var r := ColorLookup(types[1..], codes[1..], t);
      assert forall i :: 1 <= i < |types| ==> types[i] == types[1..][i - 1] && codes[i] == codes[1..][i - 1];
      r
  }

  /** `getRelationshipColor`: the colour of a listed type, grey for every other type. */
  function GetRelationshipColor(t: string): (r: string)
    ensures t !in ColorTypes ==> r == "#8c8c8c"
    ensures t in ColorTypes ==> r != "#8c8c8c" && exists i :: 0 <= i < |ColorTypes| && ColorTypes[i] == t && r == ColorCodes[i]
  {
    CodesNotGrey();
    ColorLookup(ColorTypes, ColorCodes, t)
  }

  /** No listed colour is the grey default: their second characters already differ. */
  lemma CodesNotGrey()
    ensures forall i :: 0 <= i < |ColorCodes| ==> ColorCodes[i] != "#8c8c8c"
  {
    forall i | 0 <= i < |ColorCodes|
      ensures ColorCodes[i] != "#8c8c8c"
    {
      assert |ColorCodes[i]| == 7 && ColorCodes[i][1] != '8';
    }
  }
}
