/** The fortune-improvement card: the buttons of each category, the detail points cut from the
 *  analysis text, the shortened description, the icon list and the motto taken from the text
 *  or from the concern. */
module CoreSuggestion {
  import opened Wrappers
  import opened Strings

  // ---------------------------------------------------------------------------
  // Buttons

  /** The six colours `getSubsectionButtonColor` cycles through. */
  const SubsectionColors: seq<string> := [
    "bg-amber-100 text-amber-800", "bg-blue-100 text-blue-800", "bg-green-100 text-green-800",
    "bg-red-100 text-red-800", "bg-purple-100 text-purple-800", "bg-pink-100 text-pink-800"]

  /** `colors[index % colors.length]`. */
  function SubsectionButtonColor(index: nat): (r: string)
    ensures r in SubsectionColors
  {
    SubsectionColors[index % |SubsectionColors|]
  }

  /** The colours repeat every six subsections, and six consecutive subsections get six
   *  different colours. */
  lemma SubsectionColorsCycle(i: nat, j: nat)
    ensures SubsectionButtonColor(i + 6) == SubsectionButtonColor(i)
    ensures i < 6 && j < 6 ==> (SubsectionButtonColor(i) == SubsectionButtonColor(j) <==> i == j)
  {
    assert (i + 6) % 6 == i % 6;
  }

  datatype Button = Button(text: string, color: string)

  /** The category titles of `buttonMappings`. */
  const CategoryTitles: seq<string> := ["五行調和", "行為心性", "風水輔助", "擇時調養", "擇時而動"]

  /** The buttons listed for a category title, if any. */
  function ButtonMapping(title: string): Option<seq<Button>>
  {
    if title == "五行調和" then
      Some([Button("佩戴", "bg-amber-100 text-amber-800"), Button("環境", "bg-yellow-100 text-yellow-800"),
            Button("飲食", "bg-green-100 text-green-800"), Button("活動", "bg-blue-100 text-blue-800")])
    else if title == "行為心性" then
      Some([Button("作息", "bg-red-100 text-red-800"), Button("情緒", "bg-pink-100 text-pink-800"),
            Button("決策", "bg-orange-100 text-orange-800"), Button("禁忌", "bg-purple-100 text-purple-800")])
    else if title == "風水輔助" then
      Some([Button("方位", "bg-green-100 text-green-800"), Button("化煞", "bg-teal-100 text-teal-800"),
            Button("布局", "bg-emerald-100 text-emerald-800"), Button("禁忌", "bg-lime-100 text-lime-800")])
    else if title == "擇時調養" then
      Some([Button("黃金期", "bg-blue-100 text-blue-800"), Button("禁忌期", "bg-red-100 text-red-800")])
    else if title == "擇時而動" then
      Some([Button("最佳時機", "bg-blue-100 text-blue-800"), Button("禁忌時段", "bg-red-100 text-red-800")])
    else None
  }

  /** `buttonMappings[categoryTitle] || buttonMappings["五行調和"]`. */
  function ButtonsForCategory(title: string): seq<Button>
  {
    var listed := ButtonMapping(title);
    if listed.Some? then listed.value else ButtonMapping("五行調和").value
  }

  /** The listed titles keep their own buttons, two or four of them; every other title gets
   *  the buttons of 五行調和. */
  lemma ButtonsByTitle(title: string)
    ensures title in CategoryTitles ==> ButtonsForCategory(title) == ButtonMapping(title).value
    ensures title in CategoryTitles ==> |ButtonsForCategory(title)| in {2, 4}
    ensures title !in CategoryTitles ==> ButtonsForCategory(title) == ButtonsForCategory("五行調和")
  {
  }

  // ---------------------------------------------------------------------------
  // Detail points

  /** The separators of `/[。！？\n]/`. */
  predicate IsBreak(c: char)
  {
    c == '。' || c == '！' || c == '？' || c == '\n'
  }

  /** `content.split(/[。！？\n]/)`. */
  function Pieces(s: string): (r: seq<string>)
    ensures |r| >= 1
    ensures forall i, k :: 0 <= i < |r| && 0 <= k < |r[i]| ==> !IsBreak(r[i][k])
    decreases |s|
  {
    if |s| == 0 then [""]
    else if IsBreak(s[0]) then [""] + Pieces(s[1..])
    else
      var rest := Pieces(s[1..]);
      [[s[0]] + rest[0]] + rest[1..]
  }

  /** Every piece is a stretch of the text, the first one at its start. */
  lemma {:induction false} PiecesInText(s: string)
    ensures StartsWith(s, Pieces(s)[0])
    ensures forall i :: 0 <= i < |Pieces(s)| ==> Contains(s, Pieces(s)[i])
    decreases |s|
  {
    if |s| == 0 {
      assert StartsWith(s, "");
    } else {
      PiecesInText(s[1..]);
      var rest, r := Pieces(s[1..]), Pieces(s);
      assert s == [s[0]] + s[1..];
      forall i | 0 <= i < |r|
        ensures Contains(s, r[i])
      {
        if IsBreak(s[0]) {
          if i == 0 {
            assert StartsWith(s, r[i]);
          } else {
            assert r[i] == rest[i - 1];
            ContainsSuffix(s, 1, r[i]);
          }
        } else if i == 0 {
          assert r[0] == [s[0]] + rest[0];
          assert s[..|r[0]|] == [s[0]] + s[1..][..|rest[0]|];
          assert StartsWith(s, r[0]);
        } else {
          assert r[i] == rest[i];
          ContainsSuffix(s, 1, r[i]);
        }
      }
      if !IsBreak(s[0]) {
        assert s[..|r[0]|] == [s[0]] + s[1..][..|rest[0]|];
      }
    }
  }

  /** What trimming keeps is a stretch of the text. */
  lemma TrimInText(s: string)
    ensures Contains(s, Trim(s))
  {
    var t := TrimStart(s);
    var r := TrimEnd(t);
    var a := |s| - |t|;
    assert r == s[a..a + |r|];
    ContainsAt(s, r, a);
  }

  /** The trimmed pieces longer than ten characters, in order. */
  function LongPieces(pieces: seq<string>): (r: seq<string>)
    ensures |r| <= |pieces|
    ensures forall d :: d in r ==> |d| > 10 && exists p :: p in pieces && d == Trim(p)
  {
    if |pieces| == 0 then []
    else
      var rest := LongPieces(pieces[1..]);
      assert forall p :: p in pieces[1..] ==> p in pieces;
      (if |Trim(pieces[0])| > 10 then [Trim(pieces[0])] else []) + rest
  }

  /** `parseContentToDetails`: nothing for an empty text; otherwise the first six pieces
   *  between 。！？ and line breaks that are longer than ten characters once trimmed. */
  function ParseContentToDetails(content: string): (r: seq<string>)
    ensures |r| <= 6
    ensures forall d :: d in r ==> |d| > 10 && exists p :: p in Pieces(content) && d == Trim(p)
  {
    if content == "" then []
    else
      var long := LongPieces(Pieces(content));
      if |long| <= 6 then long else long[..6]
  }

  /** A piece of the text is a stretch of it. */
  lemma PieceInText(content: string, p: string)
    requires p in Pieces(content)
    ensures Contains(content, p)
    ensures forall k :: 0 <= k < |p| ==> !IsBreak(p[k])
  {
    PiecesInText(content);
  }

  /** A stretch of a stretch is a stretch, and holds only characters of the larger one. */
  lemma ContainsWithin(s: string, p: string, d: string)
    requires Contains(s, p) && Contains(p, d)
    ensures Contains(s, d)
    ensures forall k :: 0 <= k < |d| ==> d[k] in p
  {
    var w := ContainsWitness(p, d);
    var v := ContainsWitness(s, p);
    ContainsSlice(s, v, v + |p|, p, d);
    forall k | 0 <= k < |d|
      ensures d[k] in p
    {
      assert d[k] == p[w..w + |d|][k];
      assert p[w..w + |d|][k] == p[w + k];
    }
  }

  /** A trimmed piece holds no separator and is a stretch of the text. */
  lemma TrimmedPieceInText(content: string, p: string)
    requires p in Pieces(content)
    ensures Contains(content, Trim(p)) && Trim(Trim(p)) == Trim(p)
    ensures forall k :: 0 <= k < |Trim(p)| ==> !IsBreak(Trim(p)[k])
  {
    PieceInText(content, p);
    TrimShape(p);
    TrimInText(p);
    ContainsWithin(content, p, Trim(p));
  }

  /** At most six details, each longer than ten characters, trimmed, free of 。！？ and line
   *  breaks, and taken word for word from the text. */
  lemma DetailsShape(content: string, d: string)
    requires d in ParseContentToDetails(content)
    ensures |d| > 10 && Trim(d) == d && Contains(content, d)
    ensures forall k :: 0 <= k < |d| ==> !IsBreak(d[k])
  {
    var p :| p in Pieces(content) && d == Trim(p);
    TrimmedPieceInText(content, p);
  }

  // ---------------------------------------------------------------------------
  // Description and icons

  /** `content.substring(0, 200) + (content.length > 200 ? "..." : "")`. */
  function Description(content: string): (r: string)
    ensures |content| <= 200 ==> r == content
    ensures |content| > 200 ==> |r| == 203 && StartsWith(r, content[..200]) && EndsWith(r, "...")
  {
    if |content| > 200 then content[..200] + "..." else content
  }

  datatype Icon = Icon(title: string, color: string, active: bool)

  /** `coreIconList`: one icon per category, only the first one active. */
  function IconList(titles: seq<string>, colors: seq<string>): (r: seq<Icon>)
    requires |titles| == |colors|
    ensures |r| == |titles|
    ensures forall i :: 0 <= i < |r| ==> r[i].title == titles[i] && r[i].color == colors[i]
    ensures forall i :: 0 <= i < |r| ==> (r[i].active <==> i == 0)
  {
    seq(|titles|, i requires 0 <= i < |titles| => Icon(titles[i], colors[i], i == 0))
  }

  // ---------------------------------------------------------------------------
  // Motto

  /** `[^。\n]*`: the length of the run at the front of `s` with neither 。 nor a line break. */
  function CaptureRun(s: string): (n: nat)
    ensures n <= |s|
    ensures forall k :: 0 <= k < n ==> s[k] != '。' && s[k] != '\n'
    ensures n < |s| ==> s[n] == '。' || s[n] == '\n'
    decreases |s|
  {
    if |s| > 0 && s[0] != '。' && s[0] != '\n' then 1 + CaptureRun(s[1..]) else 0
  }

  /** Whether `s` starts with the keyword followed by a full-width or ASCII colon. */
  predicate KeywordAt(s: string, keyword: string)
  {
    StartsWith(s, keyword + "：") || StartsWith(s, keyword + ":")
  }

  /** `content.match(/<keyword>[：:]([^。\n]*)/)[1]`: the capture at the first place the
   *  keyword and a colon occur, or no match. */
  function MatchCapture(s: string, keyword: string): (r: Option<string>)
    ensures r.None? ==> !Contains(s, keyword + "：") && !Contains(s, keyword + ":")
    decreases |s|
  {
    if KeywordAt(s, keyword) then
      var after := s[|keyword| + 1..];
      Some(after[..CaptureRun(after)])
    else if |s| == 0 then None
    else MatchCapture(s[1..], keyword)
  }

  /** A capture is a stretch of the text that follows the keyword and a colon and holds
   *  neither 。 nor a line break. */
  lemma {:induction false} MatchCaptureFound(s: string, keyword: string)
    requires MatchCapture(s, keyword).Some?
    ensures var c := MatchCapture(s, keyword).value;
      (Contains(s, keyword + "：" + c) || Contains(s, keyword + ":" + c)) &&
      forall k :: 0 <= k < |c| ==> c[k] != '。' && c[k] != '\n'
    decreases |s|
  {
    var c := MatchCapture(s, keyword).value;
    if KeywordAt(s, keyword) {
      var after := s[|keyword| + 1..];
      var p := if StartsWith(s, keyword + "：") then keyword + "：" else keyword + ":";
      assert s[..|p|] == p;
      assert s[..|p| + |c|] == p + c;
      ContainsAt(s, p + c, 0);
    } else {
      MatchCaptureFound(s[1..], keyword);
      if Contains(s[1..], keyword + "：" + c) {
        ContainsSuffix(s, 1, keyword + "：" + c);
      } else {
        ContainsSuffix(s, 1, keyword + ":" + c);
      }
    }
  }

  /** The keywords of `mottoPatterns`, tried in this order. */
  const MottoKeywords: seq<string> := ["箴言", "核心理念", "重要提醒"]

  /** The motto of `fallbackMottos` for a concern, then the generic sentence. */
  function FallbackMotto(concern: string): (r: string)
    ensures concern !in {"健康", "財運", "工作", "事業", "感情"} ==> r == "順應自然規律，把握人生節奏，必有所成。"
  {
    if concern == "健康" then "健康是人生最大的財富，預防勝於治療，調養重於進補。"
    else if concern == "財運" then "財不入急門，穩中求進方能長久。根基穩固，財運自來。"
    else if concern == "工作" then "事業如登山，穩扎穩打勝過急功近利。專注提升自身實力，機會自然降臨。"
    else if concern == "事業" then "創業維艱，守成不易。順應天時，借助地利，團結人和。"
    else if concern == "感情" then "感情如水，需要耐心灌溉。真誠溝通，相互理解，方能開花結果。"
    else "順應自然規律，把握人生節奏，必有所成。"
  }

  /** The index of the first pattern, from `k` on, whose capture is not empty, or -1. */
  function MottoIndex(content: string, k: nat): (r: int)
    requires k <= |MottoKeywords|
    ensures r == -1 || k <= r < |MottoKeywords|
    ensures r >= 0 ==> MatchCapture(content, MottoKeywords[r]).Some? && MatchCapture(content, MottoKeywords[r]).value != ""
    decreases |MottoKeywords| - k
  {
    if k == |MottoKeywords| then -1
    else
      var m := MatchCapture(content, MottoKeywords[k]);
      if m.Some? && m.value != "" then k else MottoIndex(content, k + 1)
  }

  /** `extractMottoFromContent`: the trimmed capture of the first pattern that captures
   *  something, else the concern's fallback motto. */
  function ExtractMotto(content: string, concern: string): (r: string)
  {
    var j := MottoIndex(content, 0);
    if j >= 0 then Trim(MatchCapture(content, MottoKeywords[j]).value) else FallbackMotto(concern)
  }

  /** Whether the text names none of the three keywords with a colon. */
  predicate NoMottoKeyword(content: string)
  {
    forall j :: 0 <= j < |MottoKeywords| ==>
      !Contains(content, MottoKeywords[j] + "：") && !Contains(content, MottoKeywords[j] + ":")
  }

  /** A motto taken from the text is the trimmed capture after one of the keywords and a
   *  colon, and holds neither 。 nor a line break. */
  lemma MottoFromText(content: string, concern: string)
    requires MottoIndex(content, 0) >= 0
    ensures var kw := MottoKeywords[MottoIndex(content, 0)];
      var c := MatchCapture(content, kw).value;
      ExtractMotto(content, concern) == Trim(c) && c != "" &&
      (Contains(content, kw + "：" + c) || Contains(content, kw + ":" + c)) &&
      forall k :: 0 <= k < |c| ==> c[k] != '。' && c[k] != '\n'
  {
    MatchCaptureFound(content, MottoKeywords[MottoIndex(content, 0)]);
  }

  /** A text naming none of the three keywords with a colon gets the concern's fallback. */
  lemma MottoFallback(content: string, concern: string)
    requires NoMottoKeyword(content)
    ensures ExtractMotto(content, concern) == FallbackMotto(concern)
  {
    var j := MottoIndex(content, 0);
    if j >= 0 {
      var kw, c := MottoKeywords[j], MatchCapture(content, MottoKeywords[j]).value;
      MatchCaptureFound(content, kw);
      if Contains(content, kw + "：" + c) {
        PrefixContained(content, kw + "：", c);
      } else {
        PrefixContained(content, kw + ":", c);
      }
      assert false;
    }
  }

  /** Text containing `p + c` contains `p`. */
  lemma PrefixContained(s: string, p: string, c: string)
    requires Contains(s, p + c)
    ensures Contains(s, p)
  {
    var i := ContainsWitness(s, p + c);
    assert s[i..i + |p|] == (p + c)[..|p|] == p;
    ContainsAt(s, p, i);
  }
}
