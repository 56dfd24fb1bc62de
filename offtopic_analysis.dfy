/** `test-offtopic-analysis.js`: how the off-topic script scores a chat reply to a
 *  question outside feng shui and destiny analysis. */
module OfftopicAnalysis {
  import opened Wrappers
  import opened Strings

  const StrongIndicators: seq<string> :=
    ["抱歉", "不是小鈴的專長", "不在我的專業範圍", "我專注於命理", "我的專長是風水", "讓我回到命理分析"]
  const WeakIndicators: seq<string> := ["其實", "你知道嗎", "不過", "說到", "也跟", "息息相關"]
  const CallsToAction: seq<string> := ["想要開始分析", "請輸入", "讓小鈴"]
  const ServiceWords: seq<string> := ["命理", "風水", "運勢"]

  datatype Kind = NoResponse | StrongRedirect | NoRedirect | WeakRedirect | Unclear

  datatype Analysis = Analysis(kind: Kind, score: real, hasCta: bool, strongCount: nat, weakCount: nat)

  /** `analyzeRedirection`: any boundary phrase is a strong redirect; otherwise a reply that
   *  names none of the services answered the off-topic question; otherwise a bridging
   *  phrase together with a call to action is a weak redirect, and anything else is unclear. */
  function AnalyzeRedirection(response: Option<string>): (r: Analysis)
    ensures response.None? || response.value == "" ==> r.kind == NoResponse && r.score == 0.0
    ensures response.Some? && response.value != "" ==>
      r.strongCount == CountContained(response.value, StrongIndicators) &&
      r.weakCount == CountContained(response.value, WeakIndicators) &&
      (r.hasCta <==> ContainsAny(response.value, CallsToAction))
  {
    if response.None? || response.value == "" then
      Analysis(NoResponse, 0.0, false, 0, 0)
    else
      var text := response.value;
      var hasCta := ContainsAny(text, CallsToAction);
      var givesDirectAnswer := !ContainsAny(text, ServiceWords);
      var strongCount := CountContained(text, StrongIndicators);
      var weakCount := CountContained(text, WeakIndicators);
      if strongCount > 0 then Analysis(StrongRedirect, 3.0, hasCta, strongCount, weakCount)
      else if givesDirectAnswer then Analysis(NoRedirect, 0.0, hasCta, strongCount, weakCount)
      else if weakCount > 0 && hasCta then Analysis(WeakRedirect, 1.0, hasCta, strongCount, weakCount)
      else Analysis(Unclear, 0.5, hasCta, strongCount, weakCount)
  }

  /** The classification in terms of which phrases occur: a boundary phrase decides
   *  whatever else the reply holds, and the score follows the kind. */
  lemma Classification(text: string)
    requires text != ""
    ensures var r := AnalyzeRedirection(Some(text));
      (r.kind == StrongRedirect <==> ContainsAny(text, StrongIndicators)) &&
      (r.kind == NoRedirect <==> !ContainsAny(text, StrongIndicators) && !ContainsAny(text, ServiceWords)) &&
      (r.kind == WeakRedirect <==>
        !ContainsAny(text, StrongIndicators) && ContainsAny(text, ServiceWords) &&
        ContainsAny(text, WeakIndicators) && ContainsAny(text, CallsToAction))
    ensures var r := AnalyzeRedirection(Some(text));
      r.score == (match r.kind
        case StrongRedirect => 3.0
        case WeakRedirect => 1.0
        case Unclear => 0.5
        case _ => 0.0)
  {
    CountContainedPositive(text, StrongIndicators);
    CountContainedPositive(text, WeakIndicators);
  }

  /** A longer reply that contains a shorter one never scores lower. */
  lemma ScoreMonotone(pre: string, text: string, post: string)
    requires text != ""
    ensures AnalyzeRedirection(Some(text)).score <= AnalyzeRedirection(Some(pre + text + post)).score
  {
    var long := pre + text + post;
    CountContainedExtend(pre, text, post, StrongIndicators);
    CountContainedExtend(pre, text, post, WeakIndicators);
    CountContainedExtend(pre, text, post, CallsToAction);
    CountContainedExtend(pre, text, post, ServiceWords);
    Classification(text);
    Classification(long);
  }
}
