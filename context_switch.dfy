/** `test-context-switch.js`: how the topic-switching script grades a chat reply, namely
 *  whether it steers an off-topic question back to the services and whether it keeps
 *  the user's original concern in view. */
module ContextSwitch {
  import opened Wrappers
  import opened Strings

  const StrongIndicators: seq<string> := ["抱歉", "不是小鈴的專長", "不在我的專業", "我專注於"]
  const WeakIndicators: seq<string> := ["其實", "你知道嗎", "不過", "說到", "也跟", "息息相關"]
  const ConcernWords: seq<string> := ["感情", "工作", "財運", "健康", "命理", "風水"]
  const BirthdayWords: seq<string> := ["生日", "出生"]
  const ChoiceMarks: seq<string> := ["1\U{FE0F}\U{20E3}", "2\U{FE0F}\U{20E3}"]

  datatype Strength = Strong | Weak | Moderate | NoStrength

  datatype Redirection = Redirection(isRedirect: bool, strength: Strength, details: string)

  /** The order of the grades, from no redirect to a strong one. */
  function Rank(s: Strength): nat
  {
    match s
    case NoStrength => 0
    case Moderate => 1
    case Weak => 2
    case Strong => 3
  }

  /** `analyzeRedirection`: a missing or empty reply is no redirect; otherwise a reply that
   *  mentions a concern redirects, strongly with a boundary phrase, weakly with a bridging
   *  phrase, moderately with neither. */
  function AnalyzeRedirection(response: Option<string>): (r: Redirection)
    ensures r.isRedirect <==> r.strength != NoStrength
    ensures r.isRedirect <==> response.Some? && response.value != "" && ContainsAny(response.value, ConcernWords)
    ensures r.strength == Strong <==>
      response.Some? && ContainsAny(response.value, StrongIndicators) && ContainsAny(response.value, ConcernWords)
    ensures r.strength == Weak <==>
      response.Some? && !ContainsAny(response.value, StrongIndicators)
      && ContainsAny(response.value, WeakIndicators) && ContainsAny(response.value, ConcernWords)
  {
    if response.None? || response.value == "" then
      Redirection(false, NoStrength, "No response")
    else
      var text := response.value;
      var concern := ContainsAny(text, ConcernWords);
      if ContainsAny(text, StrongIndicators) && concern then
        Redirection(true, Strong, "Clear boundary + redirect to services")
      else if ContainsAny(text, WeakIndicators) && concern then
        Redirection(true, Weak, "Tries to relate topic to feng shui")
      else if concern then
        Redirection(true, Moderate, "Mentions services without clear boundary")
      else
        Redirection(false, NoStrength, "Engages with off-topic without redirect")
  }

  /** A longer reply that contains a shorter one is graded at least as high. */
  lemma RedirectionMonotone(pre: string, text: string, post: string)
    requires text != ""
    ensures Rank(AnalyzeRedirection(Some(text)).strength) <=
            Rank(AnalyzeRedirection(Some(pre + text + post)).strength)
  {
    CountContainedExtend(pre, text, post, StrongIndicators);
    CountContainedExtend(pre, text, post, WeakIndicators);
    CountContainedExtend(pre, text, post, ConcernWords);
  }

  datatype Retention = Retention(remembersOriginalConcern: bool, continuesFlow: bool, score: nat)

  /** `analyzeContextRetention`: a point for naming the original concern, and a point for
   *  asking for a birth date or offering numbered choices. The callers pass the reply field
   *  of the chat answer, which is missing after a failed request; `includes` then throws,
   *  and `None` stands for that throw. */
  function AnalyzeContextRetention(response: Option<string>, originalConcern: string): (r: Option<Retention>)
    ensures r.None? <==> response.None?
    ensures r.Some? ==> r.value.score <= 2
    ensures r.Some? ==> (r.value.score == 0 <==> !r.value.remembersOriginalConcern && !r.value.continuesFlow)
    ensures r.Some? ==> (r.value.score == 2 <==> r.value.remembersOriginalConcern && r.value.continuesFlow)
    ensures r.Some? ==> (r.value.remembersOriginalConcern <==> Contains(response.value, originalConcern))
    ensures r.Some? ==>
      (r.value.continuesFlow <==> ContainsAny(response.value, BirthdayWords) || ContainsAny(response.value, ChoiceMarks))
  {
    if response.None? then None
    else
      var text := response.value;
      var mentionsOriginal := Contains(text, originalConcern);
      var asksBirthday := Contains(text, "生日") || Contains(text, "出生");
      var hasChoices := Contains(text, ChoiceMarks[0]) || Contains(text, ChoiceMarks[1]);
      assert asksBirthday <==> ContainsAny(text, BirthdayWords) by {
        assert BirthdayWords[0] == "生日" && BirthdayWords[1] == "出生";
      }
      Some(Retention(mentionsOriginal, asksBirthday || hasChoices,
        (if mentionsOriginal then 1 else 0) + (if asksBirthday || hasChoices then 1 else 0)))
  }

  /** A missing reply is graded as no redirect, but the retention check throws on it. */
  lemma MissingReply(originalConcern: string)
    ensures AnalyzeRedirection(None).strength == NoStrength
    ensures AnalyzeContextRetention(None, originalConcern).None?
  {
  }

  /** An empty concern is found in every reply, as `includes("")` is always true. */
  lemma EmptyConcernRemembered(response: string)
    ensures AnalyzeContextRetention(Some(response), "").value.remembersOriginalConcern
    ensures AnalyzeContextRetention(Some(response), "").value.score >= 1
  {
    assert StartsWith(response, "");
  }

  /** A longer reply that contains a shorter one scores at least as much. */
  lemma RetentionMonotone(pre: string, text: string, post: string, concern: string)
    ensures AnalyzeContextRetention(Some(text), concern).value.score
      <= AnalyzeContextRetention(Some(pre + text + post), concern).value.score
  {
    CountContainedExtend(pre, text, post, BirthdayWords);
    CountContainedExtend(pre, text, post, ChoiceMarks);
    if Contains(text, concern) {
      ContainsInfix(pre, text, post, concern);
    }
  }
}
