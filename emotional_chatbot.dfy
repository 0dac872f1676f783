/** components/emotional-chatbot.tsx: the chat panel beside the analysis.
    A user message is appended and answered after a delay by a reply routed
    on keywords; the quick buttons append a canned reply at once. The
    message list is a field that the methods extend; the timestamps, the
    typing delay and the scrolling are not modelled. */
module EmotionalChatbot {
  import opened TextMatch
  import opened EmotionAnalysis
  import opened ChatbotResponses

  datatype Role = User | Assistant
  datatype ReplyType = Empathy | Advice | General
  datatype Message = Message(role: Role, content: string, replyType: Option<ReplyType>)

  const NoAnalysisReply: string :=
    "I'd love to help you understand your emotional state better. Please run an analysis first so I can provide personalized insights and support."

  /** The lower-cased message asks for help or advice. */
  predicate AsksForAdvice(userMessage: string) {
    var lower := LowerStr(userMessage);
    Contains(lower, "help") || Contains(lower, "advice") || Contains(lower, "what should i do")
  }

  /** The lower-cased message talks about feelings. */
  predicate TalksAboutFeelings(userMessage: string) {
    var lower := LowerStr(userMessage);
    Contains(lower, "feel") || Contains(lower, "emotion") || Contains(lower, "sad")
      || Contains(lower, "angry") || Contains(lower, "anxious") || Contains(lower, "stressed")
  }

  /** generateResponse: the fixed prompt without an analysis; advice when
      asked for help; empathy otherwise, whether or not the message talks
      about feelings (that branch gives the same reply as the default). */
  function GenerateResponse(analysis: Option<AnalysisResult>, userMessage: string, roll: real): (r: (string, ReplyType))
    requires 0.0 <= roll < 1.0
    ensures analysis.None? ==> r == (NoAnalysisReply, General)
    ensures analysis.Some? ==> (r.1 == Advice <==> AsksForAdvice(userMessage))
    ensures analysis.Some? ==> (r.1 == Empathy <==> !AsksForAdvice(userMessage))
    ensures analysis.Some? && r.1 == Advice ==> r.0 == GenerateAdvice(analysis.value, roll)
    ensures analysis.Some? && r.1 == Empathy ==> r.0 == GenerateEmpatheticResponse(analysis.value, roll)
  {
    if analysis.None? then (NoAnalysisReply, General)
    else if AsksForAdvice(userMessage) then (GenerateAdvice(analysis.value, roll), Advice)
    else if TalksAboutFeelings(userMessage) then (GenerateEmpatheticResponse(analysis.value, roll), Empathy)
    else (GenerateEmpatheticResponse(analysis.value, roll), Empathy)
  }

  /** A message that asks for help is answered with advice even when it also
      talks about feelings: the advice test comes first. */
  lemma AdviceTakesPrecedence(a: AnalysisResult, roll: real)
    requires 0.0 <= roll < 1.0
    ensures GenerateResponse(Some(a), "I feel sad, please help", roll).1 == Advice
  {
    var m := "I feel sad, please help";
    var lower := LowerStr(m);
    assert lower[19..23] == "help";
    assert OccursAt(lower, 19, "help");
  }

  const SummaryLead := "Based on your emotional analysis, you're experiencing "

  /** The quick "analysis" reply. `percent` is the stability index times 100
      as `toFixed(1)` prints it. */
  function AnalysisSummary(a: AnalysisResult, percent: string): (s: string)
    ensures |SummaryLead| + |a.dominantEmotion| <= |s|
    ensures s[..|SummaryLead|] == SummaryLead
    ensures s[|SummaryLead|..|SummaryLead| + |a.dominantEmotion|] == LowerStr(a.dominantEmotion)
    ensures var tail := IndicatorSentence(a.biometricFlags); |tail| <= |s| && s[|s| - |tail|..] == tail
  {
    SummaryLead + LowerStr(a.dominantEmotion)
      + " as your primary emotion with a stability index of " + percent
      + "%. Your emotional state is classified as " + LowerStr(a.classification) + ". "
      + IndicatorSentence(a.biometricFlags)
  }

  /** The physiological sentence: present exactly when there are flags, and
      naming every flag as written. */
  function IndicatorSentence(flags: seq<string>): (s: string)
    ensures s == "" <==> flags == []
    ensures forall i :: 0 <= i < |flags| ==> Contains(s, flags[i])
  {
    if |flags| > 0 then
      var joined := Join(flags, ", ");
      NamesEveryPart(flags);
      "I also notice some physiological indicators: " + joined + "."
    else ""
  }

  lemma NamesEveryPart(flags: seq<string>)
    requires flags != []
    ensures forall i :: 0 <= i < |flags| ==>
      Contains("I also notice some physiological indicators: " + Join(flags, ", ") + ".", flags[i])
  {
    var joined := Join(flags, ", ");
    forall i | 0 <= i < |flags|
      ensures Contains("I also notice some physiological indicators: " + joined + ".", flags[i])
    {
      JoinContains(flags, ", ", i);
      var p: nat :| p <= |joined| && OccursAt(joined, p, flags[i]);
      ContainsInMiddle("I also notice some physiological indicators: ", joined, ".", p, flags[i]);
    }
  }

  /** The summary ends on the classification exactly when there are no flags,
      and otherwise names each of them. */
  lemma SummaryMentionsFlags(a: AnalysisResult, percent: string)
    ensures a.biometricFlags == [] <==> AnalysisSummary(a, percent)[|AnalysisSummary(a, percent)| - 2..] == ". "
    ensures forall i :: 0 <= i < |a.biometricFlags| ==> Contains(AnalysisSummary(a, percent), a.biometricFlags[i])
  {
    var head := "Based on your emotional analysis, you're experiencing " + LowerStr(a.dominantEmotion)
      + " as your primary emotion with a stability index of " + percent
      + "%. Your emotional state is classified as " + LowerStr(a.classification) + ". ";
    var tail := IndicatorSentence(a.biometricFlags);
    var s := AnalysisSummary(a, percent);
    assert s == head + tail;
    if tail != [] {
      assert s[|s| - 1] == '.';
    }
    forall i | 0 <= i < |a.biometricFlags|
      ensures Contains(s, a.biometricFlags[i])
    {
      var p: nat :| p <= |tail| && OccursAt(tail, p, a.biometricFlags[i]);
      ContainsInMiddle(head, tail, "", p, a.biometricFlags[i]);
      assert head + tail + "" == s;
    }
  }

  datatype QuickKind = QuickEmpathy | QuickAdvice | QuickAnalysis

  /** The reply a quick button appends, with its type. */
  function QuickReply(kind: QuickKind, a: AnalysisResult, roll: real, percent: string): (r: (string, ReplyType))
    requires 0.0 <= roll < 1.0
    ensures r.1 == Empathy <==> kind == QuickEmpathy
    ensures r.1 == Advice <==> kind == QuickAdvice
    ensures r.1 == General <==> kind == QuickAnalysis
    ensures r.0 != ""
  {
    match kind
    case QuickEmpathy => (GenerateEmpatheticResponse(a, roll), Empathy)
    case QuickAdvice => (GenerateAdvice(a, roll), Advice)
    case QuickAnalysis => (AnalysisSummary(a, percent), General)
  }

  class EmotionalChat {
    var messages: seq<Message>
    var input: string
    var isTyping: bool

    constructor(messages: seq<Message>)
      ensures this.messages == messages && input == "" && !isTyping
    {
      this.messages := messages;
      input := "";
      isTyping := false;
    }

    /** sendMessage: a blank message typed by the user is ignored; any other
        message is appended, and a user's one clears the input and starts
        the typing indicator until the reply arrives. */
    method SendMessage(message: string, fromUser: bool)
      modifies this
      ensures fromUser && Trim(message) == "" ==>
        messages == old(messages) && input == old(input) && isTyping == old(isTyping)
      ensures !fromUser || Trim(message) != "" ==>
        messages == old(messages) + [Message(if fromUser then User else Assistant, message, None)]
      ensures fromUser && Trim(message) != "" ==> input == "" && isTyping
      ensures !fromUser ==> input == old(input) && isTyping == old(isTyping)
    {
      if Trim(message) == "" && fromUser {
        return;
      }
      messages := messages + [Message(if fromUser then User else Assistant, message, None)];
      if fromUser {
        input := "";
        isTyping := true;
      }
    }

    /** The delayed half of sendMessage: the reply is appended after
        whatever the list holds by then, and the typing indicator stops. */
    method DeliverReply(analysis: Option<AnalysisResult>, userMessage: string, roll: real)
      requires 0.0 <= roll < 1.0
      modifies this
      ensures var r := GenerateResponse(analysis, userMessage, roll);
        messages == old(messages) + [Message(Assistant, r.0, Some(r.1))]
      ensures input == old(input) && !isTyping
    {
      var r := GenerateResponse(analysis, userMessage, roll);
      messages := messages + [Message(Assistant, r.0, Some(r.1))];
      isTyping := false;
    }

    /** sendQuickResponse: nothing without an analysis, else the canned reply
        of the button is appended. */
    method SendQuickResponse(kind: QuickKind, analysis: Option<AnalysisResult>, roll: real, percent: string)
      requires 0.0 <= roll < 1.0
      modifies this
      ensures analysis.None? ==> messages == old(messages)
      ensures analysis.Some? ==> var r := QuickReply(kind, analysis.value, roll, percent);
        messages == old(messages) + [Message(Assistant, r.0, Some(r.1))]
      ensures input == old(input) && isTyping == old(isTyping)
    {
      if analysis.None? {
        return;
      }
      var r := QuickReply(kind, analysis.value, roll, percent);
      messages := messages + [Message(Assistant, r.0, Some(r.1))];
    }
  }
}
