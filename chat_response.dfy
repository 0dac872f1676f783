/** The reply-side logic of app/api/chat/route.ts: how the last message is
    classified as a minimal response, which sections the system prompt is
    made of, and which canned reply the offline fallback picks. */
module ChatResponse {
  import opened TextMatch
  import opened EmotionalMath
  import opened PersonalContexts
  import opened ChatExtraction
  import opened ChatTrends

  // ---------------------------------------------------------------------
  // analyzeResponseType
  // ---------------------------------------------------------------------

  datatype ResponseKind = Dismissive | Acknowledgment | Uncertain | Normal

  datatype ResponseType = ResponseType(isMinimal: bool, kind: ResponseKind, originalMessage: string)

  const MinimalResponses: seq<string> := [
    "ok", "okay", "k", "mhm", "mm", "mmm", "yeah", "yep", "yes", "no", "nah", "sure", "fine",
    "whatever", "idk", "i don't know", "maybe", "i guess", "uh huh", "uh-huh", "right", "true",
    "exactly", "yup", "nope"]

  const DismissiveWords: seq<string> := ["ok", "okay", "k", "fine", "whatever"]
  const AcknowledgmentWords: seq<string> := ["mhm", "mm", "uh huh", "yeah"]
  const UncertainWords: seq<string> := ["idk", "i don't know", "maybe", "i guess"]

  /** The last message, lower-cased and trimmed; "" when there is none. */
  function LastMessageText(messages: seq<Message>): string {
    if messages == [] then "" else Trim(LowerStr(messages[|messages| - 1].content))
  }

  /** The category of a minimal reply, tried in the order of the source. */
  function KindOf(last: string): ResponseKind {
    if last in DismissiveWords then Dismissive
    else if last in AcknowledgmentWords then Acknowledgment
    else if last in UncertainWords then Uncertain
    else Normal
  }

  function AnalyzeResponseType(messages: seq<Message>): (rt: ResponseType)
    ensures messages == [] ==> !rt.isMinimal && rt.kind == Normal
    ensures rt.kind != Normal ==> rt.isMinimal
    ensures messages != [] ==> rt.originalMessage == LastMessageText(messages)
  {
    if messages == [] then ResponseType(false, Normal, "")
    else
      var last := LastMessageText(messages);
      var isMinimal := last in MinimalResponses || Utf16Length(last) <= 3;
      ResponseType(isMinimal, if isMinimal then KindOf(last) else Normal, last)
  }

  /** Every category word is itself a minimal response, so the category is
      decided by the last message alone. */
  lemma CategoryWordsAreMinimal()
    ensures forall w :: w in DismissiveWords ==> w in MinimalResponses
    ensures forall w :: w in AcknowledgmentWords ==> w in MinimalResponses
    ensures forall w :: w in UncertainWords ==> w in MinimalResponses
  {
  }

  /** The classification in terms of the trimmed, lower-cased last message:
      minimal iff a listed token or at most three UTF-16 code units long, and each
      category iff the message is one of its words. */
  lemma ResponseTypeCases(messages: seq<Message>)
    requires messages != []
    ensures var rt, last := AnalyzeResponseType(messages), LastMessageText(messages);
      && (rt.isMinimal <==> last in MinimalResponses || Utf16Length(last) <= 3)
      && (rt.kind == Dismissive <==> last in DismissiveWords)
      && (rt.kind == Acknowledgment <==> last in AcknowledgmentWords && last !in DismissiveWords)
      && (rt.kind == Uncertain <==> last in UncertainWords && last !in DismissiveWords && last !in AcknowledgmentWords)
  {
    CategoryWordsAreMinimal();
  }

  /** Two emoji make a message of four UTF-16 code units, which is not
      minimal although it is only two characters. */
  lemma EmojiPairIsNotMinimal(messages: seq<Message>)
    requires messages != [] && LastMessageText(messages) == "\U{1F622}\U{1F622}"
    ensures !AnalyzeResponseType(messages).isMinimal
    ensures AnalyzeResponseType(messages).kind == Normal
  {
    TwoEmojiAreFourUnits();
    MinimalResponsesStartWithALetter();
    var last := LastMessageText(messages);
    assert !IsLower(last[0]);
  }

  /** Every listed minimal response begins with a lower-case letter. */
  lemma MinimalResponsesStartWithALetter()
    ensures forall w :: w in MinimalResponses ==> |w| > 0 && IsLower(w[0])
  {
    forall i | 0 <= i < |MinimalResponses|
      ensures |MinimalResponses[i]| > 0 && IsLower(MinimalResponses[i][0])
    {
    }
  }

  /** A minimal token outside the three category lists, such as "yes",
      is minimal but stays "normal". */
  lemma YesIsMinimalButNormal(messages: seq<Message>)
    requires messages != [] && LastMessageText(messages) == "yes"
    ensures AnalyzeResponseType(messages).isMinimal
    ensures AnalyzeResponseType(messages).kind == Normal
  {
    YesIsUncategorised("yes");
  }

  lemma YesIsUncategorised(last: string)
    requires last == "yes"
    ensures last in MinimalResponses && KindOf(last) == Normal
  {
    assert MinimalResponses[8] == "yes";
  }

  // ---------------------------------------------------------------------
  // buildSystemPrompt: the sections the prompt is made of, in order
  // ---------------------------------------------------------------------

  datatype PersonalLine =
    | NameLine(name: string)
    | JobLine(job: string)
    | RelationshipsLine(relationships: seq<string>)
    | InterestsLine(interests: seq<string>)

  datatype Section =
    | Header
    | PersonalSection(lines: seq<PersonalLine>)
    | EmotionalState(emotions: Emotions)
    | CrisisIndicators(critical: seq<string>)
    | TrendsSection(insights: seq<Insight>)
    | MinimalSection(originalMessage: string, kind: ResponseKind)
    | CrisisMode
    | Guidelines

  /** Where each kind of section stands in the prompt. */
  function SectionRank(s: Section): nat {
    match s
    case Header => 0
    case PersonalSection(_) => 1
    case EmotionalState(_) => 2
    case CrisisIndicators(_) => 3
    case TrendsSection(_) => 4
    case MinimalSection(_, _) => 5
    case CrisisMode => 6
    case Guidelines => 7
  }

  /** The lines of the personal section: each field only when set. */
  function PersonalLines(info: PersonalContext): (lines: seq<PersonalLine>)
    ensures |lines| <= 4
  {
    (if info.name != "" then [NameLine(info.name)] else [])
    + (if info.job != "" then [JobLine(info.job)] else [])
    + (if info.relationships != [] then [RelationshipsLine(info.relationships)] else [])
    + (if info.interests != [] then [InterestsLine(info.interests)] else [])
  }

  /** The keys, in record order, of the negative emotions at 8 or more
      (joy and surprise are never listed). */
  function CriticalEmotions(e: Emotions): (names: seq<string>)
    ensures |names| <= 4
    ensures forall k :: k in names ==> k in ["sadness", "anger", "fear", "disgust"]
  {
    (if e.sadness >= 8.0 then ["sadness"] else [])
    + (if e.anger >= 8.0 then ["anger"] else [])
    + (if e.fear >= 8.0 then ["fear"] else [])
    + (if e.disgust >= 8.0 then ["disgust"] else [])
  }

  lemma CriticalEmotionsIff(e: Emotions)
    ensures CriticalEmotions(e) != [] <==> SomeNegativeAtLeast(e, 8.0)
  {
  }

  /** What buildSystemPrompt is given: the emotion record (if any), the
      trend insights, the merged personal context with its flag, the
      response type and the crisis flag. */
  datatype PromptRequest = PromptRequest(
    emotionData: Option<Emotions>,
    insights: seq<Insight>,
    info: PersonalContext,
    hasPersonalInfo: bool,
    responseType: ResponseType,
    isInCrisisMode: bool)

  /** The section of rank `r`, when the request calls for it. */
  function Slot(q: PromptRequest, r: nat): (p: seq<Section>)
    ensures |p| <= 1
    ensures forall s :: s in p ==> SectionRank(s) == r
  {
    match r
    case 0 => [Header]
    case 1 => if q.hasPersonalInfo then [PersonalSection(PersonalLines(q.info))] else []
    case 2 => if q.emotionData.Some? then [EmotionalState(q.emotionData.value)] else []
    case 3 =>
      if q.emotionData.Some? && CriticalEmotions(q.emotionData.value) != []
      then [CrisisIndicators(CriticalEmotions(q.emotionData.value))] else []
    case 4 => if q.insights != [] then [TrendsSection(q.insights)] else []
    case 5 =>
      if q.responseType.isMinimal
      then [MinimalSection(q.responseType.originalMessage, q.responseType.kind)] else []
    case 6 => if q.isInCrisisMode then [CrisisMode] else []
    case 7 => [Guidelines]
    case _ => []
  }

  /** The sections of rank below `n`, in rank order. */
  function Upto(q: PromptRequest, n: nat): seq<Section> {
    if n == 0 then [] else Upto(q, n - 1) + Slot(q, n - 1)
  }

  /** The prompt's sections for the given request. */
  function SystemPrompt(q: PromptRequest): seq<Section> {
    Upto(q, 8)
  }

  /** The prompt has a section of the given rank. */
  predicate Has(p: seq<Section>, rank: nat) {
    exists s :: s in p && SectionRank(s) == rank
  }

  /** The sections below `n` come in strictly increasing rank, all below `n`. */
  lemma {:induction false} UptoOrdered(q: PromptRequest, n: nat)
    ensures forall s :: s in Upto(q, n) ==> SectionRank(s) < n
    ensures forall i, j :: 0 <= i < j < |Upto(q, n)| ==> SectionRank(Upto(q, n)[i]) < SectionRank(Upto(q, n)[j])
  {
    if n > 0 {
      UptoOrdered(q, n - 1);
      var p, a, b := Upto(q, n), Upto(q, n - 1), Slot(q, n - 1);
      assert p == a + b;
      forall s | s in p ensures SectionRank(s) < n {
        assert s in a || s in b;
      }
      forall i, j | 0 <= i < j < |p| ensures SectionRank(p[i]) < SectionRank(p[j]) {
        if j < |a| {
          assert p[i] == a[i] && p[j] == a[j];
          assert SectionRank(a[i]) < SectionRank(a[j]);
        } else {
          assert p[j] == b[j - |a|] && p[j] in b;
          assert i < |a|;
          assert p[i] == a[i] && p[i] in a;
          assert SectionRank(p[i]) < n - 1;
          assert SectionRank(p[j]) == n - 1;
        }
      }
    }
  }

  /** A rank below `n` is present exactly when its slot is filled. */
  lemma {:induction false} UptoHas(q: PromptRequest, n: nat, rank: nat)
    ensures Has(Upto(q, n), rank) <==> rank < n && Slot(q, rank) != []
  {
    if n > 0 {
      UptoHas(q, n - 1, rank);
      HasAppend(Upto(q, n - 1), Slot(q, n - 1), rank);
      SlotHas(q, n - 1, rank);
    }
  }

  lemma HasAppend(a: seq<Section>, b: seq<Section>, rank: nat)
    ensures Has(a + b, rank) <==> Has(a, rank) || Has(b, rank)
  {
    if Has(a + b, rank) {
      var s :| s in a + b && SectionRank(s) == rank;
      assert s in a || s in b;
    }
    if Has(a, rank) {
      var s :| s in a && SectionRank(s) == rank;
      assert s in a + b;
    }
    if Has(b, rank) {
      var s :| s in b && SectionRank(s) == rank;
      assert s in a + b;
    }
  }

  lemma SlotHas(q: PromptRequest, k: nat, rank: nat)
    ensures Has(Slot(q, k), rank) <==> rank == k && Slot(q, k) != []
  {
    var p := Slot(q, k);
    if rank == k && p != [] {
      assert p[0] in p;
    }
  }

  /** The sections come in the fixed order header, personal, emotional
      state, crisis indicators, trends, minimal response, crisis mode,
      guidelines: each at most once, the header first and the guidelines
      last. */
  lemma SystemPromptOrder(q: PromptRequest)
    ensures var p := SystemPrompt(q);
      && forall i, j :: 0 <= i < j < |p| ==> SectionRank(p[i]) < SectionRank(p[j])
    ensures Has(SystemPrompt(q), 0) && Has(SystemPrompt(q), 7)
  {
    UptoOrdered(q, 8);
    UptoHas(q, 8, 0);
    UptoHas(q, 8, 7);
  }

  /** Each optional section appears exactly when its condition holds. */
  lemma SystemPromptSections(q: PromptRequest)
    ensures var p := SystemPrompt(q);
      && (Has(p, 1) <==> q.hasPersonalInfo)
      && (Has(p, 2) <==> q.emotionData.Some?)
      && (Has(p, 3) <==> q.emotionData.Some? && SomeNegativeAtLeast(q.emotionData.value, 8.0))
      && (Has(p, 4) <==> q.insights != [])
      && (Has(p, 5) <==> q.responseType.isMinimal)
      && (Has(p, 6) <==> q.isInCrisisMode)
  {
    UptoHas(q, 8, 1);
    UptoHas(q, 8, 2);
    UptoHas(q, 8, 3);
    UptoHas(q, 8, 4);
    UptoHas(q, 8, 5);
    UptoHas(q, 8, 6);
    if q.emotionData.Some? {
      CriticalEmotionsIff(q.emotionData.value);
    }
  }

  /** The personal-context lines, appended one field at a time. */
  method CollectPersonalLines(info: PersonalContext) returns (lines: seq<PersonalLine>)
    ensures lines == PersonalLines(info)
  {
    lines := [];
    if info.name != "" {
      lines := lines + [NameLine(info.name)];
    }
    if info.job != "" {
      lines := lines + [JobLine(info.job)];
    }
    if info.relationships != [] {
      lines := lines + [RelationshipsLine(info.relationships)];
    }
    if info.interests != [] {
      lines := lines + [InterestsLine(info.interests)];
    }
  }

  /** buildSystemPrompt: grows the prompt one section at a time. */
  method BuildSystemPrompt(q: PromptRequest) returns (prompt: seq<Section>)
    ensures prompt == SystemPrompt(q)
  {
    prompt := [Header];
    assert prompt == Upto(q, 1);
    if q.hasPersonalInfo {
      var lines := CollectPersonalLines(q.info);
      prompt := prompt + [PersonalSection(lines)];
    }
    assert prompt == Upto(q, 2);
    if q.emotionData.Some? {
      prompt := prompt + [EmotionalState(q.emotionData.value)];
      assert prompt == Upto(q, 3);
      var critical := CriticalEmotions(q.emotionData.value);
      if critical != [] {
        prompt := prompt + [CrisisIndicators(critical)];
      }
    } else {
      assert Upto(q, 3) == Upto(q, 2);
    }
    assert prompt == Upto(q, 4);
    if q.insights != [] {
      prompt := prompt + [TrendsSection(q.insights)];
    }
    assert prompt == Upto(q, 5);
    if q.responseType.isMinimal {
      prompt := prompt + [MinimalSection(q.responseType.originalMessage, q.responseType.kind)];
    }
    assert prompt == Upto(q, 6);
    if q.isInCrisisMode {
      prompt := prompt + [CrisisMode];
    }
    assert prompt == Upto(q, 7);
    prompt := prompt + [Guidelines];
  }

  // ---------------------------------------------------------------------
  // generateFallbackResponse: which canned reply is chosen
  // ---------------------------------------------------------------------

  /** The reply chosen, as the table it comes from and the index drawn. */
  datatype Reply =
    | CrisisReply(index: nat)
    | MinimalReply(kind: ResponseKind)
    | EmotionReply(emotion: string, index: nat)
    | PersonalReply(name: string, index: nat)
    | GeneralReply(index: nat)

  const CrisisReplies: nat := 3
  const EmotionReplies: nat := 3
  const PersonalReplies: nat := 3
  const GeneralReplies: nat := 5

  /** Math.floor(roll * n), for a roll drawn from [0, 1). */
  function Pick(roll: real, n: nat): (i: nat)
    requires 0.0 <= roll < 1.0 && n > 0
    ensures i < n
  {
    var x := roll * (n as real);
    assert x < n as real;
    x.Floor
  }

  /** The key `Object.entries(...).reduce` keeps: an entry replaces the one
      held unless the one held is strictly greater, so a tie goes to the
      later key. */
  function LastMaxIndex(vs: seq<real>): (k: nat)
    requires vs != []
    ensures k < |vs|
  {
    if |vs| == 1 then 0
    else
      var k := LastMaxIndex(vs[..|vs| - 1]);
      if vs[k] > vs[|vs| - 1] then k else |vs| - 1
  }

  /** The kept key holds a maximum, and every later key holds less. */
  lemma {:induction false} LastMaxIndexIsLastMax(vs: seq<real>)
    requires vs != []
    ensures forall j :: 0 <= j < |vs| ==> vs[j] <= vs[LastMaxIndex(vs)]
    ensures forall j :: LastMaxIndex(vs) < j < |vs| ==> vs[j] < vs[LastMaxIndex(vs)]
  {
    if |vs| > 1 {
      var init := vs[..|vs| - 1];
      LastMaxIndexIsLastMax(init);
      assert forall j :: 0 <= j < |init| ==> init[j] == vs[j];
    }
  }

  /** The emotion key the fallback treats as dominant. */
  function FallbackDominant(e: Emotions): (key: string)
    ensures key in EmotionKeys
  {
    EmotionKeys[LastMaxIndex(Intensities(e))]
  }

  /** The emotion branch: joy at 6 or more, sadness, anger or fear at 5 or
      more, provided that emotion is the dominant one. */
  predicate EmotionBranch(e: Emotions) {
    var key := FallbackDominant(e);
    var level := Intensities(e)[LastMaxIndex(Intensities(e))];
    (key == "joy" && level >= 6.0)
    || (key in ["sadness", "anger", "fear"] && level >= 5.0)
  }

  /** The crisis branch: the flag, or sadness, anger or fear at 8 or more;
      disgust does not count here. */
  predicate FallbackCrisis(emotionData: Option<Emotions>, isInCrisisMode: bool) {
    isInCrisisMode
    || (emotionData.Some? && (emotionData.value.sadness >= 8.0 || emotionData.value.anger >= 8.0
                              || emotionData.value.fear >= 8.0))
  }

  function GenerateFallbackResponse(messages: seq<Message>, emotionData: Option<Emotions>,
                                    existing: PersonalContext, isInCrisisMode: bool, roll: real): (r: Reply)
    requires 0.0 <= roll < 1.0
    ensures r.CrisisReply? ==> r.index < CrisisReplies
    ensures r.EmotionReply? ==> r.index < EmotionReplies
    ensures r.PersonalReply? ==> r.index < PersonalReplies && r.name != ""
    ensures r.GeneralReply? ==> r.index < GeneralReplies
    ensures r.MinimalReply? ==> r.kind != Normal
  {
    ChooseReply(FallbackCrisis(emotionData, isInCrisisMode), AnalyzeResponseType(messages),
                EmotionChoice(emotionData), Extracted(messages, existing).0.name, roll)
  }

  /** The emotion the emotion branch speaks for, when it applies. */
  function EmotionChoice(emotionData: Option<Emotions>): (c: Option<string>)
    ensures c.Some? <==> emotionData.Some? && EmotionBranch(emotionData.value)
    ensures c.Some? ==> c.value == FallbackDominant(emotionData.value)
  {
    if emotionData.Some? && EmotionBranch(emotionData.value) then Some(FallbackDominant(emotionData.value))
    else None
  }

  /** The if-chain of generateFallbackResponse over the conditions it tests,
      in order: crisis, minimal message, emotion branch, known name. */
  function ChooseReply(crisis: bool, rt: ResponseType, emotion: Option<string>, name: string, roll: real): (r: Reply)
    requires 0.0 <= roll < 1.0
    ensures r.CrisisReply? ==> r.index < CrisisReplies
    ensures r.EmotionReply? ==> r.index < EmotionReplies
    ensures r.PersonalReply? ==> r.index < PersonalReplies && r.name != ""
    ensures r.GeneralReply? ==> r.index < GeneralReplies
    ensures r.MinimalReply? ==> r.kind != Normal
  {
    if crisis then CrisisReply(Pick(roll, CrisisReplies))
    else if rt.isMinimal && rt.kind != Normal then MinimalReply(rt.kind)
    else if emotion.Some? then EmotionReply(emotion.value, Pick(roll, EmotionReplies))
    else if name != "" then PersonalReply(name, Pick(roll, PersonalReplies))
    else GeneralReply(Pick(roll, GeneralReplies))
  }

  /** Each reply kind of the chain is chosen exactly when its own condition
      holds and no earlier one does. */
  lemma ChoosePriority(crisis: bool, rt: ResponseType, emotion: Option<string>, name: string, roll: real)
    requires 0.0 <= roll < 1.0
    requires rt.kind != Normal ==> rt.isMinimal
    ensures var r := ChooseReply(crisis, rt, emotion, name, roll);
      var minimal := rt.kind != Normal;
      && (r.CrisisReply? <==> crisis)
      && (r.MinimalReply? <==> !crisis && minimal)
      && (r.EmotionReply? <==> !crisis && !minimal && emotion.Some?)
      && (r.EmotionReply? ==> r.emotion == emotion.value)
      && (r.PersonalReply? <==> !crisis && !minimal && emotion.None? && name != "")
      && (r.GeneralReply? <==> !crisis && !minimal && emotion.None? && name == "")
  {
  }

  /** The branches are taken in priority order: each reply kind is chosen
      exactly when its own condition holds and no earlier one does. */
  lemma FallbackPriority(messages: seq<Message>, emotionData: Option<Emotions>,
                         existing: PersonalContext, isInCrisisMode: bool, roll: real)
    requires 0.0 <= roll < 1.0
    ensures var r := GenerateFallbackResponse(messages, emotionData, existing, isInCrisisMode, roll);
      var rt := AnalyzeResponseType(messages);
      var crisis := FallbackCrisis(emotionData, isInCrisisMode);
      var minimal := rt.kind != Normal;
      var emotional := emotionData.Some? && EmotionBranch(emotionData.value);
      var named := Extracted(messages, existing).0.name != "";
      && (r.CrisisReply? <==> crisis)
      && (r.MinimalReply? <==> !crisis && minimal)
      && (r.EmotionReply? <==> !crisis && !minimal && emotional)
      && (r.PersonalReply? <==> !crisis && !minimal && !emotional && named)
      && (r.GeneralReply? <==> !crisis && !minimal && !emotional && !named)
  {
    ChoosePriority(FallbackCrisis(emotionData, isInCrisisMode), AnalyzeResponseType(messages),
                   EmotionChoice(emotionData), Extracted(messages, existing).0.name, roll);
  }

  /** An emotion reply speaks for an emotion at least as strong as every
      other one, with no stronger-or-equal emotion after it in key order,
      and never for surprise or disgust. */
  lemma EmotionReplyIsDominant(messages: seq<Message>, e: Emotions,
                               existing: PersonalContext, isInCrisisMode: bool, roll: real)
    requires 0.0 <= roll < 1.0
    requires GenerateFallbackResponse(messages, Some(e), existing, isInCrisisMode, roll).EmotionReply?
    ensures var key := GenerateFallbackResponse(messages, Some(e), existing, isInCrisisMode, roll).emotion;
      var k := KeyRank(key);
      && key in ["joy", "sadness", "anger", "fear"]
      && k < 6
      && (forall j :: 0 <= j < 6 ==> Intensities(e)[j] <= Intensities(e)[k])
      && (forall j :: k < j < 6 ==> Intensities(e)[j] < Intensities(e)[k])
  {
    ChoosePriority(FallbackCrisis(Some(e), isInCrisisMode), AnalyzeResponseType(messages),
                   EmotionChoice(Some(e)), Extracted(messages, existing).0.name, roll);
    EmotionBranchIsDominant(e);
  }

  lemma EmotionBranchIsDominant(e: Emotions)
    requires EmotionBranch(e)
    ensures var key := FallbackDominant(e);
      var k := KeyRank(key);
      && key in ["joy", "sadness", "anger", "fear"]
      && k < 6
      && (forall j :: 0 <= j < 6 ==> Intensities(e)[j] <= Intensities(e)[k])
      && (forall j :: k < j < 6 ==> Intensities(e)[j] < Intensities(e)[k])
  {
    var vs := Intensities(e);
    LastMaxIndexIsLastMax(vs);
    var i := LastMaxIndex(vs);
    assert KeyRank(EmotionKeys[i]) == i;
  }

  /** Disgust alone, however strong, does not trigger the crisis reply. */
  lemma DisgustIsNoFallbackCrisis(e: Emotions)
    requires e.sadness < 8.0 && e.anger < 8.0 && e.fear < 8.0
    ensures !FallbackCrisis(Some(e), false)
  {
  }
}
