/** lib/chatbot-responses.ts: the canned replies of the in-page chatbot.
    The empathetic reply and the advice pick one of two sentences for the
    dominant emotion with `Math.random()`; the random draw is a parameter
    `roll` in [0, 1). */
module ChatbotResponses {
  import opened TextMatch
  import opened EmotionalMath
  import opened EmotionAnalysis

  /** `Math.floor(roll * n)`: an index into a list of `n` entries. */
  function RandomIndex(roll: real, n: nat): (i: nat)
    requires 0.0 <= roll < 1.0 && n >= 1
    ensures i < n
  {
    var x := roll * n as real;
    ScaledBelow(roll, n as real);
    FloorBelow(x, n);
    x.Floor
  }

  lemma FloorBelow(x: real, n: nat)
    requires 0.0 <= x < n as real
    ensures 0 <= x.Floor < n
  {
    assert x.Floor as real <= x;
  }

  lemma ScaledBelow(roll: real, n: real)
    requires 0.0 <= roll < 1.0 && n >= 1.0
    ensures 0.0 <= roll * n < n
  {
    assert n - roll * n == (1.0 - roll) * n;
    assert (1.0 - roll) * n > 0.0;
  }

  /** The position of `x` in `xs`. */
  function IndexOf<T(==)>(xs: seq<T>, x: T): (i: nat)
    requires x in xs
    ensures i < |xs| && xs[i] == x
  {
    if xs[0] == x then 0 else 1 + IndexOf(xs[1..], x)
  }

  /** The keys of both stability tables: the three classifications. */
  const Classifications: seq<string> := ["Stable", "Unstable", "Volatile"]

  // ------------------------------------------------------------ empathy

  const EmpathyFallback: string :=
    "I can sense the complexity of your emotional state right now. Every feeling you're experiencing is valid and important."

  /** `empathyResponses`: sentence `j` of the label `Labels[k]`. */
  function EmpathyText(k: nat, j: nat): string {
    if k == 0 && j == 0 then
      "I can sense the joy radiating from your emotional state! It's wonderful to see you experiencing such positive energy. This brightness you're feeling is a beautiful part of the human experience."
    else if k == 0 && j == 1 then
      "Your joy is truly uplifting! The mathematical analysis shows this positive emotion is dominant in your emotional landscape right now. Embrace this feeling - it's a gift."
    else if k == 1 && j == 0 then
      "I can feel the weight of sadness in your emotional profile. It's completely natural to experience these deeper emotions - they're part of what makes us human. You're not alone in feeling this way."
    else if k == 1 && j == 1 then
      "The sadness you're experiencing is valid and important. Sometimes our hearts need to process difficult feelings. Be gentle with yourself during this time."
    else if k == 2 && j == 0 then
      "I can sense the intensity of anger in your emotional state. These feelings are completely valid - anger often signals that something important to you needs attention. It's okay to feel this way."
    else if k == 2 && j == 1 then
      "Your anger is coming through clearly in the analysis. This emotion, while intense, can be a powerful signal that boundaries have been crossed or values challenged. You have every right to feel this."
    else if k == 3 && j == 0 then
      "I can detect the fear present in your emotional landscape. Fear can feel overwhelming, but it's also your mind's way of trying to protect you. You're brave for acknowledging these feelings."
    else if k == 3 && j == 1 then
      "The fear you're experiencing is showing up strongly in your emotional geometry. Remember that feeling afraid doesn't make you weak - it makes you human. You have the strength to work through this."
    else if k == 4 && j == 0 then
      "I can sense the element of surprise in your emotional state! Life has a way of catching us off guard, doesn't it? This unexpected feeling can be both exciting and unsettling."
    else if k == 4 && j == 1 then
      "The surprise in your emotional profile suggests you're processing something unexpected. These moments of surprise often lead to growth and new perspectives."
    else if k == 5 && j == 0 then
      "I can feel the disgust present in your emotional analysis. This emotion often arises when our values or boundaries are violated. It's your inner compass telling you something isn't right."
    else if k == 5 && j == 1 then
      "The disgust you're experiencing is a protective emotion - it helps you identify what doesn't align with your values. Trust this feeling; it's guiding you toward what feels authentic."
    else ""
  }

  /** `empathyResponses[dominantEmotion] || [fallback]`: the two sentences
      of a label, the single fallback sentence for any other name. */
  function EmpathyResponses(dominantEmotion: string): (rs: seq<string>)
    ensures dominantEmotion in Labels ==> |rs| == 2
    ensures dominantEmotion !in Labels ==> rs == [EmpathyFallback]
  {
    if dominantEmotion in Labels then
      var k := IndexOf(Labels, dominantEmotion);
      [EmpathyText(k, 0), EmpathyText(k, 1)]
    else [EmpathyFallback]
  }

  /** `stabilityComments`: the comment for `Classifications[k]`. */
  function CommentText(k: nat): string
    requires k < 3
  {
    if k == 0 then
      "Your emotional stability is quite good right now, which gives you a solid foundation to work from."
    else if k == 1 then
      "I notice some emotional fluctuation in your state. This is completely normal - emotions naturally ebb and flow."
    else
      "Your emotions are quite intense right now. During times like these, it's especially important to be patient and kind with yourself."
  }

  /** `stabilityComments[classification]`: no comment for a classification
      outside the table. */
  function StabilityComment(classification: string): (c: Option<string>)
    ensures c.None? <==> classification !in Classifications
  {
    if classification in Classifications then Some(CommentText(IndexOf(Classifications, classification)))
    else None
  }

  /** A template literal interpolates a missing value as "undefined". */
  function Interpolate(v: Option<string>): string {
    if v.Some? then v.value else "undefined"
  }

  const SupportEnding: string := " Remember, I'm here to support you through whatever you're feeling."

  /** generateEmpatheticResponse: one of the dominant emotion's sentences,
      the stability comment, then the closing promise of support. */
  function GenerateEmpatheticResponse(a: AnalysisResult, roll: real): (r: string)
    requires 0.0 <= roll < 1.0
    ensures exists x :: (x in EmpathyResponses(a.dominantEmotion)
      && r == x + " " + Interpolate(StabilityComment(a.classification)) + SupportEnding)
  {
    var responses := EmpathyResponses(a.dominantEmotion);
    var x := responses[RandomIndex(roll, |responses|)];
    assert x in responses;
    x + " " + Interpolate(StabilityComment(a.classification)) + SupportEnding
  }

  /** For an analysis both replies speak to its dominant emotion (never the
      fallback sentences) and carry a real stability comment and guidance,
      so "undefined" never shows. */
  lemma RepliesForAnalysis(e: Emotions, b: Biometrics, roll: real)
    requires 0.0 <= roll < 1.0
    ensures var a := AnalyzeEmotions(e, b);
      && EmpathyResponses(a.dominantEmotion) != [EmpathyFallback]
      && StabilityComment(a.classification).Some?
      && EmotionAdvice(a.dominantEmotion, roll) in AdviceFor(a.dominantEmotion)
      && StabilityGuidance(a.classification).Some?
  {
    var a := AnalyzeEmotions(e, b);
    RepliesForLabel(a.dominantEmotion, a.classification, roll);
  }

  /** Both replies are real for a known label and classification. */
  lemma RepliesForLabel(dominant: string, classification: string, roll: real)
    requires 0.0 <= roll < 1.0
    requires dominant in Labels && classification in Classifications
    ensures EmpathyResponses(dominant) != [EmpathyFallback]
    ensures StabilityComment(classification).Some? && StabilityGuidance(classification).Some?
    ensures EmotionAdvice(dominant, roll) in AdviceFor(dominant)
  {
    assert |EmpathyResponses(dominant)| == 2;
  }

  // ------------------------------------------------------------- advice

  const AdviceFallback: string :=
    "Focus on self-compassion and gentle self-care as you navigate your current emotional state."

  /** `adviceMap`: advice `j` for the label `Labels[k]`. */
  function AdviceText(k: nat, j: nat): string {
    if k == 0 && j == 0 then
      "Since joy is your dominant emotion, this is a wonderful time to share your positive energy with others or engage in activities that amplify this feeling. Consider expressing gratitude, spending time with loved ones, or pursuing creative endeavors."
    else if k == 0 && j == 1 then
      "Your joyful state is a gift! Use this positive energy to tackle challenges you've been putting off, or to strengthen relationships. Joy is contagious - spread it around!"
    else if k == 1 && j == 0 then
      "When sadness is prominent, it's important to honor these feelings rather than push them away. Consider gentle activities like journaling, listening to music, or talking with a trusted friend. Sometimes sadness needs to be felt to be healed."
    else if k == 1 && j == 1 then
      "Allow yourself to process this sadness fully. Engage in self-care activities like taking a warm bath, going for a quiet walk in nature, or practicing mindfulness. Reach out to supportive people in your life."
    else if k == 2 && j == 0 then
      "Channel your anger constructively by identifying what triggered it and what needs to change. Physical exercise, deep breathing, or writing about your feelings can help process this intensity. Consider what boundaries might need to be set."
    else if k == 2 && j == 1 then
      "Use this anger as fuel for positive change. Try vigorous exercise, creative expression, or advocacy for causes you care about. The key is transforming this energy into something productive rather than destructive."
    else if k == 3 && j == 0 then
      "When fear is dominant, grounding techniques can be very helpful. Try the 5-4-3-2-1 method: name 5 things you can see, 4 you can touch, 3 you can hear, 2 you can smell, and 1 you can taste. Break overwhelming situations into smaller, manageable steps."
    else if k == 3 && j == 1 then
      "Address fear by gathering information about what's worrying you and creating a plan. Practice relaxation techniques like deep breathing or progressive muscle relaxation. Remember that courage isn't the absence of fear - it's acting despite it."
    else if k == 4 && j == 0 then
      "Surprise can be disorienting, so give yourself time to process unexpected changes. Reflect on what this surprise might teach you or how it might open new opportunities. Stay curious rather than immediately judging the situation."
    else if k == 4 && j == 1 then
      "Use this surprise as a chance to practice adaptability. Take some time to sit with the unexpected feelings, then consider how you might embrace or learn from this new situation."
    else if k == 5 && j == 0 then
      "When disgust is prominent, it's often signaling a values conflict. Reflect on what specifically is triggering this feeling and consider what changes might align better with your authentic self. This emotion can guide you toward better choices."
    else if k == 5 && j == 1 then
      "Trust your disgust as a moral compass. It might be time to distance yourself from situations or people that don't align with your values. Focus on surrounding yourself with what feels authentic and positive."
    else ""
  }

  /** `adviceMap[dominantEmotion]?.[Math.floor(roll * 2)] || fallback`:
      every label has two entries, so the fallback is used exactly for a
      name that is not a label. */
  function EmotionAdvice(dominantEmotion: string, roll: real): (s: string)
    requires 0.0 <= roll < 1.0
    ensures dominantEmotion in Labels ==> s in AdviceFor(dominantEmotion)
    ensures dominantEmotion !in Labels ==> s == AdviceFallback
  {
    var advice := AdviceFor(dominantEmotion);
    if |advice| == 2 then advice[RandomIndex(roll, 2)] else AdviceFallback
  }

  /** `adviceMap[dominantEmotion]`: two entries for a label, none otherwise. */
  function AdviceFor(dominantEmotion: string): (rs: seq<string>)
    ensures dominantEmotion in Labels ==> |rs| == 2
    ensures dominantEmotion !in Labels ==> rs == []
  {
    if dominantEmotion in Labels then
      var k := IndexOf(Labels, dominantEmotion);
      [AdviceText(k, 0), AdviceText(k, 1)]
    else []
  }

  /** `stabilityAdvice`: the guidance for `Classifications[k]`. */
  function GuideText(k: nat): string
    requires k < 3
  {
    if k == 0 then
      "Your emotional stability gives you a great foundation. This is an excellent time to work on personal goals or help others who might be struggling."
    else if k == 1 then
      "With some emotional fluctuation present, focus on grounding activities like meditation, regular sleep, and maintaining routines. Small, consistent self-care practices can help stabilize your emotional state."
    else
      "During emotionally volatile times, prioritize basic self-care: adequate sleep, nutrition, and gentle movement. Consider limiting major decisions until you feel more centered. Professional support might also be beneficial."
  }

  /** `stabilityAdvice[classification]`; none outside the table. */
  function StabilityGuidance(classification: string): (g: Option<string>)
    ensures g.None? <==> classification !in Classifications
  {
    if classification in Classifications then Some(GuideText(IndexOf(Classifications, classification)))
    else None
  }

  const BiometricLead: string := " Your biometric indicators suggest "
  const BiometricTail: string :=
    ". Consider stress-reduction techniques like deep breathing, meditation, or gentle exercise."

  /** The biometric sentence: present exactly when there are flags, naming
      them joined by ", " in lower case. */
  function BiometricAdvice(flags: seq<string>): (s: string)
    ensures s == "" <==> flags == []
    ensures flags != [] ==> s == BiometricLead + LowerStr(Join(flags, ", ")) + BiometricTail
  {
    if |flags| > 0 then BiometricLead + LowerStr(Join(flags, ", ")) + BiometricTail else ""
  }

  /** Every flag is named, lower-cased, in the biometric sentence. */
  lemma BiometricAdviceNamesEveryFlag(flags: seq<string>, i: nat)
    requires i < |flags|
    ensures Contains(BiometricAdvice(flags), LowerStr(flags[i]))
  {
    var joined := Join(flags, ", ");
    JoinContains(flags, ", ", i);
    var p: nat :| p <= |joined| && OccursAt(joined, p, flags[i]);
    LowerKeepsOccurrence(joined, p, flags[i]);
    ContainsInMiddle(BiometricLead, LowerStr(joined), BiometricTail, p, LowerStr(flags[i]));
  }

  lemma ContainsInMiddle(pre: string, mid: string, post: string, p: nat, lit: string)
    requires OccursAt(mid, p, lit)
    ensures Contains(pre + mid + post, lit)
  {
    var s := pre + mid + post;
    var q := |pre| + p;
    assert s[q..q + |lit|] == mid[p..p + |lit|];
    assert OccursAt(s, q, lit);
  }

  const AdviceEnding: string := " Remember, emotions are temporary - this too shall pass."

  /** generateAdvice: the emotion's advice, the stability guidance, the
      biometric sentence when there are flags, then the closing line. */
  function GenerateAdvice(a: AnalysisResult, roll: real): (r: string)
    requires 0.0 <= roll < 1.0
    ensures var x := EmotionAdvice(a.dominantEmotion, roll);
      |x| < |r| && r[..|x|] == x && r[|x|] == ' '
    ensures |r| >= |AdviceEnding| && r[|r| - |AdviceEnding|..] == AdviceEnding
  {
    var x, g, bio := EmotionAdvice(a.dominantEmotion, roll), Interpolate(StabilityGuidance(a.classification)),
      BiometricAdvice(a.biometricFlags);
    Framed(x, g, bio, AdviceEnding);
    x + " " + g + bio + AdviceEnding
  }

  /** A text made of a head, a space, two middle parts and an ending starts
      with the head and the space and ends with the ending. */
  lemma Framed(x: string, g: string, bio: string, end: string)
    ensures var r := x + " " + g + bio + end;
      && |x| < |r| && r[..|x|] == x && r[|x|] == ' '
      && |r| >= |end| && r[|r| - |end|..] == end
  {
    var r := x + " " + g + bio + end;
    assert r == x + ([' '] + g + bio + end);
    assert r == (x + " " + g + bio) + end;
  }

  lemma OnlyEmptyPartDropsOut(head: string, part: string, tail: string)
    ensures part == [] <==> head + part + tail == head + tail
  {
    if part != [] {
      assert |head + part + tail| > |head + tail|;
    }
  }

  /** With no flags the advice ends on the guidance; with flags every one of
      them is named in it. */
  lemma AdviceMentionsFlags(a: AnalysisResult, roll: real)
    requires 0.0 <= roll < 1.0
    ensures a.biometricFlags == [] <==> (GenerateAdvice(a, roll) ==
      EmotionAdvice(a.dominantEmotion, roll) + " " + Interpolate(StabilityGuidance(a.classification)) + AdviceEnding)
    ensures forall i :: 0 <= i < |a.biometricFlags| ==> Contains(GenerateAdvice(a, roll), LowerStr(a.biometricFlags[i]))
  {
    var x, g, bio := EmotionAdvice(a.dominantEmotion, roll), Interpolate(StabilityGuidance(a.classification)), BiometricAdvice(a.biometricFlags);
    OnlyEmptyPartDropsOut(x + " " + g, bio, AdviceEnding);
    forall i | 0 <= i < |a.biometricFlags|
      ensures Contains(GenerateAdvice(a, roll), LowerStr(a.biometricFlags[i]))
    {
      var lit := LowerStr(a.biometricFlags[i]);
      BiometricAdviceNamesEveryFlag(a.biometricFlags, i);
      var p: nat :| p <= |bio| && OccursAt(bio, p, lit);
      ContainsInMiddle(x + " " + g, bio, AdviceEnding, p, lit);
    }
  }
}
