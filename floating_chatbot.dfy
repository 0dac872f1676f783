/** The floating chat widget of components/floating-chatbot.tsx: the capped
    emotion history it keeps, the crisis-mode switch, what it learns about
    the user from each message it sends, the opening message it writes
    after an analysis and the colour of its frame. */
module FloatingChatbot {
  import opened TextMatch
  import opened EmotionalMath
  import opened PersonalContexts
  import opened ChatTrends
  import opened EmotionAnalysis
  import ChatExtraction
  import ChatResponse

  // ---------------------------------------------------------------------
  // Emotion history
  // ---------------------------------------------------------------------

  /** The emotions as the record the history stores. */
  function EmotionRecord(e: Emotions): (m: map<string, real>)
    ensures forall k :: k in m <==> k in EmotionKeys
  {
    map["joy" := e.joy, "sadness" := e.sadness, "anger" := e.anger,
        "fear" := e.fear, "surprise" := e.surprise, "disgust" := e.disgust]
  }

  /** `[...prev.slice(-9), newTrend]`. */
  function CappedHistory(prev: seq<EmotionTrend>, t: EmotionTrend): (h: seq<EmotionTrend>)
    ensures 1 <= |h| <= 10 && h[|h| - 1] == t
  {
    LastN(prev, 9) + [t]
  }

  /** Appending keeps exactly the ten most recent entries. */
  lemma CappedIsLastTen(prev: seq<EmotionTrend>, t: EmotionTrend)
    ensures CappedHistory(prev, t) == LastN(prev + [t], 10)
  {
    var all := prev + [t];
    if |prev| >= 9 {
      assert all[|all| - 10..] == prev[|prev| - 9..] + [t];
    }
  }

  /** The history after recording each of `ts` in turn. */
  function HistoryAfter(prev: seq<EmotionTrend>, ts: seq<EmotionTrend>): seq<EmotionTrend>
  {
    if ts == [] then prev else CappedHistory(HistoryAfter(prev, ts[..|ts| - 1]), ts[|ts| - 1])
  }

  /** However many analyses are recorded, the history is the last ten of
      everything seen, oldest first. */
  lemma {:induction false} HistoryIsLastTen(prev: seq<EmotionTrend>, ts: seq<EmotionTrend>)
    requires ts != []
    ensures HistoryAfter(prev, ts) == LastN(prev + ts, 10)
  {
    var init, t := ts[..|ts| - 1], ts[|ts| - 1];
    assert ts == init + [t];
    if init == [] {
      CappedIsLastTen(prev, t);
    } else {
      HistoryIsLastTen(prev, init);
      CappedIsLastTen(HistoryAfter(prev, init), t);
      assert prev + ts == (prev + init) + [t];
      LastTenOfLastTen(prev + init, t);
    }
  }

  lemma LastTenOfLastTen(xs: seq<EmotionTrend>, t: EmotionTrend)
    ensures LastN(LastN(xs, 10) + [t], 10) == LastN(xs + [t], 10)
  {
    var a, b := LastN(xs, 10) + [t], xs + [t];
    if |xs| >= 10 {
      assert a[|a| - 10..] == xs[|xs| - 9..] + [t];
      assert b[|b| - 10..] == xs[|xs| - 9..] + [t];
    }
  }

  // ---------------------------------------------------------------------
  // Crisis mode
  // ---------------------------------------------------------------------

  /** Some negative emotion at 8 or more, or an analysis rated critical. */
  function ShouldActivateCrisis(e: Emotions, analysis: Option<AnalysisResult>): (on: bool)
    ensures on <==> SomeNegativeAtLeast(e, 8.0)
                    || (analysis.Some? && analysis.value.mentalStability == "critical")
  {
    ChatResponse.CriticalEmotionsIff(e);
    ChatResponse.CriticalEmotions(e) != [] || (analysis.Some? && analysis.value.mentalStability == "critical")
  }

  /** With the analysis of the same emotions, crisis mode is on exactly when
      some negative emotion is at 8 or more: the two triggers coincide. */
  lemma CrisisMatchesAnalysis(e: Emotions, b: Biometrics)
    ensures ShouldActivateCrisis(e, Some(AnalyzeEmotions(e, b))) <==> SomeNegativeAtLeast(e, 8.0)
  {
  }

  // ---------------------------------------------------------------------
  // updatePersonalContext
  // ---------------------------------------------------------------------

  /** /i work as a? (.+?)(?:\.|,|$)/i, /my job is (.+?)(?:\.|,|$)/i,
      /i'm a (.+?)(?:\.|,|$)/i, /i am a (.+?)(?:\.|,|$)/i */
  const JobPatterns: seq<Pattern> := [
    Pattern("i work as ", ["a ", " "], Lazy),
    Pattern("my job is ", [""], Lazy),
    Pattern("i'm a ", [""], Lazy),
    Pattern("i am a ", [""], Lazy)]

  /** /i like (.+?)(?:\.|,|$)/i, /i love (.+?)(?:\.|,|$)/i, /i enjoy (.+?)(?:\.|,|$)/i */
  const InterestPatterns: seq<Pattern> := [
    Pattern("i like ", [""], Lazy),
    Pattern("i love ", [""], Lazy),
    Pattern("i enjoy ", [""], Lazy)]

  /** The interest patterns are tried only when the lower-cased message
      mentions one of these. */
  predicate MentionsInterest(lowerMessage: string) {
    Contains(lowerMessage, "i like") || Contains(lowerMessage, "i love") || Contains(lowerMessage, "i enjoy")
  }

  /** A capture longer than one character. */
  predicate Long(r: Option<string>) {
    r.Some? && |r.value| > 1
  }

  /** A capture whose trimmed text is not empty. */
  predicate NonBlank(r: Option<string>) {
    r.Some? && Trim(r.value) != ""
  }

  /** The first result satisfying `ok`. */
  function FirstWhere(rs: seq<Option<string>>, ok: Option<string> -> bool): (r: Option<string>)
    ensures r.Some? ==> ok(r)
  {
    if rs == [] then None
    else
      var prev := FirstWhere(rs[..|rs| - 1], ok);
      if prev.Some? then prev
      else if ok(rs[|rs| - 1]) && rs[|rs| - 1].Some? then rs[|rs| - 1]
      else None
  }

  lemma {:induction false} FirstWhereIsFirst(rs: seq<Option<string>>, ok: Option<string> -> bool)
    ensures FirstWhere(rs, ok).Some? ==>
      exists k :: 0 <= k < |rs| && rs[k] == FirstWhere(rs, ok)
        && forall j :: 0 <= j < k ==> !(ok(rs[j]) && rs[j].Some?)
    ensures FirstWhere(rs, ok).None? ==> forall j :: 0 <= j < |rs| ==> !(ok(rs[j]) && rs[j].Some?)
  {
    if rs != [] {
      var init := rs[..|rs| - 1];
      FirstWhereIsFirst(init, ok);
      if FirstWhere(init, ok).Some? {
        var k :| 0 <= k < |init| && init[k] == FirstWhere(init, ok)
          && forall j :: 0 <= j < k ==> !(ok(init[j]) && init[j].Some?);
        assert rs[k] == init[k];
      } else {
        assert forall j :: 0 <= j < |init| ==> rs[j] == init[j];
      }
    }
  }

  predicate AnyPresent(rs: seq<Option<string>>) {
    exists j :: 0 <= j < |rs| && rs[j].Some?
  }

  /** The present results, each trimmed. */
  function TrimmedCaptures(rs: seq<Option<string>>): (ws: seq<string>)
    ensures |ws| <= |rs|
  {
    if rs == [] then []
    else
      var last := rs[|rs| - 1];
      TrimmedCaptures(rs[..|rs| - 1]) + (if last.Some? then [Trim(last.value)] else [])
  }

  /** The name after scanning with `patterns`, and whether it was set:
      only an absent name is set, from the first capture longer than one
      character. */
  function NameLearnt(message: string, patterns: seq<Pattern>, name: string): (string, bool) {
    var first := FirstWhere(ChatExtraction.Results(message, patterns), Long);
    if name == "" && first.Some? then (UpperFirst(first.value), true) else (name, false)
  }

  /** The job after scanning with `patterns`, and whether it was assigned:
      an absent job takes the first capture that is not blank once trimmed;
      any match at all counts as an assignment, even one that trims to
      nothing. */
  function JobLearnt(message: string, patterns: seq<Pattern>, job: string): (string, bool) {
    var rs := ChatExtraction.Results(message, patterns);
    var first := FirstWhere(rs, NonBlank);
    if job != "" then (job, false)
    else (if first.Some? then Trim(first.value) else "", AnyPresent(rs))
  }

  /** The interests after scanning with `patterns`, and whether one was
      added. */
  function InterestsLearnt(message: string, patterns: seq<Pattern>, interests: seq<string>): (seq<string>, bool) {
    if MentionsInterest(LowerStr(message)) then
      var added := AddAbsent(interests, TrimmedCaptures(ChatExtraction.Results(message, patterns)));
      (added, |added| > |interests|)
    else (interests, false)
  }

  /** The context after one message, and whether anything was learnt. */
  function Learnt(message: string, ctx: PersonalContext): (PersonalContext, bool) {
    var name := NameLearnt(message, ChatExtraction.NamePatterns, ctx.name);
    var job := JobLearnt(message, JobPatterns, ctx.job);
    var interests := InterestsLearnt(message, InterestPatterns, ctx.interests);
    (ctx.(name := name.0, job := job.0, interests := interests.0), name.1 || job.1 || interests.1)
  }

  /** A name or job already known is never replaced, and the fields the
      widget does not scan keep their values. */
  lemma LearntNeverOverwrites(message: string, ctx: PersonalContext)
    ensures var c := Learnt(message, ctx).0;
      && (ctx.name != "" ==> c.name == ctx.name)
      && (ctx.job != "" ==> c.job == ctx.job)
      && c.relationships == ctx.relationships && c.challenges == ctx.challenges
      && c.goals == ctx.goals && c.previousTopics == ctx.previousTopics
      && c.interests[..|ctx.interests|] == ctx.interests
  {
  }

  /** A new name comes from the first pattern, in order, whose capture is
      longer than one character, with its first letter upper-cased. */
  lemma LearntName(message: string, ctx: PersonalContext)
    requires ctx.name == ""
    ensures var rs := ChatExtraction.Results(message, ChatExtraction.NamePatterns);
      var name := Learnt(message, ctx).0.name;
      && (name != "" ==> exists k :: 0 <= k < |rs| && Long(rs[k]) && name == UpperFirst(rs[k].value)
                                    && forall j :: 0 <= j < k ==> !Long(rs[j]))
      && (name == "" ==> forall j :: 0 <= j < |rs| ==> !Long(rs[j]))
  {
    FirstWhereIsFirst(ChatExtraction.Results(message, ChatExtraction.NamePatterns), Long);
  }

  /** A new job is the trimmed capture of the first pattern, in order, whose
      capture is not blank. */
  lemma LearntJob(message: string, ctx: PersonalContext)
    requires ctx.job == ""
    ensures var rs := ChatExtraction.Results(message, JobPatterns);
      var job := Learnt(message, ctx).0.job;
      && (job != "" ==> exists k :: 0 <= k < |rs| && NonBlank(rs[k]) && job == Trim(rs[k].value)
                                   && forall j :: 0 <= j < k ==> !NonBlank(rs[j]))
      && (job == "" ==> forall j :: 0 <= j < |rs| ==> !NonBlank(rs[j]))
  {
    FirstWhereIsFirst(ChatExtraction.Results(message, JobPatterns), NonBlank);
  }

  /** Interests stay free of duplicates. */
  lemma LearntInterestsNoDuplicates(message: string, ctx: PersonalContext)
    requires NoDuplicates(ctx.interests)
    ensures NoDuplicates(Learnt(message, ctx).0.interests)
  {
    AddAbsentNoDuplicates(ctx.interests, TrimmedCaptures(ChatExtraction.Results(message, InterestPatterns)));
  }

  /** Sending the same message again learns nothing new. */
  lemma LearntIdempotent(message: string, ctx: PersonalContext)
    ensures Learnt(message, Learnt(message, ctx).0).0 == Learnt(message, ctx).0
  {
    var once := Learnt(message, ctx).0;
    NameLearntIdempotent(message, ChatExtraction.NamePatterns, ctx.name);
    JobLearntIdempotent(message, JobPatterns, ctx.job);
    InterestsLearntIdempotent(message, InterestPatterns, ctx.interests);
    assert Learnt(message, once).0 == once.(name := once.name, job := once.job, interests := once.interests);
  }

  lemma NameLearntIdempotent(message: string, patterns: seq<Pattern>, name: string)
    ensures var once := NameLearnt(message, patterns, name).0;
      NameLearnt(message, patterns, once).0 == once
  {
    var first := FirstWhere(ChatExtraction.Results(message, patterns), Long);
    if name == "" && first.Some? {
      assert |UpperFirst(first.value)| > 1;
    }
  }

  lemma JobLearntIdempotent(message: string, patterns: seq<Pattern>, job: string)
    ensures var once := JobLearnt(message, patterns, job).0;
      JobLearnt(message, patterns, once).0 == once
  {
    var first := FirstWhere(ChatExtraction.Results(message, patterns), NonBlank);
    if job == "" && first.Some? {
      assert Trim(first.value) != "";
    }
  }

  lemma InterestsLearntIdempotent(message: string, patterns: seq<Pattern>, interests: seq<string>)
    ensures var once := InterestsLearnt(message, patterns, interests).0;
      InterestsLearnt(message, patterns, once).0 == once
  {
    AddAbsentIdempotent(interests, TrimmedCaptures(ChatExtraction.Results(message, patterns)));
  }

  /** Nothing learnt means the context is left as it was, so replacing it
      only when something changed loses nothing. */
  lemma NothingLearntNoChange(message: string, ctx: PersonalContext)
    ensures !Learnt(message, ctx).1 ==> Learnt(message, ctx).0 == ctx
  {
    var c := Learnt(message, ctx).0;
    var jobs := ChatExtraction.Results(message, JobPatterns);
    FirstWhereIsFirst(jobs, NonBlank);
    if !Learnt(message, ctx).1 {
      assert c.interests == c.interests[..|ctx.interests|];
    }
  }

  // ---------------------------------------------------------------------
  // generateContextualMessage and getInterfaceColor
  // ---------------------------------------------------------------------

  datatype MessageType = Support | Coping | Empathy | Celebration

  datatype Topic =
    | ToughTime
    | CalmingExercise
    | SadnessSupport
    | GreatState
    | FearSupport
    | AngerSupport
    | PrimaryEmotion(emotion: string)   // the dominant emotion, lower-cased

  /** The opening message: its topic, its type, and the name it addresses
      ("" when it addresses no one). */
  datatype ContextualMessage = ContextualMessage(topic: Topic, messageType: MessageType, addressee: string)

  /** Neither the critical case nor the high-curvature case applies, so the
      message is chosen by the dominant emotion. */
  predicate ByEmotion(a: AnalysisResult) {
    a.mentalStability != "critical" && a.curvatureLevel <= 0.6
  }

  /** The topics whose message starts with the person's name when it is known. */
  predicate AddressesByName(t: Topic) {
    t == ToughTime || t == SadnessSupport || t == GreatState || t.PrimaryEmotion?
  }

  function GenerateContextualMessage(a: AnalysisResult, name: string): (m: ContextualMessage)
    ensures m.topic == ToughTime <==> a.mentalStability == "critical"
    ensures m.topic == CalmingExercise <==> a.mentalStability != "critical" && a.curvatureLevel > 0.6
    ensures m.topic == SadnessSupport <==> ByEmotion(a) && a.dominantEmotion == "Sadness"
    ensures m.topic == GreatState <==> ByEmotion(a) && a.dominantEmotion == "Joy" && a.stabilityIndex > 0.8
    ensures m.topic == FearSupport <==> ByEmotion(a) && a.dominantEmotion == "Fear"
    ensures m.topic == AngerSupport <==> ByEmotion(a) && a.dominantEmotion == "Anger"
    ensures m.topic.PrimaryEmotion? <==>
      ByEmotion(a) && a.dominantEmotion !in {"Sadness", "Fear", "Anger"}
      && !(a.dominantEmotion == "Joy" && a.stabilityIndex > 0.8)
    ensures m.topic.PrimaryEmotion? ==> m.topic.emotion == LowerStr(a.dominantEmotion)
    ensures m.messageType == Support <==> m.topic == ToughTime
    ensures m.messageType == Coping <==> m.topic == CalmingExercise
    ensures m.messageType == Celebration <==> m.topic == GreatState
    ensures m.addressee == (if AddressesByName(m.topic) then name else "")
  {
    if a.mentalStability == "critical" then ContextualMessage(ToughTime, Support, name)
    else if a.curvatureLevel > 0.6 then ContextualMessage(CalmingExercise, Coping, "")
    else if a.dominantEmotion == "Sadness" then ContextualMessage(SadnessSupport, Empathy, name)
    else if a.dominantEmotion == "Joy" && a.stabilityIndex > 0.8 then ContextualMessage(GreatState, Celebration, name)
    else if a.dominantEmotion == "Fear" then ContextualMessage(FearSupport, Empathy, "")
    else if a.dominantEmotion == "Anger" then ContextualMessage(AngerSupport, Empathy, "")
    else ContextualMessage(PrimaryEmotion(LowerStr(a.dominantEmotion)), Empathy, name)
  }

  /** For an analysis of the current emotions: the support message appears
      exactly when a negative emotion is at 8 or more, a celebration never
      accompanies a critical rating, and the closing case names joy, surprise
      or disgust. */
  lemma ContextualMessageOfAnalysis(e: Emotions, b: Biometrics, name: string)
    ensures var m := GenerateContextualMessage(AnalyzeEmotions(e, b), name);
      && (m.messageType == Support <==> SomeNegativeAtLeast(e, 8.0))
      && (m.messageType == Celebration ==> !SomeNegativeAtLeast(e, 8.0))
      && (m.topic.PrimaryEmotion? ==> m.topic.emotion in {"joy", "surprise", "disgust"})
  {
    PrimaryTopicIsUnhandledLabel(AnalyzeEmotions(e, b), name);
  }

  /** The closing case receives only the labels no earlier case handles by
      name, so it speaks of joy (at low stability), surprise or disgust. */
  lemma PrimaryTopicIsUnhandledLabel(a: AnalysisResult, name: string)
    requires a.dominantEmotion in Labels
    ensures var m := GenerateContextualMessage(a, name);
      m.topic.PrimaryEmotion? ==> m.topic.emotion in {"joy", "surprise", "disgust"}
  {
    var m := GenerateContextualMessage(a, name);
    if m.topic.PrimaryEmotion? {
      var d := a.dominantEmotion;
      var l := LowerStr(d);
      if d == "Joy" {
        assert l == "joy";
      } else if d == "Surprise" {
        assert l == "surprise";
      } else {
        assert d == "Disgust";
        assert l == "disgust";
      }
    }
  }

  const CrisisColor := "from-red-500/20 to-red-600/20 border-red-500/30"
  const CautionColor := "from-amber-500/20 to-amber-600/20 border-amber-500/30"
  const DefaultColor := "from-blue-500/20 to-purple-600/20 border-blue-500/30"

  function InterfaceColor(isInCrisisMode: bool, analysis: Option<AnalysisResult>): (c: string)
    ensures c == CrisisColor <==> isInCrisisMode
    ensures c == CautionColor <==> !isInCrisisMode && analysis.Some? && analysis.value.stabilityIndex < 0.5
    ensures c == DefaultColor <==> !isInCrisisMode && !(analysis.Some? && analysis.value.stabilityIndex < 0.5)
  {
    if isInCrisisMode then CrisisColor
    else if analysis.Some? && analysis.value.stabilityIndex < 0.5 then CautionColor
    else DefaultColor
  }

  // ---------------------------------------------------------------------
  // The widget's state
  // ---------------------------------------------------------------------

  class FloatingChat {
    var emotionHistory: seq<EmotionTrend>
    var personalContext: PersonalContext
    var isInCrisisMode: bool

    constructor()
      ensures emotionHistory == [] && personalContext == EmptyContext && !isInCrisisMode
    {
      emotionHistory := [];
      personalContext := EmptyContext;
      isInCrisisMode := false;
    }

    /** The effect that records each new analysis in the history. */
    method RecordAnalysis(timestamp: int, emotions: Option<Emotions>, analysis: Option<AnalysisResult>)
      modifies this
      ensures emotionHistory ==
        if emotions.Some? && analysis.Some?
        then CappedHistory(old(emotionHistory),
               EmotionTrend(timestamp, EmotionRecord(emotions.value),
                            analysis.value.dominantEmotion, analysis.value.stabilityIndex))
        else old(emotionHistory)
      ensures |old(emotionHistory)| <= 10 ==> |emotionHistory| <= 10
      ensures personalContext == old(personalContext) && isInCrisisMode == old(isInCrisisMode)
    {
      if emotions.Some? && analysis.Some? {
        var t := EmotionTrend(timestamp, EmotionRecord(emotions.value),
                              analysis.value.dominantEmotion, analysis.value.stabilityIndex);
        emotionHistory := LastN(emotionHistory, 9) + [t];
      }
    }

    /** The effect that switches crisis mode; without emotions it does
        nothing. */
    method DetectCrisis(emotions: Option<Emotions>, analysis: Option<AnalysisResult>)
      modifies this
      ensures isInCrisisMode ==
        if emotions.Some? then ShouldActivateCrisis(emotions.value, analysis) else old(isInCrisisMode)
      ensures emotionHistory == old(emotionHistory) && personalContext == old(personalContext)
    {
      if emotions.None? {
        return;
      }
      var critical := ChatResponse.CriticalEmotions(emotions.value);
      isInCrisisMode := critical != [] || (analysis.Some? && analysis.value.mentalStability == "critical");
    }

    /** updatePersonalContext: scans the message the user sent and stores
        the new context only when something was learnt. */
    method UpdatePersonalContext(messageContent: string)
      modifies this
      ensures personalContext == Learnt(messageContent, old(personalContext)).0
      ensures emotionHistory == old(emotionHistory) && isInCrisisMode == old(isInCrisisMode)
    {
      var name, nameSet := ScanName(messageContent, ChatExtraction.NamePatterns, personalContext.name);
      var job, jobSet := ScanJob(messageContent, JobPatterns, personalContext.job);
      var interests, interestAdded := ScanInterests(messageContent, InterestPatterns, personalContext.interests);
      var newContext := personalContext.(name := name, job := job, interests := interests);
      var updated := nameSet || jobSet || interestAdded;
      NothingLearntNoChange(messageContent, personalContext);
      if updated {
        personalContext := newContext;
      }
    }
  }

  /** The name patterns' forEach. */
  method ScanName(messageContent: string, patterns: seq<Pattern>, name: string) returns (newName: string, updated: bool)
    ensures (newName, updated) == NameLearnt(messageContent, patterns, name)
  {
    newName, updated := name, false;
    ghost var rs := ChatExtraction.Results(messageContent, patterns);
    for i := 0 to |patterns|
      invariant updated == (name == "" && FirstWhere(rs[..i], Long).Some?)
      invariant newName == if updated then UpperFirst(FirstWhere(rs[..i], Long).value) else name
    {
      assert rs[..i + 1][..i] == rs[..i];
      var m := Find(messageContent, patterns[i]);
      if m.Some? && |m.value| > 1 && newName == "" {
        newName := UpperFirst(m.value);
        updated := true;
      }
    }
    assert rs[..|rs|] == rs;
  }

  /** The job patterns' forEach. */
  method ScanJob(messageContent: string, patterns: seq<Pattern>, job: string) returns (newJob: string, updated: bool)
    ensures (newJob, updated) == JobLearnt(messageContent, patterns, job)
  {
    newJob, updated := job, false;
    ghost var rs := ChatExtraction.Results(messageContent, patterns);
    for i := 0 to |patterns|
      invariant job != "" ==> newJob == job && !updated
      invariant job == "" ==> newJob == (if FirstWhere(rs[..i], NonBlank).Some? then Trim(FirstWhere(rs[..i], NonBlank).value) else "")
      invariant job == "" ==> updated == AnyPresent(rs[..i])
      invariant job == "" && newJob != "" ==> updated
    {
      ghost var prev := FirstWhere(rs[..i], NonBlank);
      assert prev.Some? ==> NonBlank(prev);
      var m := Find(messageContent, patterns[i]);
      assert rs[..i + 1] == rs[..i] + [m];
      FirstWhereSnoc(rs[..i], m, NonBlank);
      AnyPresentSnoc(rs[..i], m);
      if m.Some? && newJob == "" {
        newJob := Trim(m.value);
        updated := true;
      }
    }
    assert rs[..|rs|] == rs;
  }

  lemma FirstWhereSnoc(rs: seq<Option<string>>, r: Option<string>, ok: Option<string> -> bool)
    ensures FirstWhere(rs + [r], ok) ==
      if FirstWhere(rs, ok).Some? then FirstWhere(rs, ok) else if ok(r) && r.Some? then r else None
  {
    assert (rs + [r])[..|rs|] == rs;
  }

  lemma AnyPresentSnoc(rs: seq<Option<string>>, r: Option<string>)
    ensures AnyPresent(rs + [r]) == (AnyPresent(rs) || r.Some?)
  {
    if AnyPresent(rs) {
      var j :| 0 <= j < |rs| && rs[j].Some?;
      assert (rs + [r])[j] == rs[j];
    }
    if r.Some? {
      assert (rs + [r])[|rs|].Some?;
    } else if AnyPresent(rs + [r]) {
      var j :| 0 <= j < |rs + [r]| && (rs + [r])[j].Some?;
      assert j < |rs| && rs[j] == (rs + [r])[j];
    }
  }

  /** The interest patterns' forEach, run only when the message mentions an
      interest. */
  method ScanInterests(messageContent: string, patterns: seq<Pattern>, interests: seq<string>)
    returns (newInterests: seq<string>, updated: bool)
    ensures (newInterests, updated) == InterestsLearnt(messageContent, patterns, interests)
  {
    newInterests, updated := interests, false;
    var lowerMessage := LowerStr(messageContent);
    if MentionsInterest(lowerMessage) {
      newInterests, updated := AddCaptures(messageContent, patterns, interests);
    }
  }

  /** Each pattern's trimmed capture is pushed unless already present. */
  method AddCaptures(messageContent: string, patterns: seq<Pattern>, interests: seq<string>)
    returns (newInterests: seq<string>, updated: bool)
    ensures newInterests == AddAbsent(interests, TrimmedCaptures(ChatExtraction.Results(messageContent, patterns)))
    ensures updated == (|newInterests| > |interests|)
  {
    newInterests, updated := interests, false;
    ghost var rs := ChatExtraction.Results(messageContent, patterns);
    for i := 0 to |patterns|
      invariant newInterests == AddAbsent(interests, TrimmedCaptures(rs[..i]))
      invariant updated == (|newInterests| > |interests|)
    {
      CaptureStep(interests, rs, i);
      var m := Find(messageContent, patterns[i]);
      assert m == rs[i];
      if m.Some? {
        var interest := Trim(m.value);
        if interest !in newInterests {
          newInterests := newInterests + [interest];
          updated := true;
        }
      }
    }
    assert rs[..|rs|] == rs;
  }

  /** One more pattern's capture, trimmed, is added unless present. */
  lemma CaptureStep(interests: seq<string>, rs: seq<Option<string>>, i: nat)
    requires i < |rs|
    ensures var prev := AddAbsent(interests, TrimmedCaptures(rs[..i]));
      AddAbsent(interests, TrimmedCaptures(rs[..i + 1]))
      == if rs[i].Some? && Trim(rs[i].value) !in prev then prev + [Trim(rs[i].value)] else prev
  {
    var items := TrimmedCaptures(rs[..i]);
    assert rs[..i + 1][..i] == rs[..i];
    if rs[i].Some? {
      assert TrimmedCaptures(rs[..i + 1]) == items + [Trim(rs[i].value)];
      AddAbsentSnoc(interests, items, Trim(rs[i].value));
    } else {
      assert TrimmedCaptures(rs[..i + 1]) == items;
    }
  }
}
