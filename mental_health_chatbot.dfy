/** The chat widget of components/mental-health-chatbot.tsx: what it learns
    about the user from each message, the greeting and the opening message
    it writes from the latest analysis, and the crisis flag it sends with
    every request. */
module MentalHealthChatbot {
  import opened TextMatch
  import opened EmotionalMath
  import opened PersonalContexts
  import opened EmotionAnalysis
  import opened ChatExtraction
  import ChatTrends
  import FloatingChatbot

  // ---------------------------------------------------------------------
  // updatePersonalContext
  // ---------------------------------------------------------------------

  /** /i work as (?:a |an )?(\w+)/i, /my job is (\w+)/i, /i'm (?:a |an )?(\w+)/i
      (the name and interest patterns are those of the chat route:
      NamePatterns and InterestPatterns). */
  const WidgetJobPatterns: seq<Pattern> := [
    Pattern("i work as ", ["a ", "an ", ""], WordRun),
    Pattern("my job is ", [""], WordRun),
    Pattern("i'm ", ["a ", "an ", ""], WordRun)]

  /** The name after scanning the message as written, and whether it was
      set: only an absent name is set, from the first pattern that matches
      at all, with its first letter upper-cased. */
  function NameLearnt(message: string, patterns: seq<Pattern>, name: string): (string, bool) {
    var first := FirstCapture(message, patterns, []);
    if name == "" && first.Some? then (UpperFirst(first.value), true) else (name, false)
  }

  /** The job after scanning, and whether it was set: only an absent job is
      set, from the first capture that is not one of NotJobs, compared
      with the case the message was written in. */
  function JobLearnt(message: string, patterns: seq<Pattern>, job: string): (string, bool) {
    var first := FirstCapture(message, patterns, NotJobs);
    if job == "" && first.Some? then (first.value, true) else (job, false)
  }

  /** The interests after every pattern's capture is pushed unless present,
      and whether one was pushed. */
  function InterestsLearnt(message: string, patterns: seq<Pattern>, interests: seq<string>): (seq<string>, bool) {
    var added := AddAbsent(interests, AllCaptures(message, patterns));
    (added, |added| > |interests|)
  }

  /** The context after one message, and the `updated` flag. */
  function Learnt(message: string, ctx: PersonalContext): (PersonalContext, bool) {
    var name := NameLearnt(message, NamePatterns, ctx.name);
    var job := JobLearnt(message, WidgetJobPatterns, ctx.job);
    var interests := InterestsLearnt(message, InterestPatterns, ctx.interests);
    (ctx.(name := name.0, job := job.0, interests := interests.0), name.1 || job.1 || interests.1)
  }

  /** A known name or job is never replaced, interests are only appended,
      and the other fields keep their values. */
  lemma LearntNeverOverwrites(message: string, ctx: PersonalContext)
    ensures var c := Learnt(message, ctx).0;
      && (ctx.name != "" ==> c.name == ctx.name)
      && (ctx.job != "" ==> c.job == ctx.job)
      && c.interests[..|ctx.interests|] == ctx.interests
      && c.relationships == ctx.relationships && c.challenges == ctx.challenges
      && c.goals == ctx.goals && c.previousTopics == ctx.previousTopics
  {
  }

  /** A new name is the capture of the first pattern, in order, that
      matches, whatever its length, with its first letter upper-cased. */
  lemma LearntName(message: string, ctx: PersonalContext)
    requires ctx.name == ""
    ensures var rs := Results(message, NamePatterns);
      var name := Learnt(message, ctx).0.name;
      && (name != "" ==> exists k :: 0 <= k < |rs| && rs[k].Some? && name == UpperFirst(rs[k].value)
                                    && forall j :: 0 <= j < k ==> rs[j].None?)
      && (name == "" <==> forall j :: 0 <= j < |rs| ==> rs[j].None?)
  {
    FirstCaptureIsFirst(message, NamePatterns, []);
  }

  /** A new job is the first capture, in pattern order, outside NotJobs,
      and is never one of them. */
  lemma LearntJob(message: string, ctx: PersonalContext)
    requires ctx.job == ""
    ensures var rs := Results(message, WidgetJobPatterns);
      var job := Learnt(message, ctx).0.job;
      && job !in NotJobs
      && (job != "" ==> exists k :: 0 <= k < |rs| && Accepted(rs[k], NotJobs) && job == rs[k].value
                                   && forall j :: 0 <= j < k ==> !Accepted(rs[j], NotJobs))
      && (job == "" <==> forall j :: 0 <= j < |rs| ==> !Accepted(rs[j], NotJobs))
  {
    FirstCaptureIsFirst(message, WidgetJobPatterns, NotJobs);
  }

  /** Interests stay free of duplicates, and every capture ends up among
      them. */
  lemma LearntInterests(message: string, ctx: PersonalContext)
    ensures forall w :: w in AllCaptures(message, InterestPatterns) ==> w in Learnt(message, ctx).0.interests
    ensures NoDuplicates(ctx.interests) ==> NoDuplicates(Learnt(message, ctx).0.interests)
  {
    AddAbsentElements(ctx.interests, AllCaptures(message, InterestPatterns));
    if NoDuplicates(ctx.interests) {
      AddAbsentNoDuplicates(ctx.interests, AllCaptures(message, InterestPatterns));
    }
  }

  /** Sending the same message again learns nothing new. */
  lemma LearntIdempotent(message: string, ctx: PersonalContext)
    ensures var once := Learnt(message, ctx).0;
      Learnt(message, once) == (once, false)
  {
    AddAbsentIdempotent(ctx.interests, AllCaptures(message, InterestPatterns));
    FirstCaptureIsFirst(message, NamePatterns, []);
    FirstCaptureIsFirst(message, WidgetJobPatterns, NotJobs);
  }

  /** Without the `updated` flag the context is left as it was, so storing
      it only when the flag is set loses nothing. */
  lemma NothingLearntNoChange(message: string, ctx: PersonalContext)
    ensures !Learnt(message, ctx).1 ==> Learnt(message, ctx).0 == ctx
  {
    var c := Learnt(message, ctx).0;
    if !Learnt(message, ctx).1 {
      assert c.interests == c.interests[..|ctx.interests|];
    }
  }

  /** When the first two patterns match nowhere and the third captures an
      accepted `w`, the first capture is `w`. */
  lemma ThirdPatternFirst(text: string, patterns: seq<Pattern>, rejected: seq<string>, w: string)
    requires |patterns| >= 3
    requires Find(text, patterns[0]).None? && Find(text, patterns[1]).None?
    requires Find(text, patterns[2]) == Some(w) && w !in rejected
    ensures FirstCapture(text, patterns, rejected) == Some(w)
  {
    var rs := Results(text, patterns);
    FirstCaptureIsFirst(text, patterns, rejected);
    assert Accepted(rs[2], rejected);
    var k :| 0 <= k < |rs| && rs[k] == FirstCapture(text, patterns, rejected)
      && forall j :: 0 <= j < k ==> !Accepted(rs[j], rejected);
    assert k == 2;
  }

  /** No pattern's capture accepted: no capture at all. */
  lemma NoneAccepted(text: string, patterns: seq<Pattern>, rejected: seq<string>)
    requires forall j :: 0 <= j < |patterns| ==> !Accepted(Find(text, patterns[j]), rejected)
    ensures FirstCapture(text, patterns, rejected).None?
  {
    FirstCaptureIsFirst(text, patterns, rejected);
  }

  /** No capture longer than one character: the floating widget's name scan
      finds nothing. */
  lemma NoneLong(text: string, patterns: seq<Pattern>)
    requires forall j :: 0 <= j < |patterns| ==> !FloatingChatbot.Long(Find(text, patterns[j]))
    ensures FloatingChatbot.FirstWhere(Results(text, patterns), FloatingChatbot.Long).None?
  {
    var rs := Results(text, patterns);
    FloatingChatbot.FirstWhereIsFirst(rs, FloatingChatbot.Long);
  }

  /** "call me j": this widget takes the one-letter name "J", while the
      floating widget, which wants a capture longer than one character,
      learns no name from the same message. */
  lemma OneLetterNameOnlyHere()
    ensures NameLearnt("call me j", NamePatterns, "") == ("J", true)
    ensures FloatingChatbot.NameLearnt("call me j", NamePatterns, "") == ("", false)
  {
    CallMeCaptures("call me j");
    OneLetterThirdCapture("call me j", "j");
    assert UpperFirst("j") == "J";
  }

  /** A one-letter capture by the third name pattern alone is taken here and
      ignored by the floating widget. */
  lemma OneLetterThirdCapture(text: string, w: string)
    requires |NamePatterns| == 4 && |w| == 1
    requires Find(text, NamePatterns[0]).None? && Find(text, NamePatterns[1]).None?
    requires Find(text, NamePatterns[2]) == Some(w) && Find(text, NamePatterns[3]).None?
    ensures NameLearnt(text, NamePatterns, "") == (UpperFirst(w), true)
    ensures FloatingChatbot.NameLearnt(text, NamePatterns, "") == ("", false)
  {
    ThirdPatternFirst(text, NamePatterns, [], w);
    forall j | 0 <= j < |NamePatterns| ensures !FloatingChatbot.Long(Find(text, NamePatterns[j])) {
      assert j == 0 || j == 1 || j == 2 || j == 3;
    }
    NoneLong(text, NamePatterns);
  }

  /** What each name pattern captures in "call me j". */
  lemma CallMeCaptures(text: string)
    requires text == "call me j"
    ensures |NamePatterns| == 4
    ensures Find(text, NamePatterns[0]).None? && Find(text, NamePatterns[1]).None?
    ensures Find(text, NamePatterns[2]) == Some("j") && Find(text, NamePatterns[3]).None?
  {
    CallMeLetters(text);
    NamePatternLetters();
    NoMatchWithoutPrefixChar(text, NamePatterns[0], 1);
    NoMatchWithoutPrefixChar(text, NamePatterns[1], 0);
    NoMatchWithoutPrefixChar(text, NamePatterns[3], 0);
    CallMeFindsLetter(text);
  }

  lemma CallMeLetters(text: string)
    requires text == "call me j"
    ensures forall c :: c in text ==> Lower(c) != 'y' && Lower(c) != 'i'
  {
  }

  lemma NamePatternLetters()
    ensures |NamePatterns| == 4
    ensures |NamePatterns[0].prefix| > 1 && NamePatterns[0].prefix[1] == 'y'
    ensures |NamePatterns[1].prefix| > 0 && NamePatterns[1].prefix[0] == 'i'
    ensures |NamePatterns[3].prefix| > 0 && NamePatterns[3].prefix[0] == 'i'
  {
  }

  lemma CallMeFindsLetter(text: string)
    requires text == "call me j"
    ensures Find(text, NamePatterns[2]) == Some("j")
  {
    var pat := NamePatterns[2];
    assert pat == Pattern("call me ", [""], WordRun);
    assert LowerStr("call me ") == "call me ";
    assert text == pat.prefix + "j" + "";
    WordAfterPrefixIsFound(text, pat, "j", "");
  }

  /** Neither article can start at a character other than an "a". */
  lemma NoArticleAt(s: string, q: nat)
    requires q < |s| && Lower(s[q]) != 'a'
    ensures !OccursAtIgnoringCase(s, q, "a ") && !OccursAtIgnoringCase(s, q, "an ")
  {
    if q + 2 <= |s| {
      assert LowerStr(s[q..q + 2])[0] == Lower(s[q]);
    }
    if q + 3 <= |s| {
      assert LowerStr(s[q..q + 3])[0] == Lower(s[q]);
    }
  }

  /** With no article in front of it, the optional-article fillers leave the
      word to the empty filler. */
  lemma EmptyFillerTaken(s: string, q: nat, fillers: seq<string>, w: string)
    requires fillers == ["a ", "an ", ""]
    requires !OccursAtIgnoringCase(s, q, "a ") && !OccursAtIgnoringCase(s, q, "an ")
    requires q <= |s| && CaptureAt(s, q, WordRun) == Some(w)
    ensures TryFillers(s, q, fillers, WordRun) == Some(w)
  {
    assert fillers[1..][1..] == [""];
    assert OccursAtIgnoringCase(s, q, "");
  }

  /** A word right after a prefix whose pattern allows the optional article
      "a " or "an ", when the word does not start with an "a", is what the
      pattern finds at the start of the text. */
  lemma ArticleFreeWordIsFound(s: string, pat: Pattern, w: string, rest: string)
    requires pat.fillers == ["a ", "an ", ""] && pat.capture == WordRun
    requires |pat.prefix| <= |s| && LowerStr(s[..|pat.prefix|]) == pat.prefix
    requires s == s[..|pat.prefix|] + w + rest
    requires w != [] && forall i :: 0 <= i < |w| ==> IsWordChar(w[i])
    requires rest == [] || !IsWordChar(rest[0])
    requires Lower(w[0]) != 'a'
    ensures Find(s, pat) == Some(w)
  {
    var q := |pat.prefix|;
    assert s[0..q] == s[..q];
    assert OccursAtIgnoringCase(s, 0, pat.prefix);
    assert s[q] == w[0];
    NoArticleAt(s, q);
    WordCaptured(s[..q], w, rest);
    EmptyFillerTaken(s, q, pat.fillers, w);
    assert MatchesAt(s, pat)[0] == Some(w);
  }

  /** The excluded job words are compared with the capture as written:
      "i'm feeling" gives no job (LowerFeelingIsNoJob), while "I'm Feeling"
      makes "Feeling" the job. */
  lemma CapitalisedFeelingIsTakenForAJob(text: string)
    requires text == "I'm Feeling"
    ensures JobLearnt(text, WidgetJobPatterns, "") == ("Feeling", true)
  {
    var w := text[4..];
    ImWordJob(text, w);
    FeelingIsNotExcluded(w);
    ThirdPatternFirst(text, WidgetJobPatterns, NotJobs, w);
  }

  lemma FeelingIsNotExcluded(w: string)
    requires w == "I'm Feeling"[4..]
    ensures w == "Feeling" && w !in NotJobs
  {
  }

  /** "i'm feeling" sets no job. */
  lemma LowerFeelingIsNoJob(text: string)
    requires text == "i'm feeling"
    ensures JobLearnt(text, WidgetJobPatterns, "") == ("", false)
  {
    var w := text[4..];
    ImWordJob(text, w);
    FeelingIsExcluded(w);
    JobPatternLetters();
    ThirdPatternRejected(text, WidgetJobPatterns, NotJobs, w);
  }

  /** Three patterns of which only the third matches, with a rejected
      capture: no capture. */
  lemma ThirdPatternRejected(text: string, patterns: seq<Pattern>, rejected: seq<string>, w: string)
    requires |patterns| == 3
    requires Find(text, patterns[0]).None? && Find(text, patterns[1]).None?
    requires Find(text, patterns[2]) == Some(w) && w in rejected
    ensures FirstCapture(text, patterns, rejected).None?
  {
    forall j | 0 <= j < |patterns| ensures !Accepted(Find(text, patterns[j]), rejected) {
      assert j == 0 || j == 1 || j == 2;
    }
    NoneAccepted(text, patterns, rejected);
  }

  lemma FeelingIsExcluded(w: string)
    requires w == "i'm feeling"[4..]
    ensures w in NotJobs
  {
    assert w == NotJobs[0];
  }

  lemma JobPatternLetters()
    ensures |WidgetJobPatterns| == 3
    ensures |WidgetJobPatterns[0].prefix| > 2 && WidgetJobPatterns[0].prefix[2] == 'w'
    ensures |WidgetJobPatterns[1].prefix| > 1 && WidgetJobPatterns[1].prefix[1] == 'y'
    ensures WidgetJobPatterns[2] == Pattern("i'm ", ["a ", "an ", ""], WordRun)
  {
  }

  lemma FeelingLetters(text: string, w: string)
    requires text == "i'm feeling" || text == "I'm Feeling"
    requires w == text[4..]
    ensures forall c :: c in text ==> Lower(c) != 'w' && Lower(c) != 'y'
  {
  }

  lemma FeelingShape(text: string, w: string)
    requires text == "i'm feeling" || text == "I'm Feeling"
    requires w == text[4..]
    ensures LowerStr(text[..4]) == "i'm " && text == text[..4] + w + ""
    ensures w != [] && Lower(w[0]) != 'a' && forall i :: 0 <= i < |w| ==> IsWordChar(w[i])
  {
  }

  /** "i'm feeling" and "I'm Feeling": the job patterns find only the word
      after "i'm ". */
  lemma ImWordJob(text: string, w: string)
    requires text == "i'm feeling" || text == "I'm Feeling"
    requires w == text[4..]
    ensures Find(text, WidgetJobPatterns[0]).None? && Find(text, WidgetJobPatterns[1]).None?
    ensures Find(text, WidgetJobPatterns[2]) == Some(w)
  {
    FeelingLetters(text, w);
    FeelingShape(text, w);
    JobPatternLetters();
    NoMatchWithoutPrefixChar(text, WidgetJobPatterns[0], 2);
    NoMatchWithoutPrefixChar(text, WidgetJobPatterns[1], 1);
    ArticleFreeWordIsFound(text, WidgetJobPatterns[2], w, "");
  }

  /** The name patterns' for-loop, which breaks at the first pattern that
      matches while no name is known. */
  method ScanName(messageContent: string, patterns: seq<Pattern>, name: string) returns (newName: string, updated: bool)
    ensures (newName, updated) == NameLearnt(messageContent, patterns, name)
  {
    newName, updated := name, false;
    ghost var rs := Results(messageContent, patterns);
    for i := 0 to |patterns|
      invariant newName == name && !updated
      invariant name == "" ==> FirstAccepted(rs[i..], []) == FirstAccepted(rs, [])
    {
      assert rs[i..][1..] == rs[i + 1..];
      var m := Find(messageContent, patterns[i]);
      assert rs[i..][0] == m;
      if m.Some? && newName == "" {
        newName := UpperFirst(m.value);
        updated := true;
        break;
      }
    }
  }

  /** The job patterns' for-loop, which breaks at the first capture outside
      NotJobs while no job is known. */
  method ScanJob(messageContent: string, patterns: seq<Pattern>, job: string) returns (newJob: string, updated: bool)
    ensures (newJob, updated) == JobLearnt(messageContent, patterns, job)
  {
    newJob, updated := job, false;
    ghost var rs := Results(messageContent, patterns);
    for i := 0 to |patterns|
      invariant newJob == job && !updated
      invariant job == "" ==> FirstAccepted(rs[i..], NotJobs) == FirstAccepted(rs, NotJobs)
    {
      assert rs[i..][1..] == rs[i + 1..];
      var m := Find(messageContent, patterns[i]);
      assert rs[i..][0] == m;
      if m.Some? && m.value !in NotJobs && newJob == "" {
        newJob := m.value;
        updated := true;
        break;
      }
    }
  }

  /** The interest patterns' for-loop: every capture is pushed unless the
      list already holds it. */
  method ScanInterests(messageContent: string, patterns: seq<Pattern>, interests: seq<string>)
    returns (newInterests: seq<string>, updated: bool)
    ensures (newInterests, updated) == InterestsLearnt(messageContent, patterns, interests)
  {
    newInterests, updated := interests, false;
    ghost var rs := Results(messageContent, patterns);
    for i := 0 to |patterns|
      invariant newInterests == AddAbsent(interests, Present(rs[..i]))
      invariant updated == (|newInterests| > |interests|)
    {
      assert rs[..i + 1] == rs[..i] + [rs[i]];
      PresentSnoc(rs[..i], rs[i]);
      var m := Find(messageContent, patterns[i]);
      assert rs[i] == m;
      ghost var items := Present(rs[..i]);
      if m.Some? {
        assert Present(rs[..i + 1]) == items + [m.value];
        AddAbsentSnoc(interests, items, m.value);
        if m.value !in newInterests {
          newInterests := newInterests + [m.value];
          updated := true;
        }
      } else {
        assert Present(rs[..i + 1]) == items;
      }
    }
    assert rs[..|patterns|] == rs;
  }

  /** The widget's stored context. */
  class MentalHealthChat {
    var personalContext: PersonalContext

    constructor()
      ensures personalContext == EmptyContext
    {
      personalContext := EmptyContext;
    }

    /** updatePersonalContext: scans the message the user sent and stores the
        new context only when the `updated` flag is set. */
    method UpdatePersonalContext(messageContent: string)
      modifies this
      ensures personalContext == Learnt(messageContent, old(personalContext)).0
    {
      var name, nameSet := ScanName(messageContent, NamePatterns, personalContext.name);
      var job, jobSet := ScanJob(messageContent, WidgetJobPatterns, personalContext.job);
      var interests, interestAdded := ScanInterests(messageContent, InterestPatterns, personalContext.interests);
      var newContext := personalContext.(name := name, job := job, interests := interests);
      var updated := nameSet || jobSet || interestAdded;
      NothingLearntNoChange(messageContent, personalContext);
      if updated {
        personalContext := newContext;
      }
    }
  }

  // ---------------------------------------------------------------------
  // getGreeting, getEmotionalContext, getInitialMessage
  // ---------------------------------------------------------------------

  const Heart := "\U{1F499}"

  /** `Hi ${name}! 💙`, or "Hi there! 💙" while no name is known. */
  function Greeting(name: string): (g: string)
    ensures |g| >= |name| + 6 && g[..3] == "Hi "
    ensures name != "" ==> g[3..3 + |name|] == name && |g| == |name| + 6
    ensures name == "" ==> g == "Hi there! " + Heart
  {
    var middle := if name != "" then name else "there";
    var g := "Hi " + middle + "! " + Heart;
    assert g[3..3 + |middle|] == middle;
    g
  }

  /** The keys among the first `n` emotions whose value is at least 6, in
      key order. */
  function HighUpTo(vals: seq<real>, n: nat): (ks: seq<string>)
    requires n <= |vals| == 6
    ensures |ks| <= n
  {
    if n == 0 then []
    else HighUpTo(vals, n - 1) + (if vals[n - 1] >= 6.0 then [ChatTrends.EmotionKeys[n - 1]] else [])
  }

  /** A key is listed exactly when its value is at least 6, and the keys
      come in key order. */
  lemma {:induction false} HighUpToIff(vals: seq<real>, n: nat)
    requires n <= |vals| == 6
    ensures forall k :: k in HighUpTo(vals, n) <==>
      ChatTrends.KeyRank(k) < n && vals[ChatTrends.KeyRank(k)] >= 6.0
    ensures forall i, j :: 0 <= i < j < |HighUpTo(vals, n)| ==>
      ChatTrends.KeyRank(HighUpTo(vals, n)[i]) < ChatTrends.KeyRank(HighUpTo(vals, n)[j])
  {
    if n > 0 {
      HighUpToIff(vals, n - 1);
      var key := ChatTrends.EmotionKeys[n - 1];
      assert ChatTrends.KeyRank(key) == n - 1;
      var prev := HighUpTo(vals, n - 1);
      var ks := HighUpTo(vals, n);
      forall i, j | 0 <= i < j < |ks| ensures ChatTrends.KeyRank(ks[i]) < ChatTrends.KeyRank(ks[j]) {
        assert ks[i] == prev[i] && prev[i] in prev;
        if j == |prev| {
          assert ks[j] == key;
        } else {
          assert ks[j] == prev[j];
        }
      }
      forall k ensures k in ks <==> ChatTrends.KeyRank(k) < n && vals[ChatTrends.KeyRank(k)] >= 6.0 {
        if ChatTrends.KeyRank(k) == n - 1 && vals[n - 1] >= 6.0 {
          assert k == key;
        }
      }
    }
  }

  /** `Object.entries(emotions).filter(([_, v]) => v >= 6).map(([e]) => e)`. */
  function HighEmotions(e: Emotions): seq<string> {
    HighUpTo(Intensities(e), 6)
  }

  const NoticePrefix := "I notice you're experiencing "

  /** The sentence naming the high emotions; "" without an analysis or
      emotions, or when no emotion is at 6 or more. */
  function EmotionalContext(analysis: Option<AnalysisResult>, emotions: Option<Emotions>): (c: string)
    ensures c == "" <==> analysis.None? || emotions.None? || HighEmotions(emotions.value) == []
    ensures c != "" ==> |NoticePrefix| < |c| && c[..|NoticePrefix|] == NoticePrefix
  {
    if analysis.None? || emotions.None? then ""
    else
      var high := HighEmotions(emotions.value);
      if high != [] then NoticePrefix + Join(high, ", ") + ". " else ""
  }

  /** With both present, the sentence is empty exactly when every emotion,
      joy and surprise included, is below 6. */
  lemma EmotionalContextEmptyIff(a: AnalysisResult, e: Emotions)
    ensures EmotionalContext(Some(a), Some(e)) == "" <==>
      forall i :: 0 <= i < 6 ==> Intensities(e)[i] < 6.0
  {
    var vals := Intensities(e);
    HighUpToIff(vals, 6);
    if exists i :: 0 <= i < 6 && vals[i] >= 6.0 {
      var i :| 0 <= i < 6 && vals[i] >= 6.0;
      assert ChatTrends.KeyRank(ChatTrends.EmotionKeys[i]) == i;
      assert ChatTrends.EmotionKeys[i] in HighEmotions(e);
    }
    if HighEmotions(e) != [] {
      assert HighEmotions(e)[0] in HighEmotions(e);
    }
  }

  /** Emotions that make an analysis critical (a negative emotion at 8 or
      more) always give a non-empty emotional-context sentence. */
  lemma CriticalHasEmotionalContext(a: AnalysisResult, e: Emotions)
    requires SomeNegativeAtLeast(e, 8.0)
    ensures EmotionalContext(Some(a), Some(e)) != ""
  {
    EmotionalContextEmptyIff(a, e);
    var vals := Intensities(e);
    assert vals[1] == e.sadness && vals[2] == e.anger && vals[3] == e.fear && vals[5] == e.disgust;
  }

  datatype Opening = CrisisOpening | UnstableOpening | JoyOpening | DefaultOpening

  /** Which opening getInitialMessage writes: critical, then unstable, then
      a Joy-dominant analysis, then the default. */
  function OpeningFor(analysis: Option<AnalysisResult>): (o: Opening)
    ensures o == CrisisOpening <==> analysis.Some? && analysis.value.mentalStability == "critical"
    ensures o == UnstableOpening <==> analysis.Some? && analysis.value.mentalStability == "unstable"
    ensures o == JoyOpening <==>
      (analysis.Some? && analysis.value.mentalStability != "critical"
       && analysis.value.mentalStability != "unstable" && analysis.value.dominantEmotion == "Joy")
  {
    if analysis.Some? && analysis.value.mentalStability == "critical" then CrisisOpening
    else if analysis.Some? && analysis.value.mentalStability == "unstable" then UnstableOpening
    else if analysis.Some? && analysis.value.dominantEmotion == "Joy" then JoyOpening
    else DefaultOpening
  }

  const CrisisClosing := "I'm here to support you through this difficult time. How can I help you right now?"
  const UnstableClosing := "I'm here to listen and support you. What's on your mind?"
  const JoyText := "You seem to be in a positive emotional state today! I'd love to hear what's going well for you. \U{2728}"
  const DefaultClosing := "I'm here to listen and support you. How are you doing today?"

  /** getInitialMessage: the greeting, a space, then the emotional context
      and the closing of the chosen opening; the Joy opening leaves the
      emotional context out. */
  function InitialMessage(name: string, analysis: Option<AnalysisResult>, emotions: Option<Emotions>): (m: string)
    ensures |Greeting(name)| < |m| && m[..|Greeting(name)| + 1] == Greeting(name) + " "
    ensures OpeningFor(analysis) == JoyOpening ==> m == Greeting(name) + " " + JoyText
    ensures OpeningFor(analysis) != JoyOpening ==>
      m == Greeting(name) + " " + EmotionalContext(analysis, emotions) + ClosingFor(OpeningFor(analysis))
  {
    var g := Greeting(name) + " ";
    var o := OpeningFor(analysis);
    var context := EmotionalContext(analysis, emotions);
    var m := g + OpeningBody(o, context);
    assert m[..|g|] == g;
    m
  }

  /** The closing sentence of each opening that carries the emotional context. */
  function ClosingFor(o: Opening): string {
    match o
    case CrisisOpening => CrisisClosing
    case UnstableOpening => UnstableClosing
    case JoyOpening => ""
    case DefaultOpening => DefaultClosing
  }

  /** What follows the greeting for each opening. */
  function OpeningBody(o: Opening, context: string): string {
    if o == JoyOpening then JoyText else context + ClosingFor(o)
  }

  /** Every opening message starts with the greeting; only the Joy opening
      is the same whatever the emotions. */
  lemma InitialMessageShape(name: string, analysis: Option<AnalysisResult>, emotions: Option<Emotions>, other: Option<Emotions>)
    ensures var m := InitialMessage(name, analysis, emotions);
      |Greeting(name)| < |m| && m[..|Greeting(name)| + 1] == Greeting(name) + " "
    ensures OpeningFor(analysis) == JoyOpening ==>
      InitialMessage(name, analysis, emotions) == InitialMessage(name, analysis, other)
  {
    var g := Greeting(name) + " ";
    var body := OpeningBody(OpeningFor(analysis), EmotionalContext(analysis, emotions));
    assert (g + body)[..|g|] == g;
  }

  /** For the analysis of the current emotions, the crisis opening is
      written exactly when some negative emotion is at 8 or more, and it
      names at least one emotion. */
  lemma CrisisOpeningOfAnalysis(name: string, e: Emotions, b: Biometrics)
    ensures (OpeningFor(Some(AnalyzeEmotions(e, b))) == CrisisOpening) == SomeNegativeAtLeast(e, 8.0)
    ensures SomeNegativeAtLeast(e, 8.0) ==>
      && InitialMessage(name, Some(AnalyzeEmotions(e, b)), Some(e))
         == Greeting(name) + " " + (EmotionalContext(Some(AnalyzeEmotions(e, b)), Some(e)) + CrisisClosing)
      && EmotionalContext(Some(AnalyzeEmotions(e, b)), Some(e)) != ""
  {
    var a := AnalyzeEmotions(e, b);
    CrisisOpeningOfRating(name, a, e);
  }

  lemma CrisisOpeningOfRating(name: string, a: AnalysisResult, e: Emotions)
    requires a.mentalStability == MentalStability(e, a.stabilityIndex)
    ensures (OpeningFor(Some(a)) == CrisisOpening) == SomeNegativeAtLeast(e, 8.0)
    ensures SomeNegativeAtLeast(e, 8.0) ==>
      && InitialMessage(name, Some(a), Some(e)) == Greeting(name) + " " + (EmotionalContext(Some(a), Some(e)) + CrisisClosing)
      && EmotionalContext(Some(a), Some(e)) != ""
  {
    if SomeNegativeAtLeast(e, 8.0) {
      CriticalHasEmotionalContext(a, e);
    }
  }

  // ---------------------------------------------------------------------
  // The crisis flag of each request
  // ---------------------------------------------------------------------

  /** `analysis?.mentalStability === "critical"`. */
  predicate CrisisFlag(analysis: Option<AnalysisResult>) {
    analysis.Some? && analysis.value.mentalStability == "critical"
  }

  /** For the analysis of the current emotions the flag is on exactly when
      some negative emotion is at 8 or more, which is also when the
      floating widget switches to crisis mode; before any analysis it is off. */
  lemma CrisisFlagAgreesWithFloatingWidget(e: Emotions, b: Biometrics)
    ensures !CrisisFlag(None)
    ensures CrisisFlag(Some(AnalyzeEmotions(e, b))) <==> SomeNegativeAtLeast(e, 8.0)
    ensures CrisisFlag(Some(AnalyzeEmotions(e, b)))
         == FloatingChatbot.ShouldActivateCrisis(e, Some(AnalyzeEmotions(e, b)))
  {
  }
}
