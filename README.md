# Emotional geometry — a Dafny model

The application is a "mental health" dashboard. The user sets six emotion sliders (joy, sadness,
anger, fear, surprise, disgust) and enters a few biometric readings. An analysis pipeline turns
these into geometry:

- every intensity is scaled into a vector;
- the curvature of an active emotion is its deviation from the mean of the active vectors;
- the energy is the sum of squares;
- the stability index is the reciprocal of the largest curvature.

A diagnosis then names the dominant emotion and the most-curved emotion. It classifies the state
(Stable / Unstable / Volatile), raises biometric flags, and gives a separate three-level rating
(stable / unstable / critical).

Around the pipeline sit:

- three chat widgets:
  - a canned-reply chatbot;
  - a floating companion that keeps a ten-entry emotion history and a crisis flag;
  - a mental-health chat that opens with a greeting built from the analysis;
- a chat server route with a rule-based fallback reply:
  - it builds a system prompt;
  - it fits a least-squares trend to the recent history;
  - it extracts personal facts (name, job, relationships, interests) from the conversation with
    regular expressions;
  - it classifies one-word answers;
- a PDF report (biometric status bands, colours, recommendations);
- a journal trend chart;
- the visualisation panel;
- a graph guide that recomputes the metrics for example scenarios;
- a settings panel for therapy preferences.

Each module of this project corresponds to one source file:

- `EmotionalMath`: lib/emotional-math.ts.
- `EmotionAnalysis`: the analysis step of app/page.tsx.
- `ChatTrends`, `ChatResponse` and `ChatExtraction`: app/api/chat/route.ts.
- `FloatingChatbot`, `MentalHealthChatbot`, `EmotionalChatbot`, `TrendChart`, `VisualizationPanel`,
  `GraphGuide` and `TherapyPanel`: the components of the same names.
- `PdfReport`: lib/pdf-generator.ts.
- `ChatbotResponses`: lib/chatbot-responses.ts.
- `TextMatch` and `PersonalContexts`: shared helpers:
  - lower-casing, trimming and substring tests;
  - the leftmost-match semantics of the regular expressions the sources use;
  - the "append if absent" list update.

Pure computations are functions. Code that changes state step by step is modelled imperatively:

- The source loops become methods with loop invariants. Each method is proved equal to a
  specification function, and the lemmas are stated about that function:
  - the trend analysis;
  - personal-information extraction;
  - the two `updatePersonalContext` scanners;
  - `buildSystemPrompt`;
  - `generateRecommendations`.
- The two chat widgets whose fields change are classes:
  - `FloatingChatbot.FloatingChat`: history, personal context and crisis flag;
  - `EmotionalChatbot.EmotionalChat`: messages, input and typing flag.

Numbers are `real`. A random pick `Math.floor(Math.random() * n)` is modelled as a `roll` in
[0, 1) passed in by the caller.

Where the code and the project's own description of it disagree, the model follows the code:

- **Classification at 6.** The classification is already "Volatile" when one negative emotion
  reaches 6 (lib/emotional-math.ts:73-79), not only at 8.
- **A unit ramp gives no trend insight.** A history rising by exactly one per session has slope 1,
  and the route only reports a slope whose absolute value exceeds 1 (`ChatTrends.UnitRampGivesNoInsight`).
- **Route extraction overwrites and does not deduplicate.** The route's extraction replaces a known
  name or job and appends relationships and interests without removing duplicates
  (`ChatExtraction.RepeatedExtractionDuplicates`). Only the two widgets' scanners keep a known name
  or job and skip duplicates.
- **Severity is not monotone.** Raising one negative emotion can lower the classification
  (`EmotionAnalysis.SeverityNotMonotone`): raising sadness from 1 to 2 moves the mean of the active
  vectors, and the state goes from Unstable to Stable.
- **No extra steps.** The code has no trauma scan, no recurring-dominant-emotion insight and no
  clamping of inputs, so the model has none either.

## Model

| member | source | states |
|---|---|---|
| EmotionalMath.ComputeEmotionVectors | lib/emotional-math.ts:3-6 | six vectors, each 1.2 times its intensity; a vector is positive (zero) exactly when its intensity is |
| EmotionalMath.CalculateCurvature | lib/emotional-math.ts:8-22 | one non-negative curvature per vector; zero for a zero vector; all zero when no vector is active; otherwise abs(v - mean)/(mean + 0.01) over the mean of the active vectors |
| EmotionalMath.CalculateEmotionalEnergy | lib/emotional-math.ts:24-26 | the energy is never negative |
| EmotionalMath.EnergyZeroIff | lib/emotional-math.ts:24-26 | the energy is zero exactly when every vector is zero |
| EmotionalMath.CalculateStabilityIndex | lib/emotional-math.ts:28-32 | for non-negative curvatures the index lies in (0, 100], and equals 100 exactly when every curvature is zero |
| EmotionalMath.CurvatureBelowFive | lib/emotional-math.ts:8-22 | for six non-negative vectors every curvature lies in [0, 5) |
| EmotionalMath.StabilityBounds | lib/emotional-math.ts:28-32 | for six non-negative vectors the pipeline's stability index lies in (1/5.01, 100] |
| EmotionalMath.FlatProfileIsMaximallyStable | lib/emotional-math.ts:8-32 | when every active vector has the same value, all curvatures are 0 and the stability index is 100 |
| EmotionalMath.DominantIndex | lib/emotional-math.ts:44-45 | `indexOf(Math.max(...))`: an index holding the maximum, with every earlier entry strictly smaller |
| EmotionalMath.DominantCurvatureIndex | lib/emotional-math.ts:48-57 | none exactly when no vector is active; otherwise an active index with the largest curvature among active ones, the first such |
| EmotionalMath.Classify | lib/emotional-math.ts:59-87 | Volatile iff a negative emotion is at least 6 or the index is below 0.2; Unstable iff not Volatile and (negatives exceed 60% of the total, or two negatives are at least 4, or the index is below 0.5); else Stable |
| EmotionalMath.BiometricFlags | lib/emotional-math.ts:89-106 | each flag is present exactly when its threshold is crossed; the flags appear in the fixed order heart rate, volatility, dysregulation, stress; the list is empty exactly when no threshold is crossed |
| EmotionalMath.DiagnoseState | lib/emotional-math.ts:34-114 | names a label of a largest vector and of a most-curved active vector ("None" if none), with the classification and flags above |
| EmotionalMath.DominantIndexNamed | lib/emotional-math.ts:41-45 | the chosen label names a largest vector and no earlier vector ties it |
| EmotionalMath.CurvatureIndexNamed | lib/emotional-math.ts:48-57 | the chosen curvature label is "None" exactly when no vector is active, otherwise it names the first most-curved active vector |
| EmotionalMath.AllZeroIsJoy | lib/emotional-math.ts:44-57 | with all vectors zero, the dominant emotion is "Joy" and the dominant curvature "None" |
| EmotionAnalysis.MentalStability | app/page.tsx:88-100 | critical iff a negative emotion is at least 8; unstable iff not critical and (a negative is at least 6 or the index is below 0.3); else stable |
| EmotionAnalysis.AnalyzeEmotions | app/page.tsx:79-110 | the analysis record: pipeline results, curvature level = the largest curvature, the rating, the classification and the flags; the dominant emotion names the first largest vector, and the dominant curvature names the first most-curved active vector ("None" iff none is active) |
| EmotionAnalysis.RatingsAgree | app/page.tsx:88-100 | a rating other than stable implies a classification other than Stable; critical implies Volatile |
| EmotionAnalysis.RatingIgnoresJoyAndSurprise | app/page.tsx:91-100 | joy and surprise never change the rating |
| EmotionAnalysis.SeverityNotMonotone | lib/emotional-math.ts:75-87 | raising sadness from 1 to 2, with everything else fixed, turns Unstable into Stable |
| EmotionAnalysis.HighSadnessIsCritical | app/page.tsx:96-97 | a profile with sadness 9 is rated critical and classified Volatile |
| ChatTrends.TrendOf | app/api/chat/route.ts:251-262 | the slope solves the least-squares normal equation, the intercept line passes through the mean point, and the direction is "increasing" iff the slope is positive |
| ChatTrends.CalculateTrend | app/api/chat/route.ts:251-262 | the same for the sums of a value list |
| ChatTrends.SlopeUnique | app/api/chat/route.ts:258 | with at least two points, at most one slope solves the normal equation |
| ChatTrends.DenominatorPositive | app/api/chat/route.ts:258 | the slope denominator n·Σx² − (Σx)² is positive for n ≥ 2 |
| ChatTrends.ConstantHasZeroSlope | app/api/chat/route.ts:251-262 | a constant series has slope 0 |
| ChatTrends.RampHasUnitSlope | app/api/chat/route.ts:251-262 | the series 1, 2, 3, 4, 5 has slope exactly 1 |
| ChatTrends.KeyInsights | app/api/chat/route.ts:225-236 | at most one insight per emotion key, each a direction insight, strictly in key order |
| ChatTrends.StabilityInsight | app/api/chat/route.ts:239-246 | the low insight iff the mean is below 0.3, the good insight iff it is above 0.7, none otherwise |
| ChatTrends.AnalyzeEmotionalTrends | app/api/chat/route.ts:215-249 | the loop returns exactly the specified insight list |
| ChatTrends.InsightsShape | app/api/chat/route.ts:215-249 | at most 7 insights; none for fewer than 2 entries; emotion insights come first, in key order |
| ChatTrends.OnlyLastFiveCount | app/api/chat/route.ts:221 | only the last five entries affect the insights |
| ChatTrends.UnitRampGivesNoInsight | app/api/chat/route.ts:232-235 | an emotion rising by one per session produces no insight |
| ChatResponse.AnalyzeResponseType | app/api/chat/route.ts:333-380 | no messages gives "normal" and not minimal; every category other than normal is minimal; the original message is the last text |
| ChatResponse.ResponseTypeCases | app/api/chat/route.ts:366-377 | minimal iff the text is in the list or its `length` (UTF-16 code units) is at most 3; each category iff its word list, earlier lists taking precedence |
| ChatResponse.EmojiPairIsNotMinimal | app/api/chat/route.ts:366 | a message of two emoji is 4 UTF-16 code units long, so it is neither minimal nor categorised |
| TextMatch.Utf16Length | app/api/chat/route.ts:366 | `length` counts UTF-16 code units: between the number of characters and twice it, equal to it iff no character lies above U+FFFF, twice it iff every character does |
| TextMatch.TwoEmojiAreFourUnits | app/api/chat/route.ts:366 | two emoji are two characters but four UTF-16 code units |
| ChatResponse.CategoryWordsAreMinimal | app/api/chat/route.ts:338-375 | every category word is also a minimal response |
| ChatResponse.YesIsMinimalButNormal | app/api/chat/route.ts:366-377 | "yes" is minimal but stays "normal" |
| ChatResponse.CriticalEmotionsIff | app/api/chat/route.ts:150-154 | the crisis-indicator list is non-empty iff a negative emotion is at least 8 |
| ChatResponse.SystemPromptOrder | app/api/chat/route.ts:112-213 | the prompt sections appear in their fixed order; the principles and the guidelines are always present |
| ChatResponse.SystemPromptSections | app/api/chat/route.ts:125-200 | each optional section is present exactly when its condition holds |
| ChatResponse.UptoHas | app/api/chat/route.ts:112-213 | the prompt built so far holds a section iff its slot was reached and is non-empty |
| ChatResponse.CollectPersonalLines | app/api/chat/route.ts:125-140 | the appended personal lines are exactly the specified ones |
| ChatResponse.BuildSystemPrompt | app/api/chat/route.ts:112-213 | the built prompt is exactly the specified section list |
| ChatResponse.GenerateFallbackResponse | app/api/chat/route.ts:382-475 | each reply kind picks an index inside its own table; a personal reply carries a non-empty name |
| ChatResponse.ChoosePriority | app/api/chat/route.ts:388-474 | each reply kind is chosen iff its own condition holds and no earlier branch does |
| ChatResponse.FallbackPriority | app/api/chat/route.ts:382-475 | the same priority stated on the messages, emotions and personal context |
| ChatResponse.EmotionReplyIsDominant | app/api/chat/route.ts:411-453 | an emotion reply speaks for joy, sadness, anger or fear; that emotion is at least every other one and strictly above every later one |
| ChatResponse.LastMaxIndexIsLastMax | app/api/chat/route.ts:413-415 | the reduce keeps the last maximal entry |
| ChatResponse.DisgustIsNoFallbackCrisis | app/api/chat/route.ts:388-391 | disgust alone never triggers the crisis reply |
| ChatExtraction.FirstMatch | app/api/chat/route.ts:275-282 | the loop returns the first acceptable capture of the pattern list |
| ChatExtraction.AllMatches | app/api/chat/route.ts:322-328 | the loop returns every capture, in pattern order |
| ChatExtraction.MergeFound | app/api/chat/route.ts:277-327 | the merged record equals the specified merge |
| ChatExtraction.ExtractPersonalInformation | app/api/chat/route.ts:264-331 | the result equals the specified extraction of the last five messages |
| ChatExtraction.ExtractionShape | app/api/chat/route.ts:264-331 | the flag is set iff something was found; with no flag nothing changes; a new job is never one of the excluded words |
| ChatExtraction.FirstCaptureIsFirst | app/api/chat/route.ts:275-282 | the capture comes from the first pattern whose match is acceptable |
| ChatExtraction.FoundKeywordsIff | app/api/chat/route.ts:313 | a keyword is found iff it occurs in the text |
| ChatExtraction.RepeatedExtractionDuplicates | app/api/chat/route.ts:313-316 | extracting twice from the same messages appends the found relationships twice |
| ChatExtraction.ImWordIsTakenForAName | app/api/chat/route.ts:273-282 | in "i'm <word>…", the word becomes the name, capitalised |
| ChatExtraction.FeelingIsTakenForAName | app/api/chat/route.ts:273-289 | "i'm feeling sad" yields the name "Feeling": the excluded words apply to jobs only |
| ChatExtraction.ExtractedJob | app/api/chat/route.ts:284-293 | the job becomes the first accepted job capture, or stays as it was; a found name or job sets the flag |
| ChatExtraction.ExampleExtraction | app/api/chat/route.ts:269-293 | "my name is alex and i work as a teacher" gives the name "Alex" and the job "teacher", and sets the flag |
| TextMatch.Trim | components/therapy-personalization-panel.tsx:35 | `trim()`: no longer than the input, with no JavaScript white space at either end |
| TextMatch.TrimEmptyIff | components/therapy-personalization-panel.tsx:35 | the trimmed text is empty iff every character is white space |
| TextMatch.FindLeftmost | app/api/chat/route.ts:276 | `match` reports the capture at the leftmost position where the pattern matches, and nothing iff it matches nowhere |
| TextMatch.LastN | app/api/chat/route.ts:221 | `slice(-n)`: the last min(n, length) elements |
| PersonalContexts.AddAbsent | components/floating-chatbot.tsx:233-238 | the list is kept as a prefix and grows by at most the number of items |
| PersonalContexts.AddAbsentElements | components/floating-chatbot.tsx:233-238 | the result holds exactly the old elements and the items |
| PersonalContexts.AddAbsentNoDuplicates | components/mental-health-chatbot.tsx:160-164 | a list without duplicates stays without duplicates |
| PersonalContexts.AddAbsentIdempotent | components/mental-health-chatbot.tsx:160-164 | adding the same items again changes nothing |
| FloatingChatbot.CappedHistory | components/floating-chatbot.tsx:112 | the new history has between 1 and 10 entries and ends with the new one |
| FloatingChatbot.CappedIsLastTen | components/floating-chatbot.tsx:112 | `[...prev.slice(-9), t]` equals the last ten of `prev + [t]` |
| FloatingChatbot.HistoryIsLastTen | components/floating-chatbot.tsx:103-114 | after any number of analyses from a history of at most ten, the history is the last ten of all entries |
| FloatingChatbot.ShouldActivateCrisis | components/floating-chatbot.tsx:117-127 | on iff a negative emotion is at least 8 or the analysis is critical |
| FloatingChatbot.CrisisMatchesAnalysis | components/floating-chatbot.tsx:120-124 | for the pipeline's own analysis the crisis flag is on iff a negative emotion is at least 8 |
| FloatingChatbot.LearntNeverOverwrites | components/floating-chatbot.tsx:194-246 | a known name or job is kept, old interests stay a prefix, and the other fields are unchanged |
| FloatingChatbot.LearntName | components/floating-chatbot.tsx:200-208 | a learnt name is the capitalised first capture longer than one character; none iff there is no such capture |
| FloatingChatbot.LearntJob | components/floating-chatbot.tsx:211-224 | a learnt job is the first capture that is not blank, trimmed; none iff there is no such capture |
| FloatingChatbot.LearntInterestsNoDuplicates | components/floating-chatbot.tsx:227-241 | interests without duplicates stay without duplicates |
| FloatingChatbot.LearntIdempotent | components/floating-chatbot.tsx:194-246 | scanning the same message again changes nothing |
| FloatingChatbot.NothingLearntNoChange | components/floating-chatbot.tsx:243-245 | when nothing is marked updated the context is unchanged |
| FloatingChatbot.ScanName | components/floating-chatbot.tsx:200-208 | the loop computes the specified name update |
| FloatingChatbot.ScanJob | components/floating-chatbot.tsx:211-224 | the loop computes the specified job update |
| FloatingChatbot.ScanInterests | components/floating-chatbot.tsx:226-241 | the guarded loop computes the specified interest update |
| FloatingChatbot.AddCaptures | components/floating-chatbot.tsx:228-240 | the loop appends each trimmed capture that is absent; updated iff the list grew |
| FloatingChatbot.GenerateContextualMessage | components/floating-chatbot.tsx:254-321 | each of the seven topics iff its own condition and no earlier case's (tough time iff critical; calming iff curvature level above 0.6; then Sadness, Joy with index above 0.8, Fear, Anger; else the lower-cased dominant emotion); support, coping and celebration iff their topics; the name is used exactly for the tough-time, sadness, great-state and primary-emotion messages |
| FloatingChatbot.ContextualMessageOfAnalysis | components/floating-chatbot.tsx:254-321 | for the pipeline's own analysis, support iff a negative emotion is at least 8, never celebration then, and the closing message names joy, surprise or disgust |
| FloatingChatbot.PrimaryTopicIsUnhandledLabel | components/floating-chatbot.tsx:314-320 | for any of the six labels, the closing case names joy, surprise or disgust only |
| FloatingChatbot.InterfaceColor | components/floating-chatbot.tsx:323-327 | red iff in crisis mode; amber iff not in crisis and the index is below 0.5; the default blue iff neither |
| FloatingChatbot.FloatingChat.constructor | components/floating-chatbot.tsx:57-59 | starts with empty history and context, not in crisis |
| FloatingChatbot.FloatingChat.RecordAnalysis | components/floating-chatbot.tsx:103-114 | appends the new entry to the capped history iff both inputs are present; the bound of ten is kept; nothing else changes |
| FloatingChatbot.FloatingChat.DetectCrisis | components/floating-chatbot.tsx:117-127 | without emotions nothing changes, otherwise the flag is set to the crisis rule; nothing else changes |
| FloatingChatbot.FloatingChat.UpdatePersonalContext | components/floating-chatbot.tsx:194-246 | the new context is the specified learnt context; nothing else changes |
| MentalHealthChatbot.LearntNeverOverwrites | components/mental-health-chatbot.tsx:132-171 | a known name or job is kept, old interests stay a prefix, and the other fields are unchanged |
| MentalHealthChatbot.LearntName | components/mental-health-chatbot.tsx:136-144 | a learnt name is the capitalised first capture of any length; none iff no pattern matches |
| MentalHealthChatbot.LearntJob | components/mental-health-chatbot.tsx:146-154 | a learnt job is the first capture outside the excluded words, never an excluded word; none iff there is none |
| MentalHealthChatbot.LearntInterests | components/mental-health-chatbot.tsx:156-166 | every capture ends up in the interests, and no duplicates are introduced |
| MentalHealthChatbot.LearntIdempotent | components/mental-health-chatbot.tsx:132-171 | scanning the same message again changes nothing and reports no update |
| MentalHealthChatbot.NothingLearntNoChange | components/mental-health-chatbot.tsx:168-170 | when nothing is marked updated the context is unchanged |
| MentalHealthChatbot.OneLetterNameOnlyHere | components/mental-health-chatbot.tsx:136-144 | "call me j" gives the name "J" here, but nothing in the floating widget, which needs two letters |
| MentalHealthChatbot.CapitalisedFeelingIsTakenForAJob | components/mental-health-chatbot.tsx:146-154 | "I'm Feeling" gives the job "Feeling": the exclusion compares case-sensitively |
| MentalHealthChatbot.LowerFeelingIsNoJob | components/mental-health-chatbot.tsx:146-154 | "i'm feeling" gives no job |
| MentalHealthChatbot.ScanName | components/mental-health-chatbot.tsx:136-144 | the loop with its break computes the specified name update |
| MentalHealthChatbot.ScanJob | components/mental-health-chatbot.tsx:146-154 | the loop with its break computes the specified job update |
| MentalHealthChatbot.ScanInterests | components/mental-health-chatbot.tsx:156-166 | the loop computes the specified interest update |
| MentalHealthChatbot.MentalHealthChat.UpdatePersonalContext | components/mental-health-chatbot.tsx:132-171 | the new context is the specified learnt context |
| MentalHealthChatbot.Greeting | components/mental-health-chatbot.tsx:179-184 | "Hi " followed by the name when known, else "Hi there!", and the heart |
| MentalHealthChatbot.EmotionalContext | components/mental-health-chatbot.tsx:193-205 | empty iff there is no analysis, no emotions, or no emotion at 6 or more; otherwise it starts with "I notice you're experiencing " |
| MentalHealthChatbot.EmotionalContextEmptyIff | components/mental-health-chatbot.tsx:196-204 | with both present, empty iff every emotion is below 6 |
| MentalHealthChatbot.CriticalHasEmotionalContext | components/mental-health-chatbot.tsx:193-205 | a negative emotion at 8 or more always produces the context sentence |
| MentalHealthChatbot.OpeningFor | components/mental-health-chatbot.tsx:211-219 | crisis iff critical; unstable iff unstable; joy iff neither and the dominant emotion is Joy |
| MentalHealthChatbot.InitialMessageShape | components/mental-health-chatbot.tsx:207-220 | the message starts with the greeting and a space; the joy opening ignores the emotions |
| MentalHealthChatbot.InitialMessage | components/mental-health-chatbot.tsx:207-220 | starts with the greeting and a space; for the joy opening it is exactly the greeting and the joy text; otherwise the greeting, the emotional context and the closing sentence of the chosen opening |
| MentalHealthChatbot.CrisisOpeningOfAnalysis | components/mental-health-chatbot.tsx:207-212 | for the pipeline's analysis the crisis opening is used iff a negative emotion is at least 8, and it then carries a non-empty emotional context |
| MentalHealthChatbot.CrisisFlagAgreesWithFloatingWidget | components/mental-health-chatbot.tsx:98 | the crisis flag sent with each request is off before any analysis; for the pipeline's analysis it is on iff a negative emotion is at 8 or more, and it equals the floating widget's crisis rule |
| PdfReport.BiometricStatus | lib/pdf-generator.ts:349-353 | normal iff within [min, max]; critical iff outside and beyond 80% of min or 120% of max; never "high" |
| PdfReport.StatusBands | lib/pdf-generator.ts:349-353 | for positive bounds: elevated iff in one of the two 20% margins, critical iff beyond them |
| PdfReport.StressStatus | lib/pdf-generator.ts:175 | normal up to 3, elevated up to 6, high above 6 |
| PdfReport.StressStatusMonotone | lib/pdf-generator.ts:175 | a higher stress level never gets a milder status |
| PdfReport.BiometricRows | lib/pdf-generator.ts:145-177 | six rows; blood pressure is always normal; the last row is the stress status |
| PdfReport.AllRowsNormalIff | lib/pdf-generator.ts:145-177 | every row is normal iff each reading lies in its normal range |
| PdfReport.DominantEmotionColor | lib/pdf-generator.ts:315-325 | gray iff the name is not one of the six labels; Disgust shares Joy's green |
| PdfReport.StabilityColor | lib/pdf-generator.ts:327-335 | gray iff the rating is not one of the four lower-case keys |
| PdfReport.EmotionColor | lib/pdf-generator.ts:337-347 | gray iff the key is not one of the six lower-case emotion keys |
| PdfReport.StatusColor | lib/pdf-generator.ts:197-199 | green iff normal, amber iff elevated, red iff critical or high |
| PdfReport.ReportColorsAreListed | lib/pdf-generator.ts:52-57 | the pipeline's dominant emotion and rating always have a listed colour |
| PdfReport.CapitalisedRatingIsGray | lib/pdf-generator.ts:327-335 | a capitalised classification such as "Volatile" falls back to gray |
| PdfReport.GenerateRecommendations | lib/pdf-generator.ts:355-418 | the pushes produce exactly the specified list |
| PdfReport.PushEmotionItems | lib/pdf-generator.ts:359-381 | appends exactly the emotion-based items |
| PdfReport.PushLaterItems | lib/pdf-generator.ts:384-415 | appends exactly the stability, stress, curvature and general items |
| PdfReport.RecommendationsShape | lib/pdf-generator.ts:355-418 | 1 to 5 items in push order, ending with general wellness, with at most one emotion item |
| PdfReport.RecommendationsIff | lib/pdf-generator.ts:355-418 | each item is present exactly when its condition holds; general wellness always |
| ChatbotResponses.RandomIndex | lib/chatbot-responses.ts:45 | `Math.floor(roll * n)` is a valid index |
| ChatbotResponses.EmpathyResponses | lib/chatbot-responses.ts:6-43 | two responses per label, the single fallback for any other name |
| ChatbotResponses.StabilityComment | lib/chatbot-responses.ts:33-46 | missing iff the classification is not one of the three |
| ChatbotResponses.GenerateEmpatheticResponse | lib/chatbot-responses.ts:3-49 | one of the label's responses, a space, the stability comment ("undefined" when missing), the closing sentence |
| ChatbotResponses.RepliesForAnalysis | lib/chatbot-responses.ts:3-102 | for the pipeline's analysis no fallback text and no "undefined" is ever used |
| ChatbotResponses.EmotionAdvice | lib/chatbot-responses.ts:95-97 | one of the label's two advice texts, or the fallback exactly for a non-label |
| ChatbotResponses.StabilityGuidance | lib/chatbot-responses.ts:81-99 | missing iff the classification is not one of the three |
| ChatbotResponses.BiometricAdvice | lib/chatbot-responses.ts:90-93 | empty iff there are no flags; otherwise the lead, the lower-cased joined flags and the tail |
| ChatbotResponses.BiometricAdviceNamesEveryFlag | lib/chatbot-responses.ts:90-93 | every flag occurs, lower-cased, in the biometric advice |
| ChatbotResponses.GenerateAdvice | lib/chatbot-responses.ts:51-102 | starts with the emotion advice and a space, ends with the closing sentence |
| ChatbotResponses.AdviceMentionsFlags | lib/chatbot-responses.ts:90-101 | no biometric part iff there are no flags; every flag is mentioned |
| EmotionalChatbot.GenerateResponse | components/emotional-chatbot.tsx:72-109 | without analysis the general prompt; otherwise advice iff the message asks for help, empathy otherwise, with the matching generated text |
| EmotionalChatbot.AdviceTakesPrecedence | components/emotional-chatbot.tsx:83-102 | a message that both talks about feelings and asks for help gets advice |
| EmotionalChatbot.IndicatorSentence | components/emotional-chatbot.tsx:127 | empty iff there are no flags; names every flag |
| EmotionalChatbot.SummaryMentionsFlags | components/emotional-chatbot.tsx:127 | the analysis summary ends after the classification iff there are no flags, and names every flag |
| EmotionalChatbot.AnalysisSummary | components/emotional-chatbot.tsx:127 | begins with the fixed lead, then the dominant emotion in lower case, and ends with the indicator sentence for the flags |
| EmotionalChatbot.QuickReply | components/emotional-chatbot.tsx:117-130 | empathy, advice and analysis buttons give the empathy, advice and general reply types respectively (each an iff), and the reply is never empty |
| EmotionalChatbot.EmotionalChat.constructor | components/emotional-chatbot.tsx:26-28 | starts with the given messages, empty input, not typing |
| EmotionalChatbot.EmotionalChat.SendMessage | components/emotional-chatbot.tsx:37-51 | a blank user message changes nothing; otherwise the message is appended with its role, and a user message clears the input and starts typing |
| EmotionalChatbot.EmotionalChat.DeliverReply | components/emotional-chatbot.tsx:53-68 | appends the generated reply with its type and stops typing |
| EmotionalChatbot.EmotionalChat.SendQuickResponse | components/emotional-chatbot.tsx:111-141 | without analysis nothing changes; otherwise the quick reply of the chosen kind is appended |
| TrendChart.ChartData | components/emotional-trend-chart.tsx:24-32 | the last 14 entries, numbered from 1, with their stability and flag count |
| TrendChart.AverageStability | components/emotional-trend-chart.tsx:34-35 | 0 for no points; otherwise the average times the number of points is the sum of the stabilities |
| TrendChart.Trend | components/emotional-trend-chart.tsx:37 | 0 for fewer than two points; otherwise the first stability plus the trend is the last stability |
| TrendChart.RecentFlags | components/emotional-trend-chart.tsx:39-48 | a flag has an entry iff it occurs in the flags of the last seven entries, and the entry is its number of occurrences there |
| TrendChart.AverageWithin | components/emotional-trend-chart.tsx:34-35 | 0 for no points; otherwise the average lies within any bounds on the stabilities |
| TrendChart.TrendIsSumOfSteps | components/emotional-trend-chart.tsx:37 | last minus first equals the sum of the day-to-day changes |
| TrendChart.RecentFlagsCounts | components/emotional-trend-chart.tsx:39-48 | a flag is counted iff it occurs in the last seven entries, and its count is its number of occurrences |
| TrendChart.RecentFlagsTotal | components/emotional-trend-chart.tsx:39-48 | the counts add up to the number of flags in the last seven entries |
| TrendChart.TrendTone | components/emotional-trend-chart.tsx:96-98 | yellow iff the trend lies within ±5; never orange |
| TrendChart.AverageTone | components/emotional-trend-chart.tsx:79-86 | green iff the average is at least 70; yellow iff in [50, 70); orange iff in [35, 50); red iff below 35 |
| TrendChart.AverageToneMonotone | components/emotional-trend-chart.tsx:79-86 | a higher average never gets a worse colour |
| TrendChart.FlagVariant | components/emotional-trend-chart.tsx:147-149 | destructive iff the flag contains "Crisis"; secondary iff it contains "Instability" but not "Crisis"; outline otherwise |
| TrendChart.Insights | components/emotional-trend-chart.tsx:164-182 | each insight is shown exactly when its condition holds |
| TrendChart.InsightsIndependent | components/emotional-trend-chart.tsx:164-182 | improving and declining never appear together; the support and numbness insights do not depend on the trend |
| TrendChart.NumbnessWindowIsSeven | components/emotional-trend-chart.tsx:39-41 | numbness older than the last seven entries is not reported |
| TrendChart.NoFlags | components/emotional-trend-chart.tsx:41 | entries without flags contribute none |
| VisualizationPanel.ActiveIndices | components/visualization-panel.tsx:33-48 | the ascending list of exactly the positive positions |
| VisualizationPanel.FilterIsActiveIndices | components/visualization-panel.tsx:39 | `filter(intensity > 0)` keeps exactly the items at the active positions, in order |
| VisualizationPanel.RadarData | components/visualization-panel.tsx:33-39 | at most six items, each a named emotion label with intensity above zero |
| VisualizationPanel.CurvatureData | components/visualization-panel.tsx:41-48 | at most six items, each a named emotion label with intensity above zero |
| VisualizationPanel.RadarDataIsActive | components/visualization-panel.tsx:33-39 | the radar items are the labels with intensity above zero, with their vectors |
| VisualizationPanel.CurvatureDataIsActive | components/visualization-panel.tsx:41-48 | the curvature items are the labels with intensity above zero, with their curvatures |
| VisualizationPanel.TooltipRoundTrip | components/visualization-panel.tsx:52-200 | the tooltip recovers the stability index from its bar (×10 then ÷10), and the bar grows with the index |
| VisualizationPanel.BarValue | components/visualization-panel.tsx:52 | the bar divided by ten is the stability index |
| VisualizationPanel.TooltipValue | components/visualization-panel.tsx:200 | the shown value times ten is the bar value |
| VisualizationPanel.StabilityWordOf | components/visualization-panel.tsx:241-247 | Very Stable iff above 2; Stable iff above 0.5 and at most 2; Unstable iff above 0.2 and at most 0.5; Volatile iff at most 0.2 |
| VisualizationPanel.StabilityWordMonotone | components/visualization-panel.tsx:241-247 | a larger index never gets a less stable word |
| VisualizationPanel.VolatileBoundaryDiffers | components/visualization-panel.tsx:245-247 | at index 0.2 the panel says Volatile while the classification of a calm profile is Unstable |
| VisualizationPanel.EnergyWordOf | components/visualization-panel.tsx:234 | High iff above 200; Low iff at most 50 |
| VisualizationPanel.QuickInterpretation | components/visualization-panel.tsx:306-312 | each interpretation exactly under its condition, earlier ones taking precedence |
| VisualizationPanel.InterpretationAgreesWithWords | components/visualization-panel.tsx:234-312 | each interpretation is consistent with the energy and stability words shown beside it |
| GraphGuide.GuideMean | components/detailed-graph-guide.tsx:63-64 | 0 with no active vector, otherwise the pipeline's mean of the active vectors |
| GraphGuide.CalculateExampleMetrics | components/detailed-graph-guide.tsx:60-70 | six vectors and six curvatures |
| GraphGuide.MetricsMatchPipeline | components/detailed-graph-guide.tsx:60-70 | for non-negative intensities the guide's vectors, curvatures, energy and stability equal the pipeline's |
| GraphGuide.CurvaturesMatch | components/detailed-graph-guide.tsx:65 | for non-negative vectors the guide's curvatures equal the pipeline's |
| GraphGuide.NegativeInputDiverges | components/detailed-graph-guide.tsx:65 | a negative intensity makes the guide's curvature differ from the pipeline's |
| GraphGuide.ActiveCount | components/detailed-graph-guide.tsx:713 | at most 6, and zero iff no intensity is positive |
| GraphGuide.RadarPeaks | components/detailed-graph-guide.tsx:714-717 | sharp spikes iff some intensity exceeds 7 |
| GraphGuide.CurvatureBars | components/detailed-graph-guide.tsx:721-725 | high bars iff some curvature exceeds 0.8; low bars iff all are at most 0.3 |
| GraphGuide.EnergyBarMatchesPanel | components/detailed-graph-guide.tsx:729-733 | the guide's long and short bars coincide with the panel's High and Low energy words |
| GraphGuide.ScenarioPeaks | components/detailed-graph-guide.tsx:17-58 | the balanced scenario has six active emotions and shows moderate peaks; the other three show sharp spikes |
| TherapyPanel.Get | components/therapy-personalization-panel.tsx:12-21 | reading a field returns a value for that same field |
| TherapyPanel.UpdateSetting | components/therapy-personalization-panel.tsx:30-32 | the updated field reads back the new value and every other field is unchanged |
| TherapyPanel.UpdateLaws | components/therapy-personalization-panel.tsx:30-32 | writing back a read value changes nothing; a second write to a field wins; writes to different fields commute |
| TherapyPanel.AddWord | components/therapy-personalization-panel.tsx:34-38 | adds iff the trimmed word is non-empty and absent, appending it at the end |
| TherapyPanel.AddWordLaws | components/therapy-personalization-panel.tsx:34-38 | no duplicates are introduced; the word is then present; adding it again changes nothing; nothing is lost |
| TherapyPanel.RemoveWord | components/therapy-personalization-panel.tsx:40-45 | exactly the elements other than the word remain |
| TherapyPanel.RemoveWordLaws | components/therapy-personalization-panel.tsx:40-45 | no duplicates are introduced, and removal undoes a successful add |
| TherapyPanel.AddSafeWord | components/therapy-personalization-panel.tsx:34-38 | updates the safe words iff the word can be added |
| TherapyPanel.RemoveSafeWord | components/therapy-personalization-panel.tsx:40-45 | updates the safe words without the word |
| TherapyPanel.AddVisualAnchor | components/therapy-personalization-panel.tsx:47-51 | updates the anchors iff the anchor can be added |
| TherapyPanel.RemoveVisualAnchor | components/therapy-personalization-panel.tsx:53-58 | updates the anchors without the anchor |
| TherapyPanel.HandlersKeepListsValid | components/therapy-personalization-panel.tsx:34-58 | every handler keeps both lists free of duplicates and leaves the other list alone; removing the trimmed word undoes a successful add |

## Left out

- The network, fetch and the AI SDK call are left out. So are `handleSubmit`, `localStorage`,
  React state and effects, timers and scrolling. The models take their results as parameters or
  model the state update that follows them.
- The route's `POST` handler and the app/api/mental-health-chat route are left out. They are
  request plumbing around the functions modelled here.
- PDF drawing, layout and text wrapping are left out. The report is modelled by its data: rows,
  statuses, colours and recommendations.
- Number formatting with `toFixed` is left out. The percent string of the quick "analysis" reply
  is a parameter.
- `Math.random` is a `roll` in [0, 1) passed in by the caller.
- Timestamps and dates are plain parameters.
- Case mapping covers ASCII only. `toLowerCase`/`toUpperCase` of other letters is not modelled.
- The dashboard UI strings are left out: getPlaceholder, getMessageIcon, close buttons and panel
  layout. They do not affect state.
- The prose of the system prompt, the fallback replies and the contextual messages is modelled as
  tagged sections and reply kinds. Only their choice and order are modelled, not the exact
  wording. The chatbot-responses texts are kept verbatim.
- Floating point is modelled as exact real arithmetic: rounding, NaN and infinity are not modelled.
- FloatingChatbot.FloatingChat.UpdatePersonalContext: the spread copy of the context keeps a
  reference to the previous state's interests array. Each new interest is pushed into that shared
  array and then stored as the update, so the previous state object is changed in place as well.
  The model builds a new list and does not capture that aliasing.
- MentalHealthChatbot.MentalHealthChat.UpdatePersonalContext: the same aliasing happens here. The
  spread copy (components/mental-health-chatbot.tsx:133) shares the previous state's interests
  array, and each new interest is pushed into it (line 161) and then stored. The model builds a
  new list and does not capture that the previous state is changed in place.
- JavaScript object lookups such as `responses[key] || fallback` and `acc[flag] || 0` also find
  inherited keys such as "constructor"; the model's map lookups (ChatbotResponses.EmpathyResponses,
  ChatbotResponses.EmotionAdvice, TrendChart.Bump) do not. Labels and flags are fixed strings, so
  no such key reaches these lookups.
- ChatTrends.CalculateTrend: requires at least two values. The source only calls it with two to
  five, and with fewer it divides by zero.
- GraphGuide.MetricsMatchPipeline: assumes non-negative intensities. The sliders never give
  negative ones, and GraphGuide.NegativeInputDiverges shows the guide and the pipeline differ
  otherwise.
- TherapyPanel.UpdateSetting: the crisis-threshold slider's bounds (10 to 50 in steps of 5) come
  from the slider widget and are not enforced by `updateSetting`, so the model does not enforce
  them either.
