/** The decisions inside the PDF report of lib/pdf-generator.ts: the status
    of each biometric reading, the colours looked up for emotions, ratings
    and statuses, and the ordered list of recommendations. The drawing
    itself is not modelled. */
module PdfReport {
  import opened EmotionalMath
  import opened EmotionAnalysis
  import ChatTrends

  // ---------------------------------------------------------------------
  // Biometric status
  // ---------------------------------------------------------------------

  datatype Status = Normal | Elevated | Critical | High

  /** getBiometricStatus: inside [min, max] is normal; more than 20% below
      min or above max is critical; anything else is elevated. */
  function BiometricStatus(value: real, min: real, max: real): (st: Status)
    ensures st == Normal <==> min <= value <= max
    ensures st == Critical <==> !(min <= value <= max) && (value < min * 0.8 || value > max * 1.2)
    ensures st != High
  {
    if min <= value && value <= max then Normal
    else if value < min * 0.8 || value > max * 1.2 then Critical
    else Elevated
  }

  /** For a range of positive values the three statuses are three bands:
      elevated is within 20% outside the range, critical beyond that. */
  lemma StatusBands(value: real, min: real, max: real)
    requires 0.0 < min <= max
    ensures BiometricStatus(value, min, max) == Elevated <==>
      (min * 0.8 <= value < min) || (max < value <= max * 1.2)
    ensures BiometricStatus(value, min, max) == Critical <==>
      value < min * 0.8 || value > max * 1.2
  {
  }

  /** The stress row: at most 3 is normal, at most 6 elevated, else high. */
  function StressStatus(level: real): (st: Status)
    ensures st == Normal <==> level <= 3.0
    ensures st == Elevated <==> 3.0 < level <= 6.0
    ensures st == High <==> level > 6.0
  {
    if level <= 3.0 then Normal else if level <= 6.0 then Elevated else High
  }

  function Severity(st: Status): nat {
    match st
    case Normal => 0
    case Elevated => 1
    case Critical => 2
    case High => 2
  }

  /** More stress never gives a milder status. */
  lemma StressStatusMonotone(a: real, b: real)
    requires a <= b
    ensures Severity(StressStatus(a)) <= Severity(StressStatus(b))
  {
  }

  /** The readings the report takes (not those of the analysis form). */
  datatype ReportBiometrics = ReportBiometrics(
    heartRate: real,
    bloodPressure: string,
    temperature: real,
    respiratoryRate: real,
    oxygenSaturation: real,
    stressLevel: real)

  datatype Row = Row(title: string, status: Status)

  /** The rows of the biometric table, in order; blood pressure is always
      reported normal. */
  function BiometricRows(b: ReportBiometrics): (rows: seq<Row>)
    ensures |rows| == 6
    ensures rows[1] == Row("Blood Pressure", Normal)
    ensures rows[5].status == StressStatus(b.stressLevel)
  {
    [Row("Heart Rate", BiometricStatus(b.heartRate, 60.0, 100.0)),
     Row("Blood Pressure", Normal),
     Row("Temperature", BiometricStatus(b.temperature, 97.0, 99.0)),
     Row("Respiratory Rate", BiometricStatus(b.respiratoryRate, 12.0, 20.0)),
     Row("Oxygen Saturation", BiometricStatus(b.oxygenSaturation, 95.0, 100.0)),
     Row("Stress Level", StressStatus(b.stressLevel))]
  }

  /** Every row is normal exactly when each reading is inside its normal
      range and stress is at most 3. */
  lemma AllRowsNormalIff(b: ReportBiometrics)
    ensures (forall i :: 0 <= i < 6 ==> BiometricRows(b)[i].status == Normal) <==>
      && 60.0 <= b.heartRate <= 100.0
      && 97.0 <= b.temperature <= 99.0
      && 12.0 <= b.respiratoryRate <= 20.0
      && 95.0 <= b.oxygenSaturation <= 100.0
      && b.stressLevel <= 3.0
  {
    var rows := BiometricRows(b);
    assert rows[0].status == BiometricStatus(b.heartRate, 60.0, 100.0);
    assert rows[2].status == BiometricStatus(b.temperature, 97.0, 99.0);
    assert rows[3].status == BiometricStatus(b.respiratoryRate, 12.0, 20.0);
    assert rows[4].status == BiometricStatus(b.oxygenSaturation, 95.0, 100.0);
  }

  // ---------------------------------------------------------------------
  // Colour lookups
  // ---------------------------------------------------------------------

  datatype Rgb = Rgb(r: int, g: int, b: int)

  const Gray := Rgb(107, 114, 128)
  const Green := Rgb(34, 197, 94)
  const Blue := Rgb(59, 130, 246)
  const Red := Rgb(239, 68, 68)
  const Purple := Rgb(168, 85, 247)
  const Amber := Rgb(251, 191, 36)

  const DominantEmotionColors: map<string, Rgb> := map[
    "Joy" := Green, "Sadness" := Blue, "Anger" := Red,
    "Fear" := Purple, "Surprise" := Amber, "Disgust" := Green]

  const StabilityColors: map<string, Rgb> := map[
    "stable" := Green, "unstable" := Amber, "volatile" := Red, "critical" := Red]

  const EmotionColors: map<string, Rgb> := map[
    "joy" := Green, "sadness" := Blue, "anger" := Red,
    "fear" := Purple, "surprise" := Amber, "disgust" := Green]

  /** `colors[key] || [107, 114, 128]`: the listed colour, or gray for a
      key the table does not list (DominantEmotionColor, StabilityColor,
      EmotionColor). */
  function ColorOf(colors: map<string, Rgb>, key: string): Rgb {
    if key in colors then colors[key] else Gray
  }

  /** getDominantEmotionColor: gray exactly for a name that is not one of
      the six labels; Disgust shares Joy's green. */
  function DominantEmotionColor(emotion: string): (c: Rgb)
    ensures c == Gray <==> emotion !in Labels
    ensures emotion == "Disgust" ==> c == Green
  {
    ColorOf(DominantEmotionColors, emotion)
  }

  /** getStabilityColor: gray exactly for a rating the table does not list;
      it is keyed by the lower-case ratings. */
  function StabilityColor(rating: string): (c: Rgb)
    ensures c == Gray <==> rating != "stable" && rating != "unstable" && rating != "volatile" && rating != "critical"
  {
    ColorOf(StabilityColors, rating)
  }

  /** getEmotionColor: gray exactly for a key that is not an emotion key. */
  function EmotionColor(key: string): (c: Rgb)
    ensures c == Gray <==> key !in ChatTrends.EmotionKeys
  {
    ColorOf(EmotionColors, key)
  }

  /** The colours the report looks up for an analysis are never the gray
      default: the dominant emotion is always one of the labels and the
      rating one of the three. */
  lemma ReportColorsAreListed(e: Emotions, b: Biometrics)
    ensures DominantEmotionColor(AnalyzeEmotions(e, b).dominantEmotion) != Gray
    ensures StabilityColor(AnalyzeEmotions(e, b).mentalStability) != Gray
  {
    var a := AnalyzeEmotions(e, b);
    assert a.dominantEmotion in Labels;
    AnalysisStabilityColor(a.mentalStability, e, a.stabilityIndex);
  }

  lemma AnalysisStabilityColor(rating: string, e: Emotions, s: real)
    requires rating == MentalStability(e, s)
    ensures StabilityColor(rating) != Gray
  {
  }

  /** Only a key outside the tables falls back to gray, such as the
      capitalised classification "Volatile". */
  lemma CapitalisedRatingIsGray()
    ensures StabilityColor("Volatile") == Gray
  {
    assert "Volatile"[0] == 'V';
  }

  /** The colour of a status in the biometric table: green for normal,
      amber for elevated, red for anything else. */
  function StatusColor(st: Status): (c: Rgb)
    ensures c == Green <==> st == Normal
    ensures c == Amber <==> st == Elevated
    ensures c == Red <==> st == Critical || st == High
  {
    match st
    case Normal => Green
    case Elevated => Amber
    case _ => Red
  }

  // ---------------------------------------------------------------------
  // generateRecommendations
  // ---------------------------------------------------------------------

  datatype Recommendation =
    | MoodEnhancement       // "Mood Enhancement Activities"
    | AngerManagement       // "Anger Management Techniques"
    | AnxietyReduction      // "Anxiety Reduction Strategies"
    | StabilityBuilding     // "Emotional Stability Building"
    | StressReduction       // "Stress Reduction Protocol"
    | EmotionalRegulation   // "Emotional Regulation Support"
    | GeneralWellness       // "General Wellness Maintenance"

  /** The position each recommendation takes in the list. */
  function Rank(r: Recommendation): nat {
    match r
    case MoodEnhancement => 0
    case AngerManagement => 1
    case AnxietyReduction => 2
    case StabilityBuilding => 3
    case StressReduction => 4
    case EmotionalRegulation => 5
    case GeneralWellness => 6
  }

  function When(c: bool, r: Recommendation): seq<Recommendation> {
    if c then [r] else []
  }

  /** The items pushed for the dominant emotion. */
  function EmotionItems(a: AnalysisResult, e: Emotions): seq<Recommendation> {
    When(a.dominantEmotion == "Sadness" && e.sadness >= 7.0, MoodEnhancement)
    + When(a.dominantEmotion == "Anger" && e.anger >= 7.0, AngerManagement)
    + When(a.dominantEmotion == "Fear" && e.fear >= 7.0, AnxietyReduction)
  }

  /** The items pushed for stability, stress and curvature, then the
      general item. */
  function LaterItems(a: AnalysisResult, stressLevel: real): seq<Recommendation> {
    When(a.stabilityIndex < 0.3, StabilityBuilding)
    + When(stressLevel > 6.0, StressReduction)
    + When(a.curvatureLevel > 0.6, EmotionalRegulation)
    + [GeneralWellness]
  }

  /** The recommendations, in the order they are pushed. */
  function Recommendations(a: AnalysisResult, e: Emotions, stressLevel: real): seq<Recommendation> {
    EmotionItems(a, e) + LaterItems(a, stressLevel)
  }

  /** generateRecommendations: one push per rule that applies, then the
      general item. */
  method GenerateRecommendations(a: AnalysisResult, e: Emotions, b: ReportBiometrics)
    returns (recommendations: seq<Recommendation>)
    ensures recommendations == Recommendations(a, e, b.stressLevel)
  {
    recommendations := PushEmotionItems([], a, e);
    recommendations := PushLaterItems(recommendations, a, b.stressLevel);
  }

  /** The pushes for the dominant emotion. */
  method PushEmotionItems(rs: seq<Recommendation>, a: AnalysisResult, e: Emotions)
    returns (recommendations: seq<Recommendation>)
    ensures recommendations == rs + EmotionItems(a, e)
  {
    recommendations := rs;
    if a.dominantEmotion == "Sadness" && e.sadness >= 7.0 {
      recommendations := recommendations + [MoodEnhancement];
    }
    if a.dominantEmotion == "Anger" && e.anger >= 7.0 {
      recommendations := recommendations + [AngerManagement];
    }
    if a.dominantEmotion == "Fear" && e.fear >= 7.0 {
      recommendations := recommendations + [AnxietyReduction];
    }
  }

  /** The pushes for stability, stress and curvature, then the general item. */
  method PushLaterItems(rs: seq<Recommendation>, a: AnalysisResult, stressLevel: real)
    returns (recommendations: seq<Recommendation>)
    ensures recommendations == rs + LaterItems(a, stressLevel)
  {
    recommendations := rs;
    if a.stabilityIndex < 0.3 {
      recommendations := recommendations + [StabilityBuilding];
    }
    if stressLevel > 6.0 {
      recommendations := recommendations + [StressReduction];
    }
    if a.curvatureLevel > 0.6 {
      recommendations := recommendations + [EmotionalRegulation];
    }
    recommendations := recommendations + [GeneralWellness];
  }

  predicate RankSorted(rs: seq<Recommendation>) {
    forall i, j :: 0 <= i < j < |rs| ==> Rank(rs[i]) < Rank(rs[j])
  }

  predicate RanksIn(rs: seq<Recommendation>, lo: nat, hi: nat) {
    forall i :: 0 <= i < |rs| ==> lo <= Rank(rs[i]) < hi
  }

  /** Pushing an item of a higher rank than all before keeps the list in
      rank order. */
  lemma PushInOrder(rs: seq<Recommendation>, lo: nat, c: bool, r: Recommendation)
    requires RankSorted(rs) && RanksIn(rs, lo, Rank(r)) && lo <= Rank(r)
    ensures RankSorted(rs + When(c, r)) && RanksIn(rs + When(c, r), lo, Rank(r) + 1)
  {
  }

  /** The emotion items: at most one, each of rank below 3. */
  lemma EmotionItemsShape(a: AnalysisResult, e: Emotions)
    ensures |EmotionItems(a, e)| <= 1 && RanksIn(EmotionItems(a, e), 0, 3)
  {
  }

  /** The later items: in rank order, of rank 3 and above, ending with the
      general item. */
  lemma LaterItemsShape(a: AnalysisResult, stressLevel: real)
    ensures 1 <= |LaterItems(a, stressLevel)| <= 4
    ensures LaterItems(a, stressLevel)[|LaterItems(a, stressLevel)| - 1] == GeneralWellness
    ensures RankSorted(LaterItems(a, stressLevel)) && RanksIn(LaterItems(a, stressLevel), 3, 7)
  {
    PushesInOrder(a.stabilityIndex < 0.3, stressLevel > 6.0, a.curvatureLevel > 0.6);
  }

  lemma PushesInOrder(c4: bool, c5: bool, c6: bool)
    ensures var rs := When(c4, StabilityBuilding) + When(c5, StressReduction)
      + When(c6, EmotionalRegulation) + [GeneralWellness];
      && 1 <= |rs| <= 4 && rs[|rs| - 1] == GeneralWellness
      && RankSorted(rs) && RanksIn(rs, 3, 7)
  {
    var w4 := When(c4, StabilityBuilding);
    PushInOrder([], 3, c4, StabilityBuilding);
    assert [] + When(c4, StabilityBuilding) == w4;
    var w5 := w4 + When(c5, StressReduction);
    PushInOrder(w4, 3, c5, StressReduction);
    var w6 := w5 + When(c6, EmotionalRegulation);
    PushInOrder(w5, 3, c6, EmotionalRegulation);
    PushInOrder(w6, 3, true, GeneralWellness);
    assert When(true, GeneralWellness) == [GeneralWellness];
  }

  /** The list always ends with the general item, holds one to five items
      in rank order (so none twice), and an emotion-specific item only in
      first place, so at most one of them. */
  lemma RecommendationsShape(a: AnalysisResult, e: Emotions, stressLevel: real)
    ensures var rs := Recommendations(a, e, stressLevel);
      && 1 <= |rs| <= 5
      && rs[|rs| - 1] == GeneralWellness
      && RankSorted(rs)
      && (forall j :: 1 <= j < |rs| ==> Rank(rs[j]) >= 3)
  {
    var head, tail := EmotionItems(a, e), LaterItems(a, stressLevel);
    EmotionItemsShape(a, e);
    LaterItemsShape(a, stressLevel);
    var rs := head + tail;
    forall i, j | 0 <= i < j < |rs| ensures Rank(rs[i]) < Rank(rs[j]) {
      assert j >= |head|;
      assert rs[j] == tail[j - |head|];
      if i >= |head| {
        assert rs[i] == tail[i - |head|];
      }
    }
    forall j | 1 <= j < |rs| ensures Rank(rs[j]) >= 3 {
      assert rs[j] == tail[j - |head|];
    }
  }

  /** Each rule's item is in the list exactly when the rule applies. */
  lemma RecommendationsIff(a: AnalysisResult, e: Emotions, stressLevel: real)
    ensures var rs := Recommendations(a, e, stressLevel);
      && (MoodEnhancement in rs <==> a.dominantEmotion == "Sadness" && e.sadness >= 7.0)
      && (AngerManagement in rs <==> a.dominantEmotion == "Anger" && e.anger >= 7.0)
      && (AnxietyReduction in rs <==> a.dominantEmotion == "Fear" && e.fear >= 7.0)
      && (StabilityBuilding in rs <==> a.stabilityIndex < 0.3)
      && (StressReduction in rs <==> stressLevel > 6.0)
      && (EmotionalRegulation in rs <==> a.curvatureLevel > 0.6)
      && GeneralWellness in rs
  {
  }
}
