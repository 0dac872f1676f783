/** analyzeEmotions of app/page.tsx: runs the geometry pipeline in order,
    takes the largest curvature as the curvature level and derives the
    three-way mental-stability rating from the negative emotions and the
    stability index. */
module EmotionAnalysis {
  import opened EmotionalMath

  datatype AnalysisResult = AnalysisResult(
    emotionVectors: seq<real>,
    curvatures: seq<real>,
    emotionalEnergy: real,
    stabilityIndex: real,
    dominantEmotion: string,
    dominantCurvature: string,
    classification: string,
    biometricFlags: seq<string>,
    curvatureLevel: real,
    mentalStability: string)

  /** The mentalStability if-chain: "critical" when some negative emotion is
      at least 8, else "unstable" when one is at least 6 or the stability index
      is below 0.3, else "stable". */
  function MentalStability(e: Emotions, stabilityIndex: real): (m: string)
    ensures m == "critical" || m == "unstable" || m == "stable"
    ensures m == "critical" <==> SomeNegativeAtLeast(e, 8.0)
    ensures m == "unstable" <==>
      !SomeNegativeAtLeast(e, 8.0) && (SomeNegativeAtLeast(e, 6.0) || stabilityIndex < 0.3)
  {
    var negatives := Negatives(e);
    NegativeCount(e, 8.0);
    NegativeCount(e, 6.0);
    if CountAtLeast(negatives, 8.0) > 0 then "critical"
    else if CountAtLeast(negatives, 6.0) > 0 || stabilityIndex < 0.3 then "unstable"
    else "stable"
  }

  /** The analysis record, each value computed from the previous ones. */
  function AnalyzeEmotions(e: Emotions, b: Biometrics): (a: AnalysisResult)
    ensures a.emotionVectors == ComputeEmotionVectors(e)
    ensures a.curvatures == CalculateCurvature(a.emotionVectors)
    ensures a.emotionalEnergy == CalculateEmotionalEnergy(a.emotionVectors)
    ensures a.stabilityIndex == CalculateStabilityIndex(a.curvatures)
    ensures 0.0 < a.stabilityIndex <= 100.0
    ensures |a.curvatures| == 6
    ensures a.curvatureLevel >= 0.0 && a.curvatureLevel in a.curvatures
    ensures forall i :: 0 <= i < 6 ==> a.curvatures[i] <= a.curvatureLevel
    ensures a.mentalStability == MentalStability(e, a.stabilityIndex)
    ensures a.classification == Classify(e, a.stabilityIndex)
    ensures a.biometricFlags == BiometricFlags(b)
    ensures a.dominantEmotion in Labels
    ensures NamesLargest(a.dominantEmotion, a.emotionVectors)
    ensures NamesMostCurved(a.dominantCurvature, a.emotionVectors, a.curvatures)
  {
    var vectors := ComputeEmotionVectors(e);
    var curvatures := CalculateCurvature(vectors);
    var energy := CalculateEmotionalEnergy(vectors);
    var stability := CalculateStabilityIndex(curvatures);
    var diagnosis := DiagnoseState(e, b, vectors, curvatures, stability);
    var level := Max(curvatures);
    assert level >= curvatures[0] >= 0.0;
    AnalysisResult(
      vectors, curvatures, energy, stability,
      diagnosis.dominantEmotion, diagnosis.dominantCurvature, diagnosis.classification,
      diagnosis.biometricFlags, level, MentalStability(e, stability))
  }

  /** The two ratings agree in direction: a rating other than "stable" means
      the classification is not "Stable", and "critical" means "Volatile". */
  lemma RatingsAgree(e: Emotions, stabilityIndex: real)
    ensures MentalStability(e, stabilityIndex) != "stable" ==> Classify(e, stabilityIndex) != "Stable"
    ensures MentalStability(e, stabilityIndex) == "critical" ==> Classify(e, stabilityIndex) == "Volatile"
  {
  }

  /** Joy and surprise enter the rating only through the stability index. */
  lemma RatingIgnoresJoyAndSurprise(e: Emotions, joy: real, surprise: real, stabilityIndex: real)
    ensures MentalStability(e.(joy := joy, surprise := surprise), stabilityIndex)
         == MentalStability(e, stabilityIndex)
  {
  }

  // ------------------------------------------- severity is not monotone

  /** The profile joy 10, sadness `sadness`, anger 1, surprise 1. */
  function Profile(sadness: real): Emotions {
    Emotions(10.0, sadness, 1.0, 0.0, 1.0, 0.0)
  }

  lemma ProfileActive(x: real)
    requires x > 0.0
    ensures Positives([12.0, x, 1.2, 0.0, 1.2, 0.0]) == [12.0, x, 1.2, 1.2]
    ensures Sum([12.0, x, 1.2, 1.2]) == 14.4 + x
  {
    var v1 := [12.0];
    assert v1[..0] == [];
    assert Positives(v1) == [12.0];
    var v2 := v1 + [x];
    assert v2[..1] == v1;
    assert Positives(v2) == [12.0, x];
    var v3 := v2 + [1.2];
    assert v3[..2] == v2;
    assert Positives(v3) == [12.0, x, 1.2];
    var v4 := v3 + [0.0];
    assert v4[..3] == v3;
    assert Positives(v4) == [12.0, x, 1.2];
    var v5 := v4 + [1.2];
    assert v5[..4] == v4;
    assert Positives(v5) == [12.0, x, 1.2, 1.2];
    var v6 := v5 + [0.0];
    assert v6[..5] == v5;
    assert v6 == [12.0, x, 1.2, 0.0, 1.2, 0.0];
    var p1 := [12.0];
    assert p1[..0] == [];
    assert Sum(p1) == 12.0;
    var p2 := p1 + [x];
    assert p2[..1] == p1;
    assert Sum(p2) == 12.0 + x;
    var p3 := p2 + [1.2];
    assert p3[..2] == p2;
    assert Sum(p3) == 13.2 + x;
    var p4 := p3 + [1.2];
    assert p4[..3] == p3;
    assert p4 == [12.0, x, 1.2, 1.2];
  }

  lemma StabilityFromTop(ks: seq<real>, top: real)
    requires ks != [] && NonNegative(ks) && ks[0] == top
    requires forall i :: 0 <= i < |ks| ==> ks[i] <= top
    ensures CalculateStabilityIndex(ks) == 1.0 / (top + Epsilon)
  {
    assert Max(ks) == top;
  }

  lemma LowSadnessGeometry()
    ensures ComputeEmotionVectors(Profile(1.0)) == [12.0, 1.2, 1.2, 0.0, 1.2, 0.0]
    ensures CalculateCurvature([12.0, 1.2, 1.2, 0.0, 1.2, 0.0])
         == [8.1 / 3.91, 2.7 / 3.91, 2.7 / 3.91, 0.0, 2.7 / 3.91, 0.0]
  {
    ProfileActive(1.2);
    assert ActiveMean([12.0, 1.2, 1.2, 0.0, 1.2, 0.0]) == 3.9;
  }

  lemma HigherSadnessGeometry()
    ensures ComputeEmotionVectors(Profile(2.0)) == [12.0, 2.4, 1.2, 0.0, 1.2, 0.0]
    ensures CalculateCurvature([12.0, 2.4, 1.2, 0.0, 1.2, 0.0])
         == [7.8 / 4.21, 1.8 / 4.21, 3.0 / 4.21, 0.0, 3.0 / 4.21, 0.0]
  {
    ProfileActive(2.4);
    assert ActiveMean([12.0, 2.4, 1.2, 0.0, 1.2, 0.0]) == 4.2;
  }

  /** Joy 10 with sadness, anger and surprise at 1: the stability index is
      3.91 / 8.1391, about 0.480, so the state is "Unstable". */
  lemma LowSadnessIsUnstable(b: Biometrics)
    ensures AnalyzeEmotions(Profile(1.0), b).classification == "Unstable"
  {
    LowSadnessGeometry();
    StabilityFromTop([8.1 / 3.91, 2.7 / 3.91, 2.7 / 3.91, 0.0, 2.7 / 3.91, 0.0], 8.1 / 3.91);
    var s := AnalyzeEmotions(Profile(1.0), b).stabilityIndex;
    assert s == 1.0 / (8.1 / 3.91 + 0.01);
    assert 0.2 <= s < 0.5;
  }

  /** Raising sadness to 2 gives a stability index of 4.21 / 7.8421, about
      0.537, and none of the other "Unstable" conditions holds. */
  lemma HigherSadnessIsStable(b: Biometrics)
    ensures AnalyzeEmotions(Profile(2.0), b).classification == "Stable"
  {
    HigherSadnessGeometry();
    StabilityFromTop([7.8 / 4.21, 1.8 / 4.21, 3.0 / 4.21, 0.0, 3.0 / 4.21, 0.0], 7.8 / 4.21);
    var s := AnalyzeEmotions(Profile(2.0), b).stabilityIndex;
    assert s == 1.0 / (7.8 / 4.21 + 0.01);
    assert s >= 0.5;
    HigherSadnessIsCalm();
  }

  /** The negatives of that profile make up 3 of 14 and none reaches 4. */
  lemma HigherSadnessIsCalm()
    ensures !MostlyNegative(Profile(2.0))
    ensures CountAtLeast(Negatives(Profile(2.0)), 4.0) == 0
  {
    var n := Negatives(Profile(2.0));
    assert n == [2.0, 0.0, 1.0, 0.0];
    var n1 := [2.0];
    assert n1[..0] == [];
    assert Sum(n1) == 2.0 && CountAtLeast(n1, 4.0) == 0;
    var n2 := n1 + [0.0];
    assert n2[..1] == n1;
    assert Sum(n2) == 2.0 && CountAtLeast(n2, 4.0) == 0;
    var n3 := n2 + [1.0];
    assert n3[..2] == n2;
    assert Sum(n3) == 3.0 && CountAtLeast(n3, 4.0) == 0;
    var n4 := n3 + [0.0];
    assert n4[..3] == n3;
    assert n4 == n;
    var pos := [10.0, 1.0];
    assert pos[..1] == [10.0] && pos[..1][..0] == [];
    assert Sum(pos) == 11.0;
  }

  /** So the classification is not monotone in a negative emotion. */
  lemma SeverityNotMonotone(b: Biometrics)
    ensures AnalyzeEmotions(Profile(1.0), b).classification == "Unstable"
    ensures AnalyzeEmotions(Profile(2.0), b).classification == "Stable"
    ensures Profile(1.0).sadness < Profile(2.0).sadness
  {
    LowSadnessIsUnstable(b);
    HigherSadnessIsStable(b);
  }

  /** The profile of the example in the documentation, (0, 9, 2, 6, 0, 3),
      is rated "critical" and classified "Volatile" whatever its stability. */
  lemma HighSadnessIsCritical(b: Biometrics)
    ensures AnalyzeEmotions(Emotions(0.0, 9.0, 2.0, 6.0, 0.0, 3.0), b).mentalStability == "critical"
    ensures AnalyzeEmotions(Emotions(0.0, 9.0, 2.0, 6.0, 0.0, 3.0), b).classification == "Volatile"
  {
  }
}
