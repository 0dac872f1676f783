/** The emotional-geometry pipeline of lib/emotional-math.ts: intensities are
    scaled into vectors, each active vector's deviation from the mean of the
    active vectors gives its curvature, the sum of squares gives the energy,
    and the largest curvature gives the stability index. diagnoseState then
    names the dominant emotion and curvature, classifies the state and
    raises biometric flags. */
module EmotionalMath {
  import opened TextMatch

  /** The six intensities of EmotionData, in declaration order. */
  datatype Emotions = Emotions(joy: real, sadness: real, anger: real, fear: real, surprise: real, disgust: real)

  datatype Biometrics = Biometrics(heartRate: real, skinConductance: real, voicePitchVariance: real, breathRate: real)

  datatype Diagnosis = Diagnosis(
    dominantEmotion: string,
    dominantCurvature: string,
    classification: string,
    biometricFlags: seq<string>)

  const Labels: seq<string> := ["Joy", "Sadness", "Anger", "Fear", "Surprise", "Disgust"]
  const ScaleFactor: real := 1.2
  const Epsilon: real := 0.01

  const HeartRateFlag: string := "Elevated Heart Rate"
  const VolatilityFlag: string := "High Emotional Volatility"
  const DysregulationFlag: string := "Physiological Dysregulation"
  const StressFlag: string := "High Stress Response"

  /** `Object.values(emotions)`. */
  function Intensities(e: Emotions): (xs: seq<real>)
    ensures |xs| == 6
  {
    [e.joy, e.sadness, e.anger, e.fear, e.surprise, e.disgust]
  }

  /** The sliders offer 0 to 10. */
  predicate InSliderRange(e: Emotions) {
    forall i :: 0 <= i < 6 ==> 0.0 <= Intensities(e)[i] <= 10.0
  }

  predicate NonNegative(xs: seq<real>) {
    forall i :: 0 <= i < |xs| ==> xs[i] >= 0.0
  }

  function Abs(x: real): real { if x < 0.0 then -x else x }

  // ------------------------------------------------------- reductions

  /** `xs.reduce((sum, v) => sum + v, 0)`. */
  function Sum(xs: seq<real>): real {
    if xs == [] then 0.0 else Sum(xs[..|xs| - 1]) + xs[|xs| - 1]
  }

  lemma {:induction false} SumBounds(xs: seq<real>, i: nat)
    requires NonNegative(xs) && i < |xs|
    ensures 0.0 <= xs[i] <= Sum(xs)
  {
    var n := |xs| - 1;
    SumNonNegative(xs[..n]);
    if i < n {
      SumBounds(xs[..n], i);
    }
  }

  lemma {:induction false} SumNonNegative(xs: seq<real>)
    requires NonNegative(xs)
    ensures Sum(xs) >= 0.0
  {
    if xs != [] {
      SumNonNegative(xs[..|xs| - 1]);
    }
  }

  /** A sum of n copies of c is n * c. */
  lemma {:induction false} SumConstant(xs: seq<real>, c: real)
    requires forall i :: 0 <= i < |xs| ==> xs[i] == c
    ensures Sum(xs) == (|xs| as real) * c
  {
    if xs != [] {
      SumConstant(xs[..|xs| - 1], c);
    }
  }

  /** `xs.filter((v) => v > 0)`. */
  function Positives(xs: seq<real>): (ps: seq<real>)
    ensures |ps| <= |xs|
    ensures forall i :: 0 <= i < |ps| ==> ps[i] > 0.0
    ensures ps == [] <==> forall i :: 0 <= i < |xs| ==> xs[i] <= 0.0
  {
    if xs == [] then []
    else
      var init := xs[..|xs| - 1];
      assert forall i :: 0 <= i < |init| ==> init[i] == xs[i];
      Positives(init) + (if xs[|xs| - 1] > 0.0 then [xs[|xs| - 1]] else [])
  }

  /** Every positive entry is kept by the filter. */
  lemma {:induction false} PositiveKept(xs: seq<real>, i: nat)
    requires i < |xs| && xs[i] > 0.0
    ensures xs[i] in Positives(xs)
  {
    var n := |xs| - 1;
    if i < n {
      PositiveKept(xs[..n], i);
      assert xs[..n][i] == xs[i];
    } else {
      assert Positives(xs)[|Positives(xs)| - 1] == xs[i];
    }
  }

  /** Every entry the filter keeps comes from the input. */
  lemma {:induction false} PositiveFrom(xs: seq<real>, j: nat)
    requires j < |Positives(xs)|
    ensures exists i :: 0 <= i < |xs| && xs[i] == Positives(xs)[j]
  {
    var n := |xs| - 1;
    var init := Positives(xs[..n]);
    if j < |init| {
      PositiveFrom(xs[..n], j);
      var i :| 0 <= i < n && xs[..n][i] == init[j];
      assert xs[i] == Positives(xs)[j];
    } else {
      assert Positives(xs)[j] == xs[n];
    }
  }

  /** A sum of positive numbers, at least one of them, is positive. */
  lemma {:induction false} SumOfPositives(ps: seq<real>)
    requires ps != [] && forall i :: 0 <= i < |ps| ==> ps[i] > 0.0
    ensures Sum(ps) > 0.0
  {
    if |ps| > 1 {
      SumOfPositives(ps[..|ps| - 1]);
    }
  }

  /** `Math.max(...xs)`. */
  function Max(xs: seq<real>): (m: real)
    requires xs != []
    ensures m in xs
    ensures forall i :: 0 <= i < |xs| ==> xs[i] <= m
  {
    if |xs| == 1 then xs[0]
    else
      var m := Max(xs[..|xs| - 1]);
      assert forall i :: 0 <= i < |xs| - 1 ==> xs[..|xs| - 1][i] == xs[i];
      if xs[|xs| - 1] > m then xs[|xs| - 1] else m
  }

  /** `xs.indexOf(x)` for an x that occurs. */
  function IndexOf(xs: seq<real>, x: real): (k: nat)
    requires x in xs
    ensures k < |xs| && xs[k] == x
    ensures forall j :: 0 <= j < k ==> xs[j] != x
  {
    if xs[0] == x then 0 else 1 + IndexOf(xs[1..], x)
  }

  // ---------------------------------------------------------- pipeline

  /** computeEmotionVectors: each intensity times k = 1.2. */
  function ComputeEmotionVectors(e: Emotions): (vs: seq<real>)
    ensures |vs| == 6
    ensures forall i :: 0 <= i < 6 ==> vs[i] == 1.2 * Intensities(e)[i]
    ensures forall i :: 0 <= i < 6 ==> (vs[i] > 0.0 <==> Intensities(e)[i] > 0.0)
    ensures forall i :: 0 <= i < 6 ==> (vs[i] == 0.0 <==> Intensities(e)[i] == 0.0)
    ensures NonNegative(Intensities(e)) ==> NonNegative(vs)
  {
    [e.joy * ScaleFactor, e.sadness * ScaleFactor, e.anger * ScaleFactor,
     e.fear * ScaleFactor, e.surprise * ScaleFactor, e.disgust * ScaleFactor]
  }

  /** Mean of the strictly positive vectors (defined when there is one). */
  function ActiveMean(vs: seq<real>): (m: real)
    requires Positives(vs) != []
    ensures m > 0.0
  {
    SumOfPositives(Positives(vs));
    Sum(Positives(vs)) / (|Positives(vs)| as real)
  }

  /** The curvature of one vector `v` against the active mean `m`. */
  function CurvatureOf(v: real, m: real): (k: real)
    requires m > 0.0
    ensures k >= 0.0
    ensures v == 0.0 || v == m ==> k == 0.0
  {
    if v == 0.0 then 0.0 else Abs(v - m) / (m + Epsilon)
  }

  /** calculateCurvature: zero for a zero vector and for every vector when
      none is active; otherwise |v - mean| / (mean + 0.01). */
  function CalculateCurvature(vs: seq<real>): (ks: seq<real>)
    ensures |ks| == |vs|
    ensures NonNegative(ks)
    ensures forall i :: 0 <= i < |vs| && vs[i] == 0.0 ==> ks[i] == 0.0
    ensures Positives(vs) == [] ==> forall i :: 0 <= i < |ks| ==> ks[i] == 0.0
    ensures Positives(vs) != [] ==> forall i :: 0 <= i < |ks| ==> ks[i] == CurvatureOf(vs[i], ActiveMean(vs))
  {
    if Positives(vs) == [] then seq(|vs|, _ => 0.0)
    else
      var m := ActiveMean(vs);
      seq(|vs|, i requires 0 <= i < |vs| => CurvatureOf(vs[i], m))
  }

  /** calculateEmotionalEnergy: the sum of the squared vectors. */
  function CalculateEmotionalEnergy(vs: seq<real>): (energy: real)
    ensures energy >= 0.0
  {
    if vs == [] then 0.0
    else
      var last := vs[|vs| - 1];
      CalculateEmotionalEnergy(vs[..|vs| - 1]) + Square(last)
  }

  /** The energy is zero exactly when every vector is zero. */
  lemma {:induction false} EnergyZeroIff(vs: seq<real>)
    ensures CalculateEmotionalEnergy(vs) == 0.0 <==> forall i :: 0 <= i < |vs| ==> vs[i] == 0.0
  {
    if vs != [] {
      var init := vs[..|vs| - 1];
      var last := vs[|vs| - 1];
      EnergyZeroIff(init);
      if CalculateEmotionalEnergy(vs) == 0.0 {
        assert CalculateEmotionalEnergy(init) == 0.0 && last == 0.0;
        forall i | 0 <= i < |vs| ensures vs[i] == 0.0 {
          if i < |init| {
            assert vs[i] == init[i];
          }
        }
      }
    }
  }

  /** x * x, split by sign so that its positivity follows from a product of
      two positive numbers. */
  function Square(x: real): (r: real)
    ensures r >= 0.0
    ensures x != 0.0 ==> r > 0.0
  {
    if x > 0.0 then PositiveProduct(x, x)
    else if x < 0.0 then PositiveProduct(-x, -x)
    else 0.0
  }

  function PositiveProduct(a: real, b: real): (r: real)
    requires a > 0.0 && b > 0.0
    ensures r > 0.0
  {
    a * b
  }

  /** calculateStabilityIndex: 1 / (max curvature + 0.01). */
  function CalculateStabilityIndex(ks: seq<real>): (s: real)
    requires ks != [] && NonNegative(ks)
    ensures 0.0 < s <= 100.0
    ensures s == 100.0 <==> forall i :: 0 <= i < |ks| ==> ks[i] == 0.0
  {
    var m := Max(ks);
    assert m >= ks[0] >= 0.0;
    assert m == 0.0 <==> forall i :: 0 <= i < |ks| ==> ks[i] == 0.0;
    1.0 / (m + Epsilon)
  }

  lemma DivBelow(a: real, b: real, c: real)
    requires b > 0.0 && a < c * b
    ensures a / b < c
  {
    assert a / b * b == a;
  }

  /** For non-negative vectors every curvature lies in [0, 5): a vector above
      the mean exceeds it by at most (n - 1) times the mean, n <= 6, and a
      vector below it by less than the mean. */
  lemma CurvatureBelowFive(vs: seq<real>)
    requires |vs| == 6 && NonNegative(vs)
    ensures forall i :: 0 <= i < 6 ==> 0.0 <= CalculateCurvature(vs)[i] < 5.0
  {
    forall i | 0 <= i < 6 ensures CalculateCurvature(vs)[i] < 5.0 {
      if Positives(vs) != [] && vs[i] != 0.0 {
        CurvatureOfActiveBelowFive(vs, i);
      }
    }
  }

  lemma CurvatureOfActiveBelowFive(vs: seq<real>, i: nat)
    requires |vs| == 6 && NonNegative(vs) && i < 6 && vs[i] != 0.0
    ensures Positives(vs) != [] && CalculateCurvature(vs)[i] < 5.0
  {
    ActiveNearMean(vs, i);
    CurvatureOfNearBelowFive(vs[i], ActiveMean(vs));
  }

  /** An active vector is within five means (plus 0.01) of the active mean. */
  lemma ActiveNearMean(vs: seq<real>, i: nat)
    requires |vs| == 6 && NonNegative(vs) && i < 6 && vs[i] != 0.0
    ensures Positives(vs) != [] && Abs(vs[i] - ActiveMean(vs)) < 5.0 * (ActiveMean(vs) + Epsilon)
  {
    var ps := Positives(vs);
    PositiveKept(vs, i);
    var m := ActiveMean(vs);
    ActivePartNearMean(ps, vs[i], m);
  }

  /** A part of at most six positive numbers is within five means (plus
      0.01) of their mean. */
  lemma ActivePartNearMean(ps: seq<real>, v: real, m: real)
    requires v in ps && |ps| <= 6 && forall k :: 0 <= k < |ps| ==> ps[k] > 0.0
    requires m == Sum(ps) / (|ps| as real)
    ensures Abs(v - m) < 5.0 * (m + Epsilon)
  {
    var j :| 0 <= j < |ps| && ps[j] == v;
    assert NonNegative(ps);
    SumBounds(ps, j);
    MeanBound(Sum(ps), |ps| as real, v);
  }

  lemma CurvatureOfNearBelowFive(v: real, m: real)
    requires m > 0.0 && Abs(v - m) < 5.0 * (m + Epsilon)
    ensures CurvatureOf(v, m) < 5.0
  {
    if v != 0.0 {
      DivBelow(Abs(v - m), m + Epsilon, 5.0);
    }
  }

  /** A positive part v of a total spread over n <= 6 parts is at most six
      times their mean, so |v - mean| < 5 * (mean + 0.01). */
  lemma MeanBound(total: real, n: real, v: real)
    requires 0.0 < n <= 6.0 && 0.0 < v <= total
    ensures Abs(v - total / n) < 5.0 * (total / n + Epsilon)
  {
    var m := total / n;
    assert m * n == total;
    assert m > 0.0;
    assert m * n <= m * 6.0;
  }

  /** Hence the stability index of non-negative vectors lies in (1/5.01, 100]. */
  lemma StabilityBounds(vs: seq<real>)
    requires |vs| == 6 && NonNegative(vs)
    ensures 1.0 / 5.01 < CalculateStabilityIndex(CalculateCurvature(vs)) <= 100.0
  {
    var ks := CalculateCurvature(vs);
    CurvatureBelowFive(vs);
    var m := Max(ks);
    assert 0.0 <= m < 5.0;
    assert CalculateStabilityIndex(ks) == 1.0 / (m + Epsilon);
    ReciprocalDecreasing(m + Epsilon, 5.01);
  }

  lemma ReciprocalDecreasing(a: real, b: real)
    requires 0.0 < a < b
    ensures 1.0 / b < 1.0 / a
  {
    var x, y := 1.0 / a, 1.0 / b;
    assert x * a == 1.0 && y * b == 1.0;
    assert y > 0.0;
    assert y * a < y * b;
    assert y * a < x * a;
  }

  /** All curvatures vanish, so the stability index is 100, when every active
      vector has the same value (which covers no active vector and one). */
  lemma {:induction false} FlatProfileIsMaximallyStable(vs: seq<real>, c: real)
    requires |vs| == 6
    requires forall i :: 0 <= i < 6 ==> vs[i] == 0.0 || vs[i] == c
    requires c > 0.0
    ensures forall i :: 0 <= i < 6 ==> CalculateCurvature(vs)[i] == 0.0
    ensures CalculateStabilityIndex(CalculateCurvature(vs)) == 100.0
  {
    var ks := CalculateCurvature(vs);
    if Positives(vs) != [] {
      var ps := Positives(vs);
      forall j | 0 <= j < |ps| ensures ps[j] == c {
        PositiveFrom(vs, j);
      }
      MeanOfConstant(ps, c);
      assert ActiveMean(vs) == c;
      forall i | 0 <= i < 6 ensures ks[i] == 0.0 {
        assert ks[i] == CurvatureOf(vs[i], c);
      }
    }
  }

  /** The mean of n copies of c is c. */
  lemma MeanOfConstant(xs: seq<real>, c: real)
    requires xs != [] && forall i :: 0 <= i < |xs| ==> xs[i] == c
    ensures Sum(xs) / (|xs| as real) == c
  {
    SumConstant(xs, c);
  }

  // ---------------------------------------------------------- diagnosis

  /** `emotionVectors.indexOf(Math.max(...emotionVectors))`: the first index
      holding the largest vector. */
  function DominantIndex(vs: seq<real>): (k: nat)
    requires vs != []
    ensures k < |vs|
    ensures forall j :: 0 <= j < |vs| ==> vs[j] <= vs[k]
    ensures forall j :: 0 <= j < k ==> vs[j] < vs[k]
  {
    IndexOf(vs, Max(vs))
  }

  /** The reduce over the active (curvature, index) pairs of the first n
      entries: a later pair replaces the best so far only when its curvature
      is strictly larger. */
  function DominantCurvatureIndex(vs: seq<real>, ks: seq<real>, n: nat): (r: Option<nat>)
    requires n <= |vs| == |ks|
    ensures r.None? <==> forall j :: 0 <= j < n ==> vs[j] <= 0.0
    ensures r.Some? ==> r.value < n && vs[r.value] > 0.0
    ensures r.Some? ==> forall j :: 0 <= j < n && vs[j] > 0.0 ==> ks[j] <= ks[r.value]
    ensures r.Some? ==> forall j :: 0 <= j < r.value && vs[j] > 0.0 ==> ks[j] < ks[r.value]
  {
    if n == 0 then None
    else
      var best := DominantCurvatureIndex(vs, ks, n - 1);
      if !(vs[n - 1] > 0.0) then best
      else if best.None? then Some(n - 1)
      else if ks[n - 1] > ks[best.value] then Some(n - 1)
      else best
  }

  /** The four negative intensities, in the order the classifier lists them. */
  function Negatives(e: Emotions): seq<real> {
    [e.sadness, e.fear, e.anger, e.disgust]
  }

  predicate SomeNegativeAtLeast(e: Emotions, t: real) {
    e.sadness >= t || e.fear >= t || e.anger >= t || e.disgust >= t
  }

  /** `xs.filter((x) => x >= t).length`. */
  function CountAtLeast(xs: seq<real>, t: real): (c: nat)
    ensures c <= |xs|
    ensures c > 0 <==> exists i :: 0 <= i < |xs| && xs[i] >= t
  {
    if xs == [] then 0
    else
      var init := xs[..|xs| - 1];
      assert forall i :: 0 <= i < |init| ==> init[i] == xs[i];
      CountAtLeast(init, t) + (if xs[|xs| - 1] >= t then 1 else 0)
  }

  lemma NegativeCount(e: Emotions, t: real)
    ensures CountAtLeast(Negatives(e), t) > 0 <==> SomeNegativeAtLeast(e, t)
  {
    var neg := Negatives(e);
    if SomeNegativeAtLeast(e, t) {
      assert neg[0] >= t || neg[1] >= t || neg[2] >= t || neg[3] >= t;
    }
  }

  /** The negative emotions make up more than 60% of a non-zero total. */
  predicate MostlyNegative(e: Emotions) {
    var neg := Sum(Negatives(e));
    var total := neg + Sum([e.joy, e.surprise]);
    total > 0.0 && neg / total > 0.6
  }

  /** The classification chain of diagnoseState. */
  function Classify(e: Emotions, stabilityIndex: real): (c: string)
    ensures c == "Volatile" || c == "Unstable" || c == "Stable"
    ensures c == "Volatile" <==> SomeNegativeAtLeast(e, 6.0) || stabilityIndex < 0.2
    ensures c == "Unstable" <==>
      !(SomeNegativeAtLeast(e, 6.0) || stabilityIndex < 0.2)
      && (MostlyNegative(e) || CountAtLeast(Negatives(e), 4.0) >= 2 || stabilityIndex < 0.5)
  {
    var neg := Negatives(e);
    NegativeCount(e, 6.0);
    if CountAtLeast(neg, 8.0) > 0 then "Volatile"
    else if CountAtLeast(neg, 6.0) > 0 || stabilityIndex < 0.2 then "Volatile"
    else if MostlyNegative(e) || CountAtLeast(neg, 4.0) >= 2 || stabilityIndex < 0.5 then "Unstable"
    else "Stable"
  }

  /** Position of a flag in the order the rules are evaluated. */
  function FlagRank(flag: string): nat {
    if flag == HeartRateFlag then 0
    else if flag == VolatilityFlag then 1
    else if flag == DysregulationFlag then 2
    else 3
  }

  /** The four flags take the ranks 0 to 3, so they are distinct. */
  lemma FlagRanks()
    ensures FlagRank(HeartRateFlag) == 0 && FlagRank(VolatilityFlag) == 1
    ensures FlagRank(DysregulationFlag) == 2 && FlagRank(StressFlag) == 3
  {
    assert HeartRateFlag[0] == 'E' && VolatilityFlag[0] == 'H' && DysregulationFlag[0] == 'P';
    assert StressFlag[0] == 'H' && StressFlag[5] == 'S' && VolatilityFlag[5] == 'E';
  }

  /** The four biometric rules, each pushing its flag. */
  function BiometricFlags(b: Biometrics): (flags: seq<string>)
    ensures HeartRateFlag in flags <==> b.heartRate > 90.0
    ensures VolatilityFlag in flags <==> b.voicePitchVariance > 60.0
    ensures DysregulationFlag in flags <==> b.breathRate < 10.0 || b.breathRate > 20.0
    ensures StressFlag in flags <==> b.skinConductance > 70.0
    ensures forall f :: f in flags ==> f in [HeartRateFlag, VolatilityFlag, DysregulationFlag, StressFlag]
    ensures forall i, j :: 0 <= i < j < |flags| ==> FlagRank(flags[i]) < FlagRank(flags[j])
    ensures flags == [] <==>
      !(b.heartRate > 90.0 || b.voicePitchVariance > 60.0 || b.breathRate < 10.0 || b.breathRate > 20.0
        || b.skinConductance > 70.0)
  {
    FlagRanks();
    (if b.heartRate > 90.0 then [HeartRateFlag] else [])
    + (if b.voicePitchVariance > 60.0 then [VolatilityFlag] else [])
    + (if b.breathRate < 10.0 || b.breathRate > 20.0 then [DysregulationFlag] else [])
    + (if b.skinConductance > 70.0 then [StressFlag] else [])
  }

  /** The label of the most curved emotion, or "None" when there is none;
      "None" is not a label, so it marks the missing case alone. */
  function CurvatureName(curved: Option<nat>): (s: string)
    requires curved.Some? ==> curved.value < 6
    ensures s == "None" <==> curved.None?
    ensures curved.Some? ==> s == Labels[curved.value]
  {
    if curved.None? then "None"
    else
      var k := curved.value;
      assert |Labels[k]| != 4 || Labels[k][0] != 'N';
      Labels[k]
  }

  /** `name` is the label of the first index holding the largest vector. */
  predicate NamesLargest(name: string, vs: seq<real>)
    requires |vs| == 6
  {
    exists k :: (0 <= k < 6 && name == Labels[k]
      && (forall j :: 0 <= j < 6 ==> vs[j] <= vs[k])
      && (forall j :: 0 <= j < k ==> vs[j] < vs[k]))
  }

  /** `name` is "None" exactly when no vector is active, and otherwise the
      label of the first active index with the largest curvature among the
      active ones. */
  predicate NamesMostCurved(name: string, vs: seq<real>, ks: seq<real>)
    requires |vs| == 6 && |ks| == 6
  {
    && (name == "None" <==> forall j :: 0 <= j < 6 ==> vs[j] <= 0.0)
    && (name != "None" ==>
      exists k :: (0 <= k < 6 && vs[k] > 0.0 && name == Labels[k]
        && (forall j :: 0 <= j < 6 && vs[j] > 0.0 ==> ks[j] <= ks[k])
        && (forall j :: 0 <= j < k && vs[j] > 0.0 ==> ks[j] < ks[k])))
  }

  lemma DominantIndexNamed(vs: seq<real>)
    requires |vs| == 6
    ensures NamesLargest(Labels[DominantIndex(vs)], vs)
  {
    var k := DominantIndex(vs);
    assert 0 <= k < 6 && Labels[k] == Labels[k];
  }

  lemma CurvatureIndexNamed(vs: seq<real>, ks: seq<real>)
    requires |vs| == 6 && |ks| == 6
    ensures NamesMostCurved(CurvatureName(DominantCurvatureIndex(vs, ks, 6)), vs, ks)
  {
    var curved := DominantCurvatureIndex(vs, ks, 6);
    if curved.Some? {
      var k := curved.value;
      assert CurvatureName(curved) == Labels[k];
    }
  }

  /** diagnoseState. */
  function DiagnoseState(e: Emotions, b: Biometrics, vs: seq<real>, ks: seq<real>, stabilityIndex: real): (d: Diagnosis)
    requires |vs| == 6 && |ks| == 6
    ensures NamesLargest(d.dominantEmotion, vs) && d.dominantEmotion in Labels
    ensures NamesMostCurved(d.dominantCurvature, vs, ks)
    ensures d.classification == Classify(e, stabilityIndex)
    ensures d.biometricFlags == BiometricFlags(b)
  {
    var top := DominantIndex(vs);
    var curved := DominantCurvatureIndex(vs, ks, 6);
    DominantIndexNamed(vs);
    CurvatureIndexNamed(vs, ks);
    Diagnosis(
      Labels[top],
      CurvatureName(curved),
      Classify(e, stabilityIndex),
      BiometricFlags(b))
  }

  /** With every vector zero the first index holds the maximum, so the
      dominant emotion is "Joy". */
  lemma AllZeroIsJoy(e: Emotions, b: Biometrics, vs: seq<real>, ks: seq<real>, s: real)
    requires |vs| == 6 && |ks| == 6 && forall j :: 0 <= j < 6 ==> vs[j] == 0.0
    ensures DiagnoseState(e, b, vs, ks, s).dominantEmotion == "Joy"
    ensures DiagnoseState(e, b, vs, ks, s).dominantCurvature == "None"
  {
    var d := DiagnoseState(e, b, vs, ks, s);
    var k :| 0 <= k < 6 && d.dominantEmotion == Labels[k]
      && (forall j :: 0 <= j < 6 ==> vs[j] <= vs[k])
      && (forall j :: 0 <= j < k ==> vs[j] < vs[k]);
    assert k == 0 by {
      if k > 0 {
        assert false;
      }
    }
  }
}
