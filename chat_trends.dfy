/** analyzeEmotionalTrends and calculateTrend of app/api/chat/route.ts: an
    ordinary-least-squares slope per emotion over the last five history
    entries, one insight per emotion whose slope exceeds 1 in magnitude, then
    at most one insight about the mean stability. */
module ChatTrends {
  import opened TextMatch
  import opened EmotionalMath

  /** The keys the trend analysis walks, in order. */
  const EmotionKeys: seq<string> := ["joy", "sadness", "anger", "fear", "surprise", "disgust"]

  /** One saved analysis; `emotions` is a record keyed by emotion name. */
  datatype EmotionTrend = EmotionTrend(
    timestamp: int,
    emotions: map<string, real>,
    dominantEmotion: string,
    stabilityIndex: real)

  datatype Insight =
    | Direction(emotion: string, increasing: bool)  // "Your <emotion> levels have been <direction> over recent sessions."
    | LowStability                                  // "... lower than usual. Consider focusing on grounding techniques."
    | GoodStability                                 // "... quite good recently. Great progress!"

  datatype Trend = Trend(slope: real, intercept: real, direction: string)

  /** Position of a key in EmotionKeys (6 for any other string). */
  function KeyRank(key: string): (r: nat)
    ensures r <= 6
    ensures r < 6 ==> EmotionKeys[r] == key
  {
    if key == "joy" then 0
    else if key == "sadness" then 1
    else if key == "anger" then 2
    else if key == "fear" then 3
    else if key == "surprise" then 4
    else if key == "disgust" then 5
    else 6
  }

  // ------------------------------------------------------------ calculateTrend

  /** `values.reduce((sum, y, x) => sum + x * y, 0)`. */
  function SumXY(ys: seq<real>): real {
    if ys == [] then 0.0 else SumXY(ys[..|ys| - 1]) + (|ys| - 1) as real * ys[|ys| - 1]
  }

  /** `values.reduce((sum, _, x) => sum + x * x, 0)` for n values. */
  function SumXX(n: nat): real {
    if n == 0 then 0.0 else SumXX(n - 1) + ((n - 1) * (n - 1)) as real
  }

  /** The sum of the indices 0 .. n-1, which the source writes in closed
      form as `(n * (n - 1)) / 2` (SumXClosedForm). */
  function SumX(n: nat): real {
    if n == 0 then 0.0 else SumX(n - 1) + (n - 1) as real
  }

  lemma {:induction false} SumXClosedForm(n: nat)
    ensures SumX(n) == (n * (n - 1)) as real / 2.0
  {
    if n > 0 {
      SumXClosedForm(n - 1);
      assert (n - 1) * (n - 2) + 2 * (n - 1) == n * (n - 1);
    }
  }

  /** The denominator of the slope. */
  function SlopeDenominator(n: nat): real {
    n as real * SumXX(n) - SumX(n) * SumX(n)
  }

  /** A quotient by a non-zero divisor, with the one fact the proofs need. */
  function Quotient(a: real, b: real): (q: real)
    requires b != 0.0
    ensures q * b == a
  {
    a / b
  }

  /** `(sumY - slope * sumX) / n`: the intercept of the line through the
      mean point. */
  function Intercept(sumY: real, slope: real, sumX: real, n: real): (c: real)
    requires n > 0.0
    ensures c * n + slope * sumX == sumY
  {
    Quotient(sumY - slope * sumX, n)
  }

  /** The fitted line passes through the mean point of the n values whose
      sum is sumY: intercept + slope * mean(x) == mean(y), scaled by n. */
  predicate ThroughMeanPoint(t: Trend, n: nat, sumY: real) {
    t.intercept * (n as real) + t.slope * SumX(n) == sumY
  }

  /** The numerator of the slope. */
  function SlopeNumerator(ys: seq<real>): real {
    |ys| as real * SumXY(ys) - SumX(|ys|) * Sum(ys)
  }

  /** calculateTrend. The source only calls it on two or more values; on fewer
      its denominator is 0. The intercept puts the line through the mean
      point, and the direction names the sign of the slope. */
  function CalculateTrend(ys: seq<real>): (t: Trend)
    requires |ys| >= 2
    ensures IsSlope(t.slope, |ys|, SlopeNumerator(ys))
    ensures t.direction == "increasing" <==> t.slope > 0.0
    ensures t.direction == "increasing" || t.direction == "decreasing"
    ensures ThroughMeanPoint(t, |ys|, Sum(ys))
  {
    TrendOf(|ys|, Sum(ys), SumXY(ys))
  }

  /** The fit from the sums the source accumulates. */
  function TrendOf(n: nat, sumY: real, sumXY: real): (t: Trend)
    requires n >= 2
    ensures IsSlope(t.slope, n, n as real * sumXY - SumX(n) * sumY)
    ensures t.direction == "increasing" <==> t.slope > 0.0
    ensures t.direction == "increasing" || t.direction == "decreasing"
    ensures ThroughMeanPoint(t, n, sumY)
  {
    DenominatorPositive(n);
    var slope := Quotient(n as real * sumXY - SumX(n) * sumY, SlopeDenominator(n));
    Trend(slope, Intercept(sumY, slope, SumX(n), n as real), if slope > 0.0 then "increasing" else "decreasing")
  }

  /** `slope` solves the normal equation of the fit: slope times the
      denominator is the numerator. */
  predicate IsSlope(slope: real, n: nat, numerator: real) {
    slope * SlopeDenominator(n) == numerator
  }

  /** From two values on, the normal equation has one solution. */
  lemma SlopeUnique(a: real, b: real, n: nat, numerator: real)
    requires n >= 2 && IsSlope(a, n, numerator) && IsSlope(b, n, numerator)
    ensures a == b
  {
    DenominatorPositive(n);
    var d := SlopeDenominator(n);
    assert (a - b) * d == 0.0;
  }

  /** So the slope is whatever solves the normal equation. */
  lemma SlopeFromNumerator(ys: seq<real>, q: real)
    requires |ys| >= 2 && IsSlope(q, |ys|, SlopeNumerator(ys))
    ensures CalculateTrend(ys).slope == q
  {
    SlopeUnique(CalculateTrend(ys).slope, q, |ys|, SlopeNumerator(ys));
  }

  /** 6 * SumXX(n) = (n - 1) n (2n - 1). */
  lemma {:induction false} SumXXClosedForm(n: nat)
    ensures 6.0 * SumXX(n) == ((n - 1) * n * (2 * n - 1)) as real
  {
    if n > 0 {
      SumXXClosedForm(n - 1);
      var m := n - 1;
      assert (m - 1) * m * (2 * m - 1) + 6 * (m * m) == m * n * (2 * n - 1);
    }
  }

  /** The denominator is n^2 (n^2 - 1) / 12. */
  lemma DenominatorClosedForm(n: nat)
    ensures SlopeDenominator(n) == (n * n * (n * n - 1)) as real / 12.0
  {
    SumXXClosedForm(n);
    SumXClosedForm(n);
    var k := n as real;
    assert SumXX(n) == (k - 1.0) * k * (2.0 * k - 1.0) / 6.0;
    assert SumX(n) == k * (k - 1.0) / 2.0;
  }

  /** So it is positive from two values on. */
  lemma DenominatorPositive(n: nat)
    requires n >= 2
    ensures SlopeDenominator(n) > 0.0
  {
    DenominatorClosedForm(n);
    assert n * n * (n * n - 1) > 0 by {
      assert n * n >= 4;
    }
  }

  /** For a constant sequence the sum of index-weighted values is the
      constant times the sum of the indices. */
  lemma {:induction false} SumXYConstant(ys: seq<real>, c: real)
    requires forall i :: 0 <= i < |ys| ==> ys[i] == c
    ensures SumXY(ys) == c * SumX(|ys|)
    ensures Sum(ys) == c * |ys| as real
  {
    if ys != [] {
      var init := ys[..|ys| - 1];
      SumXYConstant(init, c);
      SumConstant(ys, c);
    }
  }

  /** A constant sequence has slope 0. */
  lemma ConstantHasZeroSlope(ys: seq<real>, c: real)
    requires |ys| >= 2 && forall i :: 0 <= i < |ys| ==> ys[i] == c
    ensures CalculateTrend(ys).slope == 0.0
  {
    SumXYConstant(ys, c);
    assert SlopeNumerator(ys) == 0.0;
    assert IsSlope(0.0, |ys|, 0.0);
    SlopeFromNumerator(ys, 0.0);
  }

  /** The ramp 1, 2, 3, 4, 5 has slope exactly 1. */
  lemma RampHasUnitSlope()
    ensures CalculateTrend([1.0, 2.0, 3.0, 4.0, 5.0]).slope == 1.0
  {
    var y1 := [1.0];
    assert y1[..0] == [];
    assert Sum(y1) == 1.0 && SumXY(y1) == 0.0;
    var y2 := y1 + [2.0];
    assert y2[..1] == y1;
    assert Sum(y2) == 3.0 && SumXY(y2) == 2.0;
    var y3 := y2 + [3.0];
    assert y3[..2] == y2;
    assert Sum(y3) == 6.0 && SumXY(y3) == 8.0;
    var y4 := y3 + [4.0];
    assert y4[..3] == y3;
    assert Sum(y4) == 10.0 && SumXY(y4) == 20.0;
    var y5 := y4 + [5.0];
    assert y5[..4] == y4;
    assert Sum(y5) == 15.0 && SumXY(y5) == 40.0;
    assert y5 == [1.0, 2.0, 3.0, 4.0, 5.0];
    assert SumXX(5) == 30.0;
    assert SlopeNumerator(y5) == 50.0;
    assert SlopeDenominator(5) == 50.0;
    assert IsSlope(1.0, 5, 50.0);
    SlopeFromNumerator(y5, 1.0);
  }

  // ------------------------------------------------------ analyzeEmotionalTrends

  /** `entry.emotions[key] || 0`. */
  function ValueOrZero(m: map<string, real>, key: string): real {
    if key in m then m[key] else 0.0
  }

  /** `recent.map((entry) => entry.emotions[key] || 0)`. */
  function KeyValues(recent: seq<EmotionTrend>, key: string): (ys: seq<real>)
    ensures |ys| == |recent|
    ensures forall i :: 0 <= i < |recent| ==> ys[i] == ValueOrZero(recent[i].emotions, key)
  {
    seq(|recent|, i requires 0 <= i < |recent| => ValueOrZero(recent[i].emotions, key))
  }

  /** The insight, if any, for one emotion key. */
  function KeyInsight(recent: seq<EmotionTrend>, key: string): (r: seq<Insight>)
    requires |recent| >= 2
    ensures |r| <= 1
    ensures r != [] <==> Abs(CalculateTrend(KeyValues(recent, key)).slope) > 1.0
    ensures r != [] ==> r[0] == Direction(key, CalculateTrend(KeyValues(recent, key)).slope > 0.0)
  {
    var t := CalculateTrend(KeyValues(recent, key));
    if Abs(t.slope) > 1.0 then [Direction(key, t.slope > 0.0)] else []
  }

  /** The insights for the first n emotion keys, in key order. */
  function KeyInsights(recent: seq<EmotionTrend>, n: nat): (r: seq<Insight>)
    requires |recent| >= 2 && n <= 6
    ensures |r| <= n
    ensures forall i :: 0 <= i < |r| ==> r[i].Direction? && KeyRank(r[i].emotion) < n
    ensures forall i, j :: 0 <= i < j < |r| ==> KeyRank(r[i].emotion) < KeyRank(r[j].emotion)
  {
    if n == 0 then []
    else
      var r := KeyInsights(recent, n - 1);
      var k := KeyInsight(recent, EmotionKeys[n - 1]);
      assert forall i :: 0 <= i < |k| ==> k[i].Direction? && KeyRank(k[i].emotion) == n - 1;
      r + k
  }

  function Stabilities(recent: seq<EmotionTrend>): (ys: seq<real>)
    ensures |ys| == |recent|
    ensures forall i :: 0 <= i < |recent| ==> ys[i] == recent[i].stabilityIndex
  {
    seq(|recent|, i requires 0 <= i < |recent| => recent[i].stabilityIndex)
  }

  /** The stability insight: low below 0.3, else good above 0.7. */
  function StabilityInsight(average: real): (r: seq<Insight>)
    ensures r == [LowStability] <==> average < 0.3
    ensures r == [GoodStability] <==> average > 0.7
    ensures r == [] <==> 0.3 <= average <= 0.7
  {
    if average < 0.3 then [LowStability]
    else if average > 0.7 then [GoodStability]
    else []
  }

  /** The mean stability index of the recent entries. */
  function MeanStability(recent: seq<EmotionTrend>): real
    requires recent != []
  {
    Sum(Stabilities(recent)) / |recent| as real
  }

  /** What analyzeEmotionalTrends returns as its insights. */
  function TrendInsights(history: seq<EmotionTrend>): seq<Insight> {
    if |history| < 2 then []
    else
      var recent := LastN(history, 5);
      KeyInsights(recent, 6) + StabilityInsight(MeanStability(recent))
  }

  /** analyzeEmotionalTrends: walks the six keys, pushing an insight for each
      steep trend, then adds the stability insight. */
  method AnalyzeEmotionalTrends(history: seq<EmotionTrend>) returns (insights: seq<Insight>)
    ensures insights == TrendInsights(history)
  {
    if |history| < 2 {
      return [];
    }
    insights := [];
    var recent := LastN(history, 5);
    for i := 0 to |EmotionKeys|
      invariant insights == KeyInsights(recent, i)
    {
      var trend := CalculateTrend(KeyValues(recent, EmotionKeys[i]));
      assert KeyInsights(recent, i + 1) == KeyInsights(recent, i) + KeyInsight(recent, EmotionKeys[i]);
      if Abs(trend.slope) > 1.0 {
        insights := insights + [Direction(EmotionKeys[i], trend.slope > 0.0)];
      }
    }
    var average := MeanStability(recent);
    if average < 0.3 {
      insights := insights + [LowStability];
    } else if average > 0.7 {
      insights := insights + [GoodStability];
    }
  }

  /** At most one insight per emotion, in key order, then at most one about
      stability, and that one last: seven at most. */
  lemma InsightsShape(history: seq<EmotionTrend>)
    ensures |TrendInsights(history)| <= 7
    ensures |history| < 2 ==> TrendInsights(history) == []
    ensures forall i, j :: 0 <= i < j < |TrendInsights(history)| && TrendInsights(history)[j].Direction? ==>
      (TrendInsights(history)[i].Direction? &&
       KeyRank(TrendInsights(history)[i].emotion) < KeyRank(TrendInsights(history)[j].emotion))
  {
  }

  /** Only the last five entries matter. */
  lemma OnlyLastFiveCount(history: seq<EmotionTrend>)
    requires |history| >= 2
    ensures TrendInsights(history) == TrendInsights(LastN(history, 5))
  {
    assert LastN(LastN(history, 5), 5) == LastN(history, 5);
  }

  /** A history whose last entries rise one step per session gives no
      insight for that emotion: a slope of exactly 1 is not steep enough. */
  lemma UnitRampGivesNoInsight(recent: seq<EmotionTrend>, key: string)
    requires |recent| == 5
    requires KeyValues(recent, key) == [1.0, 2.0, 3.0, 4.0, 5.0]
    ensures KeyInsight(recent, key) == []
  {
    RampHasUnitSlope();
  }
}
