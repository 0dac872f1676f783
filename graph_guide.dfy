/** components/detailed-graph-guide.tsx: the reading guide. It recomputes
    the geometry of four example profiles with its own copy of the pipeline
    (calculateExampleMetrics) and describes what the charts would show. */
module GraphGuide {
  import opened EmotionalMath
  import VisualizationPanel

  datatype ExampleMetrics = ExampleMetrics(
    vectors: seq<real>,
    curvatures: seq<real>,
    energy: real,
    stability: real,
    mean: real)

  /** `reduce((sum, v) => sum + v * v, 0)`. */
  function SumOfSquares(vs: seq<real>): real {
    if vs == [] then 0.0 else SumOfSquares(vs[..|vs| - 1]) + vs[|vs| - 1] * vs[|vs| - 1]
  }

  /** The guide's mean: of the positive vectors, 0 when there is none. */
  function GuideMean(vs: seq<real>): (mean: real)
    ensures mean >= 0.0
    ensures Positives(vs) == [] ==> mean == 0.0
    ensures Positives(vs) != [] ==> mean == ActiveMean(vs)
  {
    var active := Positives(vs);
    if |active| > 0 then SumOfPositives(active); Sum(active) / |active| as real else 0.0
  }

  /** The guide's vectors: each slider value times 1.2. */
  function GuideVectors(e: Emotions): (vs: seq<real>)
    ensures |vs| == 6 && forall i :: 0 <= i < 6 ==> vs[i] == Intensities(e)[i] * 1.2
  {
    seq(6, i requires 0 <= i < 6 => Intensities(e)[i] * 1.2)
  }

  /** The guide's curvature of one vector: 0 for a zero vector, else the
      distance to the mean over the mean plus 0.01. */
  function GuideCurvature(v: real, mean: real): (k: real)
    requires mean >= 0.0
    ensures k >= 0.0
    ensures mean > 0.0 ==> k == CurvatureOf(v, mean)
  {
    if v == 0.0 then 0.0 else Abs(v - mean) / (mean + 0.01)
  }

  function GuideCurvatures(vs: seq<real>, mean: real): (ks: seq<real>)
    requires mean >= 0.0
    ensures |ks| == |vs| && NonNegative(ks)
    ensures forall i :: 0 <= i < |vs| ==> ks[i] == GuideCurvature(vs[i], mean)
  {
    seq(|vs|, i requires 0 <= i < |vs| => GuideCurvature(vs[i], mean))
  }

  /** The guide's stability: one over the largest curvature plus 0.01. */
  function GuideStability(ks: seq<real>): real
    requires ks != [] && NonNegative(ks)
  {
    1.0 / (Max(ks) + 0.01)
  }

  /** calculateExampleMetrics. */
  function CalculateExampleMetrics(e: Emotions): (m: ExampleMetrics)
    ensures |m.vectors| == 6 && |m.curvatures| == 6
  {
    var vectors := GuideVectors(e);
    var mean := GuideMean(vectors);
    var curvatures := GuideCurvatures(vectors, mean);
    var energy := SumOfSquares(vectors);
    var stability := GuideStability(curvatures);
    ExampleMetrics(vectors, curvatures, energy, stability, mean)
  }

  lemma {:induction false} SumOfSquaresIsEnergy(vs: seq<real>)
    ensures SumOfSquares(vs) == CalculateEmotionalEnergy(vs)
  {
    if vs != [] {
      SumOfSquaresIsEnergy(vs[..|vs| - 1]);
      var x := vs[|vs| - 1];
      assert Square(x) == x * x;
    }
  }

  /** For slider input (no negative value) the guide's copy computes the
      same vectors, curvatures, energy and stability as the analysis
      pipeline; its mean is 0 exactly when no emotion is active. */
  lemma MetricsMatchPipeline(e: Emotions)
    requires NonNegative(Intensities(e))
    ensures var m := CalculateExampleMetrics(e);
      && m.vectors == ComputeEmotionVectors(e)
      && m.curvatures == CalculateCurvature(m.vectors)
      && m.energy == CalculateEmotionalEnergy(m.vectors)
      && m.stability == CalculateStabilityIndex(m.curvatures)
      && (m.mean == 0.0 <==> Positives(m.vectors) == [])
  {
    var vs := ComputeEmotionVectors(e);
    VectorsMatch(e);
    CurvaturesMatch(vs);
    SumOfSquaresIsEnergy(vs);
    StabilityMatch(CalculateCurvature(vs));
  }

  lemma StabilityMatch(ks: seq<real>)
    requires ks != [] && NonNegative(ks)
    ensures GuideStability(ks) == CalculateStabilityIndex(ks)
  {
  }

  lemma VectorsMatch(e: Emotions)
    ensures CalculateExampleMetrics(e).vectors == ComputeEmotionVectors(e)
    ensures CalculateExampleMetrics(e).mean == GuideMean(ComputeEmotionVectors(e))
  {
    var ws, vs := GuideVectors(e), ComputeEmotionVectors(e);
    assert forall i :: 0 <= i < 6 ==> ws[i] == vs[i];
  }

  /** With no negative vector the guide's curvature rule is the pipeline's:
      when nothing is active every vector is 0. */
  lemma CurvaturesMatch(vs: seq<real>)
    requires NonNegative(vs)
    ensures GuideCurvatures(vs, GuideMean(vs)) == CalculateCurvature(vs)
    ensures GuideMean(vs) == 0.0 <==> Positives(vs) == []
  {
    var ks, cs := GuideCurvatures(vs, GuideMean(vs)), CalculateCurvature(vs);
    forall i | 0 <= i < |vs| ensures ks[i] == cs[i] {
      if Positives(vs) == [] {
        assert vs[i] == 0.0;
      }
    }
  }

  /** The copy parts ways with the pipeline only on input the sliders cannot
      give: with a negative value and nothing active, its mean is 0 and the
      negative vector gets a curvature where the pipeline gives 0. */
  lemma NegativeInputDiverges()
    ensures var e := Emotions(-1.0, 0.0, 0.0, 0.0, 0.0, 0.0);
      CalculateExampleMetrics(e).curvatures[0] != CalculateCurvature(ComputeEmotionVectors(e))[0]
  {
    var e := Emotions(-1.0, 0.0, 0.0, 0.0, 0.0, 0.0);
    var vs := GuideVectors(e);
    assert vs[0] == -1.2;
    assert Positives(vs) == [];
    var ks := GuideCurvatures(vs, 0.0);
    assert ks[0] == 120.0;
    assert CalculateCurvature(ComputeEmotionVectors(e))[0] == 0.0;
  }

  // ------------------------------------------------- chart descriptions

  /** The number of emotions above 0 in a profile. */
  function ActiveCount(e: Emotions): (n: nat)
    ensures n <= 6
    ensures n == 0 <==> forall i :: 0 <= i < 6 ==> Intensities(e)[i] <= 0.0
  {
    |Positives(Intensities(e))|
  }

  /** `reduce((max, [_, v]) => Math.max(max, v), acc)`. */
  function MaxFrom(acc: real, xs: seq<real>): real
    decreases |xs|
  {
    if xs == [] then acc else MaxFrom(if xs[0] > acc then xs[0] else acc, xs[1..])
  }

  /** The running maximum exceeds a bound at or above its start exactly when
      some value does. */
  lemma {:induction false} MaxFromAbove(acc: real, xs: seq<real>, bound: real)
    requires acc <= bound
    ensures MaxFrom(acc, xs) > bound <==> exists i :: 0 <= i < |xs| && xs[i] > bound
    decreases |xs|
  {
    if xs != [] {
      var next := if xs[0] > acc then xs[0] else acc;
      if next > bound {
        assert xs[0] > bound;
        MaxFromStays(next, xs[1..]);
      } else {
        MaxFromAbove(next, xs[1..], bound);
        if exists i :: 0 <= i < |xs| && xs[i] > bound {
          var i :| 0 <= i < |xs| && xs[i] > bound;
          assert i > 0 && xs[1..][i - 1] == xs[i];
        }
        if exists i :: 0 <= i < |xs[1..]| && xs[1..][i] > bound {
          var i :| 0 <= i < |xs[1..]| && xs[1..][i] > bound;
          assert xs[i + 1] > bound;
        }
      }
    }
  }

  lemma {:induction false} MaxFromStays(acc: real, xs: seq<real>)
    ensures MaxFrom(acc, xs) >= acc
    decreases |xs|
  {
    if xs != [] {
      MaxFromStays(if xs[0] > acc then xs[0] else acc, xs[1..]);
    }
  }

  datatype Peaks = SharpSpikes | ModeratePeaks

  /** The radar description: sharp spikes when the largest intensity,
      starting from 0, is above 7. */
  function RadarPeaks(e: Emotions): (p: Peaks)
    ensures p == SharpSpikes <==> exists i :: 0 <= i < 6 && Intensities(e)[i] > 7.0
  {
    MaxFromAbove(0.0, Intensities(e), 7.0);
    if MaxFrom(0.0, Intensities(e)) > 7.0 then SharpSpikes else ModeratePeaks
  }

  datatype BarHeight = HighBars | ModerateBars | LowBars

  /** The curvature description: above 0.8, above 0.3, else low. */
  function CurvatureBars(m: ExampleMetrics): (h: BarHeight)
    requires m.curvatures != []
    ensures h == HighBars <==> exists i :: 0 <= i < |m.curvatures| && m.curvatures[i] > 0.8
    ensures h == LowBars <==> forall i :: 0 <= i < |m.curvatures| ==> m.curvatures[i] <= 0.3
  {
    var top := Max(m.curvatures);
    if top > 0.8 then HighBars else if top > 0.3 then ModerateBars else LowBars
  }

  datatype EnergyBar = LongBar | MediumBar | ShortBar

  /** The energy description: above 200, above 50, else short. */
  function EnergyBarOf(energy: real): EnergyBar {
    if energy > 200.0 then LongBar else if energy > 50.0 then MediumBar else ShortBar
  }

  /** The guide uses the panel's energy thresholds: a long bar is what the
      panel calls high energy, a short bar what it calls low. */
  lemma EnergyBarMatchesPanel(energy: real)
    ensures EnergyBarOf(energy) == LongBar <==> VisualizationPanel.EnergyWordOf(energy) == VisualizationPanel.High
    ensures EnergyBarOf(energy) == ShortBar <==> VisualizationPanel.EnergyWordOf(energy) == VisualizationPanel.Low
  {
  }

  // ---------------------------------------------------------- scenarios

  const Balanced: Emotions := Emotions(6.0, 2.0, 1.0, 3.0, 4.0, 1.0)
  const Stressed: Emotions := Emotions(2.0, 6.0, 7.0, 8.0, 1.0, 4.0)
  const Excited: Emotions := Emotions(9.0, 1.0, 0.0, 2.0, 8.0, 0.0)
  const Depressed: Emotions := Emotions(1.0, 8.0, 2.0, 5.0, 0.0, 3.0)

  /** The balanced profile has six active emotions and moderate peaks; the
      other three reach above 7 and show sharp spikes. */
  lemma ScenarioPeaks()
    ensures ActiveCount(Balanced) == 6 && RadarPeaks(Balanced) == ModeratePeaks
    ensures RadarPeaks(Stressed) == SharpSpikes && RadarPeaks(Excited) == SharpSpikes
    ensures RadarPeaks(Depressed) == SharpSpikes
  {
    AllPositiveKept(Intensities(Balanced));
    assert Intensities(Stressed)[3] > 7.0;
    assert Intensities(Excited)[0] > 7.0;
    assert Intensities(Depressed)[1] > 7.0;
  }

  /** With every entry positive, the filter keeps them all. */
  lemma {:induction false} AllPositiveKept(xs: seq<real>)
    requires forall i :: 0 <= i < |xs| ==> xs[i] > 0.0
    ensures |Positives(xs)| == |xs|
  {
    if xs != [] {
      AllPositiveKept(xs[..|xs| - 1]);
    }
  }
}
