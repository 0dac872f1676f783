/** components/visualization-panel.tsx: the charts and read-outs of an
    analysis. The radar and curvature charts show only the emotions whose
    slider is above 0; the energy bar shows the stability index scaled by
    10; energy and stability get a word each, and one quick interpretation
    sentence is chosen by a chain of tests. */
module VisualizationPanel {
  import opened EmotionalMath
  import opened EmotionAnalysis

  /** `emotionColors`, index for index with the labels. */
  const EmotionColors: seq<string> := ["#fbbf24", "#3b82f6", "#ef4444", "#8b5cf6", "#f97316", "#10b981"]

  datatype RadarItem = RadarItem(emotion: string, magnitude: real, intensity: real)
  datatype CurvatureItem = CurvatureItem(emotion: string, curvature: real, intensity: real, color: string)

  // ------------------------------------------------------ active emotions

  /** `filter((item) => item.intensity > 0)`. */
  function FilterActive<T>(items: seq<T>, intensityOf: T -> real): (kept: seq<T>)
    ensures |kept| <= |items|
    ensures forall k :: 0 <= k < |kept| ==> kept[k] in items && intensityOf(kept[k]) > 0.0
  {
    if items == [] then []
    else
      var init, last := items[..|items| - 1], items[|items| - 1];
      var kept := FilterActive(init, intensityOf);
      assert forall x :: x in init ==> x in items;
      kept + (if intensityOf(last) > 0.0 then [last] else [])
  }

  /** The positions whose value is above 0, in increasing order. */
  function ActiveIndices(xs: seq<real>): (idx: seq<nat>)
    ensures forall k :: 0 <= k < |idx| ==> idx[k] < |xs| && xs[idx[k]] > 0.0
    ensures forall k, l :: 0 <= k < l < |idx| ==> idx[k] < idx[l]
    ensures forall i :: 0 <= i < |xs| && xs[i] > 0.0 ==> i in idx
  {
    if xs == [] then []
    else
      var n := |xs| - 1;
      var init := ActiveIndices(xs[..n]);
      assert forall k :: 0 <= k < |init| ==> init[k] < n && xs[init[k]] > 0.0;
      init + (if xs[n] > 0.0 then [n] else [])
  }

  /** Filtering the items is taking them at the positions whose intensity
      is above 0. */
  lemma {:induction false} FilterIsActiveIndices<T>(items: seq<T>, intensityOf: T -> real, xs: seq<real>)
    requires |xs| == |items| && forall i :: 0 <= i < |items| ==> xs[i] == intensityOf(items[i])
    ensures |FilterActive(items, intensityOf)| == |ActiveIndices(xs)|
    ensures forall k :: 0 <= k < |ActiveIndices(xs)| ==> FilterActive(items, intensityOf)[k] == items[ActiveIndices(xs)[k]]
  {
    if items != [] {
      var n := |items| - 1;
      FilterIsActiveIndices(items[..n], intensityOf, xs[..n]);
    }
  }

  /** `radarData`: label, vector and intensity of each emotion, kept when its
      intensity is above 0. */
  function RadarData(a: AnalysisResult, e: Emotions): (data: seq<RadarItem>)
    requires |a.emotionVectors| == 6
    ensures |data| <= 6
    ensures forall k :: 0 <= k < |data| ==> data[k].intensity > 0.0 && data[k].emotion in Labels
  {
    FilterActive(RadarItems(a, e), RadarIntensity)
  }

  /** One radar item per label, before the filter. */
  function RadarItems(a: AnalysisResult, e: Emotions): (items: seq<RadarItem>)
    requires |a.emotionVectors| == 6
    ensures |items| == 6
  {
    var xs := Intensities(e);
    seq(6, i requires 0 <= i < 6 => RadarItem(Labels[i], a.emotionVectors[i], xs[i]))
  }

  function RadarIntensity(item: RadarItem): real { item.intensity }

  /** The radar shows exactly the emotions with intensity above 0, in label
      order, each with the vector of the same index. */
  lemma RadarDataIsActive(a: AnalysisResult, e: Emotions)
    requires |a.emotionVectors| == 6
    ensures var xs, idx := Intensities(e), ActiveIndices(Intensities(e));
      && |RadarData(a, e)| == |idx|
      && forall k :: 0 <= k < |idx| ==>
        RadarData(a, e)[k] == RadarItem(Labels[idx[k]], a.emotionVectors[idx[k]], xs[idx[k]])
  {
    var items := RadarItems(a, e);
    FilterIsActiveIndices(items, RadarIntensity, Intensities(e));
  }

  /** `curvatureData`: label, curvature, intensity and colour of each
      emotion, kept when its intensity is above 0. */
  function CurvatureData(a: AnalysisResult, e: Emotions): (data: seq<CurvatureItem>)
    requires |a.curvatures| == 6
    ensures |data| <= 6
    ensures forall k :: 0 <= k < |data| ==> data[k].intensity > 0.0 && data[k].emotion in Labels
  {
    FilterActive(CurvatureItems(a, e), CurvatureIntensity)
  }

  /** One curvature item per label, before the filter. */
  function CurvatureItems(a: AnalysisResult, e: Emotions): (items: seq<CurvatureItem>)
    requires |a.curvatures| == 6
    ensures |items| == 6
  {
    var xs := Intensities(e);
    seq(6, i requires 0 <= i < 6 => CurvatureItem(Labels[i], a.curvatures[i], xs[i], EmotionColors[i]))
  }

  function CurvatureIntensity(item: CurvatureItem): real { item.intensity }

  /** The curvature chart shows the same emotions as the radar, each with
      its own curvature and colour. */
  lemma CurvatureDataIsActive(a: AnalysisResult, e: Emotions)
    requires |a.curvatures| == 6
    ensures var xs, idx := Intensities(e), ActiveIndices(Intensities(e));
      && |CurvatureData(a, e)| == |idx|
      && forall k :: 0 <= k < |idx| ==>
        CurvatureData(a, e)[k] == CurvatureItem(Labels[idx[k]], a.curvatures[idx[k]], xs[idx[k]], EmotionColors[idx[k]])
  {
    var items := CurvatureItems(a, e);
    FilterIsActiveIndices(items, CurvatureIntensity, Intensities(e));
  }

  // ------------------------------------------------------------ read-outs

  /** The stability bar is drawn at ten times the index. */
  function BarValue(stabilityIndex: real): (bar: real)
    ensures bar / 10.0 == stabilityIndex
  {
    stabilityIndex * 10.0
  }

  /** The tooltip of the stability bar divides by ten again. */
  function TooltipValue(barValue: real): (shown: real)
    ensures shown * 10.0 == barValue
  {
    barValue / 10.0
  }

  /** The tooltip shows the index itself, and a larger index always gives
      a longer bar. */
  lemma TooltipRoundTrip(s: real, t: real)
    ensures TooltipValue(BarValue(s)) == s
    ensures s < t ==> BarValue(s) < BarValue(t)
  {
  }

  datatype StabilityWord = VeryStable | Stable | Unstable | Volatile

  function StabilityRank(w: StabilityWord): nat {
    match w
    case Volatile => 0
    case Unstable => 1
    case Stable => 2
    case VeryStable => 3
  }

  /** The word under the index: above 2, above 0.5, above 0.2, else volatile. */
  function StabilityWordOf(stabilityIndex: real): (w: StabilityWord)
    ensures w == VeryStable <==> stabilityIndex > 2.0
    ensures w == Stable <==> 0.5 < stabilityIndex <= 2.0
    ensures w == Unstable <==> 0.2 < stabilityIndex <= 0.5
    ensures w == Volatile <==> stabilityIndex <= 0.2
  {
    if stabilityIndex > 2.0 then VeryStable
    else if stabilityIndex > 0.5 then Stable
    else if stabilityIndex > 0.2 then Unstable
    else Volatile
  }

  /** A higher index never reads as less stable. */
  lemma StabilityWordMonotone(s: real, t: real)
    requires s <= t
    ensures StabilityRank(StabilityWordOf(s)) <= StabilityRank(StabilityWordOf(t))
  {
  }

  /** The panel and the classifier draw the volatile line differently: at an
      index of exactly 0.2 the panel says "Volatile" while a profile with no
      negative emotion at 6 or more is classified "Unstable" (the
      classifier's test is strict). */
  lemma VolatileBoundaryDiffers()
    ensures StabilityWordOf(0.2) == Volatile
    ensures Classify(Emotions(0.0, 0.0, 0.0, 0.0, 0.0, 0.0), 0.2) == "Unstable"
  {
    var e := Emotions(0.0, 0.0, 0.0, 0.0, 0.0, 0.0);
    assert !SomeNegativeAtLeast(e, 6.0);
  }

  datatype EnergyWord = High | Moderate | Low

  /** The word under the energy: above 200 high, above 50 moderate, else low. */
  function EnergyWordOf(energy: real): (w: EnergyWord)
    ensures w == High <==> energy > 200.0
    ensures w == Low <==> energy <= 50.0
  {
    if energy > 200.0 then High else if energy > 50.0 then Moderate else Low
  }

  datatype Interpretation = IntenseAndUnstable | CalmAndStable | Volatility | ModerateState

  /** The quick interpretation: the first of the four cases that applies. */
  function QuickInterpretation(energy: real, stabilityIndex: real): (q: Interpretation)
    ensures q == IntenseAndUnstable <==> energy > 200.0 && stabilityIndex < 0.5
    ensures q == CalmAndStable <==> energy < 50.0 && stabilityIndex > 1.0
    ensures q == Volatility <==> energy <= 200.0 && stabilityIndex < 0.2
  {
    if energy > 200.0 && stabilityIndex < 0.5 then IntenseAndUnstable
    else if energy < 50.0 && stabilityIndex > 1.0 then CalmAndStable
    else if stabilityIndex < 0.2 then Volatility
    else ModerateState
  }

  /** The sentence agrees with the words beside it: intense means high
      energy read as unstable or volatile, calm means low energy read as
      stable, and volatility means a volatile index. */
  lemma InterpretationAgreesWithWords(energy: real, stabilityIndex: real)
    ensures QuickInterpretation(energy, stabilityIndex) == IntenseAndUnstable ==>
      EnergyWordOf(energy) == High && StabilityRank(StabilityWordOf(stabilityIndex)) <= 1
    ensures QuickInterpretation(energy, stabilityIndex) == CalmAndStable ==>
      EnergyWordOf(energy) == Low && StabilityRank(StabilityWordOf(stabilityIndex)) >= 2
    ensures QuickInterpretation(energy, stabilityIndex) == Volatility ==>
      StabilityWordOf(stabilityIndex) == Volatile && EnergyWordOf(energy) != High
  {
  }
}
