/** components/emotional-trend-chart.tsx: the summary of the journal shown
    as a chart. The chart holds the last fourteen entries, numbered by day;
    the average and the trend are read off it; the flag badges count the
    flags of the last seven entries; four insights follow from these. */
module TrendChart {
  import opened TextMatch

  datatype JournalEntry = JournalEntry(
    content: string,
    stabilityScore: real,
    emotionalState: string,
    detectedFlags: seq<string>)

  datatype ChartPoint = ChartPoint(day: nat, stability: real, emotion: string, flags: nat)

  // ---------------------------------------------------------------- chart

  /** `chartData`: the last fourteen entries (all when fewer), in order,
      numbered from day 1. */
  function ChartData(entries: seq<JournalEntry>): (points: seq<ChartPoint>)
    ensures |points| == if |entries| < 14 then |entries| else 14
    ensures forall i :: 0 <= i < |points| ==>
      var entry := entries[|entries| - |points| + i];
      points[i] == ChartPoint(i + 1, entry.stabilityScore, entry.emotionalState, |entry.detectedFlags|)
  {
    var window := LastN(entries, 14);
    seq(|window|, i requires 0 <= i < |window| =>
      ChartPoint(i + 1, window[i].stabilityScore, window[i].emotionalState, |window[i].detectedFlags|))
  }

  function SumStability(points: seq<ChartPoint>): real {
    if points == [] then 0.0 else SumStability(points[..|points| - 1]) + points[|points| - 1].stability
  }

  /** `averageStability`: the mean of the points, 0 for none. */
  function AverageStability(points: seq<ChartPoint>): (r: real)
    ensures points == [] ==> r == 0.0
    ensures points != [] ==> r * |points| as real == SumStability(points)
  {
    if |points| > 0 then SumStability(points) / |points| as real else 0.0
  }

  predicate StabilitiesWithin(points: seq<ChartPoint>, lo: real, hi: real) {
    forall i :: 0 <= i < |points| ==> lo <= points[i].stability <= hi
  }

  lemma {:induction false} SumWithin(points: seq<ChartPoint>, lo: real, hi: real)
    requires StabilitiesWithin(points, lo, hi)
    ensures |points| as real * lo <= SumStability(points) <= |points| as real * hi
  {
    if points != [] {
      var init := points[..|points| - 1];
      assert StabilitiesWithin(init, lo, hi) by {
        forall i | 0 <= i < |init| ensures lo <= init[i].stability <= hi {
          assert init[i] == points[i];
        }
      }
      SumWithin(init, lo, hi);
    }
  }

  lemma QuotientWithin(s: real, n: real, lo: real, hi: real)
    requires n > 0.0 && n * lo <= s <= n * hi
    ensures lo <= s / n <= hi
  {
    var q := s / n;
    assert s == q * n;
    assert n * (q - lo) >= 0.0;
    assert n * (hi - q) >= 0.0;
  }

  /** The average lies between the lowest and the highest score on the
      chart: with every score in [lo, hi] and a point at all, so does the
      average; with no point it is 0. */
  lemma AverageWithin(points: seq<ChartPoint>, lo: real, hi: real)
    requires StabilitiesWithin(points, lo, hi)
    ensures points == [] ==> AverageStability(points) == 0.0
    ensures points != [] ==> lo <= AverageStability(points) <= hi
  {
    if points != [] {
      SumWithin(points, lo, hi);
      QuotientWithin(SumStability(points), |points| as real, lo, hi);
    }
  }

  /** `trend`: last minus first score when there are two points or more. */
  function Trend(points: seq<ChartPoint>): (r: real)
    ensures |points| < 2 ==> r == 0.0
    ensures |points| >= 2 ==> points[0].stability + r == points[|points| - 1].stability
  {
    if |points| > 1 then points[|points| - 1].stability - points[0].stability else 0.0
  }

  /** The day-to-day changes along the chart, added up. */
  function SumOfSteps(points: seq<ChartPoint>): real {
    if |points| < 2 then 0.0
    else SumOfSteps(points[..|points| - 1]) + (points[|points| - 1].stability - points[|points| - 2].stability)
  }

  /** The trend is the sum of the day-to-day changes: the overall rise from
      the first day to the last. */
  lemma {:induction false} TrendIsSumOfSteps(points: seq<ChartPoint>)
    ensures Trend(points) == SumOfSteps(points)
  {
    if |points| > 2 {
      var init := points[..|points| - 1];
      TrendIsSumOfSteps(init);
      assert init[0] == points[0] && init[|init| - 1] == points[|points| - 2];
    }
  }

  // ---------------------------------------------------------------- flags

  /** `flatMap((entry) => entry.detectedFlags)`. */
  function AllFlags(entries: seq<JournalEntry>): (flags: seq<string>)
    ensures |entries| == 0 ==> flags == []
  {
    if entries == [] then [] else entries[0].detectedFlags + AllFlags(entries[1..])
  }

  /** The reducer: one more for `flag`, starting from 0. */
  function Bump(acc: map<string, nat>, flag: string): map<string, nat> {
    acc[flag := (if flag in acc then acc[flag] else 0) + 1]
  }

  /** `reduce` over the flags with the reducer, left to right. */
  function Tally(acc: map<string, nat>, flags: seq<string>): map<string, nat>
    decreases |flags|
  {
    if flags == [] then acc else Tally(Bump(acc, flags[0]), flags[1..])
  }

  /** `recentFlags`: the flags of the last seven entries, counted. */
  function RecentFlags(entries: seq<JournalEntry>): (counts: map<string, nat>)
    ensures forall f :: f in counts <==> f in AllFlags(LastN(entries, 7))
    ensures forall f :: f in counts ==> counts[f] == Count(AllFlags(LastN(entries, 7)), f)
  {
    TallyAll(map[], AllFlags(LastN(entries, 7)));
    Tally(map[], AllFlags(LastN(entries, 7)))
  }

  /** TallyCounts for every flag at once. */
  lemma TallyAll(acc: map<string, nat>, flags: seq<string>)
    ensures forall f :: f in Tally(acc, flags) <==> f in acc || f in flags
    ensures forall f :: f in Tally(acc, flags) ==>
      Tally(acc, flags)[f] == (if f in acc then acc[f] else 0) + Count(flags, f)
  {
    forall f ensures f in Tally(acc, flags) <==> f in acc || f in flags {
      TallyCounts(acc, flags, f);
    }
    forall f | f in Tally(acc, flags)
      ensures Tally(acc, flags)[f] == (if f in acc then acc[f] else 0) + Count(flags, f)
    {
      TallyCounts(acc, flags, f);
    }
  }

  /** How often `flag` occurs. */
  function Count(flags: seq<string>, flag: string): nat {
    if flags == [] then 0 else (if flags[0] == flag then 1 else 0) + Count(flags[1..], flag)
  }

  /** The fold keeps what was already counted and adds each occurrence. */
  lemma {:induction false} TallyCounts(acc: map<string, nat>, flags: seq<string>, flag: string)
    ensures flag in Tally(acc, flags) <==> flag in acc || flag in flags
    ensures flag in Tally(acc, flags) ==>
      Tally(acc, flags)[flag] == (if flag in acc then acc[flag] else 0) + Count(flags, flag)
    decreases |flags|
  {
    if flags != [] {
      TallyCounts(Bump(acc, flags[0]), flags[1..], flag);
      assert flag in flags <==> flag == flags[0] || flag in flags[1..];
    }
  }

  /** Each flag of the window is a key, counted as often as it occurs, and
      nothing else is a key. */
  lemma RecentFlagsCounts(entries: seq<JournalEntry>, flag: string)
    ensures flag in RecentFlags(entries) <==> flag in AllFlags(LastN(entries, 7))
    ensures flag in RecentFlags(entries) ==>
      RecentFlags(entries)[flag] == Count(AllFlags(LastN(entries, 7)), flag)
  {
    TallyCounts(map[], AllFlags(LastN(entries, 7)), flag);
  }

  /** The sum of the counts in a map. */
  ghost function SumValues(m: map<string, nat>): nat
    decreases |m.Keys|
  {
    if m == map[] then 0
    else
      var k :| k in m;
      assert |(m - {k}).Keys| < |m.Keys| by { assert m.Keys == (m - {k}).Keys + {k}; }
      m[k] + SumValues(m - {k})
  }

  /** Any key can be taken out first. */
  lemma {:induction false} SumValuesRemove(m: map<string, nat>, k: string)
    requires k in m
    ensures SumValues(m) == m[k] + SumValues(m - {k})
    decreases |m.Keys|
  {
    var j :| j in m && SumValues(m) == m[j] + SumValues(m - {j});
    if j != k {
      assert |(m - {j}).Keys| < |m.Keys| by { assert m.Keys == (m - {j}).Keys + {j}; }
      assert |(m - {k}).Keys| < |m.Keys| by { assert m.Keys == (m - {k}).Keys + {k}; }
      SumValuesRemove(m - {j}, k);
      SumValuesRemove(m - {k}, j);
      assert m - {j} - {k} == m - {k} - {j};
    }
  }

  lemma BumpAddsOne(acc: map<string, nat>, flag: string)
    ensures SumValues(Bump(acc, flag)) == SumValues(acc) + 1
  {
    var b := Bump(acc, flag);
    SumValuesRemove(b, flag);
    if flag in acc {
      SumValuesRemove(acc, flag);
      assert b - {flag} == acc - {flag};
    } else {
      assert b - {flag} == acc;
    }
  }

  lemma {:induction false} TallySum(acc: map<string, nat>, flags: seq<string>)
    ensures SumValues(Tally(acc, flags)) == SumValues(acc) + |flags|
    decreases |flags|
  {
    if flags != [] {
      BumpAddsOne(acc, flags[0]);
      TallySum(Bump(acc, flags[0]), flags[1..]);
    }
  }

  /** The counts add up to the number of flags of the last seven entries. */
  lemma RecentFlagsTotal(entries: seq<JournalEntry>)
    ensures SumValues(RecentFlags(entries)) == |AllFlags(LastN(entries, 7))|
  {
    TallySum(map[], AllFlags(LastN(entries, 7)));
    assert SumValues(map[]) == 0;
  }

  datatype BadgeVariant = Destructive | Secondary | Outline

  /** The badge of a flag: crisis flags first, then instability ones. */
  function FlagVariant(flag: string): (v: BadgeVariant)
    ensures v == Destructive <==> Contains(flag, "Crisis")
    ensures v == Secondary <==> !Contains(flag, "Crisis") && Contains(flag, "Instability")
  {
    if Contains(flag, "Crisis") then Destructive
    else if Contains(flag, "Instability") then Secondary
    else Outline
  }

  // ------------------------------------------------------------- insights

  datatype Tone = Red | Orange | Yellow | Green

  function ToneRank(t: Tone): nat {
    match t
    case Red => 0
    case Orange => 1
    case Yellow => 2
    case Green => 3
  }

  /** The colour of the average: green from 70, yellow from 50, orange from
      35, red below. */
  function AverageTone(average: real): (t: Tone)
    ensures t == Green <==> average >= 70.0
    ensures t == Yellow <==> 50.0 <= average < 70.0
    ensures t == Orange <==> 35.0 <= average < 50.0
    ensures t == Red <==> average < 35.0
  {
    if average >= 70.0 then Green
    else if average >= 50.0 then Yellow
    else if average >= 35.0 then Orange
    else Red
  }

  /** A higher average never gets a worse colour. */
  lemma AverageToneMonotone(a: real, b: real)
    requires a <= b
    ensures ToneRank(AverageTone(a)) <= ToneRank(AverageTone(b))
  {
  }

  /** The colour of the trend: green above 5, red below -5, yellow between. */
  function TrendTone(trend: real): (t: Tone)
    ensures t != Orange
    ensures t == Yellow <==> -5.0 <= trend <= 5.0
  {
    if trend > 5.0 then Green else if trend < -5.0 then Red else Yellow
  }

  datatype Insight = Improving | Declining | NeedsSupport | NumbnessPattern

  /** The insight paragraphs, in the order they are shown. */
  function Insights(average: real, trend: real, recentFlags: map<string, nat>): (ins: seq<Insight>)
    ensures Improving in ins <==> trend > 10.0
    ensures Declining in ins <==> trend < -10.0
    ensures NeedsSupport in ins <==> average < 35.0
    ensures NumbnessPattern in ins <==> "Emotional Numbness" in recentFlags
  {
    (if trend > 10.0 then [Improving] else [])
    + (if trend < -10.0 then [Declining] else [])
    + (if average < 35.0 then [NeedsSupport] else [])
    + (if "Emotional Numbness" in recentFlags then [NumbnessPattern] else [])
  }

  /** Improving and declining never show together; the support and the
      numbness insights do not depend on the trend. */
  lemma InsightsIndependent(average: real, trend: real, trend2: real, recentFlags: map<string, nat>)
    ensures !(Improving in Insights(average, trend, recentFlags) && Declining in Insights(average, trend, recentFlags))
    ensures (NeedsSupport in Insights(average, trend, recentFlags)) == (NeedsSupport in Insights(average, trend2, recentFlags))
    ensures (NumbnessPattern in Insights(average, trend, recentFlags)) == (NumbnessPattern in Insights(average, trend2, recentFlags))
  {
  }

  /** The numbness insight reads the last seven entries, not the chart's
      fourteen: a numbness flag eight entries back is on the chart but
      raises no insight. */
  lemma NumbnessWindowIsSeven(earlier: JournalEntry, recent: seq<JournalEntry>)
    requires |recent| == 7 && forall i :: 0 <= i < 7 ==> recent[i].detectedFlags == []
    ensures "Emotional Numbness" !in RecentFlags([earlier] + recent)
  {
    var entries := [earlier] + recent;
    assert LastN(entries, 7) == recent;
    NoFlags(recent);
    RecentFlagsCounts(entries, "Emotional Numbness");
  }

  lemma {:induction false} NoFlags(entries: seq<JournalEntry>)
    requires forall i :: 0 <= i < |entries| ==> entries[i].detectedFlags == []
    ensures AllFlags(entries) == []
  {
    if entries != [] {
      NoFlags(entries[1..]);
    }
  }
}
