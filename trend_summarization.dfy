/** The trend descriptor generator of `queryFactory`: five dynamic predicates over
    a partial trend's mean cone angle, three quantity predicates over the
    proportion of time, and one sentence for each (quantity, dynamic) pair.

    The segmenter `createPartialTrends`, the aggregator `sigmaCountQA` and the
    chart's diagonal angle are not part of this model; they are passed in. */
module TrendSummarization {
  import opened SummaryTypes
  import opened Membership

  /** The slope angles, in radians, at the first and last segment of a run. */
  datatype Cone = Cone(startAngleRad: real, endAngleRad: real)

  /** One monotonic run: its share of the series' time extent and its cone. */
  datatype PartialTrend = PartialTrend(percentageSpan: real, cone: Cone)

  /** A closure made by `applyTrendAngleWithWeight(f)`: the membership `f`,
      and the number of partial trends it captured. */
  datatype Dynamic = WeightedAngle(f: Shape, trendCount: nat)

  /** The noise threshold handed to the segmenter. */
  const NoiseThreshold: real := 0.01

  function AverageAngle(t: PartialTrend): real
  {
    (t.cone.endAngleRad + t.cone.startAngleRad) / 2.0
  }

  /** The weighted dynamic degree of a trend: vanishes with its membership or its
      span, and never exceeds its span rescaled by the number of trends. */
  function Weigh(u: Dynamic, t: PartialTrend): (r: real)
    ensures Degree(u.f, AverageAngle(t)) == 0.0 || t.percentageSpan == 0.0 ==> r == 0.0
    ensures 0.0 <= t.percentageSpan ==>
      0.0 <= r <= t.percentageSpan * u.trendCount as real
  {
    var g := Degree(u.f, AverageAngle(t));
    var w := t.percentageSpan * u.trendCount as real;
    assert g * t.percentageSpan * u.trendCount as real == g * w;
    if 0.0 <= w then ScaleWithin(g, w); g * w else g * w
  }

  /** Scaling a degree in [0, 1] by a nonnegative weight stays within the weight. */
  lemma ScaleWithin(g: real, w: real)
    requires 0.0 <= g <= 1.0 && 0.0 <= w
    ensures 0.0 <= g * w <= w
  {
    assert w - g * w == (1.0 - g) * w;
  }

  /** `uMostPercentage`, `uHalfPercentage`, `uFewPercentage`, in table order. */
  function QuantityOptions(): seq<VariableOption<Shape>>
  {
    [ VariableOption("most", LeftShoulder(0.6, 0.7)),
      VariableOption("half", Trapezoid(0.3, 0.4, 0.6, 0.7)),
      VariableOption("few", Trapezoid(0.1, 0.2, 0.3, 0.4)) ]
  }

  /** The five dynamic memberships over the mean angle, for diagonal angle `theta`. */
  function DynamicShapes(theta: real): seq<VariableOption<Shape>>
  {
    [ VariableOption("quickly increasing", LeftShoulder(theta / 2.0, theta * 3.0 / 5.0)),
      VariableOption("increasing", LeftShoulder(theta / 8.0, theta / 4.0)),
      VariableOption("constant", Trapezoid(-theta / 4.0, -theta / 8.0, theta / 8.0, theta / 4.0)),
      VariableOption("decreasing", RightShoulder(-theta / 4.0, -theta / 8.0)),
      VariableOption("quickly decreasing", RightShoulder(-theta * 3.0 / 5.0, -theta / 2.0)) ]
  }

  /** `uDynamics`: each shape wrapped by `applyTrendAngleWithWeight` over `n` trends. */
  function DynamicOptions(theta: real, n: nat): (r: seq<VariableOption<Dynamic>>)
    ensures |r| == |DynamicShapes(theta)|
    ensures forall d :: 0 <= d < |r| ==>
      r[d] == VariableOption(DynamicShapes(theta)[d].name, WeightedAngle(DynamicShapes(theta)[d].membership, n))
  {
    var shapes := DynamicShapes(theta);
    seq(|shapes|, d requires 0 <= d < |shapes| =>
      VariableOption(shapes[d].name, WeightedAngle(shapes[d].membership, n)))
  }

  const SentencePrefix: string := "trends that took <b>"
  const SentenceMiddle: string := "</b> of the time are <b>"
  const SentenceSuffix: string := "</b>."

  function Sentence(quantifier: string, dynamic: string): string
  {
    SentencePrefix + quantifier + SentenceMiddle + dynamic + SentenceSuffix
  }

  /** The `k`-th summary of the table: quantity `k / 5` and dynamic `k % 5`, the
      sentence naming both and the aggregator's validity for that pair over the
      partial trends. */
  function Entry(partialTrends: seq<PartialTrend>, theta: real,
                 sigmaCountQA: (seq<PartialTrend>, Shape, Dynamic) -> real,
                 k: nat): Summary
    requires k < 15
  {
    var quantity := QuantityOptions()[k / 5];
    var dynamic := DynamicOptions(theta, |partialTrends|)[k % 5];
    Summary(Sentence(quantity.name, dynamic.name),
            sigmaCountQA(partialTrends, quantity.membership, dynamic.membership))
  }

  /** The body of the thunk `queryFactory` hands to `cacheSummaries`: quantities
      in the outer loop, dynamics in the inner one, one summary per pair. */
  method QuerySummaries(points: seq<TimeSeriesPoint>,
                        createPartialTrends: (seq<TimeSeriesPoint>, real) -> seq<PartialTrend>,
                        chartDiagonalAngle: real,
                        sigmaCountQA: (seq<PartialTrend>, Shape, Dynamic) -> real)
    returns (summaries: seq<Summary>)
    ensures |summaries| == |QuantityOptions()| * |DynamicShapes(chartDiagonalAngle)| == 15
    ensures forall k :: 0 <= k < |summaries| ==>
      summaries[k] == Entry(createPartialTrends(points, NoiseThreshold), chartDiagonalAngle,
                            sigmaCountQA, k)
  {
    var partialTrends := createPartialTrends(points, NoiseThreshold);
    var uPercentages := QuantityOptions();
    var uDynamics := DynamicOptions(chartDiagonalAngle, |partialTrends|);
    summaries := [];
    for q := 0 to |uPercentages|
      invariant |summaries| == 5 * q
      invariant forall k :: 0 <= k < |summaries| ==>
        summaries[k] == Entry(partialTrends, chartDiagonalAngle, sigmaCountQA, k)
    {
      for d := 0 to |uDynamics|
        invariant |summaries| == 5 * q + d
        invariant forall k :: 0 <= k < |summaries| ==>
          summaries[k] == Entry(partialTrends, chartDiagonalAngle, sigmaCountQA, k)
      {
        var quantifier, uPercentage := uPercentages[q].name, uPercentages[q].membership;
        var dynamic, uDynamic := uDynamics[d].name, uDynamics[d].membership;
        var t := sigmaCountQA(partialTrends, uPercentage, uDynamic);
        assert (5 * q + d) / 5 == q && (5 * q + d) % 5 == d;
        assert Summary(Sentence(quantifier, dynamic), t) == Entry(partialTrends, chartDiagonalAngle, sigmaCountQA, 5 * q + d);
        summaries := summaries + [Summary(Sentence(quantifier, dynamic), t)];
      }
    }
  }

  /** The quantifier and the dynamic can be read back at fixed offsets of a sentence. */
  lemma SentenceFields(quantifier: string, dynamic: string)
    ensures Sentence(quantifier, dynamic)[..|SentencePrefix|] == SentencePrefix
    ensures Sentence(quantifier, dynamic)[|SentencePrefix|..|SentencePrefix| + |quantifier|] == quantifier
    ensures Sentence(quantifier, dynamic)[|SentencePrefix| + |quantifier|..
      |SentencePrefix| + |quantifier| + |SentenceMiddle|] == SentenceMiddle
    ensures Sentence(quantifier, dynamic)[|SentencePrefix| + |quantifier| + |SentenceMiddle|..
      |Sentence(quantifier, dynamic)| - |SentenceSuffix|] == dynamic
    ensures Sentence(quantifier, dynamic)[|Sentence(quantifier, dynamic)| - |SentenceSuffix|..] == SentenceSuffix
  {
    var s := Sentence(quantifier, dynamic);
    assert s == SentencePrefix + (quantifier + (SentenceMiddle + (dynamic + SentenceSuffix)));
  }

  /** Character `k` of the quantifier sits right after the prefix. */
  lemma SentenceQuantifierAt(quantifier: string, dynamic: string, k: nat)
    requires k < |quantifier|
    ensures Sentence(quantifier, dynamic)[|SentencePrefix| + k] == quantifier[k]
  {
    SentenceFields(quantifier, dynamic);
    assert Sentence(quantifier, dynamic)[|SentencePrefix|..|SentencePrefix| + |quantifier|][k] == quantifier[k];
  }

  /** Character `k` of the dynamic sits right after the quantifier and the middle text. */
  lemma SentenceDynamicAt(quantifier: string, dynamic: string, k: nat)
    requires k < |dynamic|
    ensures Sentence(quantifier, dynamic)[|SentencePrefix| + |quantifier| + |SentenceMiddle| + k] == dynamic[k]
  {
    SentenceFields(quantifier, dynamic);
    var o := |SentencePrefix| + |quantifier| + |SentenceMiddle|;
    assert Sentence(quantifier, dynamic)[o..|Sentence(quantifier, dynamic)| - |SentenceSuffix|][k] == dynamic[k];
  }

  /** Two different pairs of the tables never produce the same sentence. */
  lemma SentencesDistinct(theta: real, q1: nat, d1: nat, q2: nat, d2: nat)
    requires q1 < 3 && d1 < 5 && q2 < 3 && d2 < 5
    requires q1 != q2 || d1 != d2
    ensures Sentence(QuantityOptions()[q1].name, DynamicShapes(theta)[d1].name)
         != Sentence(QuantityOptions()[q2].name, DynamicShapes(theta)[d2].name)
  {
    var n1, n2 := QuantityOptions()[q1].name, QuantityOptions()[q2].name;
    var m1, m2 := DynamicShapes(theta)[d1].name, DynamicShapes(theta)[d2].name;
    if q1 != q2 {
      assert n1[0] != n2[0] by {
        assert n1[0] == ['m', 'h', 'f'][q1] && n2[0] == ['m', 'h', 'f'][q2];
      }
      SentenceQuantifierAt(n1, m1, 0);
      SentenceQuantifierAt(n2, m2, 0);
    } else {
      var k := if {d1, d2} == {0, 4} then 8 else 0;
      assert m1[k] != m2[k] by {
        assert m1[0] == ['q', 'i', 'c', 'd', 'q'][d1] && m2[0] == ['q', 'i', 'c', 'd', 'q'][d2];
      }
      SentenceDynamicAt(n1, m1, k);
      SentenceDynamicAt(n2, m2, k);
    }
  }

  /** Every quantity breakpoint tuple is nondecreasing. */
  lemma QuantitiesWellFormed(q: nat)
    requires q < |QuantityOptions()|
    ensures WellFormed(QuantityOptions()[q].membership)
  {
  }

  /** For a nonnegative diagonal angle every dynamic breakpoint tuple is nondecreasing. */
  lemma DynamicsWellFormed(theta: real, d: nat)
    requires 0.0 <= theta && d < |DynamicShapes(theta)|
    ensures WellFormed(DynamicShapes(theta)[d].membership)
  {
  }

  /** The dynamic breakpoints mirror each other about 0: decreasing is reflected
      increasing, quickly decreasing is reflected quickly increasing, and constant
      is its own reflection. */
  lemma DynamicsMirrored(theta: real)
    ensures Mirror(DynamicShapes(theta)[1].membership) == DynamicShapes(theta)[3].membership
    ensures Mirror(DynamicShapes(theta)[0].membership) == DynamicShapes(theta)[4].membership
    ensures Mirror(DynamicShapes(theta)[2].membership) == DynamicShapes(theta)[2].membership
  {
  }

  /** The trend with both cone angles negated. */
  function Reflect(t: PartialTrend): (r: PartialTrend)
    ensures AverageAngle(r) == -AverageAngle(t)
    ensures r.percentageSpan == t.percentageSpan
  {
    PartialTrend(t.percentageSpan, Cone(-t.cone.startAngleRad, -t.cone.endAngleRad))
  }

  /** Reflecting the membership and the trend together leaves the weight unchanged. */
  lemma WeighMirror(f: Shape, n: nat, t: PartialTrend)
    requires WellFormed(f)
    ensures Weigh(WeightedAngle(Mirror(f), n), Reflect(t)) == Weigh(WeightedAngle(f, n), t)
  {
    MirrorDegree(f, AverageAngle(t));
  }

  /** A trend is as decreasing (quickly, constant) as its reflection is increasing
      (quickly, constant), with the same weight. */
  lemma WeighReflected(theta: real, n: nat, t: PartialTrend, d: nat)
    requires 0.0 <= theta && d < 5
    ensures Weigh(DynamicOptions(theta, n)[4 - d].membership, Reflect(t))
         == Weigh(DynamicOptions(theta, n)[d].membership, t)
  {
    var shapes := DynamicShapes(theta);
    var f := shapes[d].membership;
    DynamicsWellFormed(theta, d);
    assert shapes[4 - d].membership == Mirror(f) by {
      DynamicsMirrored(theta);
      if d >= 3 {
        MirrorInvolution(shapes[4 - d].membership);
      }
    }
    WeighMirror(f, n, t);
  }
}
