/** The trend weekly elaboration summarization: one regression summary per
    analyzable calendar week, fitted on all points of the week or on its weekday
    points only, plus a Friday-to-Saturday change when weekdays and weekends are
    judged unequal.

    Week grouping, the point conversion, the least-squares fit and the number
    formatting are not part of this model; they are the `Collaborators`. */
module WeeklyElaboration {
  import opened SummaryTypes

  datatype NumPoint = NumPoint(x: real, y: real)

  /** The fitted line of one week: its slope, its R², and the predicted value at
      the week's first point (`prediction[0].y`). */
  datatype LinearModel = LinearModel(gradient: real, r2: real, firstPrediction: real)

  datatype Collaborators = Collaborators(
    groupPointsByXWeek: seq<TimeSeriesPoint> -> seq<seq<TimeSeriesPoint>>,
    timeSeriesPointToNumPoint: TimeSeriesPoint -> NumPoint,
    createLinearModel: seq<NumPoint> -> LinearModel,
    formatY: real -> string,
    numberText: real -> string)

  // ---------------------------------------------------------------------------
  // Configuration

  const DefaultMetric: string := "active users"
  const DefaultMetricUnit: string := "users"

  /** What a caller passes: the base configuration and any of the optional fields. */
  datatype ConfigOverrides = ConfigOverrides(
    datumLabels: seq<string>, metric: Option<string>, metricUnit: Option<string>)

  datatype Config = Config(datumLabels: seq<string>, metric: string, metricUnit: string)

  /** The defaults overlaid by the caller's fields: a supplied field always wins,
      an absent one takes its default. */
  function PrepareConfig(config: ConfigOverrides): (r: Config)
    ensures r.datumLabels == config.datumLabels
    ensures config.metric.Some? ==> r.metric == config.metric.value
    ensures config.metric.None? ==> r.metric == DefaultMetric
    ensures config.metricUnit.Some? ==> r.metricUnit == config.metricUnit.value
    ensures config.metricUnit.None? ==> r.metricUnit == DefaultMetricUnit
  {
    Config(config.datumLabels,
           match config.metric case Some(m) => m case None => DefaultMetric,
           match config.metricUnit case Some(u) => u case None => DefaultMetricUnit)
  }

  /** A fully supplied configuration passes through unchanged, so preparing a
      prepared configuration again changes nothing. */
  lemma PrepareConfigSupplied(c: Config)
    ensures PrepareConfig(ConfigOverrides(c.datumLabels, Some(c.metric), Some(c.metricUnit))) == c
  {
  }

  // ---------------------------------------------------------------------------
  // Weekday / weekend classification

  /** Fuzzy degree to which a point's day belongs to the weekend. */
  function UWeekend(p: TimeSeriesPoint): (u: real)
    ensures 0.0 <= u <= 1.0
  {
    if p.day == 5 then 0.2
    else if p.day == 6 || p.day == 0 then 1.0
    else 0.0
  }

  function UWeekday(p: TimeSeriesPoint): real
  {
    1.0 - UWeekend(p)
  }

  predicate IsWeekend(p: TimeSeriesPoint)
  {
    UWeekend(p) > 0.5
  }

  predicate IsWeekday(p: TimeSeriesPoint)
  {
    UWeekday(p) > 0.5
  }

  /** Saturday and Sunday are the weekend, Monday to Friday the weekdays, and every
      day is exactly one of the two. */
  lemma DayClassification(p: TimeSeriesPoint)
    ensures IsWeekend(p) <==> p.day == 0 || p.day == 6
    ensures IsWeekday(p) <==> 1 <= p.day <= 5
    ensures IsWeekend(p) != IsWeekday(p)
    ensures UWeekday(p) + UWeekend(p) == 1.0
  {
  }

  /** Weekdays and weekends count as equal only above the threshold, strictly. */
  predicate IsWeekdayWeekendEqual(weekdayWeekendEqualValidity: real)
  {
    weekdayWeekendEqualValidity > 0.7
  }

  // ---------------------------------------------------------------------------
  // Data properties: analyzable weeks and their models

  /** Week groups with fewer points belong to a neighbouring period. */
  const MinWeekPoints: nat := 4

  /** The week groups with at least `MinWeekPoints` points, in their order. */
  function AnalyzableWeeks(groups: seq<seq<TimeSeriesPoint>>): (r: seq<seq<TimeSeriesPoint>>)
    ensures |r| <= |groups|
  {
    if groups == [] then []
    else if |groups[0]| >= MinWeekPoints then [groups[0]] + AnalyzableWeeks(groups[1..])
    else AnalyzableWeeks(groups[1..])
  }

  /** Exactly the groups with at least `MinWeekPoints` points are kept. */
  lemma {:induction false} AnalyzableWeeksMembers(groups: seq<seq<TimeSeriesPoint>>)
    ensures forall w :: w in AnalyzableWeeks(groups) <==> w in groups && |w| >= MinWeekPoints
  {
    if groups != [] {
      AnalyzableWeeksMembers(groups[1..]);
      assert forall w :: w in groups <==> w == groups[0] || w in groups[1..];
    }
  }

  /** The filter distributes over concatenation, so kept groups keep their
      relative order and each group is kept or dropped on its own. */
  lemma {:induction false} AnalyzableWeeksConcat(a: seq<seq<TimeSeriesPoint>>, b: seq<seq<TimeSeriesPoint>>)
    ensures AnalyzableWeeks(a + b) == AnalyzableWeeks(a) + AnalyzableWeeks(b)
  {
    if a == [] {
      assert a + b == b;
    } else {
      assert (a + b)[0] == a[0];
      assert (a + b)[1..] == a[1..] + b;
      AnalyzableWeeksConcat(a[1..], b);
      if |a[0]| >= MinWeekPoints {
        assert AnalyzableWeeks(a + b) == [a[0]] + (AnalyzableWeeks(a[1..]) + AnalyzableWeeks(b));
      }
    }
  }

  /** Filtering the kept weeks again keeps them all. */
  lemma {:induction false} AnalyzableWeeksIdempotent(groups: seq<seq<TimeSeriesPoint>>)
    ensures AnalyzableWeeks(AnalyzableWeeks(groups)) == AnalyzableWeeks(groups)
  {
    if groups != [] {
      AnalyzableWeeksIdempotent(groups[1..]);
    }
  }

  /** The points of a week that are weekdays, in their order. */
  function WeekdayPoints(week: seq<TimeSeriesPoint>): (r: seq<TimeSeriesPoint>)
    ensures |r| <= |week|
    ensures multiset(r) <= multiset(week)
    ensures forall p :: p in r <==> p in week && IsWeekday(p)
  {
    if week == [] then []
    else
      assert week == [week[0]] + week[1..];
      if IsWeekday(week[0]) then [week[0]] + WeekdayPoints(week[1..])
      else WeekdayPoints(week[1..])
  }

  /** Selecting weekday points distributes over concatenation: each point is
      kept or dropped on its own, in its place, and no point is repeated. */
  lemma {:induction false} WeekdayPointsConcat(a: seq<TimeSeriesPoint>, b: seq<TimeSeriesPoint>)
    ensures WeekdayPoints(a + b) == WeekdayPoints(a) + WeekdayPoints(b)
  {
    if a == [] {
      assert a + b == b;
    } else {
      assert (a + b)[0] == a[0];
      assert (a + b)[1..] == a[1..] + b;
      WeekdayPointsConcat(a[1..], b);
      if IsWeekday(a[0]) {
        assert WeekdayPoints(a + b) == [a[0]] + (WeekdayPoints(a[1..]) + WeekdayPoints(b));
      }
    }
  }

  /** The points the week's regression is fitted on. */
  function ModelInput(week: seq<TimeSeriesPoint>, isWeekdayWeekendEqual: bool): seq<TimeSeriesPoint>
  {
    if isWeekdayWeekendEqual then week else WeekdayPoints(week)
  }

  /** When weekdays and weekends differ, no Saturday or Sunday point enters the
      fit, and every Monday-to-Friday point does; otherwise the whole week does. */
  lemma ModelInputDays(week: seq<TimeSeriesPoint>, isWeekdayWeekendEqual: bool)
    ensures isWeekdayWeekendEqual ==> ModelInput(week, isWeekdayWeekendEqual) == week
    ensures !isWeekdayWeekendEqual ==> forall p :: p in ModelInput(week, isWeekdayWeekendEqual) <==>
      p in week && 1 <= p.day <= 5
  {
    forall p | p in week {
      DayClassification(p);
    }
  }

  function NumPoints(env: Collaborators, points: seq<TimeSeriesPoint>): (r: seq<NumPoint>)
    ensures |r| == |points|
    ensures forall i :: 0 <= i < |points| ==> r[i] == env.timeSeriesPointToNumPoint(points[i])
  {
    seq(|points|, i requires 0 <= i < |points| => env.timeSeriesPointToNumPoint(points[i]))
  }

  datatype Properties = Properties(
    weekPointArrays: seq<seq<TimeSeriesPoint>>, weekLinearModels: seq<LinearModel>)

  /** The points of the one requested label, or none. */
  function SelectPoints(pointsArray: seq<seq<TimeSeriesPoint>>): seq<TimeSeriesPoint>
  {
    if |pointsArray| == 0 then [] else pointsArray[0]
  }

  /** The analyzable weeks of the series, each paired with the model fitted on
      its model input. */
  function CreateDataProperties(pointsArray: seq<seq<TimeSeriesPoint>>,
                                weekdayWeekendEqualValidity: real,
                                env: Collaborators): (r: Properties)
    ensures r.weekPointArrays == AnalyzableWeeks(env.groupPointsByXWeek(SelectPoints(pointsArray)))
    ensures |r.weekLinearModels| == |r.weekPointArrays|
    ensures forall i :: 0 <= i < |r.weekPointArrays| ==>
      r.weekLinearModels[i] == env.createLinearModel(NumPoints(env,
        ModelInput(r.weekPointArrays[i], IsWeekdayWeekendEqual(weekdayWeekendEqualValidity))))
  {
    var isWeekdayWeekendEqual := IsWeekdayWeekendEqual(weekdayWeekendEqualValidity);
    var weeks := AnalyzableWeeks(env.groupPointsByXWeek(SelectPoints(pointsArray)));
    Properties(weeks, seq(|weeks|, i requires 0 <= i < |weeks| =>
      env.createLinearModel(NumPoints(env, ModelInput(weeks[i], isWeekdayWeekendEqual)))))
  }

  // ---------------------------------------------------------------------------
  // Summaries

  const Title: string := "Trend Weekly Elaboration"

  const OrdinalTexts: seq<string> := ["first", "second", "third", "fourth", "fifth"]

  /** `ordinalTexts[i]` as a template prints it: past the table it is `undefined`. */
  function OrdinalText(i: nat): string
  {
    if i < |OrdinalTexts| then OrdinalTexts[i] else "undefined"
  }

  function Abs(v: real): (r: real)
    ensures 0.0 <= r && (r == v || r == -v)
  {
    if v < 0.0 then -v else v
  }

  /** The direction word of a change; zero counts as an increase. */
  function DirectionWord(delta: real): string
  {
    if delta >= 0.0 then "increased" else "decreased"
  }

  function DaysDescriptor(isWeekdayWeekendEqual: bool): string
  {
    if isWeekdayWeekendEqual then "from Monday to Sunday" else "from Monday to Friday"
  }

  /** The first point of the week on the given day, as `Array.prototype.find` gives it. */
  function FindDay(week: seq<TimeSeriesPoint>, day: DayOfWeek): (r: Option<TimeSeriesPoint>)
    ensures r.Some? ==> r.value in week && r.value.day == day
  {
    if week == [] then None
    else if week[0].day == day then Some(week[0])
    else FindDay(week[1..], day)
  }

  /** Nothing is found exactly when no point of the week is on that day. */
  lemma {:induction false} FindDayNone(week: seq<TimeSeriesPoint>, day: DayOfWeek)
    ensures FindDay(week, day).None? <==> forall p :: p in week ==> p.day != day
  {
    if week != [] {
      FindDayNone(week[1..], day);
      assert forall p :: p in week ==> p == week[0] || p in week[1..];
    }
  }

  /** The point found is the earliest one on that day. */
  lemma {:induction false} FindDayFirst(week: seq<TimeSeriesPoint>, day: DayOfWeek, k: nat)
    requires k < |week| && week[k].day == day
    requires forall j :: 0 <= j < k ==> week[j].day != day
    ensures FindDay(week, day) == Some(week[k])
  {
    if k > 0 {
      assert week[0].day != day;
      FindDayFirst(week[1..], day, k - 1);
    }
  }

  /** The week holds both a Friday and a Saturday point. */
  predicate HasFridayAndSaturday(week: seq<TimeSeriesPoint>)
  {
    FindDay(week, 5).Some? && FindDay(week, 6).Some?
  }

  /** The sentence template of a week's regression summary. */
  function WeekText(metric: string, daysDescriptor: string, ordinal: string, direction: string,
                    rateText: string, metricUnit: string, startText: string, r2Text: string): string
  {
    "The " + metric + " <b>" + daysDescriptor + "</b> in the <b>" + ordinal + " week</b> <b>"
    + direction + "</b> by <b>" + rateText + "</b> " + metricUnit + " per day from "
    + startText + " <b>(" + r2Text + ")</b>."
  }

  /** The sentence template of a week's Friday-to-Saturday change. */
  function FridaySaturdayText(metric: string, direction: string, amountText: string,
                              metricUnit: string, ordinal: string): string
  {
    "The " + metric + " from Friday to Saturday <b>" + direction + " by " + amountText + "</b> "
    + metricUnit + " in the <b>" + ordinal + " week."
  }

  /** What one emitted summary reports, before it is worded: the fitted trend of
      a week, or a week's change from its Friday point to its Saturday point. */
  datatype Report =
    | WeekTrend(week: nat, model: LinearModel)
    | FridayToSaturday(week: nat, change: real)

  /** The wording of a report; every summary of this kind has validity 1. */
  function Render(config: Config, isWeekdayWeekendEqual: bool, env: Collaborators, report: Report): (s: Summary)
    ensures s.validity == 1.0
  {
    match report
    case WeekTrend(i, model) =>
      Summary(WeekText(config.metric, DaysDescriptor(isWeekdayWeekendEqual), OrdinalText(i),
                       DirectionWord(model.gradient), env.formatY(Abs(model.gradient)), config.metricUnit,
                       env.formatY(model.firstPrediction), "R2 = " + env.numberText(model.r2)),
              1.0)
    case FridayToSaturday(i, change) =>
      Summary(FridaySaturdayText(config.metric, DirectionWord(change), env.formatY(Abs(change)),
                                 config.metricUnit, OrdinalText(i)),
              1.0)
  }

  function RenderAll(config: Config, isWeekdayWeekendEqual: bool, env: Collaborators,
                     reports: seq<Report>): (r: seq<Summary>)
    ensures |r| == |reports|
    ensures forall j :: 0 <= j < |reports| ==> r[j] == Render(config, isWeekdayWeekendEqual, env, reports[j])
  {
    seq(|reports|, j requires 0 <= j < |reports| => Render(config, isWeekdayWeekendEqual, env, reports[j]))
  }

  /** What week `i` contributes: its fitted trend, then its Friday-to-Saturday
      change when weekdays and weekends differ and both days are present. */
  function WeekReports(isWeekdayWeekendEqual: bool, week: seq<TimeSeriesPoint>,
                       model: LinearModel, i: nat): (r: seq<Report>)
    ensures |r| == if !isWeekdayWeekendEqual && HasFridayAndSaturday(week) then 2 else 1
    ensures r[0] == WeekTrend(i, model)
    ensures |r| == 2 ==> r[1] == FridayToSaturday(i, FindDay(week, 6).value.y - FindDay(week, 5).value.y)
  {
    [WeekTrend(i, model)]
    + if !isWeekdayWeekendEqual && HasFridayAndSaturday(week)
      then [FridayToSaturday(i, FindDay(week, 6).value.y - FindDay(week, 5).value.y)]
      else []
  }

  /** The reports of the first `k` weeks, in week order. */
  function Reports(isWeekdayWeekendEqual: bool, props: Properties, k: nat): seq<Report>
    requires k <= |props.weekPointArrays| <= |props.weekLinearModels|
  {
    if k == 0 then []
    else Reports(isWeekdayWeekendEqual, props, k - 1)
         + WeekReports(isWeekdayWeekendEqual, props.weekPointArrays[k - 1], props.weekLinearModels[k - 1], k - 1)
  }

  /** The mapped body of `createSummaries$`: one pass over the weeks, pushing one
      or two summaries per week, wrapped in a single titled group. */
  method CreateSummaries(config: Config, weekdayWeekendEqualValidity: real,
                         props: Properties, env: Collaborators)
    returns (groups: seq<SummaryGroup>)
    requires |props.weekPointArrays| <= |props.weekLinearModels|
    ensures var isWeekdayWeekendEqual := IsWeekdayWeekendEqual(weekdayWeekendEqualValidity);
            groups == [SummaryGroup(Title, RenderAll(config, isWeekdayWeekendEqual, env,
                                                     Reports(isWeekdayWeekendEqual, props, |props.weekPointArrays|)))]
  {
    var numOfWeeks := |props.weekPointArrays|;
    var isWeekdayWeekendEqual := weekdayWeekendEqualValidity > 0.7;
    var summaries: seq<Summary> := [];
    for i := 0 to numOfWeeks
      invariant summaries == RenderAll(config, isWeekdayWeekendEqual, env, Reports(isWeekdayWeekendEqual, props, i))
    {
      var weekSummaries := SummarizeWeek(config, isWeekdayWeekendEqual, props.weekPointArrays[i],
                                         props.weekLinearModels[i], i, env);
      RenderAllConcat(config, isWeekdayWeekendEqual, env, Reports(isWeekdayWeekendEqual, props, i),
                      WeekReports(isWeekdayWeekendEqual, props.weekPointArrays[i], props.weekLinearModels[i], i));
      summaries := summaries + weekSummaries;
    }
    groups := [SummaryGroup(Title, summaries)];
  }

  /** One iteration of the loop of `createSummaries$`: the summaries pushed for week `i`. */
  method SummarizeWeek(config: Config, isWeekdayWeekendEqual: bool, week: seq<TimeSeriesPoint>,
                       model: LinearModel, i: nat, env: Collaborators)
    returns (summaries: seq<Summary>)
    ensures summaries == RenderAll(config, isWeekdayWeekendEqual, env,
                                   WeekReports(isWeekdayWeekendEqual, week, model, i))
  {
    ghost var reports := WeekReports(isWeekdayWeekendEqual, week, model, i);
    var weekRate := model.gradient;
    var weekRateAbsolute := if weekRate < 0.0 then -weekRate else weekRate;
    var weekdayWeekendDescriptor := if isWeekdayWeekendEqual then "from Monday to Sunday" else "from Monday to Friday";
    var dynamicDescriptor := if weekRate >= 0.0 then "increased" else "decreased";
    var r2Text := "R2 = " + env.numberText(model.r2);
    var text := WeekText(config.metric, weekdayWeekendDescriptor, OrdinalText(i), dynamicDescriptor,
                         env.formatY(weekRateAbsolute), config.metricUnit,
                         env.formatY(model.firstPrediction), r2Text);
    assert weekRateAbsolute == Abs(model.gradient) && dynamicDescriptor == DirectionWord(model.gradient);
    assert weekdayWeekendDescriptor == DaysDescriptor(isWeekdayWeekendEqual);
    assert Summary(text, 1.0) == Render(config, isWeekdayWeekendEqual, env, reports[0]);
    summaries := [Summary(text, 1.0)];

    if !isWeekdayWeekendEqual {
      var fridayPoint := FindDay(week, 5);
      var saturdayPoint := FindDay(week, 6);
      if fridayPoint.Some? && saturdayPoint.Some? {
        var yDiff := saturdayPoint.value.y - fridayPoint.value.y;
        var yDiffAbsolute := if yDiff < 0.0 then -yDiff else yDiff;
        var yDiffDynamicDescriptor := if yDiff >= 0.0 then "increased" else "decreased";
        var friSatDiffText := FridaySaturdayText(config.metric, yDiffDynamicDescriptor,
                                                 env.formatY(yDiffAbsolute), config.metricUnit, OrdinalText(i));
        assert yDiffAbsolute == Abs(yDiff) && yDiffDynamicDescriptor == DirectionWord(yDiff);
        assert reports[1] == FridayToSaturday(i, yDiff);
        assert Summary(friSatDiffText, 1.0) == Render(config, isWeekdayWeekendEqual, env, reports[1]);
        summaries := summaries + [Summary(friSatDiffText, 1.0)];
      }
    }
  }

  /** Wording distributes over concatenation of reports. */
  lemma RenderAllConcat(config: Config, isWeekdayWeekendEqual: bool, env: Collaborators,
                        a: seq<Report>, b: seq<Report>)
    ensures RenderAll(config, isWeekdayWeekendEqual, env, a + b)
         == RenderAll(config, isWeekdayWeekendEqual, env, a) + RenderAll(config, isWeekdayWeekendEqual, env, b)
  {
    forall j | 0 <= j < |a| + |b|
      ensures (a + b)[j] == if j < |a| then a[j] else b[j - |a|]
    {
    }
  }

  // ---------------------------------------------------------------------------
  // Properties of the emitted summaries

  /** The number of weeks holding both a Friday and a Saturday point. */
  function CountFridayAndSaturday(weeks: seq<seq<TimeSeriesPoint>>): (n: nat)
    ensures n <= |weeks|
  {
    if weeks == [] then 0
    else CountFridayAndSaturday(weeks[..|weeks| - 1])
         + if HasFridayAndSaturday(weeks[|weeks| - 1]) then 1 else 0
  }

  /** One report per week when weekdays and weekends are equal; otherwise one
      more for every week holding both a Friday and a Saturday point. */
  lemma {:induction false} ReportsCount(isWeekdayWeekendEqual: bool, props: Properties, k: nat)
    requires k <= |props.weekPointArrays| <= |props.weekLinearModels|
    ensures |Reports(isWeekdayWeekendEqual, props, k)|
         == k + if isWeekdayWeekendEqual then 0 else CountFridayAndSaturday(props.weekPointArrays[..k])
  {
    if k > 0 {
      ReportsCount(isWeekdayWeekendEqual, props, k - 1);
      assert props.weekPointArrays[..k][..k - 1] == props.weekPointArrays[..k - 1];
    }
  }

  /** The reports of the first weeks are never changed by later weeks. */
  lemma {:induction false} ReportsPrefix(isWeekdayWeekendEqual: bool, props: Properties, k: nat, m: nat)
    requires k <= m <= |props.weekPointArrays| <= |props.weekLinearModels|
    ensures Reports(isWeekdayWeekendEqual, props, k) <= Reports(isWeekdayWeekendEqual, props, m)
  {
    if k < m {
      ReportsPrefix(isWeekdayWeekendEqual, props, k, m - 1);
    }
  }

  /** Week `i`'s reports stand, in order, right where those of the earlier weeks
      end: its fitted trend first, then its Friday-to-Saturday change if any, and
      the next week's reports right after them. */
  lemma ReportsLayout(isWeekdayWeekendEqual: bool, props: Properties, i: nat)
    requires i < |props.weekPointArrays| <= |props.weekLinearModels|
    ensures var o := |Reports(isWeekdayWeekendEqual, props, i)|;
            var ws := WeekReports(isWeekdayWeekendEqual, props.weekPointArrays[i], props.weekLinearModels[i], i);
            && o + |ws| == |Reports(isWeekdayWeekendEqual, props, i + 1)|
            && o + |ws| <= |Reports(isWeekdayWeekendEqual, props, |props.weekPointArrays|)|
            && Reports(isWeekdayWeekendEqual, props, |props.weekPointArrays|)[o..o + |ws|] == ws
  {
    ReportsPrefix(isWeekdayWeekendEqual, props, i + 1, |props.weekPointArrays|);
    SliceOfPrefix(Reports(isWeekdayWeekendEqual, props, i),
                  WeekReports(isWeekdayWeekendEqual, props.weekPointArrays[i], props.weekLinearModels[i], i),
                  Reports(isWeekdayWeekendEqual, props, |props.weekPointArrays|));
  }

  lemma SliceOfPrefix<T>(before: seq<T>, block: seq<T>, all: seq<T>)
    requires before + block <= all
    ensures |before| + |block| <= |all| && all[|before|..|before| + |block|] == block
  {
    assert all[..|before| + |block|] == before + block;
  }

  /** Every report is about a week that exists, and the reports go week by week:
      a week's fitted trend comes before anything about a later week. */
  lemma {:induction false} ReportsOrdered(isWeekdayWeekendEqual: bool, props: Properties, k: nat)
    requires k <= |props.weekPointArrays| <= |props.weekLinearModels|
    ensures forall j :: 0 <= j < |Reports(isWeekdayWeekendEqual, props, k)| ==>
      Reports(isWeekdayWeekendEqual, props, k)[j].week < k
    ensures forall j, l :: 0 <= j < l < |Reports(isWeekdayWeekendEqual, props, k)| ==>
      Reports(isWeekdayWeekendEqual, props, k)[j].week <= Reports(isWeekdayWeekendEqual, props, k)[l].week
  {
    if k > 0 {
      ReportsOrdered(isWeekdayWeekendEqual, props, k - 1);
    }
  }

  /** From the data source's points to the count of summaries: dropped week groups
      contribute nothing, kept ones one or two each. */
  lemma PipelineCount(config: Config, pointsArray: seq<seq<TimeSeriesPoint>>,
                      weekdayWeekendEqualValidity: real, env: Collaborators)
    ensures var props := CreateDataProperties(pointsArray, weekdayWeekendEqualValidity, env);
            var kept := AnalyzableWeeks(env.groupPointsByXWeek(SelectPoints(pointsArray)));
            var isWeekdayWeekendEqual := IsWeekdayWeekendEqual(weekdayWeekendEqualValidity);
            |RenderAll(config, isWeekdayWeekendEqual, env, Reports(isWeekdayWeekendEqual, props, |props.weekPointArrays|))|
              == |kept| + if isWeekdayWeekendEqual then 0 else CountFridayAndSaturday(kept)
  {
    var props := CreateDataProperties(pointsArray, weekdayWeekendEqualValidity, env);
    ReportsCount(IsWeekdayWeekendEqual(weekdayWeekendEqualValidity), props, |props.weekPointArrays|);
    assert props.weekPointArrays[..|props.weekPointArrays|] == props.weekPointArrays;
  }

  /** The direction word and the magnitude together give back the signed change. */
  lemma DirectionMagnitude(delta: real)
    ensures DirectionWord(delta) == "increased" <==> delta >= 0.0
    ensures (if DirectionWord(delta) == "increased" then Abs(delta) else -Abs(delta)) == delta
  {
    assert "increased"[0] != "decreased"[0];
  }

  /** The five ordinal labels are distinct. */
  lemma OrdinalsDistinct(i: nat, j: nat)
    requires i < j < |OrdinalTexts|
    ensures OrdinalText(i) != OrdinalText(j)
  {
    var k := if i == 0 && j == 4 then 2 else 1;
    assert OrdinalText(i)[k] != OrdinalText(j)[k];
  }
}
