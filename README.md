# Trend summaries of the guide-doge summarization engine, in Dafny

This project models two summary generators of guide-doge's fuzzy-linguistic summarization engine. It proves what each one emits.

- **Trend descriptors** (`queryFactory` in `src/datasets/summarizations/trend.summarization.ts`).
  - The series is cut into partial trends.
  - Five dynamic predicates grade a partial trend's mean cone angle: quickly increasing, increasing, constant, decreasing and quickly decreasing.
  - Each dynamic degree is weighted by the trend's share of time and by the number of trends.
  - Three quantity predicates grade the proportion of time: most, half and few.
  - One sentence is emitted for each (quantity, dynamic) pair, in table order. Its validity comes from the protoform aggregator `sigmaCountQA`.
- **Weekly elaboration** (`TrendWeeklyElaborationSummarizationService`).
  - The caller's configuration is overlaid on the defaults.
  - Days are classified as weekday or weekend with a fuzzy weekend degree.
  - Week groups with fewer than four points are dropped.
  - Each kept week gets a linear model. It is fitted on the whole week, or on the weekday points only when weekdays and weekends are judged unequal (validity `> 0.7` means equal).
  - Each kept week yields one regression summary. When the days are unequal and the week has both a Friday and a Saturday point, a Friday-to-Saturday summary follows it.
  - All summaries go into one group titled `Trend Weekly Elaboration`.

Modules:

- `SummaryTypes` (`types.dfy`) holds the records of the summarization layer. Both generators read `TimeSeriesPoint`s and emit `Summary`s. The (text, membership) pair `VariableOption` is used by the trend descriptors, and the titled `SummaryGroup` by the weekly elaboration.
- `Membership` (`membership.dfy`) holds the three membership shapes the generators build (full trapezoid, left shoulder, right shoulder), with their degree and their reflection about 0.
- `TrendSummarization` (`trend_summarization.dfy`) models `queryFactory`'s thunk. The nested emission loop is the method `QuerySummaries`.
- `WeeklyElaboration` (`weekly_elaboration.dfy`) models `prepareConfig`, the classifiers, the mapped body of `createDataProperties$`, and the loop of `createSummaries$` (the method `CreateSummaries`). The summaries it pushes are specified in two steps:
  - a sequence of `Report`s says what each summary is about;
  - `Render` turns one report into the sentence the source builds.

Code outside this model (the segmenter, the aggregator, week grouping, the least-squares fit, number formatting) is passed in as function-valued parameters. Each proof therefore holds for every possible behaviour of those functions.

## Model

| member | source | states |
|---|---|---|
| Membership.Degree | src/datasets/summarizations/trend.summarization.ts:24-33 | A membership degree is always in [0, 1]. For well-formed breakpoints it is 0 outside the support and 1 on the plateau, for each of the three shapes. |
| Membership.Mirror | src/datasets/summarizations/trend.summarization.ts:24-29 | Reflecting a shape about 0 keeps its breakpoints ordered. A trapezoid stays a trapezoid, and a left shoulder and a right shoulder swap. |
| Membership.MirrorInvolution | src/datasets/summarizations/trend.summarization.ts:24-29 | Reflecting twice gives the original shape back. |
| Membership.MirrorDegree | src/datasets/summarizations/trend.summarization.ts:24-29 | The reflected shape gives `-x` the same degree the original gives `x`. |
| Membership.ShoulderMonotone | src/datasets/summarizations/trend.summarization.ts:24-29 | A left shoulder (the increasing dynamics) never decreases. A right shoulder (the decreasing dynamics) never increases. |
| TrendSummarization.Weigh | src/datasets/summarizations/trend.summarization.ts:19-22 | The weighted dynamic degree is 0 when the membership of the mean angle is 0 or the span is 0. For a nonnegative span it lies between 0 and span × number of trends. |
| TrendSummarization.AverageAngle | src/datasets/summarizations/trend.summarization.ts:20 | The mean angle of a partial trend is the midpoint of its cone's end and start angles (body). |
| TrendSummarization.QuantityOptions | src/datasets/summarizations/trend.summarization.ts:31-39 | The quantity table `uPercentages`, in source order: most `trapmfL(0.6, 0.7)`, half `trapmf(0.3, 0.4, 0.6, 0.7)`, few `trapmf(0.1, 0.2, 0.3, 0.4)` (body). Its breakpoints are ordered by `QuantitiesWellFormed`. |
| TrendSummarization.DynamicShapes | src/datasets/summarizations/trend.summarization.ts:24-47 | The five dynamic names of `uDynamics`, in source order, each with the shape built for it from the diagonal angle (body). Their symmetry is proved by `DynamicsMirrored`. |
| TrendSummarization.DynamicOptions | src/datasets/summarizations/trend.summarization.ts:41-47 | The dynamic table has five entries. Entry `d` keeps the name and shape of the `d`-th dynamic, weighted over the given number of partial trends. |
| TrendSummarization.Sentence | src/datasets/summarizations/trend.summarization.ts:54 | The summary template: the fixed prefix, the quantifier, the fixed middle, the dynamic and the fixed suffix (body). `SentenceFields` reads each piece back. |
| TrendSummarization.Entry | src/datasets/summarizations/trend.summarization.ts:50-56 | Summary `k` of the cross product: the sentence for quantity `k / 5` and dynamic `k % 5`, with that pair's `sigmaCountQA` validity (body). `QuerySummaries` proves the loop emits exactly these. |
| TrendSummarization.QuerySummaries | src/datasets/summarizations/trend.summarization.ts:49-58 | Exactly 3 × 5 = 15 summaries are emitted. Summary `k` is the entry for quantity `k / 5` and dynamic `k % 5` (quantities in the outer loop): its text names both, and its validity is `sigmaCountQA` of that pair over the partial trends cut at noise threshold 0.01. |
| TrendSummarization.SentenceFields | src/datasets/summarizations/trend.summarization.ts:54 | A sentence is exactly `trends that took <b>`, the quantifier, `</b> of the time are <b>`, the dynamic, and `</b>.`. Each piece can be read back at its offset. |
| TrendSummarization.SentenceQuantifierAt | src/datasets/summarizations/trend.summarization.ts:54 | Character `k` of the quantifier stands right after the fixed prefix. |
| TrendSummarization.SentenceDynamicAt | src/datasets/summarizations/trend.summarization.ts:54 | Character `k` of the dynamic stands right after the quantifier and the fixed middle text. |
| TrendSummarization.SentencesDistinct | src/datasets/summarizations/trend.summarization.ts:35-54 | Two different (quantity, dynamic) pairs never produce the same sentence, so each of the 15 summaries is about its own pair. |
| TrendSummarization.QuantitiesWellFormed | src/datasets/summarizations/trend.summarization.ts:31-33 | The breakpoints of most, half and few are nondecreasing. |
| TrendSummarization.DynamicsWellFormed | src/datasets/summarizations/trend.summarization.ts:24-29 | For a nonnegative diagonal angle, the breakpoints of all five dynamics are nondecreasing. |
| TrendSummarization.DynamicsMirrored | src/datasets/summarizations/trend.summarization.ts:24-29 | Decreasing is the reflection of increasing, and quickly decreasing the reflection of quickly increasing. Constant is its own reflection. |
| TrendSummarization.Reflect | src/datasets/summarizations/trend.summarization.ts:19-20 | Negating both cone angles negates the mean angle and keeps the span. |
| TrendSummarization.WeighMirror | src/datasets/summarizations/trend.summarization.ts:19-22 | Reflecting the membership and the trend together leaves the weighted degree unchanged. |
| TrendSummarization.WeighReflected | src/datasets/summarizations/trend.summarization.ts:24-29 | Each dynamic scores a reflected trend exactly as its mirror dynamic (table position `4 - d`) scores the original trend. |
| WeeklyElaboration.PrepareConfig | src/services/summarization/trend-weekly-elaboration.summarization.service.ts:29-49 | Every field the caller supplies wins. `metric` falls back to `active users` and `metricUnit` to `users` only when absent. `datumLabels` passes through. |
| WeeklyElaboration.PrepareConfigSupplied | src/services/summarization/trend-weekly-elaboration.summarization.service.ts:47-49 | A fully supplied configuration comes back unchanged, so preparing twice is the same as preparing once. |
| WeeklyElaboration.UWeekend | src/services/summarization/trend-weekly-elaboration.summarization.service.ts:64-75 | The weekend degree of any day lies in [0, 1]. |
| WeeklyElaboration.UWeekday | src/services/summarization/trend-weekly-elaboration.summarization.service.ts:76 | The weekday degree is one minus the weekend degree (body). `DayClassification` proves the sum is 1. |
| WeeklyElaboration.IsWeekend | src/services/summarization/trend-weekly-elaboration.summarization.service.ts:77 | A point is on the weekend when its weekend degree exceeds 0.5 (body). `DayClassification` gives the days. |
| WeeklyElaboration.IsWeekday | src/services/summarization/trend-weekly-elaboration.summarization.service.ts:78 | A point is on a weekday when its weekday degree exceeds 0.5 (body). `DayClassification` gives the days. |
| WeeklyElaboration.DayClassification | src/services/summarization/trend-weekly-elaboration.summarization.service.ts:64-78 | `isWeekend` holds exactly on Saturday and Sunday, and `isWeekday` exactly on Monday to Friday (Friday's weekday degree is 0.8). Every day is exactly one of the two, and the two degrees sum to 1. |
| WeeklyElaboration.IsWeekdayWeekendEqual | src/services/summarization/trend-weekly-elaboration.summarization.service.ts:62 | Weekdays and weekends count as equal exactly when the validity is strictly above 0.7 (body). The same decision is used at line 120. |
| WeeklyElaboration.AnalyzableWeeks | src/services/summarization/trend-weekly-elaboration.summarization.service.ts:80-82 | The filter never lengthens the list of week groups. |
| WeeklyElaboration.AnalyzableWeeksMembers | src/services/summarization/trend-weekly-elaboration.summarization.service.ts:80-82 | A group is kept if and only if it has at least 4 points. |
| WeeklyElaboration.AnalyzableWeeksConcat | src/services/summarization/trend-weekly-elaboration.summarization.service.ts:82 | Filtering distributes over concatenation: kept groups keep their relative order, and each group is kept or dropped on its own. |
| WeeklyElaboration.AnalyzableWeeksIdempotent | src/services/summarization/trend-weekly-elaboration.summarization.service.ts:82 | Filtering the kept groups again drops nothing. |
| WeeklyElaboration.WeekdayPoints | src/services/summarization/trend-weekly-elaboration.summarization.service.ts:89 | Exactly the week's `isWeekday` points are kept. Every kept point occurs in the week at least as often as in the result, so none is added. |
| WeeklyElaboration.WeekdayPointsConcat | src/services/summarization/trend-weekly-elaboration.summarization.service.ts:89 | Selection distributes over concatenation: each point is kept or dropped on its own, in its place. Order and multiplicity are therefore those of the week. |
| WeeklyElaboration.ModelInput | src/services/summarization/trend-weekly-elaboration.summarization.service.ts:85-91 | The fit's input is the whole week when the days are equal, otherwise its weekday points (body). `ModelInputDays` gives the days. |
| WeeklyElaboration.ModelInputDays | src/services/summarization/trend-weekly-elaboration.summarization.service.ts:85-91 | When the days are equal, the fit sees the whole week. Otherwise it sees exactly the Monday-to-Friday points, so no Saturday or Sunday point enters it. |
| WeeklyElaboration.NumPoints | src/services/summarization/trend-weekly-elaboration.summarization.service.ts:87-89 | Conversion maps each point to its numeric point, one for one and in order. |
| WeeklyElaboration.SelectPoints | src/services/summarization/trend-weekly-elaboration.summarization.service.ts:60 | The series of the one requested label: the first points array, or no points when the source returns none (body). |
| WeeklyElaboration.CreateDataProperties | src/services/summarization/trend-weekly-elaboration.summarization.service.ts:58-97 | The weeks are the analyzable groups of the selected series (the first label's points, or none). There is one model per week, and model `i` is fitted on week `i`'s model input under the same `> 0.7` decision. |
| WeeklyElaboration.OrdinalText | src/services/summarization/trend-weekly-elaboration.summarization.service.ts:122 | `ordinalTexts[i]` for the first five weeks. Past them the template prints `undefined`, as JavaScript does for a missing entry (body). |
| WeeklyElaboration.Abs | src/services/summarization/trend-weekly-elaboration.summarization.service.ts:129 | The magnitude is nonnegative and equal to the value or its negation. |
| WeeklyElaboration.DirectionWord | src/services/summarization/trend-weekly-elaboration.summarization.service.ts:132 | `increased` for a change of at least 0, otherwise `decreased`; the same rule is written again at line 149 (body). `DirectionMagnitude` proves the iff. |
| WeeklyElaboration.DaysDescriptor | src/services/summarization/trend-weekly-elaboration.summarization.service.ts:130 | `from Monday to Sunday` when the days are equal, otherwise `from Monday to Friday` (body). |
| WeeklyElaboration.FindDay | src/services/summarization/trend-weekly-elaboration.summarization.service.ts:143-144 | A point that is found belongs to the week and lies on the requested day. |
| WeeklyElaboration.FindDayNone | src/services/summarization/trend-weekly-elaboration.summarization.service.ts:143-146 | Nothing is found if and only if no point of the week lies on that day. |
| WeeklyElaboration.FindDayFirst | src/services/summarization/trend-weekly-elaboration.summarization.service.ts:143-144 | The point found is the earliest one on that day. |
| WeeklyElaboration.HasFridayAndSaturday | src/services/summarization/trend-weekly-elaboration.summarization.service.ts:143-146 | The week holds both a Friday point and a Saturday point (body). By `FindDayNone`, this is exactly when both `find`s succeed. |
| WeeklyElaboration.WeekText | src/services/summarization/trend-weekly-elaboration.summarization.service.ts:135 | The regression sentence template, piece for piece (body). |
| WeeklyElaboration.FridaySaturdayText | src/services/summarization/trend-weekly-elaboration.summarization.service.ts:151 | The Friday-to-Saturday sentence template, piece for piece, including its unclosed `<b>` (body). |
| WeeklyElaboration.Render | src/services/summarization/trend-weekly-elaboration.summarization.service.ts:134-155 | Every emitted summary, regression or Friday-to-Saturday, has validity 1.0. |
| WeeklyElaboration.RenderAll | src/services/summarization/trend-weekly-elaboration.summarization.service.ts:137-155 | One summary is emitted per report, in report order. |
| WeeklyElaboration.WeekReports | src/services/summarization/trend-weekly-elaboration.summarization.service.ts:126-157 | Week `i` contributes its regression summary first. It adds a second summary exactly when the days are unequal and the week has both a Friday and a Saturday point, and that summary reports Saturday's value minus Friday's. |
| WeeklyElaboration.Reports | src/services/summarization/trend-weekly-elaboration.summarization.service.ts:125-158 | The reports of the first `k` weeks: the earlier weeks' reports followed by week `k - 1`'s (body). `ReportsCount`, `ReportsPrefix`, `ReportsLayout` and `ReportsOrdered` state its properties. |
| WeeklyElaboration.SummarizeWeek | src/services/summarization/trend-weekly-elaboration.summarization.service.ts:126-157 | One loop iteration pushes exactly the wording of week `i`'s reports. |
| WeeklyElaboration.CreateSummaries | src/services/summarization/trend-weekly-elaboration.summarization.service.ts:119-162 | The result is a single group titled `Trend Weekly Elaboration`, holding the wording of the reports of all weeks, week after week. |
| WeeklyElaboration.RenderAllConcat | src/services/summarization/trend-weekly-elaboration.summarization.service.ts:137-155 | Wording distributes over concatenation of reports, so pushing week by week equals wording all reports at once. |
| WeeklyElaboration.CountFridayAndSaturday | src/services/summarization/trend-weekly-elaboration.summarization.service.ts:142-146 | At most one Friday-to-Saturday change is counted per week. |
| WeeklyElaboration.ReportsCount | src/services/summarization/trend-weekly-elaboration.summarization.service.ts:125-158 | The first `k` weeks yield `k` summaries when the days are equal. Otherwise they yield `k` plus the number of those weeks holding both a Friday and a Saturday point. |
| WeeklyElaboration.ReportsPrefix | src/services/summarization/trend-weekly-elaboration.summarization.service.ts:125-158 | Later weeks only append: the summaries of the first `k` weeks are a prefix of those of the first `m ≥ k` weeks. |
| WeeklyElaboration.ReportsLayout | src/services/summarization/trend-weekly-elaboration.summarization.service.ts:137-156 | Week `i`'s summaries stand exactly where the earlier weeks' summaries end: its regression summary first, then its Friday-to-Saturday summary, if any. |
| WeeklyElaboration.ReportsOrdered | src/services/summarization/trend-weekly-elaboration.summarization.service.ts:125-158 | Every summary is about an existing week, and week indices never go down along the output. |
| WeeklyElaboration.PipelineCount | src/services/summarization/trend-weekly-elaboration.summarization.service.ts:80-162 | From the data source to the output, the number of summaries is the number of kept weeks, plus, when the days are unequal, the number of kept weeks holding both a Friday and a Saturday point. Dropped groups contribute nothing. |
| WeeklyElaboration.DirectionMagnitude | src/services/summarization/trend-weekly-elaboration.summarization.service.ts:129-132 | The word is `increased` if and only if the change is ≥ 0, so zero counts as an increase. The word and the magnitude together give back the signed change. |
| WeeklyElaboration.OrdinalsDistinct | src/services/summarization/trend-weekly-elaboration.summarization.service.ts:122 | The five ordinal labels are distinct. |

## Left out

- The memoisation of `cacheSummaries` is not modelled because its code is not part of this model. `QuerySummaries` is the body of the thunk handed to it.
- The segmenter `createPartialTrends`, the aggregator `sigmaCountQA` and the constant `chartDiagonalAngle` are not part of this model. They are parameters of `QuerySummaries`.
- `Membership.Degree`: the bodies of `trapmf`, `trapmfL` and `trapmfR` are not part of this model. `Degree` follows their documented shape (0, linear rise, plateau, linear fall, 0). Its behaviour where breakpoints coincide (a step) is a convention of the model.
- Week grouping (`groupPointsByXWeek`), point conversion (`timeSeriesPointToNumPoint`), the least-squares fit (`createLinearModel`), `formatY`, and JavaScript's number-to-text conversion inside the `R2 = …` template are not part of this model. They are the fields of `Collaborators`.
- `LinearModel` keeps only the gradient, the R² and the first prediction. The source reads `prediction[0].y`, and it would fail on a model without predictions; that case is not modelled.
- `Date.getDay()` is replaced by a day-of-week field in 0..6 (0 is Sunday). Dates and time zones are not modelled.
- Floating point is not modelled. Angles, spans, gradients and differences are `real`, and `Math.abs` is exact.
- The RxJS `zip`/`pipe`/`map` wiring, the `Observable`s and Angular's dependency injection are not modelled. The mapped bodies are plain functions and methods. `CreateSummaries` receives the weekday/weekend validity and the data properties as arguments.
- `WeeklyElaboration.CreateSummaries`: it requires at least as many models as weeks. The source indexes `weekLinearModels[i]` for every week and would fail otherwise. `CreateDataProperties` always supplies exactly one model per week.
- `WeeklyElaboration.PrepareConfig`: a field supplied with the value `undefined` overrides the default in the source's object spread. This model treats such a field as absent. Configuration fields other than `datumLabels`, `metric` and `metricUnit` are not modelled.
- `WeeklyElaboration.OrdinalText`: past the fifth week, the source's template prints `undefined`. The model keeps that text as written.
- The weekday/weekend validity itself comes from another service, which is not part of this model.
- The regression sentence and the Friday-to-Saturday sentence are modelled as the source words them. The second template opens `<b>` before the ordinal and never closes it.
