# Fairness-aware impact scoring, modelled in Dafny

This project models the scoring and fairness engine of a small resettlement
impact tool. Three parts make up the engine:

- **Households.** Each has an id, an ordered feature vector and a ground-truth
  impact that no computation reads.
- **`PredictiveAnalysisTool`.** It scores a feature vector as the dot product
  of its weight vector (default `[0.4, 0.3, 0.3]`) and the features. Only the
  first `min(len(weights), len(features))` positions are used.
- **`FairnessAnalysisTool`.** It groups households by the value of one
  sensitive feature. Then, for each group, it reports the number of members
  and their mean prediction.

Files:

- `households.dfy` (module `Households`): the `Household` record and `Option`.
- `predictive.dfy` (module `Predictive`): the specification `Score`, defined
  as `PartialDot` over `EffectiveLength` positions, and its laws. It also
  holds the class `PredictiveAnalysisTool`, whose `Predict` is the
  accumulating loop and whose `PredictAll` is the per-household map.
- `grouping.dfy` (module `Grouping`): the grouping dictionary as `Groups`.
  `Groups` pairs a key list in insertion order with a `map`, because Python
  dicts iterate in insertion order. `Grouped` defines that dictionary after
  the households have been processed in order. Two independent reference
  definitions are used to characterise it:
  - `Select`: the households carrying a given key, in input order.
  - `FirstIndex`: the position where a key first occurs.
- `fairness.dfy` (module `Fairness`): the out-of-range error, the per-group
  `Statistics`, the report `FairnessReport`, and the class
  `FairnessAnalysisTool`. Its two methods are the loops that fill the
  dictionaries.
- `sample.dfy` (module `Sample`): the report page's sample population, worked
  out exactly.

Values are `real`, so the arithmetic laws hold exactly. They hold over the
reals, not over Python floats.

A sensitive index beyond a household's feature vector makes Python raise
`IndexError`. The model returns `Failure(IndexOutOfRange(id, index, length))`
for the first such household in input order, and produces no grouping.

With the default weights, the sample data give these predictions:

| household | prediction |
|---|---|
| 1 | 0.33 |
| 2 | 0.7 |
| 3 | 0.39 |
| 4 | 0.58 |

Household 2 scores `0.4*1 + 0.3*0.5 + 0.3*0.5 = 0.7` and household 4 scores
`0.4*1 + 0.3*0.4 + 0.3*0.2 = 0.58`. So group 0.0 has mean 0.36 and group 1.0
has mean 0.64, each with count 2.

## Model

| member | source | states |
|---|---|---|
| Predictive.EffectiveLength | app.py:22 | the number of positions used is at most each vector's length and equals one of them, i.e. their minimum |
| Predictive.PredictiveAnalysisTool.constructor | app.py:17-18 | with no weights the tool uses `[0.4, 0.3, 0.3]`; otherwise it uses the given list unchanged |
| Predictive.PredictiveAnalysisTool.Predict | app.py:20-24 | the loop returns the sum of `weights[i] * features[i]` over `i < min(len(weights), len(features))`; an empty feature list gives 0.0 |
| Predictive.PredictiveAnalysisTool.PredictAll | app.py:26-30 | one record per household, in input order: record k carries household k's id and its prediction, so duplicate ids are kept and empty input gives empty output |
| Predictive.PartialDotPrefix | app.py:22-23 | a partial sum depends only on the first n weights and features |
| Predictive.TruncationLaw | app.py:20-24 | scoring equals scoring both vectors cut to their common length |
| Predictive.ExtraFeaturesIgnored | app.py:22-23 | features past the last weight never change the prediction |
| Predictive.ExtraWeightsIgnored | app.py:22-23 | weights past the last feature never change the prediction |
| Grouping.Select | app.py:40-42 | the selection for a key holds only households of the input with that key, and every such household |
| Grouping.FirstIndex | app.py:42 | the result is the first position whose sensitive value is the key, or the input length when the key is absent |
| Grouping.ShapedSnoc | app.py:41-42 | one `setdefault(key, []).append(hh)` step on one more household keeps the grouping invariant (keys listed, present, selected, in first-seen order) |
| Grouping.GroupedShape | app.py:39-43 | after all households: the key list and key set agree, a key is present iff some household carries it, each group is that key's selection in input order, and keys are ordered by first occurrence |
| Grouping.HouseholdInItsGroup | app.py:40-42 | every household sits in the group keyed by its own sensitive value |
| Grouping.GroupsDisjoint | app.py:40-42 | a group holds only input households carrying its key, so no household is in two groups |
| Grouping.GroupsNonEmpty | app.py:42 | no group is empty |
| Grouping.KeysAreDistinctValues | app.py:39-43 | the key list has no duplicates, and its keys are exactly the distinct sensitive values of the input |
| Grouping.GroupsCoverPopulation | app.py:39-43 | the groups, concatenated in key order, are a permutation of the input (equal as multisets) |
| Grouping.CoversSnoc | app.py:42 | appending one household to its group keeps the concatenated groups equal, as a multiset, to the population processed so far |
| Grouping.GroupOfKey | app.py:39-43 | the group of a present key is exactly that key's selection, and it is non-empty |
| Fairness.FirstMissingUnique | app.py:41 | the out-of-range failure names one well-defined household, the first one lacking the feature |
| Fairness.StatisticsMeaning | app.py:49-51 | `count` is the group size; mean times count is the sum of the members' predictions; an empty group has mean 0.0 |
| Fairness.MeanWithinBounds | app.py:49-50 | a group's mean lies between any lower and upper bound of its members' predictions |
| Fairness.ReportKeys | app.py:46-52 | the report has one entry per distinct sensitive value, listed once each, in first-seen order |
| Fairness.ReportEntries | app.py:46-52 | each report entry holds the statistics of exactly the households carrying its key, in input order, and that group is non-empty |
| Fairness.CountsSumToPopulation | app.py:46-51 | the counts of the report add up to the number of households |
| Fairness.StatsComplete | app.py:47-52 | a dictionary holding each listed group's statistics, and nothing else, is the report's dictionary |
| Fairness.FairnessAnalysisTool.constructor | app.py:35-36 | the sensitive index is stored and fixed for the tool's lifetime |
| Fairness.FairnessAnalysisTool.GroupBySensitiveAttribute | app.py:38-43 | succeeds iff every household has the sensitive feature, and then returns the grouping dictionary; otherwise reports the first household lacking it |
| Fairness.FairnessAnalysisTool.AnalyzeFairness | app.py:45-52 | fails exactly when grouping fails, with the same error; otherwise returns the report: grouping keys in order, each mapped to its group's statistics |
| Sample.SamplePredictions | app.py:56-67 | under the default weights the sample predictions are 0.33, 0.7, 0.39 and 0.58, in order |
| Sample.SampleGrouping | app.py:56-61 | grouping the sample on feature 0 gives key 0.0 with households 1 and 3, then key 1.0 with households 2 and 4 |
| Sample.SampleStatistics | app.py:49-51 | the two sample groups have mean 0.36 and mean 0.64, with count 2 each |
| Sample.SampleReport | app.py:69-70 | the sample's fairness report is {0.0: (0.36, 2), 1.0: (0.64, 2)} in that key order |
| Sample.SampleOutOfRange | app.py:41 | grouping the sample on feature 5 fails at household 1, whose feature vector has length 3 |

## Left out

- The Flask application, the `/` route, the HTML template and `app.run` (app.py:1, 4, 64-102) are left out. They are web plumbing with no logic. `Sample.SampleRun` replays the route's two engine calls.
- The `'%.2f'` display formatting (app.py:80, 90) is left out. It is presentation only.
- IEEE floating-point rounding in `score +=`, `sum` and `/` (app.py:23, 50) is not modelled. Values are exact reals, so `0.4*1 + 0.3*0.5 + 0.3*0.5` is exactly 0.7 here.
- Keys that compare equal (`0`, `0.0` and `-0.0`) share one group, as in a Python dict. What is lost is the type and sign of the key object the dict keeps from the first insertion: the sample's report keys are the ints `0` and `1` in Python and the reals `0.0` and `1.0` here.
- NaN keys are not modelled. A Python dict keys a NaN by object identity; reals have no NaN.
- Negative `sensitive_feature_index` values are not modelled. Python would wrap them around to the end of the list; the index is a `nat` here.
- `ground_truth_impact` (app.py:12) is kept as an inert field. Nothing in the engine reads it.
- Python's `IndexError` message carries no context. The model's error records the household id, the index and the vector length.
- The hard-coded sample households (app.py:56-61) are used only by the `Sample` module, not by the engine.
- Predictive.PredictiveAnalysisTool.constructor: it stores the weight list by value. Python keeps a reference, so a caller who later mutates that list would change the predictions. The engine never does this.
- Predictive.PredictiveAnalysisTool.PredictAll: each household is scored with the specification function `Score`, not by calling the `Predict` method as app.py:28 does. By `Predict`'s contract the two agree.
- Fairness.FairnessAnalysisTool.AnalyzeFairness: the per-group predictions (the comprehension at app.py:49) are computed with the specification function `Score`, not by calling the `Predict` method. By `Predict`'s contract the two agree.
