/**
 * The fairness aggregator: groups a population by its sensitive feature and
 * reports, per group, the number of members and their mean prediction.
 */
module Fairness {
  import opened Households
  import opened Predictive
  import opened Grouping

  /** Reading the sensitive feature of a household whose feature vector is too short. */
  datatype IndexError = IndexOutOfRange(id: int, index: nat, length: nat)

  datatype Result<T> = Success(value: T) | Failure(error: IndexError)

  /** `error` reports the first household, in input order, that has no feature at `index`. */
  ghost predicate FirstMissing(households: seq<Household>, index: nat, error: IndexError)
  {
    exists k :: 0 <= k < |households| && AllHaveIndex(households[..k], index) && |households[k].features| <= index
      && error == IndexOutOfRange(households[k].id, index, |households[k].features|)
  }

  /** Only one error satisfies `FirstMissing`: the failure names a single, well-defined household. */
  lemma FirstMissingUnique(households: seq<Household>, index: nat, e1: IndexError, e2: IndexError)
    requires FirstMissing(households, index, e1) && FirstMissing(households, index, e2)
    ensures e1 == e2
  {
  }

  /** Per-group statistics: the mean prediction of the members and their number. */
  datatype GroupStats = GroupStats(avgPredImpact: real, count: nat)

  /** The fairness report: the statistics dictionary, with its keys in insertion order. */
  datatype Report = Report(keys: seq<real>, stats: map<real, GroupStats>)

  /** The prediction of every member of a group, in order. */
  function Predictions(weights: seq<real>, group: seq<Household>): seq<real>
  {
    seq(|group|, k requires 0 <= k < |group| => Score(weights, group[k].features))
  }

  function Sum(values: seq<real>): real
  {
    if |values| == 0 then 0.0 else Sum(values[..|values| - 1]) + values[|values| - 1]
  }

  /** The statistics of one group; an empty group has mean 0.0. */
  function Statistics(weights: seq<real>, group: seq<Household>): GroupStats
  {
    var preds := Predictions(weights, group);
    GroupStats(if |preds| > 0 then Sum(preds) / |preds| as real else 0.0, |preds|)
  }

  /**
   * `count` is the size of the group; the mean times the count is the sum of
   * the members' predictions, and an empty group has mean 0.0.
   */
  lemma StatisticsMeaning(weights: seq<real>, group: seq<Household>)
    ensures Statistics(weights, group).count == |group|
    ensures group == [] ==> Statistics(weights, group).avgPredImpact == 0.0
    ensures group != [] ==>
      Statistics(weights, group).avgPredImpact * (|group| as real) == Sum(Predictions(weights, group))
  {
  }

  lemma {:induction false} SumBounds(values: seq<real>, lo: real, hi: real)
    requires forall i :: 0 <= i < |values| ==> lo <= values[i] <= hi
    ensures (|values| as real) * lo <= Sum(values) <= (|values| as real) * hi
  {
    if |values| > 0 {
      SumBounds(values[..|values| - 1], lo, hi);
    }
  }

  /** A group's mean prediction lies between the smallest and the largest prediction of its members. */
  lemma MeanWithinBounds(weights: seq<real>, group: seq<Household>, lo: real, hi: real)
    requires group != []
    requires forall k :: 0 <= k < |group| ==> lo <= Score(weights, group[k].features) <= hi
    ensures lo <= Statistics(weights, group).avgPredImpact <= hi
  {
    var preds := Predictions(weights, group);
    SumBounds(preds, lo, hi);
    var n := |group| as real;
    var avg := Statistics(weights, group).avgPredImpact;
    StatisticsMeaning(weights, group);
    PositiveFactor(avg - lo, n);
    PositiveFactor(hi - avg, n);
  }

  lemma PositiveFactor(x: real, n: real)
    requires n > 0.0 && x * n >= 0.0
    ensures x >= 0.0
  {
  }

  /** The report built from the grouping of the whole population. */
  function FairnessReport(weights: seq<real>, households: seq<Household>, index: nat): Report
    requires AllHaveIndex(households, index)
  {
    var g := Grouped(households, index);
    Report(g.keys, map key | key in g.members :: Statistics(weights, g.members[key]))
  }

  /**
   * The report has one entry per distinct sensitive value, listed once each
   * in the order in which the values first occur.
   */
  lemma ReportKeys(weights: seq<real>, households: seq<Household>, index: nat)
    requires AllHaveIndex(households, index)
    ensures var r := FairnessReport(weights, households, index);
            && Distinct(r.keys)
            && (forall key :: key in r.stats <==> key in r.keys)
            && (forall key :: key in r.stats <==> exists j :: 0 <= j < |households| && households[j].features[index] == key)
            && (forall i, j :: 0 <= i < j < |r.keys| ==>
                  FirstIndex(households, index, r.keys[i]) < FirstIndex(households, index, r.keys[j]))
  {
    GroupedShape(households, index);
    KeysAreDistinctValues(households, index);
  }

  /**
   * Each entry of the report holds the statistics of exactly the households
   * carrying its key, taken in input order, and that selection is never empty.
   */
  lemma ReportEntries(weights: seq<real>, households: seq<Household>, index: nat)
    requires AllHaveIndex(households, index)
    ensures var r := FairnessReport(weights, households, index);
            forall key :: key in r.stats ==>
              |Select(households, index, key)| > 0 &&
              r.stats[key] == Statistics(weights, Select(households, index, key))
  {
    var g := Grouped(households, index);
    var r := FairnessReport(weights, households, index);
    forall key | key in r.stats
      ensures |Select(households, index, key)| > 0
      ensures r.stats[key] == Statistics(weights, Select(households, index, key))
    {
      GroupOfKey(households, index, key);
    }
  }

  /** Sum of the `count` fields of the listed keys. */
  function TotalCount(keys: seq<real>, stats: map<real, GroupStats>): nat
    requires forall i :: 0 <= i < |keys| ==> keys[i] in stats
  {
    if |keys| == 0 then 0 else TotalCount(keys[..|keys| - 1], stats) + stats[keys[|keys| - 1]].count
  }

  lemma {:induction false} TotalCountConcat(keys: seq<real>, members: map<real, seq<Household>>, stats: map<real, GroupStats>)
    requires forall i :: 0 <= i < |keys| ==> keys[i] in members && keys[i] in stats
    requires forall i :: 0 <= i < |keys| ==> stats[keys[i]].count == |members[keys[i]]|
    ensures TotalCount(keys, stats) == |Concat(keys, members)|
  {
    if |keys| > 0 {
      TotalCountConcat(keys[..|keys| - 1], members, stats);
    }
  }

  /** The group counts add up to the size of the population. */
  lemma CountsSumToPopulation(weights: seq<real>, households: seq<Household>, index: nat)
    requires AllHaveIndex(households, index)
    ensures var r := FairnessReport(weights, households, index);
            && (forall i :: 0 <= i < |r.keys| ==> r.keys[i] in r.stats)
            && TotalCount(r.keys, r.stats) == |households|
  {
    var g := Grouped(households, index);
    var r := FairnessReport(weights, households, index);
    GroupsCoverPopulation(households, index);
    GroupedKeysListed(households, index);
    forall i | 0 <= i < |g.keys|
      ensures g.keys[i] in g.members && g.keys[i] in r.stats
      ensures r.stats[g.keys[i]].count == |g.members[g.keys[i]]|
    {
      assert g.keys[i] in g.keys;
      assert r.stats[g.keys[i]] == Statistics(weights, g.members[g.keys[i]]);
    }
    TotalCountConcat(g.keys, g.members, r.stats);
    assert |multiset(Concat(g.keys, g.members))| == |multiset(households)|;
  }

  /** A statistics dictionary holding the statistics of every listed group, and nothing else, is the report's. */
  lemma StatsComplete(weights: seq<real>, groups: Groups, stats: map<real, GroupStats>)
    requires KeysListed(groups)
    requires forall key :: key in stats <==> key in groups.keys
    requires forall key :: key in stats ==> key in groups.members && stats[key] == Statistics(weights, groups.members[key])
    ensures stats == map key | key in groups.members :: Statistics(weights, groups.members[key])
  {
    var expected := map key | key in groups.members :: Statistics(weights, groups.members[key]);
    forall key
      ensures key in stats <==> key in expected
    {
      assert key in groups.members <==> key in groups.keys;
    }
    forall key | key in stats
      ensures stats[key] == expected[key]
    {
    }
  }

  /** The aggregator: a sensitive feature index, fixed at construction. */
  class FairnessAnalysisTool {
    const sensitiveFeatureIndex: nat

    constructor (sensitiveFeatureIndex: nat)
      ensures this.sensitiveFeatureIndex == sensitiveFeatureIndex
    {
      this.sensitiveFeatureIndex := sensitiveFeatureIndex;
    }

    /**
     * Builds the grouping dictionary household by household, or fails at the
     * first household without a sensitive feature.
     */
    method GroupBySensitiveAttribute(households: seq<Household>) returns (r: Result<Groups>)
      ensures r.Success? <==> AllHaveIndex(households, sensitiveFeatureIndex)
      ensures r.Success? ==> r.value == Grouped(households, sensitiveFeatureIndex)
      ensures r.Failure? ==> FirstMissing(households, sensitiveFeatureIndex, r.error)
    {
      var keys: seq<real> := [];
      var groups: map<real, seq<Household>> := map[];
      for i := 0 to |households|
        invariant AllHaveIndex(households[..i], sensitiveFeatureIndex)
        invariant Groups(keys, groups) == Grouped(households[..i], sensitiveFeatureIndex)
      {
        var hh := households[i];
        if |hh.features| <= sensitiveFeatureIndex {
          assert FirstMissing(households, sensitiveFeatureIndex, IndexOutOfRange(hh.id, sensitiveFeatureIndex, |hh.features|)) by {
            assert AllHaveIndex(households[..i], sensitiveFeatureIndex);
          }
          return Failure(IndexOutOfRange(hh.id, sensitiveFeatureIndex, |hh.features|));
        }
        var key := hh.features[sensitiveFeatureIndex];
        ghost var before := Groups(keys, groups);
        if key !in groups {
          keys := keys + [key];
          groups := groups[key := []];
        }
        groups := groups[key := groups[key] + [hh]];
        assert Groups(keys, groups) == AddMember(before, key, hh) by {
          if key in before.members {
            assert keys == before.keys;
          } else {
            assert keys == before.keys + [key];
            assert groups[key] == [hh];
            assert groups == before.members[key := [hh]];
          }
        }
        assert households[..i + 1][..i] == households[..i];
      }
      assert households[..|households|] == households;
      return Success(Groups(keys, groups));
    }

    /** Groups the population, then records each group's mean prediction and size. */
    method AnalyzeFairness(households: seq<Household>, predictiveTool: PredictiveAnalysisTool) returns (r: Result<Report>)
      ensures r.Success? <==> AllHaveIndex(households, sensitiveFeatureIndex)
      ensures r.Success? ==> r.value == FairnessReport(predictiveTool.modelWeights, households, sensitiveFeatureIndex)
      ensures r.Failure? ==> FirstMissing(households, sensitiveFeatureIndex, r.error)
    {
      var grouped := GroupBySensitiveAttribute(households);
      if grouped.Failure? {
        return Failure(grouped.error);
      }
      var groups := grouped.value;
      GroupedKeysListed(households, sensitiveFeatureIndex);
      var stats: map<real, GroupStats> := map[];
      for i := 0 to |groups.keys|
        invariant forall key :: key in stats <==> key in groups.keys[..i]
        invariant forall key :: key in stats ==> key in groups.members && stats[key] == Statistics(predictiveTool.modelWeights, groups.members[key])
      {
        var key := groups.keys[i];
        assert key in groups.keys;
        var preds := Predictions(predictiveTool.modelWeights, groups.members[key]);
        var avgPred := if |preds| > 0 then Sum(preds) / |preds| as real else 0.0;
        stats := stats[key := GroupStats(avgPred, |preds|)];
        assert groups.keys[..i + 1] == groups.keys[..i] + [key];
      }
      assert groups.keys[..|groups.keys|] == groups.keys;
      StatsComplete(predictiveTool.modelWeights, groups, stats);
      return Success(Report(groups.keys, stats));
    }
  }
}
