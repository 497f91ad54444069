/**
 * The predictive scorer: a weighted dot product of a household's features,
 * truncated to the shorter of the weight and feature vectors.
 */
module Predictive {
  import opened Households

  /** The weights used when the scorer is built without any. */
  const DEFAULT_WEIGHTS: seq<real> := [0.4, 0.3, 0.3]

  /** One `{id, predicted_impact}` record of the scorer's output. */
  datatype PredictionRecord = PredictionRecord(id: int, predictedImpact: real)

  /** The number of positions the dot product uses: the smaller of the two lengths. */
  function EffectiveLength(weights: seq<real>, features: seq<real>): (m: nat)
    ensures m <= |weights| && m <= |features|
    ensures m == |weights| || m == |features|
  {
    if |weights| <= |features| then |weights| else |features|
  }

  /** weights[0] * features[0] + ... + weights[n-1] * features[n-1], accumulated from the left. */
  function PartialDot(weights: seq<real>, features: seq<real>, n: nat): real
    requires n <= |weights| && n <= |features|
  {
    if n == 0 then 0.0 else PartialDot(weights, features, n - 1) + weights[n - 1] * features[n - 1]
  }

  /** The prediction for `features` under `weights`. */
  function Score(weights: seq<real>, features: seq<real>): real
  {
    PartialDot(weights, features, EffectiveLength(weights, features))
  }

  /** A partial dot product depends only on the first `n` entries of both vectors. */
  lemma {:induction false} PartialDotPrefix(w1: seq<real>, f1: seq<real>, w2: seq<real>, f2: seq<real>, n: nat)
    requires n <= |w1| && n <= |f1| && n <= |w2| && n <= |f2|
    requires forall i :: 0 <= i < n ==> w1[i] == w2[i] && f1[i] == f2[i]
    ensures PartialDot(w1, f1, n) == PartialDot(w2, f2, n)
  {
    if n > 0 {
      PartialDotPrefix(w1, f1, w2, f2, n - 1);
    }
  }

  /** Truncation law: scoring equals scoring the two vectors cut to their common length. */
  lemma TruncationLaw(weights: seq<real>, features: seq<real>)
    ensures var m := EffectiveLength(weights, features);
            Score(weights, features) == Score(weights[..m], features[..m])
  {
    var m := EffectiveLength(weights, features);
    PartialDotPrefix(weights, features, weights[..m], features[..m], m);
  }

  /** Features beyond the last weight never affect the prediction. */
  lemma ExtraFeaturesIgnored(weights: seq<real>, features: seq<real>, extra: seq<real>)
    requires |weights| <= |features|
    ensures Score(weights, features + extra) == Score(weights, features)
  {
    PartialDotPrefix(weights, features + extra, weights, features, |weights|);
  }

  /** Weights beyond the last feature never affect the prediction. */
  lemma ExtraWeightsIgnored(weights: seq<real>, extra: seq<real>, features: seq<real>)
    requires |features| <= |weights|
    ensures Score(weights + extra, features) == Score(weights, features)
  {
    PartialDotPrefix(weights + extra, features, weights, features, |features|);
  }

  /** The scorer: a fixed weight vector, set once at construction. */
  class PredictiveAnalysisTool {
    const modelWeights: seq<real>

    /** Uses the given weights unchanged, or `DEFAULT_WEIGHTS` when none are given. */
    constructor (modelWeights: Option<seq<real>>)
      ensures modelWeights.None? ==> this.modelWeights == DEFAULT_WEIGHTS
      ensures modelWeights.Some? ==> this.modelWeights == modelWeights.value
    {
      this.modelWeights := if modelWeights.Some? then modelWeights.value else DEFAULT_WEIGHTS;
    }

    /** Accumulates the weighted features over the common length of the two vectors. */
    method Predict(features: seq<real>) returns (score: real)
      ensures score == Score(modelWeights, features)
      ensures features == [] ==> score == 0.0
    {
      score := 0.0;
      for i := 0 to EffectiveLength(modelWeights, features)
        invariant score == PartialDot(modelWeights, features, i)
      {
        score := score + modelWeights[i] * features[i];
      }
    }

    /** One record per household, in input order; duplicate ids are kept. */
    function PredictAll(households: seq<Household>): (records: seq<PredictionRecord>)
      ensures |records| == |households|
      ensures forall k :: 0 <= k < |households| ==>
        records[k] == PredictionRecord(households[k].id, Score(modelWeights, households[k].features))
    {
      if households == [] then []
      else [PredictionRecord(households[0].id, Score(modelWeights, households[0].features))]
           + PredictAll(households[1..])
    }
  }
}
