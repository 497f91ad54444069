/** The sample population of the report page, scored with the default weights and grouped on feature 0. */
module Sample {
  import opened Households
  import opened Predictive
  import opened Grouping
  import opened Fairness

  function SampleHouseholds(): seq<Household>
  {
    [ Household(1, [0.0, 0.8, 0.3], 0.7),
      Household(2, [1.0, 0.5, 0.5], 0.5),
      Household(3, [0.0, 0.7, 0.6], 0.8),
      Household(4, [1.0, 0.4, 0.2], 0.4) ]
  }

  /** The predictions of the sample households under the default weights. */
  lemma SamplePredictions(tool: PredictiveAnalysisTool)
    requires tool.modelWeights == DEFAULT_WEIGHTS
    ensures tool.PredictAll(SampleHouseholds()) ==
      [ PredictionRecord(1, 0.33), PredictionRecord(2, 0.7),
        PredictionRecord(3, 0.39), PredictionRecord(4, 0.58) ]
  {
  }

  /** Grouping the sample on feature 0 gives groups 0.0 = {1, 3} and 1.0 = {2, 4}, in that order. */
  lemma SampleGrouping()
    ensures AllHaveIndex(SampleHouseholds(), 0)
    ensures var hs := SampleHouseholds();
            Grouped(hs, 0) == Groups([0.0, 1.0], map[0.0 := [hs[0], hs[2]], 1.0 := [hs[1], hs[3]]])
  {
    var hs := SampleHouseholds();
    assert hs[..1][..0] == [];
    assert hs[..2][..1] == hs[..1];
    assert hs[..3][..2] == hs[..2];
    assert hs[..4][..3] == hs[..3];
    assert hs[..4] == hs;
    assert Grouped(hs[..1], 0) == Groups([0.0], map[0.0 := [hs[0]]]);
    assert Grouped(hs[..2], 0) == Groups([0.0, 1.0], map[0.0 := [hs[0]], 1.0 := [hs[1]]]);
    assert [hs[0]] + [hs[2]] == [hs[0], hs[2]];
    assert Grouped(hs[..3], 0) == Groups([0.0, 1.0], map[0.0 := [hs[0], hs[2]], 1.0 := [hs[1]]]);
    assert [hs[1]] + [hs[3]] == [hs[1], hs[3]];
  }

  /** Group 0.0 has mean (0.33 + 0.39) / 2 = 0.36; group 1.0 has mean (0.7 + 0.58) / 2 = 0.64. */
  lemma SampleStatistics()
    ensures var hs := SampleHouseholds();
            && Statistics(DEFAULT_WEIGHTS, [hs[0], hs[2]]) == GroupStats(0.36, 2)
            && Statistics(DEFAULT_WEIGHTS, [hs[1], hs[3]]) == GroupStats(0.64, 2)
  {
    var hs := SampleHouseholds();
    assert Predictions(DEFAULT_WEIGHTS, [hs[0], hs[2]]) == [0.33, 0.39];
    assert Predictions(DEFAULT_WEIGHTS, [hs[1], hs[3]]) == [0.7, 0.58];
    assert [0.33, 0.39][..1] == [0.33] && [0.33][..0] == [];
    assert [0.7, 0.58][..1] == [0.7] && [0.7][..0] == [];
  }

  /** The fairness report of the sample. */
  lemma SampleReport()
    ensures AllHaveIndex(SampleHouseholds(), 0)
    ensures FairnessReport(DEFAULT_WEIGHTS, SampleHouseholds(), 0) ==
      Report([0.0, 1.0], map[0.0 := GroupStats(0.36, 2), 1.0 := GroupStats(0.64, 2)])
  {
    SampleGrouping();
    SampleStatistics();
  }

  /** Grouping the sample on feature 5 fails at household 1, whose feature vector has length 3. */
  lemma SampleOutOfRange(error: IndexError)
    requires FirstMissing(SampleHouseholds(), 5, error)
    ensures error == IndexOutOfRange(1, 5, 3)
  {
    var hs := SampleHouseholds();
    assert AllHaveIndex(hs[..0], 5);
    FirstMissingUnique(hs, 5, error, IndexOutOfRange(1, 5, 3));
  }

  /** The report page's computation, and the same grouping with an out-of-range sensitive index. */
  method SampleRun()
  {
    var predictiveTool := new PredictiveAnalysisTool(None);
    var predictions := predictiveTool.PredictAll(SampleHouseholds());
    SamplePredictions(predictiveTool);
    assert predictions[1] == PredictionRecord(2, 0.7);

    var fairnessTool := new FairnessAnalysisTool(0);
    var report := fairnessTool.AnalyzeFairness(SampleHouseholds(), predictiveTool);
    SampleReport();
    assert report == Success(Report([0.0, 1.0], map[0.0 := GroupStats(0.36, 2), 1.0 := GroupStats(0.64, 2)]));

    var misconfigured := new FairnessAnalysisTool(5);
    var failed := misconfigured.GroupBySensitiveAttribute(SampleHouseholds());
    assert !AllHaveIndex(SampleHouseholds(), 5) by {
      assert |SampleHouseholds()[0].features| == 3;
    }
    SampleOutOfRange(failed.error);
    assert failed == Failure(IndexOutOfRange(1, 5, 3));
  }
}
