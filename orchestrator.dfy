/**
  The bookkeeping of BiasGuard's command-line pipeline (main.py): the fallback summary of a
  language batch, the executive summary's figures and the rule that decides whether the chart
  report is produced. Printing, file paths and exception reporting are not modelled.
 */
module Orchestrator {
  import opened Wrappers
  import LanguageService
  import FairnessEngine
  import Visualization

  /** `sum(1 for r in results if r.get("bias_detected"))` */
  function CountWithBias(results: seq<LanguageService.JobResult>): (n: nat)
    ensures n <= |results|
    ensures n == 0 <==> forall i :: 0 <= i < |results| ==> !results[i].biasDetected
    ensures n == |results| <==> forall i :: 0 <= i < |results| ==> results[i].biasDetected
  {
    if results == [] then 0
    else
      var last := results[|results| - 1];
      var n := CountWithBias(results[..|results| - 1]);
      assert forall i :: 0 <= i < |results| - 1 ==> results[..|results| - 1][i] == results[i];
      n + (if last.biasDetected then 1 else 0)
  }

  /** `sum(r.get("bias_score", 0) for r in results)` */
  function SumScores(results: seq<LanguageService.JobResult>): int {
    if results == [] then 0 else SumScores(results[..|results| - 1]) + results[|results| - 1].biasScore
  }

  /** Every score lies in the range the scanner guarantees. */
  predicate ScoresInRange(results: seq<LanguageService.JobResult>) {
    forall i :: 0 <= i < |results| ==> 0 <= results[i].biasScore <= LanguageService.MaxScore
  }

  lemma {:induction false} SumScoresBounds(results: seq<LanguageService.JobResult>)
    requires ScoresInRange(results)
    ensures 0 <= SumScores(results) <= LanguageService.MaxScore * |results|
  {
    if results != [] {
      var front := results[..|results| - 1];
      assert ScoresInRange(front) by {
        forall i | 0 <= i < |front| ensures 0 <= front[i].biasScore <= LanguageService.MaxScore {
          assert front[i] == results[i];
        }
      }
      SumScoresBounds(front);
    }
  }

  /** The fallback's average: the sum of the scores over their count, or 0 for no results. */
  function AverageScore(results: seq<LanguageService.JobResult>): (avg: real)
    ensures results == [] ==> avg == 0.0
    ensures results != [] ==> avg * |results| as real == SumScores(results) as real
  {
    if results == [] then 0.0 else SumScores(results) as real / |results| as real
  }

  /** An average of scores in [0, 100] is itself in [0, 100]. */
  lemma AverageScoreBounds(results: seq<LanguageService.JobResult>)
    requires ScoresInRange(results)
    ensures 0.0 <= AverageScore(results) <= LanguageService.MaxScore as real
  {
    if results != [] {
      SumScoresBounds(results);
      var n := |results| as real;
      var s := SumScores(results) as real;
      assert 0.0 <= s <= 100.0 * n;
      assert AverageScore(results) == s / n;
    }
  }

  /**
    The summary main.py computes when a batch lacks one: the job count, the number of jobs with
    bias, the mean score and an empty level table.
   */
  function FallbackSummary(results: seq<LanguageService.JobResult>): (s: LanguageService.Summary)
    ensures s.totalJobs == |results|
    ensures s.jobsWithBias <= s.totalJobs
    ensures s.jobsWithBias == 0 <==> forall i :: 0 <= i < |results| ==> !results[i].biasDetected
    ensures s.averageBiasScore == AverageScore(results)
    ensures s.biasLevels == []
  {
    LanguageService.Summary(|results|, CountWithBias(results), AverageScore(results), [])
  }

  /** `if "summary" not in batch_results: batch_results["summary"] = {...}` */
  function EnsureSummary(b: LanguageService.BatchResult): (r: LanguageService.BatchResult)
    ensures r.summary.Some?
    ensures r.results == b.results && r.service == b.service && r.timestamp == b.timestamp
    ensures r.responsibleAiNote == b.responsibleAiNote
    ensures b.summary.Some? ==> r == b
    ensures b.summary.None? ==> r.summary == Some(FallbackSummary(b.results))
  {
    if b.summary.None? then b.(summary := Some(FallbackSummary(b.results))) else b
  }

  /** The summary `print_executive_summary` reports: the stored one, or the fallback. */
  function ExecutiveSummary(b: LanguageService.BatchResult): (s: LanguageService.Summary)
    ensures b.summary.Some? ==> s == b.summary.value
    ensures b.summary.None? ==> s == FallbackSummary(b.results)
  {
    if b.summary.Some? then b.summary.value else FallbackSummary(b.results)
  }

  /**
    `run_language_analysis` without the connection test and the report file: the batch always
    comes back without a summary, so the fallback is always the one stored, and the executive
    summary later reports exactly those figures.
   */
  method RunLanguageAnalysis(detector: LanguageService.AzureLanguageBiasDetector, jobs: seq<LanguageService.Job>, timestamp: string)
    returns (r: LanguageService.BatchResult)
    ensures |r.results| == |jobs|
    ensures forall i :: 0 <= i < |jobs| ==> r.results[i] == detector.Expected(jobs[i])
    ensures r.service == LanguageService.ServiceName && r.timestamp == timestamp
    ensures r.responsibleAiNote == LanguageService.ResponsibleAiNote
    ensures r.summary == Some(FallbackSummary(r.results))
    ensures ExecutiveSummary(r) == FallbackSummary(r.results)
    ensures ScoresInRange(r.results)
  {
    var batch := detector.BatchAnalyze(jobs, timestamp);
    r := EnsureSummary(batch);
  }

  /** `abs(baseline dpd) - abs(fair dpd)`: the reported bias reduction. */
  function DpImprovement(comparison: FairnessEngine.AnalysisResult): real {
    Visualization.Abs(comparison.baseline.fairness.demographicParityDifference)
      - Visualization.Abs(comparison.fair.fairness.demographicParityDifference)
  }

  /** The reported bias reduction is always zero: both records are the same computation. */
  lemma DpImprovementIsZero(rows: seq<FairnessEngine.Row>)
    requires FairnessEngine.Computable(rows)
    ensures DpImprovement(FairnessEngine.RunAnalysis(rows)) == 0.0
  {
  }

  /** `if fairness_comparison and language_results`: both analyses must have produced a result. */
  predicate GeneratesVisualizations(
    fairness: Option<FairnessEngine.AnalysisResult>, language: Option<LanguageService.BatchResult>)
  {
    fairness.Some? && language.Some?
  }

  /** A failed analysis on either side skips the chart report; two results always produce it. */
  lemma VisualizationsNeedBoth(
    fairness: Option<FairnessEngine.AnalysisResult>, language: Option<LanguageService.BatchResult>)
    ensures fairness == None ==> !GeneratesVisualizations(fairness, language)
    ensures language == None ==> !GeneratesVisualizations(fairness, language)
    ensures fairness.Some? && language.Some? ==> GeneratesVisualizations(fairness, language)
  {
  }
}
