/**
  The numbers behind BiasGuard's charts (visualization.py): the four fairness radar scores, the
  per-job bar colours, and the counters behind the bias-level pie, the category bars and the
  top-terms bars. Figure construction and HTML output are not modelled.
 */
module Visualization {
  import opened Wrappers
  import Config
  import LanguageService
  import FairnessEngine
  import Tally

  function Abs(x: real): real { if x < 0.0 then -x else x }

  /** `max(0, 100 - abs(d) * 500)` */
  function ParityScore(d: real): (score: real)
    ensures 0.0 <= score <= 100.0
    ensures score == 100.0 <==> d == 0.0
    ensures Abs(d) >= 0.2 <==> score == 0.0
  {
    if 100.0 - Abs(d) * 500.0 > 0.0 then 100.0 - Abs(d) * 500.0 else 0.0
  }

  /**
    One radar trace of `create_fairness_radar`: demographic parity, EEOC compliance, selection
    balance and overall fairness.
   */
  function RadarScores(m: FairnessEngine.FairnessMetrics): (scores: seq<real>)
    ensures |scores| == 4
    ensures 0.0 <= scores[0] <= 100.0 && 0.0 <= scores[2] <= 100.0
    ensures 0.0 <= m.eeoc80PercentRatio <= 1.0 ==> 0.0 <= scores[3] <= scores[1] <= 100.0
    ensures m.demographicParityDifference == m.maleSelectionRate - m.femaleSelectionRate ==> scores[0] == scores[2]
  {
    [
      ParityScore(m.demographicParityDifference),
      m.eeoc80PercentRatio * 100.0,
      ParityScore(m.maleSelectionRate - m.femaleSelectionRate),
      m.eeoc80PercentRatio * 75.0
    ]
  }

  /**
    For metrics the calculator computed from 0/1 outcomes, every radar score lies in [0, 100],
    the parity and balance scores coincide, and the overall score never exceeds the EEOC score.
   */
  lemma RadarOfComputedMetrics(rows: seq<FairnessEngine.Row>)
    requires FairnessEngine.Computable(rows) && FairnessEngine.BinaryOutcomes(rows)
    ensures var s := RadarScores(FairnessEngine.ComputeFairnessMetrics(rows));
      && (forall i :: 0 <= i < 4 ==> 0.0 <= s[i] <= 100.0)
      && s[0] == s[2]
      && s[3] <= s[1]
  {
  }

  /** `create_fairness_radar`: the baseline trace and the mitigated trace. */
  function FairnessRadar(baseline: FairnessEngine.FairnessMetrics, fair: FairnessEngine.FairnessMetrics): (traces: (seq<real>, seq<real>))
    ensures traces.0 == RadarScores(baseline) && traces.1 == RadarScores(fair)
  {
    (RadarScores(baseline), RadarScores(fair))
  }

  /**
    For the output of `run_analysis` the baseline and mitigated traces coincide: the chart
    shows no improvement, since both records are the same computation.
   */
  lemma RadarShowsNoImprovement(rows: seq<FairnessEngine.Row>)
    requires FairnessEngine.Computable(rows)
    ensures var r := FairnessEngine.RunAnalysis(rows);
      FairnessRadar(r.baseline.fairness, r.fair.fairness).0 == FairnessRadar(r.baseline.fairness, r.fair.fairness).1
  {
  }

  /** Bar colour of one job's score: danger from 50, warning from 25, success below. */
  function BarColor(score: int): (color: string)
    ensures color == Config.DangerColor <==> score >= 50
    ensures color == Config.WarningColor <==> 25 <= score < 50
    ensures color == Config.SuccessColor <==> score < 25
  {
    if score >= 50 then Config.DangerColor
    else if score >= 25 then Config.WarningColor
    else Config.SuccessColor
  }

  /** The bias level of every result, in order. */
  function Levels(results: seq<LanguageService.JobResult>): (levels: seq<string>)
    ensures |levels| == |results|
  {
    if results == [] then [] else Levels(results[..|results| - 1]) + [results[|results| - 1].biasLevel]
  }

  /** The category of every detected term, result by result. */
  function CategoriesOf(terms: seq<LanguageService.DetectedTerm>): (names: seq<string>)
    ensures |names| == |terms|
  {
    if terms == [] then [] else CategoriesOf(terms[..|terms| - 1]) + [terms[|terms| - 1].category]
  }

  function AllCategories(results: seq<LanguageService.JobResult>): seq<string> {
    if results == [] then []
    else AllCategories(results[..|results| - 1]) + CategoriesOf(results[|results| - 1].detectedTerms)
  }

  /** The term of every detected term, result by result. */
  function TermsOf(terms: seq<LanguageService.DetectedTerm>): (names: seq<string>)
    ensures |names| == |terms|
  {
    if terms == [] then [] else TermsOf(terms[..|terms| - 1]) + [terms[|terms| - 1].term]
  }

  function AllTerms(results: seq<LanguageService.JobResult>): seq<string> {
    if results == [] then []
    else AllTerms(results[..|results| - 1]) + TermsOf(results[|results| - 1].detectedTerms)
  }

  /** The number of detected terms across all results. */
  function DetectedCount(results: seq<LanguageService.JobResult>): nat {
    if results == [] then 0
    else DetectedCount(results[..|results| - 1]) + |results[|results| - 1].detectedTerms|
  }

  /** Both flattenings list one entry per detected term. */
  lemma {:induction false} FlattenedLengths(results: seq<LanguageService.JobResult>)
    ensures |AllCategories(results)| == DetectedCount(results)
    ensures |AllTerms(results)| == DetectedCount(results)
  {
    if results != [] {
      FlattenedLengths(results[..|results| - 1]);
    }
  }

  /** The bias-level counter of the pie chart. */
  method CountLevels(results: seq<LanguageService.JobResult>) returns (counts: Tally.Counter)
    ensures Tally.IsTally(counts, Levels(results))
    ensures Tally.Total(counts) == |results|
    ensures Tally.NoDuplicates(Tally.Keys(counts))
  {
    counts := [];
    Tally.EmptyTally();
    for i := 0 to |results|
      invariant Tally.IsTally(counts, Levels(results[..i]))
    {
      assert results[..i + 1][..i] == results[..i];
      Tally.BumpTally(counts, Levels(results[..i]), results[i].biasLevel);
      counts := Tally.Bump(counts, results[i].biasLevel);
    }
    assert results[..|results|] == results;
    Tally.TallyShape(counts, Levels(results));
  }

  /** The category counter of the category bars. */
  method CountCategories(results: seq<LanguageService.JobResult>) returns (counts: Tally.Counter)
    ensures Tally.IsTally(counts, AllCategories(results))
    ensures Tally.Total(counts) == DetectedCount(results)
    ensures Tally.NoDuplicates(Tally.Keys(counts))
  {
    counts := [];
    Tally.EmptyTally();
    for i := 0 to |results|
      invariant Tally.IsTally(counts, AllCategories(results[..i]))
    {
      var terms := results[i].detectedTerms;
      ghost var done := AllCategories(results[..i]);
      assert terms[..0] == [];
      assert done + CategoriesOf(terms[..0]) == done;
      for j := 0 to |terms|
        invariant Tally.IsTally(counts, done + CategoriesOf(terms[..j]))
      {
        assert terms[..j + 1][..j] == terms[..j];
        assert done + CategoriesOf(terms[..j + 1]) == (done + CategoriesOf(terms[..j])) + [terms[j].category];
        Tally.BumpTally(counts, done + CategoriesOf(terms[..j]), terms[j].category);
        counts := Tally.Bump(counts, terms[j].category);
      }
      assert terms[..|terms|] == terms;
      assert results[..i + 1][..i] == results[..i];
    }
    assert results[..|results|] == results;
    FlattenedLengths(results);
    Tally.TallyShape(counts, AllCategories(results));
  }

  /** The term counter of the top-terms bars. */
  method CountTerms(results: seq<LanguageService.JobResult>) returns (counts: Tally.Counter)
    ensures Tally.IsTally(counts, AllTerms(results))
    ensures Tally.Total(counts) == DetectedCount(results)
    ensures Tally.NoDuplicates(Tally.Keys(counts))
  {
    counts := [];
    Tally.EmptyTally();
    for i := 0 to |results|
      invariant Tally.IsTally(counts, AllTerms(results[..i]))
    {
      var terms := results[i].detectedTerms;
      ghost var done := AllTerms(results[..i]);
      assert terms[..0] == [];
      assert done + TermsOf(terms[..0]) == done;
      for j := 0 to |terms|
        invariant Tally.IsTally(counts, done + TermsOf(terms[..j]))
      {
        assert terms[..j + 1][..j] == terms[..j];
        assert done + TermsOf(terms[..j + 1]) == (done + TermsOf(terms[..j])) + [terms[j].term];
        Tally.BumpTally(counts, done + TermsOf(terms[..j]), terms[j].term);
        counts := Tally.Bump(counts, terms[j].term);
      }
      assert terms[..|terms|] == terms;
      assert results[..i + 1][..i] == results[..i];
    }
    assert results[..|results|] == results;
    FlattenedLengths(results);
    Tally.TallyShape(counts, AllTerms(results));
  }

  /**
    The `language_analysis` argument: None, or a dictionary that may lack "results";
    `otherKeys` counts its remaining keys (an empty dictionary is falsy in Python).
   */
  datatype LanguageAnalysis = LanguageAnalysis(results: Option<seq<LanguageService.JobResult>>, otherKeys: nat)

  /** The data the four panels of `create_language_bias_chart` plot. */
  datatype LanguageChart = LanguageChart(
    jobTitles: seq<string>,
    biasScores: seq<int>,
    barColors: seq<string>,
    levelCounts: Tally.Counter,
    categoryCounts: Tally.Counter,
    termCounts: Tally.Counter,
    topTerms: Tally.Counter)

  /** `r['job_title'][:20]` */
  function Truncate(title: string): (t: string)
    ensures |t| == if |title| <= 20 then |title| else 20
    ensures t == title[..|t|]
    ensures |title| <= 20 ==> t == title
  {
    if |title| <= 20 then title else title[..20]
  }

  /** Python truthiness of the argument, as tested at the call site. */
  predicate Truthy(analysis: Option<LanguageAnalysis>) {
    analysis.Some? && (analysis.value.results.Some? || analysis.value.otherKeys > 0)
  }

  /**
    `create_language_bias_chart`: nothing is drawn for a missing, empty or result-less
    analysis; otherwise one bar per job and the three counters over its results.
   */
  method CreateLanguageBiasChart(analysis: Option<LanguageAnalysis>) returns (chart: Option<LanguageChart>)
    ensures chart.Some? <==> analysis.Some? && analysis.value.results.Some?
    ensures chart.Some? ==>
      var rs, c := analysis.value.results.value, chart.value;
      && |c.jobTitles| == |c.biasScores| == |c.barColors| == |rs|
      && (forall i :: 0 <= i < |rs| ==>
            c.jobTitles[i] == Truncate(rs[i].jobTitle) && c.biasScores[i] == rs[i].biasScore
            && c.barColors[i] == BarColor(rs[i].biasScore))
      && Tally.IsTally(c.levelCounts, Levels(rs)) && Tally.Total(c.levelCounts) == |rs|
      && Tally.IsTally(c.categoryCounts, AllCategories(rs)) && Tally.Total(c.categoryCounts) == DetectedCount(rs)
      && Tally.IsTally(c.termCounts, AllTerms(rs)) && Tally.Total(c.termCounts) == DetectedCount(rs)
      && c.topTerms == Tally.TopTen(c.termCounts)
  {
    if analysis.None? || !Truthy(analysis) || analysis.value.results.None? {
      return None;
    }
    var results := analysis.value.results.value;
    var titles := seq(|results|, i requires 0 <= i < |results| => Truncate(results[i].jobTitle));
    var scores := seq(|results|, i requires 0 <= i < |results| => results[i].biasScore);
    var colors := seq(|results|, i requires 0 <= i < |results| => BarColor(scores[i]));
    var levels := CountLevels(results);
    var categories := CountCategories(results);
    var terms := CountTerms(results);
    chart := Some(LanguageChart(titles, scores, colors, levels, categories, terms, Tally.TopTen(terms)));
  }

  /** `generate_complete_report` draws the language chart only for a truthy analysis with results. */
  function LanguageChartDrawn(analysis: Option<LanguageAnalysis>): (drawn: bool)
    ensures drawn <==> analysis.Some? && analysis.value.results.Some?
  {
    Truthy(analysis) && analysis.value.results.Some?
  }
}
