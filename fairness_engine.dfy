/**
  The fairness calculator (azure_ml_fairness_engine.py): selection rates of the rows whose
  gender is exactly "male" or exactly "female", their signed difference, the lower-to-higher
  rate ratio and the four-fifths adverse-impact rule (29 CFR 1607.4(D)). Rates are ratios of
  sums and counts, so `real` holds them exactly.
 */
module FairnessEngine {
  import Config

  /** One row of the hiring table: the two columns the calculator reads. */
  datatype Row = Row(gender: string, hired: real)

  /** The fairness record `compute_fairness_metrics` returns. */
  datatype FairnessMetrics = FairnessMetrics(
    maleSelectionRate: real,
    femaleSelectionRate: real,
    demographicParityDifference: real,
    eeoc80PercentRatio: real,
    passesEeocTest: bool)

  /** `{"fairness": ...}` under one model key. */
  datatype ModelReport = ModelReport(fairness: FairnessMetrics)

  /** The record `run_analysis` returns (and writes to the report file). */
  datatype AnalysisResult = AnalysisResult(baseline: ModelReport, fair: ModelReport)

  /** The four-fifths threshold, as hard-coded in the calculator. */
  const EeocThreshold: real := 0.8

  /** `data[data["gender"] == g]`: the rows whose gender is exactly `g`, in table order. */
  function Group(rows: seq<Row>, g: string): seq<Row>
  {
    if rows == [] then []
    else Group(rows[..|rows| - 1], g) + (if rows[|rows| - 1].gender == g then [rows[|rows| - 1]] else [])
  }

  /** `group["hired"].sum()` */
  function Hires(group: seq<Row>): real
  {
    if group == [] then 0.0 else Hires(group[..|group| - 1]) + group[|group| - 1].hired
  }

  /** `group["hired"].mean()`: hires divided by group size. */
  function SelectionRate(group: seq<Row>): real
    requires |group| > 0
  {
    Hires(group) / |group| as real
  }

  /** Every outcome is 0 or 1, as the upload validator guarantees. */
  predicate BinaryOutcomes(rows: seq<Row>) {
    forall i :: 0 <= i < |rows| ==> rows[i].hired == 0.0 || rows[i].hired == 1.0
  }

  function Min(a: real, b: real): real { if a <= b then a else b }
  function Max(a: real, b: real): real { if a <= b then b else a }

  /** `min(a, b) / max(a, b)`: the lower rate over the higher one. */
  function ComplianceRatio(a: real, b: real): (ratio: real)
    requires Max(a, b) > 0.0
    ensures 0.0 <= a && 0.0 <= b ==> 0.0 <= ratio <= 1.0
    ensures 0.0 < a && 0.0 < b ==> 0.0 < ratio
    ensures ratio == 1.0 <==> a == b
  {
    var lo, hi := Min(a, b), Max(a, b);
    QuotientIsOne(lo, hi);
    if 0.0 <= lo then
      QuotientAtMostOne(lo, hi);
      lo / hi
    else
      lo / hi
  }

  /** A product with a positive factor has the sign of the other factor. */
  lemma SignOfFactor(x: real, y: real)
    requires 0.0 < y && 0.0 <= x * y
    ensures 0.0 <= x
  {
  }

  lemma QuotientAtMostOne(lo: real, hi: real)
    requires 0.0 < hi && 0.0 <= lo <= hi
    ensures 0.0 <= lo / hi <= 1.0
  {
    var q := lo / hi;
    assert q * hi == lo;
    assert (1.0 - q) * hi == hi - lo;
    SignOfFactor(q, hi);
    SignOfFactor(1.0 - q, hi);
  }

  lemma QuotientIsOne(lo: real, hi: real)
    requires 0.0 < hi
    ensures lo / hi == 1.0 <==> lo == hi
  {
    var q := lo / hi;
    assert q * hi == lo;
  }

  /** The ratio does not depend on which group is named first. */
  lemma ComplianceRatioSymmetric(a: real, b: real)
    requires Max(a, b) > 0.0
    ensures ComplianceRatio(a, b) == ComplianceRatio(b, a)
  {
  }

  /** `passes_eeoc_test`: inclusive at the threshold. */
  predicate PassesEeoc(ratio: real) {
    ratio >= EeocThreshold
  }

  /**
    The division is defined: both groups are non-empty and at least one rate is positive
    (otherwise a selection rate or the ratio is NaN in pandas).
   */
  predicate Computable(rows: seq<Row>) {
    && |Group(rows, "male")| > 0
    && |Group(rows, "female")| > 0
    && Max(SelectionRate(Group(rows, "male")), SelectionRate(Group(rows, "female"))) > 0.0
  }

  lemma {:induction false} HiresBounds(group: seq<Row>)
    requires BinaryOutcomes(group)
    ensures 0.0 <= Hires(group) <= |group| as real
  {
    if group != [] {
      HiresBounds(group[..|group| - 1]);
    }
  }

  /** With 0/1 outcomes a selection rate is a fraction between 0 and 1. */
  lemma RateInUnitInterval(group: seq<Row>)
    requires |group| > 0 && BinaryOutcomes(group)
    ensures 0.0 <= SelectionRate(group) <= 1.0
  {
    HiresBounds(group);
    var n := |group| as real;
    assert SelectionRate(group) * n == Hires(group);
  }

  /** The rows kept for group `g` are exactly the table rows whose gender is `g`, each kept once. */
  lemma {:induction false} GroupMembers(rows: seq<Row>, g: string)
    ensures |Group(rows, g)| <= |rows|
    ensures forall r :: r in Group(rows, g) <==> r in rows && r.gender == g
  {
    if rows != [] {
      GroupMembers(rows[..|rows| - 1], g);
      assert rows == rows[..|rows| - 1] + [rows[|rows| - 1]];
    }
  }

  /** A gender that no row carries has an empty group. */
  lemma {:induction false} GroupOfAbsent(rows: seq<Row>, g: string)
    requires forall i :: 0 <= i < |rows| ==> rows[i].gender != g
    ensures Group(rows, g) == []
  {
    if rows != [] {
      GroupOfAbsent(rows[..|rows| - 1], g);
    }
  }

  lemma {:induction false} GroupBinary(rows: seq<Row>, g: string)
    requires BinaryOutcomes(rows)
    ensures BinaryOutcomes(Group(rows, g))
  {
    GroupMembers(rows, g);
    forall i | 0 <= i < |Group(rows, g)|
      ensures Group(rows, g)[i].hired == 0.0 || Group(rows, g)[i].hired == 1.0
    {
      assert Group(rows, g)[i] in rows;
    }
  }

  /** When every gender is exactly "male" or "female", the two groups split the table. */
  lemma {:induction false} PartitionComplete(rows: seq<Row>)
    requires forall i :: 0 <= i < |rows| ==> rows[i].gender == "male" || rows[i].gender == "female"
    ensures |Group(rows, "male")| + |Group(rows, "female")| == |rows|
  {
    if rows != [] {
      PartitionComplete(rows[..|rows| - 1]);
    }
  }

  /** `compute_fairness_metrics` */
  function ComputeFairnessMetrics(rows: seq<Row>): (m: FairnessMetrics)
    requires Computable(rows)
    ensures m.maleSelectionRate == Hires(Group(rows, "male")) / |Group(rows, "male")| as real
    ensures m.femaleSelectionRate == Hires(Group(rows, "female")) / |Group(rows, "female")| as real
    ensures m.demographicParityDifference == m.maleSelectionRate - m.femaleSelectionRate
    ensures m.eeoc80PercentRatio == Min(m.maleSelectionRate, m.femaleSelectionRate) / Max(m.maleSelectionRate, m.femaleSelectionRate)
    ensures m.passesEeocTest <==> m.eeoc80PercentRatio >= 0.8
    ensures m.eeoc80PercentRatio == 1.0 <==> m.maleSelectionRate == m.femaleSelectionRate
    ensures BinaryOutcomes(rows) ==>
      && 0.0 <= m.maleSelectionRate <= 1.0 && 0.0 <= m.femaleSelectionRate <= 1.0
      && -1.0 <= m.demographicParityDifference <= 1.0
      && 0.0 <= m.eeoc80PercentRatio <= 1.0
  {
    var male, female := Group(rows, "male"), Group(rows, "female");
    var maleRate, femaleRate := SelectionRate(male), SelectionRate(female);
    var ratio := ComplianceRatio(maleRate, femaleRate);
    if BinaryOutcomes(rows) then
      GroupBinary(rows, "male");
      GroupBinary(rows, "female");
      RateInUnitInterval(male);
      RateInUnitInterval(female);
      FairnessMetrics(maleRate, femaleRate, maleRate - femaleRate, ratio, PassesEeoc(ratio))
    else
      FairnessMetrics(maleRate, femaleRate, maleRate - femaleRate, ratio, PassesEeoc(ratio))
  }

  /** `run_analysis`: the same metrics record stands under "baseline" and under "fair". */
  function RunAnalysis(rows: seq<Row>): (r: AnalysisResult)
    requires Computable(rows)
    ensures r.baseline == r.fair
    ensures r.baseline.fairness == ComputeFairnessMetrics(rows)
  {
    var fairness := ComputeFairnessMetrics(rows);
    AnalysisResult(ModelReport(fairness), ModelReport(fairness))
  }

  /**
    The two worked examples of the four-fifths rule: rates 0.60 and 0.50 give a ratio of 5/6,
    which passes; rates 0.70 and 0.50 give 5/7, which fails; a ratio of exactly 0.8 passes.
   */
  lemma FourFifthsExamples()
    ensures ComplianceRatio(0.6, 0.5) == 5.0 / 6.0 && PassesEeoc(ComplianceRatio(0.6, 0.5))
    ensures ComplianceRatio(0.7, 0.5) == 5.0 / 7.0 && !PassesEeoc(ComplianceRatio(0.7, 0.5))
    ensures ComplianceRatio(0.5, 0.4) == 0.8 && PassesEeoc(ComplianceRatio(0.5, 0.4))
  {
  }

  /** The calculator's hard-coded threshold is the configuration's `eeoc_80_percent`. */
  lemma ThresholdMatchesConfig()
    ensures "eeoc_80_percent" in Config.BiasThresholds && Config.BiasThresholds["eeoc_80_percent"] == EeocThreshold
  {
  }
}
