// Offline evaluation of a run (eval_metrics for the switch controller,
// eval_kitnet for the offline pipeline; both count the same way): drop the
// training rows, split the rest by the threshold, count the confusion
// matrix and derive zero-defaulted rates.
module EvalMetrics {
  import opened Values
  import opened Driver

  /** IndexError: fewer evaluation rows than the training rows to drop. */
  datatype EvalError = TooFewRows(rows: nat, grace: nat)

  /** `df.drop(df.index[range(grace)])` unless the run was warm-started. */
  function CutTraining(rows: seq<EvalRow>, trainSkip: bool, grace: nat): (r: Result<seq<EvalRow>, EvalError>)
    ensures r.Err? <==> !trainSkip && |rows| < grace
    ensures r.Ok? ==> |r.value| == if trainSkip then |rows| else |rows| - grace
    ensures r.Ok? ==> r.value <= rows[|rows| - |r.value|..] && rows[|rows| - |r.value|..] == r.value
  {
    if trainSkip then Ok(rows)
    else if |rows| < grace then Err(TooFewRows(|rows|, grace))
    else Ok(rows[grace..])
  }

  /** Rows whose score is below the threshold. */
  function Benign(rows: seq<EvalRow>, threshold: real): (r: seq<EvalRow>)
    ensures forall i :: 0 <= i < |r| ==> r[i].rmse < threshold
    ensures multiset(r) <= multiset(rows)
  {
    if rows == [] then []
    else
      var rest := Benign(rows[1..], threshold);
      assert rows == [rows[0]] + rows[1..];
      if rows[0].rmse < threshold then [rows[0]] + rest else rest
  }

  /** Rows whose score reaches the threshold. */
  function Alert(rows: seq<EvalRow>, threshold: real): (r: seq<EvalRow>)
    ensures forall i :: 0 <= i < |r| ==> r[i].rmse >= threshold
    ensures multiset(r) <= multiset(rows)
  {
    if rows == [] then []
    else
      var rest := Alert(rows[1..], threshold);
      assert rows == [rows[0]] + rows[1..];
      if rows[0].rmse >= threshold then [rows[0]] + rest else rest
  }

  /** Every row lands in exactly one of the two groups. */
  lemma {:induction false} SplitPartitions(rows: seq<EvalRow>, threshold: real)
    ensures multiset(Benign(rows, threshold)) + multiset(Alert(rows, threshold)) == multiset(rows)
  {
    if rows != [] {
      SplitPartitions(rows[1..], threshold);
      assert rows == [rows[0]] + rows[1..];
    }
  }

  /** The label column of a group. */
  function Truths(rows: seq<EvalRow>): (ts: seq<int>)
    ensures |ts| == |rows| && forall i :: 0 <= i < |rows| ==> ts[i] == rows[i].truth
  {
    if rows == [] then [] else [rows[0].truth] + Truths(rows[1..])
  }

  /** `group[group.label == label].shape[0]`: how many rows carry the label. */
  function CountLabel(rows: seq<EvalRow>, tag: int): (n: nat)
    ensures n <= |rows|
    ensures n == multiset(Truths(rows))[tag]
  {
    if rows == [] then 0
    else
      assert Truths(rows) == [rows[0].truth] + Truths(rows[1..]);
      CountLabel(rows[1..], tag) + (if rows[0].truth == tag then 1 else 0)
  }

  datatype Counts = Counts(tp: nat, fp: nat, tn: nat, fn: nat)

  /** TP/FP are alert rows labelled 1/0; TN/FN are benign rows labelled 0/1. */
  function Confusion(rows: seq<EvalRow>, threshold: real): Counts
  {
    var benign, alert := Benign(rows, threshold), Alert(rows, threshold);
    Counts(CountLabel(alert, 1), CountLabel(alert, 0), CountLabel(benign, 0), CountLabel(benign, 1))
  }

  /** Each label's rows split between the two groups. */
  lemma {:induction false} SplitCounts(rows: seq<EvalRow>, threshold: real, tag: int)
    ensures CountLabel(Benign(rows, threshold), tag) + CountLabel(Alert(rows, threshold), tag) == CountLabel(rows, tag)
  {
    if rows != [] {
      SplitCounts(rows[1..], threshold, tag);
    }
  }

  /**
   * The four counts together cover exactly the rows labelled 0 or 1; the
   * attack rows split into TP and FN, the benign ones into TN and FP.
   */
  lemma ConfusionTotals(rows: seq<EvalRow>, threshold: real)
    ensures var c := Confusion(rows, threshold);
      c.tp + c.fn == CountLabel(rows, 1) && c.tn + c.fp == CountLabel(rows, 0) &&
      c.tp + c.fp + c.tn + c.fn == CountLabel(rows, 0) + CountLabel(rows, 1)
  {
    SplitCounts(rows, threshold, 0);
    SplitCounts(rows, threshold, 1);
  }

  /** A guarded division: 0 when the denominator is 0 (ZeroDivisionError). */
  function Ratio(num: real, den: real): (q: real)
    ensures den == 0.0 ==> q == 0.0
    ensures den != 0.0 ==> q * den == num
  {
    if den == 0.0 then 0.0 else num / den
  }

  /** A count over a total that includes it is a rate in [0, 1]. */
  lemma RateBounds(part: nat, rest: nat)
    ensures 0.0 <= Ratio(part as real, (part + rest) as real) <= 1.0
    ensures part > 0 ==> 0.0 < Ratio(part as real, (part + rest) as real)
  {
    if part + rest > 0 {
      var q := Ratio(part as real, (part + rest) as real);
      assert q * ((part + rest) as real) == part as real;
    }
  }

  datatype Rates = Rates(
    tpr: real, tnr: real, fpr: real, fnr: real,
    accuracy: real, precision: real, recall: real, f1: real)

  function RatesOf(c: Counts): Rates
  {
    var recall := Ratio(c.tp as real, (c.tp + c.fn) as real);
    var precision := Ratio(c.tp as real, (c.tp + c.fp) as real);
    Rates(
      Ratio(c.tp as real, (c.tp + c.fn) as real),
      Ratio(c.tn as real, (c.tn + c.fp) as real),
      Ratio(c.fp as real, (c.fp + c.tn) as real),
      Ratio(c.fn as real, (c.fn + c.tp) as real),
      Ratio((c.tp + c.tn) as real, (c.tp + c.fp + c.fn + c.tn) as real),
      precision,
      recall,
      F1Score(recall, precision))
  }

  /** `2 * (recall * precision) / (recall + precision)`, 0 on division by zero. */
  function F1Score(recall: real, precision: real): real
  {
    Ratio(2.0 * (recall * precision), recall + precision)
  }

  /** Two rates over the same total add up to 1. */
  lemma ComplementaryRates(a: nat, b: nat)
    requires a + b > 0
    ensures Ratio(a as real, (a + b) as real) + Ratio(b as real, (b + a) as real) == 1.0
  {
    var d := (a + b) as real;
    assert Ratio(a as real, d) == a as real / d;
    assert Ratio(b as real, d) == b as real / d;
    assert a as real / d + b as real / d == (a as real + b as real) / d;
  }

  /**
   * Recall is the true-positive rate; the true- and false-negative rates
   * add up to 1 when there are attack rows, the true-negative and
   * false-positive rates when there are benign rows; every rate is 0 when
   * its denominator is.
   */
  lemma RatesComplement(c: Counts)
    ensures var r := RatesOf(c);
      r.recall == r.tpr &&
      (c.tp + c.fn > 0 ==> r.tpr + r.fnr == 1.0) &&
      (c.tn + c.fp > 0 ==> r.tnr + r.fpr == 1.0) &&
      (c.tp + c.fn == 0 ==> r.tpr == 0.0 && r.fnr == 0.0) &&
      (c.tn + c.fp == 0 ==> r.tnr == 0.0 && r.fpr == 0.0)
  {
    if c.tp + c.fn > 0 {
      ComplementaryRates(c.tp, c.fn);
    }
    if c.tn + c.fp > 0 {
      ComplementaryRates(c.tn, c.fp);
    }
  }

  lemma ScaleDown(x: real, y: real)
    requires 0.0 <= x && 0.0 <= y <= 1.0
    ensures x * y <= x
  {
    assert x * (1.0 - y) >= 0.0;
  }

  lemma QuotientBounds(a: real, s: real)
    requires 0.0 < a <= s
    ensures 0.0 < Ratio(a, s) <= 1.0
  {
    assert Ratio(a, s) == a / s;
  }

  /** The harmonic mean of two positive rates is a positive rate. */
  lemma HarmonicMeanBounds(p: real, q: real)
    requires 0.0 < p <= 1.0 && 0.0 < q <= 1.0
    ensures 0.0 < F1Score(p, q) <= 1.0
  {
    var m := p * q;
    ScaleDown(p, q);
    ScaleDown(q, p);
    assert m <= p && m <= q;
    assert 0.0 < m by { assert p * q > 0.0; }
    QuotientBounds(2.0 * m, p + q);
  }

  /**
   * F1 is 0 exactly when there is no true positive, and otherwise the
   * harmonic mean of precision and recall, a rate in (0, 1].
   */
  lemma F1Bounds(c: Counts)
    ensures var r := RatesOf(c);
      (r.f1 == 0.0 <==> c.tp == 0) &&
      (c.tp > 0 ==> r.f1 * (r.recall + r.precision) == 2.0 * (r.recall * r.precision) && 0.0 < r.f1 <= 1.0)
  {
    var r := RatesOf(c);
    var recall, precision := r.recall, r.precision;
    assert recall == Ratio(c.tp as real, (c.tp + c.fn) as real);
    assert precision == Ratio(c.tp as real, (c.tp + c.fp) as real);
    assert r.f1 == F1Score(recall, precision);
    RateBounds(c.tp, c.fn);
    RateBounds(c.tp, c.fp);
    if c.tp > 0 {
      HarmonicMeanBounds(recall, precision);
      F1Equation(recall, precision);
    } else {
      assert recall == 0.0 && precision == 0.0;
    }
  }

  /** Off a zero denominator, F1 times the sum of the two rates is twice their product. */
  lemma F1Equation(recall: real, precision: real)
    requires recall + precision != 0.0
    ensures F1Score(recall, precision) * (recall + precision) == 2.0 * (recall * precision)
  {
    var m := recall * precision;
    assert Ratio(2.0 * m, recall + precision) * (recall + precision) == 2.0 * m;
  }

  /** The metrics a run's evaluation reports. */
  datatype Report = Report(counts: Counts, rates: Rates)

  /** The counting part of eval_metrics / eval_kitnet. */
  function Evaluate(rows: seq<EvalRow>, threshold: real, trainSkip: bool, fmGrace: nat, adGrace: nat): (r: Result<Report, EvalError>)
    ensures r.Err? <==> !trainSkip && |rows| < fmGrace + adGrace
  {
    match CutTraining(rows, trainSkip, fmGrace + adGrace)
    case Err(e) => Err(e)
    case Ok(cut) =>
      var c := Confusion(cut, threshold);
      Ok(Report(c, RatesOf(c)))
  }

  /**
   * After a cold start the report counts exactly the rows past the first
   * fm+ad; its counts cover every one of those rows labelled 0 or 1.
   */
  lemma EvaluateCounts(rows: seq<EvalRow>, threshold: real, trainSkip: bool, fmGrace: nat, adGrace: nat)
    requires Evaluate(rows, threshold, trainSkip, fmGrace, adGrace).Ok?
    ensures var c := Evaluate(rows, threshold, trainSkip, fmGrace, adGrace).value.counts;
      var kept := if trainSkip then rows else rows[fmGrace + adGrace..];
      c.tp + c.fn == CountLabel(kept, 1) && c.tn + c.fp == CountLabel(kept, 0)
  {
    var kept := if trainSkip then rows else rows[fmGrace + adGrace..];
    ConfusionTotals(kept, threshold);
  }
}
