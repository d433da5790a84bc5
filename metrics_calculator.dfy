/** The stand-alone metrics calculator: seven point-accuracy metrics of one
    vendor's forecast file, and the best vendor by MAPE, WAPE or RMSE.

    The source takes means with pandas, which skips NaN terms: a 0/0 term
    (a row whose actual and forecast are both zero) drops out of the MAPE
    and SMAPE means, while x/0 with x != 0 is infinite and makes the MAPE
    infinite. */
module MetricsCalculator {
  import opened Series
  import opened Ranking

  /** The metric record. `mse` is the mean squared error, whose square
      root the source reports as RMSE. */
  datatype Metrics = Metrics(
    mae: Float,
    mape: Float,
    wape: Float,
    mse: Float,
    bias: Float,
    smape: Float,
    trackingSignal: Float)

  function Mae(rows: seq<Row>): (r: Float)
    ensures r.Num? <==> |rows| > 0
    ensures !r.Inf?
  {
    Mean(AbsErrors(rows))
  }

  /** Some row has a zero actual under a non-zero forecast: its term is infinite. */
  predicate UnguardedZero(rows: seq<Row>)
  {
    exists i :: 0 <= i < |rows| && rows[i].actual == 0.0 && rows[i].forecast != 0.0
  }

  /** An infinite term makes the mean infinite; otherwise the 0/0 terms are
      skipped. */
  function Mape(rows: seq<Row>): (r: Float)
    ensures r.Inf? <==> UnguardedZero(rows)
  {
    if UnguardedZero(rows) then Inf else Percent(Mean(PercentErrors(rows)))
  }

  /** A zero total gives +infinity, or NaN when every error is zero too. */
  function Wape(rows: seq<Row>): (r: Float)
    ensures r.Num? <==> Sum(Actuals(rows)) != 0.0
  {
    var total := Sum(Actuals(rows));
    if total == 0.0 then
      (if Sum(AbsErrors(rows)) == 0.0 then NaN else Inf)
    else Num(Sum(AbsErrors(rows)) / total * 100.0)
  }

  function Mse(rows: seq<Row>): (r: Float)
    ensures r.Num? <==> |rows| > 0
    ensures !r.Inf?
  {
    Mean(SquaredErrors(rows))
  }

  function Bias(rows: seq<Row>): (r: Float)
    ensures r.Num? <==> |rows| > 0
    ensures !r.Inf?
  {
    Mean(Errors(rows))
  }

  /** 2|f - a| / (|a| + |f|) of one row that is not zero on both sides. */
  function SmapeTerm(r: Row): real
    requires Abs(r.actual) + Abs(r.forecast) != 0.0
  {
    2.0 * Abs(r.forecast - r.actual) / (Abs(r.actual) + Abs(r.forecast))
  }

  /** The SMAPE terms of the rows that are not zero on both sides, in row
      order; a 0/0 row is NaN and the mean skips it. */
  function SmapeTerms(rows: seq<Row>): seq<real>
  {
    if |rows| == 0 then []
    else
      (if Abs(rows[0].actual) + Abs(rows[0].forecast) != 0.0 then [SmapeTerm(rows[0])] else [])
      + SmapeTerms(rows[1..])
  }

  function Smape(rows: seq<Row>): (r: Float)
    ensures !r.Inf?
  {
    Percent(Mean(SmapeTerms(rows)))
  }

  /** Cumulative error over MAE, 0 when MAE is 0; with no rows MAE is NaN,
      which is not 0, and the quotient is NaN. */
  function TrackingSignal(rows: seq<Row>): (r: Float)
    ensures r.Num? <==> |rows| > 0
    ensures !r.Inf?
  {
    match Mae(rows)
    case Num(m) => if m != 0.0 then Num(Sum(Errors(rows)) / m) else Num(0.0)
    case _ => NaN
  }

  /** The record of `calculate_metrics`. Only MAPE and WAPE can be infinite;
      with no rows every metric is NaN. */
  function CalculateMetrics(rows: seq<Row>): (m: Metrics)
    ensures m.mae.Num? && m.mse.Num? && m.bias.Num? && m.trackingSignal.Num? <==> |rows| > 0
    ensures !m.mae.Inf? && !m.mse.Inf? && !m.bias.Inf? && !m.smape.Inf? && !m.trackingSignal.Inf?
    ensures m.mape.Inf? <==> UnguardedZero(rows)
    ensures m.wape.Num? <==> Sum(Actuals(rows)) != 0.0
    ensures |rows| == 0 ==> m.mape.NaN? && m.wape.NaN? && m.smape.NaN?
  {
    Metrics(Mae(rows), Mape(rows), Wape(rows), Mse(rows), Bias(rows), Smape(rows), TrackingSignal(rows))
  }

  // ---------------------------------------------------------------------
  // Properties of the metrics

  lemma MaeBounds(rows: seq<Row>)
    requires |rows| > 0
    ensures Mae(rows).Num? && 0.0 <= Mae(rows).value
    ensures Mae(rows).value == 0.0 <==> Identical(rows)
  {
    var e := AbsErrors(rows);
    SumNonNegative(e);
    SumZeroIff(e);
    if Identical(rows) {
      assert forall i :: 0 <= i < |e| ==> e[i] == 0.0;
    }
    if Mae(rows).value == 0.0 {
      assert Sum(e) == 0.0;
      forall i | 0 <= i < |rows| ensures rows[i].actual == rows[i].forecast {
        assert e[i] == 0.0;
      }
    }
  }

  lemma DivideBoth(x: real, y: real, n: real)
    requires x <= y && 0.0 < n
    ensures x / n <= y / n
  {
  }

  /** A signed mean error is never larger in size than the absolute one. */
  lemma AbsBiasAtMostMae(rows: seq<Row>)
    requires |rows| > 0
    ensures Bias(rows).Num? && Mae(rows).Num?
    ensures Abs(Bias(rows).value) <= Mae(rows).value
  {
    ErrorSumBound(rows);
    MeansOfErrors(rows);
    MeanBound(Sum(Errors(rows)), Sum(AbsErrors(rows)), |rows| as real);
  }

  /** |s| <= t gives |s / n| <= t / n. */
  lemma MeanBound(s: real, t: real, n: real)
    requires Abs(s) <= t && 0.0 < n
    ensures Abs(s / n) <= t / n
  {
    DivideBoth(Abs(s), t, n);
    assert Abs(s / n) == Abs(s) / n;
  }

  /** A negative Bias needs an under-forecast row, a positive one an over-forecast row. */
  lemma BiasSign(rows: seq<Row>)
    requires |rows| > 0
    ensures Bias(rows).Num?
    ensures Bias(rows).value < 0.0 ==> exists i :: 0 <= i < |rows| && rows[i].forecast < rows[i].actual
    ensures Bias(rows).value > 0.0 ==> exists i :: 0 <= i < |rows| && rows[i].forecast > rows[i].actual
  {
    var n := |rows| as real;
    var e := Errors(rows);
    if forall i :: 0 <= i < |rows| ==> rows[i].forecast >= rows[i].actual {
      SumNonNegative(e);
      assert Sum(e) / n >= 0.0;
    }
    if forall i :: 0 <= i < |rows| ==> rows[i].forecast <= rows[i].actual {
      var neg := seq(|rows|, i requires 0 <= i < |rows| => rows[i].actual - rows[i].forecast);
      SumNonNegative(neg);
      NegatedSum(e, neg);
      assert Sum(e) / n <= 0.0;
    }
  }

  lemma {:induction false} NegatedSum(s: seq<real>, t: seq<real>)
    requires |s| == |t| && forall i :: 0 <= i < |s| ==> t[i] == -s[i]
    ensures Sum(t) == -Sum(s)
  {
    if |s| > 0 {
      NegatedSum(s[1..], t[1..]);
    }
  }

  /** WAPE is defined whenever the actuals do not sum to zero, is 0 for a
      perfect forecast, and for positive total demand it is non-negative and
      0 only for a perfect forecast. */
  lemma WapeBounds(rows: seq<Row>)
    requires Sum(Actuals(rows)) != 0.0
    ensures Wape(rows).Num?
    ensures Identical(rows) ==> Wape(rows).value == 0.0
    ensures Sum(Actuals(rows)) > 0.0 ==> 0.0 <= Wape(rows).value
    ensures Sum(Actuals(rows)) > 0.0 && Wape(rows).value == 0.0 ==> Identical(rows)
  {
    var e := AbsErrors(rows);
    var total := Sum(Actuals(rows));
    SumNonNegative(e);
    SumZeroIff(e);
    if Identical(rows) {
      assert forall i :: 0 <= i < |e| ==> e[i] == 0.0;
    }
    if total > 0.0 {
      assert 0.0 <= Sum(e) / total;
      if Wape(rows).value == 0.0 {
        assert Sum(e) / total == 0.0;
        assert Sum(e) == 0.0;
        forall i | 0 <= i < |rows| ensures rows[i].actual == rows[i].forecast {
          assert e[i] == 0.0;
        }
      }
    }
  }

  /** When the actuals sum to 0, WAPE is +infinity, or NaN when every
      forecast is exact too; otherwise it is a number. */
  lemma WapeUndefined(rows: seq<Row>)
    ensures Wape(rows).Inf? <==> Sum(Actuals(rows)) == 0.0 && !Identical(rows)
    ensures Wape(rows).NaN? <==> Sum(Actuals(rows)) == 0.0 && Identical(rows)
  {
    AbsErrorsZero(rows);
  }

  /** With no zero actual, the percentage errors sum to a non-negative
      amount that is 0 exactly for a perfect forecast. */
  lemma PercentSumZero(rows: seq<Row>)
    requires forall i :: 0 <= i < |rows| ==> rows[i].actual != 0.0
    ensures 0.0 <= Sum(PercentErrors(rows))
    ensures Sum(PercentErrors(rows)) == 0.0 <==> Identical(rows)
  {
    var pe := PercentErrors(rows);
    PercentErrorsWithoutZeros(rows);
    PercentErrorsTerms(rows);
    SumNonNegative(pe);
    SumZeroIff(pe);
    forall i | 0 <= i < |rows| ensures pe[i] == 0.0 <==> rows[i].actual == rows[i].forecast {
      PercentErrorZero(rows[i]);
    }
  }

  /** With no zero actual, MAPE is the plain mean of |(a - f) / a| over all
      rows, times 100; it is non-negative and 0 only for a perfect forecast. */
  lemma MapeWithoutZeroActuals(rows: seq<Row>)
    requires |rows| > 0
    requires forall i :: 0 <= i < |rows| ==> rows[i].actual != 0.0
    ensures Mape(rows)
         == Percent(Mean(seq(|rows|, i requires 0 <= i < |rows| => PercentError(rows[i]))))
    ensures 0.0 <= Mape(rows).value
    ensures Mape(rows).value == 0.0 <==> Identical(rows)
  {
    var pe := PercentErrors(rows);
    PercentErrorsWithoutZeros(rows);
    assert pe == seq(|rows|, i requires 0 <= i < |rows| => PercentError(rows[i]));
    assert !UnguardedZero(rows);
    PercentSumZero(rows);
    assert Mape(rows) == Num(Sum(pe) / |pe| as real * 100.0);
    PercentOfMean(Sum(pe), |pe| as real);
  }

  /** The percentage of a mean of a non-negative sum is non-negative, and 0
      exactly when the sum is. */
  lemma PercentOfMean(x: real, n: real)
    requires 0.0 <= x && 0.0 < n
    ensures 0.0 <= x / n * 100.0
    ensures x / n * 100.0 == 0.0 <==> x == 0.0
  {
  }

  /** MAPE is infinite when some zero actual meets a non-zero forecast, NaN
      when otherwise every actual is zero, and otherwise a non-negative
      number. */
  lemma MapeUndefined(rows: seq<Row>)
    ensures Mape(rows).Inf? <==> UnguardedZero(rows)
    ensures Mape(rows).NaN? <==> !UnguardedZero(rows) && !SomeNonZeroActual(rows)
    ensures Mape(rows).Num? ==> 0.0 <= Mape(rows).value
  {
    PercentErrorsNonEmpty(rows);
    PercentErrorsTerms(rows);
    SumNonNegative(PercentErrors(rows));
  }

  /** One SMAPE term lies in [0, 2]. */
  lemma SmapeTermBound(r: Row)
    requires Abs(r.actual) + Abs(r.forecast) != 0.0
    ensures 0.0 <= SmapeTerm(r) <= 2.0
  {
    var d := Abs(r.actual) + Abs(r.forecast);
    var e := Abs(r.forecast - r.actual);
    assert 2.0 * e <= 2.0 * d;
    DivideBoth(2.0 * e, 2.0 * d, d);
    Cancel(2.0, d);
  }

  lemma SmapeTermsCons(r: Row, rest: seq<Row>)
    requires Abs(r.actual) + Abs(r.forecast) != 0.0
    ensures SmapeTerms([r] + rest) == [SmapeTerm(r)] + SmapeTerms(rest)
  {
    assert ([r] + rest)[1..] == rest;
  }

  /** Every SMAPE term lies in [0, 2]. */
  lemma {:induction false} SmapeTermsBounds(rows: seq<Row>)
    ensures forall i :: 0 <= i < |SmapeTerms(rows)| ==> 0.0 <= SmapeTerms(rows)[i] <= 2.0
  {
    if |rows| > 0 {
      SmapeTermsBounds(rows[1..]);
      if Abs(rows[0].actual) + Abs(rows[0].forecast) != 0.0 {
        SmapeTermBound(rows[0]);
      }
    }
  }

  /** There is no SMAPE term exactly when every row is zero on both sides. */
  lemma {:induction false} SmapeTermsEmpty(rows: seq<Row>)
    ensures |SmapeTerms(rows)| == 0 <==> forall i :: 0 <= i < |rows| ==> rows[i].actual == 0.0 && rows[i].forecast == 0.0
  {
    if |rows| > 0 {
      SmapeTermsEmpty(rows[1..]);
      if forall i :: 0 <= i < |rows[1..]| ==> rows[1..][i].actual == 0.0 && rows[1..][i].forecast == 0.0 {
        assert forall i :: 0 < i < |rows| ==> rows[i] == rows[1..][i - 1];
      }
    }
  }

  /** A perfect forecast has only zero SMAPE terms. */
  lemma {:induction false} SmapeTermsIdentical(rows: seq<Row>)
    requires Identical(rows)
    ensures forall i :: 0 <= i < |SmapeTerms(rows)| ==> SmapeTerms(rows)[i] == 0.0
  {
    if |rows| > 0 {
      assert Identical(rows[1..]);
      SmapeTermsIdentical(rows[1..]);
    }
  }

  /** SMAPE, when defined, lies in [0, 200]; it is undefined exactly when
      every row has a zero actual and a zero forecast. */
  lemma SmapeBounds(rows: seq<Row>)
    ensures Smape(rows).NaN? <==> forall i :: 0 <= i < |rows| ==> rows[i].actual == 0.0 && rows[i].forecast == 0.0
    ensures Smape(rows).Num? ==> 0.0 <= Smape(rows).value <= 200.0
  {
    var t := SmapeTerms(rows);
    SmapeTermsBounds(rows);
    SmapeTermsEmpty(rows);
    if |t| > 0 {
      var n := |t| as real;
      SumNonNegative(t);
      SumAtMost(t, 2.0);
      DivideBoth(Sum(t), 2.0 * n, n);
      Cancel(2.0, n);
      assert 0.0 <= Sum(t) / n;
    }
  }

  /** A perfect forecast has MAE, Bias and mean squared error 0. */
  lemma IdentityErrors(rows: seq<Row>)
    requires |rows| > 0 && Identical(rows)
    ensures Mae(rows) == Num(0.0) && Bias(rows) == Num(0.0) && Mse(rows) == Num(0.0)
  {
    MeanOfZeros(AbsErrors(rows));
    MeanOfZeros(Errors(rows));
    MeanOfZeros(SquaredErrors(rows));
  }

  /** A perfect forecast with some non-zero actual has MAPE and SMAPE 0. */
  lemma IdentityPercentages(rows: seq<Row>)
    requires Identical(rows) && SomeNonZeroActual(rows)
    ensures Mape(rows) == Num(0.0) && Smape(rows) == Num(0.0)
  {
    assert !UnguardedZero(rows);
    PercentErrorsNonEmpty(rows);
    PercentErrorsTerms(rows);
    MeanOfZeros(PercentErrors(rows));
    SmapeTermsIdentical(rows);
    SmapeTermsEmpty(rows);
    MeanOfZeros(SmapeTerms(rows));
  }

  /** A perfect forecast scores 0 on every metric that is defined: MAPE and
      SMAPE need a non-zero actual, WAPE a non-zero total. */
  lemma Identity(rows: seq<Row>)
    requires |rows| > 0 && Identical(rows)
    ensures Mae(rows) == Num(0.0) && Bias(rows) == Num(0.0) && Mse(rows) == Num(0.0)
    ensures TrackingSignal(rows) == Num(0.0)
    ensures Sum(Actuals(rows)) != 0.0 ==> Wape(rows) == Num(0.0)
    ensures SomeNonZeroActual(rows) ==> Mape(rows) == Num(0.0) && Smape(rows) == Num(0.0)
  {
    IdentityErrors(rows);
    if Sum(Actuals(rows)) != 0.0 {
      WapeBounds(rows);
    }
    if SomeNonZeroActual(rows) {
      IdentityPercentages(rows);
    }
  }

  /** A tracking signal over n rows that is n * Bias / MAE, or 0 when MAE is
      0, and so at most n in size. */
  predicate SignalOf(signal: Float, bias: Float, mae: Float, n: real)
  {
    && signal.Num? && bias.Num? && mae.Num?
    && (mae.value == 0.0 ==> signal.value == 0.0)
    && (mae.value != 0.0 ==> signal.value == n * bias.value / mae.value)
    && Abs(signal.value) <= n
  }

  /** The tracking signal is n * Bias / MAE, so its size is at most the row
      count; it is 0 for a perfect forecast. */
  lemma TrackingSignalBounds(rows: seq<Row>)
    requires |rows| > 0
    ensures SignalOf(TrackingSignal(rows), Bias(rows), Mae(rows), |rows| as real)
  {
    ErrorSumBound(rows);
    MeansOfErrors(rows);
    SignalArithmetic(Sum(Errors(rows)), Sum(AbsErrors(rows)), |rows| as real, Bias(rows), Mae(rows), TrackingSignal(rows));
  }

  /** MAE, Bias and the tracking signal over the two error sums. */
  lemma MeansOfErrors(rows: seq<Row>)
    requires |rows| > 0
    ensures Mae(rows) == Num(Sum(AbsErrors(rows)) / |rows| as real)
    ensures Bias(rows) == Num(Sum(Errors(rows)) / |rows| as real)
    ensures TrackingSignal(rows) ==
      var m := Sum(AbsErrors(rows)) / |rows| as real;
      if m != 0.0 then Num(Sum(Errors(rows)) / m) else Num(0.0)
  {
  }

  /** The arithmetic of the tracking signal, with s the summed error, t the
      summed absolute error and n the row count. */
  lemma SignalArithmetic(s: real, t: real, n: real, bias: Float, mae: Float, signal: Float)
    requires Abs(s) <= t && 0.0 < n
    requires mae == Num(t / n) && bias == Num(s / n)
    requires signal == var m := t / n; if m != 0.0 then Num(s / m) else Num(0.0)
    ensures SignalOf(signal, bias, mae, n)
  {
    if t / n != 0.0 {
      assert t != 0.0;
      DivideByMean(s, t, n);
      RatioBound(s, t, n);
    }
  }

  lemma Cancel(c: real, d: real)
    requires d != 0.0
    ensures c * d / d == c
  {
  }

  /** |s| <= t gives |n * s / t| <= n. */
  lemma RatioBound(s: real, t: real, n: real)
    requires Abs(s) <= t && t != 0.0 && 0.0 < n
    ensures Abs(n * s / t) <= n
  {
    DivideBoth(Abs(s), t, t);
    Cancel(1.0, t);
    assert Abs(s / t) <= 1.0;
    assert Abs(n * s / t) == n * Abs(s / t);
  }

  lemma DivideByMean(s: real, t: real, n: real)
    requires t != 0.0 && n != 0.0
    ensures s / (t / n) == n * s / t
    ensures n * (s / n) / (t / n) == n * s / t
  {
    var q := t / n;
    assert q * n == t;
    assert s / q == n * s / t by {
      assert (n * s / t) * q == s;
    }
    assert s / n / q == s / t by {
      assert (s / t) * q * n == s;
    }
  }

  /** actual [10, 20, 30, 40] against forecast [12, 18, 33, 38]. */
  function ExampleRows(): seq<Row>
  {
    [Row(10.0, 12.0), Row(20.0, 18.0), Row(30.0, 33.0), Row(40.0, 38.0)]
  }

  lemma ExampleErrors()
    ensures Sum(AbsErrors(ExampleRows())) == 9.0
    ensures Sum(Errors(ExampleRows())) == 1.0
    ensures Sum(SquaredErrors(ExampleRows())) == 21.0
    ensures Sum(Actuals(ExampleRows())) == 100.0
  {
    var rows := ExampleRows();
    assert AbsErrors(rows) == [2.0, 2.0, 3.0, 2.0];
    SumOfFour(2.0, 2.0, 3.0, 2.0);
    assert Errors(rows) == [2.0, -2.0, 3.0, -2.0];
    SumOfFour(2.0, -2.0, 3.0, -2.0);
    assert SquaredErrors(rows) == [4.0, 4.0, 9.0, 4.0];
    SumOfFour(4.0, 4.0, 9.0, 4.0);
    assert Actuals(rows) == [10.0, 20.0, 30.0, 40.0];
    SumOfFour(10.0, 20.0, 30.0, 40.0);
  }

  lemma ExampleMape()
    ensures Mape(ExampleRows()) == Num(11.25)
  {
    var rows := ExampleRows();
    MapeWithoutZeroActuals(rows);
    ExamplePercentErrors();
    SumOfFour(0.2, 0.1, 0.1, 0.05);
    assert Mean([0.2, 0.1, 0.1, 0.05]) == Num(0.1125);
  }

  lemma ExamplePercentErrors()
    ensures seq(4, i requires 0 <= i < 4 => PercentError(ExampleRows()[i])) == [0.2, 0.1, 0.1, 0.05]
  {
    var rows := ExampleRows();
    assert PercentError(rows[0]) == 0.2 && PercentError(rows[1]) == 0.1;
    assert PercentError(rows[2]) == 0.1 && PercentError(rows[3]) == 0.05;
  }

  lemma ExampleSmape()
    ensures Smape(ExampleRows()).Num? && 10.83 < Smape(ExampleRows()).value < 10.85
  {
    var r4 := [Row(40.0, 38.0)];
    var r3 := [Row(30.0, 33.0)] + r4;
    var r2 := [Row(20.0, 18.0)] + r3;
    var rows := [Row(10.0, 12.0)] + r2;
    assert rows == ExampleRows();
    assert SmapeTerm(Row(10.0, 12.0)) == 4.0 / 22.0;
    assert SmapeTerm(Row(20.0, 18.0)) == 4.0 / 38.0;
    assert SmapeTerm(Row(30.0, 33.0)) == 6.0 / 63.0;
    assert SmapeTerm(Row(40.0, 38.0)) == 4.0 / 78.0;
    assert r4 == [Row(40.0, 38.0)] + [];
    SmapeTermsCons(Row(40.0, 38.0), []);
    SmapeTermsCons(Row(30.0, 33.0), r4);
    SmapeTermsCons(Row(20.0, 18.0), r3);
    SmapeTermsCons(Row(10.0, 12.0), r2);
    assert SmapeTerms(rows) == [4.0 / 22.0, 4.0 / 38.0, 6.0 / 63.0, 4.0 / 78.0];
    SumOfFour(4.0 / 22.0, 4.0 / 38.0, 6.0 / 63.0, 4.0 / 78.0);
  }

  lemma ExampleMeans()
    ensures Mae(ExampleRows()) == Num(2.25)
    ensures Bias(ExampleRows()) == Num(0.25)
    ensures Mse(ExampleRows()) == Num(5.25)
    ensures Wape(ExampleRows()) == Num(9.0)
  {
    ExampleErrors();
  }

  /** The worked example: MAE 2.25, Bias 0.25, MAPE 11.25, WAPE 9, mean
      squared error 5.25 (RMSE about 2.2913), SMAPE about 10.84 and tracking
      signal 1 / 2.25. */
  lemma WorkedExample()
    ensures var m := CalculateMetrics(ExampleRows());
      && m.mae == Num(2.25)
      && m.bias == Num(0.25)
      && m.mape == Num(11.25)
      && m.wape == Num(9.0)
      && m.mse == Num(5.25)
      && m.trackingSignal == Num(1.0 / 2.25)
      && m.smape.Num? && 10.83 < m.smape.value < 10.85
  {
    ExampleErrors();
    ExampleMeans();
    ExampleMape();
    ExampleSmape();
  }

  // ---------------------------------------------------------------------
  // Best performer

  datatype RankedBy = ByMape | ByWape | ByRmse

  /** RMSE is ranked by the mean squared error: the square root is strictly
      increasing, so the order and the ties are the same. */
  function Key(m: Metrics, metric: RankedBy): Float
  {
    match metric
    case ByMape => m.mape
    case ByWape => m.wape
    case ByRmse => m.mse
  }

  function Keys(items: seq<(string, Metrics)>, metric: RankedBy): seq<Float>
  {
    seq(|items|, i requires 0 <= i < |items| => Key(items[i].1, metric))
  }

  /** `min(vendor_metrics.items(), key=...)[0] if vendor_metrics else None`:
      no vendor gives None; otherwise the vendor found is the first one with
      the smallest metric among those that are not NaN, unless the first
      vendor's metric is NaN, which nothing displaces. */
  function BestPerformer(items: seq<(string, Metrics)>, metric: RankedBy): (r: Option<string>)
    ensures r.None? <==> |items| == 0
    ensures r.Some? ==> exists k: nat :: IsMinChoice(Keys(items, metric), k) && items[k].0 == r.value
  {
    if |items| == 0 then None else Some(items[MinIndex(Keys(items, metric))].0)
  }

  /** A zero total with a non-zero error makes a vendor's WAPE +infinity,
      which `min` ranks above every number: vendor A, with actuals 1 and -1
      against forecasts 2 and -1, loses to vendor B with WAPE 10. */
  lemma InfiniteWapeRanksLast()
    ensures BestPerformer([("A", CalculateMetrics([Row(1.0, 2.0), Row(-1.0, -1.0)])),
                           ("B", CalculateMetrics([Row(10.0, 11.0)]))], ByWape) == Some("B")
  {
    var a, b := [Row(1.0, 2.0), Row(-1.0, -1.0)], [Row(10.0, 11.0)];
    assert Actuals(a) == [1.0, -1.0] && AbsErrors(a) == [1.0, 0.0];
    SumOfTwo(1.0, -1.0);
    SumOfTwo(1.0, 0.0);
    assert Wape(a) == Inf;
    assert Actuals(b) == [10.0] && AbsErrors(b) == [1.0];
    assert Sum([10.0]) == 10.0 && Sum([1.0]) == 1.0;
    assert Wape(b) == Num(10.0);
    var items := [("A", CalculateMetrics(a)), ("B", CalculateMetrics(b))];
    assert Keys(items, ByWape) == [Inf, Num(10.0)];
  }
}
