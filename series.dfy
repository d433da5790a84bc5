/** Paired series of (actual, forecast) values, the sums and means the
    accuracy metrics are built from, and the facts about sums they need.

    A metric value is a `Float`: a number, +infinity (a positive amount
    divided by zero) or NaN (0/0, or the mean of nothing). No computation of
    the source yields -infinity. */
module Series {

  datatype Option<T> = None | Some(value: T)

  datatype Float = Num(value: real) | Inf | NaN

  /** One CSV row of a forecast file: the observed value and the forecast. */
  datatype Row = Row(actual: real, forecast: real)

  function Abs(x: real): (r: real)
    ensures 0.0 <= r && (r == x || r == -x)
  {
    if x < 0.0 then -x else x
  }

  function Sum(s: seq<real>): real
  {
    if |s| == 0 then 0.0 else s[0] + Sum(s[1..])
  }

  /** The mean of a sequence; an empty mean is NaN. */
  function Mean(s: seq<real>): (m: Float)
    ensures m.Num? <==> |s| > 0
    ensures !m.Inf?
  {
    if |s| == 0 then NaN else Num(Sum(s) / |s| as real)
  }

  /** Multiplication by 100; infinity and NaN stay what they are. */
  function Percent(x: Float): (y: Float)
    ensures y.Num? == x.Num? && y.Inf? == x.Inf?
  {
    match x
    case Num(v) => Num(v * 100.0)
    case _ => x
  }

  /** |actual - forecast| per row. */
  function AbsErrors(rows: seq<Row>): seq<real>
  {
    seq(|rows|, i requires 0 <= i < |rows| => Abs(rows[i].actual - rows[i].forecast))
  }

  /** forecast - actual per row: positive means over-forecast. */
  function Errors(rows: seq<Row>): seq<real>
  {
    seq(|rows|, i requires 0 <= i < |rows| => rows[i].forecast - rows[i].actual)
  }

  /** (actual - forecast)^2 per row. */
  function SquaredErrors(rows: seq<Row>): seq<real>
  {
    seq(|rows|, i requires 0 <= i < |rows| =>
      (rows[i].actual - rows[i].forecast) * (rows[i].actual - rows[i].forecast))
  }

  function Actuals(rows: seq<Row>): seq<real>
  {
    seq(|rows|, i requires 0 <= i < |rows| => rows[i].actual)
  }

  /** |(actual - forecast) / actual| of one row with a non-zero actual. */
  function PercentError(r: Row): real
    requires r.actual != 0.0
  {
    Abs((r.actual - r.forecast) / r.actual)
  }

  lemma PercentErrorZero(r: Row)
    requires r.actual != 0.0
    ensures PercentError(r) == 0.0 <==> r.actual == r.forecast
  {
    var q := (r.actual - r.forecast) / r.actual;
    assert q * r.actual == r.actual - r.forecast;
  }

  /** |(actual - forecast) / actual| for the rows whose actual is not zero,
      in row order; a zero-actual row contributes nothing. */
  function PercentErrors(rows: seq<Row>): seq<real>
  {
    if |rows| == 0 then []
    else
      (if rows[0].actual != 0.0
       then [PercentError(rows[0])]
       else [])
      + PercentErrors(rows[1..])
  }

  predicate Identical(rows: seq<Row>)
  {
    forall i :: 0 <= i < |rows| ==> rows[i].actual == rows[i].forecast
  }

  predicate SomeNonZeroActual(rows: seq<Row>)
  {
    exists i :: 0 <= i < |rows| && rows[i].actual != 0.0
  }

  // ---------------------------------------------------------------------
  // Prefixes, as loops over a sequence see them

  lemma PrefixStep<T>(s: seq<T>, j: nat)
    requires j < |s|
    ensures s[..j + 1][..j] == s[..j]
  {
  }

  lemma PrefixWhole<T>(s: seq<T>)
    ensures s[..|s|] == s
  {
  }

  // ---------------------------------------------------------------------
  // Sums

  lemma {:induction false} SumNonNegative(s: seq<real>)
    requires forall i :: 0 <= i < |s| ==> 0.0 <= s[i]
    ensures 0.0 <= Sum(s)
  {
    if |s| > 0 {
      SumNonNegative(s[1..]);
    }
  }

  lemma {:induction false} SumZeroIff(s: seq<real>)
    requires forall i :: 0 <= i < |s| ==> 0.0 <= s[i]
    ensures Sum(s) == 0.0 <==> forall i :: 0 <= i < |s| ==> s[i] == 0.0
  {
    if |s| > 0 {
      SumNonNegative(s[1..]);
      SumZeroIff(s[1..]);
      if Sum(s) == 0.0 {
        forall i | 0 <= i < |s| ensures s[i] == 0.0 {
          if i > 0 {
            assert s[i] == s[1..][i - 1];
          }
        }
      }
    }
  }

  /** The mean of zeros is 0. */
  lemma MeanOfZeros(s: seq<real>)
    requires |s| > 0 && forall i :: 0 <= i < |s| ==> s[i] == 0.0
    ensures Mean(s) == Num(0.0)
  {
    SumZeroIff(s);
    assert Sum(s) == 0.0;
  }

  /** The absolute errors sum to 0 exactly for a perfect forecast. */
  lemma AbsErrorsZero(rows: seq<Row>)
    ensures 0.0 <= Sum(AbsErrors(rows))
    ensures Sum(AbsErrors(rows)) == 0.0 <==> Identical(rows)
  {
    var e := AbsErrors(rows);
    SumNonNegative(e);
    SumZeroIff(e);
    if Sum(e) == 0.0 {
      forall i | 0 <= i < |rows| ensures rows[i].actual == rows[i].forecast {
        assert e[i] == 0.0;
      }
    }
  }

  /** The triangle inequality: |sum of x| <= sum of |x|. */
  lemma {:induction false} SumAbsBound(s: seq<real>, t: seq<real>)
    requires |s| == |t|
    requires forall i :: 0 <= i < |s| ==> t[i] == Abs(s[i])
    ensures Abs(Sum(s)) <= Sum(t)
  {
    if |s| > 0 {
      SumAbsBound(s[1..], t[1..]);
    }
  }

  /** The summed error is no larger in size than the summed absolute error. */
  lemma ErrorSumBound(rows: seq<Row>)
    ensures Abs(Sum(Errors(rows))) <= Sum(AbsErrors(rows))
  {
    var e, a := Errors(rows), AbsErrors(rows);
    forall i | 0 <= i < |e| ensures a[i] == Abs(e[i]) {
      assert e[i] == -(rows[i].actual - rows[i].forecast);
    }
    SumAbsBound(e, a);
  }

  /** Terms bounded by c sum to at most c times their count. */
  lemma {:induction false} SumAtMost(s: seq<real>, c: real)
    requires forall i :: 0 <= i < |s| ==> s[i] <= c
    ensures Sum(s) <= c * |s| as real
  {
    if |s| > 0 {
      SumAtMost(s[1..], c);
      assert c * |s| as real == c + c * |s[1..]| as real;
    }
  }

  lemma SumOfFour(a: real, b: real, c: real, d: real)
    ensures Sum([a, b, c, d]) == a + b + c + d
  {
    assert [d][1..] == [];
    assert Sum([d]) == d;
    assert [c, d][1..] == [d];
    assert Sum([c, d]) == c + d;
    assert [b, c, d][1..] == [c, d];
    assert Sum([b, c, d]) == b + c + d;
    assert [a, b, c, d][1..] == [b, c, d];
  }

  lemma SumOfTwo(a: real, b: real)
    ensures Sum([a, b]) == a + b
  {
    assert [b][1..] == [];
    assert Sum([b]) == b;
    assert [a, b][1..] == [b];
  }

  // ---------------------------------------------------------------------
  // The zero-guarded percentage errors

  /** Zero-actual rows are dropped and every other row keeps its place, so the
      percentage errors of a concatenation are those of its parts. */
  lemma {:induction false} PercentErrorsAppend(p: seq<Row>, q: seq<Row>)
    ensures PercentErrors(p + q) == PercentErrors(p) + PercentErrors(q)
  {
    if |p| > 0 {
      assert (p + q)[1..] == p[1..] + q;
      PercentErrorsAppend(p[1..], q);
    } else {
      assert p + q == q;
    }
  }

  /** Each percentage error is non-negative, and all are zero when every
      forecast equals its actual. */
  lemma {:induction false} PercentErrorsTerms(rows: seq<Row>)
    ensures forall i :: 0 <= i < |PercentErrors(rows)| ==> 0.0 <= PercentErrors(rows)[i]
    ensures Identical(rows) ==> forall i :: 0 <= i < |PercentErrors(rows)| ==> PercentErrors(rows)[i] == 0.0
  {
    if |rows| > 0 {
      PercentErrorsTerms(rows[1..]);
      assert Identical(rows) ==> Identical(rows[1..]);
    }
  }

  /** There is a percentage error exactly when some actual is not zero. */
  lemma {:induction false} PercentErrorsNonEmpty(rows: seq<Row>)
    ensures |PercentErrors(rows)| > 0 <==> SomeNonZeroActual(rows)
  {
    if |rows| > 0 {
      PercentErrorsNonEmpty(rows[1..]);
      if SomeNonZeroActual(rows[1..]) {
        var i :| 0 <= i < |rows[1..]| && rows[1..][i].actual != 0.0;
        assert rows[i + 1].actual != 0.0;
      }
      if SomeNonZeroActual(rows) && rows[0].actual == 0.0 {
        var i :| 0 <= i < |rows| && rows[i].actual != 0.0;
        assert rows[1..][i - 1].actual != 0.0;
      }
    }
  }

  /** Without zero actuals, the percentage errors are one per row. */
  lemma {:induction false} PercentErrorsWithoutZeros(rows: seq<Row>)
    requires forall i :: 0 <= i < |rows| ==> rows[i].actual != 0.0
    ensures |PercentErrors(rows)| == |rows|
    ensures forall i :: 0 <= i < |rows| ==> PercentErrors(rows)[i] == PercentError(rows[i])
  {
    if |rows| > 0 {
      PercentErrorsWithoutZeros(rows[1..]);
      assert PercentErrors(rows) == [PercentError(rows[0])] + PercentErrors(rows[1..]);
      forall i | 0 < i < |rows| ensures PercentErrors(rows)[i] == PercentError(rows[i]) {
        assert rows[i] == rows[1..][i - 1];
      }
    }
  }
}
