/** Layer normalisation without learned scale or shift: every row is centred
    on its mean and divided by the square root of its biased variance plus
    EPSILON. */
module LayerNorm {
  import opened Tensor

  const EPSILON: real := 0.00001

  function Mean(row: Vector): real
    requires |row| > 0
  {
    Sum(row) / (|row| as real)
  }

  /** The sum of squared deviations from `mean`, accumulated in index order. */
  function SquaredDeviation(row: Vector, mean: real): (s: real)
    ensures s >= 0.0
    decreases |row|
  {
    if |row| == 0 then 0.0
    else
      var d := row[|row| - 1] - mean;
      SquaredDeviation(row[..|row| - 1], mean) + d * d
  }

  /** Extending a prefix by one entry adds that entry's squared deviation. */
  lemma SquaredDeviationStep(v: Vector, m: real, n: nat)
    requires 0 < n <= |v|
    ensures SquaredDeviation(v[..n], m) == SquaredDeviation(v[..n - 1], m) + (v[n - 1] - m) * (v[n - 1] - m)
  {
    assert v[..n][..n - 1] == v[..n - 1];
  }

  /** Extending a prefix by one entry adds that entry to the sum. */
  lemma SumStep(v: Vector, n: nat)
    requires 0 < n <= |v|
    ensures Sum(v[..n]) == Sum(v[..n - 1]) + v[n - 1]
  {
    assert v[..n][..n - 1] == v[..n - 1];
  }

  /** The biased (population) variance of a row. */
  function Variance(row: Vector): (v: real)
    requires |row| > 0
    ensures v >= 0.0
  {
    SquaredDeviation(row, Mean(row)) / (|row| as real)
  }

  /** One normalised row; a row with no features stays empty. */
  function NormRow(row: Vector, sqrt: Positive -> Positive): (r: Vector)
    ensures |r| == |row|
  {
    if |row| == 0 then []
    else
      var mean := Mean(row);
      var std := sqrt(Variance(row) + EPSILON);
      seq(|row|, j requires 0 <= j < |row| => (row[j] - mean) / std)
  }

  /** Every row normalised on its own. */
  function Normalized(x: Matrix, sqrt: Positive -> Positive): (r: Matrix)
    ensures |r| == |x| && forall i :: 0 <= i < |x| ==> |r[i]| == |x[i]|
  {
    seq(|x|, i requires 0 <= i < |x| => NormRow(x[i], sqrt))
  }

  /** Every entry shifted by -m. */
  function Deviations(v: Vector, m: real): (d: Vector)
    ensures |d| == |v| && forall j :: 0 <= j < |v| ==> d[j] == v[j] - m
  {
    seq(|v|, j requires 0 <= j < |v| => v[j] - m)
  }

  /** Every entry multiplied by r. */
  function Scaled(d: Vector, r: real): (w: Vector)
    ensures |w| == |d| && forall j :: 0 <= j < |d| ==> w[j] == d[j] * r
  {
    seq(|d|, j requires 0 <= j < |d| => d[j] * r)
  }

  /** Multiplying a sum by r distributes over its two terms. */
  lemma Distributes(x: real, y: real, r: real)
    ensures x * r + y * r == (x + y) * r
  {
  }

  /** Scaling every entry by r scales the sum by r. */
  lemma {:induction false} SumScaled(d: Vector, r: real)
    ensures Sum(Scaled(d, r)) == Sum(d) * r
    decreases |d|
  {
    if |d| > 0 {
      var n := |d| - 1;
      var p := d[..n];
      SumScaled(p, r);
      forall j | 0 <= j < n
        ensures Scaled(d, r)[..n][j] == Scaled(p, r)[j]
      {
        assert p[j] == d[j];
      }
      assert Scaled(d, r)[..n] == Scaled(p, r);
      Distributes(Sum(p), d[n], r);
    }
  }

  /** Adding one more copy of m to n copies gives n + 1 copies. */
  lemma OneMoreCopy(n: nat, m: real)
    ensures (n as real) * m + m == ((n + 1) as real) * m
  {
  }

  /** Shifting every entry by -m lowers the sum by |v| copies of m. */
  lemma {:induction false} SumShifted(v: Vector, m: real)
    ensures Sum(Deviations(v, m)) == Sum(v) - (|v| as real) * m
    decreases |v|
  {
    if |v| > 0 {
      var n := |v| - 1;
      var p := v[..n];
      SumShifted(p, m);
      assert Deviations(v, m)[..n] == Deviations(p, m);
      OneMoreCopy(n, m);
    }
  }

  /** The deviations of a non-empty row from its own mean sum to zero. */
  lemma DeviationsSumToZero(row: Vector)
    requires |row| > 0
    ensures Sum(Deviations(row, Mean(row))) == 0.0
  {
    SumShifted(row, Mean(row));
    TimesQuotient(Sum(row), |row| as real);
  }

  /** Division by s is multiplication by 1 / s. */
  lemma QuotientAsProduct(x: real, s: real)
    requires s != 0.0
    ensures x / s == x * (1.0 / s)
  {
  }

  /** n times the total over n is the total. */
  lemma TimesQuotient(a: real, n: real)
    requires n > 0.0
    ensures n * (a / n) == a
  {
  }

  /** A normalised row sums to zero, so its sample mean is exactly zero. */
  lemma NormRowIsCentred(row: Vector, sqrt: Positive -> Positive)
    ensures Sum(NormRow(row, sqrt)) == 0.0
  {
    if |row| > 0 {
      var mean := Mean(row);
      var std := sqrt(Variance(row) + EPSILON);
      var d := Deviations(row, mean);
      var scaled := Scaled(d, 1.0 / std);
      forall j | 0 <= j < |row|
        ensures NormRow(row, sqrt)[j] == scaled[j]
      {
        QuotientAsProduct(row[j] - mean, std);
      }
      assert NormRow(row, sqrt) == scaled;
      SumScaled(d, 1.0 / std);
      DeviationsSumToZero(row);
    }
  }

  /** Each output entry has the sign of the entry's deviation from the row mean. */
  lemma NormRowSign(row: Vector, sqrt: Positive -> Positive, j: nat)
    requires j < |row|
    ensures NormRow(row, sqrt)[j] > 0.0 <==> row[j] > Mean(row)
    ensures NormRow(row, sqrt)[j] < 0.0 <==> row[j] < Mean(row)
    ensures NormRow(row, sqrt)[j] == 0.0 <==> row[j] == Mean(row)
  {
    var std: real := sqrt(Variance(row) + EPSILON);
    var d := row[j] - Mean(row);
    assert NormRow(row, sqrt)[j] == d / std;
    assert d / std * std == d;
  }

  /** The first pass over a row: the running sum, divided by the number of
      features (the division is skipped for an empty row, whose mean is never used). */
  method RowMean(xi: Vector) returns (mean: real)
    ensures |xi| > 0 ==> mean == Mean(xi)
  {
    mean := 0.0;
    for j := 0 to |xi|
      invariant mean == Sum(xi[..j])
    {
      SumStep(xi, j + 1);
      mean := mean + xi[j];
    }
    assert xi[..|xi|] == xi;
    if |xi| > 0 {
      mean := mean / |xi| as real;
    }
  }

  /** The second pass: the running sum of squared deviations from `mean`,
      divided by the number of features. */
  method RowVariance(xi: Vector, mean: real) returns (variance: real)
    ensures variance >= 0.0
    ensures |xi| > 0 ==> variance == SquaredDeviation(xi, mean) / (|xi| as real)
  {
    variance := 0.0;
    for j := 0 to |xi|
      invariant variance == SquaredDeviation(xi[..j], mean)
    {
      SquaredDeviationStep(xi, mean, j + 1);
      variance := variance + (xi[j] - mean) * (xi[j] - mean);
    }
    assert xi[..|xi|] == xi;
    if |xi| > 0 {
      variance := variance / |xi| as real;
    }
  }

  /** The three passes of the source over one row: mean, variance, and the
      normalising pass into a fresh row. */
  method NormalizeRow(xi: Vector, sqrt: Positive -> Positive) returns (r: Vector)
    ensures r == NormRow(xi, sqrt)
  {
    var features := |xi|;
    var row := new real[features];
    var mean := RowMean(xi);
    var variance := RowVariance(xi, mean);
    var std := sqrt(variance + EPSILON);
    for j := 0 to features
      invariant forall k :: 0 <= k < j ==> row[k] == (xi[k] - mean) / std
    {
      row[j] := (xi[j] - mean) / sqrt(variance + EPSILON);
    }
    r := row[..];
  }

  /** Every row of x normalised independently into a fresh matrix. */
  method Norm(x: Matrix, seqLength: nat, features: nat, sqrt: Positive -> Positive)
    returns (normalized: Matrix)
    requires IsMatrix(x, seqLength, features)
    ensures IsMatrix(normalized, seqLength, features)
    ensures forall i :: 0 <= i < seqLength ==> normalized[i] == NormRow(x[i], sqrt)
  {
    normalized := [];
    for i := 0 to seqLength
      invariant |normalized| == i
      invariant forall r :: 0 <= r < i ==> normalized[r] == NormRow(x[r], sqrt)
    {
      var row := NormalizeRow(x[i], sqrt);
      normalized := normalized + [row];
    }
  }
}
