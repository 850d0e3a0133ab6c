/** The element-wise kernels: matrix addition (used for both residual
    connections), the activation, and the position indices. */
module Elementwise {
  import opened Tensor

  /** Cell-wise sum of two matrices of the same shape. */
  function Added(x: Matrix, y: Matrix): (r: Matrix)
    requires |x| == |y| && forall i :: 0 <= i < |x| ==> |x[i]| == |y[i]|
    ensures |r| == |x| && forall i :: 0 <= i < |x| ==> |r[i]| == |x[i]|
  {
    seq(|x|, i requires 0 <= i < |x| =>
      seq(|x[i]|, j requires 0 <= j < |x[i]| => x[i][j] + y[i][j]))
  }

  /** Adding a zero matrix changes nothing: the residual path alone. */
  lemma AddZero(x: Matrix, y: Matrix, rows: nat, cols: nat)
    requires IsMatrix(x, rows, cols) && IsMatrix(y, rows, cols)
    requires forall i, j :: 0 <= i < rows && 0 <= j < cols ==> y[i][j] == 0.0
    ensures Added(x, y) == x
  {
    MatrixEq(Added(x, y), x, rows, cols);
  }

  /** result[i][j] = x[i][j] + y[i][j], by a 4-wide loop over each row
      followed by a scalar loop over the columns past the last multiple of 4. */
  method MatrixAdd(x: Matrix, y: Matrix, numRow: nat, numCol: nat) returns (result: Matrix)
    requires numCol % 4 == 0
    requires IsMatrix(x, numRow, numCol) && IsMatrix(y, numRow, numCol)
    ensures IsMatrix(result, numRow, numCol)
    ensures forall i, j :: 0 <= i < numRow && 0 <= j < numCol ==> result[i][j] == x[i][j] + y[i][j]
  {
    result := [];
    for i := 0 to numRow
      invariant |result| == i
      invariant forall r :: 0 <= r < i ==> |result[r]| == numCol
      invariant forall r, j :: 0 <= r < i && 0 <= j < numCol ==> result[r][j] == x[r][j] + y[r][j]
    {
      var row := new real[numCol];
      var j := 0;
      while j < numCol
        invariant 0 <= j <= numCol && j % 4 == 0
        invariant forall k :: 0 <= k < j ==> row[k] == x[i][k] + y[i][k]
      {
        row[j] := x[i][j] + y[i][j];
        row[j + 1] := x[i][j + 1] + y[i][j + 1];
        row[j + 2] := x[i][j + 2] + y[i][j + 2];
        row[j + 3] := x[i][j + 3] + y[i][j + 3];
        j := j + 4;
      }
      AddTail(row, x[i], y[i], numCol - numCol % 4);
      result := result + [row[..]];
    }
  }

  /** The scalar loop for the columns from `start` on: it writes the same
      sums the 4-wide loop does and leaves the columns before `start` alone. */
  method AddTail(row: array<real>, x: Vector, y: Vector, start: nat)
    requires |x| == |y| == row.Length && start <= row.Length
    modifies row
    ensures forall k :: start <= k < row.Length ==> row[k] == x[k] + y[k]
    ensures forall k :: 0 <= k < start ==> row[k] == old(row[k])
  {
    var j := start;
    while j < row.Length
      invariant start <= j <= row.Length
      invariant forall k :: start <= k < j ==> row[k] == x[k] + y[k]
      invariant forall k :: 0 <= k < start ==> row[k] == old(row[k])
    {
      row[j] := x[j] + y[j];
      j := j + 1;
    }
  }

  /** The activation as the source computes it: only the 0.5 scaling of
      GELU, without the tanh factor. */
  function GeluAsWritten(v: Vector): (r: Vector)
    ensures |r| == |v|
  {
    seq(|v|, k requires 0 <= k < |v| => v[k] * 0.5)
  }

  /** Without the tanh factor the activation is linear: on u = a + c * b it
      gives the same combination of the activations of a and b. Together with
      Linear.ApplyIsAffine this makes every block's MLP affine in its input row. */
  lemma GeluIsLinear(u: Vector, a: Vector, b: Vector, c: real)
    requires |u| == |a| == |b|
    requires forall k :: 0 <= k < |u| ==> u[k] == a[k] + c * b[k]
    ensures |GeluAsWritten(u)| == |u|
    ensures forall k :: 0 <= k < |u| ==>
              GeluAsWritten(u)[k] == GeluAsWritten(a)[k] + c * GeluAsWritten(b)[k]
  {
  }

  /** output[k] = 0.5 * x[k], four entries per step. */
  method Gelu(x: Vector, size: nat) returns (output: Vector)
    requires size % 4 == 0 && |x| == size
    ensures |output| == size
    ensures forall k :: 0 <= k < size ==> output[k] == x[k] * 0.5
  {
    var out := new real[size];
    var i := 0;
    while i < size
      invariant 0 <= i <= size && i % 4 == 0
      invariant forall k :: 0 <= k < i ==> out[k] == x[k] * 0.5
    {
      out[i] := x[i] * 0.5;
      out[i + 1] := x[i + 1] * 0.5;
      out[i + 2] := x[i + 2] * 0.5;
      out[i + 3] := x[i + 3] * 0.5;
      i := i + 4;
    }
    output := out[..];
  }

  /** positions[i] = pastLength + i; the tokens themselves are not read. */
  method PositionsFor(tokens: seq<int>, seqLength: nat, pastLength: int) returns (positions: seq<int>)
    ensures |positions| == seqLength
    ensures forall i :: 0 <= i < seqLength ==> positions[i] == pastLength + i
  {
    var out := new int[seqLength];
    for i := 0 to seqLength
      invariant forall k :: 0 <= k < i ==> out[k] == pastLength + k
    {
      out[i] := pastLength + i;
    }
    positions := out[..];
  }
}
