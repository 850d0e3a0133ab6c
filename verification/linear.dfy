/** Linear projection: a matrix-vector product plus bias whose dot products
    run on a 4-wide accumulator. */
module Linear {
  import opened Tensor

  /** A dense layer: `weights` is fcOutputSize x fcInputSize. */
  datatype Layer = Layer(weights: Matrix, biases: Vector, fcInputSize: nat, fcOutputSize: nat)
  {
    predicate Shaped(inSize: nat, outSize: nat)
    {
      fcInputSize == inSize && fcOutputSize == outSize
      && IsMatrix(weights, outSize, inSize) && |biases| == outSize
    }

    /** The layer applied to one input vector: biases[i] + dot(weights[i], x)
        for every output row i. */
    function Apply(x: Vector): (y: Vector)
      requires Shaped(fcInputSize, fcOutputSize) && |x| == fcInputSize
      ensures |y| == fcOutputSize
    {
      seq(fcOutputSize, i requires 0 <= i < fcOutputSize => biases[i] + Dot(weights[i], x))
    }

    /** Every weight and bias is zero. */
    predicate IsZero()
    {
      (forall i, j :: 0 <= i < |weights| && 0 <= j < |weights[i]| ==> weights[i][j] == 0.0)
      && forall i :: 0 <= i < |biases| ==> biases[i] == 0.0
    }
  }

  /** A zero layer maps every input to the zero vector. */
  lemma ZeroLayerGivesZero(layer: Layer, x: Vector)
    requires layer.Shaped(layer.fcInputSize, layer.fcOutputSize) && |x| == layer.fcInputSize
    requires layer.IsZero()
    ensures forall i :: 0 <= i < layer.fcOutputSize ==> layer.Apply(x)[i] == 0.0
  {
    forall i | 0 <= i < layer.fcOutputSize
      ensures layer.Apply(x)[i] == 0.0
    {
      DotZero(layer.weights[i], x);
    }
  }

  /** A layer is an affine map: on u = a + c * b, output row i is the output
      on a plus c times the weight part of the output on b. */
  lemma ApplyIsAffine(layer: Layer, u: Vector, a: Vector, b: Vector, c: real)
    requires layer.Shaped(layer.fcInputSize, layer.fcOutputSize)
    requires |u| == |a| == |b| == layer.fcInputSize
    requires forall k :: 0 <= k < |u| ==> u[k] == a[k] + c * b[k]
    ensures forall i :: 0 <= i < layer.fcOutputSize ==>
              layer.Apply(u)[i] == layer.Apply(a)[i] + c * (layer.Apply(b)[i] - layer.biases[i])
  {
    forall i | 0 <= i < layer.fcOutputSize
      ensures layer.Apply(u)[i] == layer.Apply(a)[i] + c * (layer.Apply(b)[i] - layer.biases[i])
    {
      DotIsLinear(layer.weights[i], u, a, b, c);
    }
  }

  /** The 4-lane dot product of the SIMD loop: four running lane sums,
      advanced four entries at a time, then added together. */
  method DotLanes(a: Vector, b: Vector) returns (d: real)
    requires |a| == |b| && |a| % 4 == 0
    ensures d == Dot(a, b)
  {
    var l0, l1, l2, l3 := 0.0, 0.0, 0.0, 0.0;
    var j := 0;
    ghost var c := 0;
    while j < |a|
      invariant j == 4 * c && j <= |a|
      invariant l0 == Lane(a, b, 0, c) && l1 == Lane(a, b, 1, c)
      invariant l2 == Lane(a, b, 2, c) && l3 == Lane(a, b, 3, c)
    {
      l0 := l0 + a[j] * b[j];
      l1 := l1 + a[j + 1] * b[j + 1];
      l2 := l2 + a[j + 2] * b[j + 2];
      l3 := l3 + a[j + 3] * b[j + 3];
      j := j + 4;
      c := c + 1;
    }
    LanesAddUp(a, b, c);
    assert a[..j] == a && b[..j] == b;
    d := l0 + l1 + l2 + l3;
  }

  /** output[i] = biases[i] + dot(weights[i], fcInput), one row at a time. */
  method Linear(fcInput: Vector, weights: Matrix, biases: Vector, fcInputSize: nat, fcOutputSize: nat)
    returns (output: Vector)
    requires fcInputSize % 4 == 0 && |fcInput| == fcInputSize
    requires IsMatrix(weights, fcOutputSize, fcInputSize) && |biases| == fcOutputSize
    ensures |output| == fcOutputSize
    ensures forall i :: 0 <= i < fcOutputSize ==> output[i] == biases[i] + Dot(weights[i], fcInput)
  {
    var out := new real[fcOutputSize];
    for i := 0 to fcOutputSize
      invariant forall r :: 0 <= r < i ==> out[r] == biases[r] + Dot(weights[r], fcInput)
    {
      var lanes := DotLanes(weights[i], fcInput);
      out[i] := lanes + biases[i];
    }
    output := out[..];
  }
}
