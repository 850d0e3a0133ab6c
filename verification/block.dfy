/** One transformer block: normalise, project to Q, K and V, split into
    heads, score every head, concatenate, add the residual, normalise again,
    run the two-layer MLP on every row and add the second residual. */
module TransformerBlock {
  import opened Tensor
  import opened Architecture
  import opened Linear
  import opened Elementwise
  import opened LayerNorm
  import opened Heads
  import opened Attention

  /** The five dense layers of one block. */
  datatype BlockWeights = BlockWeights(qMlp: Layer, kMlp: Layer, vMlp: Layer,
                                       firstBlockMlp: Layer, secondBlockMlp: Layer)
  {
    /** Q, K and V map the embedding to itself; the MLP widens it to a hidden
        size that is a multiple of 4 (the activation's stride) and back. */
    predicate Shaped(embeddingSize: nat)
    {
      qMlp.Shaped(embeddingSize, embeddingSize)
      && kMlp.Shaped(embeddingSize, embeddingSize)
      && vMlp.Shaped(embeddingSize, embeddingSize)
      && firstBlockMlp.Shaped(embeddingSize, firstBlockMlp.fcOutputSize)
      && firstBlockMlp.fcOutputSize % 4 == 0
      && secondBlockMlp.Shaped(firstBlockMlp.fcOutputSize, embeddingSize)
    }
  }

  /** A layer applied to every row. */
  function Project(layer: Layer, X: Matrix): (Y: Matrix)
    requires layer.Shaped(layer.fcInputSize, layer.fcOutputSize)
    requires IsMatrix(X, |X|, layer.fcInputSize)
    ensures IsMatrix(Y, |X|, layer.fcOutputSize)
    ensures forall i :: 0 <= i < |X| ==> Y[i] == layer.Apply(X[i])
  {
    seq(|X|, i requires 0 <= i < |X| => layer.Apply(X[i]))
  }

  /** The score matrix of every head: head h's slices of Q and K, scaled by
      1/sqrt(headDim). */
  function HeadScores(Q: Matrix, K: Matrix, numHeads: nat, headDim: nat, sqrt: Positive -> Positive)
    : (r: seq<Matrix>)
    requires headDim > 0
    requires IsMatrix(Q, |Q|, numHeads * headDim) && IsMatrix(K, |Q|, numHeads * headDim)
    ensures |r| == numHeads && forall h :: 0 <= h < numHeads ==> IsMatrix(r[h], |Q|, |Q|)
  {
    var qHeads := Split(Q, numHeads, headDim);
    var kHeads := Split(K, numHeads, headDim);
    seq(numHeads, h requires 0 <= h < numHeads =>
      Scores(qHeads[h], kHeads[h], headDim, Scale(headDim, sqrt)))
  }

  /** The concatenated head outputs: the first headDim columns of every
      head's seqLength x seqLength score matrix. */
  function MultiHead(Q: Matrix, K: Matrix, numHeads: nat, headDim: nat, sqrt: Positive -> Positive)
    : (a: Matrix)
    requires 0 < headDim <= |Q|
    requires IsMatrix(Q, |Q|, numHeads * headDim) && IsMatrix(K, |Q|, numHeads * headDim)
    ensures IsMatrix(a, |Q|, numHeads * headDim)
  {
    Concat(HeadScores(Q, K, numHeads, headDim, sqrt), |Q|, numHeads, headDim)
  }

  /** The two-layer MLP on every row: second(gelu(first(row))). */
  function Mlp(weights: BlockWeights, X: Matrix, embeddingSize: nat): (m: Matrix)
    requires weights.Shaped(embeddingSize) && IsMatrix(X, |X|, embeddingSize)
    ensures IsMatrix(m, |X|, embeddingSize)
  {
    seq(|X|, i requires 0 <= i < |X| =>
      weights.secondBlockMlp.Apply(GeluAsWritten(weights.firstBlockMlp.Apply(X[i]))))
  }

  /** What one block computes from its input x. */
  function BlockOutput(x: Matrix, cfg: Config, weights: BlockWeights, sqrt: Positive -> Positive)
    : (output: Matrix)
    requires cfg.Valid() && weights.Shaped(cfg.embeddingSize)
    requires IsMatrix(x, |x|, cfg.embeddingSize) && |x| >= cfg.headDim
    ensures IsMatrix(output, |x|, cfg.embeddingSize)
  {
    var normalizedX := Normalized(x, sqrt);
    var Q := Project(weights.qMlp, normalizedX);
    var K := Project(weights.kMlp, normalizedX);
    var a := MultiHead(Q, K, cfg.numHeads, cfg.headDim, sqrt);
    var xAdded := Added(x, a);
    var m := Mlp(weights, Normalized(xAdded, sqrt), cfg.embeddingSize);
    Added(xAdded, m)
  }

  /** Cell (i, d) of head h's score matrix is the scaled dot product of the
      head's query row i and key row d. */
  lemma HeadScoresAt(Q: Matrix, K: Matrix, numHeads: nat, headDim: nat, sqrt: Positive -> Positive,
                     h: nat, i: nat, d: nat)
    requires headDim > 0
    requires IsMatrix(Q, |Q|, numHeads * headDim) && IsMatrix(K, |Q|, numHeads * headDim)
    requires h < numHeads && i < |Q| && d < |Q|
    ensures HeadScores(Q, K, numHeads, headDim, sqrt)[h][i][d]
            == Dot(Split(Q, numHeads, headDim)[h][i], Split(K, numHeads, headDim)[h][d]) * Scale(headDim, sqrt)
  {
    var qHead := Split(Q, numHeads, headDim)[h];
    var kHead := Split(K, numHeads, headDim)[h];
    assert HeadScores(Q, K, numHeads, headDim, sqrt)[h] == Scores(qHead, kHead, headDim, Scale(headDim, sqrt));
  }

  /** Column h*headDim + d of row i of the attention output is the scaled dot
      product of head h's slice of query row i with head h's slice of KEY ROW d:
      with no softmax and no V, the head output's columns are key positions. */
  lemma MultiHeadAt(Q: Matrix, K: Matrix, numHeads: nat, headDim: nat, sqrt: Positive -> Positive,
                    i: nat, h: nat, d: nat)
    requires 0 < headDim <= |Q|
    requires IsMatrix(Q, |Q|, numHeads * headDim) && IsMatrix(K, |Q|, numHeads * headDim)
    requires i < |Q| && h < numHeads && d < headDim
    ensures h * headDim + headDim <= numHeads * headDim
    ensures MultiHead(Q, K, numHeads, headDim, sqrt)[i][h * headDim + d]
            == Dot(Q[i][h * headDim .. h * headDim + headDim], K[d][h * headDim .. h * headDim + headDim])
               * Scale(headDim, sqrt)
  {
    var H := HeadScores(Q, K, numHeads, headDim, sqrt);
    ConcatAt(H, |Q|, numHeads, headDim, i, h, d);
    HeadScoresAt(Q, K, numHeads, headDim, sqrt, h, i, d);
    SplitRow(Q, numHeads, headDim, h, i);
    SplitRow(K, numHeads, headDim, h, d);
  }

  /** With all-zero queries every head scores zero, so the attention output is zero. */
  lemma MultiHeadOfZeroQueries(Q: Matrix, K: Matrix, numHeads: nat, headDim: nat, sqrt: Positive -> Positive)
    requires 0 < headDim <= |Q|
    requires IsMatrix(Q, |Q|, numHeads * headDim) && IsMatrix(K, |Q|, numHeads * headDim)
    requires forall i, c :: 0 <= i < |Q| && 0 <= c < numHeads * headDim ==> Q[i][c] == 0.0
    ensures forall i, c :: 0 <= i < |Q| && 0 <= c < numHeads * headDim ==>
              MultiHead(Q, K, numHeads, headDim, sqrt)[i][c] == 0.0
  {
    var H := HeadScores(Q, K, numHeads, headDim, sqrt);
    forall i | 0 <= i < |Q|
      ensures forall c :: 0 <= c < numHeads * headDim ==> MultiHead(Q, K, numHeads, headDim, sqrt)[i][c] == 0.0
    {
      forall g, d | 0 <= g < numHeads && 0 <= d < headDim
        ensures H[g][i][d] == 0.0
      {
        SlotFits(g, numHeads, headDim);
        var lo := g * headDim;
        var q := Split(Q, numHeads, headDim)[g][i];
        assert q == Q[i][lo .. lo + headDim];
        DotZero(q, Split(K, numHeads, headDim)[g][d]);
      }
      ConcatRowOfZero(H, i, numHeads, headDim);
    }
  }

  /** A block whose query layer and second MLP layer are all zero passes its
      input through unchanged: both residual branches contribute nothing. */
  lemma ZeroBranchesGiveIdentity(x: Matrix, cfg: Config, weights: BlockWeights, sqrt: Positive -> Positive)
    requires cfg.Valid() && weights.Shaped(cfg.embeddingSize)
    requires IsMatrix(x, |x|, cfg.embeddingSize) && |x| >= cfg.headDim
    requires weights.qMlp.IsZero() && weights.secondBlockMlp.IsZero()
    ensures BlockOutput(x, cfg, weights, sqrt) == x
  {
    var E := cfg.embeddingSize;
    var normalizedX := Normalized(x, sqrt);
    var Q := Project(weights.qMlp, normalizedX);
    var K := Project(weights.kMlp, normalizedX);
    forall i | 0 <= i < |x|
      ensures forall c :: 0 <= c < E ==> Q[i][c] == 0.0
    {
      ZeroLayerGivesZero(weights.qMlp, normalizedX[i]);
    }
    var a := MultiHead(Q, K, cfg.numHeads, cfg.headDim, sqrt);
    MultiHeadOfZeroQueries(Q, K, cfg.numHeads, cfg.headDim, sqrt);
    AddZero(x, a, |x|, E);
    var xAdded := Added(x, a);
    var normalizedXAdded := Normalized(xAdded, sqrt);
    var m := Mlp(weights, normalizedXAdded, E);
    forall i | 0 <= i < |x|
      ensures forall c :: 0 <= c < E ==> m[i][c] == 0.0
    {
      var hidden := GeluAsWritten(weights.firstBlockMlp.Apply(normalizedXAdded[i]));
      ZeroLayerGivesZero(weights.secondBlockMlp, hidden);
    }
    AddZero(xAdded, m, |x|, E);
  }

  /** The Q, K and V projections of every normalised row, in one pass over the rows. */
  method Projections(normalizedX: Matrix, seqLength: nat, embeddingSize: nat, weights: BlockWeights)
    returns (Q: Matrix, K: Matrix, V: Matrix)
    requires embeddingSize % 4 == 0 && weights.Shaped(embeddingSize)
    requires IsMatrix(normalizedX, seqLength, embeddingSize)
    ensures Q == Project(weights.qMlp, normalizedX)
    ensures K == Project(weights.kMlp, normalizedX)
    ensures V == Project(weights.vMlp, normalizedX)
  {
    var q, k, v := weights.qMlp, weights.kMlp, weights.vMlp;
    Q, K, V := [], [], [];
    for i := 0 to seqLength
      invariant |Q| == |K| == |V| == i
      invariant forall r :: 0 <= r < i ==> Q[r] == q.Apply(normalizedX[r])
      invariant forall r :: 0 <= r < i ==> K[r] == k.Apply(normalizedX[r])
      invariant forall r :: 0 <= r < i ==> V[r] == v.Apply(normalizedX[r])
    {
      var qi := Linear.Linear(normalizedX[i], q.weights, q.biases, q.fcInputSize, q.fcOutputSize);
      var ki := Linear.Linear(normalizedX[i], k.weights, k.biases, k.fcInputSize, k.fcOutputSize);
      var vi := Linear.Linear(normalizedX[i], v.weights, v.biases, v.fcInputSize, v.fcOutputSize);
      assert qi == q.Apply(normalizedX[i]);
      assert ki == k.Apply(normalizedX[i]);
      assert vi == v.Apply(normalizedX[i]);
      Q, K, V := Q + [qi], K + [ki], V + [vi];
    }
  }

  /** Attention on every head in turn; the value heads are passed along and not read. */
  method AttendHeads(qHeads: seq<Matrix>, kHeads: seq<Matrix>, vHeads: seq<Matrix>,
                     ghost Q: Matrix, ghost K: Matrix, seqLength: nat, numHeads: nat, headDim: nat,
                     sqrt: Positive -> Positive)
    returns (headOutputs: seq<Matrix>)
    requires headDim > 0 && headDim % 4 == 0 && |Q| == seqLength
    requires IsMatrix(Q, seqLength, numHeads * headDim) && IsMatrix(K, seqLength, numHeads * headDim)
    requires qHeads == Split(Q, numHeads, headDim) && kHeads == Split(K, numHeads, headDim)
    requires |vHeads| == numHeads
    ensures headOutputs == HeadScores(Q, K, numHeads, headDim, sqrt)
  {
    headOutputs := [];
    for h := 0 to numHeads
      invariant |headOutputs| == h
      invariant forall g :: 0 <= g < h ==>
                  headOutputs[g] == Scores(qHeads[g], kHeads[g], headDim, Scale(headDim, sqrt))
    {
      ghost var writes;
      var scores;
      scores, writes := ScaledDotProductAttention(qHeads[h], kHeads[h], vHeads[h], seqLength, headDim, sqrt);
      headOutputs := headOutputs + [scores];
    }
  }

  /** second(gelu(first(row))) for every row, into fresh rows. */
  method MlpRows(normalizedXAdded: Matrix, seqLength: nat, embeddingSize: nat, weights: BlockWeights)
    returns (m: Matrix)
    requires embeddingSize % 4 == 0 && weights.Shaped(embeddingSize)
    requires IsMatrix(normalizedXAdded, seqLength, embeddingSize)
    ensures m == Mlp(weights, normalizedXAdded, embeddingSize)
  {
    var first, second := weights.firstBlockMlp, weights.secondBlockMlp;
    m := [];
    for i := 0 to seqLength
      invariant |m| == i
      invariant forall r :: 0 <= r < i ==>
                  m[r] == second.Apply(GeluAsWritten(first.Apply(normalizedXAdded[r])))
    {
      var firstMlpOut := Linear.Linear(normalizedXAdded[i], first.weights, first.biases,
                                       first.fcInputSize, first.fcOutputSize);
      assert firstMlpOut == first.Apply(normalizedXAdded[i]);
      var geluOut := Gelu(firstMlpOut, first.fcOutputSize);
      assert geluOut == GeluAsWritten(firstMlpOut);
      var mi := Linear.Linear(geluOut, second.weights, second.biases, second.fcInputSize, second.fcOutputSize);
      assert mi == second.Apply(geluOut);
      m := m + [mi];
    }
  }

  /** The block, stage by stage, each stage into fresh buffers. The head
      concatenation copies headDim entries out of every head-output row, which
      has seqLength entries, hence seqLength >= headDim. */
  method Block(x: Matrix, seqLength: nat, embeddingSize: nat, cfg: Config, weights: BlockWeights,
               sqrt: Positive -> Positive)
    returns (output: Matrix)
    requires cfg.Valid() && embeddingSize == cfg.embeddingSize
    requires weights.Shaped(embeddingSize)
    requires IsMatrix(x, seqLength, embeddingSize) && seqLength >= cfg.headDim
    ensures IsMatrix(output, seqLength, embeddingSize)
    ensures output == BlockOutput(x, cfg, weights, sqrt)
  {
    EmbeddingIsLaneMultiple(cfg);
    var numHeads, headDim := cfg.numHeads, cfg.headDim;
    var normalizedX := Norm(x, seqLength, embeddingSize, sqrt);
    assert normalizedX == Normalized(x, sqrt);
    var Q, K, V := Projections(normalizedX, seqLength, embeddingSize, weights);
    var qHeads := SplitHeads(Q, seqLength, numHeads, headDim);
    var kHeads := SplitHeads(K, seqLength, numHeads, headDim);
    var vHeads := SplitHeads(V, seqLength, numHeads, headDim);
    var headOutputs := AttendHeads(qHeads, kHeads, vHeads, Q, K, seqLength, numHeads, headDim, sqrt);
    var a := ConcatHeads(headOutputs, seqLength, numHeads, headDim, embeddingSize);
    assert a == MultiHead(Q, K, numHeads, headDim, sqrt);
    var xAdded := MatrixAdd(x, a, seqLength, embeddingSize);
    MatrixEq(xAdded, Added(x, a), seqLength, embeddingSize);
    var normalizedXAdded := Norm(xAdded, seqLength, embeddingSize, sqrt);
    assert normalizedXAdded == Normalized(xAdded, sqrt);
    var m := MlpRows(normalizedXAdded, seqLength, embeddingSize, weights);
    output := MatrixAdd(xAdded, m, seqLength, embeddingSize);
    MatrixEq(output, Added(xAdded, m), seqLength, embeddingSize);
  }
}
