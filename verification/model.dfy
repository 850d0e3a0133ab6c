/** The forward pass: token plus position embeddings, the blocks in order,
    and the logits of the last position only. */
module Gpt2 {
  import opened Tensor
  import opened Architecture
  import opened Linear
  import opened Elementwise
  import opened TransformerBlock

  /** The embedding tables (wte: vocabSize x embeddingSize, wpe:
      maxPositionEmbeddings x embeddingSize), one weight set per block, and
      the output projection onto the vocabulary. */
  datatype ModelWeights = ModelWeights(wpe: Matrix, wte: Matrix, blocks: seq<BlockWeights>, logitsMlp: Layer)
  {
    predicate Shaped(cfg: Config)
    {
      IsMatrix(wpe, cfg.maxPositionEmbeddings, cfg.embeddingSize)
      && IsMatrix(wte, cfg.vocabSize, cfg.embeddingSize)
      && |blocks| == cfg.numBlocks
      && AllShaped(blocks, cfg.embeddingSize)
      && logitsMlp.Shaped(cfg.embeddingSize, cfg.vocabSize)
    }
  }

  /** Every token id indexes a row of the token embedding table. */
  predicate ValidTokens(tokens: seq<int>, cfg: Config)
  {
    forall i :: 0 <= i < |tokens| ==> 0 <= tokens[i] < cfg.vocabSize
  }

  /** The embedding of `token` at `position`: the sum of the two table rows. */
  function EmbeddingRow(token: int, position: int, weights: ModelWeights, cfg: Config): (row: Vector)
    requires weights.Shaped(cfg)
    requires 0 <= token < cfg.vocabSize && 0 <= position < cfg.maxPositionEmbeddings
    ensures |row| == cfg.embeddingSize
  {
    seq(cfg.embeddingSize, j requires 0 <= j < cfg.embeddingSize =>
      weights.wte[token][j] + weights.wpe[position][j])
  }

  /** Row i is the embedding of token i at position i. */
  function Embed(tokens: seq<int>, weights: ModelWeights, cfg: Config): (h: Matrix)
    requires weights.Shaped(cfg) && ValidTokens(tokens, cfg)
    requires |tokens| <= cfg.maxPositionEmbeddings
    ensures IsMatrix(h, |tokens|, cfg.embeddingSize)
  {
    seq(|tokens|, i requires 0 <= i < |tokens| => EmbeddingRow(tokens[i], i, weights, cfg))
  }

  /** Every block's weights have the block's shapes. */
  predicate AllShaped(blocks: seq<BlockWeights>, embeddingSize: nat)
  {
    forall b :: 0 <= b < |blocks| ==> blocks[b].Shaped(embeddingSize)
  }

  /** The blocks applied to h in sequence order, blocks[0] first. */
  function Stack(h: Matrix, blocks: seq<BlockWeights>, cfg: Config, sqrt: Positive -> Positive): (r: Matrix)
    requires cfg.Valid() && AllShaped(blocks, cfg.embeddingSize)
    requires IsMatrix(h, |h|, cfg.embeddingSize) && |h| >= cfg.headDim
    ensures IsMatrix(r, |h|, cfg.embeddingSize)
    decreases |blocks|
  {
    if |blocks| == 0 then h
    else BlockOutput(Stack(h, blocks[..|blocks| - 1], cfg, sqrt), cfg, blocks[|blocks| - 1], sqrt)
  }

  /** The hidden state after every block. */
  function FinalHidden(tokens: seq<int>, weights: ModelWeights, cfg: Config, sqrt: Positive -> Positive)
    : (h: Matrix)
    requires cfg.Valid() && weights.Shaped(cfg) && ValidTokens(tokens, cfg)
    requires |tokens| <= cfg.maxPositionEmbeddings && |tokens| >= cfg.headDim
    ensures IsMatrix(h, |tokens|, cfg.embeddingSize)
  {
    Stack(Embed(tokens, weights, cfg), weights.blocks, cfg, sqrt)
  }

  /** The logits for the next token: the output projection of the last row only. */
  function Forward(tokens: seq<int>, weights: ModelWeights, cfg: Config, sqrt: Positive -> Positive)
    : (logits: Vector)
    requires cfg.Valid() && weights.Shaped(cfg) && ValidTokens(tokens, cfg)
    requires 1 <= |tokens| <= cfg.maxPositionEmbeddings && |tokens| >= cfg.headDim
    ensures |logits| == cfg.vocabSize
  {
    weights.logitsMlp.Apply(FinalHidden(tokens, weights, cfg, sqrt)[|tokens| - 1])
  }

  /** Dropping the last block of A + B, when B is non-empty, drops the last block of B. */
  lemma DropLastOfAppend(A: seq<BlockWeights>, B: seq<BlockWeights>)
    requires |B| > 0
    ensures (A + B)[..|A + B| - 1] == A + B[..|B| - 1]
  {
  }

  /** Concatenating two lists of shaped blocks gives a list of shaped blocks. */
  lemma AllShapedAppend(A: seq<BlockWeights>, B: seq<BlockWeights>, embeddingSize: nat)
    requires AllShaped(A, embeddingSize) && AllShaped(B, embeddingSize)
    ensures AllShaped(A + B, embeddingSize)
  {
    assert forall b :: 0 <= b < |A + B| ==> (A + B)[b] == if b < |A| then A[b] else B[b - |A|];
  }

  /** Applying the blocks of A + B is applying those of A, then those of B. */
  lemma {:induction false} StackComposes(h: Matrix, A: seq<BlockWeights>, B: seq<BlockWeights>,
                                         cfg: Config, sqrt: Positive -> Positive)
    requires cfg.Valid() && AllShaped(A, cfg.embeddingSize) && AllShaped(B, cfg.embeddingSize)
    requires IsMatrix(h, |h|, cfg.embeddingSize) && |h| >= cfg.headDim
    ensures AllShaped(A + B, cfg.embeddingSize)
    ensures Stack(h, A + B, cfg, sqrt) == Stack(Stack(h, A, cfg, sqrt), B, cfg, sqrt)
    decreases |B|
  {
    AllShapedAppend(A, B, cfg.embeddingSize);
    if |B| == 0 {
      assert A + B == A;
    } else {
      var front := B[..|B| - 1];
      StackComposes(h, A, front, cfg, sqrt);
      DropLastOfAppend(A, B);
    }
  }

  /** Blocks whose query layer and second MLP layer are zero leave the hidden state as it is. */
  lemma {:induction false} StackOfIdentityBlocks(h: Matrix, blocks: seq<BlockWeights>,
                                                 cfg: Config, sqrt: Positive -> Positive)
    requires cfg.Valid() && AllShaped(blocks, cfg.embeddingSize)
    requires forall b :: 0 <= b < |blocks| ==> blocks[b].qMlp.IsZero() && blocks[b].secondBlockMlp.IsZero()
    requires IsMatrix(h, |h|, cfg.embeddingSize) && |h| >= cfg.headDim
    ensures Stack(h, blocks, cfg, sqrt) == h
    decreases |blocks|
  {
    if |blocks| > 0 {
      StackOfIdentityBlocks(h, blocks[..|blocks| - 1], cfg, sqrt);
      ZeroBranchesGiveIdentity(h, cfg, blocks[|blocks| - 1], sqrt);
    }
  }

  /** Row i of the embedded tokens is token i's embedding at position i. */
  lemma EmbedAt(tokens: seq<int>, weights: ModelWeights, cfg: Config, i: nat)
    requires weights.Shaped(cfg) && ValidTokens(tokens, cfg)
    requires |tokens| <= cfg.maxPositionEmbeddings && i < |tokens|
    ensures Embed(tokens, weights, cfg)[i] == EmbeddingRow(tokens[i], i, weights, cfg)
  {
  }

  /** The logits are the output projection of the last row of any matrix
      equal to the final hidden state. */
  lemma ForwardIsLastRow(tokens: seq<int>, weights: ModelWeights, cfg: Config, sqrt: Positive -> Positive, h: Matrix)
    requires cfg.Valid() && weights.Shaped(cfg) && ValidTokens(tokens, cfg)
    requires 1 <= |tokens| <= cfg.maxPositionEmbeddings && |tokens| >= cfg.headDim
    requires h == FinalHidden(tokens, weights, cfg, sqrt)
    ensures |h| == |tokens| && |h[|tokens| - 1]| == cfg.embeddingSize
    ensures Forward(tokens, weights, cfg, sqrt) == weights.logitsMlp.Apply(h[|tokens| - 1])
  {
  }

  /** With such pass-through blocks the final hidden state is the embedding itself. */
  lemma FinalHiddenOfIdentityBlocks(tokens: seq<int>, weights: ModelWeights, cfg: Config, sqrt: Positive -> Positive)
    requires cfg.Valid() && weights.Shaped(cfg) && ValidTokens(tokens, cfg)
    requires |tokens| <= cfg.maxPositionEmbeddings && |tokens| >= cfg.headDim
    requires forall b :: 0 <= b < |weights.blocks| ==>
               weights.blocks[b].qMlp.IsZero() && weights.blocks[b].secondBlockMlp.IsZero()
    ensures FinalHidden(tokens, weights, cfg, sqrt) == Embed(tokens, weights, cfg)
  {
    StackOfIdentityBlocks(Embed(tokens, weights, cfg), weights.blocks, cfg, sqrt);
  }

  /** With such pass-through blocks the logits are the output projection of
      `row`, the last embedded row. */
  lemma ForwardProjectsLastEmbedding(tokens: seq<int>, weights: ModelWeights, cfg: Config, sqrt: Positive -> Positive,
                                     row: Vector)
    requires cfg.Valid() && weights.Shaped(cfg) && ValidTokens(tokens, cfg)
    requires 1 <= |tokens| <= cfg.maxPositionEmbeddings && |tokens| >= cfg.headDim
    requires forall b :: 0 <= b < |weights.blocks| ==>
               weights.blocks[b].qMlp.IsZero() && weights.blocks[b].secondBlockMlp.IsZero()
    requires row == Embed(tokens, weights, cfg)[|tokens| - 1]
    ensures |row| == cfg.embeddingSize
    ensures Forward(tokens, weights, cfg, sqrt) == weights.logitsMlp.Apply(row)
  {
    FinalHiddenOfIdentityBlocks(tokens, weights, cfg, sqrt);
  }

  /** With such pass-through blocks, the logits are the output projection of
      the last token's embedding at the last position. */
  lemma ForwardOfIdentityBlocks(tokens: seq<int>, weights: ModelWeights, cfg: Config, sqrt: Positive -> Positive)
    requires cfg.Valid() && weights.Shaped(cfg) && ValidTokens(tokens, cfg)
    requires 1 <= |tokens| <= cfg.maxPositionEmbeddings && |tokens| >= cfg.headDim
    requires forall b :: 0 <= b < |weights.blocks| ==>
               weights.blocks[b].qMlp.IsZero() && weights.blocks[b].secondBlockMlp.IsZero()
    ensures Forward(tokens, weights, cfg, sqrt)
            == weights.logitsMlp.Apply(EmbeddingRow(tokens[|tokens| - 1], |tokens| - 1, weights, cfg))
  {
    var last := EmbeddingRow(tokens[|tokens| - 1], |tokens| - 1, weights, cfg);
    EmbedAt(tokens, weights, cfg, |tokens| - 1);
    ForwardProjectsLastEmbedding(tokens, weights, cfg, sqrt, last);
  }

  /** The embedding sum over fresh rows: h[i][j] = wte[tokens[i]][j] + wpe[positions[i]][j]. */
  method EmbedTokens(tokens: seq<int>, positions: seq<int>, seqLength: nat, weights: ModelWeights, cfg: Config)
    returns (h: Matrix)
    requires weights.Shaped(cfg) && |tokens| == seqLength && ValidTokens(tokens, cfg)
    requires seqLength <= cfg.maxPositionEmbeddings
    requires |positions| == seqLength && forall i :: 0 <= i < seqLength ==> positions[i] == i
    ensures h == Embed(tokens, weights, cfg)
  {
    var E := cfg.embeddingSize;
    ghost var h0 := Embed(tokens, weights, cfg);
    h := [];
    for i := 0 to seqLength
      invariant |h| == i
      invariant forall r :: 0 <= r < i ==> h[r] == h0[r]
    {
      var row := new real[E];
      for j := 0 to E
        invariant forall c :: 0 <= c < j ==> row[c] == weights.wte[tokens[i]][c] + weights.wpe[i][c]
      {
        row[j] := weights.wte[tokens[i]][j] + weights.wpe[positions[i]][j];
      }
      assert row[..] == EmbeddingRow(tokens[i], i, weights, cfg);
      h := h + [row[..]];
    }
  }

  /** Each block in turn replaces the hidden state with its output. */
  method RunBlocks(h0: Matrix, seqLength: nat, cfg: Config, blocks: seq<BlockWeights>, sqrt: Positive -> Positive)
    returns (h: Matrix)
    requires cfg.Valid() && AllShaped(blocks, cfg.embeddingSize)
    requires IsMatrix(h0, seqLength, cfg.embeddingSize) && seqLength >= cfg.headDim
    ensures h == Stack(h0, blocks, cfg, sqrt)
  {
    h := h0;
    for b := 0 to |blocks|
      invariant h == Stack(h0, blocks[..b], cfg, sqrt)
    {
      h := Block(h, seqLength, cfg.embeddingSize, cfg, blocks[b], sqrt);
      assert blocks[..b + 1][..b] == blocks[..b];
    }
    assert blocks[..|blocks|] == blocks;
  }

  /** The output projection of row seqLength - 1 only. */
  method LastRowLogits(h: Matrix, seqLength: nat, embeddingSize: nat, logitsMlp: Layer)
    returns (logits: Vector)
    requires embeddingSize % 4 == 0 && seqLength >= 1
    requires IsMatrix(h, seqLength, embeddingSize)
    requires logitsMlp.Shaped(embeddingSize, logitsMlp.fcOutputSize)
    ensures logits == logitsMlp.Apply(h[seqLength - 1])
  {
    logits := Linear.Linear(h[seqLength - 1], logitsMlp.weights, logitsMlp.biases,
                            logitsMlp.fcInputSize, logitsMlp.fcOutputSize);
    assert logits == logitsMlp.Apply(h[seqLength - 1]);
  }

  /** The forward pass over fresh buffers: positions, the embedding sum, each
      block replacing the hidden state in turn, then the output projection of
      row seqLength - 1. */
  method Model(tokens: seq<int>, seqLength: nat, weights: ModelWeights, cfg: Config,
               sqrt: Positive -> Positive)
    returns (logits: Vector)
    requires cfg.Valid() && weights.Shaped(cfg)
    requires |tokens| == seqLength && ValidTokens(tokens, cfg)
    requires 1 <= seqLength <= cfg.maxPositionEmbeddings && seqLength >= cfg.headDim
    ensures |logits| == cfg.vocabSize
    ensures logits == Forward(tokens, weights, cfg, sqrt)
  {
    EmbeddingIsLaneMultiple(cfg);
    var pastLength := 0;
    var positions := PositionsFor(tokens, seqLength, pastLength);
    var h0 := EmbedTokens(tokens, positions, seqLength, weights, cfg);
    var h := RunBlocks(h0, seqLength, cfg, weights.blocks, sqrt);
    ForwardIsLastRow(tokens, weights, cfg, sqrt, h);
    logits := LastRowLogits(h, seqLength, cfg.embeddingSize, weights.logitsMlp);
  }
}
