# GPT-2 forward pass: a verified Dafny model of its index and shape logic

This project models the compute core of `gpt2/gpt2_optimized.c`, a GPT-2
shaped forward pass that is written as C loops over heap buffers. It covers
the following functions:

- `linear`: a matrix-vector product plus bias, with a 4-lane SIMD accumulator.
- `scaled_dot_product_attention`: a tiled 64 x 64 loop nest that writes
  `dot(Q[i], K[j]) / sqrt(depth)` into every cell of a seqLength x seqLength
  matrix. As written, it applies no softmax and never reads V.
- `matrix_add`: a 4-wide loop plus a remainder loop.
- `norm`: layer normalisation without learned scale or shift.
- `gelu`: as written, this is only `0.5 * x`.
- `positions_for`.
- `block`: Q/K/V projections, the per-head `memcpy` split, attention per
  head, the `memcpy` concatenation, two residual additions, and the
  two-layer MLP.
- `model`: the token plus position embedding, the blocks applied in order,
  and the logits of the last position only.

Values are exact reals, so the lane reassociation of the SIMD loops is exact.
Square root is a parameter `sqrt: Positive -> Positive`. The architectural
constants (lines 9-15) are a `Config` value. `Valid()` requires
`embeddingSize == numHeads * headDim`, `headDim > 0` and `headDim % 4 == 0`,
and `Gpt2Base` is the shape the source is compiled with.

Each kernel is a method that fills a freshly allocated `array` (an `array2`
for the attention tile nest) with the source's own loops. It returns the
snapshot as a `seq` value, so callers' inputs cannot change. Each method is
proved against a pure function:

- `Dot`, `Layer.Apply`, `Scores`, `Added`, `GeluAsWritten`;
- `NormRow`, `Split`, `Concat`, `BlockOutput`, `Stack`, `Forward`.

Lemmas then state what those functions promise.

The attention nest carries a ghost write-count map. Its postcondition says
that every cell was written exactly once. The source runs the nest with
OpenMP, and this is the property that makes the parallel writes disjoint.

Module layout, following the source:

| file | module | source |
|---|---|---|
| tensor.dfy | `Tensor` | vectors, matrices, sum, dot product, lane sums |
| architecture.dfy | `Architecture` | the `#define` constants |
| linear.dfy | `Linear` | `linear` |
| attention.dfy | `Attention` | `scaled_dot_product_attention` |
| elementwise.dfy | `Elementwise` | `matrix_add`, `gelu`, `positions_for` |
| layernorm.dfy | `LayerNorm` | `norm` |
| heads.dfy | `Heads` | head split and concatenation in `block` |
| block.dfy | `TransformerBlock` | `block` |
| model.dfy | `Gpt2` | `model` |

## Model

| member | source | states |
|---|---|---|
| Architecture.Gpt2BaseIsValid | gpt2/gpt2_optimized.c:9-15 | The compiled-in constants (768 = 12 heads x 64, head width a multiple of 4) form a valid configuration with HEAD_DIM = 64 |
| Architecture.EmbeddingIsLaneMultiple | gpt2/gpt2_optimized.c:10-13 | In a valid configuration the embedding width is a multiple of 4, so every 4-wide loop over an embedding row stays in bounds |
| Tensor.LanesAddUp | gpt2/gpt2_optimized.c:85-95 | The four lane sums of the 4-wide accumulator (lane k holds the products at indices 4q + k) add up to the plain dot product of the prefix covered so far |
| Tensor.DotIsLinear | gpt2/gpt2_optimized.c:85-95 | For u = a + c * b entry by entry, dot(w, u) = dot(w, a) + c * dot(w, b) |
| Linear.Layer.Apply | gpt2/gpt2_optimized.c:76-99 | A shaped layer maps an fcInputSize-vector to an fcOutputSize-vector; defined as entry i = biases[i] + dot(weights[i], x), the value the kernel computes |
| Linear.DotLanes | gpt2/gpt2_optimized.c:83-95 | The 4-lane accumulator loop, stepping 4 entries at a time over inputs whose length is a multiple of 4, returns exactly the dot product |
| Linear.Linear | gpt2/gpt2_optimized.c:76-99 | Requires fcInputSize % 4 == 0 and a fcOutputSize x fcInputSize weight matrix; the output has fcOutputSize entries and output[i] = biases[i] + dot(weights[i], fcInput) |
| Linear.ZeroLayerGivesZero | gpt2/gpt2_optimized.c:95 | A layer whose weights and biases are all zero maps every input to the zero vector |
| Linear.ApplyIsAffine | gpt2/gpt2_optimized.c:76-99 | A layer is affine: on u = a + c * b its output row i is the output on a plus c times (the output on b minus biases[i]) |
| Attention.Scale | gpt2/gpt2_optimized.c:110 | The scale factor 1 / sqrt(depth) is positive |
| Attention.Scores | gpt2/gpt2_optimized.c:102-151 | The score matrix of seqLength queries against seqLength keys is seqLength x seqLength |
| Attention.ScoresAt | gpt2/gpt2_optimized.c:141-144 | Cell (i, j) of the score matrix is dot(Q[i], K[j]) times the scale |
| Attention.FillCell | gpt2/gpt2_optimized.c:122-145 | Writing one cell adds exactly that cell to the written ones, with count 1, and it holds its scaled dot product |
| Attention.FillTileRow | gpt2/gpt2_optimized.c:122-145 | The column loop over j < bj + 64 and j < seqLength moves the nest from the start of row i of the tile to the start of row i + 1: the cells written so far, each once, are exactly those before that point, and each holds its value |
| Attention.FillTile | gpt2/gpt2_optimized.c:120-146 | The row loop over i < bi + 64 and i < seqLength, ragged edge tiles included, moves the nest from the start of a tile to the start of the next tile of the band with the same invariant |
| Attention.FillBand | gpt2/gpt2_optimized.c:118-147 | The tile loop over bj moves the nest from the start of a row band to the start of the next band with the same invariant |
| Attention.FillAll | gpt2/gpt2_optimized.c:116-148 | After the band loop over bi every cell of the seqLength x seqLength buffer has been written exactly once and the buffer holds the score matrix |
| Attention.ScaledDotProductAttention | gpt2/gpt2_optimized.c:102-151 | Requires depth > 0 and depth % 4 == 0 (V has no requirement, it is never read); the output is seqLength x seqLength, output[i][j] = dot(Q[i], K[j]) * (1 / sqrt(depth)) for every cell, including cells of partial edge tiles, and every cell was written exactly once |
| Elementwise.Added | gpt2/gpt2_optimized.c:154-179 | The cell-wise sum of two same-shaped matrices has their shape; defined as r[i][j] = x[i][j] + y[i][j], the value both residual additions (lines 309, 336) compute |
| Elementwise.MatrixAdd | gpt2/gpt2_optimized.c:154-179 | Requires numCol % 4 == 0 (the 4-wide loop's bound); result is numRow x numCol with result[i][j] = x[i][j] + y[i][j] |
| Elementwise.AddTail | gpt2/gpt2_optimized.c:171-175 | The remainder loop writes x[j] + y[j] into the columns from its start on and leaves every earlier column as it was |
| Elementwise.AddZero | gpt2/gpt2_optimized.c:309 | Adding an all-zero matrix is the identity, so a residual branch that contributes zero leaves its input unchanged |
| Elementwise.Gelu | gpt2/gpt2_optimized.c:213-227 | Requires size % 4 == 0; output[k] = 0.5 * x[k] for every k < size, with no tanh term |
| Elementwise.GeluAsWritten | gpt2/gpt2_optimized.c:213-227 | The activation keeps the vector's length; defined as r[k] = x[k] * 0.5, the scaling at line 222 without the tanh factor of the comment at line 221 |
| Elementwise.GeluIsLinear | gpt2/gpt2_optimized.c:221-222 | Without the tanh factor the activation is linear: on u = a + c * b it gives gelu(a) + c * gelu(b) entry by entry, so the MLP (two affine layers around it) is an affine map |
| Elementwise.PositionsFor | gpt2/gpt2_optimized.c:230-238 | positions has seqLength entries and positions[i] = pastLength + i; the tokens are not read |
| LayerNorm.SquaredDeviation | gpt2/gpt2_optimized.c:196-200 | The running sum of squared deviations is never negative |
| LayerNorm.Variance | gpt2/gpt2_optimized.c:196-201 | The biased variance of a non-empty row is never negative |
| LayerNorm.NormRow | gpt2/gpt2_optimized.c:186-207 | A normalised row has the row's length; defined as (x[j] - mean) / sqrt(variance + EPSILON) with the biased variance, and an empty row stays empty |
| LayerNorm.Normalized | gpt2/gpt2_optimized.c:182-210 | Normalising a matrix keeps its shape; row i is NormRow of input row i |
| LayerNorm.RowMean | gpt2/gpt2_optimized.c:189-194 | The first pass returns Sum(row) / features for a non-empty row |
| LayerNorm.RowVariance | gpt2/gpt2_optimized.c:196-201 | The second pass returns a non-negative value, the sum of (x[j] - mean)^2 divided by features for a non-empty row |
| LayerNorm.NormalizeRow | gpt2/gpt2_optimized.c:187-207 | The three passes over one row give (x[j] - mean) / sqrt(variance + EPSILON) for every j |
| LayerNorm.Norm | gpt2/gpt2_optimized.c:182-210 | The output has the input's shape and row i is the normalisation of input row i alone |
| LayerNorm.SumShifted | gpt2/gpt2_optimized.c:196-206 | Subtracting m from every entry lowers the sum by |v| copies of m |
| LayerNorm.SumScaled | gpt2/gpt2_optimized.c:206 | Multiplying every entry by r multiplies the sum by r |
| LayerNorm.DeviationsSumToZero | gpt2/gpt2_optimized.c:189-206 | The deviations of a non-empty row from its own mean (lines 189-194) sum to zero |
| LayerNorm.NormRowIsCentred | gpt2/gpt2_optimized.c:203-207 | A normalised row sums to exactly zero |
| LayerNorm.NormRowSign | gpt2/gpt2_optimized.c:206 | normalized[i][j] is positive, negative or zero exactly when x[i][j] is above, below or equal to the row mean |
| Heads.Split | gpt2/gpt2_optimized.c:266-284 | There are NUM_HEADS head matrices, each seqLength x HEAD_DIM |
| Heads.Concat | gpt2/gpt2_optimized.c:297-306 | The concatenation of NUM_HEADS head outputs is seqLength x (NUM_HEADS * HEAD_DIM) |
| Heads.HeadSlice | gpt2/gpt2_optimized.c:280-282 | Head h's slice is |X| rows of HEAD_DIM entries each; row i is X[i][h*HEAD_DIM .. h*HEAD_DIM + HEAD_DIM], the block each memcpy copies |
| Heads.ConcatRow | gpt2/gpt2_optimized.c:302-305 | The first k heads' row i, concatenated, has k * HEAD_DIM entries: slot h holds the first HEAD_DIM entries of head h's row i |
| Heads.SliceHead | gpt2/gpt2_optimized.c:274-283 | Copying head h's HEAD_DIM columns out of every row gives that head's slice |
| Heads.SplitHeads | gpt2/gpt2_optimized.c:266-284 | The copy loops produce exactly Split: one slice per head, in head order |
| Heads.SplitRow | gpt2/gpt2_optimized.c:280-282 | Head h's row i is columns h*HEAD_DIM up to h*HEAD_DIM + HEAD_DIM of row i, and that slot lies within the embedding |
| Heads.SplitAt | gpt2/gpt2_optimized.c:280-282 | Q_heads[h][i][d] = Q[i][h*HEAD_DIM + d] for h < NUM_HEADS and d < HEAD_DIM, and that column is in bounds |
| Heads.ConcatRowOf | gpt2/gpt2_optimized.c:299-305 | Copying every head's row i into its slot of a fresh embedding-wide row gives the concatenated row |
| Heads.ConcatHeads | gpt2/gpt2_optimized.c:297-306 | Requires embeddingSize == NUM_HEADS * HEAD_DIM and head rows at least HEAD_DIM long; the result is seqLength x embeddingSize and equals Concat |
| Heads.ConcatAt | gpt2/gpt2_optimized.c:304 | a[i][h*HEAD_DIM + d] = head_outputs[h][i][d], and that column is in bounds |
| Heads.ConcatRowOfSplit | gpt2/gpt2_optimized.c:280-304 | Concatenating the first k head slices of row i gives back the first k * HEAD_DIM entries of row i |
| Heads.ConcatRowOfZero | gpt2/gpt2_optimized.c:304 | Concatenating all-zero head rows gives an all-zero row |
| Heads.ConcatOfSplit | gpt2/gpt2_optimized.c:266-306 | Splitting an embedding-wide matrix into heads and concatenating them back gives the matrix itself |
| Heads.SplitOfConcat | gpt2/gpt2_optimized.c:266-306 | Splitting a concatenation gives back the first HEAD_DIM entries of every head row, and the heads themselves when they are exactly HEAD_DIM wide |
| TransformerBlock.HeadScores | gpt2/gpt2_optimized.c:291-295 | There is one seqLength x seqLength score matrix per head; head h's is Scores of head h's slices of Q and K with scale 1 / sqrt(HEAD_DIM) |
| TransformerBlock.MultiHead | gpt2/gpt2_optimized.c:287-306 | The attention output (per-head attention, then the concatenation) is seqLength x (NUM_HEADS * HEAD_DIM); it is Concat of HeadScores |
| TransformerBlock.Project | gpt2/gpt2_optimized.c:257-262 | Applying a layer to every row gives a |X| x fcOutputSize matrix whose row i is the layer applied to row i |
| TransformerBlock.Mlp | gpt2/gpt2_optimized.c:317-333 | The two-layer MLP maps seqLength x embeddingSize back to seqLength x embeddingSize through the hidden width |
| TransformerBlock.BlockOutput | gpt2/gpt2_optimized.c:241-378 | A block keeps the hidden state seqLength x embeddingSize |
| TransformerBlock.Projections | gpt2/gpt2_optimized.c:254-262 | The one pass over the rows gives Q, K and V as the q, k and v layers applied to every normalised row |
| TransformerBlock.AttendHeads | gpt2/gpt2_optimized.c:287-295 | Attention on head h of Q and K, for every head in order, gives each head's score matrix scaled by 1 / sqrt(HEAD_DIM) |
| TransformerBlock.MlpRows | gpt2/gpt2_optimized.c:315-333 | m[i] = second(gelu(first(normalized_x_added[i]))) for every row |
| TransformerBlock.HeadScoresAt | gpt2/gpt2_optimized.c:294 | Cell (i, d) of head h's output is the scaled dot product of head h's query row i and key row d |
| TransformerBlock.MultiHeadAt | gpt2/gpt2_optimized.c:280-304 | a[i][h*HEAD_DIM + d] is the scaled dot product of head h's slice of Q[i] with head h's slice of K[d]: without softmax or V, the concatenated columns index key positions |
| TransformerBlock.MultiHeadOfZeroQueries | gpt2/gpt2_optimized.c:287-306 | With all-zero queries the concatenated attention output is all zero |
| TransformerBlock.Block | gpt2/gpt2_optimized.c:241-378 | Requires a valid configuration, shaped weights and seqLength >= HEAD_DIM; the output is seqLength x embeddingSize and equals BlockOutput: x_added = x + concat(heads), output = x_added + MLP(norm(x_added)) |
| TransformerBlock.ZeroBranchesGiveIdentity | gpt2/gpt2_optimized.c:309-336 | A block whose query layer and second MLP layer are all zero returns its input unchanged: both residual branches add zero |
| Gpt2.EmbeddingRow | gpt2/gpt2_optimized.c:395 | A token's embedding at a position has embeddingSize entries; entry j is wte[token][j] + wpe[position][j] |
| Gpt2.Embed | gpt2/gpt2_optimized.c:389-397 | The embedded tokens form a seqLength x embeddingSize matrix |
| Gpt2.EmbedAt | gpt2/gpt2_optimized.c:389-397 | Row i of the embedded tokens is EmbeddingRow(tokens[i], i) |
| Gpt2.EmbedTokens | gpt2/gpt2_optimized.c:388-397 | h[i][j] = wte[tokens[i]][j] + wpe[positions[i]][j] with positions[i] = i, for every row and column |
| Gpt2.Stack | gpt2/gpt2_optimized.c:403-413 | Applying any number of blocks keeps the hidden state seqLength x embeddingSize |
| Gpt2.RunBlocks | gpt2/gpt2_optimized.c:403-413 | The loop that replaces h by block(h) for each block in index order computes Stack over the blocks |
| Gpt2.StackComposes | gpt2/gpt2_optimized.c:403-413 | Applying the blocks of A + B is applying those of A and then those of B |
| Gpt2.StackOfIdentityBlocks | gpt2/gpt2_optimized.c:403-413 | A chain of blocks whose query layer and second MLP layer are zero leaves the hidden state unchanged |
| Gpt2.LastRowLogits | gpt2/gpt2_optimized.c:416-417 | The logits are the output layer applied to row seqLength - 1 only |
| Gpt2.FinalHidden | gpt2/gpt2_optimized.c:388-413 | The hidden state after the embedding and every block is seqLength x embeddingSize; it is Stack over the embedded tokens |
| Gpt2.ForwardIsLastRow | gpt2/gpt2_optimized.c:416-417 | For any matrix equal to the final hidden state, the logits are the output layer applied to its row seqLength - 1 |
| Gpt2.Forward | gpt2/gpt2_optimized.c:381-427 | The logits have vocabSize entries |
| Gpt2.FinalHiddenOfIdentityBlocks | gpt2/gpt2_optimized.c:388-413 | With pass-through blocks the final hidden state is the embedding sum itself |
| Gpt2.ForwardProjectsLastEmbedding | gpt2/gpt2_optimized.c:403-417 | With pass-through blocks the logits are the output layer applied to the last embedded row |
| Gpt2.ForwardOfIdentityBlocks | gpt2/gpt2_optimized.c:381-427 | With pass-through blocks the logits are the output layer applied to the last token's embedding at the last position |
| Gpt2.Model | gpt2/gpt2_optimized.c:381-427 | Requires 1 <= seqLength <= maxPositionEmbeddings, 0 <= tokens[i] < vocabSize, seqLength >= HEAD_DIM, a valid configuration and shaped weights; returns vocabSize logits equal to Forward: positions from 0, the embedding sum, every block in index order, the output layer on the last row |

## Left out

- Floating point: values are exact reals. Float rounding, NaN and the order of the float additions are not modelled, and the lane reassociation is exact here but not in IEEE arithmetic.
- `sqrt` (lines 110 and 206) is a parameter, any function into the positive reals, rather than the C library square root.
- SIMD intrinsics are modelled as 4-wide loops and lane sums. The 16-byte alignment that `_mm_load_ps` in the attention kernel needs (lines 130-131) is not modelled.
- OpenMP (line 115): the tile nest runs sequentially in the source's loop order. Disjointness of the parallel writes shows up only as "each cell written exactly once".
- `malloc`/`free` and the freeing loops (lines 339-375, 400, 407-411, 420-424): every buffer is a fresh Dafny array whose contents are returned as a value.
- C `int` overflow of index arithmetic such as `h * HEAD_DIM` is not modelled; indices are unbounded integers.
- The driver and weight set-up are not part of this model: `initialize_linear_layer`, `initialize_weights` (which calls `rand`), `free_linear_layer`, `free_weights`, and `main` with its timing, printing and argmax. The unused `Tensor3D`, `Tensor2D` and `MatmulType` declarations are also not modelled.
- The V projection and V heads are computed and passed to attention as in the source, but attention never reads them. Softmax and the weighting by V are absent from the source, and so from the model.
- The tanh factor of GELU in the comment at line 221 is not applied by the code, and so not by the model.
- TransformerBlock.Block and Gpt2.Model require seqLength >= HEAD_DIM. The concatenation copies HEAD_DIM entries out of each head-output row, which holds only seqLength entries. Below that bound the source reads past the row; that undefined behaviour is not modelled. The source's own `main` runs with seqLength 16 and HEAD_DIM 64, which is below this bound.
- LayerNorm.RowMean and LayerNorm.RowVariance skip the division when a row has no features. The source divides 0 by 0 there, but the value is never used.
- Elementwise.MatrixAdd requires numCol % 4 == 0, as the 4-wide loop needs it to stay in bounds. The remainder loop (Elementwise.AddTail) is therefore empty whenever it runs in this model.
- Heads.SplitHeads and Heads.ConcatHeads state equality with `Split` and `Concat`. The per-entry index formulas are the lemmas Heads.SplitAt and Heads.ConcatAt, not quantified postconditions of the methods.
