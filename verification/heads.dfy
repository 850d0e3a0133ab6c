/** Splitting an embedding-wide matrix into per-head column slices, and
    concatenating per-head rows back into embedding-wide rows. */
module Heads {
  import opened Tensor

  /** Multiplication by a natural number is monotonic. */
  lemma {:induction false} MulMonotone(a: nat, b: nat, c: nat)
    requires a <= b
    ensures a * c <= b * c
    decreases c
  {
    if c > 0 {
      MulMonotone(a, b, c - 1);
      assert a * c == a * (c - 1) + a;
      assert b * c == b * (c - 1) + b;
    }
  }

  /** Head h's slot, columns h*headDim up to h*headDim + headDim, lies within the embedding. */
  lemma SlotFits(h: nat, numHeads: nat, headDim: nat)
    requires h < numHeads
    ensures h * headDim + headDim <= numHeads * headDim
  {
    MulMonotone(h + 1, numHeads, headDim);
    assert (h + 1) * headDim == h * headDim + headDim;
  }

  /** The first h slots end within the embedding. */
  lemma SlotsEnd(h: nat, numHeads: nat, headDim: nat)
    requires h <= numHeads
    ensures h * headDim <= numHeads * headDim
  {
    MulMonotone(h, numHeads, headDim);
  }

  /** Head h's columns of every row of X. */
  function HeadSlice(X: Matrix, h: nat, numHeads: nat, headDim: nat): (r: Matrix)
    requires h < numHeads && forall i :: 0 <= i < |X| ==> |X[i]| == numHeads * headDim
    ensures |r| == |X| && forall i :: 0 <= i < |X| ==> |r[i]| == headDim
  {
    SlotFits(h, numHeads, headDim);
    seq(|X|, i requires 0 <= i < |X| => X[i][h * headDim .. h * headDim + headDim])
  }

  /** All numHeads slices of X, in head order. */
  function Split(X: Matrix, numHeads: nat, headDim: nat): (r: seq<Matrix>)
    requires forall i :: 0 <= i < |X| ==> |X[i]| == numHeads * headDim
    ensures |r| == numHeads
    ensures forall h :: 0 <= h < numHeads ==> IsMatrix(r[h], |X|, headDim)
  {
    seq(numHeads, h requires 0 <= h < numHeads => HeadSlice(X, h, numHeads, headDim))
  }

  /** Every head has `rows` rows, each at least headDim wide. */
  predicate HeadsShaped(H: seq<Matrix>, rows: nat, numHeads: nat, headDim: nat)
  {
    |H| == numHeads
    && forall h :: 0 <= h < numHeads ==>
         |H[h]| == rows && forall i :: 0 <= i < rows ==> headDim <= |H[h][i]|
  }

  /** Row i of the concatenation of the first k heads: the first headDim
      entries of each head's row i, in head order. */
  function ConcatRow(H: seq<Matrix>, i: nat, k: nat, headDim: nat): (r: Vector)
    requires k <= |H|
    requires forall h :: 0 <= h < k ==> i < |H[h]| && headDim <= |H[h][i]|
    ensures |r| == k * headDim
  {
    if k == 0 then [] else ConcatRow(H, i, k - 1, headDim) + H[k - 1][i][..headDim]
  }

  /** Every row of the concatenation of all heads. */
  function Concat(H: seq<Matrix>, rows: nat, numHeads: nat, headDim: nat): (r: Matrix)
    requires HeadsShaped(H, rows, numHeads, headDim)
    ensures IsMatrix(r, rows, numHeads * headDim)
  {
    seq(rows, i requires 0 <= i < rows => ConcatRow(H, i, numHeads, headDim))
  }

  /** Column h*headDim + d of a concatenated row is entry d of head h's row. */
  lemma {:induction false} ConcatRowAt(H: seq<Matrix>, i: nat, k: nat, headDim: nat, h: nat, d: nat)
    requires k <= |H|
    requires forall g :: 0 <= g < k ==> i < |H[g]| && headDim <= |H[g][i]|
    requires h < k && d < headDim
    ensures h * headDim + d < k * headDim
    ensures ConcatRow(H, i, k, headDim)[h * headDim + d] == H[h][i][d]
  {
    SlotFits(h, k, headDim);
    if h < k - 1 {
      ConcatRowAt(H, i, k - 1, headDim, h, d);
    } else {
      assert h * headDim == (k - 1) * headDim;
    }
  }

  /** Heads whose rows start with headDim zeros concatenate to a zero row. */
  lemma {:induction false} ConcatRowOfZero(H: seq<Matrix>, i: nat, k: nat, headDim: nat)
    requires k <= |H|
    requires forall g :: 0 <= g < k ==> i < |H[g]| && headDim <= |H[g][i]|
    requires forall g, d :: 0 <= g < k && 0 <= d < headDim ==> H[g][i][d] == 0.0
    ensures forall c :: 0 <= c < k * headDim ==> ConcatRow(H, i, k, headDim)[c] == 0.0
  {
    if k > 0 {
      ConcatRowOfZero(H, i, k - 1, headDim);
      assert (k - 1) * headDim + headDim == k * headDim;
    }
  }

  /** Concatenating the slices of an embedding row's first k heads gives back its first k*headDim columns. */
  lemma {:induction false} ConcatRowOfSplit(X: Matrix, numHeads: nat, headDim: nat, i: nat, k: nat)
    requires forall r :: 0 <= r < |X| ==> |X[r]| == numHeads * headDim
    requires i < |X| && k <= numHeads
    ensures k * headDim <= |X[i]|
    ensures ConcatRow(Split(X, numHeads, headDim), i, k, headDim) == X[i][..k * headDim]
  {
    SlotsEnd(k, numHeads, headDim);
    if k > 0 {
      ConcatRowOfSplit(X, numHeads, headDim, i, k - 1);
      var S := Split(X, numHeads, headDim);
      var lo := (k - 1) * headDim;
      assert lo + headDim == k * headDim;
      assert S[k - 1][i] == X[i][lo .. lo + headDim];
      assert X[i][..k * headDim] == X[i][..lo] + X[i][lo .. lo + headDim];
    }
  }

  /** Splitting into heads and concatenating them back is the identity. */
  lemma ConcatOfSplit(X: Matrix, rows: nat, numHeads: nat, headDim: nat)
    requires IsMatrix(X, rows, numHeads * headDim)
    ensures Concat(Split(X, numHeads, headDim), rows, numHeads, headDim) == X
  {
    forall i | 0 <= i < rows
      ensures Concat(Split(X, numHeads, headDim), rows, numHeads, headDim)[i] == X[i]
    {
      ConcatRowOfSplit(X, numHeads, headDim, i, numHeads);
      assert X[i][..numHeads * headDim] == X[i];
    }
  }

  /** Splitting a concatenation gives back the first headDim entries of each
      head row; for heads exactly headDim wide, the heads themselves. */
  lemma SplitOfConcat(H: seq<Matrix>, rows: nat, numHeads: nat, headDim: nat)
    requires HeadsShaped(H, rows, numHeads, headDim)
    ensures forall h, i :: 0 <= h < numHeads && 0 <= i < rows ==>
              Split(Concat(H, rows, numHeads, headDim), numHeads, headDim)[h][i] == H[h][i][..headDim]
    ensures (forall h :: 0 <= h < numHeads ==> IsMatrix(H[h], rows, headDim)) ==>
              Split(Concat(H, rows, numHeads, headDim), numHeads, headDim) == H
  {
    var C := Concat(H, rows, numHeads, headDim);
    var S := Split(C, numHeads, headDim);
    forall h, i | 0 <= h < numHeads && 0 <= i < rows
      ensures S[h][i] == H[h][i][..headDim]
    {
      SlotFits(h, numHeads, headDim);
      var lo := h * headDim;
      assert S[h][i] == C[i][lo .. lo + headDim];
      assert C[i] == ConcatRow(H, i, numHeads, headDim);
      forall d | 0 <= d < headDim
        ensures S[h][i][d] == H[h][i][d]
      {
        ConcatRowAt(H, i, numHeads, headDim, h, d);
      }
    }
    if forall h :: 0 <= h < numHeads ==> IsMatrix(H[h], rows, headDim) {
      forall h | 0 <= h < numHeads
        ensures S[h] == H[h]
      {
        forall i | 0 <= i < rows
          ensures S[h][i] == H[h][i]
        {
          assert H[h][i][..headDim] == H[h][i];
        }
      }
    }
  }

  /** Head h's slice of row i is columns h*headDim up to h*headDim + headDim of row i. */
  lemma SplitRow(X: Matrix, numHeads: nat, headDim: nat, h: nat, i: nat)
    requires forall r :: 0 <= r < |X| ==> |X[r]| == numHeads * headDim
    requires h < numHeads && i < |X|
    ensures h * headDim + headDim <= numHeads * headDim
    ensures Split(X, numHeads, headDim)[h][i] == X[i][h * headDim .. h * headDim + headDim]
  {
    SlotFits(h, numHeads, headDim);
  }

  /** Entry d of head h's slice of row i is column h*headDim + d of row i. */
  lemma SplitAt(X: Matrix, numHeads: nat, headDim: nat, h: nat, i: nat, d: nat)
    requires forall r :: 0 <= r < |X| ==> |X[r]| == numHeads * headDim
    requires h < numHeads && i < |X| && d < headDim
    ensures h * headDim + d < numHeads * headDim
    ensures Split(X, numHeads, headDim)[h][i][d] == X[i][h * headDim + d]
  {
    SlotFits(h, numHeads, headDim);
    var lo := h * headDim;
    assert Split(X, numHeads, headDim)[h][i] == X[i][lo .. lo + headDim];
  }

  /** Column h*headDim + d of concatenated row i is entry d of head h's row i. */
  lemma ConcatAt(H: seq<Matrix>, rows: nat, numHeads: nat, headDim: nat, i: nat, h: nat, d: nat)
    requires HeadsShaped(H, rows, numHeads, headDim)
    requires i < rows && h < numHeads && d < headDim
    ensures h * headDim + d < numHeads * headDim
    ensures Concat(H, rows, numHeads, headDim)[i][h * headDim + d] == H[h][i][d]
  {
    ConcatRowAt(H, i, numHeads, headDim, h, d);
  }

  /** The memcpy of head h's slice out of every row of X into fresh rows. */
  method SliceHead(X: Matrix, seqLength: nat, h: nat, numHeads: nat, headDim: nat) returns (slices: Matrix)
    requires IsMatrix(X, seqLength, numHeads * headDim) && h < numHeads
    ensures slices == HeadSlice(X, h, numHeads, headDim)
  {
    SlotFits(h, numHeads, headDim);
    var lo := h * headDim;
    slices := [];
    for i := 0 to seqLength
      invariant |slices| == i
      invariant forall r :: 0 <= r < i ==> slices[r] == X[r][lo .. lo + headDim]
    {
      slices := slices + [X[i][lo .. lo + headDim]];
    }
  }

  /** The memcpy of every head's slice out of every row of X; by SplitAt,
      heads[h][i][d] = X[i][h*headDim + d]. */
  method SplitHeads(X: Matrix, seqLength: nat, numHeads: nat, headDim: nat) returns (heads: seq<Matrix>)
    requires IsMatrix(X, seqLength, numHeads * headDim)
    ensures heads == Split(X, numHeads, headDim)
  {
    heads := [];
    for h := 0 to numHeads
      invariant |heads| == h
      invariant forall g :: 0 <= g < h ==> heads[g] == HeadSlice(X, g, numHeads, headDim)
    {
      var slices := SliceHead(X, seqLength, h, numHeads, headDim);
      heads := heads + [slices];
    }
    assert heads == Split(X, numHeads, headDim);
  }

  /** The memcpy of each head's row i into its slot of a fresh embedding-wide row. */
  method ConcatRowOf(heads: seq<Matrix>, i: nat, numHeads: nat, headDim: nat, embeddingSize: nat)
    returns (r: Vector)
    requires embeddingSize == numHeads * headDim && numHeads <= |heads|
    requires forall h :: 0 <= h < numHeads ==> i < |heads[h]| && headDim <= |heads[h][i]|
    ensures r == ConcatRow(heads, i, numHeads, headDim)
  {
    var row := new real[embeddingSize];
    for h := 0 to numHeads
      invariant h * headDim <= embeddingSize
      invariant row[..h * headDim] == ConcatRow(heads, i, h, headDim)
    {
      SlotFits(h, numHeads, headDim);
      var lo := h * headDim;
      ghost var before := row[..];
      forall d | 0 <= d < headDim {
        row[lo + d] := heads[h][i][d];
      }
      assert row[..lo] == before[..lo];
      assert row[..lo + headDim] == row[..lo] + heads[h][i][..headDim];
      assert lo + headDim == (h + 1) * headDim;
    }
    assert row[..] == row[..numHeads * headDim];
    r := row[..];
  }

  /** Every concatenated row; by ConcatAt, a[i][h*headDim + d] = heads[h][i][d]. */
  method ConcatHeads(heads: seq<Matrix>, seqLength: nat, numHeads: nat, headDim: nat, embeddingSize: nat)
    returns (a: Matrix)
    requires embeddingSize == numHeads * headDim
    requires HeadsShaped(heads, seqLength, numHeads, headDim)
    ensures a == Concat(heads, seqLength, numHeads, headDim)
    ensures IsMatrix(a, seqLength, embeddingSize)
  {
    a := [];
    for i := 0 to seqLength
      invariant |a| == i
      invariant forall r :: 0 <= r < i ==> a[r] == ConcatRow(heads, r, numHeads, headDim)
    {
      var row := ConcatRowOf(heads, i, numHeads, headDim, embeddingSize);
      a := a + [row];
    }
  }
}
