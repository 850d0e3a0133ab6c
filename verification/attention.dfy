/** Scaled dot-product attention scores for one head, computed tile by tile
    over 64 x 64 tiles of the score matrix. As in the source, no softmax is
    applied and V is never read. */
module Attention {
  import opened Tensor
  import Linear

  /** The side of a square tile of the score matrix. */
  const BLOCK_SIZE: nat := 64

  /** 1 / sqrt(depth). */
  function Scale(depth: nat, sqrt: Positive -> Positive): (s: real)
    requires depth > 0
    ensures s > 0.0
  {
    1.0 / sqrt(depth as real)
  }

  /** The square matrix of scaled dot products of every query row with every key row. */
  function Scores(Q: Matrix, K: Matrix, depth: nat, scale: real): (r: Matrix)
    requires IsMatrix(Q, |Q|, depth) && IsMatrix(K, |Q|, depth)
    ensures IsMatrix(r, |Q|, |Q|)
  {
    seq(|Q|, i requires 0 <= i < |Q| =>
      seq(|Q|, j requires 0 <= j < |Q| => Dot(Q[i], K[j]) * scale))
  }

  /** Cell (i, j) of the score matrix is the scaled dot product of query row i and key row j. */
  lemma ScoresAt(Q: Matrix, K: Matrix, depth: nat, scale: real)
    requires IsMatrix(Q, |Q|, depth) && IsMatrix(K, |Q|, depth)
    ensures forall i, j :: 0 <= i < |Q| && 0 <= j < |Q| ==>
              Scores(Q, K, depth, scale)[i][j] == Dot(Q[i], K[j]) * scale
  {
  }

  /** Cell (r, c) is done at the point of the tile nest where the current
      tile starts at (bi, bj) and the current cell is (i, j): it lies in an
      earlier row band, in an earlier tile of this band, in an earlier row
      of this tile, or earlier in this row of this tile. */
  ghost predicate Done(bi: int, bj: int, i: int, j: int, r: int, c: int)
  {
    r < bi
    || (r < bi + BLOCK_SIZE && c < bj)
    || (bi <= r < i && bj <= c < bj + BLOCK_SIZE)
    || (r == i && bj <= c < j)
  }

  /** Every cell has been written once if it is done and never otherwise. */
  ghost predicate Counted(count: map<(int, int), nat>, n: int, bi: int, bj: int, i: int, j: int)
  {
    forall r, c :: 0 <= r < n && 0 <= c < n ==>
      (r, c) in count && count[(r, c)] == if Done(bi, bj, i, j, r, c) then 1 else 0
  }

  /** Every done cell holds its scaled dot product. */
  ghost predicate Filled(out: array2<real>, Q: Matrix, K: Matrix, depth: nat, scale: real,
                         bi: int, bj: int, i: int, j: int)
    reads out
  {
    IsMatrix(Q, |Q|, depth) && IsMatrix(K, |Q|, depth)
    && out.Length0 == |Q| && out.Length1 == |Q|
    && forall r, c :: 0 <= r < |Q| && 0 <= c < |Q| && Done(bi, bj, i, j, r, c) ==>
         out[r, c] == Dot(Q[r], K[c]) * scale
  }

  /** The two points of the tile nest have done the same cells. */
  ghost predicate SameDone(n: int, bi: int, bj: int, i: int, j: int, bi': int, bj': int, i': int, j': int)
  {
    forall r, c :: 0 <= r < n && 0 <= c < n ==>
      (Done(bi, bj, i, j, r, c) <==> Done(bi', bj', i', j', r, c))
  }

  /** Writing cell (i, j) adds exactly that cell to the done ones. */
  lemma DoneCell(n: int, bi: int, bj: int, i: int, j: int)
    requires bi <= i && bj <= j
    ensures !Done(bi, bj, i, j, i, j)
    ensures forall r, c :: 0 <= r < n && 0 <= c < n ==>
              (Done(bi, bj, i, j + 1, r, c) <==> Done(bi, bj, i, j, r, c) || (r == i && c == j))
  {
  }

  /** Leaving the column loop of a tile row is moving to the next row. */
  lemma RowEnd(n: int, bi: int, bj: int, i: int, j: int)
    requires bi <= i < n && bj <= j <= bj + BLOCK_SIZE && !(j < bj + BLOCK_SIZE && j < n)
    ensures SameDone(n, bi, bj, i, j, bi, bj, i + 1, bj)
  {
  }

  /** Leaving the row loop of a tile is moving to the next tile of the band. */
  lemma TileEnd(n: int, bi: int, bj: int, i: int)
    requires bi <= i <= bi + BLOCK_SIZE && 0 <= bj && !(i < bi + BLOCK_SIZE && i < n)
    ensures SameDone(n, bi, bj, i, bj, bi, bj + BLOCK_SIZE, bi, bj + BLOCK_SIZE)
  {
  }

  /** Leaving the tile loop of a band is moving to the next band. */
  lemma BandEnd(n: int, bi: int, bj: int)
    requires 0 <= bi && n <= bj
    ensures SameDone(n, bi, bj, bi, bj, bi + BLOCK_SIZE, 0, bi + BLOCK_SIZE, 0)
  {
  }

  lemma CountedMoves(count: map<(int, int), nat>, n: int, bi: int, bj: int, i: int, j: int,
                     bi': int, bj': int, i': int, j': int)
    requires Counted(count, n, bi, bj, i, j) && SameDone(n, bi, bj, i, j, bi', bj', i', j')
    ensures Counted(count, n, bi', bj', i', j')
  {
  }

  lemma FilledMoves(out: array2<real>, Q: Matrix, K: Matrix, depth: nat, scale: real,
                    bi: int, bj: int, i: int, j: int, bi': int, bj': int, i': int, j': int)
    requires Filled(out, Q, K, depth, scale, bi, bj, i, j)
    requires SameDone(|Q|, bi, bj, i, j, bi', bj', i', j')
    ensures Filled(out, Q, K, depth, scale, bi', bj', i', j')
  {
  }

  /** The contents of a 2-D buffer as a matrix value. */
  function Snapshot(out: array2<real>): (m: Matrix)
    reads out
    ensures IsMatrix(m, out.Length0, out.Length1)
    ensures forall r, c :: 0 <= r < out.Length0 && 0 <= c < out.Length1 ==> m[r][c] == out[r, c]
  {
    seq(out.Length0, r requires 0 <= r < out.Length0 reads out =>
      seq(out.Length1, c requires 0 <= c < out.Length1 reads out => out[r, c]))
  }

  /** Once the band start has passed the last row, every cell is filled,
      and the buffer's snapshot is the score matrix. */
  lemma FilledAll(out: array2<real>, Q: Matrix, K: Matrix, depth: nat, scale: real, bi: int)
    requires Filled(out, Q, K, depth, scale, bi, 0, bi, 0) && |Q| <= bi
    ensures Snapshot(out) == Scores(Q, K, depth, scale)
  {
    var n := |Q|;
    forall r, c | 0 <= r < n && 0 <= c < n
      ensures Snapshot(out)[r][c] == Scores(Q, K, depth, scale)[r][c]
    {
      assert Done(bi, 0, bi, 0, r, c);
    }
    MatrixEq(Snapshot(out), Scores(Q, K, depth, scale), n, n);
  }

  /** Before the nest starts, no cell is done and none has been written. */
  lemma NothingDone(n: int, count: map<(int, int), nat>)
    requires count == map r, c | 0 <= r < n && 0 <= c < n :: (r, c) := 0
    ensures Counted(count, n, 0, 0, 0, 0)
  {
    forall r, c | 0 <= r < n && 0 <= c < n
      ensures (r, c) in count && count[(r, c)] == 0
    {
      assert (r, c) in count;
    }
  }

  /** Once the band start has passed the last row, every cell was written once. */
  lemma CountedAll(count: map<(int, int), nat>, n: int, bi: int)
    requires Counted(count, n, bi, 0, bi, 0) && n <= bi
    ensures forall r, c :: 0 <= r < n && 0 <= c < n ==> (r, c) in count && count[(r, c)] == 1
  {
    forall r, c | 0 <= r < n && 0 <= c < n
      ensures (r, c) in count && count[(r, c)] == 1
    {
      assert Done(bi, 0, bi, 0, r, c);
    }
  }

  /** Cell (i, j): the 4-lane dot product of query row i and key row j,
      scaled; the cell's write count goes up by one. */
  method FillCell(out: array2<real>, Q: Matrix, K: Matrix, depth: nat, scale: real,
                  bi: nat, bj: nat, i: nat, j: nat, ghost writes0: map<(int, int), nat>)
    returns (ghost writes: map<(int, int), nat>)
    requires depth % 4 == 0
    requires bi <= i < |Q| && bj <= j < |Q|
    requires Counted(writes0, |Q|, bi, bj, i, j)
    requires Filled(out, Q, K, depth, scale, bi, bj, i, j)
    modifies out
    ensures Counted(writes, |Q|, bi, bj, i, j + 1)
    ensures Filled(out, Q, K, depth, scale, bi, bj, i, j + 1)
  {
    var n := |Q|;
    DoneCell(n, bi, bj, i, j);
    var dot := Linear.DotLanes(Q[i], K[j]);
    out[i, j] := dot * scale;
    writes := writes0[(i, j) := writes0[(i, j)] + 1];
  }

  /** One row of one tile: the cells (i, j) for j from bj up to the tile's
      edge or the matrix's, each set to its scaled dot product. */
  method FillTileRow(out: array2<real>, Q: Matrix, K: Matrix, depth: nat, scale: real,
                     bi: nat, bj: nat, i: nat, ghost writes0: map<(int, int), nat>)
    returns (ghost writes: map<(int, int), nat>)
    requires depth % 4 == 0
    requires bi <= i < bi + BLOCK_SIZE && i < |Q| && bj < |Q|
    requires Counted(writes0, |Q|, bi, bj, i, bj)
    requires Filled(out, Q, K, depth, scale, bi, bj, i, bj)
    modifies out
    ensures Counted(writes, |Q|, bi, bj, i + 1, bj)
    ensures Filled(out, Q, K, depth, scale, bi, bj, i + 1, bj)
  {
    var n := |Q|;
    writes := writes0;
    var j := bj;
    while j < bj + BLOCK_SIZE && j < n
      invariant bj <= j <= bj + BLOCK_SIZE
      invariant Counted(writes, n, bi, bj, i, j)
      invariant Filled(out, Q, K, depth, scale, bi, bj, i, j)
    {
      writes := FillCell(out, Q, K, depth, scale, bi, bj, i, j, writes);
      j := j + 1;
    }
    RowEnd(n, bi, bj, i, j);
    CountedMoves(writes, n, bi, bj, i, j, bi, bj, i + 1, bj);
    FilledMoves(out, Q, K, depth, scale, bi, bj, i, j, bi, bj, i + 1, bj);
  }

  /** One tile: its rows from bi up to the tile's edge or the matrix's. */
  method FillTile(out: array2<real>, Q: Matrix, K: Matrix, depth: nat, scale: real,
                  bi: nat, bj: nat, ghost writes0: map<(int, int), nat>)
    returns (ghost writes: map<(int, int), nat>)
    requires depth % 4 == 0
    requires bi < |Q| && bj < |Q|
    requires Counted(writes0, |Q|, bi, bj, bi, bj)
    requires Filled(out, Q, K, depth, scale, bi, bj, bi, bj)
    modifies out
    ensures Counted(writes, |Q|, bi, bj + BLOCK_SIZE, bi, bj + BLOCK_SIZE)
    ensures Filled(out, Q, K, depth, scale, bi, bj + BLOCK_SIZE, bi, bj + BLOCK_SIZE)
  {
    var n := |Q|;
    writes := writes0;
    var i := bi;
    while i < bi + BLOCK_SIZE && i < n
      invariant bi <= i <= bi + BLOCK_SIZE
      invariant Counted(writes, n, bi, bj, i, bj)
      invariant Filled(out, Q, K, depth, scale, bi, bj, i, bj)
    {
      writes := FillTileRow(out, Q, K, depth, scale, bi, bj, i, writes);
      i := i + 1;
    }
    TileEnd(n, bi, bj, i);
    CountedMoves(writes, n, bi, bj, i, bj, bi, bj + BLOCK_SIZE, bi, bj + BLOCK_SIZE);
    FilledMoves(out, Q, K, depth, scale, bi, bj, i, bj, bi, bj + BLOCK_SIZE, bi, bj + BLOCK_SIZE);
  }

  /** One band of rows: its tiles from left to right. */
  method FillBand(out: array2<real>, Q: Matrix, K: Matrix, depth: nat, scale: real,
                  bi: nat, ghost writes0: map<(int, int), nat>)
    returns (ghost writes: map<(int, int), nat>)
    requires depth % 4 == 0
    requires bi < |Q|
    requires Counted(writes0, |Q|, bi, 0, bi, 0)
    requires Filled(out, Q, K, depth, scale, bi, 0, bi, 0)
    modifies out
    ensures Counted(writes, |Q|, bi + BLOCK_SIZE, 0, bi + BLOCK_SIZE, 0)
    ensures Filled(out, Q, K, depth, scale, bi + BLOCK_SIZE, 0, bi + BLOCK_SIZE, 0)
  {
    var n := |Q|;
    writes := writes0;
    var bj := 0;
    while bj < n
      invariant 0 <= bj
      invariant Counted(writes, n, bi, bj, bi, bj)
      invariant Filled(out, Q, K, depth, scale, bi, bj, bi, bj)
    {
      writes := FillTile(out, Q, K, depth, scale, bi, bj, writes);
      bj := bj + BLOCK_SIZE;
    }
    BandEnd(n, bi, bj);
    CountedMoves(writes, n, bi, bj, bi, bj, bi + BLOCK_SIZE, 0, bi + BLOCK_SIZE, 0);
    FilledMoves(out, Q, K, depth, scale, bi, bj, bi, bj, bi + BLOCK_SIZE, 0, bi + BLOCK_SIZE, 0);
  }

  /** The whole nest: the bands from top to bottom. */
  method FillAll(out: array2<real>, Q: Matrix, K: Matrix, depth: nat, scale: real,
                 ghost writes0: map<(int, int), nat>)
    returns (ghost writes: map<(int, int), nat>)
    requires depth % 4 == 0
    requires Counted(writes0, |Q|, 0, 0, 0, 0)
    requires Filled(out, Q, K, depth, scale, 0, 0, 0, 0)
    modifies out
    ensures IsMatrix(Q, |Q|, depth) && IsMatrix(K, |Q|, depth)
    ensures Snapshot(out) == Scores(Q, K, depth, scale)
    ensures forall r, c :: 0 <= r < |Q| && 0 <= c < |Q| ==> (r, c) in writes && writes[(r, c)] == 1
  {
    var n := |Q|;
    writes := writes0;
    var bi := 0;
    while bi < n
      invariant 0 <= bi
      invariant Counted(writes, n, bi, 0, bi, 0)
      invariant Filled(out, Q, K, depth, scale, bi, 0, bi, 0)
    {
      writes := FillBand(out, Q, K, depth, scale, bi, writes);
      bi := bi + BLOCK_SIZE;
    }
    FilledAll(out, Q, K, depth, scale, bi);
    CountedAll(writes, n, bi);
  }

  /** output[i][j] = dot(Q[i], K[j]) / sqrt(depth) for every cell of the
      seqLength x seqLength matrix, edge tiles included, and the ghost
      `writes` counts the assignments to each cell: exactly one. */
  method ScaledDotProductAttention(Q: Matrix, K: Matrix, V: Matrix, seqLength: nat, depth: nat,
                                   sqrt: Positive -> Positive)
    returns (output: Matrix, ghost writes: map<(int, int), nat>)
    requires depth > 0 && depth % 4 == 0
    requires IsMatrix(Q, seqLength, depth) && IsMatrix(K, seqLength, depth)
    ensures IsMatrix(output, seqLength, seqLength)
    ensures forall i, j :: 0 <= i < seqLength && 0 <= j < seqLength ==>
              output[i][j] == Dot(Q[i], K[j]) * Scale(depth, sqrt)
    ensures output == Scores(Q, K, depth, Scale(depth, sqrt))
    ensures forall i, j :: 0 <= i < seqLength && 0 <= j < seqLength ==>
              (i, j) in writes && writes[(i, j)] == 1
  {
    var n := seqLength;
    var out := new real[n, n];
    var scale := Scale(depth, sqrt);
    writes := map r, c | 0 <= r < n && 0 <= c < n :: (r, c) := 0;
    NothingDone(n, writes);
    writes := FillAll(out, Q, K, depth, scale, writes);
    output := Snapshot(out);
    ScoresAt(Q, K, depth, scale);
  }
}
