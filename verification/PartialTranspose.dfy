/** The partial transpose of a matrix over the second half of a system, block by block. */
module PartialTranspose {
  import opened Options

  /** A matrix as a function of the row and the column. */
  type Entries = (int, int) -> real

  function Power(dim: nat, e: nat): nat {
    if e == 0 then 1 else dim * Power(dim, e - 1)
  }

  lemma Associate(x: nat, y: nat, z: nat)
    ensures x * (y * z) == (x * y) * z
  {
  }

  lemma {:induction false} PowerAdds(dim: nat, e: nat, f: nat)
    ensures Power(dim, e + f) == Power(dim, e) * Power(dim, f)
  {
    if e > 0 {
      PowerAdds(dim, e - 1, f);
      Associate(dim, Power(dim, e - 1), Power(dim, f));
    }
  }

  lemma {:induction false} PowerGrows(dim: nat, e: nat)
    requires dim >= 2
    ensures Power(dim, e) > e
  {
    if e > 0 {
      PowerGrows(dim, e - 1);
      assert dim * Power(dim, e - 1) >= 2 * Power(dim, e - 1);
    }
  }

  /** The row and the column that an entry of the result comes from: the indices within the
      block are exchanged, those of the block are not. */
  function SourceRow(size: nat, r: nat, c: nat): nat
    requires size > 0
  {
    size * (r / size) + c % size
  }

  function SourceCol(size: nat, r: nat, c: nat): nat
    requires size > 0
  {
    size * (c / size) + r % size
  }

  lemma QuotientIsUnique(size: nat, q: nat, rest: nat, j: nat, a: nat)
    requires size * q + rest == size * j + a && rest < size && a < size
    ensures q == j && rest == a
  {
    if q < j {
      Monotone(size, q + 1, j);
    } else if j < q {
      Monotone(size, j + 1, q);
    }
  }

  lemma DivMod(size: nat, d: nat)
    requires size > 0
    ensures size * (d / size) + d % size == d
  {
  }

  lemma BlockIndex(size: nat, j: nat, a: nat)
    requires a < size
    ensures (size * j + a) / size == j && (size * j + a) % size == a
  {
    DivMod(size, size * j + a);
    QuotientIsUnique(size, (size * j + a) / size, (size * j + a) % size, j, a);
  }

  lemma Monotone(size: nat, p: nat, q: nat)
    requires p <= q
    ensures size * p <= size * q
  {
  }

  lemma SourceInRange(size: nat, r: nat, c: nat)
    requires size > 0 && InMatrix(size, r, c)
    ensures InMatrix(size, SourceRow(size, r, c), SourceCol(size, r, c))
  {
    BlockBelow(size, r);
    BlockBelow(size, c);
    EntryBelow(size, r / size, c % size);
    EntryBelow(size, c / size, r % size);
  }

  lemma EntryBelow(size: nat, j: nat, a: nat)
    requires j < size && a < size
    ensures size * j + a < size * size
  {
    Monotone(size, j + 1, size);
  }

  lemma {:induction false} BlockBelow(size: nat, r: nat)
    requires size > 0 && r < size * size
    ensures r / size < size
  {
    if r / size >= size {
      Monotone(size, size, r / size);
    }
  }

  /** Entry (a, b) of block (j, k) of the result is entry (b, a) of that block. */
  lemma BlocksAreTransposed(size: nat, j: nat, k: nat, a: nat, b: nat)
    requires a < size && b < size
    ensures SourceRow(size, size * j + a, size * k + b) == size * j + b
    ensures SourceCol(size, size * j + a, size * k + b) == size * k + a
  {
    BlockIndex(size, j, a);
    BlockIndex(size, k, b);
  }

  predicate IsTransposedAt(result: Entries, mat: Entries, size: nat, r: nat, c: nat)
    requires size > 0
  {
    result(r, c) == mat(SourceRow(size, r, c), SourceCol(size, r, c))
  }

  predicate InMatrix(size: nat, r: nat, c: nat) {
    r < size * size && c < size * size
  }

  ghost predicate IsPartialTranspose(result: Entries, mat: Entries, size: nat)
    requires size > 0
  {
    forall r: nat, c: nat :: InMatrix(size, r, c) ==> IsTransposedAt(result, mat, size, r, c)
  }

  /** The source of the source is the entry itself. */
  lemma SourceOfSource(size: nat, r: nat, c: nat)
    requires size > 0
    ensures SourceRow(size, SourceRow(size, r, c), SourceCol(size, r, c)) == r
    ensures SourceCol(size, SourceRow(size, r, c), SourceCol(size, r, c)) == c
  {
    BlocksAreTransposed(size, r / size, c / size, c % size, r % size);
    assert r == size * (r / size) + r % size && c == size * (c / size) + c % size;
  }

  /** Transposing twice gives the matrix back. */
  lemma Involution(once: Entries, twice: Entries, mat: Entries, size: nat)
    requires size > 0 && IsPartialTranspose(once, mat, size) && IsPartialTranspose(twice, once, size)
    ensures forall r: nat, c: nat :: InMatrix(size, r, c) ==> twice(r, c) == mat(r, c)
  {
    forall r: nat, c: nat | InMatrix(size, r, c)
      ensures twice(r, c) == mat(r, c)
    {
      SourceInRange(size, r, c);
      SourceOfSource(size, r, c);
      BackAgain(once, twice, mat, size, r, c, SourceRow(size, r, c), SourceCol(size, r, c));
    }
  }

  lemma BackAgain(once: Entries, twice: Entries, mat: Entries, size: nat, r: nat, c: nat, r': nat, c': nat)
    requires size > 0 && IsPartialTranspose(once, mat, size) && IsPartialTranspose(twice, once, size)
    requires InMatrix(size, r, c) && InMatrix(size, r', c')
    requires r' == SourceRow(size, r, c) && c' == SourceCol(size, r, c)
    requires r == SourceRow(size, r', c') && c == SourceCol(size, r', c')
    ensures twice(r, c) == mat(r, c)
  {
    assert IsTransposedAt(twice, once, size, r, c) && IsTransposedAt(once, mat, size, r', c');
  }

  function Trace(mat: Entries, n: nat): real {
    if n == 0 then 0.0 else Trace(mat, n - 1) + mat(n - 1, n - 1)
  }

  /** The diagonal stays in place, so the trace is kept. */
  lemma {:induction false} TraceKept(result: Entries, mat: Entries, size: nat, n: nat)
    requires size > 0 && IsPartialTranspose(result, mat, size) && n <= size * size
    ensures Trace(result, n) == Trace(mat, n)
  {
    if n > 0 {
      TraceKept(result, mat, size, n - 1);
      DiagonalKept(result, mat, size, n - 1);
    }
  }

  lemma DiagonalKept(result: Entries, mat: Entries, size: nat, d: nat)
    requires size > 0 && IsPartialTranspose(result, mat, size) && d < size * size
    ensures result(d, d) == mat(d, d)
  {
    assert InMatrix(size, d, d) && IsTransposedAt(result, mat, size, d, d);
    DivMod(size, d);
  }

  /** Whether a matrix is square and its side an even power of the dimension. */
  ghost predicate IsHalvable(rows: nat, cols: nat, dim: nat) {
    rows == cols && exists m: nat :: rows == Power(dim, 2 * m)
  }

  lemma PowerSteps(dim: nat, e: nat)
    requires dim >= 2
    ensures Power(dim, e) < Power(dim, e + 1)
  {
    PowerGrows(dim, e);
  }

  lemma {:induction false} PowerIncreases(dim: nat, e: nat, f: nat)
    requires dim >= 2 && e < f
    ensures Power(dim, e + 1) <= Power(dim, f)
    decreases f - e
  {
    if e + 1 < f {
      PowerIncreases(dim, e, f - 1);
      PowerSteps(dim, f - 1);
    }
  }

  /** The largest exponent whose power is not above `rows`. */
  method Exponent(rows: nat, dim: nat) returns (e: nat, p: nat)
    requires dim >= 2 && rows > 0
    ensures p == Power(dim, e) <= rows < Power(dim, e + 1)
  {
    e, p := 0, 1;
    while dim * p <= rows
      invariant p == Power(dim, e) <= rows
      decreases rows - p
    {
      PowerSteps(dim, e);
      p, e := dim * p, e + 1;
    }
  }

  /** A number is a power for one exponent at most. */
  lemma OnlyExponent(dim: nat, rows: nat, e: nat, f: nat)
    requires dim >= 2 && Power(dim, e) <= rows < Power(dim, e + 1) && rows == Power(dim, f)
    ensures e == f
  {
    if f < e {
      PowerIncreases(dim, f, e);
      PowerSteps(dim, f);
    } else if e < f {
      PowerIncreases(dim, e, f);
    }
  }

  method PowerOf(dim: nat, e: nat) returns (p: nat)
    ensures p == Power(dim, e)
  {
    p := 1;
    for i := 0 to e
      invariant p == Power(dim, i)
    {
      p := dim * p;
    }
  }

  /** The side of a block, if the system has two equal halves. */
  method HalfSize(rows: nat, cols: nat, dim: nat) returns (size: Option<nat>)
    requires dim >= 2
    ensures size.Some? <==> IsHalvable(rows, cols, dim)
    ensures size.Some? ==> size.value > 0 && size.value * size.value == rows
  {
    if rows != cols {
      return None;
    }
    if rows == 0 {
      NoZeroPower(dim);
      return None;
    }
    var e, p := Exponent(rows, dim);
    forall m: nat | rows == Power(dim, 2 * m)
      ensures e == 2 * m
    {
      OnlyExponent(dim, rows, e, 2 * m);
    }
    if p != rows || e % 2 != 0 {
      return None;
    }
    assert rows == Power(dim, 2 * (e / 2));
    PowerAdds(dim, e / 2, e / 2);
    PowerGrows(dim, e / 2);
    var half := PowerOf(dim, e / 2);
    return Some(half);
  }

  lemma NoZeroPower(dim: nat)
    requires dim >= 2
    ensures forall m: nat :: Power(dim, 2 * m) > 0
  {
    forall m: nat
      ensures Power(dim, 2 * m) > 0
    {
      PowerGrows(dim, 2 * m);
    }
  }

  /** The transpose of the block in row `j` and column `k`. */
  function TransposedBlock(mat: Entries, size: nat, j: nat, k: nat): Entries {
    (a: int, b: int) => mat(size * j + b, size * k + a)
  }

  predicate AreBlocks(blocks: seq<seq<Entries>>, size: nat) {
    |blocks| == size && forall j :: 0 <= j < size ==> |blocks[j]| == size
  }

  /** A matrix put together from its blocks. */
  function FromBlocks(blocks: seq<seq<Entries>>, size: nat): Entries
    requires size > 0 && AreBlocks(blocks, size)
  {
    (r: int, c: int) =>
      if 0 <= r / size < size && 0 <= c / size < size then blocks[r / size][c / size](r % size, c % size) else 0.0
  }

  lemma EntryFromBlock(blocks: seq<seq<Entries>>, mat: Entries, size: nat, r: nat, c: nat)
    requires size > 0 && AreBlocks(blocks, size) && r / size < size && c / size < size
    requires blocks[r / size][c / size] == TransposedBlock(mat, size, r / size, c / size)
    ensures IsTransposedAt(FromBlocks(blocks, size), mat, size, r, c)
  {
  }

  lemma EntryOfBlocks(blocks: seq<seq<Entries>>, mat: Entries, size: nat, r: nat, c: nat)
    requires size > 0 && AreBlocks(blocks, size) && InMatrix(size, r, c)
    requires forall j: nat, k: nat :: j < size && k < size ==> blocks[j][k] == TransposedBlock(mat, size, j, k)
    ensures IsTransposedAt(FromBlocks(blocks, size), mat, size, r, c)
  {
    BlockBelow(size, r);
    BlockBelow(size, c);
    EntryFromBlock(blocks, mat, size, r, c);
  }

  lemma BlocksMakeTheTranspose(blocks: seq<seq<Entries>>, mat: Entries, size: nat)
    requires size > 0 && AreBlocks(blocks, size)
    requires forall j: nat, k: nat :: j < size && k < size ==> blocks[j][k] == TransposedBlock(mat, size, j, k)
    ensures IsPartialTranspose(FromBlocks(blocks, size), mat, size)
  {
    forall r: nat, c: nat | InMatrix(size, r, c)
      ensures IsTransposedAt(FromBlocks(blocks, size), mat, size, r, c)
    {
      EntryOfBlocks(blocks, mat, size, r, c);
    }
  }

  /** The result exists exactly for systems of two equal halves, and is the partial transpose. */
  method PartialTranspose(rows: nat, cols: nat, mat: Entries, dim: nat) returns (result: Option<Entries>, size: nat)
    requires dim >= 2
    ensures result.Some? <==> IsHalvable(rows, cols, dim)
    ensures result.Some? ==> size > 0 && size * size == rows && IsPartialTranspose(result.value, mat, size)
  {
    size := 0;
    var half := HalfSize(rows, cols, dim);
    if half.None? {
      return None, 0;
    }
    size := half.value;
    var blocks := seq(size, _ => seq(size, _ => mat));
    for j := 0 to size
      invariant |blocks| == size && forall j' :: 0 <= j' < size ==> |blocks[j']| == size
      invariant forall j': nat, k': nat :: j' < j && k' < size ==> blocks[j'][k'] == TransposedBlock(mat, size, j', k')
    {
      for k := 0 to size
        invariant |blocks| == size && forall j' :: 0 <= j' < size ==> |blocks[j']| == size
        invariant forall j': nat, k': nat :: k' < size && (j' < j || (j' == j && k' < k)) ==>
                    blocks[j'][k'] == TransposedBlock(mat, size, j', k')
      {
        blocks := blocks[j := blocks[j][k := TransposedBlock(mat, size, j, k)]];
      }
    }
    BlocksMakeTheTranspose(blocks, mat, size);
    return Some(FromBlocks(blocks, size)), size;
  }
}
