/**
 Which part of A, B and C each DMA task touches.

 The tiler, which is not part of this model, is taken to number tiles row by row. R rows and C columns of cores;
 rowTiles and colTiles are the generator's num_row_tile and num_col_tile.
 */
module Taps {
  import opened Arith

  /** Matrix and tile sizes as the generators receive them, with the grid they target. */
  datatype Shape = Shape(M: nat, K: nat, N: nat, m: nat, k: nat, n: nat, rows: nat, cols: nat)

  ghost predicate Positive(sh: Shape) {
    sh.M > 0 && sh.K > 0 && sh.N > 0 && sh.m > 0 && sh.k > 0 && sh.n > 0 && sh.rows > 0 && sh.cols > 0
  }

  /** Whole blocks of tiles: the shapes the generators are meant for. */
  ghost predicate Divisible(sh: Shape) {
    Positive(sh) && sh.M % (sh.rows * sh.m) == 0 && sh.N % (sh.cols * sh.n) == 0
  }

  function RowTiles(sh: Shape): nat
    requires sh.m > 0 && sh.rows > 0
  {
    sh.M / sh.m / sh.rows
  }

  function ColTiles(sh: Shape): nat
    requires sh.n > 0 && sh.cols > 0
  {
    sh.N / sh.n / sh.cols
  }

  function Groups(sh: Shape): nat
    requires sh.m > 0 && sh.rows > 0 && sh.n > 0 && sh.cols > 0
  {
    RowTiles(sh) * ColTiles(sh)
  }

  /** Index of the tap the runtime passes to each task of group g. */
  function ATap(sh: Shape, g: int, row: int): int
    requires sh.n > 0 && sh.cols > 0 && ColTiles(sh) > 0
  {
    g / ColTiles(sh) * sh.rows + row
  }

  function BTap(sh: Shape, g: int, col: int): int
    requires sh.n > 0 && sh.cols > 0 && ColTiles(sh) > 0
  {
    g % ColTiles(sh) * sh.cols + col
  }

  function CTap(sh: Shape, g: int, col: int): int { g * sh.cols + col }

  /** Row of C that row x of core row `row`'s tile lands in: the C tap is a (rows * m) x n tile of C. */
  function CRow(sh: Shape, g: int, row: int, col: int, x: int): int
    requires sh.n > 0 && sh.N / sh.n > 0
  {
    CTap(sh, g, col) / (sh.N / sh.n) * (sh.rows * sh.m) + row * sh.m + x
  }

  function CCol(sh: Shape, g: int, col: int, y: int): int
    requires sh.n > 0 && sh.N / sh.n > 0
  {
    CTap(sh, g, col) % (sh.N / sh.n) * sh.n + y
  }

  /** A core's tile element in a group. */
  datatype Place = Place(g: int, row: int, col: int, x: int, y: int)

  ghost predicate InGrid(sh: Shape, p: Place)
    requires Positive(sh)
  {
    0 <= p.g < Groups(sh) && 0 <= p.row < sh.rows && 0 <= p.col < sh.cols && 0 <= p.x < sh.m && 0 <= p.y < sh.n
  }

  /** The element (X, Y) of C is what this place writes. */
  ghost predicate Writes(sh: Shape, p: Place, X: nat, Y: nat)
    requires Positive(sh)
  {
    InGrid(sh, p) && sh.N / sh.n > 0 && X == CRow(sh, p.g, p.row, p.col, p.x) && Y == CCol(sh, p.g, p.col, p.y)
  }

  ghost predicate Written(sh: Shape, X: nat, Y: nat)
    requires Positive(sh)
  {
    exists p :: Writes(sh, p, X, Y)
  }

  ghost predicate Covers(sh: Shape)
    requires Positive(sh)
  {
    forall X: nat, Y: nat :: X < sh.M && Y < sh.N ==> Written(sh, X, Y)
  }

  lemma DivisibleSizes(sh: Shape)
    requires Divisible(sh)
    ensures sh.M == RowTiles(sh) * sh.rows * sh.m && sh.M / sh.m == RowTiles(sh) * sh.rows
    ensures sh.N == ColTiles(sh) * sh.cols * sh.n && sh.N / sh.n == ColTiles(sh) * sh.cols
    ensures RowTiles(sh) > 0 && ColTiles(sh) > 0
  {
    Quotients(sh.M, sh.m, sh.rows);
    Quotients(sh.N, sh.n, sh.cols);
  }

  lemma Quotients(total: nat, tile: nat, count: nat)
    requires tile > 0 && count > 0 && count * tile > 0 && total > 0 && total % (count * tile) == 0
    ensures total == total / tile / count * count * tile && total / tile == total / tile / count * count
    ensures total / tile / count > 0
  {
    var q := total / (count * tile);
    assert total == q * (count * tile);
    assert total == q * count * tile + 0;
    DivMod(q * count, 0, tile);
    DivMod(q, 0, count);
  }

  /** The C tap of a group is the tile whose rows its A taps read and whose columns its B taps read. */
  lemma TapsAgree(sh: Shape, g: nat, row: nat, col: nat, x: nat, y: nat)
    requires Divisible(sh) && InGrid(sh, Place(g, row, col, x, y))
    ensures ColTiles(sh) > 0 && sh.N / sh.n > 0
    ensures CRow(sh, g, row, col, x) == ATap(sh, g, row) * sh.m + x < sh.M
    ensures CCol(sh, g, col, y) == BTap(sh, g, col) * sh.n + y < sh.N
  {
    DivisibleSizes(sh);
    var w := ColTiles(sh);
    Multiple(w, sh.cols);
    DivBelow(g, RowTiles(sh), w);
    var a, b := g / w, g % w;
    TileOfGroup(a, b, w, col, sh.cols);
    RowOfGroup(a, RowTiles(sh), row, sh.rows, x, sh.m);
    DigitsBelow(b, w, col, sh.cols);
    DigitsBelow(b * sh.cols + col, w * sh.cols, y, sh.n);
  }

  /** The digits of C tap number g * cols + col, for group g = a * w + b. */
  lemma TileOfGroup(a: nat, b: nat, w: nat, col: nat, cols: nat)
    requires b < w && col < cols
    ensures 0 < w * cols
    ensures ((a * w + b) * cols + col) / (w * cols) == a && ((a * w + b) * cols + col) % (w * cols) == b * cols + col
  {
    DigitsBelow(b, w, col, cols);
    assert (a * w + b) * cols == a * (w * cols) + b * cols;
    DivMod(a, b * cols + col, w * cols);
  }

  lemma RowOfGroup(a: nat, tiles: nat, row: nat, rows: nat, x: nat, m: nat)
    requires a < tiles && row < rows && x < m
    ensures a * (rows * m) + row * m + x == (a * rows + row) * m + x
    ensures 0 <= (a * rows + row) * m + x < tiles * rows * m
  {
    DigitsBelow(a, tiles, row, rows);
    DigitsBelow(a * rows + row, tiles * rows, x, m);
    assert (a * rows + row) * m == a * (rows * m) + row * m;
  }

  /** Where (X, Y) is computed. */
  function Source(sh: Shape, X: nat, Y: nat): Place
    requires sh.m > 0 && sh.rows > 0 && sh.n > 0 && sh.cols > 0
  {
    Place(X / sh.m / sh.rows * ColTiles(sh) + Y / sh.n / sh.cols,
          X / sh.m % sh.rows, Y / sh.n % sh.cols, X % sh.m, Y % sh.n)
  }

  lemma SourceWrites(sh: Shape, X: nat, Y: nat)
    requires Divisible(sh) && X < sh.M && Y < sh.N
    ensures Writes(sh, Source(sh, X, Y), X, Y)
  {
    DivisibleSizes(sh);
    var w := ColTiles(sh);
    DivBelow(X, RowTiles(sh) * sh.rows, sh.m);
    DivBelow(X / sh.m, RowTiles(sh), sh.rows);
    DivBelow(Y, w * sh.cols, sh.n);
    DivBelow(Y / sh.n, w, sh.cols);
    var a, b := X / sh.m / sh.rows, Y / sh.n / sh.cols;
    DigitsBelow(a, RowTiles(sh), b, w);
    DivMod(a, b, w);
    var p := Source(sh, X, Y);
    TapsAgree(sh, p.g, p.row, p.col, p.x, p.y);
  }

  lemma WritesOnce(sh: Shape, p: Place, X: nat, Y: nat)
    requires Divisible(sh) && Writes(sh, p, X, Y)
    ensures p == Source(sh, X, Y) && X < sh.M && Y < sh.N
  {
    DivisibleSizes(sh);
    TapsAgree(sh, p.g, p.row, p.col, p.x, p.y);
    var w := ColTiles(sh);
    DivBelow(p.g, RowTiles(sh), w);
    DivMod(ATap(sh, p.g, p.row), p.x, sh.m);
    DivMod(BTap(sh, p.g, p.col), p.y, sh.n);
    DivMod(p.g / w, p.row, sh.rows);
    DivMod(p.g % w, p.col, sh.cols);
  }

  /** Over all groups every element of C is written, and by one place only. */
  lemma Partition(sh: Shape, X: nat, Y: nat)
    requires Divisible(sh) && X < sh.M && Y < sh.N
    ensures Writes(sh, Source(sh, X, Y), X, Y)
    ensures forall p :: Writes(sh, p, X, Y) ==> p == Source(sh, X, Y)
  {
    SourceWrites(sh, X, Y);
    forall p | Writes(sh, p, X, Y) ensures p == Source(sh, X, Y) { WritesOnce(sh, p, X, Y); }
  }

  lemma TwoDigits(q: nat, n: nat, r: nat, d: nat)
    requires q < n && r < d
    ensures (q * d + r) / d == q && (q * d + r) % d == r && 0 <= q * d + r < n * d
  {
    DivMod(q, r, d);
    DigitsBelow(q, n, r, d);
  }

  /** The element a core tile entry of C tap `tap` lands on. */
  lemma TapElement(sh: Shape, tap: nat, row: nat, x: nat, y: nat)
    requires Positive(sh) && sh.N / sh.n > 0 && tap < Groups(sh) * sh.cols && row < sh.rows && x < sh.m && y < sh.n
    ensures var w := sh.N / sh.n; var tall := sh.rows * sh.m;
      && (tap / w * tall + (row * sh.m + x)) / tall == tap / w && tap / w * tall + (row * sh.m + x) < RowTiles(sh) * tall
      && (tap % w * sh.n + y) / sh.n == tap % w && tap % w * sh.n + y < w * sh.n
  {
    TileWithin(sh, tap);
    DigitsBelow(row, sh.rows, x, sh.m);
    TwoDigits(tap / (sh.N / sh.n), RowTiles(sh), row * sh.m + x, sh.rows * sh.m);
    TwoDigits(tap % (sh.N / sh.n), sh.N / sh.n, y, sh.n);
  }

  lemma WrittenElement(sh: Shape, p: Place, X: nat, Y: nat)
    requires Positive(sh) && Writes(sh, p, X, Y) && sh.rows * sh.m > 0
    ensures X < RowTiles(sh) * (sh.rows * sh.m) && Y < sh.N / sh.n * sh.n
    ensures X / (sh.rows * sh.m) * (sh.N / sh.n) + Y / sh.n == CTap(sh, p.g, p.col) < Groups(sh) * sh.cols
  {
    var tap := CTap(sh, p.g, p.col);
    DigitsBelow(p.g, Groups(sh), p.col, sh.cols);
    TapElement(sh, tap, p.row, p.x, p.y);
    assert X == tap / (sh.N / sh.n) * (sh.rows * sh.m) + (p.row * sh.m + p.x);
    assert Y == tap % (sh.N / sh.n) * sh.n + p.y;
  }

  lemma NotCovered(sh: Shape, X: nat, Y: nat)
    requires Positive(sh) && sh.rows * sh.m > 0
    requires X >= RowTiles(sh) * (sh.rows * sh.m) || Y >= sh.N / sh.n * sh.n
          || X / (sh.rows * sh.m) * (sh.N / sh.n) + Y / sh.n >= Groups(sh) * sh.cols
    ensures !Written(sh, X, Y)
  {
    if Written(sh, X, Y) {
      var p :| Writes(sh, p, X, Y);
      WrittenElement(sh, p, X, Y);
    }
  }

  lemma TileWithin(sh: Shape, tap: nat)
    requires Positive(sh) && sh.N / sh.n > 0 && tap < Groups(sh) * sh.cols
    ensures tap / (sh.N / sh.n) < RowTiles(sh)
  {
    var w := sh.N / sh.n;
    MulMonotone(ColTiles(sh) * sh.cols, w, RowTiles(sh));
    assert RowTiles(sh) * ColTiles(sh) * sh.cols == ColTiles(sh) * sh.cols * RowTiles(sh);
    DivBelow(tap, RowTiles(sh), w);
  }

  /**
   The generators compute all of C exactly for the divisible shapes. The 4-row generator's own default
   (M = m = 128) is not one of them: see DefaultShapeIsEmpty.
   */
  lemma CoversIffDivisible(sh: Shape)
    requires Positive(sh)
    ensures Covers(sh) <==> Divisible(sh)
  {
    if Divisible(sh) { DivisibleCovers(sh); } else { OthersMiss(sh); }
  }

  lemma DivisibleCovers(sh: Shape)
    requires Divisible(sh)
    ensures Covers(sh)
  {
    forall X: nat, Y: nat | X < sh.M && Y < sh.N ensures Written(sh, X, Y) { SourceWrites(sh, X, Y); }
  }

  /** Any other shape leaves the last element of C unwritten. */
  lemma OthersMiss(sh: Shape)
    requires Positive(sh) && !Divisible(sh)
    ensures !Written(sh, sh.M - 1, sh.N - 1)
  {
    Multiple(sh.rows, sh.m);
    Multiple(sh.cols, sh.n);
    LastElement(sh);
    NotCovered(sh, sh.M - 1, sh.N - 1);
  }

  lemma Remainder(total: nat, tile: nat, count: nat)
    requires tile > 0 && count > 0 && count * tile > 0
    ensures total / tile / count == total / (count * tile)
    ensures total / tile / count * (count * tile) <= total
    ensures total % (count * tile) == 0 <==> total / tile / count * (count * tile) == total
  {
    var tiles, q, c := total / tile, total / tile / count, total / tile % count;
    Parts(total, tile);
    Parts(tiles, count);
    DigitsBelow(c, count, total % tile, tile);
    TwoRadices(q, c, total % tile, count, tile);
    DivMod(q, c * tile + total % tile, count * tile);
  }

  lemma Parts(x: nat, d: nat)
    requires d > 0
    ensures x == x / d * d + x % d && 0 <= x % d < d && x / d >= 0
  {}

  lemma TwoRadices(q: int, c: int, r: int, count: int, tile: int)
    ensures (q * count + c) * tile + r == q * (count * tile) + (c * tile + r)
  {}

  lemma LastIndex(total: nat, d: nat, q: nat)
    requires 0 < total && 0 < d && q * d <= total <= q * d
    ensures (total - 1) / d == q - 1 && q > 0
  {
    Multiple(q, d);
    assert total - 1 == (q - 1) * d + (d - 1);
    DivMod(q - 1, d - 1, d);
  }

  lemma FewerColumns(sh: Shape)
    requires Positive(sh) && sh.N == sh.N / sh.n * sh.n && sh.cols * sh.n > 0 && sh.N % (sh.cols * sh.n) != 0
    ensures ColTiles(sh) * sh.cols < sh.N / sh.n
  {
    Remainder(sh.N, sh.n, sh.cols);
    var w := sh.N / sh.n;
    assert ColTiles(sh) * (sh.cols * sh.n) == ColTiles(sh) * sh.cols * sh.n;
    Multiple(w - ColTiles(sh) * sh.cols, sh.n);
    assert (w - ColTiles(sh) * sh.cols) * sh.n == w * sh.n - ColTiles(sh) * sh.cols * sh.n;
  }

  lemma LastElement(sh: Shape)
    requires Positive(sh) && !Divisible(sh) && sh.rows * sh.m > 0 && sh.cols * sh.n > 0
    ensures var X, Y := sh.M - 1, sh.N - 1;
      || X >= RowTiles(sh) * (sh.rows * sh.m) || Y >= sh.N / sh.n * sh.n
      || X / (sh.rows * sh.m) * (sh.N / sh.n) + Y / sh.n >= Groups(sh) * sh.cols
  {
    var X, Y, q, w, tall := sh.M - 1, sh.N - 1, RowTiles(sh), sh.N / sh.n, sh.rows * sh.m;
    Remainder(sh.M, sh.m, sh.rows);
    if X < q * tall && Y < w * sh.n {
      LastIndex(sh.M, tall, q);
      LastIndex(sh.N, sh.n, w);
      FewerColumns(sh);
      LastTile(q, w, ColTiles(sh), sh.cols);
    }
  }

  /** The last tile of the last row lies beyond the tiles of the groups when some columns are left over. */
  lemma LastTile(q: nat, w: nat, c: nat, cols: nat)
    requires q > 0 && c * cols < w
    ensures (q - 1) * w + (w - 1) >= q * c * cols
  {
    MulMonotone(c * cols, w - 1, q);
    Rearranged(q, w, c, cols);
  }

  lemma Rearranged(q: nat, w: nat, c: nat, cols: nat)
    ensures (q - 1) * w + (w - 1) == q * w - 1 && (w - 1) * q == q * w - q && c * cols * q == q * c * cols
  {}

  /** The 4-row generator called with its defaults plans no group at all. */
  lemma DefaultShapeIsEmpty()
    ensures var sh := Shape(128, 1024, 4096, 128, 64, 128, 4, 8); Positive(sh) && Groups(sh) == 0 && !Covers(sh)
  {
    var sh := Shape(128, 1024, 4096, 128, 64, 128, 4, 8);
    assert RowTiles(sh) == 0;
    CoversIffDivisible(sh);
  }

  /** An A tap serves one run of ColTiles consecutive groups; a B tap serves every ColTiles-th group. */
  lemma TapUse(sh: Shape, g: nat, row: nat, col: nat, a: nat, b: nat)
    requires Divisible(sh) && g < Groups(sh) && row < sh.rows && col < sh.cols && ColTiles(sh) > 0 && b < ColTiles(sh)
    ensures ATap(sh, g, row) == a * sh.rows + row <==> a * ColTiles(sh) <= g < (a + 1) * ColTiles(sh)
    ensures BTap(sh, g, col) == b * sh.cols + col <==> exists i: nat :: i < RowTiles(sh) && g == i * ColTiles(sh) + b
  {
    var w := ColTiles(sh);
    DivBelow(g, RowTiles(sh), w);
    DivMod(g / w, row, sh.rows);
    DivMod(a, row, sh.rows);
    DivMod(g % w, col, sh.cols);
    DivMod(b, col, sh.cols);
    if a * w <= g < (a + 1) * w { DivMod(a, g - a * w, w); }
    forall i: nat | i < RowTiles(sh) && g == i * w + b ensures g % w == b { DivMod(i, b, w); }
    if g % w == b { assert g == g / w * w + b; }
  }
}
