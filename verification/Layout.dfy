/**
 The blocked layouts of the packing library: matrices cut into 8 x 8 tiles, each tile stored row by row, tiles
 stored row by row (A and C) or column by column (B).

 Dimensions that are not multiples of 8 lose their ragged edge, as the loops' integer divisions make them.
 */
module Layout {
  import opened Arith

  const R: nat := 8
  const TILE: nat := 64

  /** Elements of a rows x cols matrix that the tile loops visit. */
  function Packed(rows: nat, cols: nat): nat { rows / R * (cols / R) * TILE }

  lemma SourceNonNegative(tile: nat, w: nat, e: nat, cols: nat)
    requires w > 0
    ensures 0 <= (tile / w * R + e / R) * cols + (tile % w * R + e % R)
    ensures 0 <= (tile % w * R + e / R) * cols + (tile / w * R + e % R)
  {
    var q := tile / w;
    assert q >= 0 by { Multiple(q, w); }
    MulMonotone(0, q * R + e / R, cols);
    MulMonotone(0, tile % w * R + e / R, cols);
  }

  /** Row-major position of element d of the tile-by-tile order of a matrix with `cols` columns. */
  function RowTileSource(d: nat, cols: nat): nat
    requires cols / R > 0
  {
    var tile, e := d / TILE, d % TILE;
    SourceNonNegative(tile, cols / R, e, cols);
    (tile / (cols / R) * R + e / R) * cols + (tile % (cols / R) * R + e % R)
  }

  /** The same with tiles ordered column by column. */
  function ColTileSource(d: nat, rows: nat, cols: nat): nat
    requires rows / R > 0
  {
    var tile, e := d / TILE, d % TILE;
    SourceNonNegative(tile, rows / R, e, cols);
    (tile % (rows / R) * R + e / R) * cols + (tile / (rows / R) * R + e % R)
  }

  /** Where row-major element i goes in the tile order: the inverses of the two above. */
  function RowTileDest(i: nat, cols: nat): nat
    requires cols > 0
  {
    var row, col := i / cols, i % cols;
    MulMonotone(0, row / R, cols / R);
    (row / R * (cols / R) + col / R) * TILE + row % R * R + col % R
  }

  function ColTileDest(i: nat, rows: nat, cols: nat): nat
    requires cols > 0
  {
    var row, col := i / cols, i % cols;
    MulMonotone(0, col / R, rows / R);
    (col / R * (rows / R) + row / R) * TILE + row % R * R + col % R
  }

  /** Digits of a packed position: tile number and element within the tile. */
  lemma TilePosition(tile: nat, r: nat, c: nat)
    requires r < R && c < R
    ensures (tile * TILE + r * R + c) / TILE == tile && (tile * TILE + r * R + c) % TILE == r * R + c
    ensures (r * R + c) / R == r && (r * R + c) % R == c
  {}

  lemma Whole(rows: nat)
    ensures rows / R * R <= rows
  {}

  /** Inside the visited blocks the source of a packed position is in bounds. */
  lemma SourceInBounds(z: nat, ki: nat, r: nat, c: nat, rows: nat, cols: nat)
    requires z < rows / R && ki < cols / R && r < R && c < R
    ensures 0 <= (z * R + r) * cols + (ki * R + c) < rows * cols
  {
    DigitsBelow(z * R + r, rows, ki * R + c, cols);
  }

  /** The row-tile order visited by (z, ki, r, c). */
  lemma RowTileAt(z: nat, ki: nat, r: nat, c: nat, rows: nat, cols: nat)
    requires z < rows / R && ki < cols / R && r < R && c < R
    ensures var d := (z * (cols / R) + ki) * TILE + r * R + c;
      0 <= d < Packed(rows, cols) && RowTileSource(d, cols) == (z * R + r) * cols + (ki * R + c) < rows * cols
  {
    var kt := cols / R;
    DigitsBelow(z, rows / R, ki, kt);
    TilePosition(z * kt + ki, r, c);
    DivMod(z, ki, kt);
    SourceInBounds(z, ki, r, c, rows, cols);
  }

  lemma ColTileAt(nj: nat, ki: nat, r: nat, c: nat, rows: nat, cols: nat)
    requires nj < cols / R && ki < rows / R && r < R && c < R
    ensures var d := (nj * (rows / R) + ki) * TILE + r * R + c;
      && 0 <= d < Packed(rows, cols)
      && ColTileSource(d, rows, cols) == (ki * R + r) * cols + (nj * R + c) < rows * cols
  {
    var kt := rows / R;
    DigitsBelow(nj, cols / R, ki, kt);
    assert cols / R * kt == rows / R * (cols / R);
    TilePosition(nj * kt + ki, r, c);
    DivMod(nj, ki, kt);
    SourceInBounds(ki, nj, r, c, rows, cols);
  }

  /** Every packed position is visited by some (z, ki, r, c). */
  lemma RowTileDigits(d: nat, rows: nat, cols: nat) returns (z: nat, ki: nat, r: nat, c: nat)
    requires d < Packed(rows, cols)
    ensures cols / R > 0 && z < rows / R && ki < cols / R && r < R && c < R
    ensures d == (z * (cols / R) + ki) * TILE + r * R + c
  {
    TileDigits(d, rows / R, cols / R);
    z, ki, r, c := d / TILE / (cols / R), d / TILE % (cols / R), d % TILE / R, d % TILE % R;
  }

  lemma TileDigits(d: nat, high: nat, low: nat)
    requires d < high * low * TILE
    ensures low > 0 && 0 <= d / TILE / low < high && 0 <= d / TILE % low < low && d % TILE / R < R
    ensures d == (d / TILE / low * low + d / TILE % low) * TILE + d % TILE / R * R + d % TILE % R
  {
    assert low == 0 ==> high * low * TILE == 0;
    DivBelow(d, high * low, TILE);
    DivBelow(d / TILE, high, low);
  }

  /** A packed position with its digits and its source. */
  lemma RowTileForm(d: nat, rows: nat, cols: nat) returns (z: nat, ki: nat, r: nat, c: nat)
    requires d < Packed(rows, cols)
    ensures cols / R > 0 && z < rows / R && ki < cols / R && r < R && c < R
    ensures d == (z * (cols / R) + ki) * TILE + r * R + c
    ensures RowTileSource(d, cols) == (z * R + r) * cols + (ki * R + c) < rows * cols
  {
    z, ki, r, c := RowTileDigits(d, rows, cols);
    RowTileAt(z, ki, r, c, rows, cols);
  }

  lemma ColTileDigits(d: nat, rows: nat, cols: nat) returns (nj: nat, ki: nat, r: nat, c: nat)
    requires d < Packed(rows, cols)
    ensures rows / R > 0 && nj < cols / R && ki < rows / R && r < R && c < R
    ensures d == (nj * (rows / R) + ki) * TILE + r * R + c
  {
    assert rows / R * (cols / R) == cols / R * (rows / R);
    TileDigits(d, cols / R, rows / R);
    nj, ki, r, c := d / TILE / (rows / R), d / TILE % (rows / R), d % TILE / R, d % TILE % R;
  }

  lemma ColTileForm(d: nat, rows: nat, cols: nat) returns (nj: nat, ki: nat, r: nat, c: nat)
    requires d < Packed(rows, cols)
    ensures rows / R > 0 && nj < cols / R && ki < rows / R && r < R && c < R
    ensures d == (nj * (rows / R) + ki) * TILE + r * R + c
    ensures ColTileSource(d, rows, cols) == (ki * R + r) * cols + (nj * R + c) < rows * cols
  {
    nj, ki, r, c := ColTileDigits(d, rows, cols);
    ColTileAt(nj, ki, r, c, rows, cols);
  }

  /** Unpacking position of a packed element is where it came from. */
  lemma RowTileDestOfSource(d: nat, rows: nat, cols: nat)
    requires d < Packed(rows, cols)
    ensures cols / R > 0 && RowTileSource(d, cols) < rows * cols && RowTileDest(RowTileSource(d, cols), cols) == d
  {
    var z, ki, r, c := RowTileForm(d, rows, cols);
    DestAt(z, ki, r, c, rows, cols);
  }

  /** Packed positions of row-major element (z * 8 + r, ki * 8 + c). */
  lemma DestAt(z: nat, ki: nat, r: nat, c: nat, rows: nat, cols: nat)
    requires ki < cols / R && r < R && c < R
    ensures var i := (z * R + r) * cols + (ki * R + c);
      && i >= 0 && RowTileDest(i, cols) == (z * (cols / R) + ki) * TILE + r * R + c
      && ColTileDest(i, rows, cols) == (ki * (rows / R) + z) * TILE + r * R + c
  {
    MulMonotone(0, z * R + r, cols);
    DivMod(z * R + r, ki * R + c, cols);
    var i := (z * R + r) * cols + (ki * R + c);
    assert i / cols == z * R + r && i % cols == ki * R + c;
    assert (z * R + r) / R == z && (z * R + r) % R == r && (ki * R + c) / R == ki && (ki * R + c) % R == c;
  }

  lemma ColTileDestOfSource(d: nat, rows: nat, cols: nat)
    requires d < Packed(rows, cols)
    ensures rows / R > 0 && cols > 0 && ColTileSource(d, rows, cols) < rows * cols
    ensures ColTileDest(ColTileSource(d, rows, cols), rows, cols) == d
  {
    var nj, ki, r, c := ColTileForm(d, rows, cols);
    DestAt(ki, nj, r, c, rows, cols);
  }

  /** An element off the ragged edge has a packed position, and packing takes that position from it. */
  lemma RowTileSourceOfDest(i: nat, rows: nat, cols: nat)
    requires i < rows * cols && cols > 0 && i / cols / R < rows / R && i % cols / R < cols / R
    ensures RowTileDest(i, cols) < Packed(rows, cols) && RowTileSource(RowTileDest(i, cols), cols) == i
  {
    var z, r, ki, c := ElementDigits(i, rows, cols);
    RowTileAt(z, ki, r, c, rows, cols);
    DestAt(z, ki, r, c, rows, cols);
  }

  /** A row-major element's tile row, row in tile, tile column and column in tile. */
  lemma ElementDigits(i: nat, rows: nat, cols: nat) returns (z: nat, r: nat, ki: nat, c: nat)
    requires cols > 0 && i / cols / R < rows / R && i % cols / R < cols / R
    ensures z < rows / R && r < R && ki < cols / R && c < R && i == (z * R + r) * cols + (ki * R + c)
  {
    var row, col := i / cols, i % cols;
    z, r, ki, c := row / R, row % R, col / R, col % R;
    assert row == z * R + r && col == ki * R + c;
  }

  lemma ColTileSourceOfDest(i: nat, rows: nat, cols: nat)
    requires i < rows * cols && cols > 0 && i / cols / R < rows / R && i % cols / R < cols / R
    ensures ColTileDest(i, rows, cols) < Packed(rows, cols) && ColTileSource(ColTileDest(i, rows, cols), rows, cols) == i
  {
    var z, r, nj, c := ElementDigits(i, rows, cols);
    ColTileAt(nj, z, r, c, rows, cols);
    DestAt(z, nj, r, c, rows, cols);
  }

  /** Element i of the row-major matrix is copied by the tile loops. */
  ghost predicate RowTiled(i: nat, rows: nat, cols: nat) {
    exists d: nat :: d < Packed(rows, cols) && cols / R > 0 && RowTileSource(d, cols) == i
  }

  ghost predicate ColTiled(i: nat, rows: nat, cols: nat) {
    exists d: nat :: d < Packed(rows, cols) && rows / R > 0 && ColTileSource(d, rows, cols) == i
  }

  /** Packing is a permutation of the whole matrix exactly when both dimensions are multiples of 8. */
  lemma PackPermutes(rows: nat, cols: nat)
    requires rows > 0 && cols > 0
    ensures forall d: nat, d': nat :: d < d' < Packed(rows, cols) && cols / R > 0
              ==> RowTileSource(d, cols) != RowTileSource(d', cols)
    ensures forall d: nat, d': nat :: d < d' < Packed(rows, cols) && rows / R > 0
              ==> ColTileSource(d, rows, cols) != ColTileSource(d', rows, cols)
    ensures (forall i: nat :: i < rows * cols ==> RowTiled(i, rows, cols)) <==> rows % 8 == 0 && cols % 8 == 0
    ensures (forall i: nat :: i < rows * cols ==> ColTiled(i, rows, cols)) <==> rows % 8 == 0 && cols % 8 == 0
  {
    forall d: nat | d < Packed(rows, cols) { RowTileDestOfSource(d, rows, cols); }
    forall d: nat | d < Packed(rows, cols) { ColTileDestOfSource(d, rows, cols); }
    if rows % R == 0 && cols % R == 0 {
      forall i: nat | i < rows * cols ensures RowTiled(i, rows, cols) && ColTiled(i, rows, cols) {
        DivBelow(i, rows, cols);
        RowTileSourceOfDest(i, rows, cols);
        ColTileSourceOfDest(i, rows, cols);
      }
    } else {
      EdgeLost(rows, cols);
    }
  }

  /** With a ragged edge the last element is never copied. */
  lemma EdgeLost(rows: nat, cols: nat)
    requires rows > 0 && cols > 0 && !(rows % R == 0 && cols % R == 0)
    ensures 0 <= rows * cols - 1 && !RowTiled(rows * cols - 1, rows, cols) && !ColTiled(rows * cols - 1, rows, cols)
  {
    Multiple(rows, cols);
    forall d: nat | d < Packed(rows, cols) && cols / R > 0 ensures RowTileSource(d, cols) != rows * cols - 1 {
      RowEdgeLost(d, rows, cols);
    }
    forall d: nat | d < Packed(rows, cols) && rows / R > 0 ensures ColTileSource(d, rows, cols) != rows * cols - 1 {
      ColEdgeLost(d, rows, cols);
    }
  }

  lemma RowEdgeLost(d: nat, rows: nat, cols: nat)
    requires rows > 0 && cols > 0 && !(rows % R == 0 && cols % R == 0) && d < Packed(rows, cols) && cols / R > 0
    ensures RowTileSource(d, cols) != rows * cols - 1
  {
    var z, ki, r, c := RowTileForm(d, rows, cols);
    NotLast(z, ki, r, c, rows, cols);
  }

  lemma ColEdgeLost(d: nat, rows: nat, cols: nat)
    requires rows > 0 && cols > 0 && !(rows % R == 0 && cols % R == 0) && d < Packed(rows, cols) && rows / R > 0
    ensures ColTileSource(d, rows, cols) != rows * cols - 1
  {
    var nj, ki, r, c := ColTileForm(d, rows, cols);
    NotLast(ki, nj, r, c, rows, cols);
  }

  lemma NotLast(z: nat, ki: nat, r: nat, c: nat, rows: nat, cols: nat)
    requires rows > 0 && cols > 0 && !(rows % R == 0 && cols % R == 0)
    requires z < rows / R && ki < cols / R && r < R && c < R
    ensures (z * R + r) * cols + (ki * R + c) != rows * cols - 1
  {
    assert rows * cols - 1 == (rows - 1) * cols + (cols - 1);
    DivMod(rows - 1, cols - 1, cols);
    DivMod(z * R + r, ki * R + c, cols);
  }
}
