/** How finished C tiles reach memory: gathered per column, walked by the mem tile's DMA, written through the C taps. */
module Memory {
  import opened Arith
  import opened CoreBody
  import opened Grid
  import opened Taps

  type Matrix = (int, int) -> real

  /** What the dataflow network leaves open: the matrices, what the FIFO objects of rows and columns contain, the kernel. */
  datatype World = World(A: Matrix, B: Matrix, a: nat -> Objects, b: nat -> Objects, kernel: Kernel, ly: Tiling)

  /** Which address of a core's tile is sent at each position of its stream. */
  type Walk = int -> int

  /** Without a stride list a tile is sent as it lies. */
  const Linear: Walk := q => q

  ghost predicate Within(read: Walk, size: nat) { forall q: nat :: q < size ==> 0 <= read(q) < size }

  /** Every core's tile of every group has reached memory. */
  ghost predicate AllWritten(sh: Shape, s: State) {
    && s.cores.Keys == (set r, c | 0 <= r < sh.rows && 0 <= c < sh.cols :: Pos(r, c))
    && forall p :: p in s.cores ==> sh.m > 0 && sh.rows > 0 && sh.n > 0 && sh.cols > 0 && |s.cores[p].out| == Groups(sh)
  }

  /** The tile a core left for a group. */
  function TileAt(sh: Shape, w: World, s: State, p: Pos, g: int): seq<real> {
    if p !in s.cores || !(0 <= g < |s.cores[p].out|) then []
    else var log := s.cores[p].out[g]; Accumulated(w.kernel, w.a(p.row), w.b(p.col), log, |log|, sh.m * sh.n)
  }

  /** The C object gathered on a column: slot i, of m * n elements, holds the tile of core row i. */
  function Gathered(sh: Shape, w: World, s: State, g: int, col: nat): int -> real
    requires sh.m * sh.n > 0
  {
    e => if e < 0 then 0.0 else Element(TileAt(sh, w, s, Pos(e / (sh.m * sh.n), col), g), e % (sh.m * sh.n))
  }

  /** The object's stream: the walk is applied slot by slot. */
  function Streamed(obj: int -> real, read: Walk, size: nat): nat -> real
    requires size > 0
  {
    (pos: nat) => obj(pos / size * size + read(pos % size))
  }

  /** The C tap, of rows * m times n elements, that element (X, Y) of C lies in, and where in the tap it comes. */
  function TapAt(sh: Shape, X: nat, Y: nat): int
    requires Positive(sh) && sh.rows * sh.m > 0
  {
    X / (sh.rows * sh.m) * (sh.N / sh.n) + Y / sh.n
  }

  function PositionAt(sh: Shape, X: nat, Y: nat): int
    requires Positive(sh) && sh.rows * sh.m > 0
  {
    X % (sh.rows * sh.m) * sh.n + Y % sh.n
  }

  /** C in memory: the task of a group and column writes the stream of its C object through tap g * cols + col. */
  function CMemory(sh: Shape, read: Walk, w: World, s: State, X: nat, Y: nat): real
    requires Positive(sh)
  {
    Multiple(sh.rows, sh.m);
    Multiple(sh.m, sh.n);
    var tap, pos := TapAt(sh, X, Y), PositionAt(sh, X, Y);
    if tap < 0 || pos < 0 then 0.0
    else Streamed(Gathered(sh, w, s, tap / sh.cols, tap % sh.cols), read, sh.m * sh.n)(pos)
  }

  lemma TapOfPlace(sh: Shape, p: Place, X: nat, Y: nat)
    requires Divisible(sh) && Writes(sh, p, X, Y) && sh.rows * sh.m > 0
    ensures TapAt(sh, X, Y) >= 0 && TapAt(sh, X, Y) / sh.cols == p.g && TapAt(sh, X, Y) % sh.cols == p.col
    ensures PositionAt(sh, X, Y) == (p.row * sh.m + p.x) * sh.n + p.y
  {
    WrittenElement(sh, p, X, Y);
    MulMonotone(0, p.g, sh.cols);
    DivMod(p.g, p.col, sh.cols);
    DigitsBelow(p.row, sh.rows, p.x, sh.m);
    DivMod(CTap(sh, p.g, p.col) / (sh.N / sh.n), p.row * sh.m + p.x, sh.rows * sh.m);
    DivMod(CTap(sh, p.g, p.col) % (sh.N / sh.n), p.y, sh.n);
  }

  /** Stream position of element (x, y) of slot `row`. */
  lemma SlotPosition(row: nat, x: nat, y: nat, m: nat, n: nat)
    requires x < m && y < n
    ensures 0 < m * n && 0 <= x * n + y < m * n && (row * m + x) * n + y >= 0
    ensures ((row * m + x) * n + y) / (m * n) == row && ((row * m + x) * n + y) % (m * n) == x * n + y
  {
    DigitsBelow(x, m, y, n);
    assert (row * m + x) * n + y == row * (m * n) + (x * n + y);
    MulMonotone(0, row, m * n);
    DivMod(row, x * n + y, m * n);
  }

  lemma StreamedSlot(sh: Shape, read: Walk, w: World, s: State, g: int, col: nat, row: nat, x: nat, y: nat)
    requires x < sh.m && y < sh.n && sh.m * sh.n > 0 && Within(read, sh.m * sh.n)
    ensures 0 <= x * sh.n + y && (row * sh.m + x) * sh.n + y >= 0
    ensures Streamed(Gathered(sh, w, s, g, col), read, sh.m * sh.n)((row * sh.m + x) * sh.n + y)
         == Element(TileAt(sh, w, s, Pos(row, col), g), read(x * sh.n + y))
  {
    SlotPosition(row, x, y, sh.m, sh.n);
    MulMonotone(0, row, sh.m * sh.n);
    DivMod(row, read(x * sh.n + y), sh.m * sh.n);
  }

  /** An element of C is the element of its place's tile that the walk sends for it. */
  lemma MemoryElement(sh: Shape, read: Walk, w: World, s: State, X: nat, Y: nat)
    requires Divisible(sh) && X < sh.M && Y < sh.N && Within(read, sh.m * sh.n)
    ensures var p := Source(sh, X, Y);
      CMemory(sh, read, w, s, X, Y) == Element(TileAt(sh, w, s, Pos(p.row, p.col), p.g), read(p.x * sh.n + p.y))
  {
    var p := Source(sh, X, Y);
    SourceWrites(sh, X, Y);
    Multiple(sh.rows, sh.m);
    Multiple(sh.m, sh.n);
    TapOfPlace(sh, p, X, Y);
    StreamedSlot(sh, read, w, s, p.g, p.col, p.row, p.x, p.y);
  }
}
