/** The start-up system that seeds the particle system: `particle_count`
    particles laid out row by row on a lattice `ceil(sqrt(count))` columns wide
    and centred on the origin, all at rest, pulled down by gravity and white.
    Coordinates are kept as reals; the f32 `sqrt().ceil()` of the width is the
    exact integer ceiling of the square root. */
module Seeding {
  import opened Types
  import opened Bits

  const PARTICLE_SPACING: real := 7.5
  const GRAVITY: real := 100.0

  datatype Vec2 = Vec2(x: real, y: real)

  datatype Color = Color(r: real, g: real, b: real, a: real)

  /** The particle record the seeding loop pushes. */
  datatype Particle = Particle(
    position: Vec2,
    velocity: Vec2,
    acceleration: Vec2,
    temp1: real,
    temp2: real,
    color: Color)

  /** The least w with w * w >= n. */
  function CeilSqrt(n: nat): (w: nat)
    ensures w * w >= n
    ensures w == 0 || (w - 1) * (w - 1) < n
  {
    CeilSqrtFrom(n, 0)
  }

  function CeilSqrtFrom(n: nat, w: nat): (r: nat)
    requires w == 0 || (w - 1) * (w - 1) < n
    ensures r * r >= n
    ensures r == 0 || (r - 1) * (r - 1) < n
    decreases n - w
  {
    if w * w >= n then w
    else
      assert w <= w * w;
      CeilSqrtFrom(n, w + 1)
  }

  /** `grid_width`. */
  function GridWidth(n: u32): nat
  {
    CeilSqrt(n)
  }

  /** `grid_height`: `ceil(n / w)`; for n = 0 the width is 0, the f32 quotient
      is NaN and the saturating cast turns it into 0. */
  function GridHeight(n: u32): (h: nat)
  {
    var w := GridWidth(n);
    if w == 0 then 0 else CeilDiv(n, w)
  }

  /** The lattice has room for every particle, and no row to spare. */
  lemma GridCovers(n: u32)
    ensures GridWidth(n) * GridHeight(n) >= n
    ensures GridHeight(n) == 0 || (GridHeight(n) - 1) * GridWidth(n) < n
    ensures n == 0 <==> GridWidth(n) == 0
  {
    var w := GridWidth(n);
    var h := GridHeight(n);
    if w > 0 {
      assert h * w >= n;
      assert (h - 1) * w == h * w - w;
    }
  }

  /** `half_width` / `half_height`: half the extent of a side of `count` points. */
  function HalfExtent(count: nat): real
  {
    (count as real - 1.0) * PARTICLE_SPACING / 2.0
  }

  /** `col * spacing - half_width`. */
  function ColumnX(col: nat, w: nat): real
  {
    col as real * PARTICLE_SPACING - HalfExtent(w)
  }

  /** `row * spacing - half_height`. */
  function RowY(row: nat, h: nat): real
  {
    row as real * PARTICLE_SPACING - HalfExtent(h)
  }

  /** The particle pushed for lattice cell (row, col). */
  function SeedParticle(row: nat, col: nat, w: nat, h: nat): Particle
  {
    Particle(Vec2(ColumnX(col, w), RowY(row, h)), Vec2(0.0, 0.0), Vec2(0.0, -GRAVITY), 0.0, 0.0,
             Color(1.0, 1.0, 1.0, 1.0))
  }

  /** The i-th particle is pushed at row i / w, column i % w. */
  function SeedAt(n: u32, i: nat): Particle
    requires GridWidth(n) > 0
  {
    SeedParticle(i / GridWidth(n), i % GridWidth(n), GridWidth(n), GridHeight(n))
  }

  /** The whole system `setup` spawns, as a reference layout. */
  function SeedLayout(n: u32): (r: seq<Particle>)
    ensures |r| == n
  {
    if n == 0 then [] else seq(n, i requires 0 <= i < n => SeedAt(n, i))
  }

  lemma RowMajor(row: nat, col: nat, w: nat)
    requires col < w
    ensures (row * w + col) / w == row
    ensures (row * w + col) % w == col
  {
    var x := row * w + col;
    var q, r := x / w, x % w;
    assert q * w + r == x;
    assert (q - row) * w == col - r;
    if q > row {
      MulAtLeast(q - row, w);
    } else if q < row {
      MulAtLeast(row - q, w);
    }
  }

  lemma {:induction false} MulAtLeast(a: nat, w: nat)
    requires a >= 1
    ensures a * w >= w
  {
    if a > 1 {
      MulAtLeast(a - 1, w);
      assert a * w == (a - 1) * w + w;
    }
  }

  /** The particles `setup` pushes before handing them to the particle system:
      the row and column loops with the early exit once `particle_count`
      particles exist. */
  method Setup(n: u32) returns (ps: seq<Particle>)
    ensures |ps| == n
    ensures n > 0 ==> forall i :: 0 <= i < |ps| ==> ps[i] == SeedAt(n, i)
    ensures ps == SeedLayout(n)
  {
    var w := GridWidth(n);
    var h := GridHeight(n);
    GridCovers(n);
    ps := [];
    var row := 0;
    while row < h
      invariant row <= h
      invariant |ps| == if row * w <= n then row * w else n
      invariant forall i :: 0 <= i < |ps| ==> ps[i] == SeedAt(n, i)
    {
      var col := 0;
      while col < w
        invariant col <= w
        invariant |ps| == if row * w + col <= n then row * w + col else n
        invariant forall i :: 0 <= i < |ps| ==> ps[i] == SeedAt(n, i)
      {
        if |ps| >= n {
          break;
        }
        var p := SeedParticle(row, col, w, h);
        RowMajor(row, col, w);
        assert p == SeedAt(n, |ps|);
        ps := ps + [p];
        col := col + 1;
      }
      assert (row + 1) * w == row * w + w;
      row := row + 1;
    }
    assert |ps| == n by {
      if h > 0 {
        assert h * w >= n;
      } else {
        assert n == 0;
      }
    }
  }

  /** Every seeded particle starts at rest, with gravity pulling it down, and
      white. */
  lemma SeededParticlesAtRest(n: u32, i: nat)
    requires i < n
    ensures var p := SeedLayout(n)[i];
            && p.velocity == Vec2(0.0, 0.0)
            && p.acceleration == Vec2(0.0, -GRAVITY)
            && p.temp1 == 0.0 && p.temp2 == 0.0
            && p.color == Color(1.0, 1.0, 1.0, 1.0)
  {
  }

  /** Every particle sits inside the lattice: its row is below the height and
      its column below the width. */
  lemma SeedsInsideGrid(n: u32, i: nat)
    requires i < n
    ensures GridWidth(n) > 0
    ensures i / GridWidth(n) < GridHeight(n) && i % GridWidth(n) < GridWidth(n)
  {
    GridCovers(n);
    var w := GridWidth(n);
    var h := GridHeight(n);
    var q := i / w;
    assert q * w + i % w == i;
    if q >= h {
      MulMonotone(h, q, w);
    }
  }

  lemma {:induction false} MulMonotone(a: nat, b: nat, w: nat)
    requires a <= b
    ensures a * w <= b * w
  {
    if a < b {
      MulMonotone(a, b - 1, w);
      assert b * w == (b - 1) * w + w;
    }
  }

  /** The lattice columns are symmetric about x = 0. */
  lemma ColumnsSymmetric(w: nat, c: nat)
    requires c < w
    ensures ColumnX(w - 1 - c, w) == -ColumnX(c, w)
  {
  }

  /** The lattice rows are symmetric about y = 0. */
  lemma RowsSymmetric(h: nat, r: nat)
    requires r < h
    ensures RowY(h - 1 - r, h) == -RowY(r, h)
  {
  }

  /** No two particles are seeded at the same place. */
  lemma SeedsDistinct(n: u32, i: nat, j: nat)
    requires i < j < n
    ensures SeedLayout(n)[i].position != SeedLayout(n)[j].position
  {
    var w := GridWidth(n);
    var h := GridHeight(n);
    GridCovers(n);
    assert SeedLayout(n)[i] == SeedAt(n, i);
    assert SeedLayout(n)[j] == SeedAt(n, j);
  }
}
