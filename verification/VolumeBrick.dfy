/** Which part of a volume each simulation rank loads, and how it reads it from the file in pieces
    (examples/volume_example_sim.cpp). */
module VolumeBrick {
  import opened Arithmetic
  import opened SimStates
  import opened Grid

  datatype Vec3 = Vec3(x: nat, y: nat, z: nat) {
    function Volume(): nat { x * y * z }
    predicate Below(v: Vec3) { x < v.x && y < v.y && z < v.z }
  }

  // ----- Cells of a box, counted x first -----------------------------------------------------------------

  predicate Positive(dims: Vec3) { dims.x >= 1 && dims.y >= 1 && dims.z >= 1 }

  function Cell(dims: Vec3, n: nat): Vec3 requires dims.x >= 1 && dims.y >= 1 {
    assert dims.x * dims.y >= 1 by { ProductGrows(1, dims.x, 1, dims.y); }
    Vec3(n % dims.x, (n / dims.x) % dims.y, n / (dims.x * dims.y))
  }

  function Index(dims: Vec3, c: Vec3): nat { c.x + dims.x * (c.y + dims.y * c.z) }

  lemma Distribute(q: nat, b: nat, r: nat, a: nat)
    ensures (q * b + r) * a == q * (a * b) + r * a
  {
  }

  lemma LowDigits(r: nat, b: nat, a: nat, s: nat)
    requires r < b && s < a
    ensures r * a + s < a * b
  {
    ProductGrows(r + 1, b, a, a);
  }

  lemma TwoDigits(n: nat, a: nat, b: nat, q: nat, r: nat, s: nat)
    requires r < b && s < a && n == (q * b + r) * a + s
    ensures a * b >= 1 && n / (a * b) == q
  {
    LowDigits(r, b, a, s);
    Distribute(q, b, r, a);
    var ab, low := a * b, r * a + s;
    DivMod(n, ab, q, low);
  }

  lemma DivDiv(n: nat, a: nat, b: nat)
    requires a >= 1 && b >= 1
    ensures a * b >= 1 && n / (a * b) == n / a / b
  {
    var m := n / a;
    assert n == m * a + n % a;
    assert m == (m / b) * b + m % b;
    TwoDigits(n, a, b, m / b, m % b, n % a);
  }

  lemma CellOfIndex(dims: Vec3, n: nat)
    requires Positive(dims) && n < dims.Volume()
    ensures Cell(dims, n).Below(dims) && Index(dims, Cell(dims, n)) == n
  {
    DivDiv(n, dims.x, dims.y);
    var c := Cell(dims, n);
    assert n / dims.x == dims.y * c.z + c.y;
    if c.z >= dims.z {
      ProductGrows(dims.x * dims.y, dims.x * dims.y, dims.z, c.z);
      assert false;
    }
  }

  lemma IndexOfCell(dims: Vec3, c: Vec3)
    requires c.Below(dims)
    ensures Positive(dims) && Index(dims, c) < dims.Volume() && Cell(dims, Index(dims, c)) == c
  {
    var n := Index(dims, c);
    DivMod(n, dims.x, c.y + dims.y * c.z, c.x);
    DivMod(n / dims.x, dims.y, c.z, c.y);
    DivDiv(n, dims.x, dims.y);
    InRange(c.x, dims.x, c.y + dims.y * c.z, dims.y * dims.z) by { InRange(c.y, dims.y, c.z, dims.z); }
  }

  lemma InRange(a: nat, n: nat, b: nat, m: nat)
    requires a < n && b < m
    ensures a + n * b < n * m
  {
    ProductGrows(n, n, b + 1, m);
  }

  // ----- Ranks and bricks --------------------------------------------------------------------------------------

  /** compute_grid's answer for a number of ranks. */
  function GridOf(num: nat): Vec3 {
    Vec3(Dealt(Factors(num), 0), Dealt(Factors(num), 1), Dealt(Factors(num), 2))
  }

  /** Ranks and grid cells correspond one to one: rank r is the r-th cell, counting x first and z last. */
  lemma RanksAreCells(num: nat, rank: nat, id: Vec3)
    requires num >= 1
    ensures var grid := GridOf(num);
            && grid.x * grid.y * grid.z == num && Positive(grid)
            && (rank < num ==>
                  var c := Cell(grid, rank);
                  c.x < grid.x && c.y < grid.y && c.z < grid.z && c.x + grid.x * (c.y + grid.y * c.z) == rank)
            && (id.x < grid.x && id.y < grid.y && id.z < grid.z ==>
                  var r := id.x + grid.x * (id.y + grid.y * id.z);
                  r < num && Cell(grid, r) == id)
  {
    GridMultiplies(num);
    GridIsBalanced(num);
    hide Dealt, Factors;
    var grid := GridOf(num);
    if rank < num { CellOfIndex(grid, rank); }
    if id.Below(grid) { IndexOfCell(grid, id); }
  }

  /** The grid is longest along x if the number of prime factors is 3k + 1, along y if it is 3k + 2 and along z if it
      is 3k, and the axes follow one another from the longest down: x, z, y or y, x, z or z, y, x. */
  lemma GridIsOrdered(num: nat)
    requires num >= 1
    ensures var grid, k := GridOf(num), |Factors(num)|;
            && (k % 3 == 0 ==> grid.x <= grid.y <= grid.z <= grid.x * Largest(Factors(num)))
            && (k % 3 == 1 ==> grid.y <= grid.z <= grid.x <= grid.y * Largest(Factors(num)))
            && (k % 3 == 2 ==> grid.z <= grid.x <= grid.y <= grid.z * Largest(Factors(num)))
            && (Prime(num) ==> grid == Vec3(num, 1, 1))
  {
    GridIsBalanced(num);
    if Prime(num) { PrimeInARow(num); }
    hide Dealt, Factors;
  }

  function BrickDims(grid: Vec3, volume: Vec3): Vec3 requires Positive(grid) {
    Vec3(volume.x / grid.x, volume.y / grid.y, volume.z / grid.z)
  }

  function BrickLower(grid: Vec3, volume: Vec3, rank: nat): Vec3 requires Positive(grid) {
    var id, dims := Cell(grid, rank), BrickDims(grid, volume);
    Vec3(id.x * dims.x, id.y * dims.y, id.z * dims.z)
  }

  predicate InBrick(grid: Vec3, volume: Vec3, rank: nat, v: Vec3) requires Positive(grid) {
    var lower, dims := BrickLower(grid, volume, rank), BrickDims(grid, volume);
    lower.x <= v.x < lower.x + dims.x && lower.y <= v.y < lower.y + dims.y && lower.z <= v.z < lower.z + dims.z
  }

  lemma OnAxis(i: nat, d: nat, v: nat)
    ensures i * d <= v < i * d + d <==> d >= 1 && v / d == i
  {
    if i * d <= v < i * d + d { DivMod(v, d, i, v - i * d); }
    if d >= 1 && v / d == i { assert v == i * d + v % d; }
  }

  /** Along one axis: the cells of d voxels reach exactly as far as n of them do. */
  lemma Reach(v: nat, d: nat, n: nat)
    requires d >= 1
    ensures v / d < n <==> v < n * d
  {
    assert v == (v / d) * d + v % d;
    if v / d < n { ProductGrows(v / d + 1, n, d, d); } else { ProductGrows(n, v / d, d, d); }
  }

  /** The brick a voxel is in, if it is in any: the one whose cell the voxel's coordinates divide into. */
  lemma BrickOf(grid: Vec3, volume: Vec3, rank: nat, v: Vec3)
    requires Positive(grid) && rank < grid.Volume()
    ensures var dims := BrickDims(grid, volume);
            InBrick(grid, volume, rank, v) <==> Positive(dims) && Cell(grid, rank) == Vec3(v.x / dims.x, v.y / dims.y, v.z / dims.z)
  {
    var id, dims := Cell(grid, rank), BrickDims(grid, volume);
    OnAxis(id.x, dims.x, v.x);
    OnAxis(id.y, dims.y, v.y);
    OnAxis(id.z, dims.z, v.z);
  }

  /** A brick's size along one axis is the largest that all the bricks in a row have room for. */
  lemma BrickSize(v: nat, n: nat)
    requires n >= 1
    ensures n * (v / n) <= v < n * (v / n + 1)
  {
    assert v == n * (v / n) + v % n;
  }

  /** The first part of load_volume_brick: the grid, the place of a rank in it, and the size and the lower corner of
      the rank's brick. BrickOfRank says what these are. */
  method ComputeBrick(volume: Vec3, rank: nat, size: nat) returns (grid: Vec3, brickId: Vec3, dims: Vec3, brickLower: Vec3)
    requires rank < size
    ensures grid == GridOf(size) && Positive(grid)
    ensures brickId == Cell(grid, rank) && dims == BrickDims(grid, volume) && brickLower == BrickLower(grid, volume, rank)
  {
    hide Factors, Dealt, Prime;
    var axes := ComputeGrid(size);
    grid := Vec3(axes[0], axes[1], axes[2]);
    RanksAreCells(size, rank, Vec3(0, 0, 0));
    hide GridOf;
    NoZero(grid);
    brickId := Vec3(rank % grid.x, (rank / grid.x) % grid.y, rank / (grid.x * grid.y));
    dims := Vec3(volume.x / grid.x, volume.y / grid.y, volume.z / grid.z);
    brickLower := Vec3(brickId.x * dims.x, brickId.y * dims.y, brickId.z * dims.z);
  }

  /** The rank-th brick, counting along x first and along z last, begins where those before it on each axis end, and
      is as large as the volume has room for. */
  lemma BrickOfRank(volume: Vec3, rank: nat, size: nat)
    requires rank < size
    ensures Positive(GridOf(size))
    ensures var grid := GridOf(size);
            var id, dims, lower := Cell(grid, rank), BrickDims(grid, volume), BrickLower(grid, volume, rank);
            && id.x < grid.x && id.y < grid.y && id.z < grid.z && id.x + grid.x * (id.y + grid.y * id.z) == rank
            && lower.x == id.x * dims.x && lower.y == id.y * dims.y && lower.z == id.z * dims.z
            && grid.x * dims.x <= volume.x < grid.x * (dims.x + 1)
            && grid.y * dims.y <= volume.y < grid.y * (dims.y + 1)
            && grid.z * dims.z <= volume.z < grid.z * (dims.z + 1)
  {
    RanksAreCells(size, rank, Vec3(0, 0, 0));
    var grid := GridOf(size);
    hide GridOf, Cell;
    BrickSize(volume.x, grid.x);
    BrickSize(volume.y, grid.y);
    BrickSize(volume.z, grid.z);
  }

  lemma NoZero(grid: Vec3)
    requires Positive(grid)
    ensures grid.x * grid.y != 0
  {
    ProductGrows(1, grid.x, 1, grid.y);
  }

  predicate Covered(grid: Vec3, volume: Vec3, v: Vec3) requires Positive(grid) {
    exists rank: nat :: rank < grid.Volume() && InBrick(grid, volume, rank, v)
  }

  /** The bricks are disjoint, and together they are exactly the box of grid * dims voxels. */
  lemma BricksTile(grid: Vec3, volume: Vec3, v: Vec3)
    requires Positive(grid)
    ensures var dims := BrickDims(grid, volume);
            Covered(grid, volume, v) <==> v.Below(Vec3(grid.x * dims.x, grid.y * dims.y, grid.z * dims.z))
    ensures forall r: nat, s: nat :: r < grid.Volume() && s < grid.Volume() && InBrick(grid, volume, r, v) && InBrick(grid, volume, s, v) ==> r == s
  {
    var dims := BrickDims(grid, volume);
    var box := Vec3(grid.x * dims.x, grid.y * dims.y, grid.z * dims.z);
    if Positive(dims) {
      var id := Vec3(v.x / dims.x, v.y / dims.y, v.z / dims.z);
      Reach(v.x, dims.x, grid.x);
      Reach(v.y, dims.y, grid.y);
      Reach(v.z, dims.z, grid.z);
      assert id.Below(grid) <==> v.Below(box);
      if id.Below(grid) {
        IndexOfCell(grid, id);
        BrickOf(grid, volume, Index(grid, id), v);
      }
    }
    forall r: nat | r < grid.Volume() && InBrick(grid, volume, r, v) ensures Positive(dims) && v.Below(box) && r == Index(grid, Vec3(v.x / dims.x, v.y / dims.y, v.z / dims.z)) {
      BrickOf(grid, volume, r, v);
      CellOfIndex(grid, r);
    }
  }

  /** Every brick lies in the volume, and the bricks are the whole volume exactly when the grid divides it. */
  lemma BricksCoverVolume(grid: Vec3, volume: Vec3)
    requires Positive(grid) && Positive(volume)
    ensures forall v: Vec3 :: Covered(grid, volume, v) ==> v.Below(volume)
    ensures (forall v: Vec3 :: v.Below(volume) ==> Covered(grid, volume, v))
            <==> volume.x % grid.x == 0 && volume.y % grid.y == 0 && volume.z % grid.z == 0
  {
    var dims := BrickDims(grid, volume);
    assert volume.x == grid.x * dims.x + volume.x % grid.x;
    assert volume.y == grid.y * dims.y + volume.y % grid.y;
    assert volume.z == grid.z * dims.z + volume.z % grid.z;
    forall v: Vec3 ensures Covered(grid, volume, v) <==> v.Below(Vec3(grid.x * dims.x, grid.y * dims.y, grid.z * dims.z)) {
      BricksTile(grid, volume, v);
    }
    var corner := Vec3(volume.x - 1, volume.y - 1, volume.z - 1);
    assert corner.Below(volume);
  }
}
