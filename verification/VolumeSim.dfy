/** The rest of examples/volume_example_sim.cpp: a rank loads its brick and publishes it as a field. */
module VolumeSim {
  import opened SimStates
  import opened Arithmetic
  import opened Grid
  import opened VolumeBrick
  import opened VolumeRead

  /** The types that load_raw_volume knows by name. */
  datatype VoxelType = Uint8 | Uint16 | Float32 | Float64

  /** voxel_size in load_raw_volume. */
  function SizeOf(t: VoxelType): nat {
    match t case Uint8 => 1 case Uint16 => 2 case Float32 => 4 case Float64 => 8
  }

  datatype Brick = Brick(lower: Vec3, dims: Vec3, dtype: DType, voxelData: array<byte>)

  /** The grid leaves every rank some voxels. */
  predicate GridFits(volume: Vec3, size: nat) {
    GridOf(size).x <= volume.x && GridOf(size).y <= volume.y && GridOf(size).z <= volume.z
  }

  lemma BrickHasVoxels(volume: Vec3, rank: nat, size: nat)
    requires rank < size && GridFits(volume, size)
    ensures Positive(GridOf(size)) && BrickDims(GridOf(size), volume).Volume() >= 1
    ensures Fits(BrickDims(GridOf(size), volume), BrickLower(GridOf(size), volume, rank), volume)
  {
    BrickOfRank(volume, rank, size);
    var grid := GridOf(size);
    hide GridOf, Cell;
    var id, dims, lower := Cell(grid, rank), BrickDims(grid, volume), BrickLower(grid, volume, rank);
    hide BrickDims, BrickLower;
    OneFits(grid.x, dims.x, volume.x, id.x);
    OneFits(grid.y, dims.y, volume.y, id.y);
    OneFits(grid.z, dims.z, volume.z, id.z);
    VolumePositive(dims);
  }

  lemma OneFits(n: nat, d: nat, v: nat, i: nat)
    requires i < n <= v < n * (d + 1) && n * d <= v
    ensures d >= 1 && i * d + d <= v
  {
    assert i * d + d == (i + 1) * d;
    ProductGrows(i + 1, n, d, d);
  }

  /** load_volume_brick; None stands for the exception for a type that it does not support. */
  method LoadVolumeBrick(file: seq<byte>, volume: Vec3, voxelType: VoxelType, rank: nat, size: nat) returns (brick: Option<Brick>)
    requires rank < size && GridFits(volume, size) && |file| == volume.x * volume.y * volume.z * SizeOf(voxelType)
    ensures brick.None? <==> voxelType == Uint16
    ensures brick.Some? ==>
              && fresh(brick.value.voxelData) && Positive(GridOf(size))
              && brick.value.dims == BrickDims(GridOf(size), volume)
              && brick.value.lower == BrickLower(GridOf(size), volume, rank)
              && brick.value.dtype == (if voxelType == Uint8 then UINT8 else if voxelType == Float32 then FLOAT else DOUBLE)
              && Readable(file, volume, brick.value.dims, brick.value.lower, SizeOf(voxelType)) && brick.value.dims.Volume() >= 1
              && brick.value.voxelData[..] == Loaded(file, volume, brick.value.dims, brick.value.lower, SizeOf(voxelType))
  {
    hide GridOf, Loaded;
    BrickHasVoxels(volume, rank, size);
    var grid, brickId, dims, lower := ComputeBrick(volume, rank, size);
    if voxelType == Uint16 {
      return None;
    }
    var dtype := match voxelType case Uint8 => UINT8 case Float32 => FLOAT case _ => DOUBLE;
    var data := LoadRawVolume(file, volume, dims, lower, SizeOf(voxelType));
    brick := Some(Brick(lower, dims, dtype, data));
  }

  /** A part of something that fits memory does so too, and the 64-bit product is the product. */
  lemma FieldIsWhole(volume: Vec3, dims: Vec3, voxelSize: nat)
    requires dims.x <= volume.x && dims.y <= volume.y && dims.z <= volume.z
    requires volume.x * volume.y * volume.z * voxelSize < U64
    ensures dims.x * dims.y * dims.z * voxelSize % U64 == Bytes(dims, voxelSize)
    ensures dims.Volume() * voxelSize == Bytes(dims, voxelSize) < U64
  {
    ProductGrows(dims.x, volume.x, dims.y, volume.y);
    ProductGrows(dims.x * dims.y, volume.x * volume.y, dims.z, volume.z);
    ProductGrows(dims.x * dims.y * dims.z, volume.x * volume.y * volume.z, voxelSize, voxelSize);
  }

  /** What main does before its loop: a brick of any of the types becomes a field of the state, whole, as the size
      of its voxels is the stride of its type. */
  method PublishBrick(file: seq<byte>, volume: Vec3, voxelType: VoxelType, rank: nat, size: nat, state: SimStateHandle, name: Name)
    requires rank < size && GridFits(volume, size) && |file| == volume.x * volume.y * volume.z * SizeOf(voxelType)
    requires volume.x < U64 && volume.y < U64 && volume.z < U64 && |file| < U64
    requires state.Valid() && |state.state.buffers| + 1 < U64 && |name| + 52 < U64
    modifies state
    ensures state.Valid()
    ensures voxelType == Uint16 ==> state.state == old(state.state)
    ensures voxelType != Uint16 ==>
              && Positive(GridOf(size))
              && var dims, lower := BrickDims(GridOf(size), volume), BrickLower(GridOf(size), volume, rank);
                 && Readable(file, volume, dims, lower, SizeOf(voxelType)) && dims.Volume() >= 1
                 && name in state.state.buffers
                 && state.state.buffers[name].data.bytes == Loaded(file, volume, dims, lower, SizeOf(voxelType))
                 && state.state.buffers[name].data.stride == SizeOf(voxelType)
                 && state.state.buffers[name].data.stride == (if voxelType == Uint8 then 1 else if voxelType == Float32 then 4 else 8)
  {
    var brick := LoadVolumeBrick(file, volume, voxelType, rank, size);
    if brick.Some? {
      var dims := brick.value.dims;
      BrickHasVoxels(volume, rank, size);
      FieldIsWhole(volume, dims, SizeOf(voxelType));
      hide Loaded, GridOf, BrickDims, BrickLower;
      state.SetField(name, Dims(dims.x, dims.y, dims.z), brick.value.dtype, brick.value.voxelData[..]);
      assert brick.value.voxelData[..][..brick.value.voxelData.Length] == brick.value.voxelData[..];
    }
  }

  lemma RankOfVoxel(volume: Vec3, size: nat, v: Vec3) returns (rank: nat, local: Vec3)
    requires size >= 1 && Positive(GridOf(size))
    requires var grid, dims := GridOf(size), BrickDims(GridOf(size), volume);
             v.x < grid.x * dims.x && v.y < grid.y * dims.y && v.z < grid.z * dims.z
    ensures rank < size && forall r: nat :: r < size ==> (InBrick(GridOf(size), volume, r, v) <==> r == rank)
    ensures var dims, lower := BrickDims(GridOf(size), volume), BrickLower(GridOf(size), volume, rank);
            && v == Vec3(lower.x + local.x, lower.y + local.y, lower.z + local.z)
            && local.x < dims.x && local.y < dims.y && local.z < dims.z
  {
    var grid := GridOf(size);
    RanksAreCells(size, 0, Vec3(0, 0, 0));
    hide GridOf, Cell;
    BricksTile(grid, volume, v);
    rank :| rank < grid.Volume() && InBrick(grid, volume, rank, v);
    var lower := BrickLower(grid, volume, rank);
    hide BrickDims, BrickLower;
    local := Vec3(v.x - lower.x, v.y - lower.y, v.z - lower.z);
  }

  function Position(dims: Vec3, voxelSize: nat, v: Vec3, b: nat): nat {
    (v.x + dims.x * (v.y + dims.y * v.z)) * voxelSize + b
  }

  /** Of all the fields that the ranks publish, every voxel that any brick reaches is in exactly one, at the place that
      its position in that brick has, and it is the voxel of the file unless its slice is one that is not read. */
  lemma EveryVoxelOnce(file: seq<byte>, volume: Vec3, voxelSize: nat, size: nat, v: Vec3, b: nat, q: nat) returns (rank: nat, local: Vec3, p: nat)
    requires size >= 1 && GridFits(volume, size) && VoxelSize(voxelSize) && |file| == volume.x * volume.y * volume.z * voxelSize
    requires Positive(GridOf(size)) && b < voxelSize && q == (v.x + volume.x * (v.y + volume.y * v.z)) * voxelSize + b
    requires var grid, dims := GridOf(size), BrickDims(GridOf(size), volume);
             v.x < grid.x * dims.x && v.y < grid.y * dims.y && v.z < grid.z * dims.z
    ensures rank < size && forall r: nat :: r < size ==> (InBrick(GridOf(size), volume, r, v) <==> r == rank)
    ensures var dims, lower := BrickDims(GridOf(size), volume), BrickLower(GridOf(size), volume, rank);
            && v == Vec3(lower.x + local.x, lower.y + local.y, lower.z + local.z)
            && local.x < dims.x && local.y < dims.y && local.z < dims.z
            && p == (local.x + dims.x * (local.y + dims.y * local.z)) * voxelSize + b
            && Readable(file, volume, dims, lower, voxelSize) && dims.Volume() >= 1
            && p < |Loaded(file, volume, dims, lower, voxelSize)| && q < |file|
            && Loaded(file, volume, dims, lower, voxelSize)[p] == if local.z < dims.z - dims.z % NChunks(dims, voxelSize) then file[q] else 0
  {
    rank, local := RankOfVoxel(volume, size, v);
    BrickHasVoxels(volume, rank, size);
    var dims, lower := BrickDims(GridOf(size), volume), BrickLower(GridOf(size), volume, rank);
    hide GridOf, Cell, Loaded, NChunks, BrickDims, BrickLower, InBrick;
    p := Position(dims, voxelSize, local, b);
    assert volume.Volume() * voxelSize == volume.x * volume.y * volume.z * voxelSize;
    LoadedVoxel(file, volume, dims, lower, voxelSize, local, b, p, q);
  }
}
