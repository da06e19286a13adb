/** load_raw_volume (examples/volume_example_sim.cpp): a brick is read from the volume's file in several
    subarray reads, because a single one may not exceed 2^31 - 1 bytes. */
module VolumeRead {
  import opened Arithmetic
  import opened SimStates
  import opened Grid
  import opened VolumeBrick

  const INT32_MAX: nat := 0x7FFF_FFFF

  /** uint8, uint16, float32 and float64. */
  predicate VoxelSize(size: nat) { size == 1 || size == 2 || size == 4 || size == 8 }

  /** As many as fit 2^31 - 1 bytes. */
  function ElementsPerRead(voxelSize: nat): (n: nat)
    requires VoxelSize(voxelSize)
    ensures n >= 1 && n * voxelSize <= 0x7FFF_FFFF < (n + 1) * voxelSize
  {
    INT32_MAX / voxelSize
  }

  /** As many reads as it takes, and not one more. */
  function NChunks(brick: Vec3, voxelSize: nat): (n: nat)
    requires VoxelSize(voxelSize)
    ensures n * ElementsPerRead(voxelSize) >= brick.Volume()
    ensures n == 0 || (n - 1) * ElementsPerRead(voxelSize) < brick.Volume()
    ensures brick.Volume() >= 1 ==> n >= 1
  {
    var e := ElementsPerRead(voxelSize);
    assert brick.Volume() == brick.Volume() / e * e + brick.Volume() % e;
    brick.Volume() / e + (if brick.Volume() % e > 0 then 1 else 0)
  }

  /** As many slices to each chunk as there are for all of them. */
  function ChunkThickness(brick: Vec3, voxelSize: nat): (t: nat)
    requires VoxelSize(voxelSize) && brick.Volume() >= 1
    ensures NChunks(brick, voxelSize) * t <= brick.z < NChunks(brick, voxelSize) * (t + 1)
  {
    assert brick.z == NChunks(brick, voxelSize) * (brick.z / NChunks(brick, voxelSize)) + brick.z % NChunks(brick, voxelSize);
    brick.z / NChunks(brick, voxelSize)
  }

  predicate Fits(brick: Vec3, offset: Vec3, volume: Vec3) {
    offset.x + brick.x <= volume.x && offset.y + brick.y <= volume.y && offset.z + brick.z <= volume.z
  }

  /** The bytes of a box of voxels. */
  function Bytes(dims: Vec3, voxelSize: nat): nat { dims.Volume() * voxelSize }

  // ----- What a subarray read delivers ---------------------------------------------------------------------

  predicate Readable(file: seq<byte>, volume: Vec3, dims: Vec3, offset: Vec3, voxelSize: nat) {
    VoxelSize(voxelSize) && Fits(dims, offset, volume) && |file| == Bytes(volume, voxelSize)
  }

  function Shifted(c: Vec3, offset: Vec3): Vec3 { Vec3(c.x + offset.x, c.y + offset.y, c.z + offset.z) }

  lemma VolumePositive(dims: Vec3)
    ensures dims.Volume() >= 1 <==> Positive(dims)
  {
    if Positive(dims) {
      ProductGrows(1, dims.x, 1, dims.y);
      ProductGrows(1, dims.x * dims.y, 1, dims.z);
    }
  }

  lemma ByteInFile(volume: Vec3, c: Vec3, voxelSize: nat, b: nat)
    requires c.Below(volume) && b < voxelSize
    ensures Index(volume, c) * voxelSize + b < Bytes(volume, voxelSize)
  {
    IndexOfCell(volume, c);
    ProductGrows(Index(volume, c) + 1, volume.Volume(), voxelSize, voxelSize);
  }

  lemma VoxelBelow(dims: Vec3, p: nat, voxelSize: nat)
    requires voxelSize >= 1 && p < Bytes(dims, voxelSize)
    ensures p / voxelSize < dims.Volume() && Positive(dims)
  {
    var v := p / voxelSize;
    if v >= dims.Volume() { ProductGrows(dims.Volume(), v, voxelSize, voxelSize); }
    assert v < dims.Volume();
    VolumePositive(dims);
  }

  /** The bytes of the voxels of a box in the file, voxel by voxel with x running fastest. */
  function SubarrayByte(file: seq<byte>, volume: Vec3, dims: Vec3, offset: Vec3, voxelSize: nat, p: nat): byte
    requires Readable(file, volume, dims, offset, voxelSize) && p < Bytes(dims, voxelSize)
  {
    VoxelBelow(dims, p, voxelSize);
    CellOfIndex(dims, p / voxelSize);
    var c := Shifted(Cell(dims, p / voxelSize), offset);
    ByteInFile(volume, c, voxelSize, p % voxelSize);
    file[Index(volume, c) * voxelSize + p % voxelSize]
  }

  function Subarray(file: seq<byte>, volume: Vec3, dims: Vec3, offset: Vec3, voxelSize: nat): (bytes: seq<byte>)
    requires Readable(file, volume, dims, offset, voxelSize)
    ensures |bytes| == Bytes(dims, voxelSize)
  {
    seq(Bytes(dims, voxelSize), p requires 0 <= p < Bytes(dims, voxelSize) =>
      SubarrayByte(file, volume, dims, offset, voxelSize, p))
  }

  /** Voxel (x, y, z) of the box is voxel (x, y, z) + offset of the volume, byte for byte. */
  lemma SubarrayVoxel(file: seq<byte>, volume: Vec3, dims: Vec3, offset: Vec3, voxelSize: nat, v: Vec3, b: nat, p: nat, q: nat)
    requires Readable(file, volume, dims, offset, voxelSize)
    requires v.x < dims.x && v.y < dims.y && v.z < dims.z && b < voxelSize
    requires p == (v.x + dims.x * (v.y + dims.y * v.z)) * voxelSize + b
    requires q == (v.x + offset.x + volume.x * (v.y + offset.y + volume.y * (v.z + offset.z))) * voxelSize + b
    ensures p < |Subarray(file, volume, dims, offset, voxelSize)| && q < |file|
    ensures Subarray(file, volume, dims, offset, voxelSize)[p] == file[q]
  {
    var at := Index(dims, v);
    var c := Vec3(v.x + offset.x, v.y + offset.y, v.z + offset.z);
    assert p == at * voxelSize + b && q == Index(volume, c) * voxelSize + b;
    IndexOfCell(dims, v);
    ByteInFile(dims, v, voxelSize, b);
    DivMod(p, voxelSize, at, b);
    ByteInFile(volume, c, voxelSize, b);
    VoxelHere(file, volume, dims, offset, voxelSize, p, v);
    hide Index, Cell, Bytes, SubarrayByte, Readable;
    ByteAt(file, volume, dims, offset, voxelSize, p);
  }

  lemma ByteAt(file: seq<byte>, volume: Vec3, dims: Vec3, offset: Vec3, voxelSize: nat, p: nat)
    requires Readable(file, volume, dims, offset, voxelSize) && p < Bytes(dims, voxelSize)
    ensures Subarray(file, volume, dims, offset, voxelSize)[p] == SubarrayByte(file, volume, dims, offset, voxelSize, p)
  {
    hide SubarrayByte, Readable, Bytes;
  }

  lemma VoxelHere(file: seq<byte>, volume: Vec3, dims: Vec3, offset: Vec3, voxelSize: nat, p: nat, v: Vec3)
    requires Readable(file, volume, dims, offset, voxelSize) && p < Bytes(dims, voxelSize)
    requires dims.x >= 1 && dims.y >= 1 && Cell(dims, p / voxelSize) == v && v.Below(dims)
    ensures Index(volume, Shifted(v, offset)) * voxelSize + p % voxelSize < |file|
    ensures SubarrayByte(file, volume, dims, offset, voxelSize, p) == file[Index(volume, Shifted(v, offset)) * voxelSize + p % voxelSize]
  {
    ByteInFile(volume, Shifted(v, offset), voxelSize, p % voxelSize);
    hide Index, Cell, Bytes;
  }

  /** MPI_File_read_all with a subarray view. */
  method ReadSubarray(file: seq<byte>, volume: Vec3, dims: Vec3, offset: Vec3, voxelSize: nat, data: array<byte>, at: nat)
    requires Readable(file, volume, dims, offset, voxelSize) && at + Bytes(dims, voxelSize) <= data.Length
    modifies data
    ensures data[..at] == old(data[..at])
    ensures data[at..at + Bytes(dims, voxelSize)] == Subarray(file, volume, dims, offset, voxelSize)
    ensures data[at + Bytes(dims, voxelSize)..] == old(data[at + Bytes(dims, voxelSize)..])
  {
    var bytes := Subarray(file, volume, dims, offset, voxelSize);
    forall i | 0 <= i < |bytes| { data[at + i] := bytes[i]; }
  }

  // ----- Chunks are slices of the brick ------------------------------------------------------------------------

  function Slice(brick: Vec3): nat { brick.x * brick.y }

  /** t slices of the brick. */
  function Chunk(brick: Vec3, t: nat): Vec3 { Vec3(brick.x, brick.y, t) }

  lemma SlicesOf(brick: Vec3, voxelSize: nat, k: nat, t: nat)
    ensures Bytes(Chunk(brick, k), voxelSize) + Bytes(Chunk(brick, t), voxelSize) == Bytes(Chunk(brick, k + t), voxelSize)
    ensures k + t <= brick.z ==> Bytes(Chunk(brick, k + t), voxelSize) <= Bytes(brick, voxelSize)
  {
    var per := Slice(brick) * voxelSize;
    BytesOfSlices(brick, voxelSize, k);
    BytesOfSlices(brick, voxelSize, t);
    BytesOfSlices(brick, voxelSize, k + t);
    BytesOfSlices(brick, voxelSize, brick.z);
    hide Bytes;
    if k + t <= brick.z { ProductGrows(k + t, brick.z, per, per); }
  }

  lemma BytesOfSlices(brick: Vec3, voxelSize: nat, k: nat)
    ensures Bytes(Chunk(brick, k), voxelSize) == k * (Slice(brick) * voxelSize) == (k * Slice(brick)) * voxelSize
  {
    assert Chunk(brick, k).Volume() == k * Slice(brick);
  }

  lemma AddMultiple(m: nat, b: nat, k: nat)
    requires b >= 1
    ensures (k * b + m) / b == k + m / b && (k * b + m) % b == m % b
  {
    assert m == (m / b) * b + m % b;
    var q := k + m / b;
    assert k * b + m == q * b + m % b;
    DivMod(k * b + m, b, q, m % b);
  }

  /** Skipping k slices moves the cell up by k. */
  lemma CellAbove(brick: Vec3, k: nat, m: nat)
    requires brick.x >= 1 && brick.y >= 1
    ensures Cell(brick, k * Slice(brick) + m) == Shifted(Cell(brick, m), Vec3(0, 0, k))
  {
    ProductGrows(1, brick.x, 1, brick.y);
    assert k * Slice(brick) == (k * brick.y) * brick.x;
    AddMultiple(m, brick.x, k * brick.y);
    AddMultiple(m / brick.x, brick.y, k);
    AddMultiple(m, Slice(brick), k);
  }

  /** A smaller box is read into the brick's bytes from `at` on. */
  ghost predicate IsStretch(file: seq<byte>, volume: Vec3, brick: Vec3, offset: Vec3, voxelSize: nat, dims: Vec3, lower: Vec3, at: nat)
    requires Readable(file, volume, brick, offset, voxelSize)
  {
    && Readable(file, volume, dims, lower, voxelSize)
    && at + Bytes(dims, voxelSize) <= Bytes(brick, voxelSize)
    && Subarray(file, volume, dims, lower, voxelSize)
       == Subarray(file, volume, brick, offset, voxelSize)[at..at + Bytes(dims, voxelSize)]
  }

  /** A chunk of t slices, k slices up, is the corresponding stretch of the brick. */
  lemma ChunkIsStretch(file: seq<byte>, volume: Vec3, brick: Vec3, offset: Vec3, voxelSize: nat, k: nat, t: nat)
    requires Readable(file, volume, brick, offset, voxelSize) && k + t <= brick.z
    ensures IsStretch(file, volume, brick, offset, voxelSize, Chunk(brick, t), Shifted(offset, Vec3(0, 0, k)), Bytes(Chunk(brick, k), voxelSize))
  {
    SlicesOf(brick, voxelSize, k, t);
    ChunkReadable(file, volume, brick, offset, voxelSize, k, t);
    hide Readable, Bytes, Chunk, Shifted, Subarray, SubarrayByte;
    var dims, lower := Chunk(brick, t), Shifted(offset, Vec3(0, 0, k));
    var start, size := Bytes(Chunk(brick, k), voxelSize), Bytes(dims, voxelSize);
    var whole, part := Subarray(file, volume, brick, offset, voxelSize), Subarray(file, volume, dims, lower, voxelSize);
    forall p: nat | p < size ensures part[p] == whole[start + p] {
      StretchByte(file, volume, brick, offset, voxelSize, k, t, p);
      ByteAt(file, volume, brick, offset, voxelSize, start + p);
      ByteAt(file, volume, dims, lower, voxelSize, p);
    }
    assert part == whole[start..start + size];
  }

  lemma ChunkReadable(file: seq<byte>, volume: Vec3, brick: Vec3, offset: Vec3, voxelSize: nat, k: nat, t: nat)
    requires Readable(file, volume, brick, offset, voxelSize) && k + t <= brick.z
    ensures Readable(file, volume, Chunk(brick, t), Shifted(offset, Vec3(0, 0, k)), voxelSize)
  {
  }

  lemma StretchByte(file: seq<byte>, volume: Vec3, brick: Vec3, offset: Vec3, voxelSize: nat, k: nat, t: nat, p: nat)
    requires Readable(file, volume, brick, offset, voxelSize) && k + t <= brick.z
    requires Readable(file, volume, Chunk(brick, t), Shifted(offset, Vec3(0, 0, k)), voxelSize)
    requires p < Bytes(Chunk(brick, t), voxelSize) && Bytes(Chunk(brick, k), voxelSize) + p < Bytes(brick, voxelSize)
    ensures SubarrayByte(file, volume, Chunk(brick, t), Shifted(offset, Vec3(0, 0, k)), voxelSize, p)
            == SubarrayByte(file, volume, brick, offset, voxelSize, Bytes(Chunk(brick, k), voxelSize) + p)
  {
    VoxelBelow(Chunk(brick, t), p, voxelSize);
    ShiftedVoxel(brick, voxelSize, k, t, p);
    hide Cell, Bytes, Index;
  }

  /** k slices up, a byte belongs to the voxel k cells above, at the same place in it. */
  lemma ShiftedVoxel(brick: Vec3, voxelSize: nat, k: nat, t: nat, p: nat)
    requires voxelSize >= 1 && brick.x >= 1 && brick.y >= 1
    ensures var q := Bytes(Chunk(brick, k), voxelSize) + p;
            && q % voxelSize == p % voxelSize
            && Cell(brick, q / voxelSize) == Shifted(Cell(Chunk(brick, t), p / voxelSize), Vec3(0, 0, k))
  {
    BytesOfSlices(brick, voxelSize, k);
    AddMultiple(p, voxelSize, k * Slice(brick));
    CellAbove(brick, k, p / voxelSize);
    hide Bytes;
    assert Cell(Chunk(brick, t), p / voxelSize) == Cell(brick, p / voxelSize);
  }

  // ----- The chunks --------------------------------------------------------------------------------------------------

  /** The largest multiple of n up to z. */
  function Whole(z: nat, n: nat): (r: nat)
    requires n >= 1
    ensures r <= z && r == n * (z / n) && z - r == z % n
  {
    assert z == n * (z / n) + z % n;
    z - z % n
  }

  /** Slices that the loop reads: all but the last brick.z % NChunks. */
  function SlicesRead(brick: Vec3, voxelSize: nat): (n: nat)
    requires VoxelSize(voxelSize) && brick.Volume() >= 1
    ensures n <= brick.z
  {
    Whole(brick.z, NChunks(brick, voxelSize))
  }

  lemma ChunksAddUp(brick: Vec3, voxelSize: nat)
    requires VoxelSize(voxelSize) && brick.Volume() >= 1
    ensures NChunks(brick, voxelSize) * ChunkThickness(brick, voxelSize) == SlicesRead(brick, voxelSize)
  {
  }

  lemma PerChunk(n: nat, t: nat, z: nat, per: nat, e: nat)
    requires n >= 1 && n * t <= z && z * per <= n * e
    ensures t * per <= e
  {
    ProductGrows(n * t, z, per, per);
    assert n * (t * per) == (n * t) * per;
    var a := t * per;
    if a > e { ProductGrows(n, n, e + 1, a); }
  }

  /** No chunk is larger than one read may be. */
  lemma ChunksFitReads(brick: Vec3, voxelSize: nat)
    requires VoxelSize(voxelSize) && brick.Volume() >= 1
    ensures Bytes(Chunk(brick, ChunkThickness(brick, voxelSize)), voxelSize) <= 0x7FFF_FFFF
  {
    var t, e := ChunkThickness(brick, voxelSize), ElementsPerRead(voxelSize);
    ChunksAddUp(brick, voxelSize);
    assert brick.Volume() == brick.z * Slice(brick) && Chunk(brick, t).Volume() == t * Slice(brick);
    PerChunk(NChunks(brick, voxelSize), t, brick.z, Slice(brick), e);
    ProductGrows(t * Slice(brick), e, voxelSize, voxelSize);
  }

  /** The assumption that every X-Y slice fits one read is needed: if it fails nothing is read at all, and if it
      holds, fewer slices are lost than there are chunks. */
  lemma SlicesMustFit(brick: Vec3, voxelSize: nat)
    requires VoxelSize(voxelSize) && brick.Volume() >= 1
    ensures SlicesRead(brick, voxelSize) >= 1 <==> Slice(brick) <= ElementsPerRead(voxelSize)
    ensures SlicesRead(brick, voxelSize) == 0 <==> ChunkThickness(brick, voxelSize) == 0
    ensures brick.z - SlicesRead(brick, voxelSize) < NChunks(brick, voxelSize)
  {
    var n, e, s := NChunks(brick, voxelSize), ElementsPerRead(voxelSize), Slice(brick);
    VolumePositive(brick);
    assert brick.Volume() == brick.z * s;
    if s > e {
      FewerThan(brick.z, n, s, e);
    } else {
      EnoughChunks(brick.z, s, e);
    }
    ChunksAddUp(brick, voxelSize);
    if ChunkThickness(brick, voxelSize) >= 1 { ProductGrows(1, n, 1, ChunkThickness(brick, voxelSize)); }
  }

  lemma FewerThan(z: nat, n: nat, s: nat, e: nat)
    requires z >= 1 && s > e && n * e >= z * s
    ensures z < n
  {
    ProductGrows(z, z, e + 1, s);
    if n <= z { ProductGrows(n, z, e, e); }
  }

  lemma EnoughChunks(z: nat, s: nat, e: nat)
    requires e >= 1 && s <= e
    ensures z * s / e + (if z * s % e > 0 then 1 else 0) <= z
  {
    ProductGrows(z, z, s, e);
    var v, q := z * s, z * s / e;
    assert v == q * e + v % e;
    if q > z { ProductGrows(z + 1, q, e, e); }
    if q == z { assert q * e == z * e; }
  }

  /** What load_raw_volume returns: the brick's bytes up to the slices it does not read, which stay zero. */
  function Loaded(file: seq<byte>, volume: Vec3, brick: Vec3, offset: Vec3, voxelSize: nat): (bytes: seq<byte>)
    requires Readable(file, volume, brick, offset, voxelSize) && brick.Volume() >= 1
    ensures |bytes| == Bytes(brick, voxelSize)
  {
    var done := Bytes(Chunk(brick, SlicesRead(brick, voxelSize)), voxelSize);
    SlicesOf(brick, voxelSize, SlicesRead(brick, voxelSize), 0);
    Subarray(file, volume, brick, offset, voxelSize)[..done] + seq(Bytes(brick, voxelSize) - done, _ => 0)
  }

  /** The first n bytes are the brick's, and the rest are as they were allocated. */
  ghost predicate LoadedTo(data: seq<byte>, whole: seq<byte>, n: nat) {
    n <= |whole| == |data| && data[..n] == whole[..n] && forall p :: n <= p < |data| ==> data[p] == 0
  }

  method ReadChunk(file: seq<byte>, volume: Vec3, dims: Vec3, offset: Vec3, voxelSize: nat, data: array<byte>, byteOffset: nat,
                   ghost whole: seq<byte>)
    requires Readable(file, volume, dims, offset, voxelSize) && LoadedTo(data[..], whole, byteOffset)
    requires byteOffset + Bytes(dims, voxelSize) <= |whole|
    requires Subarray(file, volume, dims, offset, voxelSize) == whole[byteOffset..byteOffset + Bytes(dims, voxelSize)]
    modifies data
    ensures LoadedTo(data[..], whole, byteOffset + Bytes(dims, voxelSize))
  {
    hide Subarray, Readable, Bytes;
    ghost var next := byteOffset + Bytes(dims, voxelSize);
    ghost var before := data[..];
    ReadSubarray(file, volume, dims, offset, voxelSize, data, byteOffset);
    assert data[..next] == data[..byteOffset] + data[byteOffset..next];
    assert whole[..next] == whole[..byteOffset] + whole[byteOffset..next];
    assert data[..][..next] == data[..next];
    assert before[..byteOffset] == old(data[..byteOffset]);
    forall p | next <= p < |data[..]| ensures data[..][p] == 0 {
      assert data[..][p] == data[next..][p - next] == old(data[next..])[p - next] == before[p];
    }
  }

  /** Where chunk i of t slices begins in memory. */
  function ChunkStart(brick: Vec3, voxelSize: nat, t: nat, i: nat): nat { Bytes(Chunk(brick, i * t), voxelSize) }

  /** What the loop computes for chunk i of t slices: where it goes, that the last one needs no adjustment, and
      where the next one goes. */
  predicate ChunkAt(brick: Vec3, voxelSize: nat, t: nat, i: nat) {
    && i * t * brick.y * brick.x * voxelSize == ChunkStart(brick, voxelSize, t, i)
    && (i * t + t >= brick.z ==> brick.z - i * t == t)
    && ChunkStart(brick, voxelSize, t, i) + Bytes(Chunk(brick, t), voxelSize) == ChunkStart(brick, voxelSize, t, i + 1)
  }

  lemma AtChunk(brick: Vec3, voxelSize: nat, i: nat, t: nat)
    requires VoxelSize(voxelSize) && brick.Volume() >= 1
    requires i < NChunks(brick, voxelSize) && t == ChunkThickness(brick, voxelSize)
    ensures ChunkAt(brick, voxelSize, t, i) && i * t + t <= brick.z
  {
    ChunksAddUp(brick, voxelSize);
    UpTo(i, NChunks(brick, voxelSize), t, brick.z);
    hide NChunks, ChunkThickness, SlicesRead;
    var k := i * t;
    StretchStart(brick, voxelSize, k);
    SlicesOf(brick, voxelSize, k, t);
    hide Bytes, Chunk;
  }

  /** Chunk i: its place in memory, its thickness and its contents. */
  lemma ChunkContents(file: seq<byte>, volume: Vec3, brick: Vec3, offset: Vec3, voxelSize: nat, i: nat, t: nat)
    requires Readable(file, volume, brick, offset, voxelSize) && i * t + t <= brick.z
    ensures IsStretch(file, volume, brick, offset, voxelSize, Chunk(brick, t),
                      Vec3(offset.x, offset.y, offset.z + i * t), ChunkStart(brick, voxelSize, t, i))
  {
    ChunkIsStretch(file, volume, brick, offset, voxelSize, i * t, t);
    hide IsStretch, Readable, Bytes, Chunk;
    assert Shifted(offset, Vec3(0, 0, i * t)) == Vec3(offset.x, offset.y, offset.z + i * t);
  }

  /** The chunk loop, with the offsets, the sizes and the adjustment of the last chunk as they are written
      there. Chunk i goes to the bytes right after those of chunk i - 1. */
  method LoadRawVolume(file: seq<byte>, volume: Vec3, brick: Vec3, offset: Vec3, voxelSize: nat) returns (data: array<byte>)
    requires Readable(file, volume, brick, offset, voxelSize) && brick.Volume() >= 1
    ensures fresh(data) && data[..] == Loaded(file, volume, brick, offset, voxelSize)
  {
    var nVoxels := brick.x * brick.y * brick.z;
    data := new byte[nVoxels * voxelSize](_ => 0);
    hide Subarray, LoadedTo, NChunks, ChunkThickness, SlicesRead, ChunkStart, Readable, Bytes;
    var nChunks, thickness := NChunks(brick, voxelSize), ChunkThickness(brick, voxelSize);
    ghost var whole := Subarray(file, volume, brick, offset, voxelSize);
    NothingLoaded(data[..], whole);
    NoChunks(brick, voxelSize, thickness);
    for i := 0 to nChunks
      invariant LoadedTo(data[..], whole, ChunkStart(brick, voxelSize, thickness, i))
    {
      AtChunk(brick, voxelSize, i, thickness);
      ChunkContents(file, volume, brick, offset, voxelSize, i, thickness);
      var chunkOffset := Vec3(offset.x, offset.y, offset.z + i * thickness);
      var chunkDims := Vec3(brick.x, brick.y, thickness);
      if i * thickness + thickness >= brick.z {
        chunkDims := Vec3(brick.x, brick.y, brick.z - i * thickness);
      }
      var byteOffset := i * thickness * brick.y * brick.x * voxelSize;
      ReadChunk(file, volume, chunkDims, chunkOffset, voxelSize, data, byteOffset, whole);
    }
    ChunksEnd(brick, voxelSize);
    LoadedAll(data[..], whole, ChunkStart(brick, voxelSize, thickness, nChunks));
  }

  lemma NoChunks(brick: Vec3, voxelSize: nat, t: nat)
    ensures ChunkStart(brick, voxelSize, t, 0) == 0
  {
    assert 0 * t == 0;
    BytesOfSlices(brick, voxelSize, 0);
  }

  lemma ChunksEnd(brick: Vec3, voxelSize: nat)
    requires VoxelSize(voxelSize) && brick.Volume() >= 1
    ensures ChunkStart(brick, voxelSize, ChunkThickness(brick, voxelSize), NChunks(brick, voxelSize))
            == Bytes(Chunk(brick, SlicesRead(brick, voxelSize)), voxelSize)
  {
    ChunksAddUp(brick, voxelSize);
  }

  lemma UpTo(i: nat, n: nat, t: nat, z: nat)
    requires i < n && n * t <= z
    ensures i * t + t == (i + 1) * t <= z
  {
    ProductGrows(i + 1, n, t, t);
  }

  lemma NothingLoaded(data: seq<byte>, whole: seq<byte>)
    requires |data| == |whole| && forall p :: 0 <= p < |data| ==> data[p] == 0
    ensures LoadedTo(data, whole, 0)
  {
  }

  lemma LoadedAll(data: seq<byte>, whole: seq<byte>, n: nat)
    requires LoadedTo(data, whole, n)
    ensures n <= |whole| && data == whole[..n] + seq(|whole| - n, _ => 0)
  {
    assert data == data[..n] + data[n..];
  }

  lemma StretchStart(brick: Vec3, voxelSize: nat, k: nat)
    ensures k * brick.y * brick.x * voxelSize == Bytes(Chunk(brick, k), voxelSize)
  {
    assert k * brick.y * brick.x == k * (brick.x * brick.y);
    BytesOfSlices(brick, voxelSize, k);
    hide Bytes;
  }

  /** Slice by slice: a voxel is at its place if its slice is among those that are read, and zero otherwise. */
  lemma LoadedVoxel(file: seq<byte>, volume: Vec3, brick: Vec3, offset: Vec3, voxelSize: nat, v: Vec3, b: nat, p: nat, q: nat)
    requires Readable(file, volume, brick, offset, voxelSize) && brick.Volume() >= 1
    requires v.x < brick.x && v.y < brick.y && v.z < brick.z && b < voxelSize
    requires p == (v.x + brick.x * (v.y + brick.y * v.z)) * voxelSize + b
    requires q == (v.x + offset.x + volume.x * (v.y + offset.y + volume.y * (v.z + offset.z))) * voxelSize + b
    ensures p < |Loaded(file, volume, brick, offset, voxelSize)| && q < |file|
    ensures Loaded(file, volume, brick, offset, voxelSize)[p] == if v.z < brick.z - brick.z % NChunks(brick, voxelSize) then file[q] else 0
  {
    SubarrayVoxel(file, volume, brick, offset, voxelSize, v, b, p, q);
    ByteInSlice(brick, voxelSize, v, b, p, SlicesRead(brick, voxelSize));
    assert SlicesRead(brick, voxelSize) == brick.z - brick.z % NChunks(brick, voxelSize);
    hide Subarray, Bytes, Readable, NChunks, SlicesRead, Vec3.Volume;
    SlicesOf(brick, voxelSize, SlicesRead(brick, voxelSize), 0);
  }

  /** A byte is among those of the first k slices exactly if its voxel is. */
  lemma ByteInSlice(brick: Vec3, voxelSize: nat, v: Vec3, b: nat, p: nat, k: nat)
    requires v.x < brick.x && v.y < brick.y && b < voxelSize && p == (v.x + brick.x * (v.y + brick.y * v.z)) * voxelSize + b
    ensures p < Bytes(Chunk(brick, k), voxelSize) <==> v.z < k
  {
    var n := Slice(brick);
    BytesOfSlices(brick, voxelSize, k);
    hide Bytes;
    LowDigits(v.y, brick.y, brick.x, v.x);
    var inSlice := v.y * brick.x + v.x;
    CellBySlice(brick, v);
    assert p == (v.z * n + inSlice) * voxelSize + b && inSlice < n;
    hide Slice;
    SliceOfByte(v.z, n, inSlice, voxelSize, b, k);
  }

  lemma SliceOfByte(z: nat, n: nat, i: nat, voxelSize: nat, b: nat, k: nat)
    requires i < n && b < voxelSize
    ensures (z * n + i) * voxelSize + b < k * (n * voxelSize) <==> z < k
  {
    LowDigits(i, n, voxelSize, b);
    Distribute(z, n, i, voxelSize);
    var per, low := n * voxelSize, i * voxelSize + b;
    assert (z * n + i) * voxelSize + b == z * per + low && low < per by { assert n * voxelSize == voxelSize * n; }
    if z < k { ProductGrows(z + 1, k, per, per); } else { ProductGrows(k, z, per, per); }
  }

  lemma CellBySlice(brick: Vec3, v: Vec3)
    ensures v.x + brick.x * (v.y + brick.y * v.z) == v.z * Slice(brick) + (v.y * brick.x + v.x)
  {
    Distribute(v.z, brick.y, v.y, brick.x);
  }

  /** The chunked read is the brick itself, whatever the file holds, exactly when the number of chunks divides
      the number of slices; otherwise the last slices are never read. */
  lemma WholeBrickIffDivides(volume: Vec3, brick: Vec3, offset: Vec3, voxelSize: nat)
    requires VoxelSize(voxelSize) && Fits(brick, offset, volume) && brick.Volume() >= 1
    ensures (forall file :: Readable(file, volume, brick, offset, voxelSize) ==>
              Loaded(file, volume, brick, offset, voxelSize) == Subarray(file, volume, brick, offset, voxelSize))
            <==> brick.z % NChunks(brick, voxelSize) == 0
  {
    if brick.z % NChunks(brick, voxelSize) == 0 {
      SlicesOf(brick, voxelSize, brick.z, 0);
      forall file | Readable(file, volume, brick, offset, voxelSize)
        ensures Loaded(file, volume, brick, offset, voxelSize) == Subarray(file, volume, brick, offset, voxelSize)
      {
        hide Subarray;
        assert Chunk(brick, brick.z) == brick;
        assert Subarray(file, volume, brick, offset, voxelSize)[..Bytes(brick, voxelSize)] == Subarray(file, volume, brick, offset, voxelSize);
      }
    } else {
      var ones := seq(Bytes(volume, voxelSize), _ => 1);
      LastByteLost(ones, volume, brick, offset, voxelSize);
    }
  }

  lemma LastByteLost(ones: seq<byte>, volume: Vec3, brick: Vec3, offset: Vec3, voxelSize: nat)
    requires Readable(ones, volume, brick, offset, voxelSize) && brick.Volume() >= 1 && brick.z % NChunks(brick, voxelSize) != 0
    requires forall i :: 0 <= i < |ones| ==> ones[i] == 1
    ensures Loaded(ones, volume, brick, offset, voxelSize) != Subarray(ones, volume, brick, offset, voxelSize)
  {
    hide SlicesRead, Vec3.Volume;
    var p := FirstByteLost(brick, voxelSize);
    OnlyOnes(ones, volume, brick, offset, voxelSize, p);
    assert Loaded(ones, volume, brick, offset, voxelSize)[p] == 0;
    hide SubarrayByte;
    assert Subarray(ones, volume, brick, offset, voxelSize)[p] == 1;
  }

  lemma FirstByteLost(brick: Vec3, voxelSize: nat) returns (p: nat)
    requires VoxelSize(voxelSize) && brick.Volume() >= 1 && brick.z % NChunks(brick, voxelSize) != 0
    ensures p == Bytes(Chunk(brick, SlicesRead(brick, voxelSize)), voxelSize) < Bytes(brick, voxelSize)
  {
    VolumePositive(brick);
    ProductGrows(1, brick.x, 1, brick.y);
    ProductGrows(1, Slice(brick), 1, voxelSize);
    assert SlicesRead(brick, voxelSize) + 1 <= brick.z;
    hide SlicesRead;
    var n := SlicesRead(brick, voxelSize);
    BytesOfSlices(brick, voxelSize, 1);
    SlicesOf(brick, voxelSize, n, 1);
    hide Bytes, Chunk;
    p := Bytes(Chunk(brick, n), voxelSize);
  }

  lemma OnlyOnes(ones: seq<byte>, volume: Vec3, brick: Vec3, offset: Vec3, voxelSize: nat, p: nat)
    requires Readable(ones, volume, brick, offset, voxelSize) && p < Bytes(brick, voxelSize)
    requires forall i :: 0 <= i < |ones| ==> ones[i] == 1
    ensures SubarrayByte(ones, volume, brick, offset, voxelSize, p) == 1
  {
    VoxelBelow(brick, p, voxelSize);
    CellOfIndex(brick, p / voxelSize);
    var c := Shifted(Cell(brick, p / voxelSize), offset);
    ByteInFile(volume, c, voxelSize, p % voxelSize);
    hide Cell, Index, Vec3.Volume;
  }

  /** For example, of three slices of 2^30 one-byte voxels each, read in two chunks, the last one is lost. */
  lemma ThreeSlicesLoseOne()
    ensures var brick := Vec3(0x8000, 0x8000, 3);
            && NChunks(brick, 1) == 2 && SlicesRead(brick, 1) == 2
            && exists file :: Readable(file, brick, brick, Vec3(0, 0, 0), 1)
                              && Loaded(file, brick, brick, Vec3(0, 0, 0), 1) != Subarray(file, brick, brick, Vec3(0, 0, 0), 1)
  {
    var brick := Vec3(0x8000, 0x8000, 3);
    assert brick.Volume() == 0xC000_0000;
    WholeBrickIffDivides(brick, brick, Vec3(0, 0, 0), 1);
  }
}
