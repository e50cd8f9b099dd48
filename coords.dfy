/** Minecraft's integer coordinates and the arithmetic the exploration state
    and the world summary perform on them: region coordinates (an arithmetic
    right shift), the bit of a chunk inside its region's bitset, and the
    packing of a chunk position into one Java `long`. */
module Coords {

  /** A Java `int`. */
  type Int32 = x: int | -0x8000_0000 <= x < 0x8000_0000

  /** A Java `long`. */
  type Long = x: int | -0x8000_0000_0000_0000 <= x < 0x8000_0000_0000_0000

  datatype ChunkPos = ChunkPos(x: Int32, z: Int32)

  datatype BlockPos = BlockPos(x: Int32, y: Int32, z: Int32)

  /** Chunks per region along one axis is 2^RegionPower. Assumed, for both
      the terrain and the chunk `RegionSummary`, whose constants are not part
      of this model. */
  const RegionPower: nat := 5
  const RegionSize: nat := 32
  /** Bits in one region's bitset: one per chunk of the region (assumed
      value of `BITSET_SIZE`). */
  const BitsetSize: nat := 1024

  /** Java's arithmetic right shift `x >> n`: each step halves, rounding down. */
  function ShiftRight(x: int, n: nat): int
  {
    if n == 0 then x else ShiftRight(x, n - 1) / 2
  }

  /** The shift stays between zero and its argument, so an `int` stays an `int`. */
  lemma {:induction false} ShiftRightBetween(x: int, n: nat)
    ensures x >= 0 ==> 0 <= ShiftRight(x, n) <= x
    ensures x < 0 ==> x <= ShiftRight(x, n) < 0
  {
    if n > 0 {
      ShiftRightBetween(x, n - 1);
    }
  }

  /** `x >> 4` is the floor of x / 16, negative x included. */
  lemma ShiftFourIsFloor(x: int)
    ensures ShiftRight(x, 4) * 16 <= x < ShiftRight(x, 4) * 16 + 16
  {
    assert ShiftRight(x, 1) == x / 2;
    assert ShiftRight(x, 2) == ShiftRight(x, 1) / 2;
    assert ShiftRight(x, 3) == ShiftRight(x, 2) / 2;
    assert ShiftRight(x, 4) == ShiftRight(x, 3) / 2;
  }

  /** `x >> 5` is the floor of x / 32, negative x included. */
  lemma ShiftFiveIsFloor(x: int)
    ensures ShiftRight(x, 5) * 32 <= x < ShiftRight(x, 5) * 32 + 32
  {
    ShiftFourIsFloor(x);
    assert ShiftRight(x, 5) == ShiftRight(x, 4) / 2;
  }

  /** An `int` shifted right is an `int` again. */
  function ShiftInt32(x: Int32, n: nat): (r: Int32)
    ensures x >= 0 ==> 0 <= r <= x
    ensures x < 0 ==> x <= r < 0
  {
    ShiftRightBetween(x, n);
    ShiftRight(x, n)
  }

  /** `WorldSummary.getRegionPos` and `ChunkPos.getRegionX/Z`: the region holding
      a chunk, by an arithmetic shift of both coordinates. */
  function RegionOf(pos: ChunkPos): (r: ChunkPos)
    ensures r.x * RegionSize <= pos.x < r.x * RegionSize + RegionSize
    ensures r.z * RegionSize <= pos.z < r.z * RegionSize + RegionSize
  {
    ShiftFiveIsFloor(pos.x);
    ShiftFiveIsFloor(pos.z);
    ChunkPos(ShiftInt32(pos.x, RegionPower), ShiftInt32(pos.z, RegionPower))
  }

  /** `RegionSummary.bitForChunk`, an assumed definition: the chunk's offset
      inside its region, x-major, taken with the two's-complement mask `& 31`
      (a non-negative remainder). */
  function BitForChunk(pos: ChunkPos): (bit: nat)
    ensures bit < BitsetSize
  {
    (pos.x % RegionSize) * RegionSize + pos.z % RegionSize
  }

  /** The region and the bit together give the chunk back: the bit index is a
      bijection between a region's chunks and 0 .. BitsetSize - 1. */
  lemma ChunkFromRegionBit(pos: ChunkPos)
    ensures pos.x == RegionOf(pos).x * RegionSize + BitForChunk(pos) / RegionSize
    ensures pos.z == RegionOf(pos).z * RegionSize + BitForChunk(pos) % RegionSize
  {
    var r := RegionOf(pos);
    assert pos.x % RegionSize == pos.x - r.x * RegionSize;
    assert pos.z % RegionSize == pos.z - r.z * RegionSize;
  }

  lemma RegionBitInjective(p: ChunkPos, q: ChunkPos)
    requires RegionOf(p) == RegionOf(q) && BitForChunk(p) == BitForChunk(q)
    ensures p == q
  {
    ChunkFromRegionBit(p);
    ChunkFromRegionBit(q);
  }

  /** `new ChunkPos(BlockPos)`: a block's chunk, each coordinate shifted by 4. */
  function ChunkOfBlock(pos: BlockPos): (c: ChunkPos)
    ensures c.x * 16 <= pos.x < c.x * 16 + 16
    ensures c.z * 16 <= pos.z < c.z * 16 + 16
  {
    ShiftFourIsFloor(pos.x);
    ShiftFourIsFloor(pos.z);
    ChunkPos(ShiftInt32(pos.x, 4), ShiftInt32(pos.z, 4))
  }

  /** The low 32 bits, read as a signed `int`. */
  function Signed32(u: int): Int32
    requires 0 <= u < 0x1_0000_0000
  {
    if u < 0x8000_0000 then u else u - 0x1_0000_0000
  }

  /** A 64-bit pattern read as a signed `long`. */
  function Signed64(u: int): Long
    requires 0 <= u < 0x1_0000_0000_0000_0000
  {
    if u < 0x8000_0000_0000_0000 then u else u - 0x1_0000_0000_0000_0000
  }

  /** A signed `long` read as its 64-bit pattern. */
  function Unsigned64(l: Long): (u: int)
    ensures 0 <= u < 0x1_0000_0000_0000_0000
    ensures Signed64(u) == l
  {
    if l < 0 then l + 0x1_0000_0000_0000_0000 else l
  }

  /** `ChunkPos.toLong`, an assumed definition: x in the low 32 bits, z in
      the high 32 bits. */
  function ToLong(pos: ChunkPos): (l: Long)
    ensures FromLong(l) == pos
  {
    Signed64(pos.x % 0x1_0000_0000 + (pos.z % 0x1_0000_0000) * 0x1_0000_0000)
  }

  /** `new ChunkPos(long)`: x is `(int) l`, z is `(int) (l >>> 32)`. */
  function FromLong(l: Long): ChunkPos
  {
    var u := Unsigned64(l);
    ChunkPos(Signed32(u % 0x1_0000_0000), Signed32(u / 0x1_0000_0000))
  }

  /** Every `long` is the packing of exactly one chunk position. */
  lemma ToLongFromLong(l: Long)
    ensures ToLong(FromLong(l)) == l
  {
  }

  lemma ToLongInjective(p: ChunkPos, q: ChunkPos)
    ensures ToLong(p) == ToLong(q) <==> p == q
  {
    assert FromLong(ToLong(p)) == p && FromLong(ToLong(q)) == q;
  }
}
