/** The part of a Minecraft world the layer rules read: its dimension type's
    vertical extent and sky light, whether that type is the nether, the
    world's sea level, and the registry key it is cached under. */
module Dimensions {
  import opened Coords

  type WorldKey = string

  datatype DimensionType = DimensionType(
    minY: Int32,
    height: Int32,
    logicalHeight: Int32,
    hasSkyLight: bool,
    /** The world's dimension type key is `DimensionTypes.THE_NETHER`. */
    isNether: bool)

  datatype World = World(key: WorldKey, dimension: DimensionType, seaLevel: Int32)

  /** The highest block layer of the dimension. */
  function TopY(d: DimensionType): int
  {
    d.minY + d.height - 1
  }
}
