/** The Y layers the terrain summary samples, top to bottom, and the
    per-world cache that keeps one list per world key. */
module TerrainLayers {
  import opened Dimensions

  /** The list the terrain summary walks: the top layer; the one below the
      playable limit when that limit is not the top; two below sea level
      under a sky; 256 when the world reaches above it; 0 when it reaches
      below it; 70 and 40 in the nether; and the bottom layer last. */
  function SummaryLayersInternal(world: World): (layers: seq<int>)
    ensures 2 <= |layers| <= 8
    ensures layers[0] == TopY(world.dimension)
    ensures layers[|layers| - 1] == world.dimension.minY
  {
    UpperLayers(world) + LowerLayers(world)
  }

  /** The layers from the top down to 0. */
  function UpperLayers(world: World): (upper: seq<int>)
    ensures 1 <= |upper| <= 5 && upper[0] == TopY(world.dimension)
  {
    var d := world.dimension;
    [TopY(d)]
    + (if d.logicalHeight != d.height then [d.minY + d.logicalHeight - 2] else [])
    + (if d.hasSkyLight then [world.seaLevel - 2] else [])
    + (if d.minY + d.height > 256 then [256] else [])
    + (if d.minY < 0 then [0] else [])
  }

  /** The nether's fixed layers, then the bottom layer. */
  function LowerLayers(world: World): (lower: seq<int>)
    ensures |lower| == 1 + 2 * Count(world.dimension.isNether)
    ensures lower[|lower| - 1] == world.dimension.minY
  {
    (if world.dimension.isNether then [70, 40] else []) + [world.dimension.minY]
  }

  /** One layer for each rule that applies, two for the nether's. */
  lemma TerrainLayerCount(world: World)
    ensures var d := world.dimension;
      |SummaryLayersInternal(world)| == 2 + Count(d.logicalHeight != d.height) + Count(d.hasSkyLight)
                                        + Count(d.minY + d.height > 256) + Count(d.minY < 0)
                                        + 2 * Count(d.isNether)
  {
  }

  /** In the nether the list ends with 70, 40 and the bottom layer. */
  lemma NetherTail(world: World)
    requires world.dimension.isNether
    ensures var layers := SummaryLayersInternal(world);
      layers[|layers| - 3..] == [70, 40, world.dimension.minY]
  {
    var upper, lower := UpperLayers(world), LowerLayers(world);
    assert (upper + lower)[|upper + lower| - 3..] == lower;
  }

  function Count(b: bool): nat
  {
    if b then 1 else 0
  }

  /** Each rule on its own: `y` is a layer when some rule that applies to the
      world yields it. */
  predicate IsTerrainLayer(world: World, y: int)
  {
    var d := world.dimension;
    || y == TopY(d)
    || (d.logicalHeight != d.height && y == d.minY + d.logicalHeight - 2)
    || (d.hasSkyLight && y == world.seaLevel - 2)
    || (d.minY + d.height > 256 && y == 256)
    || (d.minY < 0 && y == 0)
    || (d.isNether && (y == 70 || y == 40))
    || y == d.minY
  }

  /** A value is in the list exactly when some rule that applies yields it. */
  lemma TerrainLayerMembers(world: World, y: int)
    ensures y in SummaryLayersInternal(world) <==> IsTerrainLayer(world, y)
  {
  }

  /** The static cache of layer lists by world key. `computed` records, in
      order, the keys for which the list was worked out. */
  class LayerCache {
    var cache: map<WorldKey, seq<int>>
    ghost var computed: seq<WorldKey>
    /** The world whose list each entry holds. */
    ghost var source: map<WorldKey, World>

    /** Every cached list is the list of a world under its key, and a list
        was worked out once for each cached key and for no other. */
    ghost predicate Valid()
      reads this
    {
      && source.Keys == cache.Keys
      && (forall k :: k in cache ==> source[k].key == k && cache[k] == SummaryLayersInternal(source[k]))
      && (forall k :: k in cache <==> k in computed)
      && (forall i, j :: 0 <= i < j < |computed| ==> computed[i] != computed[j])
    }

    constructor()
      ensures Valid() && cache == map[] && computed == []
    {
      cache := map[];
      computed := [];
      source := map[];
    }

    /** `computeIfAbsent`: the cached list when the key has one, otherwise the
        world's list, which is then cached. */
    method GetSummaryLayers(world: World) returns (layers: seq<int>)
      requires Valid()
      modifies this
      ensures Valid()
      ensures world.key in old(cache) ==>
        layers == old(cache)[world.key] && cache == old(cache) && computed == old(computed)
      ensures world.key !in old(cache) ==>
        && layers == SummaryLayersInternal(world)
        && cache == old(cache)[world.key := layers]
        && computed == old(computed) + [world.key]
      ensures 2 <= |layers| <= 8
    {
      if world.key in cache {
        layers := cache[world.key];
      } else {
        layers := SummaryLayersInternal(world);
        cache := cache[world.key := layers];
        source := source[world.key := world];
        computed := computed + [world.key];
      }
    }
  }
}
