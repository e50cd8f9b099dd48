/** What one player has discovered, per world, as values: the terrain bitsets
    of the regions they have seen, the structure starts they know of, and the
    players who share their landmarks with them. The queries, the monotone
    updates and the trimming of deltas of `SurveyorExploration` are functions
    here; the class in `SurveyorExplorations` applies them to its fields. */
module Explorations {
  import opened Wrappers
  import opened Coords
  import opened BitSets

  /** A world's registry key, by its identifier ("minecraft:overworld"). */
  type WorldKey = string

  /** A structure's registry key, by its identifier. */
  type StructureKey = string

  datatype Uuid = Uuid(mostSigBits: Long, leastSigBits: Long)

  /** The two things about a landmark that decide whether it is explored. */
  datatype Landmark = Landmark(pos: BlockPos, owner: Option<Uuid>)

  /** The server configuration's sharing switches. */
  datatype ShareConfig = ShareConfig(shareAllTerrain: bool, shareAllStructures: bool, shareAllLandmarks: bool)

  /** A world's explored terrain: one bitset per region, one bit per chunk. */
  type Regions = map<ChunkPos, BitSet>

  type Terrain = map<WorldKey, Regions>

  /** A world's explored structures: the packed chunk positions of the starts
      of each structure. */
  type Starts = map<StructureKey, set<Long>>

  type Structures = map<WorldKey, Starts>

  /** A structure delta as the network code hands it over. */
  type KeySet = map<StructureKey, set<ChunkPos>>

  /** Every region bitset fits the 1024 bits of a region. */
  predicate Bounded(regions: Regions)
  {
    forall p :: p in regions ==> |regions[p]| <= RegionWords
  }

  predicate BoundedTerrain(terrain: Terrain)
  {
    forall w :: w in terrain ==> Bounded(terrain[w])
  }

  /** `computeIfAbsent(worldKey, k -> new HashMap<>())`. */
  function RegionsIn(terrain: Terrain, world: WorldKey): Regions
  {
    if world in terrain then terrain[world] else map[]
  }

  /** `computeIfAbsent(regionPos, p -> new BitSet(...))`. */
  function BitsIn(regions: Regions, region: ChunkPos): BitSet
  {
    if region in regions then regions[region] else Empty
  }

  function StartsIn(structures: Structures, world: WorldKey): Starts
  {
    if world in structures then structures[world] else map[]
  }

  /** `computeIfAbsent(structureKey, s -> new LongOpenHashSet())`. */
  function PositionsIn(starts: Starts, key: StructureKey): set<Long>
  {
    if key in starts then starts[key] else {}
  }

  // ---------------------------------------------------------------------------
  // Queries.

  /** `exploredChunk`: shared by configuration, or the chunk's bit is set in
      its region's bitset. */
  predicate ExploredChunk(config: ShareConfig, terrain: Terrain, world: WorldKey, pos: ChunkPos)
  {
    config.shareAllTerrain
    || (world in terrain && RegionOf(pos) in terrain[world]
        && Get(terrain[world][RegionOf(pos)], BitForChunk(pos)))
  }

  /** `exploredStructure`: shared by configuration, or the packed start position
      is in the key's set. */
  predicate ExploredStructure(config: ShareConfig, structures: Structures, world: WorldKey,
                              key: StructureKey, pos: ChunkPos)
  {
    config.shareAllStructures
    || (world in structures && key in structures[world] && ToLong(pos) in structures[world][key])
  }

  /** `exploredLandmark`: an ownerless landmark is seen with the chunk it stands
      in; an owned one when its owner shares with this player. */
  predicate ExploredLandmark(config: ShareConfig, terrain: Terrain, sharedPlayers: set<Uuid>,
                             world: WorldKey, landmark: Landmark)
  {
    config.shareAllLandmarks
    || (match landmark.owner
        case None => ExploredChunk(config, terrain, world, ChunkOfBlock(landmark.pos))
        case Some(owner) => owner in sharedPlayers)
  }

  // ---------------------------------------------------------------------------
  // Updates.

  /** `addChunk`: creates the world and region entries when absent and sets
      the chunk's bit. */
  function WithChunk(terrain: Terrain, world: WorldKey, pos: ChunkPos): Terrain
  {
    var regions := RegionsIn(terrain, world);
    var region := RegionOf(pos);
    terrain[world := regions[region := Set(BitsIn(regions, region), BitForChunk(pos))]]
  }

  /** `mergeRegion`: or-s a bitset into a region, creating it when absent. */
  function WithRegionMerged(terrain: Terrain, world: WorldKey, region: ChunkPos, bits: BitSet): Terrain
  {
    terrain[world := Merged(RegionsIn(terrain, world), region, bits)]
  }

  /** One world's regions after a merge into `region`. */
  function Merged(regions: Regions, region: ChunkPos, bits: BitSet): Regions
  {
    regions[region := Or(BitsIn(regions, region), bits)]
  }

  /** `addStructure(worldKey, structureKey, pos)`. */
  function WithStructure(structures: Structures, world: WorldKey, key: StructureKey, pos: ChunkPos): Structures
  {
    var starts := StartsIn(structures, world);
    structures[world := starts[key := PositionsIn(starts, key) + {ToLong(pos)}]]
  }

  // ---------------------------------------------------------------------------
  // Trimming a delta to what this player may see.

  /** `limitTerrainBitset`: each region of the delta is and-ed with this
      player's bitset for it, or cleared when they have none; with no terrain
      at all for the world the delta is emptied. */
  function LimitedTerrain(config: ShareConfig, terrain: Terrain, world: WorldKey, delta: Regions): Regions
  {
    if config.shareAllTerrain then delta
    else if world !in terrain then map[]
    else map p | p in delta :: LimitedRegion(terrain[world], p, delta[p])
  }

  function LimitedRegion(known: Regions, p: ChunkPos, bits: BitSet): BitSet
  {
    if p in known then And(bits, known[p]) else Empty
  }

  /** The chunk positions packed in a set of longs. */
  function Unpacked(longs: set<Long>): set<ChunkPos>
  {
    set l | l in longs :: FromLong(l)
  }

  /** `limitStructureKeySet`: for a key this player knows, the starts they know
      are removed from the delta; for a key they do not know, the delta's set
      is emptied; with no structures at all for the world the delta is emptied. */
  function LimitedStructures(config: ShareConfig, structures: Structures, world: WorldKey, delta: KeySet): KeySet
  {
    if config.shareAllStructures then delta
    else if world !in structures then map[]
    else map k | k in delta :: LimitedStarts(structures[world], k, delta[k])
  }

  function LimitedStarts(known: Starts, key: StructureKey, starts: set<ChunkPos>): set<ChunkPos>
  {
    if key in known then starts - Unpacked(known[key]) else {}
  }

  // ---------------------------------------------------------------------------
  // Properties of the queries.

  /** Each share-all switch makes its query true whatever the state. */
  lemma ShareAllExplores(config: ShareConfig, terrain: Terrain, structures: Structures, sharedPlayers: set<Uuid>,
                         world: WorldKey, key: StructureKey, pos: ChunkPos, landmark: Landmark)
    ensures config.shareAllTerrain ==> ExploredChunk(config, terrain, world, pos)
    ensures config.shareAllStructures ==> ExploredStructure(config, structures, world, key, pos)
    ensures config.shareAllLandmarks ==> ExploredLandmark(config, terrain, sharedPlayers, world, landmark)
  {
  }

  /** Without any terrain for a world, only the share-all switch explores. */
  lemma NoTerrainNoChunk(config: ShareConfig, terrain: Terrain, world: WorldKey, pos: ChunkPos)
    requires world !in terrain || RegionOf(pos) !in terrain[world]
    ensures ExploredChunk(config, terrain, world, pos) <==> config.shareAllTerrain
  {
  }

  /** An ownerless landmark is explored exactly when the chunk whose 16 by 16
      columns hold its block is. */
  lemma OwnerlessLandmark(config: ShareConfig, terrain: Terrain, sharedPlayers: set<Uuid>,
                          world: WorldKey, landmark: Landmark, chunk: ChunkPos)
    requires landmark.owner.None? && !config.shareAllLandmarks
    requires chunk.x * 16 <= landmark.pos.x < chunk.x * 16 + 16
    requires chunk.z * 16 <= landmark.pos.z < chunk.z * 16 + 16
    ensures ExploredLandmark(config, terrain, sharedPlayers, world, landmark)
            <==> ExploredChunk(config, terrain, world, chunk)
  {
    var c := ChunkOfBlock(landmark.pos);
    assert c == chunk;
  }

  /** An owned landmark is explored exactly when its owner shares with this
      player, whatever terrain has been explored. */
  lemma OwnedLandmark(config: ShareConfig, terrain: Terrain, other: Terrain, sharedPlayers: set<Uuid>,
                      world: WorldKey, landmark: Landmark)
    requires landmark.owner.Some?
    ensures ExploredLandmark(config, terrain, sharedPlayers, world, landmark)
            <==> config.shareAllLandmarks || landmark.owner.value in sharedPlayers
    ensures ExploredLandmark(config, terrain, sharedPlayers, world, landmark)
            == ExploredLandmark(config, other, sharedPlayers, world, landmark)
  {
  }

  // ---------------------------------------------------------------------------
  // Properties of the updates.

  /** After `addChunk(pos)` in `world`, the explored chunks are the old ones
      plus `pos` in `world`: the new chunk is explored and no other changes. */
  lemma ExploredAfterAddChunk(config: ShareConfig, terrain: Terrain, world: WorldKey, pos: ChunkPos,
                              w: WorldKey, q: ChunkPos)
    ensures ExploredChunk(config, WithChunk(terrain, world, pos), w, q)
            <==> (w == world && q == pos) || ExploredChunk(config, terrain, w, q)
  {
    var t := WithChunk(terrain, world, pos);
    if w == world && RegionOf(q) == RegionOf(pos) {
      var old_bits := BitsIn(RegionsIn(terrain, world), RegionOf(pos));
      GetSet(old_bits, BitForChunk(pos), BitForChunk(q));
      if BitForChunk(q) == BitForChunk(pos) {
        RegionBitInjective(q, pos);
      }
      if RegionOf(pos) !in RegionsIn(terrain, world) {
        NothingInEmpty(BitForChunk(q));
      }
    }
  }

  /** `addChunk` touches one region of one world and keeps bitsets in bounds. */
  lemma AddChunkFrame(terrain: Terrain, world: WorldKey, pos: ChunkPos)
    requires BoundedTerrain(terrain)
    ensures var t := WithChunk(terrain, world, pos);
      && t.Keys == terrain.Keys + {world}
      && (forall w :: w in terrain && w != world ==> t[w] == terrain[w])
      && t[world].Keys == RegionsIn(terrain, world).Keys + {RegionOf(pos)}
      && (forall p :: p in RegionsIn(terrain, world) && p != RegionOf(pos) ==> t[world][p] == terrain[world][p])
      && BoundedTerrain(t)
  {
    var region := RegionOf(pos);
    assert |Set(BitsIn(RegionsIn(terrain, world), region), BitForChunk(pos))| <= RegionWords;
  }

  /** `mergeRegion` or-s bit by bit: the region afterwards holds the bits it
      held before and the incoming ones, and nothing else. */
  lemma MergeRegionBits(terrain: Terrain, world: WorldKey, region: ChunkPos, bits: BitSet, i: nat)
    ensures var t := WithRegionMerged(terrain, world, region, bits);
      world in t && region in t[world]
      && (Get(t[world][region], i) <==> Get(BitsIn(RegionsIn(terrain, world), region), i) || Get(bits, i))
  {
    GetOr(BitsIn(RegionsIn(terrain, world), region), bits, i);
  }

  /** After `mergeRegion`, the explored chunks are the old ones plus the chunks
      of that region whose bits were incoming. */
  lemma ExploredAfterMerge(config: ShareConfig, terrain: Terrain, world: WorldKey, region: ChunkPos,
                           bits: BitSet, w: WorldKey, q: ChunkPos)
    ensures ExploredChunk(config, WithRegionMerged(terrain, world, region, bits), w, q)
            <==> ExploredChunk(config, terrain, w, q)
                 || (w == world && RegionOf(q) == region && Get(bits, BitForChunk(q)))
  {
    if w == world && RegionOf(q) == region {
      MergeRegionBits(terrain, world, region, bits, BitForChunk(q));
      if region !in RegionsIn(terrain, world) {
        NothingInEmpty(BitForChunk(q));
      }
    }
  }

  /** Merging the same bitset twice changes nothing the first merge did not. */
  lemma MergeRegionIdempotent(terrain: Terrain, world: WorldKey, region: ChunkPos, bits: BitSet)
    ensures var once := WithRegionMerged(terrain, world, region, bits);
      WithRegionMerged(once, world, region, bits) == once
  {
    var regions := RegionsIn(terrain, world);
    var once := WithRegionMerged(terrain, world, region, bits);
    OrAbsorbs(BitsIn(regions, region), bits);
    var m: Regions := Merged(regions, region, bits);
    assert Merged(m, region, bits) == m;
    assert once[world := m] == once;
  }

  /** Merges commute: the order in which two bitsets arrive does not matter. */
  lemma MergeRegionsCommute(terrain: Terrain, w1: WorldKey, r1: ChunkPos, b1: BitSet,
                            w2: WorldKey, r2: ChunkPos, b2: BitSet)
    ensures WithRegionMerged(WithRegionMerged(terrain, w1, r1, b1), w2, r2, b2)
         == WithRegionMerged(WithRegionMerged(terrain, w2, r2, b2), w1, r1, b1)
  {
    if w1 != w2 {
      MergeOtherWorldsCommute(terrain, w1, r1, b1, w2, r2, b2);
    } else {
      var regions := RegionsIn(terrain, w1);
      MergeTwiceInWorld(terrain, w1, r1, b1, r2, b2);
      MergeTwiceInWorld(terrain, w1, r2, b2, r1, b1);
      if r1 != r2 {
        MergeOtherRegionsCommute(regions, r1, b1, r2, b2);
      } else {
        MergeSameRegionCommutes(regions, r1, b1, b2);
      }
    }
  }

  /** Two merges into one world act on that world's regions only. */
  lemma MergeTwiceInWorld(terrain: Terrain, world: WorldKey, r1: ChunkPos, b1: BitSet, r2: ChunkPos, b2: BitSet)
    ensures WithRegionMerged(WithRegionMerged(terrain, world, r1, b1), world, r2, b2)
         == terrain[world := Merged(Merged(RegionsIn(terrain, world), r1, b1), r2, b2)]
  {
    var m1: Regions := Merged(RegionsIn(terrain, world), r1, b1);
    var once := terrain[world := m1];
    assert RegionsIn(once, world) == m1;
    UpdateTwice(terrain, world, m1, Merged(m1, r2, b2));
  }

  lemma UpdateTwice<K, V>(m: map<K, V>, k: K, v1: V, v2: V)
    ensures m[k := v1][k := v2] == m[k := v2]
  {
  }

  lemma MergeOtherWorldsCommute(terrain: Terrain, w1: WorldKey, r1: ChunkPos, b1: BitSet,
                                w2: WorldKey, r2: ChunkPos, b2: BitSet)
    requires w1 != w2
    ensures WithRegionMerged(WithRegionMerged(terrain, w1, r1, b1), w2, r2, b2)
         == WithRegionMerged(WithRegionMerged(terrain, w2, r2, b2), w1, r1, b1)
  {
    var u1: Regions := Merged(RegionsIn(terrain, w1), r1, b1);
    var u2: Regions := Merged(RegionsIn(terrain, w2), r2, b2);
    assert WithRegionMerged(terrain, w1, r1, b1) == terrain[w1 := u1];
    assert WithRegionMerged(terrain[w1 := u1], w2, r2, b2) == terrain[w1 := u1][w2 := u2];
    UpdatesCommute(terrain, w1, u1, w2, u2);
  }

  lemma MergeOtherRegionsCommute(regions: Regions, r1: ChunkPos, b1: BitSet, r2: ChunkPos, b2: BitSet)
    requires r1 != r2
    ensures Merged(Merged(regions, r1, b1), r2, b2) == Merged(Merged(regions, r2, b2), r1, b1)
  {
    var n1: BitSet, n2: BitSet := Or(BitsIn(regions, r1), b1), Or(BitsIn(regions, r2), b2);
    assert Merged(regions, r1, b1) == regions[r1 := n1];
    assert Merged(regions[r1 := n1], r2, b2) == regions[r1 := n1][r2 := n2];
    UpdatesCommute(regions, r1, n1, r2, n2);
  }

  /** Updates of two different keys of a map commute. */
  lemma UpdatesCommute<K, V>(m: map<K, V>, k1: K, v1: V, k2: K, v2: V)
    requires k1 != k2
    ensures m[k1 := v1][k2 := v2] == m[k2 := v2][k1 := v1]
  {
  }

  lemma MergeSameRegionCommutes(regions: Regions, region: ChunkPos, b1: BitSet, b2: BitSet)
    ensures Merged(Merged(regions, region, b1), region, b2) == Merged(Merged(regions, region, b2), region, b1)
  {
    var a := BitsIn(regions, region);
    UpdateTwice(regions, region, Or(a, b1), Or(Or(a, b1), b2));
    UpdateTwice(regions, region, Or(a, b2), Or(Or(a, b2), b1));
    OrAssociates(a, b1, b2);
    OrAssociates(a, b2, b1);
    OrCommutes(b1, b2);
  }

  /** Merging a bitset keeps the terrain within region bounds when it fits. */
  lemma MergeRegionBounded(terrain: Terrain, world: WorldKey, region: ChunkPos, bits: BitSet)
    requires BoundedTerrain(terrain) && |bits| <= RegionWords
    ensures BoundedTerrain(WithRegionMerged(terrain, world, region, bits))
  {
  }

  /** After `addStructure`, the explored structures are the old ones plus the
      new start. */
  lemma ExploredAfterAddStructure(config: ShareConfig, structures: Structures, world: WorldKey,
                                  key: StructureKey, pos: ChunkPos, w: WorldKey, k: StructureKey, q: ChunkPos)
    ensures ExploredStructure(config, WithStructure(structures, world, key, pos), w, k, q)
            <==> (w == world && k == key && q == pos) || ExploredStructure(config, structures, w, k, q)
  {
    ToLongInjective(q, pos);
  }

  /** Adding a start that is already known leaves the state as it was, so a
      repeated `addStructure` is a no-op. */
  lemma AddStructureKnown(structures: Structures, world: WorldKey, key: StructureKey, pos: ChunkPos)
    requires ExploredStructure(ShareConfig(false, false, false), structures, world, key, pos)
    ensures WithStructure(structures, world, key, pos) == structures
  {
    var starts := structures[world];
    assert starts[key] + {ToLong(pos)} == starts[key];
    assert starts[key := starts[key]] == starts;
  }

  lemma AddStructureTwice(structures: Structures, world: WorldKey, key: StructureKey, pos: ChunkPos)
    ensures var once := WithStructure(structures, world, key, pos);
      WithStructure(once, world, key, pos) == once
  {
    AddStructureKnown(WithStructure(structures, world, key, pos), world, key, pos);
  }

  // ---------------------------------------------------------------------------
  // Properties of the trimming.

  /** `limitTerrainBitset` keeps the delta's regions and, in each, exactly the
      chunks that are both in the delta and explored by this player; without
      a share-all switch and without terrain for the world, nothing is left. */
  lemma LimitedTerrainExplored(config: ShareConfig, terrain: Terrain, world: WorldKey, delta: Regions, c: ChunkPos)
    requires RegionOf(c) in delta
    ensures config.shareAllTerrain || world in terrain ==>
      var limited := LimitedTerrain(config, terrain, world, delta);
      && limited.Keys == delta.Keys
      && (Get(limited[RegionOf(c)], BitForChunk(c))
          <==> Get(delta[RegionOf(c)], BitForChunk(c)) && ExploredChunk(config, terrain, world, c))
    ensures !config.shareAllTerrain && world !in terrain ==> LimitedTerrain(config, terrain, world, delta) == map[]
  {
    if !config.shareAllTerrain && world in terrain {
      var p := RegionOf(c);
      if p in terrain[world] {
        GetAnd(delta[p], terrain[world][p], BitForChunk(c));
      } else {
        NothingInEmpty(BitForChunk(c));
      }
    }
  }

  /** A start is in the packed set exactly when its packing is. */
  lemma UnpackedHas(longs: set<Long>, c: ChunkPos)
    ensures c in Unpacked(longs) <==> ToLong(c) in longs
  {
    if c in Unpacked(longs) {
      var l :| l in longs && FromLong(l) == c;
      ToLongFromLong(l);
    }
    if ToLong(c) in longs {
      assert FromLong(ToLong(c)) == c;
    }
  }

  /** `limitStructureKeySet` keeps the delta's keys; under a key this player
      knows, exactly the delta's starts they have NOT explored remain, and
      under a key they do not know nothing remains. */
  lemma LimitedStructuresUnexplored(config: ShareConfig, structures: Structures, world: WorldKey,
                                    delta: KeySet, k: StructureKey, c: ChunkPos)
    requires k in delta && !config.shareAllStructures && world in structures
    ensures var limited := LimitedStructures(config, structures, world, delta);
      && limited.Keys == delta.Keys
      && (c in limited[k]
          <==> k in structures[world] && c in delta[k] && !ExploredStructure(config, structures, world, k, c))
  {
    if k in structures[world] {
      UnpackedHas(structures[world][k], c);
    }
  }

  /** With the structure share-all switch the delta passes untouched; with no
      structures for the world it is emptied. */
  lemma LimitedStructuresExtremes(config: ShareConfig, structures: Structures, world: WorldKey, delta: KeySet)
    ensures config.shareAllStructures ==> LimitedStructures(config, structures, world, delta) == delta
    ensures !config.shareAllStructures && world !in structures ==> LimitedStructures(config, structures, world, delta) == map[]
  {
  }
}
