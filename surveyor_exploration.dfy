/** One player's `SurveyorExploration` as an object whose maps the operations
    update in place. Each method's new state is the matching function of
    `Explorations` or `ExplorationCodec` applied to the old state; the
    properties of those functions are proved there. */
module SurveyorExplorations {
  import opened Coords
  import opened BitSets
  import opened Explorations
  import opened ExplorationCodec

  class Exploration {
    /** `terrain()`: per world, per region, the explored-chunk bitset. */
    var terrain: Terrain
    /** `structures()`: per world, per structure key, the packed start positions. */
    var structures: Structures
    /** `sharedPlayers()`: the players whose landmarks this player sees. */
    var sharedPlayers: set<Uuid>
    /** `getWorld().getRegistryKey()`: the world the player is in. */
    var world: WorldKey

    /** A player who has explored nothing yet. */
    constructor(world: WorldKey, sharedPlayers: set<Uuid>)
      ensures this.terrain == map[] && this.structures == map[]
      ensures this.sharedPlayers == sharedPlayers && this.world == world
    {
      this.terrain := map[];
      this.structures := map[];
      this.sharedPlayers := sharedPlayers;
      this.world := world;
    }

    /** `exploredLandmark`, with this player's `sharedPlayers()`: an owned
        landmark is seen exactly when landmarks are shared with everyone or
        its owner shares with this player; an ownerless one with its chunk. */
    function ExploresLandmark(config: ShareConfig, w: WorldKey, landmark: Landmark): (r: bool)
      reads this
      ensures landmark.owner.Some? ==> (r <==> config.shareAllLandmarks || landmark.owner.value in sharedPlayers)
      ensures landmark.owner.None? ==> (r <==> config.shareAllLandmarks || ExploredChunk(config, terrain, w, ChunkOfBlock(landmark.pos)))
    {
      ExploredLandmark(config, terrain, sharedPlayers, w, landmark)
    }

    /** `addChunk`: marks a chunk of the current world as explored. */
    method AddChunk(pos: ChunkPos)
      modifies this`terrain
      ensures terrain == WithChunk(old(terrain), world, pos)
      ensures ExploredChunk(ShareConfig(false, false, false), terrain, world, pos)
      ensures BoundedTerrain(old(terrain)) ==> BoundedTerrain(terrain)
    {
      ExploredAfterAddChunk(ShareConfig(false, false, false), terrain, world, pos, world, pos);
      if BoundedTerrain(terrain) {
        AddChunkFrame(terrain, world, pos);
      }
      terrain := WithChunk(terrain, world, pos);
    }

    /** `addStructure(worldKey, structureKey, pos)`: records a structure start. */
    method AddStructure(w: WorldKey, key: StructureKey, pos: ChunkPos)
      modifies this`structures
      ensures structures == WithStructure(old(structures), w, key, pos)
      ensures ExploredStructure(ShareConfig(false, false, false), structures, w, key, pos)
    {
      ExploredAfterAddStructure(ShareConfig(false, false, false), structures, w, key, pos, w, key, pos);
      structures := WithStructure(structures, w, key, pos);
    }

    /** `mergeRegion`: or-s a received bitset into a region. */
    method MergeRegion(w: WorldKey, region: ChunkPos, bits: BitSet)
      modifies this`terrain
      ensures terrain == WithRegionMerged(old(terrain), w, region, bits)
      ensures BoundedTerrain(old(terrain)) && |bits| <= RegionWords ==> BoundedTerrain(terrain)
    {
      if BoundedTerrain(terrain) && |bits| <= RegionWords {
        MergeRegionBounded(terrain, w, region, bits);
      }
      terrain := WithRegionMerged(terrain, w, region, bits);
    }

    /** `limitTerrainBitset`: trims a terrain delta for world `w` to what this
        player has explored, visiting the delta's regions one by one. */
    method LimitTerrainBitset(config: ShareConfig, w: WorldKey, bitSets: Regions) returns (limited: Regions)
      ensures limited == LimitedTerrain(config, terrain, w, bitSets)
    {
      if config.shareAllTerrain {
        return bitSets;
      }
      if w !in terrain {
        return map[];
      }
      var regions := terrain[w];
      limited := bitSets;
      var todo := bitSets.Keys;
      while todo != {}
        invariant todo <= bitSets.Keys && limited.Keys == bitSets.Keys
        invariant forall p :: p in bitSets && p !in todo ==> limited[p] == LimitedRegion(regions, p, bitSets[p])
        invariant forall p :: p in todo ==> limited[p] == bitSets[p]
        decreases todo
      {
        var p :| p in todo;
        if p in regions {
          limited := limited[p := And(limited[p], regions[p])];
        } else {
          limited := limited[p := Empty];
        }
        todo := todo - {p};
      }
    }

    /** `limitStructureKeySet`: trims a structure delta for world `w`, removing
        the starts this player knows and emptying the keys they do not. */
    method LimitStructureKeySet(config: ShareConfig, w: WorldKey, keySet: KeySet) returns (limited: KeySet)
      ensures limited == LimitedStructures(config, structures, w, keySet)
    {
      if config.shareAllStructures {
        return keySet;
      }
      if w !in structures {
        return map[];
      }
      var known := structures[w];
      limited := keySet;
      var todo := keySet.Keys;
      while todo != {}
        invariant todo <= keySet.Keys && limited.Keys == keySet.Keys
        invariant forall k :: k in keySet && k !in todo ==> limited[k] == LimitedStarts(known, k, keySet[k])
        invariant forall k :: k in todo ==> limited[k] == keySet[k]
        decreases todo
      {
        var k :| k in todo;
        if k in known {
          var starts := RemoveAll(limited[k], known[k]);
          limited := limited[k := starts];
        } else {
          limited := limited[k := {}];
        }
        todo := todo - {k};
      }
    }

    /** `write`: the save data for this player's exploration. `orders` is the
        order in which each world's `HashMap` yields its regions. */
    method Write(layout: Layout) returns (data: SaveData, ghost orders: map<WorldKey, seq<ChunkPos>>)
      requires BoundedTerrain(terrain)
      ensures EncodesTerrain(data, terrain, orders, layout)
      ensures EncodesStructures(data, structures)
    {
      var terrainCompound;
      terrainCompound, orders := WriteTerrain(terrain, layout);
      var structuresCompound := WriteStructures(structures);
      data := SaveData(terrainCompound, structuresCompound);
    }

    /** `read`: clears terrain and structures and refills them from `data`. */
    method Read(data: SaveData, layout: Layout)
      modifies this`terrain, this`structures
      ensures terrain == DecodeTerrain(data, layout)
      ensures structures == DecodeStructures(data)
      ensures BoundedTerrain(terrain)
    {
      terrain := ReadTerrain(data, layout);
      structures := ReadStructures(data);
    }

    /** `copyFrom`: each map is cleared and then filled from `them`'s, so
        copying from oneself leaves both maps empty. */
    method CopyFrom(them: Exploration)
      modifies this`terrain, this`structures
      ensures them != this ==> terrain == old(them.terrain) && structures == old(them.structures)
      ensures them == this ==> terrain == map[] && structures == map[]
    {
      terrain := map[];
      terrain := terrain + them.terrain;
      structures := map[];
      structures := structures + them.structures;
    }
  }

  /** `write`'s terrain half: one array per world. */
  method WriteTerrain(terrain: Terrain, layout: Layout)
    returns (terrainCompound: map<string, seq<Long>>, ghost orders: map<WorldKey, seq<ChunkPos>>)
    requires BoundedTerrain(terrain)
    ensures EncodesTerrain(SaveData(terrainCompound, map[]), terrain, orders, layout)
  {
    terrainCompound := map[];
    orders := map[];
    var todo := terrain.Keys;
    while todo != {}
      invariant todo <= terrain.Keys
      invariant terrainCompound.Keys == terrain.Keys - todo
      invariant forall w :: w in terrainCompound ==>
        && w in orders && IsOrder(orders[w], terrain[w])
        && terrainCompound[w] == EncodeRegions(orders[w], terrain[w], layout)
      decreases todo
    {
      var w :| w in todo;
      var regionArray, order := WriteRegions(terrain[w], layout);
      terrainCompound := terrainCompound[w := regionArray];
      orders := orders[w := order];
      todo := todo - {w};
    }
  }

  /** `write`'s structures half: one compound per world, one array per key. */
  method WriteStructures(structures: Structures) returns (structuresCompound: map<string, map<string, seq<Long>>>)
    ensures EncodesStructures(SaveData(map[], structuresCompound), structures)
  {
    structuresCompound := map[];
    var todo := structures.Keys;
    while todo != {}
      invariant todo <= structures.Keys
      invariant structuresCompound.Keys == structures.Keys - todo
      invariant forall w :: w in structuresCompound ==>
        && structuresCompound[w].Keys == structures[w].Keys
        && forall k :: k in structures[w] ==> Lists(structuresCompound[w][k], structures[w][k])
      decreases todo
    {
      var w :| w in todo;
      var worldStructuresCompound := WriteStarts(structures[w]);
      structuresCompound := structuresCompound[w := worldStructuresCompound];
      todo := todo - {w};
    }
  }

  /** `read`'s terrain half: every world's array decoded. */
  method ReadTerrain(data: SaveData, layout: Layout) returns (terrain: Terrain)
    ensures terrain == DecodeTerrain(data, layout)
    ensures BoundedTerrain(terrain)
  {
    terrain := map[];
    var todo := data.exploredTerrain.Keys;
    while todo != {}
      invariant todo <= data.exploredTerrain.Keys
      invariant terrain.Keys == data.exploredTerrain.Keys - todo
      invariant forall w :: w in terrain ==> terrain[w] == DecodeRegions(data.exploredTerrain[w], layout)
      decreases todo
    {
      var w :| w in todo;
      var regionMap := ReadRegions(data.exploredTerrain[w], layout);
      terrain := terrain[w := regionMap];
      todo := todo - {w};
    }
    DecodeTerrainBounded(data, layout);
  }

  /** `read`'s structures half: every world's compound decoded. */
  method ReadStructures(data: SaveData) returns (structures: Structures)
    ensures structures == DecodeStructures(data)
  {
    structures := map[];
    var todo := data.exploredStructures.Keys;
    while todo != {}
      invariant todo <= data.exploredStructures.Keys
      invariant structures.Keys == data.exploredStructures.Keys - todo
      invariant forall w :: w in structures ==> structures[w] == DecodeStarts(data.exploredStructures[w])
      decreases todo
    {
      var w :| w in todo;
      var structureMap := ReadStarts(data.exploredStructures[w]);
      structures := structures[w := structureMap];
      todo := todo - {w};
    }
  }

  /** `starts::remove` for each packed position of `known`. */
  method RemoveAll(starts: set<ChunkPos>, known: set<Long>) returns (remaining: set<ChunkPos>)
    ensures remaining == starts - Unpacked(known)
  {
    remaining := starts;
    var todo := known;
    while todo != {}
      invariant todo <= known
      invariant remaining == starts - Unpacked(known - todo)
      decreases todo
    {
      var l :| l in todo;
      UnpackedAdd(known - todo, l);
      assert known - (todo - {l}) == (known - todo) + {l};
      remaining := remaining - {FromLong(l)};
      todo := todo - {l};
    }
  }

  lemma UnpackedAdd(longs: set<Long>, l: Long)
    ensures Unpacked(longs + {l}) == Unpacked(longs) + {FromLong(l)}
  {
  }

  /** One world's terrain array: `new long[map.size() * 17]`, then for each
      region in turn its packed position at `i - 16` and its words copied
      into the slots up to `i`, with `i` stepping by 17. */
  method WriteRegions(regions: Regions, layout: Layout) returns (arr: seq<Long>, ghost order: seq<ChunkPos>)
    requires Bounded(regions)
    ensures IsOrder(order, regions)
    ensures arr == EncodeRegions(order, regions, layout)
    ensures |arr| == 17 * |regions|
    ensures DecodeRegions(arr, layout) == RecoveredRegions(regions, layout)
  {
    var regionArray := new Long[|regions| * 17](_ => 0);
    var i := 16;
    var todo := regions.Keys;
    order := [];
    while todo != {}
      invariant todo <= regions.Keys
      invariant |order| + |todo| == |regions|
      invariant i == 17 * |order| + 16
      invariant ListedSoFar(order, regions, todo)
      invariant regionArray[..] == EncodeRegions(order, regions, layout) + Padding(regionArray.Length - 17 * |order|)
      decreases todo
    {
      var p :| p in todo;
      PutRegion(regionArray, i, regions, p, layout, order);
      ListedStep(order, regions, todo, p);
      order := order + [p];
      todo := todo - {p};
      i := i + 17;
    }
    assert regionArray[..] == EncodeRegions(order, regions, layout) + [];
    arr := regionArray[..];
    DecodeEncode(order, regions, layout);
  }

  /** One turn of `write`'s loop: region `p`'s block after those of `order`. */
  method PutRegion(regionArray: array<Long>, i: nat, regions: Regions, p: ChunkPos, layout: Layout,
                   ghost order: seq<ChunkPos>)
    requires Bounded(regions) && p in regions
    requires forall j :: 0 <= j < |order| ==> order[j] in regions
    requires i == 17 * |order| + 16 && i < regionArray.Length
    requires regionArray[..] == EncodeRegions(order, regions, layout) + Padding(regionArray.Length - 17 * |order|)
    modifies regionArray
    ensures regionArray[..] == EncodeRegions(order + [p], regions, layout)
                               + Padding(regionArray.Length - 17 * (|order| + 1))
  {
    WriteBlock(regionArray, i, p, regions[p], layout, EncodeRegions(order, regions, layout));
    WrittenSoFar(order, regions, layout, p, regionArray[..]);
  }

  /** `order` lists, once each, the regions no longer in `todo`. */
  ghost predicate ListedSoFar(order: seq<ChunkPos>, regions: Regions, todo: set<ChunkPos>)
  {
    Distinct(order) && forall p :: p in order <==> p in regions && p !in todo
  }

  lemma ListedStep(order: seq<ChunkPos>, regions: Regions, todo: set<ChunkPos>, p: ChunkPos)
    requires ListedSoFar(order, regions, todo) && p in todo && todo <= regions.Keys
    ensures ListedSoFar(order + [p], regions, todo - {p})
  {
  }

  /** After block `|order|` is filled, the array holds the encoding of one
      more region. */
  lemma WrittenSoFar(order: seq<ChunkPos>, regions: Regions, layout: Layout, p: ChunkPos, contents: seq<Long>)
    requires forall i :: 0 <= i < |order| ==> order[i] in regions
    requires Bounded(regions) && p in regions
    requires 17 * |order| + 17 <= |contents|
    requires contents == EncodeRegions(order, regions, layout) + RegionBlock(p, regions[p], layout)
                         + Padding(|contents| - 17 * |order| - 17)
    ensures contents == EncodeRegions(order + [p], regions, layout) + Padding(|contents| - 17 * (|order| + 1))
  {
    EncodeSnoc(order, regions, layout, p);
  }

  /** One turn of `write`'s loop: the packed position at `i - 16`, then
      `System.arraycopy` of the bitset's words to their offset. */
  method WriteBlock(regionArray: array<Long>, i: nat, pos: ChunkPos, bits: BitSet, layout: Layout,
                    ghost done: seq<Long>)
    requires |bits| <= RegionWords
    requires i == |done| + 16 && i < regionArray.Length
    requires regionArray[..] == done + Padding(regionArray.Length - |done|)
    modifies regionArray
    ensures regionArray[..] == done + RegionBlock(pos, bits, layout) + Padding(regionArray.Length - |done| - 17)
  {
    ghost var before := regionArray[..];
    regionArray[i - 16] := ToLong(pos);
    var regionBits := ToLongArray(bits);
    var offset := i - 15 + WordsOffset(bits, layout);
    forall j | 0 <= j < |regionBits| {
      regionArray[offset + j] := regionBits[j];
    }
    FillBlock(before, regionArray[..], done, pos, bits, layout);
  }

  /** Filling the block after `done` in a zeroed tail, key first and then the
      words at their offset, leaves the region's block there. */
  lemma FillBlock(before: seq<Long>, after: seq<Long>, done: seq<Long>, pos: ChunkPos, bits: BitSet, layout: Layout)
    requires |bits| <= RegionWords
    requires |done| + 17 <= |before| == |after|
    requires before == done + Padding(|before| - |done|)
    requires after[|done|] == ToLong(pos)
    requires forall j :: 0 <= j < |bits| ==>
      after[|done| + 1 + WordsOffset(bits, layout) + j] == ToLongArray(bits)[j]
    requires var off := |done| + 1 + WordsOffset(bits, layout);
      forall n :: 0 <= n < |after| && n != |done| && !(off <= n < off + |bits|) ==> after[n] == before[n]
    ensures after == done + RegionBlock(pos, bits, layout) + Padding(|after| - |done| - 17)
  {
    var want := done + RegionBlock(pos, bits, layout) + Padding(|after| - |done| - 17);
    var off := |done| + 1 + WordsOffset(bits, layout);
    forall n | 0 <= n < |after|
      ensures after[n] == want[n]
    {
      if n < |done| {
        assert after[n] == before[n];
      } else if n == |done| {
      } else if n < |done| + 17 {
        WordSlotsAt(bits, layout, n - |done| - 1);
        if off <= n < off + |bits| {
          assert after[off + (n - off)] == ToLongArray(bits)[n - off];
        } else {
          assert after[n] == before[n];
        }
      } else {
        assert after[n] == before[n];
      }
    }
  }

  /** One world's structure compound: `toLongArray` of each key's set. */
  method WriteStarts(starts: Starts) returns (compound: map<string, seq<Long>>)
    ensures compound.Keys == starts.Keys
    ensures forall k :: k in starts ==> Lists(compound[k], starts[k])
  {
    compound := map[];
    var todo := starts.Keys;
    while todo != {}
      invariant todo <= starts.Keys
      invariant compound.Keys == starts.Keys - todo
      invariant forall k :: k in compound ==> Lists(compound[k], starts[k])
      decreases todo
    {
      var k :| k in todo;
      var longs := ListLongs(starts[k]);
      compound := compound[k := longs];
      todo := todo - {k};
    }
  }

  /** `LongSet.toLongArray`: each element once, in the set's own order. */
  method ListLongs(s: set<Long>) returns (ls: seq<Long>)
    ensures Lists(ls, s)
  {
    ls := [];
    var todo := s;
    while todo != {}
      invariant todo <= s
      invariant Distinct(ls)
      invariant forall l :: l in ls <==> l in s && l !in todo
      decreases todo
    {
      var l :| l in todo;
      ls := ls + [l];
      todo := todo - {l};
    }
  }

  /** One world's terrain from its array: `for (int i = 16; i < length; i += 17)`
      puts the region keyed at `i - 16` with the bitset of the slots from
      `i - 15`. */
  method ReadRegions(regionArray: seq<Long>, layout: Layout) returns (regionMap: Regions)
    ensures regionMap == DecodeRegions(regionArray, layout)
  {
    regionMap := map[];
    var i := 16;
    ghost var n := 0;
    while i < |regionArray|
      invariant i == 17 * n + 16 && 17 * n <= |regionArray|
      invariant regionMap == DecodeBlocks(regionArray, n, Reader(layout))
      decreases |regionArray| - i
    {
      var pos, bits := ReadBlock(regionArray, i, n, layout);
      regionMap := regionMap[pos := bits];
      n := n + 1;
      i := i + 17;
    }
    BlockCount(|regionArray|, n);
  }

  /** The region of the block ending at `i`: its position from `i - 16` and
      its bitset from the slots `i - 15` up to `i` (up to `i + 1` in the
      corrected layout). */
  method ReadBlock(regionArray: seq<Long>, i: nat, ghost n: nat, layout: Layout) returns (pos: ChunkPos, bits: BitSet)
    requires i == 17 * n + 16 && i < |regionArray|
    ensures DecodeBlocks(regionArray, n + 1, Reader(layout))
         == DecodeBlocks(regionArray, n, Reader(layout))[pos := bits]
  {
    var hi := if layout.AsWritten? then i else i + 1;
    var slots := regionArray[i - 15 .. hi];
    DecodeNext(regionArray, n, layout, slots);
    pos := FromLong(regionArray[i - 16]);
    bits := ValueOf(slots);
  }

  lemma BlockCount(length: nat, n: nat)
    requires 17 * n <= length < 17 * n + 17
    ensures length / 17 == n
  {
  }

  /** Block `n` decodes to the bitset of the slots `read` copies: fifteen
      as written, sixteen corrected. */
  lemma DecodeNext(arr: seq<Long>, n: nat, layout: Layout, slots: seq<Long>)
    requires 17 * n + 17 <= |arr|
    requires slots == arr[17 * n + 1 .. if layout.AsWritten? then 17 * n + 16 else 17 * n + 17]
    ensures DecodeBlocks(arr, n + 1, Reader(layout))
         == DecodeBlocks(arr, n, Reader(layout))[FromLong(arr[17 * n]) := ValueOf(slots)]
  {
    var block := arr[17 * n + 1 .. 17 * n + 17];
    if layout.AsWritten? {
      assert block[..15] == slots;
    }
    assert Reader(layout)(block) == ReadWords(block, layout);
  }


  /** One world's structures from its compound: each array becomes a set. */
  method ReadStarts(compound: map<string, seq<Long>>) returns (structureMap: Starts)
    ensures structureMap == DecodeStarts(compound)
  {
    structureMap := map[];
    var todo := compound.Keys;
    while todo != {}
      invariant todo <= compound.Keys
      invariant structureMap.Keys == compound.Keys - todo
      invariant forall k :: k in structureMap ==> structureMap[k] == Elements(compound[k])
      decreases todo
    {
      var k :| k in todo;
      structureMap := structureMap[k := Elements(compound[k])];
      todo := todo - {k};
    }
  }
}
