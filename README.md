# Surveyor exploration and world summaries, modelled in Dafny

Surveyor is a Minecraft mod that keeps a map-like summary of each world and records, per player, which parts of it the player has explored. This project models four parts of it:

- **A player's exploration state** (`SurveyorExploration`). For each world it holds:
  - a map from region to a 1024-bit `BitSet` with one bit per chunk;
  - a map from structure key to a set of packed chunk positions.

  Beside those it holds the set of players whose landmarks are shared. The model covers:
  - the visibility queries (`exploredChunk`, `exploredStructure`, `exploredLandmark`) and the three share-all switches;
  - the monotone updates (`addChunk`, `addStructure`, `mergeRegion`);
  - the two ways a delta map is cut down to what the player knows (`limitTerrainBitset`, `limitStructureKeySet`);
  - the long-array save format (`write`, `read`) and `copyFrom`.
- **A world's summary** (`WorldSummary`):
  - `getRegionPos` and `containsChunk`;
  - `putChunk`;
  - the guards in `onChunkLoad`, `onChunkUnload` and `onStructurePlace`;
  - the region file name `c.<x>.<z>.dat` that `save` writes for each dirty region;
  - the file-name filter and parse that `load` applies.
- **The terrain summary's layer list** (`terrain/DimensionSupport`). This is the ordered list of Y levels sampled for a world, memoised per world key.
- **The chunk summary's layer set** (`chunk/DimensionSupport`). This is the same idea, kept as a sorted `TreeSet`.

## How the pieces are represented

**Modules and types**

| module | file | what it holds |
|---|---|---|
| `Coords` | `coords.dfy` | Java's `int` and `long`; chunk and block positions; and, as assumed definitions (see Left out), `getRegionX` as `x >> 5`, `bitForChunk`, `ChunkPos.toLong` and `new ChunkPos(long)` |
| `Words` and `BitSets` | `bitsets.dfy` | `java.util.BitSet` |
| `Explorations` | `exploration.dfy` | the exploration state as values, with the query and update functions and their properties |
| `ExplorationCodec` | `exploration_codec.dfy` | the long-array layout of `write` and `read` |
| `SurveyorExplorations` | `surveyor_exploration.dfy` | the exploration object as a class whose methods update its maps in place |
| `JavaText` | `java_text.dfy` | `"%d"` formatting, `String.split("\\.")` and `Integer.parseInt` on ASCII digits |
| `WorldSummaries` | `world_summary.dfy` | the summary as a class, with `save` and `load` over a name-to-content map |
| `Dimensions`, `TerrainLayers`, `ChunkLayers` | `dimension.dfy`, `terrain_layers.dfy`, `chunk_layers.dfy` | the two layer rules and the cache |

- A `BitSet` is its normalised word sequence: 64-bit words held as integers below 2^64, with no trailing zero word. `toLongArray` and `valueOf` convert between those words and signed longs.

**Save files and iteration order**

- A save file is a map from file name to its content. The NBT contents are abstract: a region's chunks, a set of structure starts, or a set of landmarks.
- `save` returns the files it would write. `load` takes:
  - the directory listing, or none when listing fails;
  - the contents of the files.
- `write` and `read` work on the long arrays keyed by world and by structure, so the `NbtCompound` wrapper is not modelled.
- The order in which a `HashMap` hands out its entries is unspecified. The methods therefore pick entries in any order. A ghost output of `write` records the order it used, and the encoding is stated for that order.

**Layout parameter of `write` and `read`**

- The class's `Write` and `Read` take a `Layout` argument:
  - `AsWritten` is the layout of the code (see Findings);
  - `Corrected` is the layout under which the terrain round trip holds.

**Where the specification and the code disagree**

The code is followed in both cases:
- The specification promises that decoding what was encoded gives back every explored chunk. The exploration terrain codec does not (see Findings).
- The specification says that saving clears the dirty flags. The shown `WorldSummary.save` does not clear them: it never resets `landmarksDirty`, and it clears no region's or the structures' flag itself. The model assumes that `RegionSummary.writeNbt` and the structure summary's `writeNbt` leave their own dirty flags set, so the model's `Save` leaves the state unchanged (see Left out).

## Model

| member | source | states |
|---|---|---|
| Coords.RegionOf | src/main/java/folk/sisby/surveyor/WorldSummary.java:50-52 | the region position is the floor of the chunk coordinates divided by 32: the region's 32×32 square contains the chunk, negative coordinates included |
| Coords.BitForChunk | src/main/java/folk/sisby/surveyor/SurveyorExploration.java:51 | a chunk's bit index is below BITSET_SIZE (1024) |
| Coords.ChunkFromRegionBit | src/main/java/folk/sisby/surveyor/SurveyorExploration.java:49-51 | the region and the bit index together give back the chunk's coordinates |
| Coords.RegionBitInjective | src/main/java/folk/sisby/surveyor/SurveyorExploration.java:49-51 | two chunks with the same region and bit are the same chunk, so a bit never stands for two chunks |
| Coords.ChunkOfBlock | src/main/java/folk/sisby/surveyor/SurveyorExploration.java:60 | `new ChunkPos(BlockPos)` is the 16×16 column containing the block |
| Coords.ToLong | src/main/java/folk/sisby/surveyor/SurveyorExploration.java:105 | unpacking a packed position gives the position back |
| Coords.ToLongFromLong | src/main/java/folk/sisby/surveyor/SurveyorExploration.java:154 | every long unpacks to a position that packs back to the same long |
| Coords.ToLongInjective | src/main/java/folk/sisby/surveyor/SurveyorExploration.java:56 | two positions pack to the same long exactly when they are equal, so `contains(pos.toLong())` tests the position |
| BitSets.GetSet | src/main/java/folk/sisby/surveyor/SurveyorExploration.java:100 | after `set(i)`, bit j is set iff j is i or it was set before |
| BitSets.GetOr | src/main/java/folk/sisby/surveyor/SurveyorExploration.java:96 | after `or`, a bit is set iff it is set in either operand |
| BitSets.GetAnd | src/main/java/folk/sisby/surveyor/SurveyorExploration.java:72 | after `and`, a bit is set iff it is set in both operands |
| BitSets.NothingInEmpty | src/main/java/folk/sisby/surveyor/SurveyorExploration.java:96 | a new BitSet has no bit set |
| BitSets.OrCommutes | src/main/java/folk/sisby/surveyor/SurveyorExploration.java:96 | `a or b` equals `b or a` as normalised bitsets |
| BitSets.OrIdempotent | src/main/java/folk/sisby/surveyor/SurveyorExploration.java:96 | `a or a` is a |
| BitSets.OrAssociates | src/main/java/folk/sisby/surveyor/SurveyorExploration.java:96 | `(a or b) or c` is `a or (b or c)` |
| BitSets.OrEmpty | src/main/java/folk/sisby/surveyor/SurveyorExploration.java:96 | or-ing into a fresh BitSet gives the argument |
| BitSets.OrAbsorbs | src/main/java/folk/sisby/surveyor/SurveyorExploration.java:96 | or-ing the same bits a second time changes nothing |
| BitSets.ValueOfToLongArray | src/main/java/folk/sisby/surveyor/SurveyorExploration.java:127 | `valueOf(toLongArray(b))` is b |
| BitSets.TrimZeros | src/main/java/folk/sisby/surveyor/SurveyorExploration.java:154 | `valueOf` ignores trailing zero words |
| Explorations.ShareAllExplores | src/main/java/folk/sisby/surveyor/SurveyorExploration.java:48-61 | with the matching share-all switch on, every chunk, structure and landmark is explored whatever the state |
| Explorations.NoTerrainNoChunk | src/main/java/folk/sisby/surveyor/SurveyorExploration.java:50-51 | a chunk whose world or region is absent is explored iff terrain is shared with everyone |
| Explorations.OwnerlessLandmark | src/main/java/folk/sisby/surveyor/SurveyorExploration.java:60 | without share-all, an ownerless landmark is explored iff the chunk containing its block is explored |
| Explorations.OwnedLandmark | src/main/java/folk/sisby/surveyor/SurveyorExploration.java:60 | an owned landmark is explored iff landmarks are shared with everyone or its owner is a shared player, and terrain makes no difference |
| SurveyorExplorations.Exploration.ExploresLandmark | src/main/java/folk/sisby/surveyor/SurveyorExploration.java:59-61 | with this player's shared players: an owned landmark is explored iff landmarks are shared with everyone or its owner is among them; an ownerless one iff its chunk is explored |
| Explorations.ExploredAfterAddChunk | src/main/java/folk/sisby/surveyor/SurveyorExploration.java:99-100 | after adding a chunk, a chunk is explored iff it is the added one in that world or was explored before |
| Explorations.AddChunkFrame | src/main/java/folk/sisby/surveyor/SurveyorExploration.java:99-100 | adding a chunk touches only its world's entry and its region's bitset, creates them when absent, and keeps every bitset within 1024 bits |
| Explorations.MergeRegionBits | src/main/java/folk/sisby/surveyor/SurveyorExploration.java:95-97 | after `mergeRegion` the region exists and each of its bits is the old bit or the incoming bit |
| Explorations.ExploredAfterMerge | src/main/java/folk/sisby/surveyor/SurveyorExploration.java:95-97 | after a merge, a chunk is explored iff it was explored before or its bit is set in the merged region's incoming bitset |
| Explorations.MergeRegionIdempotent | src/main/java/folk/sisby/surveyor/SurveyorExploration.java:95-97 | merging the same bitset twice equals merging it once |
| Explorations.MergeRegionsCommute | src/main/java/folk/sisby/surveyor/SurveyorExploration.java:95-97 | two merges give the same state in either order, in any worlds and regions |
| Explorations.MergeRegionBounded | src/main/java/folk/sisby/surveyor/SurveyorExploration.java:95-97 | merging a bitset of at most 1024 bits keeps every bitset within 1024 bits |
| Explorations.ExploredAfterAddStructure | src/main/java/folk/sisby/surveyor/SurveyorExploration.java:104-106 | after adding a start, a start is explored iff it is the added one or was explored before |
| Explorations.AddStructureKnown | src/main/java/folk/sisby/surveyor/SurveyorExploration.java:104-106 | adding a start that is already explored leaves the state unchanged |
| Explorations.AddStructureTwice | src/main/java/folk/sisby/surveyor/SurveyorExploration.java:104-106 | adding the same start a second time leaves the state unchanged |
| Explorations.LimitedTerrainExplored | src/main/java/folk/sisby/surveyor/SurveyorExploration.java:63-77 | with share-all or a known world the keys stay the same and a chunk's bit survives iff it was in the delta and the player explored it; with an unknown world the delta becomes empty |
| Explorations.UnpackedHas | src/main/java/folk/sisby/surveyor/SurveyorExploration.java:88 | a position is among the unpacked longs iff its packed long is in the set |
| Explorations.LimitedStructuresUnexplored | src/main/java/folk/sisby/surveyor/SurveyorExploration.java:79-93 | for a known world the keys stay the same and a start survives iff its key is known to the player, it was in the delta and the player has not explored it |
| Explorations.LimitedStructuresExtremes | src/main/java/folk/sisby/surveyor/SurveyorExploration.java:79-85 | with share-all the delta is unchanged; for an unknown world it becomes empty |
| SurveyorExplorations.Exploration.constructor | src/main/java/folk/sisby/surveyor/SurveyorExploration.java:36-42 | a new exploration has empty terrain and structures |
| SurveyorExplorations.Exploration.AddChunk | src/main/java/folk/sisby/surveyor/SurveyorExploration.java:99-100 | the new terrain is the old one with the chunk added in the current world; the chunk is then explored; bitsets stay within 1024 bits |
| SurveyorExplorations.Exploration.AddStructure | src/main/java/folk/sisby/surveyor/SurveyorExploration.java:104-106 | the new structures are the old ones with the start added; the start is then explored |
| SurveyorExplorations.Exploration.MergeRegion | src/main/java/folk/sisby/surveyor/SurveyorExploration.java:95-97 | the new terrain is the old one with the region or-ed with the bitset, created when absent |
| SurveyorExplorations.Exploration.LimitTerrainBitset | src/main/java/folk/sisby/surveyor/SurveyorExploration.java:63-77 | the loop over the delta's regions yields the limited terrain: each bitset and-ed with the known region or cleared |
| SurveyorExplorations.Exploration.LimitStructureKeySet | src/main/java/folk/sisby/surveyor/SurveyorExploration.java:79-93 | the loop over the delta's keys yields the limited key set: known starts removed, unknown keys emptied |
| SurveyorExplorations.Exploration.Write | src/main/java/folk/sisby/surveyor/SurveyorExploration.java:120-145 | every world's array is its regions' 17-long blocks in the order written, and every structure key's array lists exactly its longs |
| SurveyorExplorations.Exploration.Read | src/main/java/folk/sisby/surveyor/SurveyorExploration.java:147-169 | the state is replaced by the decoding of the arrays, and every decoded bitset is within 1024 bits |
| SurveyorExplorations.Exploration.CopyFrom | src/main/java/folk/sisby/surveyor/SurveyorExploration.java:171-176 | the state becomes the other player's maps; copying from oneself empties them |
| SurveyorExplorations.WriteTerrain | src/main/java/folk/sisby/surveyor/SurveyorExploration.java:121-132 | one array per world, each the encoding of that world's regions in an order listing each region once |
| SurveyorExplorations.WriteStructures | src/main/java/folk/sisby/surveyor/SurveyorExploration.java:135-142 | one compound per world with the same keys, each key's array listing exactly its longs |
| SurveyorExplorations.ReadTerrain | src/main/java/folk/sisby/surveyor/SurveyorExploration.java:148-157 | every world's array decoded, and every decoded bitset within 1024 bits |
| SurveyorExplorations.ReadStructures | src/main/java/folk/sisby/surveyor/SurveyorExploration.java:159-168 | every world's compound decoded to the sets of its arrays' longs |
| SurveyorExplorations.RemoveAll | src/main/java/folk/sisby/surveyor/SurveyorExploration.java:88 | removing each unpacked known long leaves exactly the starts not among them |
| SurveyorExplorations.WriteRegions | src/main/java/folk/sisby/surveyor/SurveyorExploration.java:122-131 | the array of `map.size() * 17` longs is the concatenation of the regions' blocks in an order listing each region once, and `read` decodes it, whatever that order, to what the layout recovers of each region |
| SurveyorExplorations.PutRegion | src/main/java/folk/sisby/surveyor/SurveyorExploration.java:125-130 | one turn of the loop appends the region's block after those already written and leaves the rest zero |
| SurveyorExplorations.WriteBlock | src/main/java/folk/sisby/surveyor/SurveyorExploration.java:126-128 | writing the key and copying the words puts one region's block after the ones written and leaves the rest zero |
| SurveyorExplorations.WriteStarts | src/main/java/folk/sisby/surveyor/SurveyorExploration.java:136-142 | one array per structure key, listing exactly that key's longs |
| SurveyorExplorations.ListLongs | src/main/java/folk/sisby/surveyor/SurveyorExploration.java:139 | `toLongArray` lists each element of the set once |
| SurveyorExplorations.ReadRegions | src/main/java/folk/sisby/surveyor/SurveyorExploration.java:151-155 | the loop stepping by 17 builds the decoding of the array |
| SurveyorExplorations.ReadBlock | src/main/java/folk/sisby/surveyor/SurveyorExploration.java:154 | the block ending at `i` gives the next entry of the decoding: the position from `i - 16` and the bitset of the slots the layout reads |
| SurveyorExplorations.ReadStarts | src/main/java/folk/sisby/surveyor/SurveyorExploration.java:161-168 | each structure key maps to the set of its array's longs |
| ExplorationCodec.EncodeBlock | src/main/java/folk/sisby/surveyor/SurveyorExploration.java:123-130 | block k holds the k-th region's packed position followed by its 16 word slots |
| ExplorationCodec.DecodeEncode | src/main/java/folk/sisby/surveyor/SurveyorExploration.java:120-155 | decoding the encoded regions, in whatever order they were written, gives each region what the layout's read recovers from its bits |
| ExplorationCodec.TerrainReadBack | src/main/java/folk/sisby/surveyor/SurveyorExploration.java:120-169 | reading what was written gives the same worlds and, per world, the recovered regions |
| ExplorationCodec.CorrectedRecovers | src/main/java/folk/sisby/surveyor/SurveyorExploration.java:128 | with the words left-aligned and all 16 slots read, every bitset of at most 1024 bits is recovered |
| ExplorationCodec.CorrectedTerrainRoundTrip | src/main/java/folk/sisby/surveyor/SurveyorExploration.java:120-169 | with the corrected layout, reading what was written gives back the terrain |
| ExplorationCodec.AsWrittenLoses | src/main/java/folk/sisby/surveyor/SurveyorExploration.java:128 | with the layout as written, no non-empty bitset is read back unchanged |
| ExplorationCodec.AsWrittenForgetsFirstChunk | src/main/java/folk/sisby/surveyor/SurveyorExploration.java:154 | a region with only its first chunk explored reads back as empty |
| ExplorationCodec.AsWrittenTerrainLoses | src/main/java/folk/sisby/surveyor/SurveyorExploration.java:120-169 | with the layout as written, every non-empty region is read back different from what was saved |
| ExplorationCodec.StructuresRoundTrip | src/main/java/folk/sisby/surveyor/SurveyorExploration.java:135-168 | reading the structure arrays gives back the structures |
| ExplorationCodec.DecodeTerrainBounded | src/main/java/folk/sisby/surveyor/SurveyorExploration.java:147-157 | every bitset read back is within 1024 bits |
| JavaText.ParseFormat | src/main/java/folk/sisby/surveyor/WorldSummary.java:122 | `Integer.parseInt` reads back every `int` that `%d` writes |
| JavaText.NoDotInFormat | src/main/java/folk/sisby/surveyor/WorldSummary.java:122 | a formatted `int` has no dot |
| JavaText.SplitFour | src/main/java/folk/sisby/surveyor/WorldSummary.java:151 | splitting four dot-free pieces joined by dots, the last non-empty, gives the four pieces |
| WorldSummaries.NoRegionNoChunk | src/main/java/folk/sisby/surveyor/WorldSummary.java:62-65 | a chunk whose region is absent is not contained |
| WorldSummaries.PutChunkFrame | src/main/java/folk/sisby/surveyor/WorldSummary.java:104-106 | after `putChunk` the chunk is contained with its air count, its region is created when absent, and the other regions are unchanged |
| WorldSummaries.WorldSummary.constructor | src/main/java/folk/sisby/surveyor/WorldSummary.java:46-60 | a summary holds what it was built with, and its landmarks start dirty |
| WorldSummaries.WorldSummary.PutChunk | src/main/java/folk/sisby/surveyor/WorldSummary.java:104-106 | the chunk goes into its region, created when absent, which becomes dirty |
| WorldSummaries.WorldSummary.PutStructure | src/main/java/folk/sisby/surveyor/WorldSummary.java:112-114 | the start is added and the structures become dirty |
| WorldSummaries.WorldSummary.Save | src/main/java/folk/sisby/surveyor/WorldSummary.java:116-146 | the loop over regions writes the files of the dirty regions, then the structures and landmarks files when dirty |
| WorldSummaries.WorldSummary.OnChunkLoad | src/main/java/folk/sisby/surveyor/WorldSummary.java:199-206 | the chunk is re-summarised iff the types match and it is absent or its air count differs; every start not yet contained is put |
| WorldSummaries.WorldSummary.OnChunkUnload | src/main/java/folk/sisby/surveyor/WorldSummary.java:208-212 | the chunk is re-summarised iff the types match and it needs saving |
| WorldSummaries.WorldSummary.OnStructurePlace | src/main/java/folk/sisby/surveyor/WorldSummary.java:214-217 | the start is put iff it is not yet contained |
| WorldSummaries.Load | src/main/java/folk/sisby/surveyor/WorldSummary.java:148-197 | a fresh summary of the given type with the regions of the accepted readable region files, later ones winning, and the structures and landmarks read or empty |
| WorldSummaries.ReadRegionFiles | src/main/java/folk/sisby/surveyor/WorldSummary.java:164-175 | each accepted, readable region file is put as a clean region under the position its name gives, later files replacing earlier ones |
| WorldSummaries.FilterRegionFiles | src/main/java/folk/sisby/surveyor/WorldSummary.java:150-161 | keeps, in order, exactly the names of the form `c.<int>.<int>.dat` |
| WorldSummaries.ChunkLoadIdempotent | src/main/java/folk/sisby/surveyor/WorldSummary.java:199-206 | handling the same chunk load twice gives the same regions and structures as once |
| WorldSummaries.ChunkLoadGuard | src/main/java/folk/sisby/surveyor/WorldSummary.java:202 | another side's load or an unchanged air count leaves the regions alone; a new chunk on the right side becomes contained |
| WorldSummaries.AllPlacedStep | src/main/java/folk/sisby/surveyor/WorldSummary.java:203-205 | placing one more start extends the starts placed so far, so the order of the starts makes no difference |
| WorldSummaries.StructurePlaceIdempotent | src/main/java/folk/sisby/surveyor/WorldSummary.java:214-217 | placing a start twice is placing it once; the start is then contained; placing a contained start changes nothing |
| WorldSummaries.RegionFileNameRoundTrip | src/main/java/folk/sisby/surveyor/WorldSummary.java:122-166 | every region's file name passes `load`'s filter and parses back to the region |
| WorldSummaries.RegionFileNameInjective | src/main/java/folk/sisby/surveyor/WorldSummary.java:122 | different regions get different file names |
| WorldSummaries.OtherFilesRejected | src/main/java/folk/sisby/surveyor/WorldSummary.java:150-161 | `structures.dat` and `landmarks.dat` are not taken for region files |
| WorldSummaries.SavedFileNames | src/main/java/folk/sisby/surveyor/WorldSummary.java:116-146 | a region's file is written iff the region is dirty, with its chunks; the structures and landmarks files are written iff they are dirty |
| WorldSummaries.LoadedAccepted | src/main/java/folk/sisby/surveyor/WorldSummary.java:150-173 | loading only the names the filter accepts gives the same regions as loading them all |
| WorldSummaries.LoadAll | src/main/java/folk/sisby/surveyor/WorldSummary.java:162-175 | loading a full listing of files that hold clean region files for exactly some regions gives exactly those regions |
| WorldSummaries.SaveThenLoad | src/main/java/folk/sisby/surveyor/WorldSummary.java:116-197 | loading what `save` wrote, listed in any order, gives the dirty regions (clean), and the structures and landmarks if they were dirty, nothing otherwise |
| TerrainLayers.SummaryLayersInternal | src/main/java/folk/sisby/surveyor/terrain/DimensionSupport.java:17-31 | the list has 2 to 8 layers, starts at `minY + height - 1` and ends at `minY` |
| TerrainLayers.TerrainLayerCount | src/main/java/folk/sisby/surveyor/terrain/DimensionSupport.java:20-29 | the list has one layer per rule that applies and two for the nether, so each optional layer is present iff its condition holds |
| TerrainLayers.TerrainLayerMembers | src/main/java/folk/sisby/surveyor/terrain/DimensionSupport.java:20-29 | a value is in the list iff some rule that applies yields it |
| TerrainLayers.NetherTail | src/main/java/folk/sisby/surveyor/terrain/DimensionSupport.java:25-29 | in the nether the list ends with 70, 40 and `minY` |
| TerrainLayers.LayerCache.constructor | src/main/java/folk/sisby/surveyor/terrain/DimensionSupport.java:15 | the cache starts empty |
| TerrainLayers.LayerCache.GetSummaryLayers | src/main/java/folk/sisby/surveyor/terrain/DimensionSupport.java:33-35 | a cached key returns its list unchanged and computes nothing; a new key computes the world's list once and caches it; each cached list is the list of the world it was first asked for |
| ChunkLayers.Add | src/main/java/folk/sisby/surveyor/chunk/DimensionSupport.java:13-22 | `TreeSet.add` keeps the set strictly ascending, adds exactly the value, and grows by one iff the value was absent |
| ChunkLayers.Candidates | src/main/java/folk/sisby/surveyor/chunk/DimensionSupport.java:13-22 | the source adds 3 to 8 values, and a value is added iff some rule that applies yields it |
| ChunkLayers.AddAll | src/main/java/folk/sisby/surveyor/chunk/DimensionSupport.java:11-23 | adding values to a fresh set gives a strictly ascending sequence of exactly those values, no longer than the values added |
| ChunkLayers.SummaryLayers | src/main/java/folk/sisby/surveyor/chunk/DimensionSupport.java:10-24 | the set is strictly ascending, has 1 to 8 layers, and holds a value iff some rule that applies yields it |

## Findings

| source | as written | input that shows it | evidently intended | confidence | as-written member | corrected member |
|---|---|---|---|---|---|---|
| src/main/java/folk/sisby/surveyor/SurveyorExploration.java:128 | `write` copies a region's n words to slots `17k+17-n .. 17k+16`, right-aligned in the block; `read` takes `copyOfRange(i - 15, i)`, slots `17k+1 .. 17k+15` only | a region whose only explored chunk is its first (bit 0): written to slot 17k+16, read back as an empty bitset; in general no non-empty bitset survives | words written from slot 17k+1 and all 16 slots read back, so that `read(write(t)) == t` | not executed | ExplorationCodec.AsWrittenLoses, ExplorationCodec.AsWrittenForgetsFirstChunk, ExplorationCodec.AsWrittenTerrainLoses | ExplorationCodec.CorrectedRecovers, ExplorationCodec.CorrectedTerrainRoundTrip |

## Left out

- The packet sent by `addStructure(ServerWorld, Structure, ChunkPos)` and its registry lookup of the structure key are not modelled. Its state change is the same as the three-argument `addStructure`, which is modelled.
- `getServerPlayer`, `getViewDistance` and `SurveyorExploration.of` are accessors onto the game and are not modelled.
- The configuration's share-all switches are a `ShareConfig` parameter, not a global.
- NBT encoding and decoding, compressed file I/O, `mkdirs`, and the error logging are not modelled:
  - a file is an abstract content value;
  - a read or write error is not modelled;
  - a region file that cannot be read is `Unreadable` and is skipped, as a `null` compound is.
- `RegionSummary.writeNbt`/`readNbt` are reduced to the region's chunk map, and chunk summaries to their air count. Block and biome palettes and the world structure summary's pieces, types and tags are not modelled. The model assumes `readNbt` of a saved region gives back its chunks, marked clean.
- Coords.BitForChunk, Coords.RegionOf and Coords.ToLong model definitions that are not part of this model's source: `terrain.RegionSummary.bitForChunk` and `BITSET_SIZE`, `chunk.RegionSummary.REGION_POWER`, and Minecraft's `ChunkPos.getRegionX`/`getRegionZ`, `toLong` and `new ChunkPos(long)`. The model fixes them as follows:
  - `bitForChunk(pos)` is `(x mod 32) * 32 + (z mod 32)`, and `0 <= bitForChunk(pos) < 1024` is an assumption;
  - both `RegionSummary` classes are assumed to share `REGION_POWER = 5`, so a region is 32×32 chunks and `getRegionX` is `x >> 5`;
  - `toLong` packs the low 32 bits of x in the low half and the low 32 bits of z in the high half.
- WorldSummaries.WorldSummary.Save assumes that `RegionSummary.writeNbt` and the structure summary's `writeNbt` do not reset their own dirty flags. Those methods are not part of this model. If they do reset them, the model's `Save` misses that state change.
- `Identifier` parsing of world and structure keys is not modelled: keys are strings, written and read unchanged.
- `LongSet.of` rejects duplicate elements; the model reads an array as the set of its elements. Arrays that `write` produces have no duplicates.
- `HashMap` iteration order is not modelled: loops take entries in any order, and `write`'s ghost output names the order used.
- SurveyorExplorations.Exploration.LimitTerrainBitset returns the limited map instead of changing the caller's map and its bitsets in place, so aliasing of the caller's map is not captured. The same holds for SurveyorExplorations.Exploration.LimitStructureKeySet.
- SurveyorExplorations.Exploration.CopyFrom copies the other player's maps by value; later changes to one player's maps are not seen by the other as they would be through shared Java map objects.
- SurveyorExplorations.Exploration.Write requires every bitset to be at most 1024 bits (16 words). This holds for everything `addChunk` and `read` produce. With a longer bitset merged in from outside, the Java code writes outside the region's block or throws.
- `%d` and `Integer.parseInt` are modelled on ASCII digits. Locale-specific digits in `%d` and non-ASCII digits accepted by `parseInt` are not modelled.
- TerrainLayers.SummaryLayersInternal and ChunkLayers.SummaryLayers compute the layer arithmetic on unbounded integers. Java `int` overflow would need dimension bounds far outside what Minecraft allows.
- The nether test compares the dimension type key with `DimensionTypes.THE_NETHER`; it is the `isNether` flag of the dimension type here.
- The Java list returned by the terrain layer rule is unmodifiable; Dafny sequences are immutable values, so this is implicit.
- The concurrency of the static cache (`HashMap.computeIfAbsent` from several threads) is not modelled.
- The client networking (`SurveyorClientNetworking`), the client event registry (`SurveyorClientEvents`), the client lifecycle mixin (`MixinMinecraftClient`) and the known-structures packet (`C2SKnownStructuresPacket`) are not modelled.
