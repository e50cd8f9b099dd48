/** The save format of the exploration state. Under "exploredTerrain" each
    world's regions are one long array of 17-long blocks: the packed region
    position, then sixteen word slots for the region's bitset. Under
    "exploredStructures" each world has one long array per structure key,
    listing its packed start positions.

    The terrain layout does not read back what it writes. `write` puts a
    bitset's words right-aligned, ending at the last slot of the block. `read`
    copies only fifteen slots, starting just after the key, into
    `BitSet.valueOf`. So the last word is dropped and the others move up.
    `Layout.AsWritten` is that code. `Layout.Corrected` is the evident intent
    (words from the first slot, sixteen slots read back) and round-trips. */
module ExplorationCodec {
  import opened Coords
  import opened Words
  import opened BitSets
  import opened Explorations

  datatype Layout =
    | AsWritten   // words right-aligned, read back from fifteen slots
    | Corrected   // words left-aligned, read back from all sixteen slots

  /** `n` zero slots, as a fresh `long[]` holds them: the zero words of
      `BitSets.Zeros`, each of which is also a signed long. */
  function Padding(n: nat): (zs: seq<Long>)
    ensures |zs| == n
  {
    Zeros(n)
  }

  /** Where in its sixteen slots `write` puts a bitset's first word: as
      written, `i - 15 + (16 - regionBits.length)`, so the words end at the
      block's last slot; corrected, the first slot. */
  function WordsOffset(bits: BitSet, layout: Layout): nat
    requires |bits| <= RegionWords
  {
    match layout
    case AsWritten => RegionWords - |bits|
    case Corrected => 0
  }

  /** The sixteen word slots of a region block as `write` fills them. */
  function WordSlots(bits: BitSet, layout: Layout): (slots: seq<Long>)
    requires |bits| <= RegionWords
    ensures |slots| == RegionWords
  {
    var words := ToLongArray(bits);
    match layout
    case AsWritten => Padding(RegionWords - |words|) + words
    case Corrected => words + Padding(RegionWords - |words|)
  }

  /** Slot `j` holds word j - offset when that is a word, zero otherwise. */
  lemma WordSlotsAt(bits: BitSet, layout: Layout, j: nat)
    requires |bits| <= RegionWords && j < RegionWords
    ensures var off := WordsOffset(bits, layout);
      WordSlots(bits, layout)[j] == if off <= j < off + |bits| then ToLongArray(bits)[j - off] else 0
  {
  }

  /** One region's block: the packed position, then the word slots. */
  function RegionBlock(pos: ChunkPos, bits: BitSet, layout: Layout): (block: seq<Long>)
    requires |bits| <= RegionWords
    ensures |block| == 17
  {
    [ToLong(pos)] + WordSlots(bits, layout)
  }

  /** No element is listed twice. */
  predicate Distinct<T(==)>(s: seq<T>)
  {
    forall i, j :: 0 <= i < j < |s| ==> s[i] != s[j]
  }

  /** `order` visits each region exactly once: a `HashMap`'s entry order. */
  ghost predicate IsOrder(order: seq<ChunkPos>, regions: Regions)
  {
    Distinct(order) && forall p :: p in regions <==> p in order
  }

  /** The blocks of the regions met in `order`. */
  function Blocks(order: seq<ChunkPos>, regions: Regions, layout: Layout): (blocks: seq<seq<Long>>)
    requires forall i :: 0 <= i < |order| ==> order[i] in regions
    requires Bounded(regions)
    ensures |blocks| == |order|
  {
    seq(|order|, i requires 0 <= i < |order| => RegionBlock(order[i], regions[order[i]], layout))
  }

  /** Blocks of 17 longs laid end to end. */
  function Concat(blocks: seq<seq<Long>>): (arr: seq<Long>)
    requires forall i :: 0 <= i < |blocks| ==> |blocks[i]| == 17
    ensures |arr| == 17 * |blocks|
  {
    if blocks == [] then [] else Concat(blocks[..|blocks| - 1]) + blocks[|blocks| - 1]
  }

  /** The terrain array `write` builds for one world when it meets the
      regions in `order`: 17 longs per region. */
  function EncodeRegions(order: seq<ChunkPos>, regions: Regions, layout: Layout): (arr: seq<Long>)
    requires forall i :: 0 <= i < |order| ==> order[i] in regions
    requires Bounded(regions)
    ensures |arr| == 17 * |order|
  {
    Concat(Blocks(order, regions, layout))
  }

  /** What `read` makes of the sixteen slots after a block's key:
      `BitSet.valueOf(Arrays.copyOfRange(array, i - 15, i))` takes fifteen of
      them as written, all sixteen in the corrected layout. */
  function ReadWords(slots: seq<Long>, layout: Layout): BitSet
  {
    match layout
    case AsWritten => ValueOf(slots[..if |slots| < 15 then |slots| else 15])
    case Corrected => ValueOf(slots)
  }

  function Reader(layout: Layout): seq<Long> -> BitSet
  {
    slots => ReadWords(slots, layout)
  }

  /** The regions `read` puts for the first `n` blocks, reading each block's
      words with `read`; a later block replaces an earlier one with the same
      position. */
  function DecodeBlocks(arr: seq<Long>, n: nat, read: seq<Long> -> BitSet): Regions
    requires 17 * n <= |arr|
  {
    if n == 0 then map[]
    else
      var start := 17 * (n - 1);
      DecodeBlocks(arr, n - 1, read)[FromLong(arr[start]) := read(arr[start + 1 .. start + 17])]
  }

  /** `read` for one world: `for (int i = 16; i < length; i += 17)` puts one
      region per whole block; a trailing partial block is ignored. */
  function DecodeRegions(arr: seq<Long>, layout: Layout): Regions
  {
    DecodeBlocks(arr, |arr| / 17, Reader(layout))
  }

  /** What a region's bitset becomes after a write and a read. */
  function Recovered(bits: BitSet, layout: Layout): BitSet
    requires |bits| <= RegionWords
  {
    ReadWords(WordSlots(bits, layout), layout)
  }

  /** The saved compound: world id to terrain array, and world id to
      structure id to start array. A missing entry reads as an empty one. */
  datatype SaveData = SaveData(exploredTerrain: map<string, seq<Long>>,
                               exploredStructures: map<string, map<string, seq<Long>>>)

  /** `read`'s terrain half. */
  function DecodeTerrain(data: SaveData, layout: Layout): Terrain
  {
    map w | w in data.exploredTerrain :: DecodeRegions(data.exploredTerrain[w], layout)
  }

  /** `new LongOpenHashSet(LongSet.of(array))`. */
  function Elements(ls: seq<Long>): set<Long>
  {
    set l | l in ls
  }

  /** `read`'s structure half. */
  function DecodeStructures(data: SaveData): Structures
  {
    map w | w in data.exploredStructures :: DecodeStarts(data.exploredStructures[w])
  }

  function DecodeStarts(compound: map<string, seq<Long>>): Starts
  {
    map k | k in compound :: Elements(compound[k])
  }

  /** `ls` lists each element of `s` once, as `LongSet.toLongArray` does. */
  ghost predicate Lists(ls: seq<Long>, s: set<Long>)
  {
    Distinct(ls) && forall l :: l in s <==> l in ls
  }

  /** `data`'s terrain is what `write` produces when it meets each world's
      regions in the order `orders` gives. */
  ghost predicate EncodesTerrain(data: SaveData, terrain: Terrain, orders: map<WorldKey, seq<ChunkPos>>, layout: Layout)
    requires BoundedTerrain(terrain)
  {
    && data.exploredTerrain.Keys == terrain.Keys
    && forall w :: w in terrain ==>
         && w in orders && IsOrder(orders[w], terrain[w])
         && data.exploredTerrain[w] == EncodeRegions(orders[w], terrain[w], layout)
  }

  /** `data`'s structures are what `write` produces. */
  ghost predicate EncodesStructures(data: SaveData, structures: Structures)
  {
    && data.exploredStructures.Keys == structures.Keys
    && forall w :: w in structures ==>
         && data.exploredStructures[w].Keys == structures[w].Keys
         && forall k :: k in structures[w] ==> Lists(data.exploredStructures[w][k], structures[w][k])
  }

  // ---------------------------------------------------------------------------
  // Layout of the terrain array.

  /** Block `k` of a concatenation sits at 17k .. 17k + 17. */
  lemma {:induction false} ConcatBlock(blocks: seq<seq<Long>>, k: nat)
    requires forall i :: 0 <= i < |blocks| ==> |blocks[i]| == 17
    requires k < |blocks|
    ensures Concat(blocks)[17 * k .. 17 * k + 17] == blocks[k]
  {
    var n := |blocks|;
    var head := Concat(blocks[..n - 1]);
    if k < n - 1 {
      ConcatBlock(blocks[..n - 1], k);
      AppendSlice(head, blocks[n - 1], 17 * k, 17 * k + 17);
    } else {
      assert Concat(blocks)[|head|..] == blocks[n - 1];
    }
  }

  lemma AppendSlice<T>(a: seq<T>, b: seq<T>, lo: nat, hi: nat)
    requires lo <= hi <= |a|
    ensures (a + b)[lo..hi] == a[lo..hi]
  {
  }

  /** As `write` lays it out, block `k` holds the `k`-th region met: its packed
      position at index 17k, then its sixteen word slots. */
  lemma EncodeBlock(order: seq<ChunkPos>, regions: Regions, layout: Layout, k: nat)
    requires forall i :: 0 <= i < |order| ==> order[i] in regions
    requires Bounded(regions)
    requires k < |order|
    ensures var arr := EncodeRegions(order, regions, layout);
      && |arr| == 17 * |order|
      && arr[17 * k] == ToLong(order[k])
      && arr[17 * k + 1 .. 17 * k + 17] == WordSlots(regions[order[k]], layout)
  {
    var blocks := Blocks(order, regions, layout);
    var arr := Concat(blocks);
    ConcatBlock(blocks, k);
    var block := arr[17 * k .. 17 * k + 17];
    assert block == RegionBlock(order[k], regions[order[k]], layout);
    assert arr[17 * k] == block[0];
    assert arr[17 * k + 1 .. 17 * k + 17] == block[1..];
  }

  /** Meeting one more region appends its block. */
  lemma EncodeSnoc(order: seq<ChunkPos>, regions: Regions, layout: Layout, p: ChunkPos)
    requires forall i :: 0 <= i < |order| ==> order[i] in regions
    requires Bounded(regions) && p in regions
    ensures EncodeRegions(order + [p], regions, layout)
         == EncodeRegions(order, regions, layout) + RegionBlock(p, regions[p], layout)
  {
    var blocks := Blocks(order + [p], regions, layout);
    assert blocks[..|order|] == Blocks(order, regions, layout);
  }

  /** `read` puts one region per whole block, keyed by the block's head. */
  lemma {:induction false} DecodeBlocksKeys(arr: seq<Long>, n: nat, read: seq<Long> -> BitSet, p: ChunkPos)
    requires 17 * n <= |arr|
    ensures p in DecodeBlocks(arr, n, read) <==> exists k :: 0 <= k < n && FromLong(arr[17 * k]) == p
  {
    if n > 0 {
      DecodeBlocksKeys(arr, n - 1, read, p);
      if FromLong(arr[17 * (n - 1)]) != p && p !in DecodeBlocks(arr, n - 1, read) {
        forall k | 0 <= k < n
          ensures FromLong(arr[17 * k]) != p
        {
        }
      }
    }
  }

  /** A decoded region never exceeds the sixteen words of a region. */
  lemma {:induction false} DecodeBlocksBounded(arr: seq<Long>, n: nat, layout: Layout)
    requires 17 * n <= |arr|
    ensures Bounded(DecodeBlocks(arr, n, Reader(layout)))
  {
    if n > 0 {
      DecodeBlocksBounded(arr, n - 1, layout);
    }
  }

  /** The map of the first `n` keys of `order` extends that of the first n - 1. */
  lemma PrefixMapStep<K, V>(order: seq<K>, vals: map<K, V>, n: nat)
    requires 0 < n <= |order|
    requires forall i :: 0 <= i < |order| ==> order[i] in vals
    ensures (map p | p in order[..n] :: vals[p])
         == (map p | p in order[..n - 1] :: vals[p])[order[n - 1] := vals[order[n - 1]]]
  {
    assert order[..n] == order[..n - 1] + [order[n - 1]];
  }

  /** Decoding one more block of a run puts that block's position and words. */
  lemma DecodeConcatStep(blocks: seq<seq<Long>>, read: seq<Long> -> BitSet, k: nat)
    requires forall i :: 0 <= i < |blocks| ==> |blocks[i]| == 17
    requires k < |blocks|
    ensures DecodeBlocks(Concat(blocks), k + 1, read)
         == DecodeBlocks(Concat(blocks), k, read)[FromLong(blocks[k][0]) := read(blocks[k][1..])]
  {
    var arr := Concat(blocks);
    ConcatBlock(blocks, k);
    var block := arr[17 * k .. 17 * k + 17];
    assert arr[17 * k] == block[0];
    assert arr[17 * k + 1 .. 17 * k + 17] == block[1..];
  }

  /** Decoding the first `n` of a run of blocks gives, for each position met
      so far, the value its block's words read as. */
  lemma {:induction false} DecodeConcat(order: seq<ChunkPos>, blocks: seq<seq<Long>>,
                                        read: seq<Long> -> BitSet, vals: Regions, n: nat)
    requires |blocks| == |order| && n <= |order|
    requires forall i :: 0 <= i < |blocks| ==> |blocks[i]| == 17
    requires forall i :: 0 <= i < |order| ==> order[i] in vals
    requires forall i :: 0 <= i < |order| ==> FromLong(blocks[i][0]) == order[i]
    requires forall i :: 0 <= i < |order| ==> read(blocks[i][1..]) == vals[order[i]]
    ensures DecodeBlocks(Concat(blocks), n, read) == map p | p in order[..n] :: vals[p]
  {
    if n > 0 {
      DecodeConcat(order, blocks, read, vals, n - 1);
      DecodeConcatStep(blocks, read, n - 1);
      PrefixMapStep(order, vals, n);
    } else {
      assert order[..0] == [];
    }
  }

  /** The regions with their bits as `Recovered` makes them. */
  function RecoveredRegions(regions: Regions, layout: Layout): Regions
    requires Bounded(regions)
  {
    map p | p in regions :: Recovered(regions[p], layout)
  }

  /** A region's block carries its position and reads back as `Recovered`. */
  lemma BlockReadsBack(order: seq<ChunkPos>, regions: Regions, layout: Layout, i: nat)
    requires forall i :: 0 <= i < |order| ==> order[i] in regions
    requires Bounded(regions)
    requires i < |order|
    ensures FromLong(Blocks(order, regions, layout)[i][0]) == order[i]
    ensures Reader(layout)(Blocks(order, regions, layout)[i][1..]) == RecoveredRegions(regions, layout)[order[i]]
  {
    var block := Blocks(order, regions, layout)[i];
    assert block == RegionBlock(order[i], regions[order[i]], layout);
    assert block[1..] == WordSlots(regions[order[i]], layout);
  }

  lemma BlocksReadBack(order: seq<ChunkPos>, regions: Regions, layout: Layout)
    requires forall i :: 0 <= i < |order| ==> order[i] in regions
    requires Bounded(regions)
    ensures var blocks := Blocks(order, regions, layout);
      && (forall i :: 0 <= i < |blocks| ==> |blocks[i]| == 17)
      && (forall i :: 0 <= i < |order| ==> FromLong(blocks[i][0]) == order[i])
      && (forall i :: 0 <= i < |order| ==> Reader(layout)(blocks[i][1..]) == RecoveredRegions(regions, layout)[order[i]])
  {
    forall i | 0 <= i < |order|
      ensures FromLong(Blocks(order, regions, layout)[i][0]) == order[i]
      ensures Reader(layout)(Blocks(order, regions, layout)[i][1..]) == RecoveredRegions(regions, layout)[order[i]]
    {
      BlockReadsBack(order, regions, layout, i);
    }
  }

  /** What `read` makes of what `write` wrote for one world: the same regions,
      each bitset as `Recovered` makes it. */
  lemma DecodeEncode(order: seq<ChunkPos>, regions: Regions, layout: Layout)
    requires IsOrder(order, regions) && Bounded(regions)
    ensures DecodeRegions(EncodeRegions(order, regions, layout), layout) == RecoveredRegions(regions, layout)
  {
    var blocks := Blocks(order, regions, layout);
    var vals := RecoveredRegions(regions, layout);
    BlocksReadBack(order, regions, layout);
    var arr := EncodeRegions(order, regions, layout);
    assert arr == Concat(blocks);
    assert |arr| / 17 == |order|;
    DecodeConcat(order, blocks, Reader(layout), vals, |order|);
    ListedMap(order, vals);
  }

  /** Restricting a map to a listing of all its keys gives the map. */
  lemma ListedMap<K, V>(order: seq<K>, m: map<K, V>)
    requires forall p :: p in m <==> p in order
    ensures (map p | p in order[..|order|] :: m[p]) == m
  {
    assert order[..|order|] == order;
  }


  // ---------------------------------------------------------------------------
  // What happens to one region's bits.

  /** The corrected layout gives every region's bitset back unchanged. */
  lemma CorrectedRecovers(bits: BitSet)
    requires |bits| <= RegionWords
    ensures Recovered(bits, Corrected) == bits
  {
    var n := RegionWords - |bits|;
    PaddedWords(bits, n);
    TrimZeros(bits, n);
  }

  /** The words of `toLongArray` followed by zero longs read back as the
      bitset's words followed by zero words. */
  lemma PaddedWords(bits: BitSet, n: nat)
    ensures LongsToWords(ToLongArray(bits) + Padding(n)) == bits + Zeros(n)
  {
    var slots := ToLongArray(bits) + Padding(n);
    forall k | 0 <= k < |slots|
      ensures LongsToWords(slots)[k] == (bits + Zeros(n))[k]
    {
      LongsToWordsAt(slots, k);
      if k < |bits| {
        WordLongRoundTrip(bits[k]);
      } else {
        ZeroLongWord();
      }
    }
  }

  /** A word sequence that is zero below `d` and repeats with period `d` is
      zero everywhere. */
  lemma {:induction false} PeriodicZeros(ws: seq<Word>, d: nat, j: nat)
    requires 0 < d && j < |ws|
    requires forall i :: 0 <= i < d && i < |ws| ==> ws[i] == 0
    requires forall i :: d <= i < |ws| ==> ws[i] == ws[i - d]
    ensures ws[j] == 0
    decreases j
  {
    if j >= d {
      PeriodicZeros(ws, d, j - d);
    }
  }

  /** As written, no region with any chunk explored survives a write and a
      read: the bits always come back changed. */
  lemma AsWrittenLoses(bits: BitSet)
    requires 0 < |bits| <= RegionWords
    ensures Recovered(bits, AsWritten) != bits
  {
    var n := |bits|;
    var words := ToLongArray(bits);
    var d := RegionWords - n;
    var read := (Padding(d) + words)[..15];
    var back := ValueOf(read);
    if back == bits {
      assert n <= 15;
      var ws := LongsToWords(read);
      assert bits == ws[..n];
      ToLongArrayWords(bits);
      ZeroLongWord();
      forall i | 0 <= i < d && i < n
        ensures bits[i] == 0
      {
        assert bits[i] == ws[i];
      }
      forall i | d <= i < n
        ensures bits[i] == bits[i - d]
      {
        assert bits[i] == ws[i] == LongToWord(words[i - d]);
      }
      PeriodicZeros(bits, d, n - 1);
      assert false;
    }
  }

  /** The smallest case: a region where only its first chunk is explored
      reads back empty. */
  lemma AsWrittenForgetsFirstChunk()
    ensures Recovered(Set(Empty, 0), AsWritten) == Empty
  {
    var bits := Set(Empty, 0);
    assert |bits| == 1;
    var read := WordSlots(bits, AsWritten)[..15];
    assert read == Padding(15);
    ZeroLongWord();
    TrimAllZeros(LongsToWords(read));
  }

  // ---------------------------------------------------------------------------
  // Whole save data.

  /** After a write, `read` gives back the same worlds and regions, each
      region's bits as `Recovered` makes them. */
  lemma TerrainReadBack(data: SaveData, terrain: Terrain, orders: map<WorldKey, seq<ChunkPos>>, layout: Layout)
    requires BoundedTerrain(terrain)
    requires EncodesTerrain(data, terrain, orders, layout)
    ensures DecodeTerrain(data, layout).Keys == terrain.Keys
    ensures forall w :: w in terrain ==>
      DecodeTerrain(data, layout)[w] == RecoveredRegions(terrain[w], layout)
  {
    forall w | w in terrain
      ensures DecodeTerrain(data, layout)[w] == RecoveredRegions(terrain[w], layout)
    {
      DecodeEncode(orders[w], terrain[w], layout);
    }
  }

  /** With the corrected layout the terrain survives a write and a read. */
  lemma CorrectedTerrainRoundTrip(data: SaveData, terrain: Terrain, orders: map<WorldKey, seq<ChunkPos>>)
    requires BoundedTerrain(terrain)
    requires EncodesTerrain(data, terrain, orders, Corrected)
    ensures DecodeTerrain(data, Corrected) == terrain
  {
    TerrainReadBack(data, terrain, orders, Corrected);
    forall w | w in terrain
      ensures DecodeTerrain(data, Corrected)[w] == terrain[w]
    {
      forall p | p in terrain[w]
        ensures Recovered(terrain[w][p], Corrected) == terrain[w][p]
      {
        CorrectedRecovers(terrain[w][p]);
      }
    }
  }

  /** As written, every non-empty region comes back changed. */
  lemma AsWrittenTerrainLoses(data: SaveData, terrain: Terrain, orders: map<WorldKey, seq<ChunkPos>>,
                              w: WorldKey, p: ChunkPos)
    requires BoundedTerrain(terrain)
    requires EncodesTerrain(data, terrain, orders, AsWritten)
    requires w in terrain && p in terrain[w] && terrain[w][p] != Empty
    ensures p in DecodeTerrain(data, AsWritten)[w]
    ensures DecodeTerrain(data, AsWritten)[w][p] != terrain[w][p]
  {
    TerrainReadBack(data, terrain, orders, AsWritten);
    AsWrittenLoses(terrain[w][p]);
  }

  /** The structure sets survive a write and a read as sets. */
  lemma StructuresRoundTrip(data: SaveData, structures: Structures)
    requires EncodesStructures(data, structures)
    ensures DecodeStructures(data) == structures
  {
    forall w | w in structures
      ensures DecodeStarts(data.exploredStructures[w]) == structures[w]
    {
      forall k | k in structures[w]
        ensures Elements(data.exploredStructures[w][k]) == structures[w][k]
      {
      }
    }
  }

  /** Whatever the arrays hold, `read` leaves every region within bounds. */
  lemma DecodeTerrainBounded(data: SaveData, layout: Layout)
    ensures BoundedTerrain(DecodeTerrain(data, layout))
  {
    forall w | w in data.exploredTerrain
      ensures Bounded(DecodeRegions(data.exploredTerrain[w], layout))
    {
      var arr := data.exploredTerrain[w];
      DecodeBlocksBounded(arr, |arr| / 17, layout);
    }
  }
}
