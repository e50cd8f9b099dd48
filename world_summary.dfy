/** `WorldSummary`: a world's summarised regions, its structure starts and its
    landmarks, the files they are saved to, and the rules deciding when the
    chunk and structure events of the game re-summarise something.

    The chunk summaries themselves, `RegionSummary` and `WorldStructureSummary`
    are reduced to what these rules look at: each chunk's air count, which
    chunks and starts are present, and the dirty flags. */
module WorldSummaries {
  import opened Wrappers
  import opened Coords
  import opened JavaText
  import opened Explorations

  /** `WorldSummary.Type`: which side of the game keeps the summary. */
  datatype SummaryType = Server | Client

  /** A chunk's summary, as far as re-summarising compares it. */
  datatype ChunkSummary = ChunkSummary(airCount: int)

  /** A region's chunk summaries and whether they changed since loading. */
  datatype RegionSummary = RegionSummary(chunks: map<ChunkPos, ChunkSummary>, dirty: bool)

  datatype StructureStart = StructureStart(key: StructureKey, pos: ChunkPos)

  /** The world's known structure starts and whether they changed. */
  datatype StructureSummary = StructureSummary(starts: set<StructureStart>, dirty: bool)

  /** A chunk as the event handlers see it: its position, its air count
      (`ChunkUtil.airCount`), `needsSaving()` and its structure starts. */
  datatype Chunk = Chunk(pos: ChunkPos, airCount: int, needsSaving: bool, starts: set<StructureStart>)

  /** What a file of the summary folder holds; `Unreadable` is a file whose
      read fails. */
  datatype FileContent =
    | RegionFile(chunks: map<ChunkPos, ChunkSummary>)
    | StructuresFile(starts: set<StructureStart>)
    | LandmarksFile(landmarks: set<Landmark>)
    | Unreadable

  const StructuresFileName: string := "structures.dat"
  const LandmarksFileName: string := "landmarks.dat"

  // ---------------------------------------------------------------------------
  // Regions.

  /** `containsChunk`: the chunk's region is present and holds the chunk. */
  predicate Contains(regions: map<ChunkPos, RegionSummary>, pos: ChunkPos)
  {
    RegionOf(pos) in regions && pos in regions[RegionOf(pos)].chunks
  }

  /** `new RegionSummary(type)`. */
  const NewRegion := RegionSummary(map[], false)

  /** `RegionSummary.putChunk`: the chunk's summary replaces any earlier one
      and the region becomes dirty. */
  function RegionPut(region: RegionSummary, chunk: Chunk): RegionSummary
  {
    RegionSummary(region.chunks[chunk.pos := ChunkSummary(chunk.airCount)], true)
  }

  /** `putChunk`: the chunk goes into its region, created when absent. */
  function PutChunkInto(regions: map<ChunkPos, RegionSummary>, chunk: Chunk): map<ChunkPos, RegionSummary>
  {
    var r := RegionOf(chunk.pos);
    regions[r := RegionPut(if r in regions then regions[r] else NewRegion, chunk)]
  }

  // ---------------------------------------------------------------------------
  // Structures.

  /** `putStructure`: the start is recorded and the structures become dirty. */
  function Added(structures: StructureSummary, start: StructureStart): StructureSummary
  {
    StructureSummary(structures.starts + {start}, true)
  }

  /** `onStructurePlace`, and one step of `onChunkLoad`'s loop: a start is put
      only when it is not already contained. */
  function Placed(structures: StructureSummary, start: StructureStart): StructureSummary
  {
    if start in structures.starts then structures else Added(structures, start)
  }

  /** All of a chunk's starts placed, in whatever order the chunk yields them. */
  function AllPlaced(structures: StructureSummary, starts: set<StructureStart>): StructureSummary
  {
    StructureSummary(structures.starts + starts, structures.dirty || !(starts <= structures.starts))
  }

  // ---------------------------------------------------------------------------
  // Event guards.

  /** `onChunkLoad` re-summarises when the summary belongs to this side and
      the chunk is new or its air count changed. */
  predicate LoadResummarises(summaryType: SummaryType, side: SummaryType,
                             regions: map<ChunkPos, RegionSummary>, chunk: Chunk)
  {
    summaryType == side
    && (!Contains(regions, chunk.pos)
        || chunk.airCount != regions[RegionOf(chunk.pos)].chunks[chunk.pos].airCount)
  }

  function RegionsAfterLoad(summaryType: SummaryType, side: SummaryType,
                            regions: map<ChunkPos, RegionSummary>, chunk: Chunk): map<ChunkPos, RegionSummary>
  {
    if LoadResummarises(summaryType, side, regions, chunk) then PutChunkInto(regions, chunk) else regions
  }

  /** `onChunkUnload` re-summarises when the summary belongs to this side and
      the chunk needs saving. */
  function RegionsAfterUnload(summaryType: SummaryType, side: SummaryType,
                              regions: map<ChunkPos, RegionSummary>, chunk: Chunk): map<ChunkPos, RegionSummary>
  {
    if summaryType == side && chunk.needsSaving then PutChunkInto(regions, chunk) else regions
  }

  // ---------------------------------------------------------------------------
  // Region file names.

  /** The name `save` gives a region's file: `"c.%d.%d.dat"`. */
  function RegionFileName(pos: ChunkPos): string
  {
    "c." + FormatInt(pos.x) + "." + FormatInt(pos.z) + ".dat"
  }

  /** `load`'s file filter: four dot-separated parts, "c", two `int`s, "dat". */
  predicate IsRegionFileName(name: string)
  {
    var parts := Split(name);
    |parts| == 4 && parts[0] == "c" && parts[3] == "dat"
    && ParseInt(parts[1]).Some? && ParseInt(parts[2]).Some?
  }

  /** The region position `load` reads from an accepted name. */
  function RegionOfFileName(name: string): ChunkPos
    requires IsRegionFileName(name)
  {
    var parts := Split(name);
    ChunkPos(ParseInt(parts[1]).value, ParseInt(parts[2]).value)
  }

  /** Region files accepted by the filter, in listing order. */
  function Accepted(names: seq<string>): (accepted: seq<string>)
    ensures forall n :: n in accepted ==> n in names && IsRegionFileName(n)
  {
    if names == [] then []
    else
      var last := names[|names| - 1];
      Accepted(names[..|names| - 1]) + if IsRegionFileName(last) then [last] else []
  }

  /** The regions `load` puts for a listing of accepted names: a readable
      region file becomes a clean region summary; a later name with the same
      position replaces an earlier one. */
  function LoadedRegions(names: seq<string>, contents: map<string, FileContent>): map<ChunkPos, RegionSummary>
  {
    if names == [] then map[]
    else
      var before := LoadedRegions(names[..|names| - 1], contents);
      var name := names[|names| - 1];
      if IsRegionFileName(name) && name in contents && contents[name].RegionFile? then
        before[RegionOfFileName(name) := RegionSummary(contents[name].chunks, false)]
      else before
  }

  /** The structures `load` reads: the file's starts, or none when the file is
      missing or unreadable. */
  function LoadedStructures(contents: map<string, FileContent>): StructureSummary
  {
    if StructuresFileName in contents && contents[StructuresFileName].StructuresFile?
    then StructureSummary(contents[StructuresFileName].starts, false)
    else StructureSummary({}, false)
  }

  function LoadedLandmarks(contents: map<string, FileContent>): set<Landmark>
  {
    if LandmarksFileName in contents && contents[LandmarksFileName].LandmarksFile?
    then contents[LandmarksFileName].landmarks
    else {}
  }

  /** The region files `save` writes for the regions among `keys`: one per
      dirty region. */
  function RegionFiles(regions: map<ChunkPos, RegionSummary>, keys: set<ChunkPos>): map<string, FileContent>
  {
    RegionFileNameInjective();
    map p | p in keys && p in regions && regions[p].dirty :: RegionFileName(p) := RegionFile(regions[p].chunks)
  }

  /** All files `save` writes. */
  function SavedFiles(regions: map<ChunkPos, RegionSummary>, structures: StructureSummary,
                      landmarks: set<Landmark>, landmarksDirty: bool): map<string, FileContent>
  {
    var files := RegionFiles(regions, regions.Keys);
    var files := if structures.dirty then files[StructuresFileName := StructuresFile(structures.starts)] else files;
    if landmarksDirty then files[LandmarksFileName := LandmarksFile(landmarks)] else files
  }

  // ---------------------------------------------------------------------------
  // The summary object.

  class WorldSummary {
    const summaryType: SummaryType
    var regions: map<ChunkPos, RegionSummary>
    var structures: StructureSummary
    var landmarks: set<Landmark>
    var landmarksDirty: bool

    /** A summary starts with its landmarks marked dirty. */
    constructor(summaryType: SummaryType, regions: map<ChunkPos, RegionSummary>,
                structures: StructureSummary, landmarks: set<Landmark>)
      ensures this.summaryType == summaryType && this.regions == regions
      ensures this.structures == structures && this.landmarks == landmarks
      ensures landmarksDirty
    {
      this.summaryType := summaryType;
      this.regions := regions;
      this.structures := structures;
      this.landmarks := landmarks;
      this.landmarksDirty := true;
    }

    /** `putChunk`. */
    method PutChunk(chunk: Chunk)
      modifies this`regions
      ensures regions == PutChunkInto(old(regions), chunk)
    {
      regions := PutChunkInto(regions, chunk);
    }

    /** `putStructure`. */
    method PutStructure(start: StructureStart)
      modifies this`structures
      ensures structures == Added(old(structures), start)
    {
      structures := Added(structures, start);
    }

    /** `save`: every dirty region to its `c.<x>.<z>.dat`, then the structures
        and the landmarks when they are dirty. The files are returned by name. */
    method Save() returns (files: map<string, FileContent>)
      ensures files == SavedFiles(regions, structures, landmarks, landmarksDirty)
    {
      files := map[];
      var todo := regions.Keys;
      ghost var done: set<ChunkPos> := {};
      while todo != {}
        invariant todo <= regions.Keys && done == regions.Keys - todo
        invariant files == RegionFiles(regions, done)
        decreases todo
      {
        var pos :| pos in todo;
        RegionFilesStep(regions, done, pos);
        if regions[pos].dirty {
          files := files[RegionFileName(pos) := RegionFile(regions[pos].chunks)];
        }
        todo := todo - {pos};
        done := done + {pos};
      }
      assert done == regions.Keys;
      ghost var regionFiles := files;
      assert regionFiles == RegionFiles(regions, regions.Keys);
      if structures.dirty {
        files := files[StructuresFileName := StructuresFile(structures.starts)];
      }
      if landmarksDirty {
        files := files[LandmarksFileName := LandmarksFile(landmarks)];
      }
    }

    /** `onChunkLoad`: re-summarises the chunk when the guard holds, then puts
        each of its structure starts not already contained. */
    method OnChunkLoad(side: SummaryType, chunk: Chunk)
      modifies this`regions, this`structures
      ensures regions == RegionsAfterLoad(summaryType, side, old(regions), chunk)
      ensures structures == AllPlaced(old(structures), chunk.starts)
    {
      if summaryType == side
         && (!Contains(regions, chunk.pos)
             || chunk.airCount != regions[RegionOf(chunk.pos)].chunks[chunk.pos].airCount) {
        PutChunk(chunk);
      }
      ghost var before := structures;
      ghost var regionsAfter := regions;
      var todo := chunk.starts;
      while todo != {}
        invariant todo <= chunk.starts
        invariant regions == regionsAfter
        invariant structures == AllPlaced(before, chunk.starts - todo)
        decreases todo
      {
        var start :| start in todo;
        AllPlacedStep(before, chunk.starts - todo, start);
        if start !in structures.starts {
          PutStructure(start);
        }
        assert chunk.starts - (todo - {start}) == (chunk.starts - todo) + {start};
        todo := todo - {start};
      }
    }

    /** `onChunkUnload`. */
    method OnChunkUnload(side: SummaryType, chunk: Chunk)
      modifies this`regions
      ensures regions == RegionsAfterUnload(summaryType, side, old(regions), chunk)
    {
      if summaryType == side && chunk.needsSaving {
        PutChunk(chunk);
      }
    }

    /** `onStructurePlace`. */
    method OnStructurePlace(start: StructureStart)
      modifies this`structures
      ensures structures == Placed(old(structures), start)
    {
      if start !in structures.starts {
        PutStructure(start);
      }
    }
  }

  /** `load`: lists the folder (`None` when listing fails), keeps the names the
      filter accepts, reads each region file, then the structures and the
      landmarks files. */
  method Load(summaryType: SummaryType, listing: Option<seq<string>>, contents: map<string, FileContent>)
    returns (summary: WorldSummary)
    ensures fresh(summary) && summary.summaryType == summaryType && summary.landmarksDirty
    ensures summary.regions == LoadedRegions(if listing.Some? then listing.value else [], contents)
    ensures summary.structures == LoadedStructures(contents)
    ensures summary.landmarks == LoadedLandmarks(contents)
  {
    var regions: map<ChunkPos, RegionSummary> := map[];
    if listing.Some? {
      var chunkFiles := FilterRegionFiles(listing.value);
      regions := ReadRegionFiles(chunkFiles, contents);
      LoadedAccepted(listing.value, contents);
    }
    var structures := StructureSummary({}, false);
    if StructuresFileName in contents && contents[StructuresFileName].StructuresFile? {
      structures := StructureSummary(contents[StructuresFileName].starts, false);
    }
    var landmarks: set<Landmark> := {};
    if LandmarksFileName in contents && contents[LandmarksFileName].LandmarksFile? {
      landmarks := contents[LandmarksFileName].landmarks;
    }
    summary := new WorldSummary(summaryType, regions, structures, landmarks);
  }

  /** `load`'s loop over the accepted region files: each readable one is put
      under the position its name gives. */
  method ReadRegionFiles(chunkFiles: seq<string>, contents: map<string, FileContent>)
    returns (regions: map<ChunkPos, RegionSummary>)
    requires forall n :: n in chunkFiles ==> IsRegionFileName(n)
    ensures regions == LoadedRegions(chunkFiles, contents)
  {
    regions := map[];
    var i := 0;
    while i < |chunkFiles|
      invariant i <= |chunkFiles|
      invariant regions == LoadedRegions(chunkFiles[..i], contents)
    {
      var name := chunkFiles[i];
      var regionPos := RegionOfFileName(name);
      if name in contents && contents[name].RegionFile? {
        regions := regions[regionPos := RegionSummary(contents[name].chunks, false)];
      }
      assert chunkFiles[..i + 1][..i] == chunkFiles[..i];
      i := i + 1;
    }
    assert chunkFiles[..i] == chunkFiles;
  }

  /** `load`'s `listFiles` filter: the accepted names in listing order. */
  method FilterRegionFiles(names: seq<string>) returns (accepted: seq<string>)
    ensures accepted == Accepted(names)
  {
    accepted := [];
    var i := 0;
    while i < |names|
      invariant i <= |names|
      invariant accepted == Accepted(names[..i])
    {
      assert names[..i + 1][..i] == names[..i];
      if IsRegionFileName(names[i]) {
        accepted := accepted + [names[i]];
      }
      i := i + 1;
    }
    assert names[..i] == names;
  }

  // ---------------------------------------------------------------------------
  // Properties of the regions.

  /** `containsChunk` is false whenever the chunk's region is absent. */
  lemma NoRegionNoChunk(regions: map<ChunkPos, RegionSummary>, pos: ChunkPos)
    requires RegionOf(pos) !in regions
    ensures !Contains(regions, pos)
  {
  }

  /** After `putChunk` the chunk is contained with its air count, its region
      exists and every other region entry is unchanged. */
  lemma PutChunkFrame(regions: map<ChunkPos, RegionSummary>, chunk: Chunk)
    ensures var after := PutChunkInto(regions, chunk);
      && Contains(after, chunk.pos)
      && after[RegionOf(chunk.pos)].chunks[chunk.pos].airCount == chunk.airCount
      && after.Keys == regions.Keys + {RegionOf(chunk.pos)}
      && forall r :: r in regions && r != RegionOf(chunk.pos) ==> after[r] == regions[r]
  {
  }

  // ---------------------------------------------------------------------------
  // Properties of the event handlers.

  /** A second load of the same chunk changes nothing: its region already
      holds it with the same air count, and its starts are contained. */
  lemma ChunkLoadIdempotent(summaryType: SummaryType, side: SummaryType,
                            regions: map<ChunkPos, RegionSummary>, structures: StructureSummary, chunk: Chunk)
    ensures var once := RegionsAfterLoad(summaryType, side, regions, chunk);
      RegionsAfterLoad(summaryType, side, once, chunk) == once
    ensures var once := AllPlaced(structures, chunk.starts);
      AllPlaced(once, chunk.starts) == once
  {
    if LoadResummarises(summaryType, side, regions, chunk) {
      PutChunkFrame(regions, chunk);
    }
  }

  /** A load of a chunk the summary holds with an unchanged air count leaves
      the regions alone; a load of a new chunk on the matching side adds it. */
  lemma ChunkLoadGuard(summaryType: SummaryType, side: SummaryType,
                       regions: map<ChunkPos, RegionSummary>, chunk: Chunk)
    ensures summaryType != side ==> RegionsAfterLoad(summaryType, side, regions, chunk) == regions
    ensures Contains(regions, chunk.pos)
            && regions[RegionOf(chunk.pos)].chunks[chunk.pos].airCount == chunk.airCount
            ==> RegionsAfterLoad(summaryType, side, regions, chunk) == regions
    ensures summaryType == side && !Contains(regions, chunk.pos)
            ==> Contains(RegionsAfterLoad(summaryType, side, regions, chunk), chunk.pos)
  {
    PutChunkFrame(regions, chunk);
  }

  /** Placing a start twice is placing it once, and it is contained after. */
  lemma StructurePlaceIdempotent(structures: StructureSummary, start: StructureStart)
    ensures Placed(Placed(structures, start), start) == Placed(structures, start)
    ensures start in Placed(structures, start).starts
    ensures start in structures.starts ==> Placed(structures, start) == structures
  {
  }

  /** Placing the starts one at a time, in any order, gives `AllPlaced`:
      placing one more start extends the set placed so far. */
  lemma AllPlacedStep(structures: StructureSummary, done: set<StructureStart>, start: StructureStart)
    ensures Placed(AllPlaced(structures, done), start) == AllPlaced(structures, done + {start})
    ensures AllPlaced(structures, {}) == structures
  {
  }

  // ---------------------------------------------------------------------------
  // Properties of the file names.

  /** Every region's file name passes `load`'s filter and parses back to the
      region. */
  lemma RegionFileNameRoundTrip(pos: ChunkPos)
    ensures IsRegionFileName(RegionFileName(pos))
    ensures RegionOfFileName(RegionFileName(pos)) == pos
  {
    NoDotInFormat(pos.x);
    NoDotInFormat(pos.z);
    SplitFour("c", FormatInt(pos.x), FormatInt(pos.z), "dat");
    assert RegionFileName(pos) == "c" + "." + FormatInt(pos.x) + "." + FormatInt(pos.z) + "." + "dat";
    ParseFormat(pos.x);
    ParseFormat(pos.z);
  }

  lemma RegionFileNameInjective()
    ensures forall p, q :: RegionFileName(p) == RegionFileName(q) ==> p == q
  {
    forall p, q | RegionFileName(p) == RegionFileName(q)
      ensures p == q
    {
      RegionFileNameRoundTrip(p);
      RegionFileNameRoundTrip(q);
    }
  }

  /** The structures and landmarks files are not taken for region files. */
  lemma OtherFilesRejected()
    ensures !IsRegionFileName(StructuresFileName)
    ensures !IsRegionFileName(LandmarksFileName)
  {
    SplitTwo("structures", "dat");
    assert StructuresFileName == "structures" + "." + "dat";
    SplitTwo("landmarks", "dat");
    assert LandmarksFileName == "landmarks" + "." + "dat";
  }

  lemma SplitTwo(a: string, b: string)
    requires '.' !in a && '.' !in b && b != []
    ensures Split(a + "." + b) == [a, b]
  {
    var rb := "." + b;
    assert a + "." + b == a + rb && rb[1..] == b + [];
    SplitFromPiece(a, rb, []);
    SplitFromPiece(b, [], []);
    assert [] + a == a && [] + b == b;
    assert SplitFrom(rb, a) == [a] + SplitFrom(b, []) == [a, b];
    assert (a + "." + b)[|a|] == '.';
  }

  // ---------------------------------------------------------------------------
  // Properties of saving and loading.

  lemma RegionFilesStep(regions: map<ChunkPos, RegionSummary>, done: set<ChunkPos>, pos: ChunkPos)
    requires pos in regions
    ensures RegionFiles(regions, done + {pos})
         == if regions[pos].dirty
            then RegionFiles(regions, done)[RegionFileName(pos) := RegionFile(regions[pos].chunks)]
            else RegionFiles(regions, done)
  {
    RegionFileNameInjective();
  }

  /** `save` writes a file exactly for each dirty region, under its name, and
      for the structures and landmarks when they are dirty. */
  lemma SavedFileNames(regions: map<ChunkPos, RegionSummary>, structures: StructureSummary,
                       landmarks: set<Landmark>, landmarksDirty: bool, pos: ChunkPos)
    ensures var files := SavedFiles(regions, structures, landmarks, landmarksDirty);
      && (RegionFileName(pos) in files <==> pos in regions && regions[pos].dirty)
      && (RegionFileName(pos) in files ==> files[RegionFileName(pos)] == RegionFile(regions[pos].chunks))
      && (StructuresFileName in files <==> structures.dirty)
      && (LandmarksFileName in files <==> landmarksDirty)
  {
    RegionFileNameInjective();
    RegionFileNameRoundTrip(pos);
    OtherFilesRejected();
    var files := SavedFiles(regions, structures, landmarks, landmarksDirty);
    if StructuresFileName in RegionFiles(regions, regions.Keys) {
      var p :| p in regions && regions[p].dirty && RegionFileName(p) == StructuresFileName;
      RegionFileNameRoundTrip(p);
    }
    if LandmarksFileName in RegionFiles(regions, regions.Keys) {
      var p :| p in regions && regions[p].dirty && RegionFileName(p) == LandmarksFileName;
      RegionFileNameRoundTrip(p);
    }
  }

  /** Loading skips the names the filter rejects. */
  lemma {:induction false} LoadedAccepted(names: seq<string>, contents: map<string, FileContent>)
    ensures LoadedRegions(Accepted(names), contents) == LoadedRegions(names, contents)
  {
    if names != [] {
      var init := names[..|names| - 1];
      var last := names[|names| - 1];
      LoadedAccepted(init, contents);
      if IsRegionFileName(last) {
        assert (Accepted(init) + [last])[..|Accepted(init)|] == Accepted(init);
      } else {
        assert Accepted(names) == Accepted(init) + [] == Accepted(init);
      }
    }
  }

  /** The dirty regions as `load` reads them back: same chunks, clean. */
  function SavedRegions(regions: map<ChunkPos, RegionSummary>): map<ChunkPos, RegionSummary>
  {
    map p | p in regions && regions[p].dirty :: RegionSummary(regions[p].chunks, false)
  }

  /** Every file `save` writes is a dirty region's, the structures' or the
      landmarks'. */
  lemma SavedFileKinds(regions: map<ChunkPos, RegionSummary>, structures: StructureSummary,
                       landmarks: set<Landmark>, landmarksDirty: bool, name: string) returns (p: ChunkPos)
    requires name in SavedFiles(regions, structures, landmarks, landmarksDirty)
    requires name != StructuresFileName && name != LandmarksFileName
    ensures p in regions && regions[p].dirty && name == RegionFileName(p)
  {
    p :| p in regions && regions[p].dirty && RegionFileName(p) == name;
  }

  /** `files` holds a clean region file for every region of `saved`, and
      every region file `load` accepts in it names a region of `saved`. */
  ghost predicate HoldsRegions(files: map<string, FileContent>, saved: map<ChunkPos, RegionSummary>)
  {
    && (forall p :: p in saved ==>
          && RegionFileName(p) in files
          && files[RegionFileName(p)] == RegionFile(saved[p].chunks)
          && !saved[p].dirty)
    && (forall n :: n in files && IsRegionFileName(n) && files[n].RegionFile? ==>
          RegionOfFileName(n) in saved && RegionFileName(RegionOfFileName(n)) == n)
  }

  /** Loading a listing of such files gives the regions whose names it
      holds, each as saved. */
  lemma {:induction false} LoadPrefix(names: seq<string>, files: map<string, FileContent>,
                                      saved: map<ChunkPos, RegionSummary>)
    requires forall n :: n in names ==> n in files
    requires HoldsRegions(files, saved)
    ensures forall p :: p in LoadedRegions(names, files) <==> p in saved && RegionFileName(p) in names
    ensures forall p :: p in LoadedRegions(names, files) ==> LoadedRegions(names, files)[p] == saved[p]
  {
    if names != [] {
      var done := names[..|names| - 1];
      var name := names[|names| - 1];
      assert names == done + [name];
      LoadPrefix(done, files, saved);
      LoadStep(done, name, files, saved);
    }
  }

  /** One more name in the listing adds its region, if it names one. */
  lemma LoadStep(done: seq<string>, name: string, files: map<string, FileContent>,
                 saved: map<ChunkPos, RegionSummary>)
    requires name in files
    requires HoldsRegions(files, saved)
    requires forall p :: p in LoadedRegions(done, files) <==> p in saved && RegionFileName(p) in done
    requires forall p :: p in LoadedRegions(done, files) ==> LoadedRegions(done, files)[p] == saved[p]
    ensures forall p :: p in LoadedRegions(done + [name], files) <==> p in saved && RegionFileName(p) in done + [name]
    ensures forall p :: p in LoadedRegions(done + [name], files) ==> LoadedRegions(done + [name], files)[p] == saved[p]
  {
    var names := done + [name];
    assert names[..|names| - 1] == done;
    var before := LoadedRegions(done, files);
    var after := LoadedRegions(names, files);
    forall p ensures RegionFileName(p) in names <==> RegionFileName(p) in done || RegionFileName(p) == name {
    }
    if IsRegionFileName(name) && files[name].RegionFile? {
      var q := RegionOfFileName(name);
      assert after == before[q := RegionSummary(files[name].chunks, false)];
      RegionFileNameInjective();
    } else {
      assert after == before;
      forall p | p in saved ensures RegionFileName(p) != name {
        RegionFileNameRoundTrip(p);
      }
    }
  }

  /** The files `save` writes hold the dirty regions, clean. */
  lemma SavedHoldsRegions(regions: map<ChunkPos, RegionSummary>, structures: StructureSummary,
                          landmarks: set<Landmark>, landmarksDirty: bool)
    ensures HoldsRegions(SavedFiles(regions, structures, landmarks, landmarksDirty), SavedRegions(regions))
  {
    var files := SavedFiles(regions, structures, landmarks, landmarksDirty);
    var saved := SavedRegions(regions);
    forall p | p in saved
      ensures RegionFileName(p) in files && files[RegionFileName(p)] == RegionFile(saved[p].chunks)
    {
      SavedFileNames(regions, structures, landmarks, landmarksDirty, p);
    }
    forall n | n in files && IsRegionFileName(n) && files[n].RegionFile?
      ensures RegionOfFileName(n) in saved && RegionFileName(RegionOfFileName(n)) == n
    {
      OtherFilesRejected();
      var q := SavedFileKinds(regions, structures, landmarks, landmarksDirty, n);
      RegionFileNameRoundTrip(q);
    }
  }

  /** Loading a full listing of such files gives exactly the regions. */
  lemma LoadAll(listing: seq<string>, files: map<string, FileContent>, saved: map<ChunkPos, RegionSummary>)
    requires forall n :: n in listing <==> n in files
    requires HoldsRegions(files, saved)
    ensures LoadedRegions(listing, files) == saved
  {
    LoadPrefix(listing, files, saved);
    var loaded := LoadedRegions(listing, files);
    assert loaded.Keys == saved.Keys;
  }

  /** The structures and landmarks `load` reads from what `save` wrote. */
  lemma SavedOthers(regions: map<ChunkPos, RegionSummary>, structures: StructureSummary,
                    landmarks: set<Landmark>, landmarksDirty: bool)
    ensures var files := SavedFiles(regions, structures, landmarks, landmarksDirty);
      && LoadedStructures(files) == StructureSummary(if structures.dirty then structures.starts else {}, false)
      && LoadedLandmarks(files) == if landmarksDirty then landmarks else {}
  {
    SavedFileNames(regions, structures, landmarks, landmarksDirty, ChunkPos(0, 0));
    var files := SavedFiles(regions, structures, landmarks, landmarksDirty);
    if structures.dirty {
      assert StructuresFileName != LandmarksFileName;
    }
  }

  /** What `load` reads from the files `save` wrote, listed in any order:
      the dirty regions, clean; the structures and landmarks if they were
      dirty and nothing otherwise. */
  lemma SaveThenLoad(regions: map<ChunkPos, RegionSummary>, structures: StructureSummary,
                     landmarks: set<Landmark>, landmarksDirty: bool, listing: seq<string>)
    requires forall n :: n in listing <==> n in SavedFiles(regions, structures, landmarks, landmarksDirty)
    ensures var files := SavedFiles(regions, structures, landmarks, landmarksDirty);
      && LoadedRegions(listing, files) == SavedRegions(regions)
      && LoadedStructures(files) == StructureSummary(if structures.dirty then structures.starts else {}, false)
      && LoadedLandmarks(files) == if landmarksDirty then landmarks else {}
  {
    SavedHoldsRegions(regions, structures, landmarks, landmarksDirty);
    LoadAll(listing, SavedFiles(regions, structures, landmarks, landmarksDirty), SavedRegions(regions));
    SavedOthers(regions, structures, landmarks, landmarksDirty);
  }
}
