/** The Y layers the chunk summary samples, as the ascending set that a
    `TreeSet<Integer>` holds. */
module ChunkLayers {
  import opened Dimensions

  predicate StrictlyAscending(s: seq<int>)
  {
    forall i, j :: 0 <= i < j < |s| ==> s[i] < s[j]
  }

  /** `TreeSet.add`: `y` put in its place; nothing changes when it is
      already there. */
  function Add(set_: seq<int>, y: int): (r: seq<int>)
    requires StrictlyAscending(set_)
    ensures StrictlyAscending(r)
    ensures forall x :: x in r <==> x in set_ || x == y
    ensures |r| == if y in set_ then |set_| else |set_| + 1
  {
    if set_ == [] then [y]
    else if y < set_[0] then [y] + set_
    else if y == set_[0] then set_
    else
      var rest := Add(set_[1..], y);
      assert forall x :: x in set_ <==> x == set_[0] || x in set_[1..];
      forall j | 0 <= j < |rest|
        ensures set_[0] < rest[j]
      {
        if rest[j] != y {
          assert rest[j] in rest;
          assert rest[j] in set_[1..];
          var k :| 0 <= k < |set_[1..]| && set_[1..][k] == rest[j];
          assert set_[k + 1] == rest[j];
        }
      }
      [set_[0]] + rest
  }

  /** The values the source adds, in the order it adds them. */
  function Candidates(world: World): (ys: seq<int>)
    ensures 3 <= |ys| <= 8
    ensures forall y :: y in ys <==> IsChunkLayer(world, y)
  {
    var d := world.dimension;
    [TopY(d), d.minY + d.logicalHeight - 1]
    + (if d.hasSkyLight then [world.seaLevel - 1] else [])
    + (if d.minY + d.height > 256 then [256] else [])
    + (if d.minY < 0 then [0] else [])
    + (if d.isNether then [70, 32] else [])
    + [d.minY]
  }

  /** A fresh set after adding `ys` one after another. */
  function AddAll(ys: seq<int>): (r: seq<int>)
    ensures StrictlyAscending(r)
    ensures forall x :: x in r <==> x in ys
    ensures |r| <= |ys|
  {
    if ys == [] then []
    else
      var init := ys[..|ys| - 1];
      assert forall x :: x in ys <==> x in init || x == ys[|ys| - 1];
      Add(AddAll(init), ys[|ys| - 1])
  }

  /** `getSummaryLayers`: a fresh tree set holding every value the rules
      yield, ascending and without repeats, at most eight of them. */
  function SummaryLayers(world: World): (layers: seq<int>)
    ensures StrictlyAscending(layers)
    ensures forall y :: y in layers <==> IsChunkLayer(world, y)
    ensures 1 <= |layers| <= 8
  {
    var ys := Candidates(world);
    assert ys[0] in ys;
    AddAll(ys)
  }

  /** Each rule on its own: `y` is a layer when some rule that applies to the
      world yields it. */
  predicate IsChunkLayer(world: World, y: int)
  {
    var d := world.dimension;
    || y == TopY(d)
    || y == d.minY + d.logicalHeight - 1
    || (d.hasSkyLight && y == world.seaLevel - 1)
    || (d.minY + d.height > 256 && y == 256)
    || (d.minY < 0 && y == 0)
    || (d.isNether && (y == 70 || y == 32))
    || y == d.minY
  }
}
