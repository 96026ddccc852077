/**
 * The older grid class (src/renderer/src/utils/world.ts): a dense 3-D array
 * of cells, each holding a block id and an optional instance handle, with
 * bounds-checked accessors, random terrain, and the numbering pass that hands
 * every cell its instance id and lists the non-empty ones.
 *
 * The collision code reads the grid through this class's `GetBlock`.
 */
module Grid {
  import opened Wrappers
  import opened Voxel

  /** One cell: its block id and its instance handle (`null` until numbered). */
  datatype BlockData = BlockData(id: int, instanceId: Option<int>)

  /** One entry of the instance list. */
  datatype BlockMatrix = BlockMatrix(id: int, instanceId: int, matrix: Vec3)

  /** The id of the empty block; the random terrain uses 0 and 1 only. */
  const EMPTY_ID: int := 0

  /** The entry the numbering pass makes for cell `c` holding block `id`. */
  function EntryFor(height: int, depth: int, c: Coord, id: int): BlockMatrix {
    BlockMatrix(id, Index(height, depth, c), Center(c))
  }

  /**
   * `blocks` lists, in visiting order, every cell before `bound` whose id in
   * `ids` is not empty, each with its index as instance id.
   */
  ghost predicate NumberedBefore(ids: imap<Coord, int>, width: int, height: int, depth: int,
                                 blocks: seq<BlockMatrix>, bound: Coord)
  {
    (forall n :: 0 <= n < |blocks| ==>
       var c := CellOf(blocks[n].matrix);
       InBounds(width, height, depth, c) && c in ids && ids[c] != EMPTY_ID &&
       blocks[n] == EntryFor(height, depth, c, ids[c]) && Precedes(c, bound)) &&
    (forall m, n :: 0 <= m < n < |blocks| ==> Precedes(CellOf(blocks[m].matrix), CellOf(blocks[n].matrix))) &&
    (forall c :: InBounds(width, height, depth, c) && c in ids && ids[c] != EMPTY_ID && Precedes(c, bound) ==>
       exists n :: 0 <= n < |blocks| && CellOf(blocks[n].matrix) == c)
  }

  /** Visiting one cell appends its entry exactly when it is not empty. */
  lemma NumberStep(ids: imap<Coord, int>, width: int, height: int, depth: int,
                   blocks: seq<BlockMatrix>, c: Coord)
    requires InBounds(width, height, depth, c) && c in ids
    requires NumberedBefore(ids, width, height, depth, blocks, c)
    ensures NumberedBefore(ids, width, height, depth,
                           if ids[c] != EMPTY_ID then blocks + [EntryFor(height, depth, c, ids[c])] else blocks,
                           Coord(c.x, c.y, c.z + 1))
  {
    var next := Coord(c.x, c.y, c.z + 1);
    if ids[c] != EMPTY_ID {
      var blocks' := blocks + [EntryFor(height, depth, c, ids[c])];
      assert CellOf(blocks'[|blocks|].matrix) == c;
      forall d | InBounds(width, height, depth, d) && d in ids && ids[d] != EMPTY_ID && Precedes(d, next)
        ensures exists n :: 0 <= n < |blocks'| && CellOf(blocks'[n].matrix) == d
      {
        if d == c {
          assert CellOf(blocks'[|blocks|].matrix) == d;
        } else {
          assert Precedes(d, c);
          var n :| 0 <= n < |blocks| && CellOf(blocks[n].matrix) == d;
          assert CellOf(blocks'[n].matrix) == d;
        }
      }
    }
  }

  /** Moving the bound past cells that are not in the grid changes nothing. */
  lemma NumberSkip(ids: imap<Coord, int>, width: int, height: int, depth: int,
                   blocks: seq<BlockMatrix>, a: Coord, b: Coord)
    requires NumberedBefore(ids, width, height, depth, blocks, a)
    requires Precedes(a, b)
    requires forall c :: InBounds(width, height, depth, c) ==> (Precedes(c, a) <==> Precedes(c, b))
    ensures NumberedBefore(ids, width, height, depth, blocks, b)
  {
  }

  /** In visiting order, instance ids strictly increase. */
  lemma NumberedIdsIncrease(ids: imap<Coord, int>, width: int, height: int, depth: int,
                            blocks: seq<BlockMatrix>, bound: Coord)
    requires NumberedBefore(ids, width, height, depth, blocks, bound)
    ensures forall m, n :: 0 <= m < n < |blocks| ==> blocks[m].instanceId < blocks[n].instanceId
  {
    forall m, n | 0 <= m < n < |blocks|
      ensures blocks[m].instanceId < blocks[n].instanceId
    {
      IndexOrder(width, height, depth, CellOf(blocks[m].matrix), CellOf(blocks[n].matrix));
    }
  }

  /** The cell a random draw makes: solid above the threshold, empty otherwise, never numbered. */
  function RandomCell(draw: real, threshold: real): (b: BlockData)
    ensures b.id in {0, 1} && b.instanceId.None?
    ensures b.id == 1 <==> draw > threshold
  {
    BlockData(if draw > threshold then 1 else 0, None)
  }

  /** The cell that the draw at `c`'s visiting index makes. */
  function DrawnCell(draws: seq<real>, threshold: real, width: int, height: int, depth: int, c: Coord): (b: BlockData)
    requires |draws| == Volume(width, height, depth) && InBounds(width, height, depth, c)
    ensures b.instanceId.None?
    ensures b.id == 1 <==> draws[Index(height, depth, c)] > threshold
  {
    RandomCell(draws[Index(height, depth, c)], threshold)
  }

  class World {
    var width: nat
    var height: nat
    var depth: nat
    var data: array3<BlockData>

    /** Random draws above this value make a cell solid. */
    var threshold: real

    /** The grid has been generated for the current dimensions. */
    ghost predicate Valid()
      reads this
    {
      data.Length0 == width && data.Length1 == height && data.Length2 == depth
    }

    /** The ids of all cells. */
    ghost function Ids(): imap<Coord, int>
      reads this, data
      requires Valid()
    {
      imap c | InBounds(width, height, depth, c) :: data[c.x, c.y, c.z].id
    }

    /** A new world holds no cells until its terrain is generated. */
    constructor(width: nat, height: nat, depth: nat)
      ensures this.width == width && this.height == height && this.depth == depth
      ensures threshold == 0.5
      ensures fresh(data) && data.Length0 == 0
    {
      this.width := width;
      this.height := height;
      this.depth := depth;
      threshold := 0.5;
      data := new BlockData[0, 0, 0];
    }

    /** The bounds test: exactly the coordinates the grid's array has cells for. */
    predicate IsInBounds(x: int, y: int, z: int)
      reads this
      ensures Valid() ==>
                (IsInBounds(x, y, z) <==> 0 <= x < data.Length0 && 0 <= y < data.Length1 && 0 <= z < data.Length2)
    {
      InBounds(width, height, depth, Coord(x, y, z))
    }

    /** The cell at (x, y, z), or `None` (the source's `null`) outside the grid. */
    function GetBlock(x: int, y: int, z: int): (b: Option<BlockData>)
      reads this, data
      requires Valid()
      ensures b.None? <==> !IsInBounds(x, y, z)
      ensures b.Some? ==> 0 <= x < data.Length0 && 0 <= y < data.Length1 && 0 <= z < data.Length2 &&
                          b.value == data[x, y, z]
    {
      if !IsInBounds(x, y, z) then None else Some(data[x, y, z])
    }

    /** Sets the id of one cell; a no-op outside the grid. */
    method SetBlockId(x: int, y: int, z: int, id: int)
      requires Valid()
      modifies data
      ensures IsInBounds(x, y, z) ==> data[x, y, z] == old(data[x, y, z]).(id := id)
      ensures forall i, j, k :: 0 <= i < width && 0 <= j < height && 0 <= k < depth && (i != x || j != y || k != z) ==>
                data[i, j, k] == old(data[i, j, k])
    {
      if !IsInBounds(x, y, z) {
        return;
      }
      data[x, y, z] := data[x, y, z].(id := id);
    }

    /** Sets the instance handle of one cell; a no-op outside the grid. */
    method SetBlockInstanceId(x: int, y: int, z: int, instanceId: int)
      requires Valid()
      modifies data
      ensures IsInBounds(x, y, z) ==> data[x, y, z] == old(data[x, y, z]).(instanceId := Some(instanceId))
      ensures forall i, j, k :: 0 <= i < width && 0 <= j < height && 0 <= k < depth && (i != x || j != y || k != z) ==>
                data[i, j, k] == old(data[i, j, k])
    {
      if !IsInBounds(x, y, z) {
        return;
      }
      data[x, y, z] := data[x, y, z].(instanceId := Some(instanceId));
    }

    /**
     * Rebuilds the grid: one random draw per cell, in visiting order; a draw
     * above the threshold makes the cell solid (id 1), otherwise it is empty
     * (id 0). No cell has an instance handle yet.
     */
    method GenerateTerrain(draws: seq<real>)
      requires |draws| == Volume(width, height, depth)
      modifies this
      ensures Valid() && fresh(data)
      ensures width == old(width) && height == old(height) && depth == old(depth) && threshold == old(threshold)
      ensures forall i, j, k :: 0 <= i < width && 0 <= j < height && 0 <= k < depth ==>
                data[i, j, k] == DrawnCell(draws, threshold, width, height, depth, Coord(i, j, k))
    {
      var w, h, d, t := width, height, depth, threshold;
      var cells := new BlockData[w, h, d];
      data := cells;
      var drawn := 0;
      var x := 0;
      while x < w
        modifies cells
        invariant 0 <= x <= w && drawn == Index(h, d, Coord(x, 0, 0))
        invariant forall i, j, k :: 0 <= i < x && 0 <= j < h && 0 <= k < d ==>
                    cells[i, j, k] == DrawnCell(draws, t, w, h, d, Coord(i, j, k))
      {
        var y := 0;
        while y < h
          modifies cells
          invariant 0 <= y <= h && drawn == Index(h, d, Coord(x, y, 0))
          invariant forall i, j, k :: 0 <= i < x && 0 <= j < h && 0 <= k < d ==>
                      cells[i, j, k] == DrawnCell(draws, t, w, h, d, Coord(i, j, k))
          invariant forall j, k :: 0 <= j < y && 0 <= k < d ==>
                      cells[x, j, k] == DrawnCell(draws, t, w, h, d, Coord(x, j, k))
        {
          var z := 0;
          while z < d
            modifies cells
            invariant 0 <= z <= d && drawn == Index(h, d, Coord(x, y, z))
            invariant forall i, j, k :: 0 <= i < x && 0 <= j < h && 0 <= k < d ==>
                        cells[i, j, k] == DrawnCell(draws, t, w, h, d, Coord(i, j, k))
            invariant forall j, k :: 0 <= j < y && 0 <= k < d ==>
                        cells[x, j, k] == DrawnCell(draws, t, w, h, d, Coord(x, j, k))
            invariant forall k :: 0 <= k < z ==> cells[x, y, k] == DrawnCell(draws, t, w, h, d, Coord(x, y, k))
          {
            assert InBounds(w, h, d, Coord(x, y, z));
            var random := draws[drawn];
            cells[x, y, z] := BlockData(if random > t then 1 else 0, None);
            drawn := drawn + 1;
            z := z + 1;
          }
          IndexCarry(h, d, x, y);
          y := y + 1;
        }
        IndexCarry(h, d, x, h);
        x := x + 1;
      }
    }

    /**
     * Numbers every cell, empty or not, with a running counter in visiting
     * order, and lists the non-empty cells with their instance id and centre.
     */
    method GenerateBlockMatrices() returns (blocks: seq<BlockMatrix>)
      requires Valid()
      modifies data
      ensures forall i, j, k :: 0 <= i < width && 0 <= j < height && 0 <= k < depth ==>
                data[i, j, k].id == old(data[i, j, k].id)
      ensures forall i, j, k :: 0 <= i < width && 0 <= j < height && 0 <= k < depth ==>
                data[i, j, k].instanceId == Some(Index(height, depth, Coord(i, j, k)))
      ensures NumberedBefore(Ids(), width, height, depth, blocks, Coord(width, 0, 0))
      ensures forall m, n :: 0 <= m < n < |blocks| ==> blocks[m].instanceId < blocks[n].instanceId
    {
      var w, h, d, cells := width, height, depth, data;
      ghost var ids := Ids();
      blocks := [];
      var instanceCounter := 0;
      var x := 0;
      while x < w
        modifies cells
        invariant 0 <= x <= w && instanceCounter == Index(h, d, Coord(x, 0, 0))
        invariant NumberedBefore(ids, w, h, d, blocks, Coord(x, 0, 0))
        invariant forall i, j, k :: 0 <= i < w && 0 <= j < h && 0 <= k < d ==> cells[i, j, k].id == old(cells[i, j, k].id)
        invariant forall i, j, k :: 0 <= i < x && 0 <= j < h && 0 <= k < d ==>
                    cells[i, j, k].instanceId == Some(Index(h, d, Coord(i, j, k)))
      {
        instanceCounter, blocks := NumberPlane(x, instanceCounter, blocks, ids);
        IndexCarry(h, d, x, h);
        x := x + 1;
      }
      assert Ids() == ids;
      NumberedIdsIncrease(ids, w, h, d, blocks, Coord(w, 0, 0));
    }

    /** The middle loop of the numbering pass: the cells (x, 0, 0) .. (x, height - 1, depth - 1). */
    method NumberPlane(x: int, counter: int, blocks: seq<BlockMatrix>, ghost ids: imap<Coord, int>)
      returns (counter': int, blocks': seq<BlockMatrix>)
      requires Valid() && 0 <= x < width
      requires counter == Index(height, depth, Coord(x, 0, 0))
      requires NumberedBefore(ids, width, height, depth, blocks, Coord(x, 0, 0))
      requires forall j, k :: 0 <= j < height && 0 <= k < depth ==> Coord(x, j, k) in ids && ids[Coord(x, j, k)] == data[x, j, k].id
      modifies data
      ensures counter' == Index(height, depth, Coord(x, height, 0))
      ensures NumberedBefore(ids, width, height, depth, blocks', Coord(x + 1, 0, 0))
      ensures forall i, j, k :: 0 <= i < width && 0 <= j < height && 0 <= k < depth ==> data[i, j, k].id == old(data[i, j, k].id)
      ensures forall i, j, k :: 0 <= i < width && 0 <= j < height && 0 <= k < depth && i != x ==>
                data[i, j, k] == old(data[i, j, k])
      ensures forall j, k :: 0 <= j < height && 0 <= k < depth ==> data[x, j, k].instanceId == Some(Index(height, depth, Coord(x, j, k)))
    {
      var w, h, d, cells := width, height, depth, data;
      counter', blocks' := counter, blocks;
      var y := 0;
      while y < h
        modifies cells
        invariant 0 <= y <= h && counter' == Index(h, d, Coord(x, y, 0))
        invariant NumberedBefore(ids, w, h, d, blocks', Coord(x, y, 0))
        invariant forall i, j, k :: 0 <= i < w && 0 <= j < h && 0 <= k < d ==> cells[i, j, k].id == old(cells[i, j, k].id)
        invariant forall i, j, k :: 0 <= i < w && 0 <= j < h && 0 <= k < d && (i != x || j >= y) ==>
                    cells[i, j, k] == old(cells[i, j, k])
        invariant forall j, k :: 0 <= j < y && 0 <= k < d ==> cells[x, j, k].instanceId == Some(Index(h, d, Coord(x, j, k)))
      {
        counter', blocks' := NumberRow(x, y, counter', blocks', ids);
        IndexCarry(h, d, x, y);
        y := y + 1;
      }
      NumberSkip(ids, w, h, d, blocks', Coord(x, h, 0), Coord(x + 1, 0, 0));
    }

    /** The innermost loop of the numbering pass: the cells (x, y, 0) .. (x, y, depth - 1). */
    method NumberRow(x: int, y: int, counter: int, blocks: seq<BlockMatrix>, ghost ids: imap<Coord, int>)
      returns (counter': int, blocks': seq<BlockMatrix>)
      requires Valid() && 0 <= x < width && 0 <= y < height
      requires counter == Index(height, depth, Coord(x, y, 0))
      requires NumberedBefore(ids, width, height, depth, blocks, Coord(x, y, 0))
      requires forall k :: 0 <= k < depth ==> Coord(x, y, k) in ids && ids[Coord(x, y, k)] == data[x, y, k].id
      modifies data
      ensures counter' == Index(height, depth, Coord(x, y, depth))
      ensures NumberedBefore(ids, width, height, depth, blocks', Coord(x, y + 1, 0))
      ensures forall i, j, k :: 0 <= i < width && 0 <= j < height && 0 <= k < depth ==> data[i, j, k].id == old(data[i, j, k].id)
      ensures forall i, j, k :: 0 <= i < width && 0 <= j < height && 0 <= k < depth && (i != x || j != y) ==>
                data[i, j, k] == old(data[i, j, k])
      ensures forall k :: 0 <= k < depth ==> data[x, y, k].instanceId == Some(Index(height, depth, Coord(x, y, k)))
    {
      var h, d, cells := height, depth, data;
      counter', blocks' := counter, blocks;
      var z := 0;
      while z < d
        modifies cells
        invariant 0 <= z <= d && counter' == Index(h, d, Coord(x, y, z))
        invariant NumberedBefore(ids, width, h, d, blocks', Coord(x, y, z))
        invariant forall i, j, k :: 0 <= i < width && 0 <= j < h && 0 <= k < d ==> cells[i, j, k].id == old(cells[i, j, k].id)
        invariant forall i, j, k :: 0 <= i < width && 0 <= j < h && 0 <= k < d && (i != x || j != y || k >= z) ==>
                    cells[i, j, k] == old(cells[i, j, k])
        invariant forall k :: 0 <= k < z ==> cells[x, y, k].instanceId == Some(Index(h, d, Coord(x, y, k)))
      {
        var blockId := GetBlock(x, y, z).value.id;
        var instanceId := counter';
        counter' := counter' + 1;
        SetBlockInstanceId(x, y, z, instanceId);
        NumberStep(ids, width, h, d, blocks', Coord(x, y, z));
        if blockId != EMPTY_ID {
          blocks' := blocks' + [BlockMatrix(blockId, instanceId, Center(Coord(x, y, z)))];
        }
        z := z + 1;
      }
      NumberSkip(ids, width, h, d, blocks', Coord(x, y, d), Coord(x, y + 1, 0));
    }

    /** Random terrain followed by the numbering pass. */
    method GenerateWorld(draws: seq<real>) returns (blocks: seq<BlockMatrix>)
      requires |draws| == Volume(width, height, depth)
      modifies this
      ensures Valid() && fresh(data)
      ensures width == old(width) && height == old(height) && depth == old(depth) && threshold == old(threshold)
      ensures forall i, j, k :: InBounds(width, height, depth, Coord(i, j, k)) ==>
                data[i, j, k] == DrawnCell(draws, threshold, width, height, depth, Coord(i, j, k)).(instanceId := Some(Index(height, depth, Coord(i, j, k))))
      ensures NumberedBefore(Ids(), width, height, depth, blocks, Coord(width, 0, 0))
    {
      GenerateTerrain(draws);
      blocks := GenerateBlockMatrices();
    }
  }
}
