/**
 * Terrain generation and face culling of the reactive world
 * (src/renderer/src/utils/world.svelte.ts).
 *
 * Generation fills a width x height x depth grid of block ids: every column
 * gets a surface height from a noise sample, cells below it become Dirt, the
 * surface cell Grass, and cells above stay Empty. It then lists, in
 * x-then-y-then-z order, every solid cell that has an Empty or out-of-bounds
 * neighbour, placed at the centre of its cell.
 *
 * The noise source is a parameter: `noise` stands for the simplex noise
 * generator seeded with `RNG(terrain.seed)`.
 */
module Terrain {
  import opened Voxel
  import opened Blocks

  /** The terrain parameters of the world. */
  datatype TerrainParams = TerrainParams(seed: int, scale: real, magnitude: real, offset: real)

  /** Everything generation depends on. */
  datatype Config = Config(
    width: nat, height: nat, depth: nat,
    terrain: TerrainParams,
    noise: (real, real) -> real)

  /**
   * Configurations generation completes on: the sample coordinates divide by
   * the scale, and a grid with columns needs at least one layer (with none,
   * the write to the surface cell of the first column fails).
   */
  predicate Generable(cfg: Config) {
    cfg.terrain.scale != 0.0 && (cfg.height > 0 || cfg.width == 0 || cfg.depth == 0)
  }

  /**
   * The surface height of a column from its noise sample: the floor of the
   * clamped scaled noise. It always lies inside the grid.
   */
  function SurfaceHeight(height: int, terrain: TerrainParams, sample: real): (s: int)
    ensures height >= 1 ==> 0 <= s <= height - 1
  {
    var scaledNoise := terrain.offset + terrain.magnitude * sample;
    Clamp(height as real * scaledNoise, 0.0, (height - 1) as real).Floor
  }

  /** The surface height of column (x, z). */
  function ColumnSurface(cfg: Config, x: int, z: int): (s: int)
    requires cfg.terrain.scale != 0.0
    ensures cfg.height >= 1 ==> 0 <= s < cfg.height
  {
    SurfaceHeight(cfg.height, cfg.terrain, cfg.noise(x as real / cfg.terrain.scale, z as real / cfg.terrain.scale))
  }

  /** The block generation puts at a cell: Dirt below the surface, Grass on it, Empty above. */
  function TerrainBlock(cfg: Config, c: Coord): (b: BlockType)
    requires cfg.terrain.scale != 0.0
    ensures b == Grass <==> c.y == ColumnSurface(cfg, c.x, c.z)
    ensures b == Dirt <==> c.y < ColumnSurface(cfg, c.x, c.z)
    ensures b == Empty <==> c.y > ColumnSurface(cfg, c.x, c.z)
  {
    var s := ColumnSurface(cfg, c.x, c.z);
    if c.y < s then Dirt else if c.y == s then Grass else Empty
  }

  /** Each column holds exactly one Grass cell, at its surface height. */
  lemma OneGrassPerColumn(cfg: Config, x: int, z: int)
    requires cfg.terrain.scale != 0.0 && cfg.height >= 1
    ensures (set y | 0 <= y < cfg.height && TerrainBlock(cfg, Coord(x, y, z)) == Grass) == {ColumnSurface(cfg, x, z)}
    ensures |set y | 0 <= y < cfg.height && TerrainBlock(cfg, Coord(x, y, z)) == Grass| == 1
  {
    var s := ColumnSurface(cfg, x, z);
    var grass := set y | 0 <= y < cfg.height && TerrainBlock(cfg, Coord(x, y, z)) == Grass;
    assert s in grass;
    assert grass == {s};
  }

  /** A column is solid up to its surface and open above it. */
  lemma ColumnProfile(cfg: Config, x: int, y: int, z: int)
    requires cfg.terrain.scale != 0.0
    ensures TerrainBlock(cfg, Coord(x, y, z)) != Empty <==> y <= ColumnSurface(cfg, x, z)
    ensures TerrainBlock(cfg, Coord(x, y, z)) == Grass ==> TerrainBlock(cfg, Coord(x, y + 1, z)) == Empty
  {
  }

  /** A cell of the grid that holds a block. */
  predicate Solid(data: array3<int>, c: Coord)
    reads data
  {
    InBounds(data.Length0, data.Length1, data.Length2, c) && data[c.x, c.y, c.z] != Empty.Id()
  }

  /** A solid cell with at least one of its six neighbours out of the grid or Empty. */
  predicate Exposed(data: array3<int>, c: Coord)
    reads data
  {
    Solid(data, c) &&
    (!Solid(data, Coord(c.x, c.y + 1, c.z)) || !Solid(data, Coord(c.x, c.y - 1, c.z)) ||
     !Solid(data, Coord(c.x + 1, c.y, c.z)) || !Solid(data, Coord(c.x - 1, c.y, c.z)) ||
     !Solid(data, Coord(c.x, c.y, c.z + 1)) || !Solid(data, Coord(c.x, c.y, c.z - 1)))
  }

  /**
   * A solid cell on the boundary of the grid is always exposed, since its
   * neighbour across the boundary is out of bounds.
   */
  lemma ExposedAtBoundary(data: array3<int>, c: Coord)
    requires Solid(data, c)
    requires c.x == 0 || c.x == data.Length0 - 1 || c.y == 0 || c.y == data.Length1 - 1 ||
             c.z == 0 || c.z == data.Length2 - 1
    ensures Exposed(data, c)
  {
  }

  /** One entry of the placement list: block id, instance placement and colour. */
  datatype BlockMatrixData = BlockMatrixData(id: int, matrix: Vec3, color: int)

  /** The cell an entry was placed in. */
  function EntryCell(b: BlockMatrixData): Coord {
    CellOf(b.matrix)
  }

  /** The entry generation makes for a cell. */
  function Placement(data: array3<int>, c: Coord): BlockMatrixData
    reads data
    requires InBounds(data.Length0, data.Length1, data.Length2, c)
  {
    var id := data[c.x, c.y, c.z];
    BlockMatrixData(id, Center(c), BlockColor(id))
  }

  /**
   * `blocks` lists exactly the exposed cells of `data`, each once, in the
   * order the x, y, z loops visit them, each with its own id, centre and
   * colour.
   */
  ghost predicate ListsExposed(data: array3<int>, blocks: seq<BlockMatrixData>)
    reads data
  {
    (forall i :: 0 <= i < |blocks| ==>
       Exposed(data, EntryCell(blocks[i])) && blocks[i] == Placement(data, EntryCell(blocks[i]))) &&
    (forall i, j :: 0 <= i < j < |blocks| ==> Precedes(EntryCell(blocks[i]), EntryCell(blocks[j]))) &&
    (forall c :: Exposed(data, c) ==> exists i :: 0 <= i < |blocks| && EntryCell(blocks[i]) == c)
  }

  /** Step 1: a fresh grid with every cell Empty. */
  method FillEmpty(width: nat, height: nat, depth: nat) returns (data: array3<int>)
    ensures fresh(data)
    ensures data.Length0 == width && data.Length1 == height && data.Length2 == depth
    ensures forall x, y, z :: 0 <= x < width && 0 <= y < height && 0 <= z < depth ==> data[x, y, z] == Empty.Id()
  {
    data := new int[width, height, depth];
    var x := 0;
    while x < width
      invariant 0 <= x <= width
      invariant forall i, j, k :: 0 <= i < x && 0 <= j < height && 0 <= k < depth ==> data[i, j, k] == Empty.Id()
    {
      var y := 0;
      while y < height
        invariant 0 <= y <= height
        invariant forall i, j, k :: 0 <= i < x && 0 <= j < height && 0 <= k < depth ==> data[i, j, k] == Empty.Id()
        invariant forall j, k :: 0 <= j < y && 0 <= k < depth ==> data[x, j, k] == Empty.Id()
      {
        var z := 0;
        while z < depth
          invariant 0 <= z <= depth
          invariant forall i, j, k :: 0 <= i < x && 0 <= j < height && 0 <= k < depth ==> data[i, j, k] == Empty.Id()
          invariant forall j, k :: 0 <= j < y && 0 <= k < depth ==> data[x, j, k] == Empty.Id()
          invariant forall k :: 0 <= k < z ==> data[x, y, k] == Empty.Id()
        {
          data[x, y, z] := Empty.Id();
          z := z + 1;
        }
        y := y + 1;
      }
      x := x + 1;
    }
  }

  /**
   * Step 2: every column gets Dirt below its surface and Grass on it. The
   * loop over y runs one past the top layer, yet every write stays inside the
   * grid because the surface height does.
   */
  method RaiseColumns(data: array3<int>, cfg: Config)
    requires Generable(cfg)
    requires data.Length0 == cfg.width && data.Length1 == cfg.height && data.Length2 == cfg.depth
    requires forall x, y, z :: 0 <= x < cfg.width && 0 <= y < cfg.height && 0 <= z < cfg.depth ==> data[x, y, z] == Empty.Id()
    modifies data
    ensures forall x, y, z :: 0 <= x < cfg.width && 0 <= y < cfg.height && 0 <= z < cfg.depth ==>
              data[x, y, z] == TerrainBlock(cfg, Coord(x, y, z)).Id()
  {
    var x := 0;
    while x < cfg.width
      invariant 0 <= x <= cfg.width
      invariant forall i, j, k :: 0 <= i < cfg.width && 0 <= j < cfg.height && 0 <= k < cfg.depth ==>
                  data[i, j, k] == if i < x then TerrainBlock(cfg, Coord(i, j, k)).Id() else Empty.Id()
    {
      var z := 0;
      while z < cfg.depth
        invariant 0 <= z <= cfg.depth
        invariant forall i, j, k :: 0 <= i < cfg.width && 0 <= j < cfg.height && 0 <= k < cfg.depth ==>
                    data[i, j, k] == if i < x || (i == x && k < z) then TerrainBlock(cfg, Coord(i, j, k)).Id() else Empty.Id()
      {
        var surface := ColumnSurface(cfg, x, z);
        var y := 0;
        while y <= cfg.height
          invariant 0 <= y <= cfg.height + 1
          invariant forall i, j, k :: 0 <= i < cfg.width && 0 <= j < cfg.height && 0 <= k < cfg.depth ==>
                      data[i, j, k] == if i < x || (i == x && k < z) || (i == x && k == z && j < y)
                                       then TerrainBlock(cfg, Coord(i, j, k)).Id() else Empty.Id()
        {
          if y == surface {
            data[x, y, z] := Grass.Id();
          } else if y < surface {
            data[x, y, z] := Dirt.Id();
          }
          y := y + 1;
        }
        z := z + 1;
      }
      x := x + 1;
    }
  }

  /**
   * `blocks` is the list built once the loops reach `bound`: the exposed
   * cells visited before `bound`, in visiting order.
   */
  ghost predicate ListedBefore(data: array3<int>, blocks: seq<BlockMatrixData>, bound: Coord)
    reads data
  {
    (forall i :: 0 <= i < |blocks| ==>
       Exposed(data, EntryCell(blocks[i])) && blocks[i] == Placement(data, EntryCell(blocks[i])) &&
       Precedes(EntryCell(blocks[i]), bound)) &&
    (forall i, j :: 0 <= i < j < |blocks| ==> Precedes(EntryCell(blocks[i]), EntryCell(blocks[j]))) &&
    (forall c :: Exposed(data, c) && Precedes(c, bound) ==> exists i :: 0 <= i < |blocks| && EntryCell(blocks[i]) == c)
  }

  /** Visiting one cell appends it exactly when it is exposed. */
  lemma VisitStep(data: array3<int>, blocks: seq<BlockMatrixData>, blocks': seq<BlockMatrixData>, c: Coord)
    requires InBounds(data.Length0, data.Length1, data.Length2, c)
    requires ListedBefore(data, blocks, c)
    requires blocks' == if Exposed(data, c) then blocks + [Placement(data, c)] else blocks
    ensures ListedBefore(data, blocks', Coord(c.x, c.y, c.z + 1))
  {
    var next := Coord(c.x, c.y, c.z + 1);
    if Exposed(data, c) {
      assert EntryCell(blocks'[|blocks|]) == c;
      forall d | Exposed(data, d) && Precedes(d, next)
        ensures exists i :: 0 <= i < |blocks'| && EntryCell(blocks'[i]) == d
      {
        if d == c {
          assert EntryCell(blocks'[|blocks|]) == d;
        } else {
          assert Precedes(d, c);
          var i :| 0 <= i < |blocks| && EntryCell(blocks[i]) == d;
          assert EntryCell(blocks'[i]) == d;
        }
      }
    }
  }

  /** Moving the bound past cells that are not in the grid changes nothing. */
  lemma SkipOutside(data: array3<int>, blocks: seq<BlockMatrixData>, a: Coord, b: Coord)
    requires ListedBefore(data, blocks, a)
    requires Precedes(a, b) || a == b
    requires forall c :: InBounds(data.Length0, data.Length1, data.Length2, c) ==> (Precedes(c, a) <==> Precedes(c, b))
    ensures ListedBefore(data, blocks, b)
  {
  }

  /**
   * The visibility test of a solid cell: the six neighbours in an else-if
   * chain (top, bottom, +x, -x, +z, -z), each guarded by its boundary test.
   */
  method HasOpenFace(data: array3<int>, x: int, y: int, z: int) returns (visible: bool)
    requires Solid(data, Coord(x, y, z))
    ensures visible <==> Exposed(data, Coord(x, y, z))
  {
    var width, height, depth := data.Length0, data.Length1, data.Length2;
    visible := false;
    if y == height - 1 || data[x, y + 1, z] == Empty.Id() {
      visible := true;
    } else if y == 0 || data[x, y - 1, z] == Empty.Id() {
      visible := true;
    } else if x == width - 1 || data[x + 1, y, z] == Empty.Id() {
      visible := true;
    } else if x == 0 || data[x - 1, y, z] == Empty.Id() {
      visible := true;
    } else if z == depth - 1 || data[x, y, z + 1] == Empty.Id() {
      visible := true;
    } else if z == 0 || data[x, y, z - 1] == Empty.Id() {
      visible := true;
    }
  }

  /**
   * The body of the culling loops for one cell: an Empty cell is skipped, a
   * solid one is appended exactly when a face is open.
   */
  method VisitCell(data: array3<int>, x: int, y: int, z: int, blocks: seq<BlockMatrixData>)
    returns (blocks': seq<BlockMatrixData>)
    requires InBounds(data.Length0, data.Length1, data.Length2, Coord(x, y, z))
    ensures blocks' == if Exposed(data, Coord(x, y, z)) then blocks + [Placement(data, Coord(x, y, z))] else blocks
  {
    blocks' := blocks;
    var id := data[x, y, z];
    if id != Empty.Id() {
      var visible := HasOpenFace(data, x, y, z);
      if visible {
        blocks' := blocks + [BlockMatrixData(id, Center(Coord(x, y, z)), BlockColor(id))];
      }
    }
  }

  /** The innermost culling loop: the cells (x, y, 0) .. (x, y, depth - 1). */
  method CullRow(data: array3<int>, x: int, y: int, blocks: seq<BlockMatrixData>)
    returns (blocks': seq<BlockMatrixData>)
    requires 0 <= x < data.Length0 && 0 <= y < data.Length1
    requires ListedBefore(data, blocks, Coord(x, y, 0))
    ensures ListedBefore(data, blocks', Coord(x, y + 1, 0))
  {
    var depth := data.Length2;
    blocks' := blocks;
    var z := 0;
    while z < depth
      invariant 0 <= z <= depth
      invariant ListedBefore(data, blocks', Coord(x, y, z))
    {
      ghost var before := blocks';
      blocks' := VisitCell(data, x, y, z, blocks');
      VisitStep(data, before, blocks', Coord(x, y, z));
      z := z + 1;
    }
    SkipOutside(data, blocks', Coord(x, y, depth), Coord(x, y + 1, 0));
  }

  /** Step 3: list every exposed cell in visiting order. */
  method CullHidden(data: array3<int>) returns (blocks: seq<BlockMatrixData>)
    ensures ListsExposed(data, blocks)
  {
    var width, height := data.Length0, data.Length1;
    blocks := [];
    var x := 0;
    while x < width
      invariant 0 <= x <= width
      invariant ListedBefore(data, blocks, Coord(x, 0, 0))
    {
      var y := 0;
      while y < height
        invariant 0 <= y <= height
        invariant ListedBefore(data, blocks, Coord(x, y, 0))
      {
        blocks := CullRow(data, x, y, blocks);
        y := y + 1;
      }
      SkipOutside(data, blocks, Coord(x, height, 0), Coord(x + 1, 0, 0));
      x := x + 1;
    }
    forall c | Exposed(data, c)
      ensures exists i :: 0 <= i < |blocks| && EntryCell(blocks[i]) == c
    {
      assert Precedes(c, Coord(width, 0, 0));
    }
  }

  /** The Grass cell on top of column (x, z) has an entry in `blocks`. */
  ghost predicate SurfaceListed(cfg: Config, blocks: seq<BlockMatrixData>, x: int, z: int)
    requires cfg.terrain.scale != 0.0
  {
    exists i :: 0 <= i < |blocks| && EntryCell(blocks[i]) == Coord(x, ColumnSurface(cfg, x, z), z) &&
                blocks[i].id == Grass.Id()
  }

  /**
   * The whole generation: an all-Empty grid, the terrain columns, and the
   * list of exposed blocks. The surface cell of every column is listed, since
   * the cell above it is Empty or outside the grid.
   */
  method Generate(cfg: Config) returns (data: array3<int>, blocks: seq<BlockMatrixData>)
    requires Generable(cfg)
    ensures fresh(data)
    ensures data.Length0 == cfg.width && data.Length1 == cfg.height && data.Length2 == cfg.depth
    ensures forall x, y, z :: 0 <= x < cfg.width && 0 <= y < cfg.height && 0 <= z < cfg.depth ==>
              data[x, y, z] == TerrainBlock(cfg, Coord(x, y, z)).Id()
    ensures ListsExposed(data, blocks)
    ensures forall x, z :: 0 <= x < cfg.width && 0 <= z < cfg.depth ==> SurfaceListed(cfg, blocks, x, z)
  {
    data := FillEmpty(cfg.width, cfg.height, cfg.depth);
    RaiseColumns(data, cfg);
    blocks := CullHidden(data);
    forall x, z | 0 <= x < cfg.width && 0 <= z < cfg.depth
      ensures SurfaceListed(cfg, blocks, x, z)
    {
      GrassExposed(data, cfg, x, z);
      var c := Coord(x, ColumnSurface(cfg, x, z), z);
      var i :| 0 <= i < |blocks| && EntryCell(blocks[i]) == c;
      assert blocks[i] == Placement(data, c);
    }
  }

  /** In a generated grid, every surface cell is exposed: nothing lies on top of it. */
  lemma GrassExposed(data: array3<int>, cfg: Config, x: int, z: int)
    requires Generable(cfg) && 0 <= x < cfg.width && 0 <= z < cfg.depth
    requires data.Length0 == cfg.width && data.Length1 == cfg.height && data.Length2 == cfg.depth
    requires forall x, y, z :: 0 <= x < cfg.width && 0 <= y < cfg.height && 0 <= z < cfg.depth ==>
               data[x, y, z] == TerrainBlock(cfg, Coord(x, y, z)).Id()
    ensures Exposed(data, Coord(x, ColumnSurface(cfg, x, z), z))
    ensures data[x, ColumnSurface(cfg, x, z), z] == Grass.Id()
  {
    var s := ColumnSurface(cfg, x, z);
    assert data[x, s, z] == Grass.Id();
    if s + 1 < cfg.height {
      assert data[x, s + 1, z] == Empty.Id();
    }
  }
}
