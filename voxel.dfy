/**
 * Grid geometry shared by both world classes: the bounds test, the x-then-y-then-z
 * numbering of cells, the order the generators visit cells in, and the
 * placement of a block at the centre of its cell.
 */
module Voxel {

  /** An integer cell coordinate. */
  datatype Coord = Coord(x: int, y: int, z: int)

  /** Number of cells in a width x height x depth grid. */
  function Volume(width: int, height: int, depth: int): int {
    width * (height * depth)
  }

  /** Position of a cell in the x-then-y-then-z enumeration of the grid. */
  function Index(height: int, depth: int, c: Coord): int {
    c.x * (height * depth) + c.y * depth + c.z
  }

  /**
   * The bounds test `isInBounds`; every cell it admits has a slot in the
   * enumeration of the grid's cells.
   */
  predicate InBounds(width: int, height: int, depth: int, c: Coord)
    ensures InBounds(width, height, depth, c) ==> 0 <= Index(height, depth, c) < Volume(width, height, depth)
  {
    var r := 0 <= c.x < width && 0 <= c.y < height && 0 <= c.z < depth;
    if r then IndexInSlab(height, depth, c); MulMonotone(c.x + 1, width, height * depth); r else r
  }

  /** Finishing a row of z, or a slice of y, moves the index on by exactly one. */
  lemma IndexCarry(height: int, depth: int, x: int, y: int)
    ensures Index(height, depth, Coord(x, y, depth)) == Index(height, depth, Coord(x, y + 1, 0))
    ensures Index(height, depth, Coord(x, height, 0)) == Index(height, depth, Coord(x + 1, 0, 0))
  {
    assert (y + 1) * depth == y * depth + depth;
    assert (x + 1) * (height * depth) == x * (height * depth) + height * depth;
  }

  /** The order in which the nested x, y, z loops visit cells. */
  predicate Precedes(a: Coord, b: Coord) {
    a.x < b.x || (a.x == b.x && (a.y < b.y || (a.y == b.y && a.z < b.z)))
  }

  lemma MulMonotone(a: int, b: int, k: int)
    requires a <= b && 0 <= k
    ensures a * k <= b * k
  {
  }

  /** A cell's index lies in the slab of its x coordinate. */
  lemma IndexInSlab(height: int, depth: int, c: Coord)
    requires 0 <= c.y < height && 0 <= c.z < depth
    ensures c.x * (height * depth) <= Index(height, depth, c) < (c.x + 1) * (height * depth)
  {
    MulMonotone(c.y + 1, height, depth);
    assert c.y * depth + c.z < (c.y + 1) * depth;
  }

  /** A cell visited earlier has a smaller index. */
  lemma IndexIncreasing(height: int, depth: int, a: Coord, b: Coord)
    requires 0 <= a.y < height && 0 <= a.z < depth && 0 <= b.y < height && 0 <= b.z < depth
    requires Precedes(a, b)
    ensures Index(height, depth, a) < Index(height, depth, b)
  {
    IndexInSlab(height, depth, a);
    IndexInSlab(height, depth, b);
    if a.x < b.x {
      MulMonotone(a.x + 1, b.x, height * depth);
    } else if a.y < b.y {
      MulMonotone(a.y + 1, b.y, depth);
      assert a.y * depth + a.z < (a.y + 1) * depth;
    }
  }

  /**
   * Visiting order and numbering agree: one in-bounds cell is visited before
   * another exactly when its index is smaller. In particular the index is
   * injective on the grid.
   */
  lemma IndexOrder(width: int, height: int, depth: int, a: Coord, b: Coord)
    requires InBounds(width, height, depth, a) && InBounds(width, height, depth, b)
    ensures Precedes(a, b) <==> Index(height, depth, a) < Index(height, depth, b)
    ensures a == b <==> Index(height, depth, a) == Index(height, depth, b)
  {
    if Precedes(a, b) {
      IndexIncreasing(height, depth, a, b);
    } else if Precedes(b, a) {
      IndexIncreasing(height, depth, b, a);
    } else {
      assert a == b;
    }
  }

  /**
   * A point or displacement in world space; as a block's placement, the
   * translation of its instance matrix (the only part the generators set).
   */
  datatype Vec3 = Vec3(x: real, y: real, z: real)

  /** The placement of a block: the centre of its unit cell. */
  function Center(c: Coord): (t: Vec3)
    ensures CellOf(t) == c
    ensures c.x as real < t.x < c.x as real + 1.0
  {
    Vec3(c.x as real + 0.5, c.y as real + 0.5, c.z as real + 0.5)
  }

  /** The cell a point lies in. */
  function CellOf(t: Vec3): Coord {
    Coord(t.x.Floor, t.y.Floor, t.z.Floor)
  }

  /** The three.js `clamp`: `max(lo, min(hi, v))`. */
  function Clamp(v: real, lo: real, hi: real): (r: real)
    ensures lo <= hi ==> lo <= r <= hi
    ensures lo <= v <= hi ==> r == v
    ensures v <= lo ==> r == lo
    ensures lo <= hi <= v ==> r == hi
    ensures hi < lo ==> r == lo
  {
    var m := if hi < v then hi else v;
    if lo > m then lo else m
  }
}
