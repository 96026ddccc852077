/**
 * Player-versus-grid collision (src/renderer/src/utils/physics.ts).
 *
 * The player is an upright cylinder of radius 0.4 and height 2 whose eye is
 * 1.9 above its feet; positions are eye positions. `Collides` scans the
 * integer cells under the cylinder's bounding box and reports a hit on the
 * first solid cell that overlaps it vertically and whose unit square is
 * nearer than the radius to the eye's column. `ResolveCollision` moves along
 * X, then Y, then Z, undoing a move and stopping that velocity component
 * whenever the moved position collides.
 *
 * Coordinates are reals; the grid is read through `Grid.World.GetBlock`.
 */
module Collisions {
  import opened Voxel
  import opened Blocks
  import Grid

  const RADIUS: real := 0.4
  const HEIGHT: real := 2.0
  const EYE_HEIGHT: real := 1.9

  /** The height of the player's feet. */
  function BottomY(p: Vec3): real {
    p.y - EYE_HEIGHT
  }

  /** The height of the top of the player's head. */
  function TopY(p: Vec3): real {
    BottomY(p) + HEIGHT
  }

  /** Cell (x, y, z) lies in the floored bounding box the scan visits. */
  predicate InBox(p: Vec3, x: int, y: int, z: int) {
    (p.x - RADIUS).Floor <= x <= (p.x + RADIUS).Floor &&
    BottomY(p).Floor <= y <= TopY(p).Floor &&
    (p.z - RADIUS).Floor <= z <= (p.z + RADIUS).Floor
  }

  /** The grid has a non-empty block at (x, y, z). */
  predicate Solid(world: Grid.World, x: int, y: int, z: int)
    reads world, world.data
    requires world.Valid()
  {
    var block := world.GetBlock(x, y, z);
    block.Some? && block.value.id != Empty.Id()
  }

  /**
   * The unit cell at (x, y, z) overlaps the player at `p`: its layer meets
   * the player's height range, and the point of its square nearest to the
   * eye's column is within the radius.
   */
  predicate Overlaps(p: Vec3, x: int, y: int, z: int) {
    BottomY(p) < y as real + 1.0 && TopY(p) > y as real && WithinRadius(p.x, p.z, x, z)
  }

  /**
   * The point of the unit square at (x, z) nearest to the column through
   * (px, pz) lies within the radius of it.
   */
  predicate WithinRadius(px: real, pz: real, x: int, z: int) {
    var dx := px - Clamp(px, x as real, x as real + 1.0);
    var dz := pz - Clamp(pz, z as real, z as real + 1.0);
    dx * dx + dz * dz < RADIUS * RADIUS
  }

  /** The cell at (x, y, z) stops the player at `p`. */
  predicate Hit(world: Grid.World, p: Vec3, x: int, y: int, z: int)
    reads world, world.data
    requires world.Valid()
  {
    Solid(world, x, y, z) && Overlaps(p, x, y, z)
  }

  /** What the scan reports: some cell of the box stops the player. */
  ghost predicate CollidesAt(world: Grid.World, p: Vec3)
    reads world, world.data
    requires world.Valid()
  {
    exists x: int, y: int, z: int :: InBox(p, x, y, z) && Hit(world, p, x, y, z)
  }

  /** Any real at or above the radius squares to at least the radius squared. */
  lemma SquareAtLeast(a: real)
    requires a >= RADIUS || a <= -RADIUS
    ensures a * a >= RADIUS * RADIUS
  {
    if a >= RADIUS {
      assert a * a >= RADIUS * a;
    } else {
      assert a * a >= RADIUS * -a;
    }
  }

  /** A cell beyond the box horizontally is at least a radius from the eye's column. */
  lemma FarColumn(c: real, x: int)
    requires x > (c + RADIUS).Floor || x < (c - RADIUS).Floor
    ensures var dx := c - Clamp(c, x as real, x as real + 1.0); dx * dx >= RADIUS * RADIUS
  {
    var dx := c - Clamp(c, x as real, x as real + 1.0);
    if x > (c + RADIUS).Floor {
      assert x as real > c + RADIUS;
      assert dx == c - x as real;
    } else {
      assert x as real + 1.0 <= c - RADIUS;
      assert dx == c - (x as real + 1.0);
    }
    SquareAtLeast(dx);
  }

  /**
   * The box loses nothing: a cell anywhere in the grid that overlaps the
   * player lies inside the box, so `CollidesAt` is exactly "some solid cell
   * overlaps the player".
   */
  lemma BoxCoversOverlaps(p: Vec3, x: int, y: int, z: int)
    requires Overlaps(p, x, y, z)
    ensures InBox(p, x, y, z)
  {
    var dx := p.x - Clamp(p.x, x as real, x as real + 1.0);
    var dz := p.z - Clamp(p.z, z as real, z as real + 1.0);
    assert dx * dx >= 0.0 && dz * dz >= 0.0;
    if x > (p.x + RADIUS).Floor || x < (p.x - RADIUS).Floor {
      FarColumn(p.x, x);
      assert false;
    }
    if z > (p.z + RADIUS).Floor || z < (p.z - RADIUS).Floor {
      FarColumn(p.z, z);
      assert false;
    }
  }

  /** `CollidesAt` holds exactly when some solid cell, wherever it is, overlaps the player. */
  lemma CollidesAtAnyCell(world: Grid.World, p: Vec3, x: int, y: int, z: int)
    requires world.Valid()
    requires Hit(world, p, x, y, z)
    ensures CollidesAt(world, p)
  {
    BoxCoversOverlaps(p, x, y, z);
  }

  /** The eye positions at which the player would collide with the grid. */
  ghost function Obstacles(world: Grid.World): iset<Vec3>
    reads world, world.data
    requires world.Valid()
  {
    iset p | CollidesAt(world, p)
  }

  /** One coordinate moved by its velocity component over `delta` seconds. */
  function Advance(c: real, vc: real, delta: real): real {
    c + vc * delta
  }

  /** The obstacles stay the same while the grid does. */
  twostate lemma ObstaclesUnchanged(world: Grid.World)
    requires old(world.Valid()) && unchanged(world) && unchanged(world.data)
    ensures world.Valid() && Obstacles(world) == old(Obstacles(world))
  {
  }

  /** The outcome of one collision-resolved move. */
  datatype Outcome = Outcome(position: Vec3, velocity: Vec3, onGround: bool)

  /**
   * The move `ResolveCollision` makes among the positions `blocked`: X first,
   * then Y from the accepted X, then Z from the accepted X and Y. A step that
   * lands in `blocked` is undone and its velocity component zeroed; the
   * player lands when the Y step is blocked while falling.
   */
  ghost function Resolve(blocked: iset<Vec3>, p: Vec3, v: Vec3, delta: real): (r: Outcome)
    ensures r.onGround ==> v.y < 0.0 && r.velocity.y == 0.0 && r.position.y == p.y
    ensures r.velocity.x == v.x || r.velocity.x == 0.0
    ensures r.velocity.y == v.y || r.velocity.y == 0.0
    ensures r.velocity.z == v.z || r.velocity.z == 0.0
  {
    var tryX := Vec3(Advance(p.x, v.x, delta), p.y, p.z);
    var hitX := tryX in blocked;
    var x := if hitX then p.x else tryX.x;
    var tryY := Vec3(x, Advance(p.y, v.y, delta), p.z);
    var hitY := tryY in blocked;
    var y := if hitY then p.y else tryY.y;
    var tryZ := Vec3(x, y, Advance(p.z, v.z, delta));
    var hitZ := tryZ in blocked;
    var z := if hitZ then p.z else tryZ.z;
    Outcome(Vec3(x, y, z),
            Vec3(if hitX then 0.0 else v.x, if hitY then 0.0 else v.y, if hitZ then 0.0 else v.z),
            hitY && v.y < 0.0)
  }

  /**
   * `Resolve` step by step: the X step is blocked or not, the Y step is tried
   * from the X coordinate that step left, and the Z step from both.
   */
  lemma ResolveStages(blocked: iset<Vec3>, p: Vec3, v: Vec3, delta: real, hitX: bool, hitY: bool, hitZ: bool)
    requires hitX == (Vec3(Advance(p.x, v.x, delta), p.y, p.z) in blocked)
    requires hitY == (Vec3(if hitX then p.x else Advance(p.x, v.x, delta), Advance(p.y, v.y, delta), p.z) in blocked)
    requires hitZ == (Vec3(if hitX then p.x else Advance(p.x, v.x, delta), if hitY then p.y else Advance(p.y, v.y, delta),
                           Advance(p.z, v.z, delta)) in blocked)
    ensures Resolve(blocked, p, v, delta) ==
            Outcome(Vec3(if hitX then p.x else Advance(p.x, v.x, delta),
                         if hitY then p.y else Advance(p.y, v.y, delta),
                         if hitZ then p.z else Advance(p.z, v.z, delta)),
                    Vec3(if hitX then 0.0 else v.x, if hitY then 0.0 else v.y, if hitZ then 0.0 else v.z),
                    hitY && v.y < 0.0)
  {
  }

  /** With no step blocked, the player moves by `velocity * delta` and keeps its velocity. */
  lemma ResolveFree(blocked: iset<Vec3>, p: Vec3, v: Vec3, delta: real)
    requires Vec3(Advance(p.x, v.x, delta), p.y, p.z) !in blocked
    requires Vec3(Advance(p.x, v.x, delta), Advance(p.y, v.y, delta), p.z) !in blocked
    requires Vec3(Advance(p.x, v.x, delta), Advance(p.y, v.y, delta), Advance(p.z, v.z, delta)) !in blocked
    ensures Resolve(blocked, p, v, delta) ==
            Outcome(Vec3(Advance(p.x, v.x, delta), Advance(p.y, v.y, delta), Advance(p.z, v.z, delta)), v, false)
  {
  }

  /**
   * Each axis either moves by its full step and keeps its velocity, or stays
   * where it was with that velocity component stopped.
   */
  lemma ResolveAxes(blocked: iset<Vec3>, p: Vec3, v: Vec3, delta: real)
    ensures var r := Resolve(blocked, p, v, delta);
            ((r.position.x == p.x + v.x * delta && r.velocity.x == v.x) || (r.position.x == p.x && r.velocity.x == 0.0)) &&
            ((r.position.y == p.y + v.y * delta && r.velocity.y == v.y) || (r.position.y == p.y && r.velocity.y == 0.0)) &&
            ((r.position.z == p.z + v.z * delta && r.velocity.z == v.z) || (r.position.z == p.z && r.velocity.z == 0.0))
  {
  }

  /**
   * The player is on the ground after the move exactly when it was falling
   * and its fall was stopped; a landing keeps the height it started at.
   */
  lemma ResolveGround(blocked: iset<Vec3>, p: Vec3, v: Vec3, delta: real)
    ensures var r := Resolve(blocked, p, v, delta);
            r.onGround <==> v.y < 0.0 && r.velocity.y == 0.0
    ensures var r := Resolve(blocked, p, v, delta);
            r.onGround ==> r.position.y == p.y
  {
  }

  /** A player that starts outside `blocked` ends the move outside it. */
  lemma ResolveStaysClear(blocked: iset<Vec3>, p: Vec3, v: Vec3, delta: real)
    requires p !in blocked
    ensures Resolve(blocked, p, v, delta).position !in blocked
  {
  }

  /** The three.js vector: a mutable triple of coordinates. */
  class Vector3 {
    var x: real
    var y: real
    var z: real

    constructor(x: real, y: real, z: real)
      ensures this.x == x && this.y == y && this.z == z
    {
      this.x := x;
      this.y := y;
      this.z := z;
    }

    /** The coordinates as a value. */
    function Value(): Vec3
      reads this
    {
      Vec3(x, y, z)
    }

    /** A new vector with the same coordinates. */
    method Clone() returns (c: Vector3)
      ensures fresh(c) && c.Value() == Value()
    {
      c := new Vector3(x, y, z);
    }
  }

  class Physics {
    var gravity: real
    var onGround: bool
    const world: Grid.World

    constructor(world: Grid.World)
      ensures this.world == world && gravity == 32.0 && !onGround
    {
      gravity := 32.0;
      onGround := false;
      this.world := world;
    }

    /**
     * Scans the box in x, y, z order and stops at the first cell that stops
     * the player; empty and out-of-grid cells are skipped.
     */
    method Collides(position: Vector3) returns (hit: bool)
      requires world.Valid()
      ensures hit == CollidesAt(world, position.Value())
      ensures hit <==> position.Value() in Obstacles(world)
    {
      ghost var p := position.Value();
      var bottomY := position.y - EYE_HEIGHT;
      var topY := bottomY + HEIGHT;

      var minX := (position.x - RADIUS).Floor;
      var maxX := (position.x + RADIUS).Floor;
      var minY := bottomY.Floor;
      var maxY := topY.Floor;
      var minZ := (position.z - RADIUS).Floor;
      var maxZ := (position.z + RADIUS).Floor;

      var x := minX;
      while x <= maxX
        invariant minX <= x
        invariant forall i, j, k :: minX <= i < x && minY <= j <= maxY && minZ <= k <= maxZ ==> !Hit(world, p, i, j, k)
      {
        var y := minY;
        while y <= maxY
          invariant minY <= y
          invariant forall i, j, k :: minX <= i < x && minY <= j <= maxY && minZ <= k <= maxZ ==> !Hit(world, p, i, j, k)
          invariant forall j, k :: minY <= j < y && minZ <= k <= maxZ ==> !Hit(world, p, x, j, k)
        {
          var z := minZ;
          while z <= maxZ
            invariant minZ <= z
            invariant forall i, j, k :: minX <= i < x && minY <= j <= maxY && minZ <= k <= maxZ ==> !Hit(world, p, i, j, k)
            invariant forall j, k :: minY <= j < y && minZ <= k <= maxZ ==> !Hit(world, p, x, j, k)
            invariant forall k :: minZ <= k < z ==> !Hit(world, p, x, y, k)
          {
            var stops := Stops(position, x, y, z);
            if stops {
              assert InBox(p, x, y, z);
              return true;
            }
            z := z + 1;
          }
          y := y + 1;
        }
        x := x + 1;
      }
      return false;
    }

    /**
     * The body of the scan for one cell: empty and out-of-grid cells are
     * skipped, then the vertical overlap and the circle-against-square test.
     */
    method Stops(position: Vector3, x: int, y: int, z: int) returns (stops: bool)
      requires world.Valid()
      ensures stops == Hit(world, position.Value(), x, y, z)
    {
      var bottomY := position.y - EYE_HEIGHT;
      var topY := bottomY + HEIGHT;
      var block := world.GetBlock(x, y, z);
      if block.None? || block.value.id == Empty.Id() {
        return false;
      }

      // Check vertical overlap
      if bottomY < y as real + 1.0 && topY > y as real {
        // Check horizontal overlap (circle against square)
        var closestX := Clamp(position.x, x as real, x as real + 1.0);
        var closestZ := Clamp(position.z, z as real, z as real + 1.0);

        var dx := position.x - closestX;
        var dz := position.z - closestZ;

        if dx * dx + dz * dz < RADIUS * RADIUS {
          return true;
        }
      }
      return false;
    }

    /**
     * Moves from `position` by `velocity * delta` one axis at a time, on a
     * copy: the caller's position is not changed, the velocity components of
     * blocked axes are set to 0, and `onGround` records a stopped fall.
     */
    method ResolveCollision(position: Vector3, velocity: Vector3, delta: real) returns (next: Vector3)
      requires world.Valid()
      modifies this, velocity
      ensures fresh(next) && gravity == old(gravity)
      ensures Outcome(next.Value(), velocity.Value(), onGround) ==
              Resolve(old(Obstacles(world)), old(position.Value()), old(velocity.Value()), delta)
      ensures position != velocity ==> position.Value() == old(position.Value())
    {
      ghost var p, v, blocked := position.Value(), velocity.Value(), Obstacles(world);
      onGround := false;
      var originalPos := position.Clone();
      var nextPos := position.Clone();

      // Try moving X
      nextPos.x := Advance(nextPos.x, velocity.x, delta);
      var hit := Collides(nextPos);
      ghost var hitX := hit;
      ObstaclesUnchanged(world);
      assert hitX == (Vec3(Advance(p.x, v.x, delta), p.y, p.z) in blocked);
      if hit {
        nextPos.x := originalPos.x;
        velocity.x := 0.0;
      }
      ghost var afterX := nextPos.Value();
      assert afterX.y == p.y && afterX.z == p.z && velocity.y == v.y && velocity.z == v.z;

      // Try moving Y
      nextPos.y := Advance(nextPos.y, velocity.y, delta);
      assert nextPos.Value() == Vec3(afterX.x, Advance(p.y, v.y, delta), p.z);
      hit := Collides(nextPos);
      ghost var hitY := hit;
      ObstaclesUnchanged(world);
      assert hitY == (Vec3(afterX.x, Advance(p.y, v.y, delta), p.z) in blocked);
      if hit {
        if velocity.y < 0.0 {
          onGround := true;
        }
        nextPos.y := originalPos.y;
        velocity.y := 0.0;
      }
      ghost var afterY := nextPos.Value();
      assert afterY.z == p.z && velocity.z == v.z;

      // Try moving Z
      nextPos.z := Advance(nextPos.z, velocity.z, delta);
      assert nextPos.Value() == Vec3(afterY.x, afterY.y, Advance(p.z, v.z, delta));
      hit := Collides(nextPos);
      ghost var hitZ := hit;
      ObstaclesUnchanged(world);
      assert hitZ == (Vec3(afterY.x, afterY.y, Advance(p.z, v.z, delta)) in blocked);
      if hit {
        nextPos.z := originalPos.z;
        velocity.z := 0.0;
      }

      next := nextPos;
      ResolveStages(blocked, p, v, delta, hitX, hitY, hitZ);
    }
  }
}
