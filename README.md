# Voxel world core of a Minecraft-style clone, in Dafny

This project models the logic of a small browser voxel game: the block grid and
the code that reads and updates it.

- **Blocks** (`blocks.dfy`). The block catalogue has three tags, Empty = 0, Grass = 1 and Dirt = 2. Grass and Dirt each have a colour; Empty has none. The lookup falls back to white for Empty and for unknown ids.
- **Voxel** (`voxel.dfy`). Geometry shared by both world classes:
  - the bounds test;
  - the x-then-y-then-z numbering of cells and the loop order it follows;
  - the centre-of-cell placement of a block;
  - `clamp`.
- **Terrain** (`terrain.dfy`). The generation pass of the reactive world class, as imperative code over a 3-D array of block ids:
  - The grid is filled with Empty.
  - Each column is raised to a surface height taken from the noise sample. Cells below it become Dirt and the surface cell becomes Grass.
  - Every solid cell with an Empty or out-of-grid neighbour is listed, in loop order, with its centre and colour.
- **Grid** (`grid.dfy`). The older grid class `World`, with bounds-checked `GetBlock`, `SetBlockId` and `SetBlockInstanceId`. It also provides:
  - random terrain, driven by a sequence of draws;
  - the numbering pass, which gives every cell its index as instance id and lists the non-empty cells.
- **Collisions** (`physics.dfy`). The player is a cylinder of radius 0.4 and height 2.
  - `Collides` scans the cells under the player's bounding box.
  - `ResolveCollision` moves along X, then Y, then Z. A blocked step is undone and its velocity component zeroed. `onGround` records a stopped fall.
  - The outcome is specified by a function of the set of blocked positions.
- **Rng** (`rng.dfy`). The Mulberry32 generator: a seed advanced by `0x6d2b79f5`, then a 32-bit xor-shift/multiply mix (`bv32`), then division by 2^32.
- **Player** (`player.dfy`). The keyboard state machine of the first-person controller:
  - six movement flags and a sprint toggle;
  - the per-frame integer heading;
  - the sprint acceleration choice.

The source's `physics.ts` declares its world as the reactive world type. That type has no `getBlock`, which only `world.ts` defines. The model therefore reads the grid through `Grid.World.GetBlock`, which is what the call at `physics.ts:31` names.

## Model

| member | source | states |
|---|---|---|
| Blocks.FromId | src/renderer/src/utils/blocks.ts:3-7 | an id names a tag exactly when it is 0, 1 or 2, and the tag found has that id |
| Blocks.IdRoundTrip | src/renderer/src/utils/blocks.ts:3-7 | Empty = 0, Grass = 1, Dirt = 2 are distinct: every tag is recovered from its id |
| Blocks.CatalogueWellFormed | src/renderer/src/utils/blocks.ts:15-19 | every catalogue entry is stored under its own id, and Empty is the only entry without a colour |
| Blocks.BlockColor | src/renderer/src/utils/blocks.ts:21-27 | Grass is 0x3fab24 and Dirt is 0x5e4123; Empty and every unknown id fall back to white 0xffffff |
| Voxel.InBounds | src/renderer/src/utils/world.svelte.ts:159-161 | the bounds test; every cell it admits has a numbering slot in [0, width*height*depth) |
| Voxel.IndexOrder | src/renderer/src/utils/world.ts:55-61 | among in-bounds cells, loop order and the running-counter numbering agree, and the numbering is injective |
| Voxel.IndexIncreasing | src/renderer/src/utils/world.ts:56-60 | a cell visited earlier by the x/y/z loops gets a smaller counter value |
| Voxel.IndexCarry | src/renderer/src/utils/world.ts:56-60 | finishing a z row or a y slice moves the counter on by exactly one |
| Voxel.Center | src/renderer/src/utils/world.svelte.ts:135-136 | a block is placed at the centre of its own cell: the placement floors back to the cell |
| Voxel.Clamp | src/renderer/src/utils/world.svelte.ts:87 | for lo <= hi the result lies in [lo, hi]: the input itself when it is already there, lo when it is at or below lo, hi when it is at or above hi; when hi < lo the result is lo, as max(lo, min(v, hi)) gives |
| Terrain.ColumnSurface | src/renderer/src/utils/world.svelte.ts:83-87 | the surface height of column (x, z), from the noise at (x/scale, z/scale), lies in [0, height-1] for a grid with at least one layer |
| Terrain.TerrainBlock | src/renderer/src/utils/world.svelte.ts:90-98 | a cell is Grass exactly at its column's surface, Dirt exactly below it and Empty exactly above it |
| Terrain.Exposed | src/renderer/src/utils/world.svelte.ts:113-131 | a cell is listed when it is solid and one of its six neighbours is Empty or outside the grid (definition; the loop is tied to it by Terrain.HasOpenFace) |
| Terrain.ExposedAtBoundary | src/renderer/src/utils/world.svelte.ts:121-131 | a solid cell on any face of the grid is always exposed, because the boundary tests come first in each branch |
| Terrain.SurfaceHeight | src/renderer/src/utils/world.svelte.ts:85-87 | for any noise sample, the surface height lies in [0, height-1] |
| Terrain.OneGrassPerColumn | src/renderer/src/utils/world.svelte.ts:87-93 | each column holds exactly one Grass cell, at its surface height |
| Terrain.ColumnProfile | src/renderer/src/utils/world.svelte.ts:90-98 | a column is solid exactly up to its surface, and the cell above the Grass cell is Empty |
| Terrain.FillEmpty | src/renderer/src/utils/world.svelte.ts:64-74 | a fresh width x height x depth grid whose every cell is Empty |
| Terrain.RaiseColumns | src/renderer/src/utils/world.svelte.ts:80-101 | afterwards each cell is Dirt below its column's surface, Grass on it and Empty above; the y loop runs to height inclusive yet never writes outside the grid |
| Terrain.HasOpenFace | src/renderer/src/utils/world.svelte.ts:116-131 | the else-if chain reports visible exactly when one of the six neighbours is out of the grid or Empty |
| Terrain.VisitCell | src/renderer/src/utils/world.svelte.ts:111-141 | visiting one cell appends its entry (id, centre, colour) exactly when the cell is exposed, and leaves the list alone otherwise |
| Terrain.CullRow | src/renderer/src/utils/world.svelte.ts:110-142 | the z loop extends the list from the exposed cells before row (x, y) to those before the next row |
| Terrain.VisitStep | src/renderer/src/utils/world.svelte.ts:110-141 | visiting one cell keeps the list equal to the exposed cells seen so far, in order |
| Terrain.SkipOutside | src/renderer/src/utils/world.svelte.ts:108-110 | ending a row or a slice adds no cells to those seen so far |
| Terrain.CullHidden | src/renderer/src/utils/world.svelte.ts:108-144 | the list holds exactly the exposed solid cells, each once and in x/y/z order, each with its id, centre placement and catalogue colour; enclosed cells are omitted |
| Terrain.GrassExposed | src/renderer/src/utils/world.svelte.ts:90-98 | in a generated grid every surface cell is Grass and is exposed |
| Terrain.Generate | src/renderer/src/utils/world.svelte.ts:59-147 | the whole generation: grid dimensions, the column profile of every cell, the exposed-cell list, and every column's Grass cell in that list |
| Grid.RandomCell | src/renderer/src/utils/world.ts:43 | a drawn cell has id 0 or 1, no instance id, and is solid exactly when the draw exceeds the threshold |
| Grid.DrawnCell | src/renderer/src/utils/world.ts:38-48 | the cell at a coordinate uses the draw at that cell's position in loop order |
| Grid.NumberStep | src/renderer/src/utils/world.ts:59-72 | numbering one cell appends its entry exactly when its id is not 0 |
| Grid.NumberSkip | src/renderer/src/utils/world.ts:56-58 | ending a row or a slice adds no entries |
| Grid.NumberedIdsIncrease | src/renderer/src/utils/world.ts:55-72 | the listed instance ids strictly increase |
| Grid.World.constructor | src/renderer/src/utils/world.ts:24-31 | stores the dimensions, threshold 0.5, and an empty grid |
| Grid.World.IsInBounds | src/renderer/src/utils/world.ts:88-90 | once generated, the bounds test admits exactly the coordinates the grid has cells for |
| Grid.World.GetBlock | src/renderer/src/utils/world.ts:93-98 | returns nothing exactly when the coordinate is out of bounds, and otherwise the stored cell |
| Grid.World.SetBlockId | src/renderer/src/utils/world.ts:101-106 | no-op out of bounds; in bounds it changes only that cell's id, keeping its instance id and every other cell |
| Grid.World.SetBlockInstanceId | src/renderer/src/utils/world.ts:109-114 | no-op out of bounds; in bounds it changes only that cell's instance id |
| Grid.World.GenerateTerrain | src/renderer/src/utils/world.ts:34-49 | a fresh full grid of the same dimensions; each cell made from its own draw, with id in {0, 1} and no instance id |
| Grid.World.NumberRow | src/renderer/src/utils/world.ts:58-73 | the z loop numbers its row, lists that row's non-empty cells and changes no other row or id |
| Grid.World.NumberPlane | src/renderer/src/utils/world.ts:57-74 | the y loop numbers its slice, lists that slice's non-empty cells and changes no other slice or id |
| Grid.World.GenerateBlockMatrices | src/renderer/src/utils/world.ts:52-77 | every cell, empty or not, gets instance id x*height*depth + y*depth + z with its id kept; the list holds exactly the non-empty cells in x/y/z order with the grid's instance ids, strictly increasing |
| Grid.World.GenerateWorld | src/renderer/src/utils/world.ts:80-83 | random terrain followed by numbering: each cell is its drawn cell with its index as instance id, and the list is as for the numbering pass |
| Collisions.BoxCoversOverlaps | src/renderer/src/utils/physics.ts:21-26 | the floored scan box loses nothing: every cell that overlaps the player lies inside it |
| Collisions.CollidesAt | src/renderer/src/utils/physics.ts:28-52 | the scan's answer: some cell of the bounding box is solid, overlaps vertically and lies within the radius horizontally (definition; Collisions.CollidesAtAnyCell and Collisions.Physics.Collides prove the scan against it) |
| Collisions.CollidesAtAnyCell | src/renderer/src/utils/physics.ts:28-52 | a solid overlapping cell anywhere makes the scan report a collision |
| Collisions.FarColumn | src/renderer/src/utils/physics.ts:39-45 | a column beyond the box is at least a radius from the player |
| Collisions.Physics.constructor | src/renderer/src/utils/physics.ts:7-14 | gravity 32, not on the ground, bound to its world |
| Collisions.Physics.Stops | src/renderer/src/utils/physics.ts:31-47 | the per-cell test: the cell is in the grid and not Empty, overlaps the player's height range, and its square's nearest point is within the radius |
| Collisions.Physics.Collides | src/renderer/src/utils/physics.ts:17-53 | reports a collision exactly when some cell of the box stops the player; false whenever every cell of the box is out of the grid or Empty |
| Collisions.Physics.ResolveCollision | src/renderer/src/utils/physics.ts:56-86 | new position, velocity and onGround are the X-then-Y-then-Z outcome among the grid's obstacles, and the caller's position is not changed |
| Collisions.Resolve | src/renderer/src/utils/physics.ts:56-86 | each velocity component is either kept or zeroed; onGround implies the player was falling, the Y velocity is zeroed and the height is unchanged |
| Collisions.ResolveStages | src/renderer/src/utils/physics.ts:62-85 | each later axis is tried from the coordinates the earlier axes accepted |
| Collisions.ResolveFree | src/renderer/src/utils/physics.ts:62-85 | with no step blocked the player moves by velocity*delta and keeps its velocity, and is not on the ground |
| Collisions.ResolveAxes | src/renderer/src/utils/physics.ts:63-66 | each axis either takes its full step with its velocity kept, or stays put with that velocity component 0 |
| Collisions.ResolveGround | src/renderer/src/utils/physics.ts:57 | onGround holds exactly when the player was falling and the Y step was stopped; a landing keeps the starting height |
| Collisions.ResolveStaysClear | src/renderer/src/utils/physics.ts:56-86 | a player not colliding before the move does not collide after it |
| Collisions.Vector3.Clone | src/renderer/src/utils/physics.ts:58-59 | the clone is a new vector with the same coordinates |
| Rng.RNG.constructor | src/renderer/src/utils/rng.ts:8-10 | the generator starts from the given seed |
| Rng.RNG.Random | src/renderer/src/utils/rng.ts:16-21 | each draw advances the seed by 0x6d2b79f5 and returns the mix of the advanced seed, which lies in [0, 1) |
| Rng.DrawMany | src/renderer/src/utils/rng.ts:16-21 | n successive calls of Random advance the seed by n*0x6d2b79f5 and return exactly the first n elements of the stream of the starting seed |
| Rng.SeedAfterStep | src/renderer/src/utils/rng.ts:17 | one more draw adds one more increment to the seed |
| Rng.DrawsStep | src/renderer/src/utils/rng.ts:17-20 | n+1 draws are the n draws followed by the output for the seed left by them |
| Rng.KnownOutputs | src/renderer/src/utils/rng.ts:18-20 | the scramble of the advanced seeds of seeds 0 and 12345 gives the reference Mulberry32 values 0x4434b462 and 0xfacf78c5 |
| Rng.Mix | src/renderer/src/utils/rng.ts:18-20 | the xor-shift / imul scramble on 32-bit words (definition; reference values in Rng.KnownOutputs) |
| Rng.Output | src/renderer/src/utils/rng.ts:17-20 | a draw from any seed lies in [0, 1) |
| Rng.ToUint32 | src/renderer/src/utils/rng.ts:17-18 | the 32-bit coercion of the seed the bitwise operators apply (definition; Rng.OutputModular proves the draw reads the seed only modulo 2^32) |
| Rng.ToUnit | src/renderer/src/utils/rng.ts:20 | an unsigned 32-bit value divided by 2^32 lies in [0, 1) |
| Rng.OutputModular | src/renderer/src/utils/rng.ts:17-19 | the draw depends on the integer seed only modulo 2^32 |
| Rng.SeedAfterDraws | src/renderer/src/utils/rng.ts:17 | after n draws the seed is seed0 + n*0x6d2b79f5 |
| Rng.StreamAt | src/renderer/src/utils/rng.ts:17-20 | the i-th draw is the output for the seed left by the i draws before it |
| Rng.DrawsAt | src/renderer/src/utils/rng.ts:16-21 | for any output function of the pre-call seed, the i-th of successive draws is the output for the seed left by the i draws before it |
| Rng.DrawsModular | src/renderer/src/utils/rng.ts:17-20 | for any output function that reads the seed modulo 2^32, congruent seeds give the same sequence of draws |
| Rng.StreamModular | src/renderer/src/utils/rng.ts:17-20 | seeds congruent modulo 2^32 give the same sequence of draws |
| Player.KeyDown | src/renderer/src/utils/player.svelte.ts:43-74 | a movement key sets only its own flag; ControlLeft flips sprinting exactly when forward is held; other codes change nothing |
| Player.KeyUp | src/renderer/src/utils/player.svelte.ts:76-103 | a movement key clears only its own flag; releasing KeyW/ArrowUp also clears sprinting; other codes change nothing |
| Player.ReplayKeepsSprintNeedsForward | src/renderer/src/utils/player.svelte.ts:43-103 | from a state where sprinting implies forward, no sequence of key events leads to sprinting without forward |
| Player.ApplyKeepsSprintNeedsForward | src/renderer/src/utils/player.svelte.ts:68-82 | a single key event keeps sprinting tied to forward |
| Player.ReplayAppend | src/renderer/src/utils/player.svelte.ts:43-103 | handling two event sequences in a row is handling their concatenation |
| Player.ReleaseUndoesPress | src/renderer/src/utils/player.svelte.ts:43-103 | a movement key pressed then released ends as if only released |
| Player.KeyUpIdempotent | src/renderer/src/utils/player.svelte.ts:76-103 | releasing a key twice is releasing it once |
| Player.SprintToggleTwice | src/renderer/src/utils/player.svelte.ts:68-72 | pressing ControlLeft twice restores the state |
| Player.ReleaseForwardStopsSprint | src/renderer/src/utils/player.svelte.ts:77-82 | after any events, releasing forward leaves the player neither moving forward nor sprinting |
| Player.Axis | src/renderer/src/utils/player.svelte.ts:109-111 | a heading component is in {-1, 0, 1}: +1 exactly when only the positive flag is held, -1 exactly when only the negative one is |
| Player.HeadingOf | src/renderer/src/utils/player.svelte.ts:109-111 | the heading is right-left, up-down, forward-backward, each in {-1, 0, 1}: a component is 1 exactly when only its positive key is held, -1 exactly when only its negative key is held, and 0 when both or neither are |
| Player.ForwardAcceleration | src/renderer/src/utils/player.svelte.ts:127-130 | doubled when sprinting while forward is held, the base acceleration otherwise |
| Player.SprintDoublesAcceleration | src/renderer/src/utils/player.svelte.ts:127-130 | under the sprint-needs-forward invariant the acceleration is doubled exactly when sprinting |
| Player.PlayerController.constructor | src/renderer/src/utils/player.svelte.ts:6-18 | all flags clear, move speed 10, not locked |
| Player.PlayerController.OnKeyDown | src/renderer/src/utils/player.svelte.ts:43-74 | the flags become KeyDown of the old flags; nothing else changes |
| Player.PlayerController.OnKeyUp | src/renderer/src/utils/player.svelte.ts:76-103 | the flags become KeyUp of the old flags; nothing else changes |
| Player.PlayerController.Update | src/renderer/src/utils/player.svelte.ts:105-130 | nothing changes unless locked; otherwise the heading is recomputed from the flags and the selected forward acceleration is returned |

## Left out

- The simplex noise library: generation takes the noise as a function parameter of the configuration, seeded in the source by `RNG(terrain.seed)`.
- `Math.random()`: the draws of `world.ts` terrain are a sequence parameter, one per cell in loop order. The default seeds of `rng.ts` and of the reactive world's terrain are not modelled.
- Rng.RNG.constructor: the seed is an integer. A fractional JavaScript seed, which the default `Math.random()` gives, and the 2^53 precision limit of the growing seed are not modelled.
- IEEE-754 rounding: coordinates, velocities and the clamp/floor arithmetic of generation and physics use exact reals.
- Svelte reactivity: `$state`/`$derived` are not modelled. The reactive world's generation is `Terrain.Generate` on an explicit configuration.
- The reactive world's constructor and parameter defaults (`world.svelte.ts:34-55`) are not modelled, and neither are its `data`/`matrices` getters.
- `Matrix4` and `Color` objects: an instance matrix is its translation, and a colour is its 24-bit hex value.
- Terrain.Generate: requires a non-zero terrain scale and, for a grid with columns, at least one layer. With height 0 the source's surface write lands outside the grid array and throws. With scale 0 the noise is sampled at non-finite coordinates.
- Grid.World.GetBlock: returns the cell by value. The source returns the stored object, which a caller could mutate; the source's own callers do not.
- Grid.World.GetBlock, Grid.World.SetBlockId, Grid.World.SetBlockInstanceId and Grid.World.GenerateBlockMatrices require a generated grid (`Valid`). On a freshly constructed world the source indexes an empty array and throws.
- Collisions.Physics.Collides requires a generated grid, for the same reason.
- Collisions.Physics.ResolveCollision: the outcome is stated against the obstacles of the grid before the call. The grid is not changed during the call.
- Grid dimensions are natural numbers. Negative or fractional dimensions are not modelled.
- `gravity` is only stored, since nothing in the code reads it.
- The continuous part of `PlayerController.update`: damping, the FOV easing, `normalize`, the velocity integration and the pointer-lock movement. Also `getPosition` rounding, `init`/`dispose`/`lock` and the `delta` argument. `locked` stands for `controls?.isLocked`.
- `Grid.World.NumberRow`/`NumberPlane`, `Collisions.Physics.Stops`, `Terrain.CullRow`, `Terrain.VisitCell` and `Terrain.HasOpenFace` are loops and loop bodies of the source's methods, written as separate methods.
- Textures, UI wiring and the leaf-image script are outside the modelled core.
