# Platformer physics: a verified model of the per-frame simulation

The game moves one player rectangle under friction and gravity. It collides
the player with a fixed list of static rectangles: four border walls and one
platform. Each frame runs one tick over the player's fields
`{x, y, width, height, speed, velX, velY, jumping, grounded}`:

1. The held arrow keys' intents run, in the order up, right, left (`moveEntity`).
2. `grounded` is reset to false.
3. The player is checked against every obstacle in list order (`collisionCheck`, then `applyCollision`).
4. Friction, gravity and motion are applied (`applyPhysics`).

The project has four modules:

- `Shapes` (shapes.dfy) holds the rectangle, the centre-distance overlap test, the side classification and the push-out.
- `Physics` (physics.dfy) holds the player record as a value (`EntityState`). It has one function per routine: `Intent`, `Integrate`, `Respond`, `Resolve`, `ResolveAll`, `Tick` and `Run`. The lemmas about them live here too.
- `World` (world.dfy) holds the startup configuration for a surface of width `w`, a whole number of pixels. The height is `w * .5` stored into the surface's integer height, so it is ⌊w/2⌋. It also holds two scenario lemmas about the first ticks.
- `Game` (game.dfy) holds the `Entity` class. Its fields are the player's. Its methods update them in place as the routines do. Each method is proved to produce exactly the state that the matching `Physics` function computes.

Numbers are exact `real`s: friction is 0.8 and gravity is 0.3. Obstacles are values, so a collision check cannot change them.

Two behaviours of the code are worth knowing:

- Holding right can push `velX` above `speed`. The step runs while `velX < speed`, and friction makes `velX` fractional. So the bound kept is `speed + 1` (`RightStep`, `LeftStep`, `VelocityBounded`).
- A player resting exactly on a platform does not stay put. Because the overlap test is strict, an exact touch is not a collision. The resting player therefore alternates between falling 0.3 into the floor and being pushed back out (`RestingContactAlternates`).

## Model

| member | source | states |
|---|---|---|
| Shapes.Overlaps | game.js:99-107 | the strict centre-distance test; when it holds, both penetration depths are positive and the combined widths and heights are positive |
| Shapes.Classify | game.js:99-129 | no side (null) exactly when the strict centre-distance test fails; a vertical side only when the horizontal penetration is at least the vertical one (ties go vertical), a horizontal side only when it is smaller |
| Shapes.PushOut | game.js:110-129 | size kept; no overlap means no move; after an overlap the rectangles no longer overlap and touch on the classified side (bottom: y' + A.height = B.y; top: y' = B.y + B.height; left: x' = B.x + B.width; right: x' + A.width = B.x) with the other coordinate unchanged; the move has length min(offsetX, offsetY) > 0 |
| Shapes.OverlapsSymmetric | game.js:99-107 | the overlap test gives the same answer with the two shapes swapped |
| Shapes.OverlapsIffIntervalsIntersect | game.js:99-107 | the centre-distance test equals strict intersection of the spans on both axes (an independent reference definition) |
| Shapes.SharedEdgeIsNoCollision | game.js:107 | rectangles that only share an edge do not collide, and the push-out leaves the mover unchanged |
| Shapes.ClassifiedSide | game.js:113-129 | the side, read from the centres: top iff vertical resolution with A's centre strictly below B's; bottom iff vertical with A's centre not below; left iff horizontal with A's centre strictly right of B's; right otherwise |
| Physics.Intent | game.js:42-62 | position, size and speed never change; only "up" touches velY and the flags; only "right"/"left" touch velX |
| Physics.JumpIsGated | game.js:44-50 | "up" changes the entity iff it is grounded and not jumping; it then sets jumping, clears grounded and sets velY = -2 * speed |
| Physics.RightStep | game.js:51-55 | "right" changes only velX, by 0 or by exactly +1, and by +1 iff velX < speed; below speed + 1 stays below speed + 1 |
| Physics.LeftStep | game.js:56-60 | mirror of RightStep: by 0 or exactly -1, by -1 iff velX > -speed; above -speed - 1 stays above |
| Physics.UnknownDirectionIgnored | game.js:43-61 | any other direction string leaves the entity unchanged |
| Physics.Integrate | game.js:64-70 | velX' = 0.8 * velX, so its magnitude never grows and never changes sign; x advances by the new velX; grounded: velY = 0 and y unchanged; airborne: velY' = velY + 0.3 and y' = y + velY'; flags, speed and size unchanged |
| Physics.Respond | game.js:85-95 | null: no change; left/right zero velX and clear jumping; bottom sets grounded and clears jumping; top negates velY; geometry untouched |
| Physics.Resolve | game.js:97-132 | no overlap: entity unchanged; overlap: no longer overlapping afterwards; grounded afterwards iff before or a bottom contact; jumping is only ever cleared, and a bottom contact clears it; the magnitude of velX never grows |
| Physics.ResolveAll | game.js:146-149 | a pass in list order keeps size and speed, never clears grounded, never sets jumping, ends grounded and jumping only if it started grounded, and never increases the magnitude of velX |
| Physics.GroundedIffBottomContact | game.js:145-149 | from grounded = false, the pass ends grounded iff at least one obstacle was classified bottom |
| Physics.PassWithoutContactIsNoOp | game.js:107 | a pass where no obstacle overlaps leaves the entity unchanged |
| Physics.ReadInput | game.js:136-138 | the intents of the held keys in the order up, right, left: position, size and speed unchanged; without up the flags and velY are unchanged; without right or left velX is unchanged |
| Physics.Tick | game.js:136-150 | input on the previous grounded, the grounded reset, the pass in list order, then integration: size and speed kept, and a grounded entity ends with velY = 0 and not jumping (so the next jump gate is open); further properties in TickGrounded, TickKeepsVelocityBounded and InputReadsPreviousGrounded |
| Physics.InputReadsPreviousGrounded | game.js:136-138 | the input phase jumps on the previous tick's grounded value: jumping' iff jumping or (up and grounded); velY' is -2 * speed if the gate opens, else unchanged; position unchanged |
| Physics.TickGrounded | game.js:136-150 | after a tick the entity is grounded iff this tick's pass had a bottom contact, and then velY = 0 |
| Physics.TickKeepsVelocityBounded | game.js:136-150 | with speed >= 0, -(speed + 1) < velX < speed + 1 holds after a tick if it held before |
| Physics.Run | game.js:135-156 | successive frames, one per held-key set: size and speed kept over any number of frames, and after at least one frame a grounded entity has velY = 0 and is not jumping |
| Physics.RunKeepsVelocityBounded | game.js:135-156 | the bound holds after any number of ticks with any keys |
| Physics.TickWithoutSteeringDecays | game.js:65 | with neither horizontal key held, a tick multiplies the magnitude of velX by at most the friction factor |
| Physics.RunWithoutSteeringDecays | game.js:65 | without steering, after n ticks the magnitude of velX is at most the magnitude of velX damped n times |
| Physics.Damped | game.js:19 | damping a non-negative magnitude by friction any number of times stays between 0 and that magnitude |
| Physics.DampedVanishes | game.js:19 | damping n times gives at most m / (1 + n/4), so velX tends to zero |
| World.Height | game.js:17 | the height is w * .5 truncated to a whole number: h <= w/2 < h + 1 |
| World.Obstacles | game.js:34-39 | five rectangles, all of non-negative size; the body lists the left, bottom, right and top borders and the platform in source order |
| World.Spawn | game.js:22-32 | the player at startup satisfies the horizontal velocity bound |
| World.FirstTickLandsOnFloor | game.js:22-39 | for width >= 40 the first tick with no keys lifts the player onto the top edge of the bottom border and grounds it |
| World.RestingContactAlternates | game.js:107 | a player resting exactly on the floor is airborne after the next tick, 0.3 lower, and back at rest one tick later |
| Game.Entity.constructor | game.js:22-32 | fields equal the startup player |
| Game.Entity.MoveEntity | game.js:42-62 | the fields become Intent of the old fields |
| Game.Entity.ApplyPhysics | game.js:64-70 | the fields become Integrate of the old fields |
| Game.Entity.ApplyCollision | game.js:85-95 | the fields become Respond of the old fields |
| Game.Entity.CollisionCheck | game.js:97-132 | the fields become Resolve of the old fields and the obstacle |
| Game.Entity.Update | game.js:135-150 | the fields become Tick of the old fields, the keys and the obstacle list; the velocity bound is kept |

## Left out

- Frame scheduling (the animation-frame polyfill and the self-rescheduling call) is host scheduling. `Run` stands for a sequence of ticks.
- Canvas drawing (clearing, rectangles, fill colours) is output only and changes no state.
- Keyboard event wiring and the global `keys` array are left out. The held keys are the `Keys` value given to a tick: up (38), right (39) and left (37). Other key codes are never read by the tick.
- The commented-out `checkBounds` routine is dead code.
- IEEE-754 double rounding is abstracted away. Arithmetic is exact over the reals, so 0.8 and 0.3 are exact.
- Reading the surface width from the page is left out. The width is the parameter `w`, a natural number like the surface's own width attribute.
