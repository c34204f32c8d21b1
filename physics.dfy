/** The player record as a value, and the effect of each per-frame routine
    on it: input intent, collision response, collision check against one and
    against every obstacle, integration, and the whole tick. The class in
    game.dfy is proved to perform exactly these state changes. */
module Physics {
  import opened Shapes

  const Friction: real := 0.8
  const Gravity: real := 0.3

  /** A snapshot of the mutable entity `{x, y, width, height, speed, velX,
      velY, jumping, grounded}`; `box` holds the first four fields. */
  datatype EntityState = EntityState(
    box: Rect, speed: real, velX: real, velY: real, jumping: bool, grounded: bool)

  /** The arrow keys held during a tick. */
  datatype Keys = Keys(up: bool, right: bool, left: bool)

  // ---------------------------------------------------------------------
  // Input intent (moveEntity)

  /** The entity after the intent `direction`; an unknown direction does nothing. */
  function Intent(e: EntityState, direction: string): (r: EntityState)
    ensures r.box == e.box && r.speed == e.speed
    ensures direction != "up" ==>
              r.velY == e.velY && r.jumping == e.jumping && r.grounded == e.grounded
    ensures direction != "right" && direction != "left" ==> r.velX == e.velX
  {
    if direction == "up" then
      if !e.jumping && e.grounded then
        e.(jumping := true, grounded := false, velY := -e.speed * 2.0)
      else e
    else if direction == "right" then
      if e.velX < e.speed then e.(velX := e.velX + 1.0) else e
    else if direction == "left" then
      if e.velX > -e.speed then e.(velX := e.velX - 1.0) else e
    else e
  }

  /** A jump happens exactly when the entity is grounded and not already
      jumping; it then leaves the ground with an upward impulse of twice its speed. */
  lemma JumpIsGated(e: EntityState)
    ensures Intent(e, "up") != e <==> !e.jumping && e.grounded
    ensures Intent(e, "up") != e ==>
              Intent(e, "up") == e.(jumping := true, grounded := false, velY := -2.0 * e.speed)
  {
  }

  /** "right" adds exactly one unit while velX is below speed and nothing
      otherwise, so from below speed + 1 it stays below speed + 1. */
  lemma RightStep(e: EntityState)
    ensures Intent(e, "right") == e.(velX := Intent(e, "right").velX)
    ensures Intent(e, "right").velX == e.velX || Intent(e, "right").velX == e.velX + 1.0
    ensures Intent(e, "right").velX != e.velX <==> e.velX < e.speed
    ensures e.velX < e.speed + 1.0 ==> Intent(e, "right").velX < e.speed + 1.0
  {
  }

  /** The mirror image of RightStep. */
  lemma LeftStep(e: EntityState)
    ensures Intent(e, "left") == e.(velX := Intent(e, "left").velX)
    ensures Intent(e, "left").velX == e.velX || Intent(e, "left").velX == e.velX - 1.0
    ensures Intent(e, "left").velX != e.velX <==> e.velX > -e.speed
    ensures e.velX > -e.speed - 1.0 ==> Intent(e, "left").velX > -e.speed - 1.0
  {
  }

  /** Any direction other than the three known ones is ignored. */
  lemma UnknownDirectionIgnored(e: EntityState, direction: string)
    requires direction != "up" && direction != "right" && direction != "left"
    ensures Intent(e, direction) == e
  {
  }

  // ---------------------------------------------------------------------
  // Integration (applyPhysics)

  /** The entity after friction, gravity and one step of motion. Friction
      never increases the horizontal speed nor flips its direction; a
      grounded entity stays at its height with no vertical velocity. */
  function Integrate(e: EntityState): (r: EntityState)
    ensures r.speed == e.speed && r.jumping == e.jumping && r.grounded == e.grounded
    ensures r.box.width == e.box.width && r.box.height == e.box.height
    ensures r.velX == Friction * e.velX
    ensures Abs(r.velX) <= Abs(e.velX)
    ensures (r.velX > 0.0 <==> e.velX > 0.0) && (r.velX < 0.0 <==> e.velX < 0.0)
    ensures r.box.x == e.box.x + r.velX
    ensures e.grounded ==> r.velY == 0.0 && r.box.y == e.box.y
    ensures !e.grounded ==> r.velY == e.velY + Gravity && r.box.y == e.box.y + r.velY
  {
    var velX := e.velX * Friction;
    var velY := if e.grounded then 0.0 else e.velY + Gravity;
    e.(velX := velX, velY := velY,
       box := e.box.(x := e.box.x + velX, y := e.box.y + velY))
  }

  // ---------------------------------------------------------------------
  // Collision response (applyCollision) and check (collisionCheck)

  /** The entity after the response to a contact on `side` (None: no contact). */
  function Respond(e: EntityState, side: Option<Side>): (r: EntityState)
    ensures r.box == e.box && r.speed == e.speed
    ensures side == None ==> r == e
    ensures r.grounded <==> e.grounded || side == Some(Bottom)
    ensures r.jumping <==> e.jumping && (side == None || side == Some(Top))
    ensures side == Some(Left) || side == Some(Right) ==> r.velX == 0.0
    ensures side != Some(Left) && side != Some(Right) ==> r.velX == e.velX
    ensures side == Some(Top) ==> r.velY == -e.velY
    ensures side != Some(Top) ==> r.velY == e.velY
  {
    match side
    case None => e
    case Some(Left) => e.(velX := 0.0, jumping := false)
    case Some(Right) => e.(velX := 0.0, jumping := false)
    case Some(Bottom) => e.(grounded := true, jumping := false)
    case Some(Top) => e.(velY := -e.velY)
  }

  /** The entity after being checked against obstacle `b`: pushed out along
      the classified axis, then given the response for that side. */
  function Resolve(e: EntityState, b: Rect): (r: EntityState)
    ensures !Overlaps(e.box, b) ==> r == e
    ensures Overlaps(e.box, b) ==> !Overlaps(r.box, b)
    ensures r.box.width == e.box.width && r.box.height == e.box.height && r.speed == e.speed
    ensures r.grounded <==> e.grounded || Classify(e.box, b) == Some(Bottom)
    ensures r.jumping ==> e.jumping
    ensures Classify(e.box, b) == Some(Bottom) ==> !r.jumping
    ensures Abs(r.velX) <= Abs(e.velX)
  {
    Respond(e.(box := PushOut(e.box, b)), Classify(e.box, b))
  }

  /** The entity after being checked against every obstacle, in order. */
  function ResolveAll(e: EntityState, obstacles: seq<Rect>): (r: EntityState)
    decreases |obstacles|
    ensures r.box.width == e.box.width && r.box.height == e.box.height && r.speed == e.speed
    ensures e.grounded ==> r.grounded
    ensures r.jumping ==> e.jumping
    ensures r.grounded && r.jumping ==> e.grounded
    ensures Abs(r.velX) <= Abs(e.velX)
  {
    if obstacles == [] then e
    else
      var n := |obstacles| - 1;
      Resolve(ResolveAll(e, obstacles[..n]), obstacles[n])
  }

  /** The side obstacle `i` is classified on, checked against the entity as
      the obstacles before it left it. */
  function ContactAt(e: EntityState, obstacles: seq<Rect>, i: nat): Option<Side>
    requires i < |obstacles|
  {
    Classify(ResolveAll(e, obstacles[..i]).box, obstacles[i])
  }

  /** Whether some obstacle of the pass is classified as a bottom contact. */
  ghost predicate SomeBottomContact(e: EntityState, obstacles: seq<Rect>) {
    exists i: nat :: i < |obstacles| && ContactAt(e, obstacles, i) == Some(Bottom)
  }

  /** Extending the pass does not change the contacts already made. */
  lemma ContactAtPrefix(e: EntityState, obstacles: seq<Rect>, n: nat, i: nat)
    requires i < n <= |obstacles|
    ensures ContactAt(e, obstacles, i) == ContactAt(e, obstacles[..n], i)
  {
    assert obstacles[..n][..i] == obstacles[..i];
  }

  /** Starting from `grounded == false`, a pass leaves the entity grounded
      exactly when at least one obstacle was a bottom contact. */
  lemma {:induction false} GroundedIffBottomContact(e: EntityState, obstacles: seq<Rect>)
    requires !e.grounded
    ensures ResolveAll(e, obstacles).grounded <==> SomeBottomContact(e, obstacles)
    decreases |obstacles|
  {
    if obstacles != [] {
      var n := |obstacles| - 1;
      var prefix := obstacles[..n];
      GroundedIffBottomContact(e, prefix);
      assert ResolveAll(e, obstacles).grounded <==>
               ResolveAll(e, prefix).grounded || ContactAt(e, obstacles, n) == Some(Bottom);
      if SomeBottomContact(e, prefix) {
        var i: nat :| i < n && ContactAt(e, prefix, i) == Some(Bottom);
        ContactAtPrefix(e, obstacles, n, i);
      } else if SomeBottomContact(e, obstacles) {
        var i: nat :| i < |obstacles| && ContactAt(e, obstacles, i) == Some(Bottom);
        if i < n {
          ContactAtPrefix(e, obstacles, n, i);
          assert false;
        }
      }
    }
  }

  /** A pass with no overlapping obstacle leaves the entity untouched. */
  lemma {:induction false} PassWithoutContactIsNoOp(e: EntityState, obstacles: seq<Rect>)
    requires forall i :: 0 <= i < |obstacles| ==> !Overlaps(e.box, obstacles[i])
    ensures ResolveAll(e, obstacles) == e
    decreases |obstacles|
  {
    if obstacles != [] {
      var n := |obstacles| - 1;
      PassWithoutContactIsNoOp(e, obstacles[..n]);
      assert !Overlaps(e.box, obstacles[n]);
    }
  }

  // ---------------------------------------------------------------------
  // The tick (update)

  /** The intents of the held keys, in the order up, right, left. */
  function ReadInput(e: EntityState, keys: Keys): (r: EntityState)
    ensures r.box == e.box && r.speed == e.speed
    ensures !keys.up ==> r.jumping == e.jumping && r.grounded == e.grounded && r.velY == e.velY
    ensures !keys.right && !keys.left ==> r.velX == e.velX
  {
    var afterUp := if keys.up then Intent(e, "up") else e;
    var afterRight := if keys.right then Intent(afterUp, "right") else afterUp;
    if keys.left then Intent(afterRight, "left") else afterRight
  }

  /** The simulation part of one frame: input, reset of `grounded`, the
      collision pass, then integration. */
  function Tick(e: EntityState, keys: Keys, obstacles: seq<Rect>): (r: EntityState)
    ensures r.box.width == e.box.width && r.box.height == e.box.height && r.speed == e.speed
    ensures r.grounded ==> r.velY == 0.0 && !r.jumping
  {
    Integrate(ResolveAll(ReadInput(e, keys).(grounded := false), obstacles))
  }

  /** The jump gate reads the previous tick's `grounded`: input runs before
      the reset. Only "up" touches the flags and the vertical velocity. */
  lemma InputReadsPreviousGrounded(e: EntityState, keys: Keys)
    ensures ReadInput(e, keys).box == e.box && ReadInput(e, keys).speed == e.speed
    ensures ReadInput(e, keys).jumping <==> e.jumping || (keys.up && e.grounded)
    ensures ReadInput(e, keys).grounded <==> e.grounded && !(keys.up && !e.jumping)
    ensures ReadInput(e, keys).velY ==
              if keys.up && !e.jumping && e.grounded then -2.0 * e.speed else e.velY
  {
  }

  /** After a tick the entity is grounded exactly when some obstacle of this
      tick's pass was a bottom contact, and a grounded entity has no
      vertical velocity. */
  lemma TickGrounded(e: EntityState, keys: Keys, obstacles: seq<Rect>)
    ensures Tick(e, keys, obstacles).grounded <==>
              SomeBottomContact(ReadInput(e, keys).(grounded := false), obstacles)
    ensures Tick(e, keys, obstacles).grounded ==> Tick(e, keys, obstacles).velY == 0.0
  {
    GroundedIffBottomContact(ReadInput(e, keys).(grounded := false), obstacles);
  }

  /** The horizontal velocity bound that ticks maintain. The bound is
      speed + 1, not speed, because a step of one unit may start from any
      value below speed once friction has made velX fractional. */
  predicate VelocityBounded(e: EntityState) {
    e.speed >= 0.0 && -e.speed - 1.0 < e.velX < e.speed + 1.0
  }

  lemma TickKeepsVelocityBounded(e: EntityState, keys: Keys, obstacles: seq<Rect>)
    requires VelocityBounded(e)
    ensures VelocityBounded(Tick(e, keys, obstacles))
  {
  }

  /** Successive ticks, one per element of `inputs`. */
  function Run(e: EntityState, inputs: seq<Keys>, obstacles: seq<Rect>): (r: EntityState)
    decreases |inputs|
    ensures r.box.width == e.box.width && r.box.height == e.box.height && r.speed == e.speed
    ensures inputs != [] && r.grounded ==> r.velY == 0.0 && !r.jumping
  {
    if inputs == [] then e
    else Run(Tick(e, inputs[0], obstacles), inputs[1..], obstacles)
  }

  lemma {:induction false} RunKeepsVelocityBounded(e: EntityState, inputs: seq<Keys>, obstacles: seq<Rect>)
    requires VelocityBounded(e)
    ensures VelocityBounded(Run(e, inputs, obstacles))
    decreases |inputs|
  {
    if inputs != [] {
      TickKeepsVelocityBounded(e, inputs[0], obstacles);
      RunKeepsVelocityBounded(Tick(e, inputs[0], obstacles), inputs[1..], obstacles);
    }
  }

  /** The magnitude `m` after `n` applications of friction. */
  function Damped(m: real, n: nat): (r: real)
    ensures m >= 0.0 ==> 0.0 <= r <= m
  {
    if n == 0 then m else Friction * Damped(m, n - 1)
  }

  /** Damped(m, n) <= m / (1 + n/4), so it tends to zero. */
  lemma {:induction false} DampedVanishes(m: real, n: nat)
    requires m >= 0.0
    ensures Damped(m, n) * (1.0 + n as real / 4.0) <= m
  {
    if n > 0 {
      DampedVanishes(m, n - 1);
      var d := Damped(m, n - 1);
      var k := (n - 1) as real;
      var p := d * (1.0 + k / 4.0);
      assert Damped(m, n) * (1.0 + n as real / 4.0) == Friction * p + Friction * d / 4.0 by {
        assert n as real == k + 1.0;
        Distribute(d, k);
      }
    }
  }

  lemma Distribute(d: real, k: real)
    ensures (Friction * d) * (1.0 + (k + 1.0) / 4.0) ==
            Friction * (d * (1.0 + k / 4.0)) + Friction * d / 4.0
  {
  }

  lemma {:induction false} DampedMonotone(a: real, b: real, n: nat)
    requires a <= b
    ensures Damped(a, n) <= Damped(b, n)
  {
    if n > 0 { DampedMonotone(a, b, n - 1); }
  }

  /** Damping first and then n times is damping n + 1 times. */
  lemma {:induction false} DampedShift(m: real, n: nat)
    ensures Damped(Friction * m, n) == Damped(m, n + 1)
  {
    if n > 0 { DampedShift(m, n - 1); }
  }

  /** With neither horizontal key held, every tick multiplies the magnitude
      of velX by at most the friction factor. */
  lemma TickWithoutSteeringDecays(e: EntityState, keys: Keys, obstacles: seq<Rect>)
    requires !keys.right && !keys.left
    ensures Abs(Tick(e, keys, obstacles).velX) <= Friction * Abs(e.velX)
  {
  }

  /** Without steering, the magnitude of velX decays at least geometrically;
      by DampedVanishes it tends to zero. */
  lemma {:induction false} RunWithoutSteeringDecays(e: EntityState, inputs: seq<Keys>, obstacles: seq<Rect>)
    requires forall k :: 0 <= k < |inputs| ==> !inputs[k].right && !inputs[k].left
    ensures Abs(Run(e, inputs, obstacles).velX) <= Damped(Abs(e.velX), |inputs|)
    decreases |inputs|
  {
    if inputs != [] {
      var next := Tick(e, inputs[0], obstacles);
      var rest := inputs[1..];
      TickWithoutSteeringDecays(e, inputs[0], obstacles);
      RunWithoutSteeringDecays(next, rest, obstacles);
      DampedMonotone(Abs(next.velX), Friction * Abs(e.velX), |rest|);
      DampedShift(Abs(e.velX), |rest|);
    }
  }
}
