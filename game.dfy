/** The mutable player object and the routines that update its fields in
    place each frame. Every method is proved to leave the object in the
    state the corresponding function of module Physics computes. */
module Game {
  import opened Shapes
  import opened Physics
  import World

  class Entity {
    var x: real
    var y: real
    var width: real
    var height: real
    var speed: real
    var velX: real
    var velY: real
    var jumping: bool
    var grounded: bool

    /** The fields as a value. */
    function State(): EntityState
      reads this
    {
      EntityState(Rect(x, y, width, height), speed, velX, velY, jumping, grounded)
    }

    /** The player as created at startup on a surface of width `w`. */
    constructor (w: nat)
      ensures State() == World.Spawn(w)
    {
      x := w as real / 2.0;
      y := World.Height(w) as real - 5.0;
      width := 5.0;
      height := 5.0;
      speed := 3.0;
      velX := 0.0;
      velY := 0.0;
      jumping := false;
      grounded := false;
    }

    /** moveEntity: the intent `direction`; an unknown one does nothing. */
    method MoveEntity(direction: string)
      modifies this
      ensures State() == Intent(old(State()), direction)
    {
      if direction == "up" {
        if !jumping && grounded {
          jumping := true;
          grounded := false;
          velY := -speed * 2.0;
        }
      } else if direction == "right" {
        if velX < speed {
          velX := velX + 1.0;
        }
      } else if direction == "left" {
        if velX > -speed {
          velX := velX - 1.0;
        }
      }
    }

    /** applyPhysics: friction, gravity, the grounded override, then motion. */
    method ApplyPhysics()
      modifies this
      ensures State() == Integrate(old(State()))
    {
      velX := velX * Friction;
      velY := velY + Gravity;
      if grounded {
        velY := 0.0;
      }
      x := x + velX;
      y := y + velY;
    }

    /** applyCollision: the response to a contact on `side`. */
    method ApplyCollision(side: Option<Side>)
      modifies this
      ensures State() == Respond(old(State()), side)
    {
      if side == Some(Left) || side == Some(Right) {
        velX := 0.0;
        jumping := false;
      } else if side == Some(Bottom) {
        grounded := true;
        jumping := false;
      } else if side == Some(Top) {
        velY := -velY;
      }
    }

    /** collisionCheck: tests this entity against `b`, pushes it out along
        the classified axis and applies the response. The obstacle is a
        value and cannot change. */
    method CollisionCheck(b: Rect)
      modifies this
      ensures State() == Resolve(old(State()), b)
    {
      var distanceX := (x + width / 2.0) - (b.x + b.width / 2.0);
      var distanceY := (y + height / 2.0) - (b.y + b.height / 2.0);
      var halfWidths := width / 2.0 + b.width / 2.0;
      var halfHeights := height / 2.0 + b.height / 2.0;
      var side: Option<Side> := None;
      if Abs(distanceX) < halfWidths && Abs(distanceY) < halfHeights {
        var offsetX := halfWidths - Abs(distanceX);
        var offsetY := halfHeights - Abs(distanceY);
        if offsetX >= offsetY {
          if distanceY > 0.0 {
            side := Some(Top);
            y := y + offsetY;
          } else {
            side := Some(Bottom);
            y := y - offsetY;
          }
        } else {
          if distanceX > 0.0 {
            side := Some(Left);
            x := x + offsetX;
          } else {
            side := Some(Right);
            x := x - offsetX;
          }
        }
      }
      ApplyCollision(side);
    }

    /** The simulation part of `update`: the held keys' intents in the order
        up, right, left, then the reset of `grounded`, the collision pass
        over `collisions` in order, and integration. The horizontal velocity
        bound is kept from tick to tick. */
    method Update(keys: Keys, collisions: seq<Rect>)
      modifies this
      ensures State() == Tick(old(State()), keys, collisions)
      ensures VelocityBounded(old(State())) ==> VelocityBounded(State())
    {
      ghost var before := State();
      if keys.up { MoveEntity("up"); }
      if keys.right { MoveEntity("right"); }
      if keys.left { MoveEntity("left"); }
      grounded := false;
      ghost var start := State();
      assert start == ReadInput(before, keys).(grounded := false);
      var i := 0;
      while i < |collisions|
        invariant 0 <= i <= |collisions|
        invariant State() == ResolveAll(start, collisions[..i])
      {
        CollisionCheck(collisions[i]);
        assert collisions[..i + 1][..i] == collisions[..i];
        i := i + 1;
      }
      assert collisions[..i] == collisions;
      ApplyPhysics();
      if VelocityBounded(before) {
        TickKeepsVelocityBounded(before, keys, collisions);
      }
    }
  }
}
