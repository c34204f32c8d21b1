/** The startup configuration: the player as first created and the fixed
    list of static obstacles, both determined by the drawing surface's width
    `w`, a whole number of pixels (its height is half of it, truncated). */
module World {
  import opened Shapes
  import opened Physics

  /** The surface height `w * .5`, stored into the integer height attribute
      of the surface and so truncated to a whole number. */
  function Height(w: nat): (h: nat)
    ensures h as real <= w as real * 0.5 < h as real + 1.0
  {
    w / 2
  }

  /** Four border walls of thickness 2 and one platform, in checking order:
      left, bottom, right, top border, then the platform. */
  function Obstacles(w: nat): (obstacles: seq<Rect>)
    ensures |obstacles| == 5
    ensures forall i :: 0 <= i < |obstacles| ==> obstacles[i].width >= 0.0 && obstacles[i].height >= 0.0
  {
    var width, h := w as real, Height(w) as real;
    [ Rect(0.0, 0.0, 2.0, h),
      Rect(0.0, h - 2.0, width, 2.0),
      Rect(width - 2.0, 0.0, 2.0, h),
      Rect(0.0, 0.0, width, 2.0),
      Rect(0.0, h - 20.0, 20.0, 2.0) ]
  }

  /** The player at startup: a 5 by 5 square at the horizontal middle with
      its bottom edge on the bottom of the surface, speed 3, at rest. */
  function Spawn(w: nat): (e: EntityState)
    ensures VelocityBounded(e)
  {
    EntityState(Rect(w as real / 2.0, Height(w) as real - 5.0, 5.0, 5.0), 3.0, 0.0, 0.0, false, false)
  }

  /** The player as it rests on the floor: bottom edge on the top of the
      bottom border, grounded, at rest. */
  function Resting(w: nat): EntityState {
    Spawn(w).(box := Spawn(w).box.(y := Height(w) as real - 7.0), grounded := true)
  }

  const NoKeys := Keys(false, false, false)

  /** On a surface at least 40 wide the first tick without input lifts the
      player out of the bottom border onto its top edge and grounds it. */
  lemma FirstTickLandsOnFloor(w: nat)
    requires w >= 40
    ensures Tick(Spawn(w), NoKeys, Obstacles(w)) == Resting(w)
  {
    var obs := Obstacles(w);
    var s0 := Spawn(w).(grounded := false);
    assert ReadInput(Spawn(w), NoKeys).(grounded := false) == s0;
    OverlapsIffIntervalsIntersect(s0.box, obs[0]);
    assert ResolveAll(s0, obs[..1]) == s0 by {
      assert obs[..1][..0] == [];
    }
    var s1 := Resting(w).(grounded := true);
    assert Classify(s0.box, obs[1]) == Some(Bottom);
    assert ResolveAll(s0, obs[..2]) == s1 by {
      assert obs[..2][..1] == obs[..1];
    }
    OverlapsIffIntervalsIntersect(s1.box, obs[2]);
    assert ResolveAll(s0, obs[..3]) == s1 by {
      assert obs[..3][..2] == obs[..2];
    }
    OverlapsIffIntervalsIntersect(s1.box, obs[3]);
    assert ResolveAll(s0, obs[..4]) == s1 by {
      assert obs[..4][..3] == obs[..3];
    }
    OverlapsIffIntervalsIntersect(s1.box, obs[4]);
    assert ResolveAll(s0, obs) == s1 by {
      assert obs[..4] == obs[..|obs| - 1];
    }
  }

  /** Resting exactly on the floor is not a collision (the test is strict),
      so the next tick leaves the player airborne and gravity moves it back
      into the floor; the tick after that lands it again. A resting player
      therefore alternates between two states rather than staying put. */
  lemma RestingContactAlternates(w: nat)
    requires w >= 40
    ensures !Tick(Resting(w), NoKeys, Obstacles(w)).grounded
    ensures Tick(Resting(w), NoKeys, Obstacles(w)).box.y == Height(w) as real - 7.0 + Gravity
    ensures Tick(Tick(Resting(w), NoKeys, Obstacles(w)), NoKeys, Obstacles(w)) == Resting(w)
  {
    var obs := Obstacles(w);
    var r := Resting(w);
    var s0 := r.(grounded := false);
    assert ReadInput(r, NoKeys).(grounded := false) == s0;
    forall i | 0 <= i < |obs| ensures !Overlaps(s0.box, obs[i]) {
      OverlapsIffIntervalsIntersect(s0.box, obs[i]);
    }
    PassWithoutContactIsNoOp(s0, obs);
    var t := Tick(r, NoKeys, obs);
    assert t == s0.(velY := Gravity, box := s0.box.(y := s0.box.y + Gravity));

    var u0 := t.(grounded := false);
    assert ReadInput(t, NoKeys).(grounded := false) == u0;
    OverlapsIffIntervalsIntersect(u0.box, obs[0]);
    assert ResolveAll(u0, obs[..1]) == u0 by {
      assert obs[..1][..0] == [];
    }
    var u1 := r.(velY := Gravity);
    assert Classify(u0.box, obs[1]) == Some(Bottom);
    assert ResolveAll(u0, obs[..2]) == u1 by {
      assert obs[..2][..1] == obs[..1];
    }
    OverlapsIffIntervalsIntersect(u1.box, obs[2]);
    assert ResolveAll(u0, obs[..3]) == u1 by {
      assert obs[..3][..2] == obs[..2];
    }
    OverlapsIffIntervalsIntersect(u1.box, obs[3]);
    assert ResolveAll(u0, obs[..4]) == u1 by {
      assert obs[..4][..3] == obs[..3];
    }
    OverlapsIffIntervalsIntersect(u1.box, obs[4]);
    assert ResolveAll(u0, obs) == u1 by {
      assert obs[..4] == obs[..|obs| - 1];
    }
  }
}
