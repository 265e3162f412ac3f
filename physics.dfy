/**
 * The player: input steering, gravity, axis-separated collision against the
 * platforms and the two-frame walk animation.
 *
 * The pure functions below are the specification of one call of each of the
 * player's methods; class Player at the end holds the mutable fields and its
 * methods are proved to change them exactly as these functions say.
 */
module Physics {
  import opened Wrappers
  import opened Geometry

  // Tuning constants, in pixels per frame (and per frame squared for gravity).
  const Gravity: real := 0.25
  const Accel: real := 0.1
  const Decel: real := 0.15
  const MaxSpeed: real := 1.6
  const JumpImpulse: real := 4.5

  // The player's box is 8 x 16 pixels.
  const PlayerWidth: real := 8.0
  const PlayerHeight: real := 16.0

  // The walk animation runs only above this speed and flips every 8 frames.
  const WalkThreshold: real := 0.2
  const WalkPeriod: int := 8

  /** The keys held during one frame; left and right each stand for either of their two keys. */
  datatype Input = Input(left: bool, right: bool, jump: bool)

  /** Every field of a player object. */
  datatype PlayerState = PlayerState(
    x: real, y: real, velX: real, velY: real,
    grounded: bool, alive: bool, animTimer: int, frame: int)

  /** A freshly constructed player standing still at (x, y). */
  function Spawned(x: real, y: real): PlayerState
  {
    PlayerState(x, y, 0.0, 0.0, false, true, 0, 0)
  }

  function PlayerBox(x: real, y: real): Box
  {
    Box(x, y, PlayerWidth, PlayerHeight)
  }

  function Abs(v: real): real
  {
    if v < 0.0 then -v else v
  }

  // ---------------------------------------------------------------------------
  // Input
  // ---------------------------------------------------------------------------

  /**
   * The new horizontal velocity. Left wins over right; a held direction moves
   * the velocity by Accel but not beyond MaxSpeed; with no direction held the
   * velocity moves towards 0 by Decel without crossing it.
   */
  function Steer(v: real, left: bool, right: bool): (r: real)
    ensures -MaxSpeed <= v <= MaxSpeed ==> -MaxSpeed <= r <= MaxSpeed
    ensures left ==> r >= v - Accel && r >= -MaxSpeed && (r == v - Accel || r == -MaxSpeed)
    ensures !left && right ==> r <= v + Accel && r <= MaxSpeed && (r == v + Accel || r == MaxSpeed)
    ensures !left && !right ==> (v >= 0.0 ==> 0.0 <= r <= v) && (v <= 0.0 ==> v <= r <= 0.0)
    ensures !left && !right ==> Abs(r) == (if Abs(v) > Decel then Abs(v) - Decel else 0.0)
  {
    if left then
      (if v - Accel > -MaxSpeed then v - Accel else -MaxSpeed)
    else if right then
      (if v + Accel < MaxSpeed then v + Accel else MaxSpeed)
    else if v > 0.0 then
      (if v - Decel > 0.0 then v - Decel else 0.0)
    else if v < 0.0 then
      (if v + Decel < 0.0 then v + Decel else 0.0)
    else
      v
  }

  lemma LeftOverridesRight(v: real)
    ensures Steer(v, true, true) == Steer(v, true, false)
  {
  }

  /**
   * One call of apply_input: a dead player is left alone; otherwise the
   * horizontal velocity is steered and a jump is taken only from the ground.
   */
  function InputStep(s: PlayerState, input: Input): (r: PlayerState)
    ensures !s.alive ==> r == s
    ensures s.alive ==> r.velX == Steer(s.velX, input.left, input.right)
    ensures s.alive && input.jump && s.grounded ==> r.velY == -JumpImpulse && !r.grounded
    ensures !(input.jump && s.grounded) ==> r.velY == s.velY && r.grounded == s.grounded
    ensures r.x == s.x && r.y == s.y && r.alive == s.alive
    ensures r.animTimer == s.animTimer && r.frame == s.frame
  {
    if !s.alive then s
    else
      var steered := s.(velX := Steer(s.velX, input.left, input.right));
      if input.jump && steered.grounded then steered.(velY := -JumpImpulse, grounded := false)
      else steered
  }

  // ---------------------------------------------------------------------------
  // Collision sweeps
  // ---------------------------------------------------------------------------

  /** The index of the first platform in list order that overlaps b, if any. */
  function FirstHit(b: Box, ps: seq<Box>): (k: Option<nat>)
    ensures k.Some? ==> k.value < |ps| && Overlaps(b, ps[k.value])
    ensures k.Some? ==> forall j :: 0 <= j < k.value ==> !Overlaps(b, ps[j])
    ensures k.None? <==> forall j :: 0 <= j < |ps| ==> !Overlaps(b, ps[j])
  {
    if ps == [] then None
    else if Overlaps(b, ps[0]) then Some(0)
    else match FirstHit(b, ps[1..])
      case None => None
      case Some(i) => Some(i + 1)
  }

  /** Position and velocity along one axis. */
  datatype Axis = Axis(pos: real, vel: real)

  /** Where a horizontal collision with p puts the player's left edge. */
  function SnapX(x: real, vx: real, p: Box): real
  {
    if vx > 0.0 then p.x - PlayerWidth
    else if vx < 0.0 then p.x + p.w
    else x
  }

  /** One iteration of the horizontal collision loop. */
  function StepX(x: real, y: real, vx: real, p: Box): Axis
  {
    if Overlaps(PlayerBox(x, y), p) then Axis(SnapX(x, vx, p), 0.0) else Axis(x, vx)
  }

  /**
   * The horizontal collision loop over the whole platform list. Once a
   * platform has zeroed the velocity, later ones cannot move the player, so
   * the first platform that overlaps the box at its starting position decides
   * the outcome.
   */
  function SweepX(x: real, y: real, vx: real, ps: seq<Box>): Axis
    decreases |ps|
  {
    if ps == [] then Axis(x, vx)
    else
      var a := StepX(x, y, vx, ps[0]);
      SweepX(a.pos, y, a.vel, ps[1..])
  }

  lemma {:induction false} SweepXFirstHit(x: real, y: real, vx: real, ps: seq<Box>)
    ensures FirstHit(PlayerBox(x, y), ps).None? ==> SweepX(x, y, vx, ps) == Axis(x, vx)
    ensures FirstHit(PlayerBox(x, y), ps).Some? ==>
      SweepX(x, y, vx, ps) == Axis(SnapX(x, vx, ps[FirstHit(PlayerBox(x, y), ps).value]), 0.0)
    decreases |ps|
  {
    if ps != [] {
      var a := StepX(x, y, vx, ps[0]);
      SweepXFirstHit(a.pos, y, a.vel, ps[1..]);
    }
  }

  /** Vertical position, vertical velocity and the grounded flag. */
  datatype Fall = Fall(pos: real, vel: real, grounded: bool)

  /** One iteration of the vertical collision loop. */
  function StepY(x: real, y: real, vy: real, g: bool, p: Box): Fall
  {
    if Overlaps(PlayerBox(x, y), p) then
      if vy > 0.0 then Fall(p.y - PlayerHeight, 0.0, true)
      else if vy < 0.0 then Fall(p.y + p.h, 0.0, g)
      else Fall(y, vy, g)
    else Fall(y, vy, g)
  }

  /**
   * The vertical collision loop over the whole platform list. As for SweepX,
   * the first platform overlapping the starting box decides: falling onto it
   * lands on its top, rising into it stops at its bottom, and a zero velocity
   * changes nothing.
   */
  function SweepY(x: real, y: real, vy: real, g: bool, ps: seq<Box>): Fall
    decreases |ps|
  {
    if ps == [] then Fall(y, vy, g)
    else
      var f := StepY(x, y, vy, g, ps[0]);
      SweepY(x, f.pos, f.vel, f.grounded, ps[1..])
  }

  lemma {:induction false} SweepYFirstHit(x: real, y: real, vy: real, g: bool, ps: seq<Box>)
    ensures FirstHit(PlayerBox(x, y), ps).None? ==> SweepY(x, y, vy, g, ps) == Fall(y, vy, g)
    ensures FirstHit(PlayerBox(x, y), ps).Some? && vy > 0.0 ==>
      SweepY(x, y, vy, g, ps) == Fall(ps[FirstHit(PlayerBox(x, y), ps).value].y - PlayerHeight, 0.0, true)
    ensures FirstHit(PlayerBox(x, y), ps).Some? && vy < 0.0 ==>
      var p := ps[FirstHit(PlayerBox(x, y), ps).value];
      SweepY(x, y, vy, g, ps) == Fall(p.y + p.h, 0.0, g)
    ensures vy == 0.0 ==> SweepY(x, y, vy, g, ps) == Fall(y, vy, g)
    decreases |ps|
  {
    if ps != [] {
      var f := StepY(x, y, vy, g, ps[0]);
      SweepYFirstHit(x, f.pos, f.vel, f.grounded, ps[1..]);
    }
  }

  /**
   * One call of physics: gravity, then horizontal move and resolution, then
   * vertical move and resolution with grounded re-derived from scratch.
   */
  function PhysicsStep(s: PlayerState, ps: seq<Box>): (r: PlayerState)
    // only position, velocity and grounded change
    ensures r.alive == s.alive && r.animTimer == s.animTimer && r.frame == s.frame
  {
    var vy := s.velY + Gravity;
    var h := SweepX(s.x + s.velX, s.y, s.velX, ps);
    var v := SweepY(h.pos, s.y + vy, vy, false, ps);
    s.(x := h.pos, velX := h.vel, y := v.pos, velY := v.vel, grounded := v.grounded)
  }

  /** With nothing in the way the player moves by its velocity, gravity included, and is airborne. */
  lemma PhysicsFree(s: PlayerState, ps: seq<Box>)
    requires forall j :: 0 <= j < |ps| ==>
      !Overlaps(PlayerBox(s.x + s.velX, s.y), ps[j]) &&
      !Overlaps(PlayerBox(s.x + s.velX, s.y + s.velY + Gravity), ps[j])
    ensures PhysicsStep(s, ps) ==
      s.(x := s.x + s.velX, y := s.y + s.velY + Gravity, velY := s.velY + Gravity, grounded := false)
  {
    SweepXStops(s.x + s.velX, s.y, s.velX, ps);
    var vy := s.velY + Gravity;
    SweepYFirstHit(s.x + s.velX, s.y + vy, vy, false, ps);
  }

  /**
   * Any horizontal overlap stops horizontal motion, and the first platform
   * overlapping after the move decides the snap: moving right puts the right
   * edge on its left edge, moving left puts the left edge on its right edge.
   */
  lemma PhysicsHorizontal(s: PlayerState, ps: seq<Box>)
    ensures (exists j :: 0 <= j < |ps| && Overlaps(PlayerBox(s.x + s.velX, s.y), ps[j])) ==>
      PhysicsStep(s, ps).velX == 0.0
    ensures FirstHit(PlayerBox(s.x + s.velX, s.y), ps).Some? ==>
      var p := ps[FirstHit(PlayerBox(s.x + s.velX, s.y), ps).value];
      (s.velX > 0.0 ==> PhysicsStep(s, ps).x + PlayerWidth == p.x) &&
      (s.velX < 0.0 ==> PhysicsStep(s, ps).x == p.x + p.w) &&
      (s.velX == 0.0 ==> PhysicsStep(s, ps).x == s.x)
  {
    SweepXStops(s.x + s.velX, s.y, s.velX, ps);
    SweepXFirstHit(s.x + s.velX, s.y, s.velX, ps);
  }

  /** Grounded exactly when falling into a platform, and then at rest on its top. */
  lemma PhysicsGrounded(s: PlayerState, ps: seq<Box>)
    ensures PhysicsStep(s, ps).grounded <==>
      s.velY + Gravity > 0.0 &&
      exists j :: 0 <= j < |ps| && Overlaps(PlayerBox(PhysicsStep(s, ps).x, s.y + s.velY + Gravity), ps[j])
    ensures PhysicsStep(s, ps).grounded ==>
      PhysicsStep(s, ps).velY == 0.0 &&
      exists j :: 0 <= j < |ps| && PhysicsStep(s, ps).y + PlayerHeight == ps[j].y
  {
    var vy := s.velY + Gravity;
    var h := SweepX(s.x + s.velX, s.y, s.velX, ps);
    SweepYLands(h.pos, s.y + vy, vy, ps);
  }

  /** Rising into a platform stops the rise at its underside and leaves grounded false. */
  lemma PhysicsRising(s: PlayerState, ps: seq<Box>, k: nat)
    requires s.velY + Gravity < 0.0
    requires FirstHit(PlayerBox(PhysicsStep(s, ps).x, s.y + s.velY + Gravity), ps) == Some(k)
    ensures !PhysicsStep(s, ps).grounded && PhysicsStep(s, ps).velY == 0.0
    ensures PhysicsStep(s, ps).y == ps[k].y + ps[k].h
  {
    var vy := s.velY + Gravity;
    var h := SweepX(s.x + s.velX, s.y, s.velX, ps);
    SweepYLands(h.pos, s.y + vy, vy, ps);
  }

  /** Any overlap during the horizontal sweep stops the player; none leaves it moving. */
  lemma SweepXStops(x: real, y: real, vx: real, ps: seq<Box>)
    ensures (exists j :: 0 <= j < |ps| && Overlaps(PlayerBox(x, y), ps[j])) ==> SweepX(x, y, vx, ps).vel == 0.0
    ensures (forall j :: 0 <= j < |ps| ==> !Overlaps(PlayerBox(x, y), ps[j])) ==> SweepX(x, y, vx, ps) == Axis(x, vx)
  {
    SweepXFirstHit(x, y, vx, ps);
  }

  /**
   * A vertical sweep that starts ungrounded ends grounded exactly when the
   * player was falling into some platform, and then stands on a platform top.
   */
  lemma SweepYLands(x: real, y: real, vy: real, ps: seq<Box>)
    ensures SweepY(x, y, vy, false, ps).grounded <==>
      vy > 0.0 && exists j :: 0 <= j < |ps| && Overlaps(PlayerBox(x, y), ps[j])
    ensures SweepY(x, y, vy, false, ps).grounded ==>
      SweepY(x, y, vy, false, ps).vel == 0.0 &&
      exists j :: 0 <= j < |ps| && SweepY(x, y, vy, false, ps).pos + PlayerHeight == ps[j].y
    ensures vy < 0.0 && FirstHit(PlayerBox(x, y), ps).Some? ==>
      var p := ps[FirstHit(PlayerBox(x, y), ps).value];
      SweepY(x, y, vy, false, ps) == Fall(p.y + p.h, 0.0, false)
  {
    SweepYFirstHit(x, y, vy, false, ps);
    var r := SweepY(x, y, vy, false, ps);
    var k := FirstHit(PlayerBox(x, y), ps);
    if k.Some? {
      if vy > 0.0 {
        assert r.pos + PlayerHeight == ps[k.value].y;
      }
    }
  }

  // ---------------------------------------------------------------------------
  // Animation
  // ---------------------------------------------------------------------------

  /** frame ^ 1 on Python integers: flips the lowest bit and keeps the rest. */
  function FlipLowBit(f: int): (r: int)
    ensures r / 2 == f / 2 && r % 2 == 1 - f % 2
  {
    if f % 2 == 0 then f + 1 else f - 1
  }

  predicate Walking(s: PlayerState)
  {
    Abs(s.velX) > WalkThreshold && s.grounded
  }

  /**
   * The animation part of update: a living player's timer advances; while
   * walking on the ground the frame flips every WalkPeriod ticks, otherwise
   * it is the standing frame 0.
   */
  function AnimationStep(s: PlayerState): (r: PlayerState)
    ensures !s.alive ==> r == s
    ensures s.alive ==> r.animTimer == s.animTimer + 1
    ensures s.alive && !Walking(s) ==> r.frame == 0
    ensures s.alive && Walking(s) ==>
      (r.animTimer % WalkPeriod == 0 ==> r.frame != s.frame) &&
      (r.animTimer % WalkPeriod != 0 ==> r.frame == s.frame)
    ensures (s.frame == 0 || s.frame == 1) ==> (r.frame == 0 || r.frame == 1)
    ensures r.x == s.x && r.y == s.y && r.velX == s.velX && r.velY == s.velY
    ensures r.grounded == s.grounded && r.alive == s.alive
  {
    if !s.alive then s
    else
      var t := s.animTimer + 1;
      var f := if Walking(s) then (if t % WalkPeriod == 0 then FlipLowBit(s.frame) else s.frame) else 0;
      s.(animTimer := t, frame := f)
  }

  /** One call of update: input, physics, animation, in that order. */
  function UpdateStep(s: PlayerState, input: Input, ps: seq<Box>): PlayerState
  {
    AnimationStep(PhysicsStep(InputStep(s, input), ps))
  }

  // ---------------------------------------------------------------------------
  // Lemmas
  // ---------------------------------------------------------------------------

  /**
   * The speed bound holds for the player's whole update: steering keeps it,
   * and a horizontal collision can only set the velocity to 0.
   */
  lemma SpeedStaysBounded(s: PlayerState, input: Input, ps: seq<Box>)
    requires -MaxSpeed <= s.velX <= MaxSpeed
    ensures -MaxSpeed <= UpdateStep(s, input, ps).velX <= MaxSpeed
  {
    var a := InputStep(s, input);
    SweepXStops(a.x + a.velX, a.y, a.velX, ps);
  }

  /** A jump is only taken from the ground: an airborne player keeps its vertical state. */
  lemma NoJumpInTheAir(s: PlayerState, input: Input)
    requires !s.grounded
    ensures InputStep(s, input).velY == s.velY && !InputStep(s, input).grounded
  {
  }

  /** A clean jump from the ground leaves the player rising at JumpImpulse - Gravity. */
  lemma {:induction false} JumpFromSpawn(ps: seq<Box>, input: Input)
    requires input.jump && !input.left && !input.right
    requires forall j :: 0 <= j < |ps| ==>
      !Overlaps(PlayerBox(32.0, 100.0), ps[j]) && !Overlaps(PlayerBox(32.0, 100.0 - JumpImpulse + Gravity), ps[j])
    ensures UpdateStep(Spawned(32.0, 100.0).(grounded := true), input, ps).velY == -JumpImpulse + Gravity
    ensures !UpdateStep(Spawned(32.0, 100.0).(grounded := true), input, ps).grounded
  {
    var s := Spawned(32.0, 100.0).(grounded := true);
    var a := InputStep(s, input);
    assert a.velX == 0.0 && a.velY == -JumpImpulse;
    PhysicsFree(a, ps);
    var b := PhysicsStep(a, ps);
    assert b.velY == -JumpImpulse + Gravity && !b.grounded;
  }

  // ---------------------------------------------------------------------------
  // The player object
  // ---------------------------------------------------------------------------

  class Player {
    var x: real
    var y: real
    var velX: real
    var velY: real
    var grounded: bool
    var alive: bool
    var animTimer: int
    var frame: int

    function State(): PlayerState
      reads this
    {
      PlayerState(x, y, velX, velY, grounded, alive, animTimer, frame)
    }

    constructor (x0: real, y0: real)
      ensures State() == Spawned(x0, y0)
    {
      x, y := x0, y0;
      velX, velY := 0.0, 0.0;
      grounded := false;
      animTimer := 0;
      frame := 0;
      alive := true;
    }

    method ApplyInput(input: Input)
      modifies this
      ensures State() == InputStep(old(State()), input)
    {
      if !alive {
        return;
      }
      if input.left {
        velX := if velX - Accel > -MaxSpeed then velX - Accel else -MaxSpeed;
      } else if input.right {
        velX := if velX + Accel < MaxSpeed then velX + Accel else MaxSpeed;
      } else {
        if velX > 0.0 {
          velX := if velX - Decel > 0.0 then velX - Decel else 0.0;
        } else if velX < 0.0 {
          velX := if velX + Decel < 0.0 then velX + Decel else 0.0;
        }
      }
      if input.jump && grounded {
        velY := -JumpImpulse;
        grounded := false;
      }
    }

    method Physics(ps: seq<Box>)
      modifies this
      ensures State() == PhysicsStep(old(State()), ps)
    {
      ghost var s := State();
      velY := velY + Gravity;
      x := x + velX;
      ResolveHorizontal(ps);
      ghost var h := Axis(x, velX);
      y := y + velY;
      grounded := false;
      ResolveVertical(ps);
      ghost var v := Fall(y, velY, grounded);
      assert State() == s.(x := h.pos, velX := h.vel, y := v.pos, velY := v.vel, grounded := v.grounded);
    }

    /** The first platform loop of physics: push the player out along x. */
    method ResolveHorizontal(ps: seq<Box>)
      modifies this
      ensures Axis(x, velX) == SweepX(old(x), old(y), old(velX), ps)
      ensures y == old(y) && velY == old(velY) && grounded == old(grounded)
      ensures alive == old(alive) && animTimer == old(animTimer) && frame == old(frame)
    {
      for i := 0 to |ps|
        invariant y == old(y) && velY == old(velY) && grounded == old(grounded)
        invariant alive == old(alive) && animTimer == old(animTimer) && frame == old(frame)
        invariant SweepX(x, y, velX, ps[i..]) == SweepX(old(x), y, old(velX), ps)
      {
        assert ps[i..][1..] == ps[i + 1..];
        var p := ps[i];
        if x < p.x + p.w && x + PlayerWidth > p.x && y < p.y + p.h && y + PlayerHeight > p.y {
          if velX > 0.0 {
            x := p.x - PlayerWidth;
          } else if velX < 0.0 {
            x := p.x + p.w;
          }
          velX := 0.0;
        }
      }
      assert ps[|ps|..] == [];
    }

    /** The second platform loop of physics: push the player out along y and re-derive grounded. */
    method ResolveVertical(ps: seq<Box>)
      modifies this
      ensures Fall(y, velY, grounded) == SweepY(old(x), old(y), old(velY), old(grounded), ps)
      ensures x == old(x) && velX == old(velX)
      ensures alive == old(alive) && animTimer == old(animTimer) && frame == old(frame)
    {
      for i := 0 to |ps|
        invariant x == old(x) && velX == old(velX)
        invariant alive == old(alive) && animTimer == old(animTimer) && frame == old(frame)
        invariant SweepY(x, y, velY, grounded, ps[i..]) == SweepY(x, old(y), old(velY), old(grounded), ps)
      {
        assert ps[i..][1..] == ps[i + 1..];
        var p := ps[i];
        if x < p.x + p.w && x + PlayerWidth > p.x && y < p.y + p.h && y + PlayerHeight > p.y {
          if velY > 0.0 {
            y := p.y - PlayerHeight;
            velY := 0.0;
            grounded := true;
          } else if velY < 0.0 {
            y := p.y + p.h;
            velY := 0.0;
          }
        }
      }
      assert ps[|ps|..] == [];
    }

    method Update(input: Input, ps: seq<Box>)
      modifies this
      ensures State() == UpdateStep(old(State()), input, ps)
    {
      ApplyInput(input);
      Physics(ps);
      if alive {
        animTimer := animTimer + 1;
        if Abs(velX) > WalkThreshold && grounded {
          if animTimer % WalkPeriod == 0 {
            frame := FlipLowBit(frame);
          }
        } else {
          frame := 0;
        }
      }
    }
  }
}
