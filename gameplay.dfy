/**
  One tick of the raylib game of src/Game.cpp: the pause state machine, the
  player's walking and flying movement with its map boundary, gravity, jumping
  and slope handling, mouse look, tree collisions, the pause-menu slider, the
  kickable ball and the ball's own physics.

  Each block of processEvents and updateBall is a small method (or function)
  over values with its own contract; the Game class at the end holds the
  fields the source updates in place and runs the blocks in source order.
*/
module Gameplay {
  import opened Geometry
  import opened Terrain

  datatype GameState = Playing | Paused

  /** A placed model: only its transform and its tree flag matter to the game logic. */
  datatype SceneObject = SceneObject(position: Vec3, rotation: Vec3, scale: Vec3, groundNormal: Vec3, isTree: bool)

  datatype Ball = Ball(position: Vec3, velocity: Vec3, radius: real, restitution: real)

  /**
    The input of one frame. `...Pressed` is raylib's IsKeyPressed /
    IsMouseButtonPressed (went down this frame), `...Down` is IsKeyDown (held).
  */
  datatype Input = Input(
    escapePressed: bool, cPressed: bool, shiftPressed: bool, gPressed: bool, spacePressed: bool,
    wDown: bool, sDown: bool, aDown: bool, dDown: bool, spaceDown: bool, ctrlDown: bool,
    mouseDelta: Vec2, mousePosition: Vec2, leftPressed: bool, leftReleased: bool)

  /**
    What the game takes from outside: the map's downward ray cast, the square
    root, and the cos/sin conversion of (yaw, pitch) in degrees to a direction.
  */
  datatype Env = Env(cast: RayCaster, sqrt: Root, spherical: (real, real) -> Vec3)

  /** The pause-menu rectangles that setupUI computes from the screen size. */
  datatype Layout = Layout(resume: Rect, exit: Rect, track: Rect, handle: Rect)

  const CreativeSpeed: real := 90.0
  const WalkSpeed: real := 7.0
  const SprintMultiplier: real := 1.7
  const CrouchMultiplier: real := 0.4
  const SmoothingRate: real := 12.0
  const MapLimit: real := 497.5
  const StandingEyeHeight: real := 1.5
  const CrouchingEyeHeight: real := 0.8
  const Gravity: real := 18.0
  const JumpForce: real := 8.0
  const SlopeLimit: real := 0.65
  const SnapDistance: real := 0.25
  const SlideSpeed: real := 10.0
  const SlideLift: real := 0.05
  /** The player's rough collision size against the ball. */
  const PlayerReach: real := 1.5
  const KickScale: real := 100.0
  const KickBase: real := 5.0
  const MinSensitivity: real := 0.01
  const MaxSensitivity: real := 0.2
  const BallGravity: real := 15.0
  const AirDamping: real := 0.995
  const WallLimit: real := 495.0

  // ---------------------------------------------------------------- pause state

  /** Escape always flips between playing and paused. */
  function ToggledState(s: GameState): (r: GameState)
    ensures r != s
  {
    if s == Playing then Paused else Playing
  }

  /** Pressing escape twice returns to the state before. */
  lemma ToggleTwice(s: GameState)
    ensures ToggledState(ToggledState(s)) == s
  {}

  /** The state after the escape check at the top of processEvents. */
  function AfterEscape(s: GameState, escapePressed: bool): (r: GameState)
    ensures escapePressed <==> r != s
  {
    if escapePressed then ToggledState(s) else s
  }

  // ---------------------------------------------------------------- speed

  /** The multiplier a tick aims for: crouching wins over sprinting, which wins over the normal pace. */
  function TargetMultiplier(isSprinting: bool, isCrouching: bool): (m: real)
    ensures isCrouching ==> m == CrouchMultiplier
    ensures !isCrouching && isSprinting ==> m == SprintMultiplier
    ensures !isCrouching && !isSprinting ==> m == 1.0
    ensures CrouchMultiplier <= m <= SprintMultiplier
  {
    if isCrouching then CrouchMultiplier else if isSprinting then SprintMultiplier else 1.0
  }

  /** The dynamic-speed block, its two sequential assignments proved equal to TargetMultiplier. */
  method SpeedTargets(isCreativeMode: bool, isSprinting: bool, isCrouching: bool)
    returns (baseSpeed: real, targetMult: real)
    ensures baseSpeed == (if isCreativeMode then CreativeSpeed else WalkSpeed)
    ensures targetMult == TargetMultiplier(isSprinting, isCrouching)
  {
    baseSpeed := if isCreativeMode then CreativeSpeed else WalkSpeed;
    targetMult := 1.0;
    if isSprinting { targetMult := SprintMultiplier; }
    if isCrouching { targetMult := CrouchMultiplier; }
  }

  /** With a smoothing amount in [0, 1] the multiplier never leaves the crouch-to-sprint range once inside it. */
  lemma SmoothedMultiplierStaysInRange(current: real, isSprinting: bool, isCrouching: bool, deltaTime: real)
    requires CrouchMultiplier <= current <= SprintMultiplier
    requires 0.0 <= SmoothingRate * deltaTime <= 1.0
    ensures CrouchMultiplier <= Lerp(current, TargetMultiplier(isSprinting, isCrouching), SmoothingRate * deltaTime) <= SprintMultiplier
  {
    var target := TargetMultiplier(isSprinting, isCrouching);
    var r := Lerp(current, target, SmoothingRate * deltaTime);
    if current <= target {
      assert current <= r <= target;
    } else {
      assert target <= r <= current;
    }
  }

  // ---------------------------------------------------------------- movement

  /**
    The movement basis: the look direction itself when flying, flattened onto
    the ground and renormalized when walking; right is forward x up.
  */
  method MovementBasis(lookDir: Vec3, isCreativeMode: bool, up: Vec3, sqrt: Root)
    returns (forward: Vec3, right: Vec3)
    ensures isCreativeMode ==> forward == lookDir
    ensures !isCreativeMode ==> forward == Normalize(Vec3(lookDir.x, 0.0, lookDir.z), sqrt)
    ensures !isCreativeMode ==> forward.y == 0.0
    ensures Dot(right, forward) == 0.0 && Dot(right, up) == 0.0
    ensures up == WorldUp ==> right.y == 0.0
  {
    forward := lookDir;
    if !isCreativeMode {
      forward := forward.(y := 0.0);
      forward := Normalize(forward, sqrt);
    }
    right := Cross(forward, up);
  }

  /**
    The W/S/A/D block. Every key measures from the current position, so the
    moves do not add up: the last held key in the order W, S, A, D wins.
  */
  method MoveCandidate(position: Vec3, forward: Vec3, right: Vec3, step: real, input: Input)
    returns (next: Vec3)
    ensures input.dDown ==> next == Add(position, Scale(right, step))
    ensures !input.dDown && input.aDown ==> next == Sub(position, Scale(right, step))
    ensures !input.dDown && !input.aDown && input.sDown ==> next == Sub(position, Scale(forward, step))
    ensures !input.dDown && !input.aDown && !input.sDown && input.wDown ==> next == Add(position, Scale(forward, step))
    ensures !input.dDown && !input.aDown && !input.sDown && !input.wDown ==> next == position
    ensures forward.y == 0.0 && right.y == 0.0 ==> next.y == position.y
  {
    next := position;
    if input.wDown { next := Add(position, Scale(forward, step)); }
    if input.sDown { next := Sub(position, Scale(forward, step)); }
    if input.aDown { next := Sub(position, Scale(right, step)); }
    if input.dDown { next := Add(position, Scale(right, step)); }
  }

  /** One axis of the boundary check: the position stays within 497.5 of the centre. */
  method ClampToMap(v: real) returns (r: real)
    ensures -MapLimit <= r <= MapLimit
    ensures -MapLimit <= v <= MapLimit ==> r == v
    ensures v > MapLimit ==> r == MapLimit
    ensures v < -MapLimit ==> r == -MapLimit
  {
    r := v;
    if r > MapLimit { r := MapLimit; }
    if r < -MapLimit { r := -MapLimit; }
  }

  // ---------------------------------------------------------------- ball kick

  /**
    The camera position after the commit step: x and z come from the next
    position, y too when flying. A clamped next position commits a camera on
    the map; walking never changes the height here; and whenever the next
    position already has the kept height, the camera lands exactly on it.
  */
  function Committed(start: Vec3, next: Vec3, isCreativeMode: bool): (c: Vec3)
    ensures OnMap(next) ==> OnMap(c)
    ensures !isCreativeMode ==> c.y == start.y
    ensures isCreativeMode || next.y == start.y ==> c == next
  {
    Vec3(next.x, if isCreativeMode then next.y else start.y, next.z)
  }

  /**
    The kick force as Game.cpp writes it: the distance from the camera to the
    next position, times 100, measured after the camera has taken the next
    position's x and z (and y when flying).
  */
  function KickForceAsWritten(start: Vec3, next: Vec3, isCreativeMode: bool, sqrt: Root): (f: real)
    ensures isCreativeMode || next.y == start.y ==> f == Length(Origin, sqrt) * KickScale
  {
    assert isCreativeMode || next.y == start.y ==> Sub(Committed(start, next, isCreativeMode), next) == Origin;
    Length(Sub(Committed(start, next, isCreativeMode), next), sqrt) * KickScale
  }

  /** The kick force measured from where the player stood before this tick's move. */
  function KickForce(start: Vec3, next: Vec3, sqrt: Root): (f: real)
    ensures f == Length(Sub(next, start), sqrt) * KickScale
    ensures start == next ==> f == Length(Origin, sqrt) * KickScale
  {
    assert Dot(Sub(start, next), Sub(start, next)) == Dot(Sub(next, start), Sub(next, start));
    assert start == next ==> Sub(start, next) == Origin;
    Length(Sub(start, next), sqrt) * KickScale
  }

  /**
    As written, the force is always zero: walking keeps the height of the
    step (MoveCandidate with a flat basis), and flying commits all three
    coordinates, so the measured difference is the zero vector.
  */
  lemma KickForceAsWrittenIsZero(start: Vec3, next: Vec3, isCreativeMode: bool, sqrt: Root)
    requires IsRoot(sqrt)
    requires isCreativeMode || next.y == start.y
    ensures KickForceAsWritten(start, next, isCreativeMode, sqrt) == 0.0
  {
    var c := Committed(start, next, isCreativeMode);
    assert c == next;
    assert Sub(c, next) == Origin;
    LengthOfOrigin(sqrt);
  }

  /** The corrected force is never negative and is zero exactly when the player did not move. */
  lemma KickForceMeasuresMove(start: Vec3, next: Vec3, sqrt: Root)
    requires IsRoot(sqrt)
    ensures 0.0 <= KickForce(start, next, sqrt)
    ensures KickForce(start, next, sqrt) == 0.0 <==> start == next
  {
    var d := Sub(start, next);
    if start == next {
      assert d == Origin;
      LengthOfOrigin(sqrt);
    } else {
      assert d != Origin;
      LengthZeroIffOrigin(d, sqrt);
    }
  }

  /**
    The kick block: a ball closer than its radius plus 1.5 gains force + 5
    along the direction from the player to the ball; a ball further away keeps
    its velocity. The kick never pulls the ball towards the player.
  */
  method KickBall(player: Vec3, ball: Ball, force: real, sqrt: Root) returns (kicked: Ball)
    ensures kicked.position == ball.position && kicked.radius == ball.radius && kicked.restitution == ball.restitution
    ensures Length(Sub(ball.position, player), sqrt) >= ball.radius + PlayerReach ==> kicked == ball
    ensures Length(Sub(ball.position, player), sqrt) < ball.radius + PlayerReach ==>
              kicked.velocity == Add(ball.velocity, Scale(Normalize(Sub(ball.position, player), sqrt), force + KickBase))
    ensures IsRoot(sqrt) && 0.0 <= force ==>
              0.0 <= Dot(Sub(kicked.velocity, ball.velocity), Sub(ball.position, player))
  {
    kicked := ball;
    var toBall := Sub(ball.position, player);
    var dist := Length(toBall, sqrt);
    if dist < ball.radius + PlayerReach {
      var pushDir := Normalize(toBall, sqrt);
      kicked := kicked.(velocity := Add(ball.velocity, Scale(pushDir, force + KickBase)));
      if IsRoot(sqrt) && 0.0 <= force {
        PushIsAway(toBall, force + KickBase, sqrt);
        assert Sub(kicked.velocity, ball.velocity) == Scale(pushDir, force + KickBase);
      }
    }
  }

  /** Pushing along the normalized direction of `d` never points against `d`. */
  lemma PushIsAway(d: Vec3, k: real, sqrt: Root)
    requires IsRoot(sqrt)
    requires 0.0 <= k
    ensures 0.0 <= Dot(Scale(Normalize(d, sqrt), k), d)
  {
    var n := Normalize(d, sqrt);
    var len := Length(d, sqrt);
    SelfDotPositive(d);
    LengthZeroIffOrigin(d, sqrt);
    if len != 0.0 {
      DotScale(d, d, 1.0 / len);
      MulNonneg(1.0 / len, Dot(d, d), Dot(n, d));
    }
    DotScale(n, d, k);
    MulNonneg(k, Dot(n, d), Dot(Scale(n, k), d));
  }

  // ---------------------------------------------------------------- walking physics

  /** The jump block: only a grounded player can jump, and a jump leaves the ground. */
  method Jump(spacePressed: bool, isGrounded: bool, verticalVelocity: real)
    returns (velocity: real, grounded: bool)
    ensures spacePressed && isGrounded ==> velocity == JumpForce && !grounded
    ensures !(spacePressed && isGrounded) ==> velocity == verticalVelocity && grounded == isGrounded
  {
    velocity, grounded := verticalVelocity, isGrounded;
    if spacePressed && isGrounded {
      velocity := JumpForce;
      grounded := false;
    }
  }

  /**
    The player is inside the snap zone: not rising, and at most 0.25 above the
    floor. A rising player never is; a player at rest on or below the floor always is.
  */
  predicate InSnapZone(position: Vec3, verticalVelocity: real, floorY: real)
    ensures 0.0 < verticalVelocity ==> !InSnapZone(position, verticalVelocity, floorY)
    ensures verticalVelocity <= 0.0 && position.y <= floorY ==> InSnapZone(position, verticalVelocity, floorY)
  {
    verticalVelocity <= 0.0 && position.y <= floorY + SnapDistance
  }

  /**
    The steep-slope slide: the player moves along the horizontal part of the
    ground normal and, if that leaves them below the floor, is put just above
    it. The height never ends below the floor.
  */
  function Slide(position: Vec3, floorY: real, groundNormal: Vec3, deltaTime: real): (p: Vec3)
    ensures p.x == position.x + groundNormal.x * (SlideSpeed * deltaTime)
    ensures p.z == position.z + groundNormal.z * (SlideSpeed * deltaTime)
    ensures floorY <= p.y
    ensures floorY <= position.y ==> p.y == position.y
    ensures position.y < floorY ==> p.y == floorY + SlideLift
  {
    var moved := Add(position, Scale(Vec3(groundNormal.x, 0.0, groundNormal.z), SlideSpeed * deltaTime));
    if moved.y < floorY then moved.(y := floorY + SlideLift) else moved
  }

  /**
    Ground snapping: inside the snap zone a gentle slope holds the player at
    the floor, a steep one slides the player along the normal's horizontal
    part and lifts them just above the floor; outside the zone the player is
    airborne.
  */
  method ResolveGround(position: Vec3, verticalVelocity: real, floorY: real, groundNormal: Vec3, deltaTime: real)
    returns (p: Vec3, velocity: real, grounded: bool)
    ensures grounded <==> InSnapZone(position, verticalVelocity, floorY) && groundNormal.y >= SlopeLimit
    ensures grounded ==> p == position.(y := floorY) && velocity == 0.0
    ensures !grounded ==> velocity == verticalVelocity
    ensures InSnapZone(position, verticalVelocity, floorY) && groundNormal.y < SlopeLimit ==>
              p == Slide(position, floorY, groundNormal, deltaTime)
    ensures !InSnapZone(position, verticalVelocity, floorY) ==> p == position
  {
    p, velocity := position, verticalVelocity;
    if verticalVelocity <= 0.0 && p.y <= floorY + SnapDistance {
      if groundNormal.y >= SlopeLimit {
        p := p.(y := floorY);
        velocity := 0.0;
        grounded := true;
      } else {
        grounded := false;
        var slideDir := Vec3(groundNormal.x, 0.0, groundNormal.z);
        p := Add(p, Scale(slideDir, SlideSpeed * deltaTime));
        if p.y < floorY { p := p.(y := floorY + SlideLift); }
      }
    } else {
      grounded := false;
    }
  }

  /** The vertical velocity after gravity, which pulls only an airborne player. */
  function Fallen(verticalVelocity: real, isGrounded: bool, deltaTime: real): (v: real)
    ensures isGrounded ==> v == verticalVelocity
    ensures !isGrounded && 0.0 < deltaTime ==> v < verticalVelocity
  {
    if isGrounded then verticalVelocity else verticalVelocity - Gravity * deltaTime
  }

  /**
    The position after the vertical step: the height moves by the fallen
    velocity. A player standing at rest stays put, and an airborne player who
    is not rising always descends.
  */
  function Stepped(position: Vec3, verticalVelocity: real, isGrounded: bool, deltaTime: real): (q: Vec3)
    ensures q.x == position.x && q.z == position.z
    ensures isGrounded && verticalVelocity == 0.0 ==> q == position
    ensures !isGrounded && verticalVelocity <= 0.0 && 0.0 < deltaTime ==> q.y < position.y
  {
    var v := Fallen(verticalVelocity, isGrounded, deltaTime);
    NegativeStep(v, deltaTime);
    position.(y := position.y + v * deltaTime)
  }

  lemma NegativeStep(v: real, deltaTime: real)
    ensures v < 0.0 && 0.0 < deltaTime ==> v * deltaTime < 0.0
  {
    if v < 0.0 && 0.0 < deltaTime {
      MulPos(-v, deltaTime, -v * deltaTime);
    }
  }

  /**
    The velocity the ground check sees: the jump force after a grounded jump,
    otherwise the fallen velocity. A grounded jump always points upwards;
    Space does nothing in the air, where gravity keeps pulling.
  */
  function LaunchVelocity(verticalVelocity: real, isGrounded: bool, spacePressed: bool, deltaTime: real): (v: real)
    ensures spacePressed && isGrounded ==> 0.0 < v
    ensures isGrounded && !spacePressed ==> v == verticalVelocity
    ensures !isGrounded && 0.0 < deltaTime ==> v < verticalVelocity
  {
    if spacePressed && isGrounded then JumpForce else Fallen(verticalVelocity, isGrounded, deltaTime)
  }

  /** Space does nothing in the air: an airborne player's velocity is the same with or without it. */
  lemma SpaceIgnoredInAir(verticalVelocity: real, deltaTime: real)
    ensures LaunchVelocity(verticalVelocity, false, true, deltaTime) == LaunchVelocity(verticalVelocity, false, false, deltaTime)
  {}

  /** A jump always takes the player out of the snap zone, so it cannot be cancelled by the ground check. */
  lemma JumpLeavesSnapZone(position: Vec3, verticalVelocity: real, isGrounded: bool, floorY: real, deltaTime: real)
    requires isGrounded
    ensures !InSnapZone(Stepped(position, verticalVelocity, isGrounded, deltaTime),
                        LaunchVelocity(verticalVelocity, isGrounded, true, deltaTime), floorY)
  {}

  /**
    The walking part of the physics block: gravity while airborne, the
    vertical step, the jump and the ground resolution, in source order.
  */
  method WalkingStep(position: Vec3, verticalVelocity: real, isGrounded: bool, floorY: real, groundNormal: Vec3,
                     spacePressed: bool, deltaTime: real)
    returns (p: Vec3, velocity: real, grounded: bool)
    ensures grounded ==> groundNormal.y >= SlopeLimit && p == position.(y := floorY) && velocity == 0.0
    ensures groundNormal.y < SlopeLimit ==> !grounded
    ensures spacePressed && isGrounded ==>
              !grounded && velocity == JumpForce && p.x == position.x && p.z == position.z
    ensures !isGrounded && !grounded ==> velocity == verticalVelocity - Gravity * deltaTime
    ensures isGrounded && !spacePressed && !grounded ==> velocity == verticalVelocity
    ensures isGrounded && !spacePressed && verticalVelocity == 0.0 && position.y == floorY && groundNormal.y >= SlopeLimit ==>
              grounded && p == position && velocity == 0.0
    ensures var q := Stepped(position, verticalVelocity, isGrounded, deltaTime);
            var v := LaunchVelocity(verticalVelocity, isGrounded, spacePressed, deltaTime);
            (!InSnapZone(q, v, floorY) ==> p == q && velocity == v && !grounded) &&
            (InSnapZone(q, v, floorY) && groundNormal.y >= SlopeLimit ==> p == q.(y := floorY) && velocity == 0.0 && grounded) &&
            (InSnapZone(q, v, floorY) && groundNormal.y < SlopeLimit ==>
               p == Slide(q, floorY, groundNormal, deltaTime) && velocity == v && !grounded)
  {
    var v := verticalVelocity;
    if !isGrounded {
      v := v - Gravity * deltaTime;
    }
    assert v == Fallen(verticalVelocity, isGrounded, deltaTime);
    var q := position.(y := position.y + v * deltaTime);
    assert q == Stepped(position, verticalVelocity, isGrounded, deltaTime);
    var g;
    v, g := Jump(spacePressed, isGrounded, v);
    assert v == LaunchVelocity(verticalVelocity, isGrounded, spacePressed, deltaTime);
    p, velocity, grounded := ResolveGround(q, v, floorY, groundNormal, deltaTime);
  }

  /** The flying elevator: space goes up, control goes down, and the floor is a hard limit. */
  method CreativeVertical(y: real, floorY: real, step: real, spaceDown: bool, ctrlDown: bool)
    returns (r: real)
    ensures floorY <= r
    ensures var flown := y + (if spaceDown then step else 0.0) - (if ctrlDown then step else 0.0);
            r == (if flown < floorY then floorY else flown)
  {
    r := y;
    if spaceDown { r := r + step; }
    if ctrlDown { r := r - step; }
    if r < floorY { r := floorY; }
  }

  // ---------------------------------------------------------------- trees

  /** The ground-plane part of a position. */
  function Flat(p: Vec3): Vec2 { Vec2(p.x, p.z) }

  /**
    A tree blocks a disc of radius 2 * scale.x / 10 around its trunk; for the
    scales 10 to 30 that setupResources draws, that is 2 to 6.
  */
  function TreeRadius(tree: SceneObject): (r: real)
    ensures 10.0 <= tree.scale.x <= 30.0 ==> 2.0 <= r <= 6.0
  {
    2.0 * tree.scale.x / 10.0
  }

  /** The ground-plane distance from the player to a trunk: symmetric, and never negative for a genuine root. */
  function TreeDistance(p: Vec3, tree: SceneObject, sqrt: Root): (d: real)
    ensures d == Distance2(Flat(tree.position), Flat(p), sqrt)
    ensures IsRoot(sqrt) ==> 0.0 <= d
  {
    var e := Sub2(Flat(p), Flat(tree.position));
    assert Dot2(e, e) == Dot2(Sub2(Flat(tree.position), Flat(p)), Sub2(Flat(tree.position), Flat(p)));
    SelfDot2Nonneg(e);
    RootNonneg(sqrt, Dot2(e, e));
    Distance2(Flat(p), Flat(tree.position), sqrt)
  }

  /**
    One tree's push: a player inside the disc is moved straight away from the
    trunk by the overlap; height is never changed.
  */
  function TreePush(p: Vec3, tree: SceneObject, sqrt: Root): (r: Vec3)
    ensures r.y == p.y
    ensures TreeDistance(p, tree, sqrt) >= TreeRadius(tree) ==> r == p
    ensures TreeDistance(p, tree, sqrt) == 0.0 ==> r == p
  {
    var dist := TreeDistance(p, tree, sqrt);
    var radius := TreeRadius(tree);
    if dist < radius then
      var push := Scale2(Normalize2(Sub2(Flat(p), Flat(tree.position)), sqrt), radius - dist);
      Vec3(p.x + push.x, p.y, p.z + push.y)
    else
      p
  }

  /** A scene object's effect on the player: trees push, fences do not collide. */
  function Collide(p: Vec3, obj: SceneObject, sqrt: Root): (r: Vec3)
    ensures r.y == p.y
  {
    if obj.isTree then TreePush(p, obj, sqrt) else p
  }

  /** The tree loop's result: the objects applied in order, each to the position the earlier ones left. */
  function TreePushes(p: Vec3, objects: seq<SceneObject>, sqrt: Root): (r: Vec3)
    ensures r.y == p.y
    decreases |objects|
  {
    if objects == [] then p
    else Collide(TreePushes(p, objects[..|objects| - 1], sqrt), objects[|objects| - 1], sqrt)
  }

  /** Without trees the loop leaves the player where they are. */
  lemma {:induction false} NoTreesNoPush(p: Vec3, objects: seq<SceneObject>, sqrt: Root)
    requires forall i :: 0 <= i < |objects| ==> !objects[i].isTree
    ensures TreePushes(p, objects, sqrt) == p
    decreases |objects|
  {
    if objects != [] {
      NoTreesNoPush(p, objects[..|objects| - 1], sqrt);
    }
  }

  /** A player strictly inside a tree's disc, off the trunk, ends exactly on its edge. */
  lemma TreePushReachesRadius(p: Vec3, tree: SceneObject, sqrt: Root)
    requires IsRoot(sqrt)
    requires 0.0 < TreeDistance(p, tree, sqrt) < TreeRadius(tree)
    ensures TreeDistance(TreePush(p, tree, sqrt), tree, sqrt) == TreeRadius(tree)
  {
    var d := Sub2(Flat(p), Flat(tree.position));
    var len := TreeDistance(p, tree, sqrt);
    var radius := TreeRadius(tree);
    PushedOffset(p, tree, sqrt);
    assert Length2(d, sqrt) == len;
    ScaledLength2(d, radius, sqrt);
  }

  /** Scaling a vector of positive length by radius / length gives it length radius. */
  lemma ScaledLength2(d: Vec2, radius: real, sqrt: Root)
    requires IsRoot(sqrt)
    requires 0.0 < Length2(d, sqrt) && 0.0 < radius
    ensures Length2(Scale2(d, radius / Length2(d, sqrt)), sqrt) == radius
  {
    var len := Length2(d, sqrt);
    var c := radius / len;
    var q := Dot2(d, d);
    SelfDot2Nonneg(d);
    RootOf(sqrt, q);
    assert len == sqrt(q);
    assert len * len == q;
    DotScaleScale2(d, c);
    ScaledSquare(len, c, radius, q);
    var e := Scale2(d, c);
    assert Dot2(e, e) == radius * radius;
    RootOfSquare(sqrt, radius);
    assert sqrt(Dot2(e, e)) == radius;
  }

  /** The push scales the offset from the trunk by radius / distance. */
  lemma PushedOffset(p: Vec3, tree: SceneObject, sqrt: Root)
    requires 0.0 < TreeDistance(p, tree, sqrt) < TreeRadius(tree)
    ensures Sub2(Flat(TreePush(p, tree, sqrt)), Flat(tree.position))
         == Scale2(Sub2(Flat(p), Flat(tree.position)), TreeRadius(tree) / TreeDistance(p, tree, sqrt))
  {
    var d := Sub2(Flat(p), Flat(tree.position));
    var len := TreeDistance(p, tree, sqrt);
    var radius := TreeRadius(tree);
    assert Length2(d, sqrt) == len;
    assert Normalize2(d, sqrt) == Scale2(d, 1.0 / len);
    var push := Scale2(Scale2(d, 1.0 / len), radius - len);
    var r := TreePush(p, tree, sqrt);
    assert r == Vec3(p.x + push.x, p.y, p.z + push.y);
    OffsetStep(d, len, radius);
  }

  lemma OverlapFactor(a: real, len: real, radius: real, c: real)
    requires 0.0 < len && c == radius / len
    ensures a + (a * (1.0 / len)) * (radius - len) == a * c
  {
    assert (1.0 / len) * (radius - len) == c - 1.0;
    assert a * (1.0 / len) * (radius - len) == a * (c - 1.0);
  }

  lemma ScaledSquare(len: real, c: real, radius: real, q: real)
    requires 0.0 < len && c == radius / len && len * len == q
    ensures q * (c * c) == radius * radius
  {
    assert len * c == radius;
    assert (len * len) * (c * c) == (len * c) * (len * c);
  }

  lemma OffsetStep(d: Vec2, len: real, radius: real)
    requires 0.0 < len
    ensures var push := Scale2(Scale2(d, 1.0 / len), radius - len);
            Vec2(d.x + push.x, d.y + push.y) == Scale2(d, radius / len)
  {
    OverlapFactor(d.x, len, radius, radius / len);
    OverlapFactor(d.y, len, radius, radius / len);
  }

  /**
    The push itself does not respect the map limit: a tree of scale 10 whose
    trunk stood half a unit inside the limit would push a player standing on
    the limit out to x = 499. setupResources never builds such a tree (see
    PlacedScenesKeepPlayerOnMap); the slope slide is what can leave the map.
  */
  lemma TreePushCanLeaveMap(sqrt: Root, y: real)
    requires IsRoot(sqrt)
    ensures var tree := SceneObject(Vec3(497.0, 0.0, 0.0), Origin, Vec3(10.0, 10.0, 10.0), WorldUp, true);
            TreePush(Vec3(MapLimit, y, 0.0), tree, sqrt) == Vec3(499.0, y, 0.0)
  {
    var tree := SceneObject(Vec3(497.0, 0.0, 0.0), Origin, Vec3(10.0, 10.0, 10.0), WorldUp, true);
    var d := Sub2(Flat(Vec3(MapLimit, y, 0.0)), Flat(tree.position));
    assert d == Vec2(0.5, 0.0);
    assert Dot2(d, d) == 0.5 * 0.5;
    RootOfSquare(sqrt, 0.5);
    assert TreeDistance(Vec3(MapLimit, y, 0.0), tree, sqrt) == 0.5;
    assert Normalize2(d, sqrt) == Vec2(1.0, 0.0);
  }

  /** A player pushed by a tree ends within the tree's radius of its trunk on each axis. */
  lemma PushStaysNearTrunk(p: Vec3, tree: SceneObject, sqrt: Root)
    requires IsRoot(sqrt)
    ensures var r := TreePush(p, tree, sqrt);
            r == p ||
            (Abs(r.x - tree.position.x) <= TreeRadius(tree) && Abs(r.z - tree.position.z) <= TreeRadius(tree))
  {
    var d := Sub2(Flat(p), Flat(tree.position));
    var len := TreeDistance(p, tree, sqrt);
    var radius := TreeRadius(tree);
    assert len == Length2(d, sqrt);
    SelfDot2Nonneg(d);
    RootOf(sqrt, Dot2(d, d));
    assert 0.0 <= len;
    if 0.0 < len < radius {
      var r := TreePush(p, tree, sqrt);
      PushedOffset(p, tree, sqrt);
      assert Sub2(Flat(r), Flat(tree.position)) == Scale2(d, radius / len);
      OffsetWithinRadius(d, len, radius, sqrt);
      assert r.x - tree.position.x == d.x * (radius / len);
      assert r.z - tree.position.z == d.y * (radius / len);
    }
  }

  /** Scaling an offset of length `len` by radius / len keeps each coordinate within radius. */
  lemma OffsetWithinRadius(d: Vec2, len: real, radius: real, sqrt: Root)
    requires IsRoot(sqrt)
    requires len == Length2(d, sqrt) && 0.0 < len < radius
    ensures Abs(d.x * (radius / len)) <= radius && Abs(d.y * (radius / len)) <= radius
  {
    var c := radius / len;
    SelfDot2Nonneg(d);
    RootOf(sqrt, Dot2(d, d));
    assert len * len == d.x * d.x + d.y * d.y;
    assert len * c == radius;
    CoordinateWithinLength(d.x, d.y, len, c);
    CoordinateWithinLength(d.y, d.x, len, c);
  }

  /** One coordinate of a vector of length `len`, scaled by c >= 0, is at most len * c in size. */
  lemma CoordinateWithinLength(a: real, b: real, len: real, c: real)
    requires 0.0 < len && len * len == a * a + b * b && 0.0 <= c
    ensures Abs(a * c) <= len * c
  {
    SquareNonneg(b, b * b);
    var m := Abs(a);
    assert m * m == a * a;
    if m > len {
      MulPos(m - len, m + len, a * a - len * len);
    }
    MulNonneg(len - m, c, len * c - m * c);
    if a >= 0.0 {
      MulNonneg(a, c, a * c);
    } else {
      MulNonneg(-a, c, -(a * c));
    }
  }

  /** A player on the map at either limit coordinate. */
  predicate OnMap(p: Vec3)
  {
    -MapLimit <= p.x <= MapLimit && -MapLimit <= p.z <= MapLimit
  }

  /**
    An object as setupResources places it: a tree's trunk at x = -100 - k and
    z = 100 + k' for rand() % 375 values k, k' in 0..374, with scale
    10 + (rand() % 201) / 10 in [10, 30]. Fences never collide, so any fence qualifies.
  */
  predicate PlacedAsBuilt(obj: SceneObject)
  {
    obj.isTree ==>
      -474.0 <= obj.position.x <= -100.0 && 100.0 <= obj.position.z <= 474.0 &&
      10.0 <= obj.scale.x <= 30.0
  }

  /** For a scene built as setupResources builds it, the tree loop never carries the player off the map. */
  lemma {:induction false} PlacedScenesKeepPlayerOnMap(p: Vec3, objects: seq<SceneObject>, sqrt: Root)
    requires IsRoot(sqrt)
    requires OnMap(p)
    requires forall i :: 0 <= i < |objects| ==> PlacedAsBuilt(objects[i])
    ensures OnMap(TreePushes(p, objects, sqrt))
    decreases |objects|
  {
    if objects != [] {
      var prefix := objects[..|objects| - 1];
      var last := objects[|objects| - 1];
      PlacedScenesKeepPlayerOnMap(p, prefix, sqrt);
      var q := TreePushes(p, prefix, sqrt);
      if last.isTree {
        PushStaysNearTrunk(q, last, sqrt);
      }
    }
  }

  /**
    The map clamp is not an end-of-tick bound: a walker whom the commit left on
    the limit, in the snap zone of a steep slope (ResolveGround then slides,
    p == Slide(...)) whose normal points outwards, ends past the limit.
  */
  lemma SlopeSlideCanLeaveMap(q: Vec3, floorY: real, groundNormal: Vec3, deltaTime: real)
    requires q.x == MapLimit && 0.0 < groundNormal.x && 0.0 < deltaTime
    ensures MapLimit < Slide(q, floorY, groundNormal, deltaTime).x
  {
    MulPos(groundNormal.x, SlideSpeed * deltaTime, groundNormal.x * (SlideSpeed * deltaTime));
  }

  /** The tree loop over the position, one object at a time. */
  method PushOutOfTrees(position: Vec3, sceneObjects: seq<SceneObject>, sqrt: Root) returns (p: Vec3)
    ensures p == TreePushes(position, sceneObjects, sqrt)
    ensures p.y == position.y
  {
    p := position;
    for i := 0 to |sceneObjects|
      invariant p == TreePushes(position, sceneObjects[..i], sqrt)
    {
      var obj := sceneObjects[i];
      if obj.isTree {
        var dist := Distance2(Flat(p), Flat(obj.position), sqrt);
        var radius := TreeRadius(obj);
        if dist < radius {
          var push := Scale2(Normalize2(Sub2(Flat(p), Flat(obj.position)), sqrt), radius - dist);
          p := p.(x := p.x + push.x, z := p.z + push.y);
        }
      }
      assert sceneObjects[..i + 1][..i] == sceneObjects[..i];
    }
    assert sceneObjects[..|sceneObjects|] == sceneObjects;
  }

  // ---------------------------------------------------------------- pause menu

  /**
    Dragging the slider: the mouse x is clamped to the track, its place along
    the track is the slider value, and the sensitivity is that value's point
    between 0.01 and 0.2.
  */
  method DragSlider(mouseX: real, track: Rect) returns (value: real, sensitivity: real)
    requires track.width > 0.0
    ensures 0.0 <= value <= 1.0
    ensures sensitivity == Lerp(MinSensitivity, MaxSensitivity, value)
    ensures MinSensitivity <= sensitivity <= MaxSensitivity
    ensures track.x <= mouseX <= track.x + track.width ==> track.x + value * track.width == mouseX
    ensures mouseX <= track.x ==> value == 0.0
    ensures track.x + track.width <= mouseX ==> value == 1.0
  {
    var x := Clamp(mouseX, track.x, track.x + track.width);
    value := (x - track.x) / track.width;
    Fraction(x - track.x, track.width, value);
    sensitivity := Lerp(MinSensitivity, MaxSensitivity, value);
  }

  lemma Fraction(a: real, w: real, f: real)
    requires 0.0 < w && 0.0 <= a <= w && f == a / w
    ensures 0.0 <= f <= 1.0
    ensures f * w == a
    ensures a == 0.0 ==> f == 0.0
    ensures a == w ==> f == 1.0
  {
    assert f * w == a;
    if f < 0.0 {
      MulPos(-f, w, -f * w);
    }
    if f > 1.0 {
      MulPos(f - 1.0, w, (f - 1.0) * w);
    }
  }

  /** The slider handle is centred on the point of the track that the slider value names. */
  function HandleFor(track: Rect, handle: Rect, sliderValue: real): (h: Rect)
    ensures h.width == handle.width && h.height == handle.height
    ensures h.x + h.width / 2.0 == track.x + sliderValue * track.width
    ensures h.y + h.height / 2.0 == track.y + track.height / 2.0
  {
    handle.(x := track.x + sliderValue * track.width - handle.width / 2.0,
            y := track.y + track.height / 2.0 - handle.height / 2.0)
  }

  // ---------------------------------------------------------------- ball physics

  function Abs(x: real): real { if x < 0.0 then -x else x }

  /**
    Gravity, air damping and the position step of updateBall. The damping
    slows the ball down: its horizontal speed shrinks on every flight step
    (strictly, unless it is zero) and its horizontal direction is kept.
  */
  method Fly(ball: Ball, deltaTime: real) returns (b: Ball)
    ensures b.radius == ball.radius && b.restitution == ball.restitution
    ensures b.velocity == Scale(ball.velocity.(y := ball.velocity.y - BallGravity * deltaTime), AirDamping)
    ensures b.position == Add(ball.position, Scale(b.velocity, deltaTime))
    ensures Abs(b.velocity.x) <= Abs(ball.velocity.x) && Abs(b.velocity.z) <= Abs(ball.velocity.z)
    ensures ball.velocity.x != 0.0 ==> Abs(b.velocity.x) < Abs(ball.velocity.x)
    ensures ball.velocity.z != 0.0 ==> Abs(b.velocity.z) < Abs(ball.velocity.z)
    ensures b.velocity.x * ball.velocity.z == b.velocity.z * ball.velocity.x
  {
    b := ball.(velocity := ball.velocity.(y := ball.velocity.y - BallGravity * deltaTime));
    b := b.(velocity := Scale(b.velocity, AirDamping));
    b := b.(position := Add(b.position, Scale(b.velocity, deltaTime)));
  }

  /**
    The ground collision of updateBall: a ball whose bottom is below the
    terrain is lifted to rest on it and bounces off the surface normal,
    losing the restitution share of its speed.
  */
  method GroundBounce(ball: Ball, cast: RayCaster) returns (b: Ball)
    ensures b.radius == ball.radius && b.restitution == ball.restitution
    ensures b.position.x == ball.position.x && b.position.z == ball.position.z
    ensures var h := HeightAt(cast, ball.position.x, ball.position.z);
            ball.position.y - ball.radius < h ==>
              b.position.y == h + ball.radius &&
              b.velocity == Scale(Reflect(ball.velocity, NormalAt(cast, ball.position.x, ball.position.z)), ball.restitution)
    ensures HeightAt(cast, ball.position.x, ball.position.z) <= ball.position.y - ball.radius ==> b == ball
    ensures HeightAt(cast, ball.position.x, ball.position.z) <= b.position.y - b.radius
    ensures var n := NormalAt(cast, ball.position.x, ball.position.z);
            ball.position.y - ball.radius < HeightAt(cast, ball.position.x, ball.position.z) && Dot(n, n) == 1.0 ==>
              Dot(b.velocity, b.velocity) == Dot(ball.velocity, ball.velocity) * (ball.restitution * ball.restitution)
  {
    b := ball;
    var terrainHeight := HeightAt(cast, b.position.x, b.position.z);
    if b.position.y - b.radius < terrainHeight {
      b := b.(position := b.position.(y := terrainHeight + b.radius));
      var normal := NormalAt(cast, b.position.x, b.position.z);
      b := b.(velocity := Reflect(b.velocity, normal));
      b := b.(velocity := Scale(b.velocity, b.restitution));
      if Dot(normal, normal) == 1.0 {
        ReflectKeepsLength(ball.velocity, normal);
        DotScaleScale(Reflect(ball.velocity, normal), ball.restitution);
      }
    }
  }

  /**
    One axis of the wall check: past 495 the ball is put back on the wall and
    its velocity along that axis is reversed and scaled by the restitution.
  */
  method WallBounce(position: real, velocity: real, restitution: real) returns (p: real, v: real)
    ensures -WallLimit <= p <= WallLimit
    ensures Abs(position) > WallLimit ==>
              v == velocity * -restitution && p == (if position > 0.0 then WallLimit else -WallLimit)
    ensures Abs(position) <= WallLimit ==> p == position && v == velocity
  {
    p, v := position, velocity;
    if Abs(p) > WallLimit {
      v := v * -restitution;
      p := if p > 0.0 then WallLimit else -WallLimit;
    }
  }

  // ---------------------------------------------------------------- the game

  /**
    The Game object: the camera position, look angles and movement flags that
    processEvents updates, the pause menu, the placed scene objects and the
    ball. The rectangles of the menu and the scene objects are set up once
    and never change afterwards.
  */
  class Game {
    var currentState: GameState
    var isCrouching: bool
    var isSprinting: bool
    var isCreativeMode: bool
    var isGrounded: bool
    var speedMultiplier: real
    var verticalVelocity: real
    var currentEyeHeight: real
    var cameraPosition: Vec3
    var cameraTarget: Vec3
    const cameraUp: Vec3
    var cameraYaw: real
    var cameraPitch: real
    var sensitivity: real
    var sliderValue: real
    var draggingSlider: bool
    const resumeBtnRect: Rect
    const exitBtnRect: Rect
    const sliderTrackRect: Rect
    var sliderHandleRect: Rect
    const sceneObjects: seq<SceneObject>
    var ball: Ball

    /** What every tick keeps: a usable slider, a sensitivity in its range and a pitch that never flips over. */
    ghost predicate Valid()
      reads this
    {
      cameraUp == WorldUp &&
      sliderTrackRect.width > 0.0 &&
      0.0 <= sliderValue <= 1.0 &&
      MinSensitivity <= sensitivity <= MaxSensitivity &&
      -PitchLimit <= cameraPitch <= PitchLimit
    }

    /** The constructor, setupUI and the ball part of setupResources; the layout and the scene are given. */
    constructor (layout: Layout, objects: seq<SceneObject>, initialSliderValue: real)
      requires layout.track.width > 0.0
      requires 0.0 <= initialSliderValue <= 1.0
      ensures Valid()
      ensures currentState == Playing
      ensures cameraPosition == Vec3(490.0, 50.0, 490.0) && cameraTarget == Origin
      ensures cameraYaw == -135.0 && cameraPitch == -15.0
      ensures ball == Ball(Vec3(480.0, 300.0, 480.0), Origin, 1.0, 0.8)
      ensures resumeBtnRect == layout.resume && exitBtnRect == layout.exit && sliderTrackRect == layout.track
      ensures sliderHandleRect == HandleFor(layout.track, layout.handle, initialSliderValue)
      ensures sceneObjects == objects && sliderValue == initialSliderValue && sensitivity == 0.1
      ensures !isCrouching && !isSprinting && !isCreativeMode && !isGrounded && !draggingSlider
      ensures speedMultiplier == 1.0 && verticalVelocity == 0.0 && currentEyeHeight == StandingEyeHeight
    {
      cameraPosition := Vec3(490.0, 50.0, 490.0);
      cameraTarget := Origin;
      cameraUp := WorldUp;
      cameraYaw := -135.0;
      cameraPitch := -15.0;
      resumeBtnRect := layout.resume;
      exitBtnRect := layout.exit;
      sliderTrackRect := layout.track;
      sliderValue := initialSliderValue;
      sliderHandleRect := HandleFor(layout.track, layout.handle, initialSliderValue);
      sensitivity := 0.1;
      draggingSlider := false;
      ball := Ball(Vec3(480.0, 300.0, 480.0), Origin, 1.0, 0.8);
      sceneObjects := objects;
      isCrouching := false;
      isSprinting := false;
      isCreativeMode := false;
      isGrounded := false;
      speedMultiplier := 1.0;
      verticalVelocity := 0.0;
      currentEyeHeight := StandingEyeHeight;
      currentState := Playing;
    }

    /** The global escape check: it runs in both states. */
    method HandleEscape(escapePressed: bool)
      modifies this`currentState
      ensures currentState == AfterEscape(old(currentState), escapePressed)
    {
      if escapePressed {
        if currentState == Playing {
          currentState := Paused;
        } else {
          currentState := Playing;
        }
      }
    }

    /** C toggles crouching, left shift sprinting, G creative mode, which also stops any fall or jump. */
    method ApplyToggles(input: Input)
      modifies this`isCrouching, this`isSprinting, this`isCreativeMode, this`verticalVelocity
      ensures isCrouching == (old(isCrouching) != input.cPressed)
      ensures isSprinting == (old(isSprinting) != input.shiftPressed)
      ensures isCreativeMode == (old(isCreativeMode) != input.gPressed)
      ensures verticalVelocity == (if input.gPressed then 0.0 else old(verticalVelocity))
    {
      if input.cPressed { isCrouching := !isCrouching; }
      if input.shiftPressed { isSprinting := !isSprinting; }
      if input.gPressed {
        isCreativeMode := !isCreativeMode;
        verticalVelocity := 0.0;
      }
    }

    /** The multiplier eases towards its target at rate 12; the speed is the base speed times the multiplier. */
    method UpdateSpeed(deltaTime: real) returns (currentSpeed: real)
      modifies this`speedMultiplier
      ensures speedMultiplier == Lerp(old(speedMultiplier), TargetMultiplier(isSprinting, isCrouching), SmoothingRate * deltaTime)
      ensures currentSpeed == (if isCreativeMode then CreativeSpeed else WalkSpeed) * speedMultiplier
    {
      var baseSpeed, targetMult := SpeedTargets(isCreativeMode, isSprinting, isCrouching);
      speedMultiplier := Lerp(speedMultiplier, targetMult, SmoothingRate * deltaTime);
      currentSpeed := baseSpeed * speedMultiplier;
    }

    /**
      The movement block: the next position is clamped to the map and its x
      and z are committed, its y only when flying. Walking never changes the
      height here. Returns the clamped next position.
    */
    method MoveAndCommit(input: Input, currentSpeed: real, deltaTime: real, sqrt: Root) returns (next: Vec3)
      requires cameraUp == WorldUp
      modifies this`cameraPosition
      ensures -MapLimit <= next.x <= MapLimit && -MapLimit <= next.z <= MapLimit
      ensures cameraPosition == Committed(old(cameraPosition), next, isCreativeMode)
      ensures !isCreativeMode ==> next.y == old(cameraPosition).y
      ensures !input.wDown && !input.sDown && !input.aDown && !input.dDown &&
              -MapLimit <= old(cameraPosition).x <= MapLimit && -MapLimit <= old(cameraPosition).z <= MapLimit ==>
                cameraPosition == old(cameraPosition)
    {
      var lookDir := Normalize(Sub(cameraTarget, cameraPosition), sqrt);
      var forward, right := MovementBasis(lookDir, isCreativeMode, cameraUp, sqrt);
      next := MoveCandidate(cameraPosition, forward, right, currentSpeed * deltaTime, input);

      var x := ClampToMap(next.x);
      var z := ClampToMap(next.z);
      next := next.(x := x, z := z);

      cameraPosition := cameraPosition.(x := next.x, z := next.z);
      if isCreativeMode {
        cameraPosition := cameraPosition.(y := next.y);
      }
    }

    /**
      The ball kick, with the force measured from the position the player
      stood at before this tick's move (`start`).
    */
    method KickTheBall(start: Vec3, next: Vec3, sqrt: Root)
      modifies this`ball
      ensures ball.position == old(ball).position && ball.radius == old(ball).radius
      ensures ball.restitution == old(ball).restitution
      ensures Length(Sub(ball.position, cameraPosition), sqrt) >= ball.radius + PlayerReach ==> ball == old(ball)
      ensures Length(Sub(ball.position, cameraPosition), sqrt) < ball.radius + PlayerReach ==>
                ball.velocity == Add(old(ball).velocity,
                                     Scale(Normalize(Sub(ball.position, cameraPosition), sqrt), KickForce(start, next, sqrt) + KickBase))
      ensures IsRoot(sqrt) ==> 0.0 <= Dot(Sub(ball.velocity, old(ball).velocity), Sub(ball.position, cameraPosition))
    {
      var kickForce := KickForce(start, next, sqrt);
      if IsRoot(sqrt) {
        KickForceMeasuresMove(start, next, sqrt);
      }
      ball := KickBall(cameraPosition, ball, kickForce, sqrt);
    }

    /**
      The physics and slopes block: the eye height eases towards standing or
      crouching height and carries the camera with it; a walking player then
      falls, may jump, and is snapped to or slid along the ground; a flying
      player moves with the elevator keys and never sinks below the floor.
    */
    method UpdatePhysics(input: Input, currentSpeed: real, deltaTime: real, cast: RayCaster)
      modifies this`cameraPosition, this`currentEyeHeight, this`verticalVelocity, this`isGrounded
      ensures currentEyeHeight == Lerp(old(currentEyeHeight), if isCrouching then CrouchingEyeHeight else StandingEyeHeight,
                                       SmoothingRate * deltaTime)
      ensures var floorY := HeightAt(cast, old(cameraPosition).x, old(cameraPosition).z) + currentEyeHeight;
              isCreativeMode ==>
                isGrounded && verticalVelocity == 0.0 && floorY <= cameraPosition.y &&
                cameraPosition.x == old(cameraPosition).x && cameraPosition.z == old(cameraPosition).z
      ensures var floorY := HeightAt(cast, old(cameraPosition).x, old(cameraPosition).z) + currentEyeHeight;
              !isCreativeMode && isGrounded ==>
                NormalAt(cast, old(cameraPosition).x, old(cameraPosition).z).y >= SlopeLimit &&
                cameraPosition.x == old(cameraPosition).x && cameraPosition.z == old(cameraPosition).z &&
                cameraPosition.y == floorY && verticalVelocity == 0.0
      ensures !isCreativeMode && NormalAt(cast, old(cameraPosition).x, old(cameraPosition).z).y < SlopeLimit ==> !isGrounded
      ensures !isCreativeMode && input.spacePressed && old(isGrounded) ==>
                !isGrounded && verticalVelocity == JumpForce &&
                cameraPosition.x == old(cameraPosition).x && cameraPosition.z == old(cameraPosition).z
      ensures !isCreativeMode && !old(isGrounded) && !isGrounded ==>
                verticalVelocity == old(verticalVelocity) - Gravity * deltaTime
      ensures var e := old(cameraPosition).(y := old(cameraPosition).y + (currentEyeHeight - old(currentEyeHeight)));
              var floorY := HeightAt(cast, old(cameraPosition).x, old(cameraPosition).z) + currentEyeHeight;
              var n := NormalAt(cast, old(cameraPosition).x, old(cameraPosition).z);
              var q := Stepped(e, old(verticalVelocity), old(isGrounded), deltaTime);
              var v := LaunchVelocity(old(verticalVelocity), old(isGrounded), input.spacePressed, deltaTime);
              !isCreativeMode ==>
                (!InSnapZone(q, v, floorY) ==> cameraPosition == q && verticalVelocity == v && !isGrounded) &&
                (InSnapZone(q, v, floorY) && n.y >= SlopeLimit ==>
                   cameraPosition == q.(y := floorY) && verticalVelocity == 0.0 && isGrounded) &&
                (InSnapZone(q, v, floorY) && n.y < SlopeLimit ==>
                   cameraPosition == Slide(q, floorY, n, deltaTime) && verticalVelocity == v && !isGrounded)
      ensures var e := old(cameraPosition).(y := old(cameraPosition).y + (currentEyeHeight - old(currentEyeHeight)));
              var floorY := HeightAt(cast, old(cameraPosition).x, old(cameraPosition).z) + currentEyeHeight;
              var step := currentSpeed * deltaTime;
              var flown := e.y + (if input.spaceDown then step else 0.0) - (if input.ctrlDown then step else 0.0);
              isCreativeMode ==> cameraPosition == e.(y := if flown < floorY then floorY else flown)
    {
      var terrainHeight := HeightAt(cast, cameraPosition.x, cameraPosition.z);
      var groundNormal := NormalAt(cast, cameraPosition.x, cameraPosition.z);
      EaseEyeHeight(deltaTime);
      VerticalMotion(input, currentSpeed, deltaTime, terrainHeight + currentEyeHeight, groundNormal);
    }

    /** The height correction: the eye height eases towards its target and carries the camera with it. */
    method EaseEyeHeight(deltaTime: real)
      modifies this`currentEyeHeight, this`cameraPosition
      ensures currentEyeHeight == Lerp(old(currentEyeHeight), if isCrouching then CrouchingEyeHeight else StandingEyeHeight,
                                       SmoothingRate * deltaTime)
      ensures cameraPosition == old(cameraPosition).(y := old(cameraPosition).y + (currentEyeHeight - old(currentEyeHeight)))
    {
      var targetEyeHeight := if isCrouching then CrouchingEyeHeight else StandingEyeHeight;
      var oldEyeHeight := currentEyeHeight;
      currentEyeHeight := Lerp(currentEyeHeight, targetEyeHeight, SmoothingRate * deltaTime);
      var frameHeightChange := currentEyeHeight - oldEyeHeight;
      cameraPosition := cameraPosition.(y := cameraPosition.y + frameHeightChange);
    }

    /**
      The vertical motion after the height correction, over the floor height
      `floorY`: the walking step, or the flying elevator with its floor clamp.
    */
    method VerticalMotion(input: Input, currentSpeed: real, deltaTime: real, floorY: real, groundNormal: Vec3)
      modifies this`cameraPosition, this`verticalVelocity, this`isGrounded
      ensures isCreativeMode ==> isGrounded && verticalVelocity == 0.0 && floorY <= cameraPosition.y
      ensures var step := currentSpeed * deltaTime;
              var flown := old(cameraPosition).y + (if input.spaceDown then step else 0.0) - (if input.ctrlDown then step else 0.0);
              isCreativeMode ==> cameraPosition == old(cameraPosition).(y := if flown < floorY then floorY else flown)
      ensures !isCreativeMode && isGrounded ==>
                groundNormal.y >= SlopeLimit && cameraPosition == old(cameraPosition).(y := floorY) && verticalVelocity == 0.0
      ensures !isCreativeMode && groundNormal.y < SlopeLimit ==> !isGrounded
      ensures !isCreativeMode && input.spacePressed && old(isGrounded) ==>
                !isGrounded && verticalVelocity == JumpForce &&
                cameraPosition.x == old(cameraPosition).x && cameraPosition.z == old(cameraPosition).z
      ensures !isCreativeMode && !old(isGrounded) && !isGrounded ==>
                verticalVelocity == old(verticalVelocity) - Gravity * deltaTime
      ensures var q := Stepped(old(cameraPosition), old(verticalVelocity), old(isGrounded), deltaTime);
              var v := LaunchVelocity(old(verticalVelocity), old(isGrounded), input.spacePressed, deltaTime);
              !isCreativeMode ==>
                (!InSnapZone(q, v, floorY) ==> cameraPosition == q && verticalVelocity == v && !isGrounded) &&
                (InSnapZone(q, v, floorY) && groundNormal.y >= SlopeLimit ==>
                   cameraPosition == q.(y := floorY) && verticalVelocity == 0.0 && isGrounded) &&
                (InSnapZone(q, v, floorY) && groundNormal.y < SlopeLimit ==>
                   cameraPosition == Slide(q, floorY, groundNormal, deltaTime) && verticalVelocity == v && !isGrounded)
    {
      if !isCreativeMode {
        cameraPosition, verticalVelocity, isGrounded :=
          WalkingStep(cameraPosition, verticalVelocity, isGrounded, floorY, groundNormal, input.spacePressed, deltaTime);
      } else {
        var y := CreativeVertical(cameraPosition.y, floorY, currentSpeed * deltaTime, input.spaceDown, input.ctrlDown);
        cameraPosition := cameraPosition.(y := y);
        isGrounded := true;
        verticalVelocity := 0.0;
      }
    }

    /** Manual mouse look: the yaw takes the whole offset, the pitch is clamped, and the target follows. */
    method MouseLook(mouseDelta: Vec2, spherical: (real, real) -> Vec3)
      modifies this`cameraYaw, this`cameraPitch, this`cameraTarget
      ensures cameraYaw == old(cameraYaw) + mouseDelta.x * sensitivity
      ensures cameraPitch == ClampPitch(old(cameraPitch) - mouseDelta.y * sensitivity)
      ensures -PitchLimit <= cameraPitch <= PitchLimit
      ensures cameraTarget == Add(cameraPosition, spherical(cameraYaw, cameraPitch))
    {
      cameraYaw := cameraYaw + mouseDelta.x * sensitivity;
      cameraPitch := cameraPitch - mouseDelta.y * sensitivity;

      if cameraPitch > PitchLimit { cameraPitch := PitchLimit; }
      if cameraPitch < -PitchLimit { cameraPitch := -PitchLimit; }

      var direction := spherical(cameraYaw, cameraPitch);
      cameraTarget := Add(cameraPosition, direction);
    }

    /** The tree collision loop; note that the look target was set before it runs. */
    method ResolveTreeCollisions(sqrt: Root)
      modifies this`cameraPosition
      ensures cameraPosition == TreePushes(old(cameraPosition), sceneObjects, sqrt)
      ensures cameraPosition.y == old(cameraPosition).y
    {
      cameraPosition := PushOutOfTrees(cameraPosition, sceneObjects, sqrt);
    }

    /** The Playing branch of processEvents, its blocks in source order. */
    method PlayingTick(input: Input, deltaTime: real, env: Env)
      requires Valid()
      modifies this`isCrouching, this`isSprinting, this`isCreativeMode, this`isGrounded,
               this`speedMultiplier, this`verticalVelocity, this`currentEyeHeight,
               this`cameraPosition, this`cameraTarget, this`cameraYaw, this`cameraPitch, this`ball
      ensures Valid()
      ensures isCrouching == (old(isCrouching) != input.cPressed)
      ensures isSprinting == (old(isSprinting) != input.shiftPressed)
      ensures isCreativeMode == (old(isCreativeMode) != input.gPressed)
      ensures isCreativeMode ==> isGrounded && verticalVelocity == 0.0
      ensures !isCreativeMode && isGrounded ==> verticalVelocity == 0.0
      ensures cameraYaw == old(cameraYaw) + input.mouseDelta.x * sensitivity
      ensures cameraPitch == ClampPitch(old(cameraPitch) - input.mouseDelta.y * sensitivity)
      ensures ball.position == old(ball).position && ball.radius == old(ball).radius
      ensures ball.restitution == old(ball).restitution
      ensures speedMultiplier == Lerp(old(speedMultiplier), TargetMultiplier(isSprinting, isCrouching), SmoothingRate * deltaTime)
      ensures currentEyeHeight == Lerp(old(currentEyeHeight), if isCrouching then CrouchingEyeHeight else StandingEyeHeight,
                                       SmoothingRate * deltaTime)
    {
      MoveTick(input, deltaTime, env);
      MouseLook(input.mouseDelta, env.spherical);
      ResolveTreeCollisions(env.sqrt);
    }

    /** The toggles, speed, movement, kick and physics blocks of the Playing branch. */
    method MoveTick(input: Input, deltaTime: real, env: Env)
      requires cameraUp == WorldUp
      modifies this`isCrouching, this`isSprinting, this`isCreativeMode, this`isGrounded,
               this`speedMultiplier, this`verticalVelocity, this`currentEyeHeight,
               this`cameraPosition, this`ball
      ensures isCrouching == (old(isCrouching) != input.cPressed)
      ensures isSprinting == (old(isSprinting) != input.shiftPressed)
      ensures isCreativeMode == (old(isCreativeMode) != input.gPressed)
      ensures isCreativeMode ==> isGrounded && verticalVelocity == 0.0
      ensures !isCreativeMode && isGrounded ==> verticalVelocity == 0.0
      ensures ball.position == old(ball).position && ball.radius == old(ball).radius
      ensures ball.restitution == old(ball).restitution
      ensures speedMultiplier == Lerp(old(speedMultiplier), TargetMultiplier(isSprinting, isCrouching), SmoothingRate * deltaTime)
      ensures currentEyeHeight == Lerp(old(currentEyeHeight), if isCrouching then CrouchingEyeHeight else StandingEyeHeight,
                                       SmoothingRate * deltaTime)
    {
      ApplyToggles(input);
      var currentSpeed := UpdateSpeed(deltaTime);
      var start := cameraPosition;
      var next := MoveAndCommit(input, currentSpeed, deltaTime, env.sqrt);
      KickTheBall(start, next, env.sqrt);
      UpdatePhysics(input, currentSpeed, deltaTime, env.cast);
    }

    /**
      The Paused branch of processEvents. A left click on the resume button
      resumes, on the exit button ends the program (reported as `exited`),
      on the slider handle starts a drag; releasing the button ends the drag,
      and while dragging the slider follows the mouse.
    */
    method PausedTick(input: Input) returns (exited: bool)
      requires Valid()
      modifies this`currentState, this`draggingSlider, this`sliderValue, this`sensitivity
      ensures Valid()
      ensures exited <==> input.leftPressed && PointInRect(input.mousePosition, exitBtnRect)
      ensures !exited ==>
                currentState == (if input.leftPressed && PointInRect(input.mousePosition, resumeBtnRect) then Playing else old(currentState))
      ensures !exited ==>
                draggingSlider == (!input.leftReleased &&
                                   (old(draggingSlider) || (input.leftPressed && PointInRect(input.mousePosition, sliderHandleRect))))
      ensures !exited && draggingSlider ==>
                sensitivity == Lerp(MinSensitivity, MaxSensitivity, sliderValue) &&
                (sliderTrackRect.x <= input.mousePosition.x <= sliderTrackRect.x + sliderTrackRect.width ==>
                   sliderTrackRect.x + sliderValue * sliderTrackRect.width == input.mousePosition.x) &&
                (input.mousePosition.x <= sliderTrackRect.x ==> sliderValue == 0.0) &&
                (sliderTrackRect.x + sliderTrackRect.width <= input.mousePosition.x ==> sliderValue == 1.0)
      ensures exited || !draggingSlider ==> sliderValue == old(sliderValue) && sensitivity == old(sensitivity)
    {
      var mousePos := input.mousePosition;
      if input.leftPressed {
        if PointInRect(mousePos, resumeBtnRect) {
          currentState := Playing;
        }
        if PointInRect(mousePos, exitBtnRect) {
          return true;
        }
        if PointInRect(mousePos, sliderHandleRect) {
          draggingSlider := true;
        }
      }
      exited := false;

      if input.leftReleased {
        draggingSlider := false;
      }

      if draggingSlider {
        sliderValue, sensitivity := DragSlider(mousePos.x, sliderTrackRect);
      }
    }

    /**
      processEvents: the escape check, then the branch of the state it leaves.
      The Paused branch does not touch the player, the look angles or the ball.
    */
    method ProcessEvents(input: Input, deltaTime: real, env: Env) returns (exited: bool)
      requires Valid()
      modifies this
      ensures Valid()
      ensures AfterEscape(old(currentState), input.escapePressed) == Playing ==>
                !exited && currentState == Playing &&
                sliderValue == old(sliderValue) && sensitivity == old(sensitivity) &&
                (isCreativeMode ==> isGrounded && verticalVelocity == 0.0)
      ensures AfterEscape(old(currentState), input.escapePressed) == Playing ==>
                isCrouching == (old(isCrouching) != input.cPressed) &&
                isSprinting == (old(isSprinting) != input.shiftPressed) &&
                isCreativeMode == (old(isCreativeMode) != input.gPressed) &&
                cameraYaw == old(cameraYaw) + input.mouseDelta.x * sensitivity &&
                cameraPitch == ClampPitch(old(cameraPitch) - input.mouseDelta.y * sensitivity) &&
                speedMultiplier == Lerp(old(speedMultiplier), TargetMultiplier(isSprinting, isCrouching), SmoothingRate * deltaTime) &&
                currentEyeHeight == Lerp(old(currentEyeHeight), if isCrouching then CrouchingEyeHeight else StandingEyeHeight,
                                         SmoothingRate * deltaTime)
      ensures AfterEscape(old(currentState), input.escapePressed) == Paused ==>
                (exited <==> input.leftPressed && PointInRect(input.mousePosition, exitBtnRect)) &&
                cameraPosition == old(cameraPosition) && cameraTarget == old(cameraTarget) &&
                cameraYaw == old(cameraYaw) && cameraPitch == old(cameraPitch) &&
                verticalVelocity == old(verticalVelocity) && ball == old(ball)
      ensures AfterEscape(old(currentState), input.escapePressed) == Paused && !exited ==>
                currentState == (if input.leftPressed && PointInRect(input.mousePosition, resumeBtnRect) then Playing else Paused)
      ensures AfterEscape(old(currentState), input.escapePressed) == Paused ==>
                isCrouching == old(isCrouching) && isSprinting == old(isSprinting) &&
                isCreativeMode == old(isCreativeMode) && isGrounded == old(isGrounded) &&
                speedMultiplier == old(speedMultiplier) && currentEyeHeight == old(currentEyeHeight)
      ensures AfterEscape(old(currentState), input.escapePressed) == Playing ==> draggingSlider == old(draggingSlider)
      ensures AfterEscape(old(currentState), input.escapePressed) == Paused && !exited ==>
                draggingSlider == (!input.leftReleased &&
                                   (old(draggingSlider) || (input.leftPressed && PointInRect(input.mousePosition, sliderHandleRect))))
      ensures AfterEscape(old(currentState), input.escapePressed) == Paused && !exited && draggingSlider ==>
                sensitivity == Lerp(MinSensitivity, MaxSensitivity, sliderValue) &&
                (sliderTrackRect.x <= input.mousePosition.x <= sliderTrackRect.x + sliderTrackRect.width ==>
                   sliderTrackRect.x + sliderValue * sliderTrackRect.width == input.mousePosition.x) &&
                (input.mousePosition.x <= sliderTrackRect.x ==> sliderValue == 0.0) &&
                (sliderTrackRect.x + sliderTrackRect.width <= input.mousePosition.x ==> sliderValue == 1.0)
      ensures AfterEscape(old(currentState), input.escapePressed) == Paused && (exited || !draggingSlider) ==>
                sliderValue == old(sliderValue) && sensitivity == old(sensitivity)
      ensures sliderHandleRect == old(sliderHandleRect)
    {
      HandleEscape(input.escapePressed);
      if currentState == Playing {
        PlayingTick(input, deltaTime, env);
        exited := false;
      } else {
        exited := PausedTick(input);
      }
    }

    /** updateBall: flight, then the ground bounce, then the walls of the 500 x 500 area. */
    method UpdateBall(deltaTime: real, cast: RayCaster)
      modifies this`ball
      ensures -WallLimit <= ball.position.x <= WallLimit && -WallLimit <= ball.position.z <= WallLimit
      ensures ball.radius == old(ball).radius && ball.restitution == old(ball).restitution
    {
      var b := Fly(ball, deltaTime);
      b := GroundBounce(b, cast);
      var px, vx := WallBounce(b.position.x, b.velocity.x, b.restitution);
      var pz, vz := WallBounce(b.position.z, b.velocity.z, b.restitution);
      ball := b.(position := b.position.(x := px, z := pz), velocity := b.velocity.(x := vx, z := vz));
    }

    /** The slider handle update that the drawing of a Paused frame starts with. */
    method PlaceSliderHandle()
      modifies this`sliderHandleRect
      ensures sliderHandleRect == HandleFor(sliderTrackRect, old(sliderHandleRect), sliderValue)
    {
      sliderHandleRect := sliderHandleRect.(x := sliderTrackRect.x + sliderValue * sliderTrackRect.width - sliderHandleRect.width / 2.0);
      sliderHandleRect := sliderHandleRect.(y := sliderTrackRect.y + sliderTrackRect.height / 2.0 - sliderHandleRect.height / 2.0);
    }

    /**
      One pass of run's loop without the drawing calls: processEvents, updateBall
      and, in a Paused frame only, the handle update. `exited` is the exit(0) of
      the pause menu.
    */
    method Frame(input: Input, deltaTime: real, env: Env) returns (exited: bool)
      requires Valid()
      modifies this
      ensures Valid()
      ensures AfterEscape(old(currentState), input.escapePressed) == Playing ==> !exited
      ensures !exited ==> -WallLimit <= ball.position.x <= WallLimit && -WallLimit <= ball.position.z <= WallLimit
      ensures !exited && currentState == Paused ==>
                sliderHandleRect == HandleFor(sliderTrackRect, old(sliderHandleRect), sliderValue)
      ensures !exited && currentState == Playing ==> sliderHandleRect == old(sliderHandleRect)
    {
      exited := ProcessEvents(input, deltaTime, env);
      if exited {
        return;
      }
      UpdateBall(deltaTime, env.cast);
      if currentState == Paused {
        PlaceSliderHandle();
      }
    }
  }
}
