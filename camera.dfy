/**
  The free-look camera of src/Camera.cpp: keyboard walking on the horizontal
  plane and mouse look with a clamped pitch. The yaw/pitch-to-direction
  trigonometry of updateCameraVectors and the square root of glm::normalize are
  parameters.
*/
module CameraInput {
  import opened Geometry

  /** The look direction with its vertical part dropped, normalized. */
  function FlatFront(front: Vec3, sqrt: Root): (f: Vec3)
    ensures f.y == 0.0
  {
    Normalize(Vec3(front.x, 0.0, front.z), sqrt)
  }

  /** The strafing direction: normalize(cross(flatFront, up)). */
  function RightOf(flatFront: Vec3, up: Vec3, sqrt: Root): (r: Vec3)
    ensures flatFront.y == 0.0 && up.x == 0.0 && up.z == 0.0 ==> r.y == 0.0
  {
    Normalize(Cross(flatFront, up), sqrt)
  }

  /** Where processKeyboard leaves the camera: one step of speed * deltaTime along the flat front or the right vector. */
  function KeyboardStep(position: Vec3, front: Vec3, up: Vec3, speed: real,
                        direction: char, deltaTime: real, sqrt: Root): (r: Vec3)
    ensures up.x == 0.0 && up.z == 0.0 ==> r.y == position.y
    ensures direction !in {'W', 'S', 'A', 'D'} ==> r == position
  {
    var velocity := speed * deltaTime;
    var flatFront := FlatFront(front, sqrt);
    var right := RightOf(flatFront, up, sqrt);
    if direction == 'W' then Add(position, Scale(flatFront, velocity))
    else if direction == 'S' then Sub(position, Scale(flatFront, velocity))
    else if direction == 'A' then Sub(position, Scale(right, velocity))
    else if direction == 'D' then Add(position, Scale(right, velocity))
    else position
  }

  /**
    A proof aid for ProcessKeyboard: KeyboardStep unfolded case by case, with
    the flat front and right vectors named, so the method's four sequential
    ifs can be matched against it.
  */
  lemma KeyboardStepCases(position: Vec3, front: Vec3, up: Vec3, speed: real,
                          direction: char, deltaTime: real, sqrt: Root)
    ensures var step := KeyboardStep(position, front, up, speed, direction, deltaTime, sqrt);
            var flatFront := FlatFront(front, sqrt);
            var right := RightOf(flatFront, up, sqrt);
            (direction == 'W' ==> step == Add(position, Scale(flatFront, speed * deltaTime))) &&
            (direction == 'S' ==> step == Sub(position, Scale(flatFront, speed * deltaTime))) &&
            (direction == 'A' ==> step == Sub(position, Scale(right, speed * deltaTime))) &&
            (direction == 'D' ==> step == Add(position, Scale(right, speed * deltaTime))) &&
            (direction !in {'W', 'S', 'A', 'D'} ==> step == position)
  {}

  /** A step forward and a step back with the same front and deltaTime return to the start. */
  lemma ForwardThenBack(position: Vec3, front: Vec3, up: Vec3, speed: real, deltaTime: real, sqrt: Root)
    ensures KeyboardStep(KeyboardStep(position, front, up, speed, 'W', deltaTime, sqrt),
                         front, up, speed, 'S', deltaTime, sqrt) == position
  {}

  /** A strafe left and a strafe right with the same front and deltaTime return to the start. */
  lemma LeftThenRight(position: Vec3, front: Vec3, up: Vec3, speed: real, deltaTime: real, sqrt: Root)
    ensures KeyboardStep(KeyboardStep(position, front, up, speed, 'A', deltaTime, sqrt),
                         front, up, speed, 'D', deltaTime, sqrt) == position
  {}

  lemma StepOfUnitLength(position: Vec3, u: Vec3, v: real, sqrt: Root)
    requires IsRoot(sqrt)
    requires Dot(u, u) == 1.0 && 0.0 <= v
    ensures Length(Sub(Add(position, Scale(u, v)), position), sqrt) == v
    ensures Length(Sub(Sub(position, Scale(u, v)), position), sqrt) == v
  {
    assert Sub(Add(position, Scale(u, v)), position) == Scale(u, v);
    ScaledUnitLength(u, v, sqrt);
    var n := Scale(u, -1.0);
    DotScaleScale(u, -1.0);
    assert Sub(Sub(position, Scale(u, v)), position) == Scale(n, v);
    ScaledUnitLength(n, v, sqrt);
  }

  /**
    However far the camera looks up or down, a keyboard step covers exactly
    speed * deltaTime, as long as the camera is not looking straight up or down.
  */
  lemma StepLength(position: Vec3, front: Vec3, speed: real, direction: char, deltaTime: real, sqrt: Root)
    requires IsRoot(sqrt)
    requires front.x != 0.0 || front.z != 0.0
    requires 0.0 <= speed * deltaTime
    requires direction in {'W', 'S', 'A', 'D'}
    ensures Length(Sub(KeyboardStep(position, front, WorldUp, speed, direction, deltaTime, sqrt), position), sqrt)
         == speed * deltaTime
  {
    var flat := FlatFront(front, sqrt);
    assert Vec3(front.x, 0.0, front.z) != Origin;
    NormalizeIsUnit(Vec3(front.x, 0.0, front.z), sqrt);
    assert flat != Origin;
    var c := Cross(flat, WorldUp);
    assert c == Vec3(-flat.z, 0.0, flat.x);
    assert c != Origin;
    NormalizeIsUnit(c, sqrt);
    var right := RightOf(flat, WorldUp, sqrt);
    if direction == 'W' || direction == 'S' {
      StepOfUnitLength(position, flat, speed * deltaTime, sqrt);
    } else {
      StepOfUnitLength(position, right, speed * deltaTime, sqrt);
    }
  }

  class Camera {
    var position: Vec3
    var front: Vec3
    var up: Vec3
    var yaw: real
    var pitch: real
    var speed: real
    var verticalVelocity: real
    var isGrounded: bool
    var gravity: real
    var isCrouching: bool

    /** The member defaults of include/Camera.hpp. */
    constructor ()
      ensures position == Vec3(0.0, 0.0, 3.0) && front == Vec3(0.0, 0.0, -1.0) && up == WorldUp
      ensures yaw == -90.0 && pitch == 0.0 && speed == 5.5
      ensures verticalVelocity == 0.0 && isGrounded && gravity == -9.8 && !isCrouching
    {
      position := Vec3(0.0, 0.0, 3.0);
      front := Vec3(0.0, 0.0, -1.0);
      up := WorldUp;
      yaw := -90.0;
      pitch := 0.0;
      speed := 5.5;
      verticalVelocity := 0.0;
      isGrounded := true;
      gravity := -9.8;
      isCrouching := false;
    }

    /** Moves the camera only; the modifies clause keeps yaw, pitch, front and isCrouching as they were. */
    method ProcessKeyboard(direction: char, deltaTime: real, sqrt: Root)
      modifies this`position
      ensures position == KeyboardStep(old(position), front, up, speed, direction, deltaTime, sqrt)
      ensures up.x == 0.0 && up.z == 0.0 ==> position.y == old(position.y)
    {
      var velocity := speed * deltaTime;
      var flatFront := FlatFront(front, sqrt);
      var right := RightOf(flatFront, up, sqrt);
      KeyboardStepCases(position, front, up, speed, direction, deltaTime, sqrt);

      if direction == 'W' { position := Add(position, Scale(flatFront, velocity)); }
      if direction == 'S' { position := Sub(position, Scale(flatFront, velocity)); }
      if direction == 'A' { position := Sub(position, Scale(right, velocity)); }
      if direction == 'D' { position := Add(position, Scale(right, velocity)); }
      assert direction !in {'W', 'S', 'A', 'D'} ==> position == old(position);
      assert direction == 'W' ==> position == Add(old(position), Scale(flatFront, velocity));
      assert direction == 'S' ==> position == Sub(old(position), Scale(flatFront, velocity));
      assert direction == 'A' ==> position == Sub(old(position), Scale(right, velocity));
      assert direction == 'D' ==> position == Add(old(position), Scale(right, velocity));
    }

    /** Turns the camera: the yaw takes the whole offset, the pitch is clamped, and front follows both. */
    method ProcessMouse(xoffset: real, yoffset: real, spherical: (real, real) -> Vec3, sqrt: Root)
      modifies this`yaw, this`pitch, this`front
      ensures yaw == old(yaw) + xoffset
      ensures pitch == ClampPitch(old(pitch) + yoffset)
      ensures -PitchLimit <= pitch <= PitchLimit
      ensures front == Normalize(spherical(yaw, pitch), sqrt)
    {
      yaw := yaw + xoffset;
      pitch := pitch + yoffset;

      if pitch > PitchLimit { pitch := PitchLimit; }
      if pitch < -PitchLimit { pitch := -PitchLimit; }

      UpdateCameraVectors(spherical, sqrt);
    }

    /** Recomputes front from yaw and pitch; `spherical` is the cos/sin conversion. */
    method UpdateCameraVectors(spherical: (real, real) -> Vec3, sqrt: Root)
      modifies this`front
      ensures front == Normalize(spherical(yaw, pitch), sqrt)
    {
      front := Normalize(spherical(yaw, pitch), sqrt);
    }
  }

  /** A caller's view: walking forward and then back leaves the camera where it was. */
  method WalkForwardAndBack(camera: Camera, deltaTime: real, sqrt: Root)
    modifies camera
    ensures camera.position == old(camera.position)
    ensures camera.front == old(camera.front) && camera.yaw == old(camera.yaw) && camera.pitch == old(camera.pitch)
  {
    camera.ProcessKeyboard('W', deltaTime, sqrt);
    camera.ProcessKeyboard('S', deltaTime, sqrt);
    ForwardThenBack(old(camera.position), camera.front, camera.up, camera.speed, deltaTime, sqrt);
  }
}
