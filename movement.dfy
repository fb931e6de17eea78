/**
 The per-frame movement rules of the drone pawn, stated on values.

 The pawn keeps four pieces of movement state: the vertical velocity, whether
 it stands on ground, whether a fly input arrived this frame, and whether it is
 still levelling out after a touchdown.  Every rule below takes the facts the
 engine would supply (the ground trace result, whether the rotation is already
 level, the frame time, the input axis values) as parameters, and returns the
 engine actions it asks for (offsets, rotations, the levelling interpolation)
 as `Request` values instead of performing them.
 */
module Movement {

  /** The designer-tunable values of the pawn. */
  datatype Tuning = Tuning(
    gravity: real,
    airControlRatio: real,
    groundCheckDistance: real,
    moveSpeed: real,
    rotationSpeed: real)

  /** The values a freshly placed pawn starts with. */
  const DefaultTuning := Tuning(-980.0, 0.3, 15.0, 500.0, 100.0)

  /** A trace hit counts as ground only when the surface faces up more steeply than this. */
  const MinGroundNormalZ: real := 0.7

  /** Interpolation speed of the levelling rotation after a touchdown. */
  const LandingInterpSpeed: real := 8.0

  /** The movement state of the pawn; only the vertical component of the velocity is ever used. */
  datatype MoveState = MoveState(velocityZ: real, grounded: bool, flying: bool, landing: bool)

  /** The state of a newly constructed pawn. */
  const Initial := MoveState(0.0, false, false, false)

  /**
   What the downward ground trace reports.  `Unavailable` stands for a pawn
   without a world or without its box component, where no trace is made.
   */
  datatype GroundProbe = Unavailable | Trace(hit: bool, impactNormalZ: real)

  datatype Vec3 = Vec3(x: real, y: real, z: real)

  /** A rotation delta in the engine's (pitch, yaw, roll) order. */
  datatype Rotator = Rotator(pitch: real, yaw: real, roll: real)

  /** An action the pawn asks the engine to perform on the actor. */
  datatype Request =
    | WorldOffset(offset: Vec3)                  // sweep the actor by the given amount in world space
    | LocalOffset(offset: Vec3)                  // sweep the actor by the given amount in its own frame
    | LocalRotation(turn: Rotator)              // rotate the actor by the given amount in its own frame
    | LevelOut(deltaTime: real, interpSpeed: real) // interpolate toward zero pitch and roll, same yaw

  /** The state after an operation and the actions it requested, in order. */
  datatype Step = Step(state: MoveState, requests: seq<Request>)

  predicate IsGround(probe: GroundProbe)
  {
    probe.Trace? && probe.hit && probe.impactNormalZ > MinGroundNormalZ
  }

  /**
   Classifies the trace result as ground or air.  Landing on ground from the
   air raises the landing flag and stops a fall; anything else is air.
   */
  function CheckGround(s: MoveState, probe: GroundProbe): (r: MoveState)
    ensures probe.Unavailable? ==> r == s
    ensures probe.Trace? ==> (r.grounded <==> probe.hit && probe.impactNormalZ > MinGroundNormalZ)
    ensures r.landing <==> s.landing || (!s.grounded && r.grounded)
    ensures r.velocityZ == if IsGround(probe) && s.velocityZ < 0.0 then 0.0 else s.velocityZ
    ensures r.flying == s.flying
  {
    match probe
    case Unavailable => s
    case Trace(hit, normalZ) =>
      if hit && normalZ > MinGroundNormalZ then
        var landing := if s.grounded then s.landing else true;
        var velocityZ := if s.velocityZ < 0.0 then 0.0 else s.velocityZ;
        MoveState(velocityZ, true, s.flying, landing)
      else
        s.(grounded := false)
  }

  /**
   One frame of the pawn: settle the landing rotation, check the ground, then
   either integrate gravity (or stand still on ground) and move by the
   resulting velocity, or, when a fly input arrived, leave the vertical motion
   to that input.  The fly flag is always cleared at the end.
   */
  function Tick(t: Tuning, s: MoveState, isLevel: bool, probe: GroundProbe, deltaTime: real): (r: Step)
    ensures !r.state.flying
    ensures probe.Trace? ==> (r.state.grounded <==> IsGround(probe))
    ensures probe.Unavailable? ==> r.state.grounded == s.grounded
    ensures r.state.landing <==> (s.landing && !isLevel) || (!s.grounded && r.state.grounded)
    ensures !s.flying && r.state.grounded ==> r.state.velocityZ == 0.0
    ensures !s.flying && !r.state.grounded ==>
              r.state.velocityZ == CheckGround(s, probe).velocityZ + t.gravity * deltaTime
    ensures s.flying ==> r.state.velocityZ == CheckGround(s, probe).velocityZ
    ensures r.requests ==
              (if s.landing && !isLevel then [LevelOut(deltaTime, LandingInterpSpeed)] else []) +
              (if s.flying then [] else [VerticalOffset(r.state.velocityZ, deltaTime)])
  {
    var landing := if s.landing then !isLevel else false;
    var turn: seq<Request> := if landing then [LevelOut(deltaTime, LandingInterpSpeed)] else [];
    var c := CheckGround(s.(landing := landing), probe);
    var velocityZ :=
      if c.flying then c.velocityZ
      else if c.grounded then 0.0
      else c.velocityZ + t.gravity * deltaTime;
    var fall: seq<Request> := if c.flying then [] else [VerticalOffset(velocityZ, deltaTime)];
    Step(MoveState(velocityZ, c.grounded, false, c.landing), turn + fall)
  }

  /** The world-space sweep by one frame of vertical velocity. */
  function VerticalOffset(velocityZ: real, deltaTime: real): Request
  {
    WorldOffset(Vec3(0.0, 0.0, velocityZ * deltaTime))
  }

  /**
   The vertical flight input.  A downward input on ground is ignored; any
   other input cancels the vertical velocity, marks the frame as flown, and
   moves the pawn along its own up axis.
   */
  function FlyUpDown(t: Tuning, s: MoveState, value: real, deltaTime: real): (r: Step)
    ensures value < 0.0 && s.grounded ==> r == Step(s, [])
    ensures !(value < 0.0 && s.grounded) ==>
              && r.state == MoveState(0.0, s.grounded, true, s.landing)
              && r.requests == [UpOffset(value, t.moveSpeed, deltaTime)]
  {
    if value < 0.0 && s.grounded then
      Step(s, [])
    else
      Step(s.(velocityZ := 0.0, flying := true), [UpOffset(value, t.moveSpeed, deltaTime)])
  }

  /**
   The planar movement input: forward along the second axis, right along the
   first, at full speed on ground and at the air-control fraction in the air.
   */
  function Move(t: Tuning, s: MoveState, axisX: real, axisY: real, deltaTime: real): (r: seq<Request>)
    ensures s.grounded ==> r == PlanarOffsets(t.moveSpeed, axisX, axisY, deltaTime)
    ensures !s.grounded ==> r == PlanarOffsets(AirSpeed(t), axisX, axisY, deltaTime)
  {
    var speed := if s.grounded then t.moveSpeed else AirSpeed(t);
    PlanarOffsets(speed, axisX, axisY, deltaTime)
  }

  /** The planar speed in the air: the air-control fraction of the ground speed. */
  function AirSpeed(t: Tuning): real
  {
    t.moveSpeed * t.airControlRatio
  }

  /** The forward offset, then the right offset, for the given speed. */
  function PlanarOffsets(speed: real, axisX: real, axisY: real, deltaTime: real): seq<Request>
  {
    [LocalOffset(Vec3(axisY * speed * deltaTime, 0.0, 0.0)),
     LocalOffset(Vec3(0.0, axisX * speed * deltaTime, 0.0))]
  }

  /** The look input: yaw always, pitch (inverted second axis) only in the air. */
  function Look(t: Tuning, s: MoveState, axisX: real, axisY: real, deltaTime: real): (r: seq<Request>)
    ensures |r| == if s.grounded then 1 else 2
    ensures r[|r| - 1] == LocalRotation(YawTurn(axisX, t.rotationSpeed, deltaTime))
    ensures !s.grounded ==> r[0] == LocalRotation(PitchTurn(axisY, t.rotationSpeed, deltaTime))
  {
    var yaw := [LocalRotation(YawTurn(axisX, t.rotationSpeed, deltaTime))];
    if s.grounded then yaw else [LocalRotation(PitchTurn(axisY, t.rotationSpeed, deltaTime))] + yaw
  }

  /** The roll input: ignored on ground. */
  function Roll(t: Tuning, s: MoveState, value: real, deltaTime: real): (r: seq<Request>)
    ensures s.grounded <==> r == []
    ensures !s.grounded ==> r == [LocalRotation(RollTurn(value, t.rotationSpeed, deltaTime))]
  {
    if s.grounded then [] else [LocalRotation(RollTurn(value, t.rotationSpeed, deltaTime))]
  }

  /** The offset along the pawn's own up axis for a fly input. */
  function UpOffset(value: real, speed: real, deltaTime: real): Request
  {
    LocalOffset(Vec3(0.0, 0.0, value * speed * deltaTime))
  }

  /** A pitch turn; a positive axis value pitches the nose down. */
  function PitchTurn(axisY: real, rotationSpeed: real, deltaTime: real): Rotator
  {
    Rotator(axisY * rotationSpeed * deltaTime * -1.0, 0.0, 0.0)
  }

  function YawTurn(axisX: real, rotationSpeed: real, deltaTime: real): Rotator
  {
    Rotator(0.0, axisX * rotationSpeed * deltaTime, 0.0)
  }

  function RollTurn(value: real, rotationSpeed: real, deltaTime: real): Rotator
  {
    Rotator(0.0, 0.0, value * rotationSpeed * deltaTime)
  }

  /** True when no request rotates the actor about its pitch or roll axis. */
  predicate KeepsLevel(requests: seq<Request>)
  {
    forall i :: 0 <= i < |requests| && requests[i].LocalRotation? ==>
      requests[i].turn.pitch == 0.0 && requests[i].turn.roll == 0.0
  }

  /** On ground the look and roll inputs can only turn the pawn about its vertical axis. */
  lemma GroundedInputKeepsLevel(t: Tuning, s: MoveState, axisX: real, axisY: real, value: real, deltaTime: real)
    requires s.grounded
    ensures KeepsLevel(Look(t, s, axisX, axisY, deltaTime))
    ensures KeepsLevel(Roll(t, s, value, deltaTime))
  {
  }

  /** Every offset an airborne move asks for is the grounded one scaled by the air-control ratio. */
  lemma AirMoveIsScaledGroundMove(t: Tuning, s: MoveState, axisX: real, axisY: real, deltaTime: real)
    ensures var ground := Move(t, s.(grounded := true), axisX, axisY, deltaTime);
            var air := Move(t, s.(grounded := false), axisX, axisY, deltaTime);
            && air[0].offset.x == t.airControlRatio * ground[0].offset.x
            && air[1].offset.y == t.airControlRatio * ground[1].offset.y
  {
  }

  /** Applying the fly input twice leaves the same state as applying it once. */
  lemma FlyUpDownStateIdempotent(t: Tuning, s: MoveState, value: real, deltaTime: real)
    ensures var once := FlyUpDown(t, s, value, deltaTime).state;
            FlyUpDown(t, once, value, deltaTime).state == once
  {
  }
}
