/**
 The drone pawn as an object: its tuning values and its four movement fields,
 updated in place by the tick and the fly input, and read by the other input
 handlers.  Each method is proved to do exactly what the rule of the same name
 in `Movement` says.
 */
module Pawn {
  import Movement

  class DronePawn {
    /** The designer-editable tuning.gravity, air-control ratio, ground check distance, move and rotation speeds. */
    var tuning: Movement.Tuning

    var velocityZ: real
    var isGrounded: bool
    var isFlying: bool
    var isLanding: bool

    function State(): Movement.MoveState
      reads this
    {
      Movement.MoveState(velocityZ, isGrounded, isFlying, isLanding)
    }

    /** A new pawn is at rest, airborne, not flown and not landing, with the default tuning. */
    constructor ()
      ensures velocityZ == 0.0 && !isGrounded && !isFlying && !isLanding
      ensures State() == Movement.Initial
      ensures tuning == Movement.DefaultTuning
    {
      tuning := Movement.Tuning(-980.0, 0.3, 15.0, 500.0, 100.0);
      velocityZ := 0.0;
      isGrounded := false;
      isFlying := false;
      isLanding := false;
    }

    method CheckGround(probe: Movement.GroundProbe)
      modifies this`velocityZ, this`isGrounded, this`isLanding
      ensures State() == Movement.CheckGround(old(State()), probe)
    {
      if probe.Unavailable? {
        return;
      }
      if probe.hit && probe.impactNormalZ > Movement.MinGroundNormalZ {
        if !isGrounded {
          isLanding := true;
        }
        isGrounded := true;
        if velocityZ < 0.0 {
          velocityZ := 0.0;
        }
      } else {
        isGrounded := false;
      }
    }

    method Tick(deltaTime: real, isLevel: bool, probe: Movement.GroundProbe) returns (requests: seq<Movement.Request>)
      modifies this`velocityZ, this`isGrounded, this`isFlying, this`isLanding
      ensures Movement.Step(State(), requests) == Movement.Tick(tuning, old(State()), isLevel, probe, deltaTime)
    {
      requests := [];
      if isLanding {
        if isLevel {
          isLanding := false;
        } else {
          requests := [Movement.LevelOut(deltaTime, Movement.LandingInterpSpeed)];
        }
      }

      CheckGround(probe);

      if !isFlying {
        if isGrounded {
          velocityZ := 0.0;
        } else {
          velocityZ := velocityZ + tuning.gravity * deltaTime;
        }
        requests := requests + [Movement.VerticalOffset(velocityZ, deltaTime)];
      }

      isFlying := false;
    }

    method FlyUpDown(value: real, deltaTime: real) returns (requests: seq<Movement.Request>)
      modifies this`velocityZ, this`isFlying
      ensures Movement.Step(State(), requests) == Movement.FlyUpDown(tuning, old(State()), value, deltaTime)
    {
      if value < 0.0 && isGrounded {
        return [];
      }
      velocityZ := 0.0;
      requests := [Movement.UpOffset(value, tuning.moveSpeed, deltaTime)];
      isFlying := true;
    }

    method Move(axisX: real, axisY: real, deltaTime: real) returns (requests: seq<Movement.Request>)
      ensures requests == Movement.Move(tuning, State(), axisX, axisY, deltaTime)
    {
      var speed := tuning.moveSpeed;
      if !isGrounded {
        speed := Movement.AirSpeed(tuning);
      }
      requests := Movement.PlanarOffsets(speed, axisX, axisY, deltaTime);
    }

    method Look(axisX: real, axisY: real, deltaTime: real) returns (requests: seq<Movement.Request>)
      ensures requests == Movement.Look(tuning, State(), axisX, axisY, deltaTime)
    {
      requests := [];
      if !isGrounded {
        requests := [Movement.LocalRotation(Movement.PitchTurn(axisY, tuning.rotationSpeed, deltaTime))];
      }
      requests := requests + [Movement.LocalRotation(Movement.YawTurn(axisX, tuning.rotationSpeed, deltaTime))];
    }

    method Roll(value: real, deltaTime: real) returns (requests: seq<Movement.Request>)
      ensures requests == Movement.Roll(tuning, State(), value, deltaTime)
    {
      if isGrounded {
        return [];
      }
      requests := [Movement.LocalRotation(Movement.RollTurn(value, tuning.rotationSpeed, deltaTime))];
    }
  }
}
