# Drone pawn movement

A Dafny model of the movement core of `ADronePawn`, the player-controlled drone
of the HW7_DronePawn game project. Each frame the pawn settles its
post-landing rotation, traces downward to find ground, integrates gravity or
stands still, and clears its "flown this frame" flag. Four input handlers run
between ticks: vertical flight, planar movement, look and roll. They are gated
on whether the pawn stands on ground.

The project has three modules:

- `Movement` (`movement.dfy`) states every rule as a function on a value. The
  value `MoveState` holds the vertical velocity and the `grounded`, `flying` and
  `landing` flags. The function also receives the facts the engine would supply:
  - `GroundProbe`: the trace result, or `Unavailable` when the pawn has no world
    or no box component;
  - whether the current rotation is level within the engine's 1.0 tolerance;
  - the frame time;
  - the input axis values.

  Each function returns the actions the pawn asks of the engine as `Request`
  values: world or local offsets, local rotations, and the levelling
  interpolation. It does not perform them.
- `Pawn` (`pawn.dfy`) is the pawn as a class. It has the four movement fields
  and the designer tuning, and its methods update the fields in place with the
  same early returns as the original. Each method is proved equal to the
  `Movement` rule of the same name.
- `Frames` (`frames.dfy`) runs the pawn over a sequence of frames. In each frame
  the handlers of the inputs that fired run in order, then the pawn ticks. The
  lemmas in this module state what the rules guarantee over any run.

The tuning defaults are gravity -980, air-control ratio 0.3, ground check
distance 15, move speed 500 and rotation speed 100. A trace counts as ground
when its impact normal's Z exceeds 0.7. The levelling interpolation speed is 8.

## Model

| member | source | states |
|---|---|---|
| `Movement.CheckGround` | Source/HW7_DronePawn/Private/DronePawn.cpp:201-241 | With no world or no box, nothing changes. Otherwise `grounded` holds iff the trace hit and the normal's Z exceeds 0.7. `landing` becomes set exactly on an air-to-ground transition and is never cleared. On ground a negative vertical velocity becomes 0 and any other is kept. `flying` is untouched. |
| `Movement.Tick` | Source/HW7_DronePawn/Private/DronePawn.cpp:50-87 | `landing` is cleared when the rotation is level. Otherwise it stays set and a levelling request is issued. Ground is then checked. Without fly input the velocity ends at 0 on ground, or at the checked velocity plus gravity times the frame time in the air, and a world offset of velocity times frame time is requested. With fly input the checked velocity is kept and no offset is requested. `flying` always ends false. |
| `Movement.FlyUpDown` | Source/HW7_DronePawn/Private/DronePawn.cpp:155-171 | A negative input on ground changes nothing and requests nothing. Any other input zeroes the vertical velocity, sets `flying`, and requests an up offset of value times move speed times frame time. |
| `Movement.Move` | Source/HW7_DronePawn/Private/DronePawn.cpp:142-153 | Requests a forward offset from the second axis and then a right offset from the first axis. The speed is the move speed on ground and move speed times the air-control ratio in the air. |
| `Movement.Look` | Source/HW7_DronePawn/Private/DronePawn.cpp:173-186 | Always ends with a yaw turn from the first axis. In the air it first requests a pitch turn from the negated second axis. On ground it issues only the yaw turn. |
| `Movement.Roll` | Source/HW7_DronePawn/Private/DronePawn.cpp:188-199 | Requests nothing exactly when grounded. In the air it requests a single roll turn of value times rotation speed times frame time. |
| `Movement.GroundedInputKeepsLevel` | Source/HW7_DronePawn/Private/DronePawn.cpp:178-199 | On ground, no request from look or roll turns the pawn about its pitch or roll axis. |
| `Movement.AirMoveIsScaledGroundMove` | Source/HW7_DronePawn/Private/DronePawn.cpp:146-149 | Each airborne move offset is the grounded offset times the air-control ratio. |
| `Movement.FlyUpDownStateIdempotent` | Source/HW7_DronePawn/Private/DronePawn.cpp:159-170 | Applying the same fly input twice leaves the same state as applying it once. |
| `Pawn.DronePawn.constructor` | Source/HW7_DronePawn/Private/DronePawn.cpp:35-38 | A new pawn has zero velocity, and `grounded`, `flying` and `landing` are all false. It also has the default tuning declared in DronePawn.h. |
| `Pawn.DronePawn.CheckGround` | Source/HW7_DronePawn/Private/DronePawn.cpp:201-241 | The fields after the in-place update equal `Movement.CheckGround` of the fields before. Only velocity, `grounded` and `landing` may change. |
| `Pawn.DronePawn.Tick` | Source/HW7_DronePawn/Private/DronePawn.cpp:50-87 | The fields after the update and the requests issued equal `Movement.Tick` of the fields before. The tuning is not modified. |
| `Pawn.DronePawn.FlyUpDown` | Source/HW7_DronePawn/Private/DronePawn.cpp:155-171 | The fields after the update and the requests issued equal `Movement.FlyUpDown` of the fields before. Only velocity and `flying` may change. |
| `Pawn.DronePawn.Move` | Source/HW7_DronePawn/Private/DronePawn.cpp:142-153 | Changes no field and returns the requests of `Movement.Move`. |
| `Pawn.DronePawn.Look` | Source/HW7_DronePawn/Private/DronePawn.cpp:173-186 | Changes no field and returns the requests of `Movement.Look`. |
| `Pawn.DronePawn.Roll` | Source/HW7_DronePawn/Private/DronePawn.cpp:188-199 | Changes no field and returns the requests of `Movement.Roll`. |
| `Frames.Handle` | Source/HW7_DronePawn/Private/DronePawn.cpp:142-199 | Only a fly input that is not ignored changes the state. It zeroes the velocity and sets `flying`. Every other input leaves the state as it was. |
| `Frames.HandleAll` | Source/HW7_DronePawn/Private/DronePawn.cpp:159-170 | After a frame's handlers, the state has zero velocity and `flying` set iff some fly input was not ignored. Otherwise it is unchanged. |
| `Frames.Run` | Source/HW7_DronePawn/Private/DronePawn.cpp:86 | After one or more frames, `flying` is false. |
| `Frames.RunFrameKeepsInvariant` | Source/HW7_DronePawn/Private/DronePawn.cpp:70-86 | Take gravity that is not positive and a frame time that is not negative. Then one frame preserves three facts: the velocity is never positive, it is 0 on ground, and it is 0 in a flown frame. |
| `Frames.RunKeepsInvariant` | Source/HW7_DronePawn/Private/DronePawn.cpp:70-86 | The same three facts hold after any run of frames that starts from a state satisfying them. |
| `Frames.SpawnedPawnNeverRises` | Source/HW7_DronePawn/Private/DronePawn.cpp:35-38 | Start from the constructed state with the default tuning. Then the pawn never gains upward velocity on its own, and it is at rest whenever it is grounded. |
| `Frames.HoldingFlyHovers` | Source/HW7_DronePawn/Private/DronePawn.cpp:72-84 | If every frame carries a non-downward fly input, the vertical velocity is 0 after the run. Gravity never accumulates. |
| `Frames.FreeFallFrame` | Source/HW7_DronePawn/Private/DronePawn.cpp:78-81 | Take a frame without input whose trace finds no ground. It adds gravity times the frame time to the velocity and leaves the pawn airborne. |
| `Frames.FreeFall` | Source/HW7_DronePawn/Private/DronePawn.cpp:78-81 | Over frames without input and without ground, the velocity grows by gravity times the total elapsed time, and the pawn stays airborne. |
| `Frames.LandingNeedsTouchdown` | Source/HW7_DronePawn/Private/DronePawn.cpp:225-228 | If no frame's trace finds ground, a pawn that was not landing never becomes landing. |

## Left out

- The ground trace itself is left out. It runs from the actor location down by the box half-height plus `GroundCheckDistance`, on the visibility channel, ignoring the pawn. Its outcome is the `GroundProbe` parameter. `GroundCheckDistance` is carried in the tuning but only shapes that trace.
- The rotation test `FRotator::Equals` with tolerance 1.0 is given as the boolean `isLevel`. The axis normalisation it performs is engine code.
- `FMath::RInterpTo` with speed 8 is returned as a `LevelOut` request. The interpolated rotation is not computed.
- Offsets and rotations are returned as requests, not applied. Their sweep collisions, which may shorten a move, are not modelled.
- Only the Z component of `Velocity` is modelled. X and Y are set to zero at construction and never read or written again.
- Floating point is modelled as exact reals. `float` rounding is not modelled, nor is the difference between the `0.7f` literal and 0.7.
- The handlers read the frame time from the world without a null check. The model takes it as a parameter.
- Component construction, camera and spring-arm setup, `BeginPlay`, and the engine's own `Super::Tick` are engine wiring.
- Input binding in `SetupPlayerInputComponent`, the `ADroneController` class and the `ADroneModeBase` class are engine wiring. `Frames.Handle` stands in for the binding of the four actions to their handlers.
- Frames assumes that the input handlers of a frame run before the pawn's tick in that frame. The engine decides that order.
- The invariant lemmas in `Frames` assume gravity is not positive and frame times are not negative. A designer may set a positive gravity, and then the pawn can rise on its own.
