/**
 The pawn over successive frames.  In each frame the input handlers that fired
 run first, in the order the inputs arrived, and then the pawn ticks once with
 the frame's ground trace result, its levelness and its frame time.  The
 lemmas here state what the per-frame rules guarantee over any run.
 */
module Frames {
  import opened Movement

  /** An input action delivered to the pawn, with its axis values. */
  datatype Input =
    | FlyInput(value: real)
    | MoveInput(axisX: real, axisY: real)
    | LookInput(axisX: real, axisY: real)
    | RollInput(value: real)

  /** What the engine supplies for one frame. */
  datatype Frame = Frame(inputs: seq<Input>, isLevel: bool, probe: GroundProbe, deltaTime: real)

  /** Runs the handler bound to the input's action. */
  function Handle(t: Tuning, s: MoveState, input: Input, deltaTime: real): (r: Step)
    ensures !Lifts(s, input) ==> r.state == s
    ensures Lifts(s, input) ==> r.state == s.(velocityZ := 0.0, flying := true)
  {
    match input
    case FlyInput(value) => FlyUpDown(t, s, value, deltaTime)
    case MoveInput(x, y) => Step(s, Move(t, s, x, y, deltaTime))
    case LookInput(x, y) => Step(s, Look(t, s, x, y, deltaTime))
    case RollInput(value) => Step(s, Roll(t, s, value, deltaTime))
  }

  /** The input is a fly input that the pawn does not ignore. */
  predicate Lifts(s: MoveState, input: Input)
  {
    input.FlyInput? && !(input.value < 0.0 && s.grounded)
  }

  /**
   The state after all handlers of one frame: a fly input the pawn does not
   ignore stops the vertical motion and marks the frame as flown; without one
   nothing changes.
   */
  function HandleAll(t: Tuning, s: MoveState, inputs: seq<Input>, deltaTime: real): (r: MoveState)
    ensures (exists i :: 0 <= i < |inputs| && Lifts(s, inputs[i])) ==>
              r == s.(velocityZ := 0.0, flying := true)
    ensures (forall i :: 0 <= i < |inputs| ==> !Lifts(s, inputs[i])) ==> r == s
    decreases |inputs|
  {
    if inputs == [] then
      s
    else
      var next := Handle(t, s, inputs[0], deltaTime).state;
      assert forall x :: Lifts(next, x) == Lifts(s, x);
      assert forall i :: 1 <= i < |inputs| ==> inputs[i] == inputs[1..][i - 1];
      HandleAll(t, next, inputs[1..], deltaTime)
  }

  /** One whole frame: its handlers, then the tick. */
  function RunFrame(t: Tuning, s: MoveState, f: Frame): (r: MoveState)
    ensures !r.flying
  {
    Tick(t, HandleAll(t, s, f.inputs, f.deltaTime), f.isLevel, f.probe, f.deltaTime).state
  }

  /** The state after running the frames in order. */
  function Run(t: Tuning, s: MoveState, frames: seq<Frame>): (r: MoveState)
    ensures frames != [] ==> !r.flying
    decreases |frames|
  {
    if frames == [] then s else Run(t, RunFrame(t, s, frames[0]), frames[1..])
  }

  /** The total time the frames span. */
  function TotalTime(frames: seq<Frame>): real
    decreases |frames|
  {
    if frames == [] then 0.0 else frames[0].deltaTime + TotalTime(frames[1..])
  }

  /**
   Between handler calls and frames the pawn never moves up on its own, stands
   still on ground, and is at rest vertically in a flown frame.
   */
  predicate VerticalInvariant(s: MoveState)
  {
    && s.velocityZ <= 0.0
    && (s.grounded ==> s.velocityZ == 0.0)
    && (s.flying ==> s.velocityZ == 0.0)
  }

  /** Frame times are never negative. */
  predicate ForwardInTime(frames: seq<Frame>)
  {
    forall i :: 0 <= i < |frames| ==> frames[i].deltaTime >= 0.0
  }

  lemma RunFrameKeepsInvariant(t: Tuning, s: MoveState, f: Frame)
    requires t.gravity <= 0.0 && f.deltaTime >= 0.0
    requires VerticalInvariant(s)
    ensures VerticalInvariant(RunFrame(t, s, f))
  {
  }

  /** With non-positive gravity the invariant holds after any run that starts from it. */
  lemma {:induction false} RunKeepsInvariant(t: Tuning, s: MoveState, frames: seq<Frame>)
    requires t.gravity <= 0.0 && ForwardInTime(frames)
    requires VerticalInvariant(s)
    ensures VerticalInvariant(Run(t, s, frames))
    decreases |frames|
  {
    if frames != [] {
      RunFrameKeepsInvariant(t, s, frames[0]);
      RunKeepsInvariant(t, RunFrame(t, s, frames[0]), frames[1..]);
    }
  }

  /** A spawned pawn under the default tuning never gains upward velocity and is at rest whenever it is grounded. */
  lemma SpawnedPawnNeverRises(frames: seq<Frame>)
    requires ForwardInTime(frames)
    ensures var r := Run(DefaultTuning, Initial, frames);
            r.velocityZ <= 0.0 && (r.grounded ==> r.velocityZ == 0.0)
  {
    RunKeepsInvariant(DefaultTuning, Initial, frames);
  }

  /** The frame carries a non-downward fly input, which the pawn never ignores. */
  predicate HasLiftInput(f: Frame)
  {
    exists j :: 0 <= j < |f.inputs| && f.inputs[j].FlyInput? && f.inputs[j].value >= 0.0
  }

  /** Holding a non-downward fly input in every frame keeps the pawn from falling. */
  lemma {:induction false} HoldingFlyHovers(t: Tuning, s: MoveState, frames: seq<Frame>)
    requires frames != []
    requires forall i :: 0 <= i < |frames| ==> HasLiftInput(frames[i])
    ensures Run(t, s, frames).velocityZ == 0.0
    decreases |frames|
  {
    var f := frames[0];
    assert HasLiftInput(f);
    var j :| 0 <= j < |f.inputs| && f.inputs[j].FlyInput? && f.inputs[j].value >= 0.0;
    assert Lifts(s, f.inputs[j]);
    var next := RunFrame(t, s, f);
    assert next.velocityZ == 0.0;
    if |frames| > 1 {
      assert forall i :: 0 <= i < |frames[1..]| ==> frames[1..][i] == frames[i + 1];
      HoldingFlyHovers(t, next, frames[1..]);
    }
  }

  /** The frame brings no input and its trace finds no ground. */
  predicate InFreeFall(f: Frame)
  {
    f.inputs == [] && f.probe.Trace? && !IsGround(f.probe)
  }

  /** One frame of free fall adds gravity times the frame time to the vertical velocity and leaves the pawn airborne. */
  lemma FreeFallFrame(t: Tuning, s: MoveState, f: Frame)
    requires !s.flying && InFreeFall(f)
    ensures RunFrame(t, s, f) == MoveState(s.velocityZ + t.gravity * f.deltaTime, false, false, s.landing && !f.isLevel)
  {
  }

  /** Without input and without ground, the vertical velocity grows by gravity times the elapsed time. */
  lemma {:induction false} FreeFall(t: Tuning, s: MoveState, frames: seq<Frame>)
    requires !s.flying
    requires forall i :: 0 <= i < |frames| ==> InFreeFall(frames[i])
    ensures Run(t, s, frames).velocityZ == s.velocityZ + t.gravity * TotalTime(frames)
    ensures frames != [] ==> !Run(t, s, frames).grounded
    decreases |frames|
  {
    if frames != [] {
      var f, rest := frames[0], frames[1..];
      assert InFreeFall(f);
      FreeFallFrame(t, s, f);
      var next := RunFrame(t, s, f);
      assert forall i :: 0 <= i < |rest| ==> rest[i] == frames[i + 1];
      FreeFall(t, next, rest);
      var g, d, total := t.gravity, f.deltaTime, TotalTime(rest);
      assert TotalTime(frames) == d + total;
      assert g * d + g * total == g * (d + total);
    }
  }

  /** Without a frame whose trace finds ground, the landing flag is never raised. */
  lemma {:induction false} LandingNeedsTouchdown(t: Tuning, s: MoveState, frames: seq<Frame>)
    requires !s.landing
    requires forall i :: 0 <= i < |frames| ==> !IsGround(frames[i].probe)
    ensures !Run(t, s, frames).landing
    decreases |frames|
  {
    if frames != [] {
      assert !IsGround(frames[0].probe);
      assert forall i :: 0 <= i < |frames[1..]| ==> frames[1..][i] == frames[i + 1];
      LandingNeedsTouchdown(t, RunFrame(t, s, frames[0]), frames[1..]);
    }
  }
}
