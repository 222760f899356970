/**
 The flight model of one animation frame: key input changes the velocity and
 the yaw, the velocity is damped, the position integrates the damped velocity
 and the cosmetic pitch and roll follow the velocity.

 JavaScript numbers are modelled as Dafny `real`s, so every sum and product is
 exact; in particular `(z - 0.2) + 0.2 == z` holds here although it need not
 hold in IEEE-754 doubles.
 */
module Flight {
  import opened Keys

  datatype Vec3 = Vec3(x: real, y: real, z: real) {
    function Plus(o: Vec3): Vec3 {
      Vec3(x + o.x, y + o.y, z + o.z)
    }

    /** Scales every component, as `multiplyScalar` does. */
    function Times(c: real): Vec3 {
      Vec3(c * x, c * y, c * z)
    }
  }

  const Zero: Vec3 := Vec3(0.0, 0.0, 0.0)

  /** Rotation angles (radians) about the x, y and z axes. */
  datatype Euler = Euler(x: real, y: real, z: real)

  /** The ship mesh: position and rotation are its own (it sits inside a group
      placed at height 10, which never moves); velocity is the frame loop's. */
  datatype Ship = Ship(position: Vec3, rotation: Euler, velocity: Vec3)

  const Start: Ship := Ship(Zero, Euler(0.0, 0.0, 0.0), Zero)

  const ShipSpeed: real := 0.2
  const RotationSpeed: real := 0.02
  const Damping: real := 0.95
  const RollFactor: real := 0.5
  const PitchFactor: real := 0.2

  /** The speed the damped loop settles at while a thrust key stays held:
      the fixed point of v = Damping * (v + ShipSpeed). */
  const CruiseSpeed: real := 3.8

  /** Net of two opposing inputs: +1, 0 or -1. */
  function Axis(plus: bool, minus: bool): int {
    (if plus then 1 else 0) - (if minus then 1 else 0)
  }

  /** What the key table asks for in one frame, each component in -1..1:
      `forward` is ArrowUp against ArrowDown, `climb` is w/W against s/S,
      `turn` is ArrowLeft against ArrowRight. */
  datatype Command = Command(forward: int, climb: int, turn: int)

  const Idle: Command := Command(0, 0, 0)

  function Decode(keys: KeyState): (c: Command)
    ensures -1 <= c.forward <= 1 && -1 <= c.climb <= 1 && -1 <= c.turn <= 1
    ensures c.forward == 0 <==> Held(keys, ArrowUp) == Held(keys, ArrowDown)
    ensures c.climb == 0 <==>
              (Held(keys, "w") || Held(keys, "W")) == (Held(keys, "s") || Held(keys, "S"))
    ensures c.turn == 0 <==> Held(keys, ArrowLeft) == Held(keys, ArrowRight)
    ensures c.forward == 1 <==> Held(keys, ArrowUp) && !Held(keys, ArrowDown)
    ensures c.climb == 1 <==>
              (Held(keys, "w") || Held(keys, "W")) && !(Held(keys, "s") || Held(keys, "S"))
    ensures c.turn == 1 <==> Held(keys, ArrowLeft) && !Held(keys, ArrowRight)
  {
    Command(Axis(Held(keys, ArrowUp), Held(keys, ArrowDown)),
            Axis(Held(keys, "w") || Held(keys, "W"), Held(keys, "s") || Held(keys, "S")),
            Axis(Held(keys, ArrowLeft), Held(keys, ArrowRight)))
  }

  /** The four velocity tests of the frame loop, in their order. */
  function Thrust(keys: KeyState, v: Vec3): (r: Vec3)
    ensures r.x == v.x
    ensures r.y == v.y + ShipSpeed * Decode(keys).climb as real
    ensures r.z == v.z - ShipSpeed * Decode(keys).forward as real
  {
    var z1 := if Held(keys, ArrowUp) then v.z - ShipSpeed else v.z;
    var z2 := if Held(keys, ArrowDown) then z1 + ShipSpeed else z1;
    var y1 := if Held(keys, "w") || Held(keys, "W") then v.y + ShipSpeed else v.y;
    var y2 := if Held(keys, "s") || Held(keys, "S") then y1 - ShipSpeed else y1;
    Vec3(v.x, y2, z2)
  }

  /** The two turning tests of the frame loop, in their order. */
  function Steer(keys: KeyState, yaw: real): (r: real)
    ensures r == yaw + RotationSpeed * Decode(keys).turn as real
  {
    var y1 := if Held(keys, ArrowLeft) then yaw + RotationSpeed else yaw;
    if Held(keys, ArrowRight) then y1 - RotationSpeed else y1
  }

  /** One frame of flight. */
  function Step(keys: KeyState, s: Ship): (r: Ship)
    ensures r.velocity.x == Damping * s.velocity.x
    ensures r.velocity.y == Damping * (s.velocity.y + ShipSpeed * Decode(keys).climb as real)
    ensures r.velocity.z == Damping * (s.velocity.z - ShipSpeed * Decode(keys).forward as real)
    ensures r.rotation.y == s.rotation.y + RotationSpeed * Decode(keys).turn as real
    ensures r.position == s.position.Plus(r.velocity)
    ensures r.rotation.x == PitchFactor * r.velocity.z
    ensures r.rotation.z == RollFactor * r.velocity.x
  {
    var v := Thrust(keys, s.velocity).Times(Damping);
    var yaw := Steer(keys, s.rotation.y);
    Ship(s.position.Plus(v), Euler(v.z * PitchFactor, yaw, v.x * RollFactor), v)
  }

  /** The cosmetic pitch and roll are the ones the velocity dictates. */
  ghost predicate AttitudeFollowsVelocity(sh: Ship) {
    sh.rotation.x == PitchFactor * sh.velocity.z && sh.rotation.z == RollFactor * sh.velocity.x
  }

  /** Frames in order, one key table per frame. After at least one frame the
      cosmetic pitch and roll match the velocity, whatever they started at. */
  function Run(frames: seq<KeyState>, s: Ship): (r: Ship)
    ensures |frames| == 0 ==> r == s
    ensures |frames| > 0 ==> AttitudeFollowsVelocity(r)
    decreases |frames|
  {
    if |frames| == 0 then s else Run(frames[1..], Step(frames[0], s))
  }

  function Pow(b: real, n: nat): real {
    if n == 0 then 1.0 else b * Pow(b, n - 1)
  }

  /** Sum of the per-frame turn commands. */
  function NetTurn(frames: seq<KeyState>): int
    decreases |frames|
  {
    if |frames| == 0 then 0 else Decode(frames[0]).turn + NetTurn(frames[1..])
  }

  // ---------------------------------------------------------------- one frame

  /** A frame depends on the key table only through the command it decodes to. */
  lemma StepSeesOnlyCommand(k1: KeyState, k2: KeyState, s: Ship)
    requires Decode(k1) == Decode(k2)
    ensures Step(k1, s) == Step(k2, s)
  {
  }

  /** Keys the loop does not test have no effect, whatever they are set to. */
  lemma UnrecognisedKeyIgnored(keys: KeyState, k: string, b: bool, s: Ship)
    requires k !in Recognised
    ensures Step(keys[k := b], s) == Step(keys, s)
  {
  }

  /** Any two tables agreeing on the recognised keys give the same frame. */
  lemma OnlyRecognisedKeysMatter(k1: KeyState, k2: KeyState, s: Ship)
    requires forall k :: k in Recognised ==> Held(k1, k) == Held(k2, k)
    ensures Step(k1, s) == Step(k2, s)
  {
  }

  /** Holding ArrowUp and ArrowDown together is the same as holding neither. */
  lemma ForwardBackCancel(keys: KeyState, s: Ship)
    requires Held(keys, ArrowUp) && Held(keys, ArrowDown)
    ensures Step(keys, s) == Step(keys[ArrowUp := false][ArrowDown := false], s)
    ensures Thrust(keys, s.velocity).z == s.velocity.z
  {
  }

  /** Holding a climb key and a descend key together is the same as holding none. */
  lemma ClimbDescendCancel(keys: KeyState, up: string, down: string, s: Ship)
    requires up in {"w", "W"} && down in {"s", "S"}
    requires Held(keys, up) && Held(keys, down)
    ensures Step(keys, s) == Step(keys - {"w", "W", "s", "S"}, s)
    ensures Thrust(keys, s.velocity).y == s.velocity.y
  {
  }

  /** w and W are one control: holding both climbs no faster than holding one. */
  lemma BothClimbKeysCountOnce(keys: KeyState, s: Ship)
    requires Held(keys, "w")
    ensures Step(keys["W" := true], s) == Step(keys, s)
  {
  }

  /** The turning keys change the yaw by one RotationSpeed each and nothing else. */
  lemma TurnKeysOnlySteer(keys: KeyState, s: Ship)
    ensures var plain := Step(keys - {ArrowLeft, ArrowRight}, s);
            Step(keys, s) ==
              plain.(rotation := plain.rotation.(y := s.rotation.y
                + RotationSpeed * Axis(Held(keys, ArrowLeft), Held(keys, ArrowRight)) as real))
  {
  }

  /** Pitch and roll are derived, never fed back: the next frame does not read them. */
  lemma AttitudeIsCosmetic(keys: KeyState, s: Ship, pitch: real, roll: real)
    ensures Step(keys, s.(rotation := s.rotation.(x := pitch, z := roll))) == Step(keys, s)
  {
  }

  // ----------------------------------------------------------- many frames

  lemma {:induction false} RunCommandsOnly(f1: seq<KeyState>, f2: seq<KeyState>, s: Ship)
    requires |f1| == |f2|
    requires forall i :: 0 <= i < |f1| ==> Decode(f1[i]) == Decode(f2[i])
    ensures Run(f1, s) == Run(f2, s)
    decreases |f1|
  {
    if |f1| > 0 {
      StepSeesOnlyCommand(f1[0], f2[0], s);
      RunCommandsOnly(f1[1..], f2[1..], Step(f1[0], s));
    }
  }

  /** Lateral velocity only ever decays: after n frames it is Damping^n of what it was. */
  lemma {:induction false} RunLateralDecays(frames: seq<KeyState>, s: Ship)
    ensures Run(frames, s).velocity.x == Pow(Damping, |frames|) * s.velocity.x
    decreases |frames|
  {
    if |frames| > 0 {
      var t := Step(frames[0], s);
      var a := Run(frames[1..], t).velocity.x;
      assert Run(frames, s).velocity.x == a;
      assert a == Pow(Damping, |frames| - 1) * t.velocity.x by {
        RunLateralDecays(frames[1..], t);
      }
      DampedOnce(a, t.velocity.x, s.velocity.x, |frames|);
    }
  }

  /** Starting without lateral velocity and roll, the ship never rolls. */
  lemma {:induction false} RunNeverRolls(frames: seq<KeyState>, s: Ship)
    requires s.velocity.x == 0.0 && s.rotation.z == 0.0
    ensures Run(frames, s).velocity.x == 0.0
    ensures Run(frames, s).rotation.z == 0.0
    decreases |frames|
  {
    if |frames| > 0 {
      RunNeverRolls(frames[1..], Step(frames[0], s));
    }
  }

  /** With no net input, after n frames the velocity is Damping^n times the
      initial velocity and the heading is where it was. */
  lemma {:induction false} RunIdleDecays(frames: seq<KeyState>, s: Ship)
    requires forall i :: 0 <= i < |frames| ==> Decode(frames[i]) == Idle
    ensures Run(frames, s).velocity == s.velocity.Times(Pow(Damping, |frames|))
    ensures Run(frames, s).rotation.y == s.rotation.y
    decreases |frames|
  {
    if |frames| > 0 {
      var t := Step(frames[0], s);
      IdleFrame(frames[0], s);
      RunIdleDecays(frames[1..], t);
      DampedVector(Run(frames[1..], t).velocity, t.velocity, s.velocity, |frames|);
    }
  }

  /** A frame with no net input only damps the velocity and keeps the heading. */
  lemma IdleFrame(keys: KeyState, s: Ship)
    requires Decode(keys) == Idle
    ensures Step(keys, s).velocity == s.velocity.Times(Damping)
    ensures Step(keys, s).rotation.y == s.rotation.y
  {
  }

  lemma DampedVector(a: Vec3, t: Vec3, v: Vec3, n: nat)
    requires n > 0
    requires a == t.Times(Pow(Damping, n - 1)) && t == v.Times(Damping)
    ensures a == v.Times(Pow(Damping, n))
  {
    DampedOnce(a.x, t.x, v.x, n);
    DampedOnce(a.y, t.y, v.y, n);
    DampedOnce(a.z, t.z, v.z, n);
  }

  /** One more damped frame multiplies by one more power of Damping. */
  lemma DampedOnce(a: real, tx: real, sx: real, n: nat)
    requires n > 0
    requires a == Pow(Damping, n - 1) * tx && tx == Damping * sx
    ensures a == Pow(Damping, n) * sx
  {
    PowShift(Damping, n, sx);
  }

  lemma PowShift(b: real, n: nat, v: real)
    requires n > 0
    ensures Pow(b, n - 1) * (b * v) == Pow(b, n) * v
  {
  }

  /** An empty key table (the state at startup) decodes to no input. */
  lemma EmptyTableIsIdle()
    ensures Decode(Empty) == Idle
  {
  }

  /** The decay is geometric: Damping^n <= 1 / (1 + n/20), so after n frames
      without input at most 20/(n+20) of the velocity remains. */
  lemma {:induction false} DampingDecays(n: nat)
    ensures 0.0 < Pow(Damping, n) <= 1.0
    ensures Pow(Damping, n) * (1.0 + (1.0 - Damping) * n as real) <= 1.0
  {
    if n > 0 {
      DampingDecays(n - 1);
      var p := Pow(Damping, n - 1);
      var m := (n - 1) as real;
      assert Pow(Damping, n) == Damping * p;
      calc {
        Pow(Damping, n) * (1.0 + 0.05 * n as real);
      ==
        p * (Damping * (1.0 + 0.05 * m + 0.05));
      ==
        p * (1.0 + 0.05 * m - 0.0025 * (m + 1.0));
      <=  { assert p > 0.0; }
        p * (1.0 + 0.05 * m);
      }
    }
  }

  /** Whatever is held, speed along the thrust and climb axes never leaves
      [-CruiseSpeed, CruiseSpeed] once inside it. */
  lemma {:induction false} RunSpeedBounded(frames: seq<KeyState>, s: Ship)
    requires -CruiseSpeed <= s.velocity.z <= CruiseSpeed
    requires -CruiseSpeed <= s.velocity.y <= CruiseSpeed
    ensures -CruiseSpeed <= Run(frames, s).velocity.z <= CruiseSpeed
    ensures -CruiseSpeed <= Run(frames, s).velocity.y <= CruiseSpeed
    decreases |frames|
  {
    if |frames| > 0 {
      RunSpeedBounded(frames[1..], Step(frames[0], s));
    }
  }

  /** Holding forward thrust: velocity.z stays in [-4, 0] and z never increases. */
  lemma {:induction false} RunForwardStaysBounded(frames: seq<KeyState>, s: Ship)
    requires forall i :: 0 <= i < |frames| ==> Decode(frames[i]).forward == 1
    requires -4.0 <= s.velocity.z <= 0.0
    ensures -4.0 <= Run(frames, s).velocity.z <= 0.0
    ensures Run(frames, s).position.z <= s.position.z
    decreases |frames|
  {
    if |frames| > 0 {
      var t := Step(frames[0], s);
      assert t.position.z <= s.position.z;
      RunForwardStaysBounded(frames[1..], t);
    }
  }

  /** Holding forward thrust: the gap between velocity.z and -CruiseSpeed
      shrinks by Damping each frame, so velocity.z converges to -CruiseSpeed. */
  lemma {:induction false} RunForwardConverges(frames: seq<KeyState>, s: Ship)
    requires forall i :: 0 <= i < |frames| ==> Decode(frames[i]).forward == 1
    ensures Run(frames, s).velocity.z + CruiseSpeed
              == Pow(Damping, |frames|) * (s.velocity.z + CruiseSpeed)
    decreases |frames|
  {
    if |frames| > 0 {
      var t := Step(frames[0], s);
      assert t.velocity.z + CruiseSpeed == Damping * (s.velocity.z + CruiseSpeed);
      RunForwardConverges(frames[1..], t);
    }
  }

  /** Holding reverse thrust: velocity.z converges to +CruiseSpeed the same way. */
  lemma {:induction false} RunReverseConverges(frames: seq<KeyState>, s: Ship)
    requires forall i :: 0 <= i < |frames| ==> Decode(frames[i]).forward == -1
    ensures Run(frames, s).velocity.z - CruiseSpeed
              == Pow(Damping, |frames|) * (s.velocity.z - CruiseSpeed)
    decreases |frames|
  {
    if |frames| > 0 {
      var t := Step(frames[0], s);
      assert t.velocity.z - CruiseSpeed == Damping * (s.velocity.z - CruiseSpeed);
      RunReverseConverges(frames[1..], t);
    }
  }

  /** Holding climb: velocity.y converges to +CruiseSpeed the same way. */
  lemma {:induction false} RunClimbConverges(frames: seq<KeyState>, s: Ship)
    requires forall i :: 0 <= i < |frames| ==> Decode(frames[i]).climb == 1
    ensures Run(frames, s).velocity.y - CruiseSpeed
              == Pow(Damping, |frames|) * (s.velocity.y - CruiseSpeed)
    decreases |frames|
  {
    if |frames| > 0 {
      var t := Step(frames[0], s);
      assert t.velocity.y - CruiseSpeed == Damping * (s.velocity.y - CruiseSpeed);
      RunClimbConverges(frames[1..], t);
    }
  }

  /** Holding descend: velocity.y converges to -CruiseSpeed the same way. */
  lemma {:induction false} RunDescendConverges(frames: seq<KeyState>, s: Ship)
    requires forall i :: 0 <= i < |frames| ==> Decode(frames[i]).climb == -1
    ensures Run(frames, s).velocity.y + CruiseSpeed
              == Pow(Damping, |frames|) * (s.velocity.y + CruiseSpeed)
    decreases |frames|
  {
    if |frames| > 0 {
      var t := Step(frames[0], s);
      assert t.velocity.y + CruiseSpeed == Damping * (s.velocity.y + CruiseSpeed);
      RunDescendConverges(frames[1..], t);
    }
  }

  /** The heading after a run is the start heading plus RotationSpeed per net turn. */
  lemma {:induction false} RunHeading(frames: seq<KeyState>, s: Ship)
    ensures Run(frames, s).rotation.y == s.rotation.y + RotationSpeed * NetTurn(frames) as real
    decreases |frames|
  {
    if |frames| > 0 {
      RunHeading(frames[1..], Step(frames[0], s));
    }
  }

  /** From the program's initial state, for any key sequence, the ship never
      rolls and its thrust and climb speeds stay within CruiseSpeed. */
  lemma StartStaysLevelAndBounded(frames: seq<KeyState>)
    ensures Run(frames, Start).velocity.x == 0.0
    ensures Run(frames, Start).rotation.z == 0.0
    ensures -CruiseSpeed <= Run(frames, Start).velocity.z <= CruiseSpeed
    ensures -CruiseSpeed <= Run(frames, Start).velocity.y <= CruiseSpeed
  {
    RunNeverRolls(frames, Start);
    RunSpeedBounded(frames, Start);
  }

  /** The frame loop read from the other end: a run's last frame is one more
      step from the state the earlier frames reached. */
  lemma {:induction false} RunLastFrame(frames: seq<KeyState>, s: Ship)
    requires |frames| > 0
    ensures Run(frames, s) == Step(frames[|frames| - 1], Run(frames[..|frames| - 1], s))
    decreases |frames|
  {
    var rest := frames[1..];
    if |rest| > 0 {
      RunLastFrame(rest, Step(frames[0], s));
      assert frames[..|frames| - 1][1..] == rest[..|rest| - 1];
    }
  }
}
