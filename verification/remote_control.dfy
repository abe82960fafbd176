/**
 The key-to-actuator controller of the remote-controlled car: the three
 keyboard callbacks `steer`, `move` and `stop`, the hardware reset `cleanup`
 and the state the controller is created with.

 Every callback is a pure function from the controller state and one key to
 the new state, the actuator commands it issued (in order) and whether the
 listener that called it keeps listening. The actuator drivers themselves are
 outside the model; `Actuate` records what each command sets on them, so that
 the wheel state a callback leaves behind can be checked against the commands
 it issued.
 */
module RemoteControl {
  import opened Options

  /** Steering range of the front wheels: 45 (left) to 135 (right), 90 is straight. */
  const MinAngle := 45
  const MaxAngle := 135
  const CenterAngle := 90
  /** The back-wheel speed `move` always uses, whatever speed was asked for. */
  const DriveSpeed := 60

  /** A key event as the keyboard listener delivers it: a special key, or a key code with an optional character. */
  datatype Key = SpecialKey | KeyCode(ch: Option<char>)

  /** The last direction primitive called on the back-wheel driver. */
  datatype Motion = NoMotion | Forward | Backward

  /** One call into the actuator drivers. */
  datatype Command =
    | Turn(angle: int)       // front wheels turn to an angle
    | SetSpeed(speed: int)   // back-wheel speed is assigned
    | DriveForward           // back wheels' forward primitive
    | DriveBackward          // back wheels' backward primitive

  /** What has last been commanded on the wheels. */
  datatype Wheels = Wheels(frontAngle: int, backSpeed: int, motion: Motion)

  /** The controller: its settings, the angle it tracks, and the wheels it drives. */
  datatype Car = Car(stepSize: int, angle: int, speed: int, saveImg: bool, wheels: Wheels)

  /** What a callback returns to its listener: `None` keeps it running, `False` stops it. */
  datatype Verdict = Continue | Quit

  /** The outcome of one callback. */
  datatype Reaction = Reaction(car: Car, cmds: seq<Command>, verdict: Verdict)

  /** The outcome of `cleanup`. */
  datatype Effect = Effect(car: Car, cmds: seq<Command>)

  predicate InRange(angle: int) {
    MinAngle <= angle <= MaxAngle
  }

  predicate Neutral(w: Wheels) {
    w.frontAngle == CenterAngle && w.backSpeed == 0
  }

  /** True when `key` is a key code carrying character `c`. */
  predicate IsChar(key: Key, c: char) {
    key.KeyCode? && key.ch == Some(c)
  }

  predicate IsSteerKey(key: Key) {
    IsChar(key, 'a') || IsChar(key, 'd')
  }

  predicate IsDriveKey(key: Key) {
    IsChar(key, 'w') || IsChar(key, 's')
  }

  /** What a command sets on the wheels. */
  function Actuate(w: Wheels, c: Command): Wheels {
    match c
    case Turn(a) => w.(frontAngle := a)
    case SetSpeed(v) => w.(backSpeed := v)
    case DriveForward => w.(motion := Forward)
    case DriveBackward => w.(motion := Backward)
  }

  /** The wheel state after issuing `cmds` in order. */
  function Replay(w: Wheels, cmds: seq<Command>): Wheels
    decreases |cmds|
  {
    if |cmds| == 0 then w else Replay(Actuate(w, cmds[0]), cmds[1..])
  }

  lemma {:induction false} ReplayConcat(w: Wheels, a: seq<Command>, b: seq<Command>)
    ensures Replay(w, a + b) == Replay(Replay(w, a), b)
    decreases |a|
  {
    if |a| > 0 {
      assert (a + b)[0] == a[0] && (a + b)[1..] == a[1..] + b;
      ReplayConcat(Actuate(w, a[0]), a[1..], b);
    } else {
      assert a + b == b;
    }
  }

  lemma ReplayTwo(w: Wheels, c1: Command, c2: Command)
    ensures Replay(w, [c1, c2]) == Actuate(Actuate(w, c1), c2)
  {
    assert [c1, c2][1..] == [c2];
    assert [c2][1..] == [];
    calc {
      Replay(w, [c1, c2]);
      Replay(Actuate(w, c1), [c2]);
      Replay(Actuate(Actuate(w, c1), c2), []);
    }
  }

  /**
   The controller as the constructor leaves it. The `speed` argument is
   accepted and ignored; the hardware setup has turned the front wheels
   straight and set the back wheels to speed 0.
   */
  function Init(stepSize: int, speed: int, saveImg: bool): (c: Car)
    ensures c.stepSize == stepSize && c.saveImg == saveImg
    ensures c.angle == CenterAngle && c.speed == DriveSpeed
    ensures Neutral(c.wheels) && c.wheels.frontAngle == c.angle && c.wheels.motion == NoMotion
  {
    Car(stepSize, CenterAngle, DriveSpeed, saveImg, Wheels(CenterAngle, 0, NoMotion))
  }

  lemma InitIgnoresSpeed(stepSize: int, speed1: int, speed2: int, saveImg: bool)
    ensures Init(stepSize, speed1, saveImg) == Init(stepSize, speed2, saveImg)
    ensures Init(stepSize, speed1, saveImg).speed == DriveSpeed
  {
  }

  /** Record a new steering angle and turn the front wheels to it. */
  function TurnTo(car: Car, angle: int): Reaction {
    Reaction(car.(angle := angle, wheels := Actuate(car.wheels, Turn(angle))), [Turn(angle)], Continue)
  }

  /** The steering listener's key-press callback. */
  function Steer(car: Car, key: Key): (r: Reaction)
    // the wheels are where the issued commands put them; nothing but the angle and the front wheels changes
    ensures r.car.wheels == Replay(car.wheels, r.cmds)
    ensures r.car.(angle := car.angle, wheels := car.wheels) == car
    ensures r.car.wheels.backSpeed == car.wheels.backSpeed && r.car.wheels.motion == car.wheels.motion
    // only `q` stops the listener; it and every key other than `a` and `d` change nothing
    ensures r.verdict == Quit <==> IsChar(key, 'q')
    ensures !IsSteerKey(key) ==> r.car == car && r.cmds == []
    // `a` and `d` always turn the front wheels to the recorded angle, even when it did not move
    ensures IsSteerKey(key) ==> r.cmds == [Turn(r.car.angle)] && r.car.wheels.frontAngle == r.car.angle
    // `a` steps left and saturates at 45
    ensures IsChar(key, 'a') ==>
      r.car.angle >= MinAngle && r.car.angle >= car.angle - car.stepSize
      && (r.car.angle == MinAngle || r.car.angle == car.angle - car.stepSize)
    // `d` steps right and saturates at 135
    ensures IsChar(key, 'd') ==>
      r.car.angle <= MaxAngle && r.car.angle <= car.angle + car.stepSize
      && (r.car.angle == MaxAngle || r.car.angle == car.angle + car.stepSize)
    ensures car.stepSize >= 0 && InRange(car.angle) ==> InRange(r.car.angle)
  {
    if IsChar(key, 'a') then
      var a := car.angle - car.stepSize;
      TurnTo(car, if MinAngle > a then MinAngle else a)
    else if IsChar(key, 'd') then
      var a := car.angle + car.stepSize;
      TurnTo(car, if MaxAngle < a then MaxAngle else a)
    else if IsChar(key, 'q') then
      Reaction(car, [], Quit)
    else
      Reaction(car, [], Continue)
  }

  /** The drive listener's key-press callback. */
  function Move(car: Car, key: Key): (r: Reaction)
    ensures r.car.wheels == Replay(car.wheels, r.cmds)
    ensures r.car.(wheels := car.wheels) == car
    ensures r.car.wheels.frontAngle == car.wheels.frontAngle
    ensures r.verdict == Quit <==> IsChar(key, 'q')
    ensures !IsDriveKey(key) ==> r.car == car && r.cmds == []
    // `w` runs the back wheels at the configured speed through the driver's backward primitive
    ensures IsChar(key, 'w') ==> r.cmds == [SetSpeed(car.speed), DriveBackward]
    // `s` runs them at the same speed through the forward primitive
    ensures IsChar(key, 's') ==> r.cmds == [SetSpeed(car.speed), DriveForward]
    ensures IsDriveKey(key) ==> r.car.wheels.backSpeed == car.speed
  {
    if IsDriveKey(key) then
      var w := Actuate(car.wheels, SetSpeed(car.speed));
      var primitive := if IsChar(key, 'w') then DriveBackward else DriveForward;
      ReplayTwo(car.wheels, SetSpeed(car.speed), primitive);
      Reaction(car.(wheels := Actuate(w, primitive)), [SetSpeed(car.speed), primitive], Continue)
    else if IsChar(key, 'q') then
      Reaction(car, [], Quit)
    else
      Reaction(car, [], Continue)
  }

  /** The drive listener's key-release callback. */
  function Stop(car: Car, key: Key): (r: Reaction)
    ensures r.car.wheels == Replay(car.wheels, r.cmds)
    ensures r.verdict == Quit <==> IsChar(key, 'q')
    ensures !IsDriveKey(key) ==> r.car == car && r.cmds == []
    // releasing `w` or `s` only sets the back-wheel speed to 0: the angle and the last primitive stay
    ensures IsDriveKey(key) ==> r.cmds == [SetSpeed(0)] && r.car.wheels.backSpeed == 0
    ensures r.car.(wheels := r.car.wheels.(backSpeed := car.wheels.backSpeed)) == car
  {
    if IsDriveKey(key) then
      Reaction(car.(wheels := Actuate(car.wheels, SetSpeed(0))), [SetSpeed(0)], Continue)
    else if IsChar(key, 'q') then
      Reaction(car, [], Quit)
    else
      Reaction(car, [], Continue)
  }

  /**
   Resets the hardware: back wheels to speed 0, front wheels straight. The
   angle the controller tracks is not reset.
   */
  function Cleanup(car: Car): (e: Effect)
    ensures Neutral(e.car.wheels)
    ensures e.car.wheels == Replay(car.wheels, e.cmds)
    ensures e.cmds == [SetSpeed(0), Turn(CenterAngle)]
    ensures e.car.(wheels := car.wheels) == car
    ensures e.car.wheels.motion == car.wheels.motion
  {
    var w := Actuate(Actuate(car.wheels, SetSpeed(0)), Turn(CenterAngle));
    ReplayTwo(car.wheels, SetSpeed(0), Turn(CenterAngle));
    Effect(car.(wheels := w), [SetSpeed(0), Turn(CenterAngle)])
  }

  /** Cleaning up twice leaves the car as cleaning up once, though the commands are issued again. */
  lemma CleanupIdempotent(car: Car)
    ensures Cleanup(Cleanup(car).car).car == Cleanup(car).car
    ensures Cleanup(Cleanup(car).car).cmds == Cleanup(car).cmds
  {
  }

  /** At the left stop, `a` changes nothing but still turns the wheels to 45. */
  lemma SteerSaturatesLeft(car: Car)
    requires car.angle == MinAngle && car.wheels.frontAngle == car.angle && car.stepSize >= 0
    ensures Steer(car, KeyCode(Some('a'))) == Reaction(car, [Turn(MinAngle)], Continue)
  {
  }

  /** At the right stop, `d` changes nothing but still turns the wheels to 135. */
  lemma SteerSaturatesRight(car: Car)
    requires car.angle == MaxAngle && car.wheels.frontAngle == car.angle && car.stepSize >= 0
    ensures Steer(car, KeyCode(Some('d'))) == Reaction(car, [Turn(MaxAngle)], Continue)
  {
  }

  /** A step that is not negative never leaves the steering range; a negative one can. */
  lemma NegativeStepLeavesRange()
    ensures !InRange(Steer(Init(-5, 0, false).(angle := MaxAngle), KeyCode(Some('a'))).car.angle)
  {
  }
}
