/**
 The drive session: two keyboard listeners (steering, and drive) and the
 camera loop run against one controller, and leaving the `with` block that
 holds the controller cleans up once more.

 The threads are modelled by their interleaving: a session is a fold over a
 sequence of events, each one a key event delivered to one listener or one
 half of a camera-loop iteration. An iteration is split where a callback can
 slip in between: `Capture` is the `isOpened` check and the frame read;
 `EndIteration` is the rest, which builds the saved name from the angle the
 controller holds at that later moment and then checks the listeners. A
 listener whose callback has returned `Quit` receives nothing more. The loop
 ends when the camera reports itself closed, or after an iteration that finds
 both listeners stopped; the session is then `Finished`, and `Step` ignores
 later events. On the closed-camera path both listeners keep running and can
 still act (`ClosedCameraLeavesListeners`).
 */
module Drive {
  import opened Options
  import opened RemoteControl
  import opened FrameLog

  datatype Event =
    | FrontPress(key: Key)              // a key press reaching the steering listener
    | BackPress(key: Key)               // a key press reaching the drive listener
    | BackRelease(key: Key)             // a key release reaching the drive listener
    | Capture(cameraOpen: bool)         // the loop's `isOpened` check, then the frame read
    | EndIteration(timestamp: string)   // the clock read for the name, the save, the listener check

  datatype Phase = Driving | Finished

  datatype Session = Session(
    car: Car,
    frontRunning: bool,
    backRunning: bool,
    phase: Phase,
    capturing: bool,        // a frame has been read and its iteration has not yet ended
    saved: seq<string>,     // names of the frames written to disk, in order
    trace: seq<Command>)    // every actuator command issued, in order

  /** The hardware setup straightens the front wheels and stops the back wheels. */
  const SetupCommands: seq<Command> := [SetSpeed(0), Turn(CenterAngle)]

  /** The session just after both listeners have been started. */
  function Start(stepSize: int, speed: int, saveImg: bool): (s: Session)
    ensures s.car == Init(stepSize, speed, saveImg)
    ensures s.frontRunning && s.backRunning && s.phase == Driving && !s.capturing && s.saved == []
    ensures s.trace == SetupCommands
    ensures forall w: Wheels :: w.motion == NoMotion ==> Replay(w, s.trace) == s.car.wheels
  {
    var s := Session(Init(stepSize, speed, saveImg), true, true, Driving, false, [], SetupCommands);
    assert forall w: Wheels :: w.motion == NoMotion ==> Replay(w, s.trace) == s.car.wheels by {
      forall w: Wheels | w.motion == NoMotion {
        ReplayTwo(w, SetSpeed(0), Turn(CenterAngle));
      }
    }
    s
  }

  /** The camera loop stops once neither listener is running. */
  predicate LoopExits(frontRunning: bool, backRunning: bool) {
    !(frontRunning || backRunning)
  }

  /** Runs `cleanup` and records the commands it issued. */
  function Clean(s: Session): (t: Session)
    ensures t.car == Cleanup(s.car).car && Neutral(t.car.wheels)
    ensures t.trace == s.trace + Cleanup(s.car).cmds
    ensures t.(car := s.car, trace := s.trace) == s
  {
    var e := Cleanup(s.car);
    s.(car := e.car, trace := s.trace + e.cmds)
  }

  /** `drive` has returned: leaving the `with` block cleans up. */
  function Exit(s: Session): (t: Session)
    ensures t.phase == Finished && Neutral(t.car.wheels)
    ensures t == Clean(s).(phase := Finished)
  {
    Clean(s).(phase := Finished)
  }

  /** Applies a callback's reaction; a `Quit` stops the listener that made the call. */
  function Heard(s: Session, r: Reaction, front: bool): Session {
    var t := s.(car := r.car, trace := s.trace + r.cmds);
    if front then t.(frontRunning := r.verdict == Continue)
    else t.(backRunning := r.verdict == Continue)
  }

  /** The loop's `while` test and frame read. */
  function Read(s: Session, cameraOpen: bool): Session {
    if cameraOpen then s.(capturing := true) else Exit(s)
  }

  /** The rest of an iteration: save the frame if asked, then stop once both listeners have. */
  function EndRead(s: Session, timestamp: string): Session {
    var logged := if s.car.saveImg then [Filename(timestamp, s.car.angle, s.car.speed)] else [];
    var t := s.(capturing := false, saved := s.saved + logged);
    if LoopExits(t.frontRunning, t.backRunning) then Exit(Clean(t)) else t
  }

  function Step(s: Session, e: Event): (t: Session)
    // once finished, nothing more happens
    ensures s.phase == Finished ==> t == s
    ensures t.phase == Driving ==> s.phase == Driving
    // the trace only grows, and the wheels are where the new commands put them
    ensures |s.trace| <= |t.trace| && t.trace[..|s.trace|] == s.trace
    ensures t.car.wheels == Replay(s.car.wheels, t.trace[|s.trace|..])
    // listeners can stop, never restart; `q` stops the one that hears it
    ensures t.frontRunning ==> s.frontRunning
    ensures t.backRunning ==> s.backRunning
    ensures s.phase == Driving && e == FrontPress(KeyCode(Some('q'))) ==> !t.frontRunning
    ensures s.phase == Driving && (e == BackPress(KeyCode(Some('q'))) || e == BackRelease(KeyCode(Some('q'))))
            ==> !t.backRunning
    // a stopped listener calls nothing: a key event reaching it changes nothing
    ensures e.FrontPress? && !s.frontRunning ==> t == s
    ensures (e.BackPress? || e.BackRelease?) && !s.backRunning ==> t == s
    // a running listener runs its callback: `steer` on the steering listener's presses,
    // `move` on the drive listener's presses and `stop` on its releases
    ensures s.phase == Driving && e.FrontPress? && s.frontRunning ==>
      var r := Steer(s.car, e.key);
      t.car == r.car && t.trace == s.trace + r.cmds && (t.frontRunning <==> r.verdict == Continue)
      && t.backRunning == s.backRunning
    ensures s.phase == Driving && e.BackPress? && s.backRunning ==>
      var r := Move(s.car, e.key);
      t.car == r.car && t.trace == s.trace + r.cmds && (t.backRunning <==> r.verdict == Continue)
      && t.frontRunning == s.frontRunning
    ensures s.phase == Driving && e.BackRelease? && s.backRunning ==>
      var r := Stop(s.car, e.key);
      t.car == r.car && t.trace == s.trace + r.cmds && (t.backRunning <==> r.verdict == Continue)
      && t.frontRunning == s.frontRunning
    // key events never touch the camera loop: no frame is written and the session goes on
    ensures (e.FrontPress? || e.BackPress? || e.BackRelease?) ==>
      t.saved == s.saved && t.phase == s.phase && t.capturing == s.capturing
    // a read on a closed camera ends the session; on an open one it only starts the iteration
    ensures s.phase == Driving && !s.capturing && e.Capture? && !e.cameraOpen ==>
      t.phase == Finished && t.saved == s.saved
    ensures s.phase == Driving && !s.capturing && e.Capture? && e.cameraOpen ==> t == s.(capturing := true)
    // the closed-camera exit runs only the `with` block's cleanup; the listeners keep running
    ensures s.phase == Driving && !s.capturing && e == Capture(false) ==>
      && t.car == Cleanup(s.car).car && t.trace == s.trace + Cleanup(s.car).cmds
      && t.frontRunning == s.frontRunning && t.backRunning == s.backRunning && !t.capturing
    // halves of an iteration out of turn are not events of the loop
    ensures s.capturing && e.Capture? ==> t == s
    ensures !s.capturing && e.EndIteration? ==> t == s
    // ending an iteration logs the name built from the state at that moment, and ends
    // the session exactly when both listeners have already stopped
    ensures s.phase == Driving && s.capturing && e.EndIteration? ==>
      && t.saved == s.saved + (if s.car.saveImg then [Filename(e.timestamp, s.car.angle, s.car.speed)] else [])
      && !t.capturing
      && (t.phase == Finished <==> LoopExits(s.frontRunning, s.backRunning))
    // an iteration that finds the listeners running changes nothing but the saved names
    ensures s.phase == Driving && s.capturing && e.EndIteration? && !LoopExits(s.frontRunning, s.backRunning) ==>
      t == s.(capturing := false, saved := t.saved)
    // the listener exit runs cleanup twice: `drive`'s own, then the `with` block's
    ensures s.phase == Driving && s.capturing && e.EndIteration? && LoopExits(s.frontRunning, s.backRunning) ==>
      var once := Cleanup(s.car);
      && t.car == Cleanup(once.car).car && t.trace == s.trace + once.cmds + Cleanup(once.car).cmds
      && !t.frontRunning && !t.backRunning
    ensures s.phase == Driving && t.phase == Finished ==> Neutral(t.car.wheels)
  {
    if s.phase == Finished then s
    else
      var t := match e
        case FrontPress(k) => if s.frontRunning then Heard(s, Steer(s.car, k), true) else s
        case BackPress(k) => if s.backRunning then Heard(s, Move(s.car, k), false) else s
        case BackRelease(k) => if s.backRunning then Heard(s, Stop(s.car, k), false) else s
        case Capture(open) => if s.capturing then s else Read(s, open)
        case EndIteration(ts) => if s.capturing then EndRead(s, ts) else s;
      t
  }

  /** The session after the events `evs`, in order. */
  function Run(s: Session, evs: seq<Event>): Session
    decreases |evs|
  {
    if |evs| == 0 then s else Run(Step(s, evs[0]), evs[1..])
  }

  lemma {:induction false} RunConcat(s: Session, a: seq<Event>, b: seq<Event>)
    ensures Run(s, a + b) == Run(Run(s, a), b)
    decreases |a|
  {
    if |a| == 0 {
      assert a + b == b;
    } else {
      assert (a + b)[0] == a[0] && (a + b)[1..] == a[1..] + b;
      RunConcat(Step(s, a[0]), a[1..], b);
    }
  }

  /** What holds of every reachable session. */
  predicate Inv(s: Session) {
    && s.car.stepSize >= 0
    && s.car.speed == DriveSpeed
    && InRange(s.car.angle)
    && InRange(s.car.wheels.frontAngle)
    && (s.car.wheels.backSpeed == 0 || s.car.wheels.backSpeed == s.car.speed)
    && (s.phase == Driving ==> s.car.wheels.frontAngle == s.car.angle)
    && (s.phase == Finished ==> Neutral(s.car.wheels))
  }

  lemma StartInv(stepSize: int, speed: int, saveImg: bool)
    requires stepSize >= 0
    ensures Inv(Start(stepSize, speed, saveImg))
  {
  }

  lemma StepInv(s: Session, e: Event)
    requires Inv(s)
    ensures Inv(Step(s, e))
  {
  }

  lemma {:induction false} RunInv(s: Session, evs: seq<Event>)
    requires Inv(s)
    ensures Inv(Run(s, evs))
    decreases |evs|
  {
    if |evs| > 0 {
      StepInv(s, evs[0]);
      RunInv(Step(s, evs[0]), evs[1..]);
    }
  }

  /**
   Whatever keys are pressed and released and however the camera behaves,
   a session started with a step that is not negative keeps the steering
   angle, and the angle the front wheels were turned to, within [45, 135];
   the back wheels run at 0 or at the fixed drive speed; and a finished
   session leaves the wheels straight and stopped.
   */
  lemma SessionStaysInBounds(stepSize: int, speed: int, saveImg: bool, evs: seq<Event>)
    requires stepSize >= 0
    ensures var s := Run(Start(stepSize, speed, saveImg), evs);
      && InRange(s.car.angle) && InRange(s.car.wheels.frontAngle)
      && (s.car.wheels.backSpeed == 0 || s.car.wheels.backSpeed == DriveSpeed)
      && (s.phase == Finished ==> Neutral(s.car.wheels))
  {
    StartInv(stepSize, speed, saveImg);
    RunInv(Start(stepSize, speed, saveImg), evs);
  }

  lemma {:induction false} RunReplaysTrace(s: Session, evs: seq<Event>)
    ensures var t := Run(s, evs);
      && |s.trace| <= |t.trace| && t.trace[..|s.trace|] == s.trace
      && t.car.wheels == Replay(s.car.wheels, t.trace[|s.trace|..])
    decreases |evs|
  {
    if |evs| > 0 {
      var s1 := Step(s, evs[0]);
      var t := Run(s1, evs[1..]);
      RunReplaysTrace(s1, evs[1..]);
      var a, b := s1.trace[|s.trace|..], t.trace[|s1.trace|..];
      assert t.trace[|s.trace|..] == a + b;
      ReplayConcat(s.car.wheels, a, b);
    } else {
      assert s.trace[|s.trace|..] == [];
    }
  }

  /** The wheels at any point of a session are exactly what the issued commands put them in. */
  lemma SessionTraceExplainsWheels(stepSize: int, speed: int, saveImg: bool, evs: seq<Event>, w: Wheels)
    requires w.motion == NoMotion
    ensures Replay(w, Run(Start(stepSize, speed, saveImg), evs).trace)
         == Run(Start(stepSize, speed, saveImg), evs).car.wheels
  {
    var s := Start(stepSize, speed, saveImg);
    var t := Run(s, evs);
    RunReplaysTrace(s, evs);
    assert t.trace == s.trace + t.trace[|s.trace|..];
    ReplayConcat(w, s.trace, t.trace[|s.trace|..]);
  }

  lemma {:induction false} RunFinishedIsFinal(s: Session, evs: seq<Event>)
    requires s.phase == Finished
    ensures Run(s, evs) == s
    decreases |evs|
  {
    if |evs| > 0 {
      RunFinishedIsFinal(Step(s, evs[0]), evs[1..]);
    }
  }

  /** Listeners never restart, and a finished session never resumes. */
  lemma {:induction false} RunOnlyStops(s: Session, evs: seq<Event>)
    ensures Run(s, evs).frontRunning ==> s.frontRunning
    ensures Run(s, evs).backRunning ==> s.backRunning
    ensures Run(s, evs).phase == Driving ==> s.phase == Driving
    decreases |evs|
  {
    if |evs| > 0 {
      RunOnlyStops(Step(s, evs[0]), evs[1..]);
    }
  }

  /** A session still driving after a `q` reached the steering listener has that listener stopped. */
  lemma QuitStopsSteering(s: Session, evs: seq<Event>, i: int)
    requires 0 <= i < |evs| && evs[i] == FrontPress(KeyCode(Some('q')))
    requires Run(s, evs).phase == Driving
    ensures !Run(s, evs).frontRunning
  {
    assert evs == evs[..i] + ([evs[i]] + evs[i + 1..]);
    RunConcat(s, evs[..i], [evs[i]] + evs[i + 1..]);
    var before := Run(s, evs[..i]);
    var after := Step(before, evs[i]);
    assert Run(before, [evs[i]] + evs[i + 1..]) == Run(after, evs[i + 1..]);
    RunOnlyStops(after, evs[i + 1..]);
  }

  /** A session still driving after a `q` press or release reached the drive listener has that listener stopped. */
  lemma QuitStopsDriving(s: Session, evs: seq<Event>, i: int)
    requires 0 <= i < |evs|
    requires evs[i] == BackPress(KeyCode(Some('q'))) || evs[i] == BackRelease(KeyCode(Some('q')))
    requires Run(s, evs).phase == Driving
    ensures !Run(s, evs).backRunning
  {
    assert evs == evs[..i] + ([evs[i]] + evs[i + 1..]);
    RunConcat(s, evs[..i], [evs[i]] + evs[i + 1..]);
    var before := Run(s, evs[..i]);
    var after := Step(before, evs[i]);
    assert Run(before, [evs[i]] + evs[i + 1..]) == Run(after, evs[i + 1..]);
    RunOnlyStops(after, evs[i + 1..]);
  }

  /** A name that reads back as a frame taken at the drive speed with the wheels in range. */
  predicate RecordsDriveSpeed(name: string) {
    match ParseFilename(name)
    case Some(sample) => sample.speed == DriveSpeed && InRange(sample.angle)
    case None => false
  }

  /** Every name is stamped by the clock, in the `%m-%d-%y-%H:%M:%S:%f` shape. */
  predicate ClockTimestamps(evs: seq<Event>) {
    forall i :: 0 <= i < |evs| && evs[i].EndIteration? ==> IsTimestamp(evs[i].timestamp)
  }

  /**
   Ending an iteration saves a name that records the angle the controller
   holds when the name is built, and the fixed drive speed even when the back
   wheels are stopped.
   */
  lemma IterationLogsSnapshot(s: Session, timestamp: string)
    requires Inv(s) && s.phase == Driving && s.capturing && s.car.saveImg
    requires '_' !in timestamp
    ensures var t := Step(s, EndIteration(timestamp));
      && |t.saved| == |s.saved| + 1
      && ParseFilename(t.saved[|s.saved|]) == Some(Sample(timestamp, s.car.angle, DriveSpeed))
  {
    FilenameRoundTrip(timestamp, s.car.angle, s.car.speed);
  }

  /**
   The angle in a saved name need not be the angle when the frame was read:
   a `d` press handled between the read and the save puts the newer angle
   into the name.
   */
  lemma NameCanPostdateFrame(ts: string)
    requires '_' !in ts
    ensures var read := Step(Start(5, 80, true), Capture(true));
      var t := Run(read, [FrontPress(Char('d')), EndIteration(ts)]);
      && read.capturing && read.car.angle == 90
      && t.saved == [Filename(ts, 95, DriveSpeed)]
      && ParseFilename(t.saved[0]) == Some(Sample(ts, 95, DriveSpeed))
  {
    var read := Step(Start(5, 80, true), Capture(true));
    var evs := [FrontPress(Char('d')), EndIteration(ts)];
    var steered := Step(read, evs[0]);
    assert steered.car.angle == 95 && steered.capturing && steered.frontRunning;
    assert evs[1..] == [evs[1]] && [evs[1]][1..] == [];
    assert Run(read, evs) == Run(steered, evs[1..]);
    assert Run(steered, evs[1..]) == Run(Step(steered, evs[1]), []);
    FilenameRoundTrip(ts, 95, DriveSpeed);
  }

  lemma {:induction false} RunLogsDriveSpeed(s: Session, evs: seq<Event>)
    requires Inv(s) && ClockTimestamps(evs)
    requires forall i :: 0 <= i < |s.saved| ==> RecordsDriveSpeed(s.saved[i])
    ensures forall i :: 0 <= i < |Run(s, evs).saved| ==> RecordsDriveSpeed(Run(s, evs).saved[i])
    decreases |evs|
  {
    if |evs| > 0 {
      var t := Step(s, evs[0]);
      if s.phase == Driving && s.capturing && evs[0].EndIteration? && s.car.saveImg {
        TimestampHasNoUnderscore(evs[0].timestamp);
        IterationLogsSnapshot(s, evs[0].timestamp);
      }
      StepInv(s, evs[0]);
      assert ClockTimestamps(evs[1..]) by {
        forall i | 0 <= i < |evs[1..]| && evs[1..][i].EndIteration? ensures IsTimestamp(evs[1..][i].timestamp) {
          assert evs[1..][i] == evs[i + 1];
        }
      }
      RunLogsDriveSpeed(t, evs[1..]);
    }
  }

  /** Every frame a session saves is named with an in-range angle and the drive speed. */
  lemma SessionLogsDriveSpeed(stepSize: int, speed: int, evs: seq<Event>)
    requires stepSize >= 0 && ClockTimestamps(evs)
    ensures var s := Run(Start(stepSize, speed, true), evs);
      forall i :: 0 <= i < |s.saved| ==> RecordsDriveSpeed(s.saved[i])
  {
    StartInv(stepSize, speed, true);
    RunLogsDriveSpeed(Start(stepSize, speed, true), evs);
  }

  function Char(c: char): Key {
    KeyCode(Some(c))
  }

  /** `n` copies of one event. */
  function Repeat(e: Event, n: nat): (r: seq<Event>)
    ensures |r| == n && forall i :: 0 <= i < n ==> r[i] == e
  {
    if n == 0 then [] else [e] + Repeat(e, n - 1)
  }

  lemma RunFirst(s: Session, evs: seq<Event>)
    requires |evs| > 0
    ensures Run(s, evs) == Run(Step(s, evs[0]), evs[1..])
  {
  }

  /** One steering key reaching the running steering listener changes only the controller and the trace. */
  lemma SteerOnce(s: Session, c: char)
    requires Inv(s) && s.phase == Driving && s.frontRunning
    ensures var t := Step(s, FrontPress(Char(c)));
      Inv(t) && t.car == Steer(s.car, Char(c)).car
      && t == s.(car := t.car, trace := t.trace, frontRunning := t.frontRunning)
      && (c != 'q' ==> t.frontRunning)
  {
  }

  function ClampMax(a: int): int { if a > MaxAngle then MaxAngle else a }
  function ClampMin(a: int): int { if a < MinAngle then MinAngle else a }

  /** Clamping after each of `n` steps right is clamping once after all of them. */
  lemma ClampRight(angle: int, step: int, n: nat)
    requires step >= 0 && n > 0
    ensures ClampMax(ClampMax(angle + step) + (n - 1) * step) == ClampMax(angle + n * step)
  {
  }

  /** Clamping after each of `n` steps left is clamping once after all of them. */
  lemma ClampLeft(angle: int, step: int, n: nat)
    requires step >= 0 && n > 0
    ensures ClampMin(ClampMin(angle - step) - (n - 1) * step) == ClampMin(angle - n * step)
  {
  }

  /**
   `n` presses of `d` reaching the steering listener move the angle and the
   front wheels right by `n` steps, stopping at 135; nothing else changes.
   */
  lemma {:induction false} PressRightRepeatedly(s: Session, n: nat)
    requires Inv(s) && s.phase == Driving && s.frontRunning
    ensures var t := Run(s, Repeat(FrontPress(Char('d')), n));
      var target := s.car.angle + n * s.car.stepSize;
      var angle := if target > MaxAngle then MaxAngle else target;
      && t.car == s.car.(angle := angle, wheels := s.car.wheels.(frontAngle := angle))
      && t.frontRunning && t.backRunning == s.backRunning && t.phase == Driving && t.saved == s.saved
      && t.capturing == s.capturing
    decreases n
  {
    var e := FrontPress(Char('d'));
    if n > 0 {
      var evs := Repeat(e, n);
      RunFirst(s, evs);
      assert evs[1..] == Repeat(e, n - 1);
      SteerOnce(s, 'd');
      PressRightRepeatedly(Step(s, e), n - 1);
      ClampRight(s.car.angle, s.car.stepSize, n);
    }
  }

  /**
   `n` presses of `a` reaching the steering listener move the angle and the
   front wheels left by `n` steps, stopping at 45; nothing else changes.
   */
  lemma {:induction false} PressLeftRepeatedly(s: Session, n: nat)
    requires Inv(s) && s.phase == Driving && s.frontRunning
    ensures var t := Run(s, Repeat(FrontPress(Char('a')), n));
      var target := s.car.angle - n * s.car.stepSize;
      var angle := if target < MinAngle then MinAngle else target;
      && t.car == s.car.(angle := angle, wheels := s.car.wheels.(frontAngle := angle))
      && t.frontRunning && t.backRunning == s.backRunning && t.phase == Driving && t.saved == s.saved
      && t.capturing == s.capturing
    decreases n
  {
    var e := FrontPress(Char('a'));
    if n > 0 {
      var evs := Repeat(e, n);
      RunFirst(s, evs);
      assert evs[1..] == Repeat(e, n - 1);
      SteerOnce(s, 'a');
      PressLeftRepeatedly(Step(s, e), n - 1);
      ClampLeft(s.car.angle, s.car.stepSize, n);
    }
  }

  /** Three presses of `d`, then five of `a`. */
  function SteeringKeys(): seq<Event> {
    Repeat(FrontPress(Char('d')), 3) + Repeat(FrontPress(Char('a')), 5)
  }

  /**
   From straight ahead with step 5, three presses of `d` reach 105 and five
   presses of `a` then come back to 80, both listeners still running.
   */
  lemma SteeringScenario()
    ensures var s := Run(Start(5, 80, false), Repeat(FrontPress(Char('d')), 3));
      s.car.angle == 105 && s.car.wheels.frontAngle == 105
    ensures var s := Run(Start(5, 80, false), SteeringKeys());
      && s.car.angle == 80 && s.car.wheels == Wheels(80, 0, NoMotion)
      && s.frontRunning && s.backRunning && s.phase == Driving && !s.capturing
  {
    var s0 := Start(5, 80, false);
    var right, left := Repeat(FrontPress(Char('d')), 3), Repeat(FrontPress(Char('a')), 5);
    var s1 := Run(s0, right);
    assert s1.car == s0.car.(angle := 105, wheels := s0.car.wheels.(frontAngle := 105))
        && s1.frontRunning && s1.backRunning && s1.phase == Driving && !s1.capturing by {
      StartInv(5, 80, false);
      PressRightRepeatedly(s0, 3);
    }
    assert Inv(s1) by {
      StartInv(5, 80, false);
      RunInv(s0, right);
    }
    var s2 := Run(s1, left);
    assert s2.car == s1.car.(angle := 80, wheels := s1.car.wheels.(frontAngle := 80))
        && s2.frontRunning && s2.backRunning && s2.phase == Driving && !s2.capturing by {
      PressLeftRepeatedly(s1, 5);
    }
    RunConcat(s0, right, left);
  }

  /** One whole pass of the camera loop on an open camera. */
  function Iteration(ts: string): seq<Event> {
    [Capture(true), EndIteration(ts)]
  }

  /**
   Between iterations, one pass of the loop with a listener still running
   saves the frame (when saving is on) under the name built from the current
   angle and speed, and changes nothing else.
   */
  lemma IterationWhileListening(s: Session, ts: string)
    requires s.phase == Driving && !s.capturing && (s.frontRunning || s.backRunning)
    ensures Run(s, Iteration(ts))
         == s.(saved := s.saved + if s.car.saveImg then [Filename(ts, s.car.angle, s.car.speed)] else [])
  {
    var evs := Iteration(ts);
    assert evs[1..] == [evs[1]] && [evs[1]][1..] == [];
    assert Run(s, evs) == Run(Step(s, evs[0]), evs[1..]);
    assert Run(Step(s, evs[0]), evs[1..]) == Run(Step(Step(s, evs[0]), evs[1]), []);
  }

  /**
   From any driving session between iterations, `q` reaching both listeners
   and one more pass of the loop end the session: the wheels are straight
   and stopped, the last direction primitive is kept, and the angle the
   controller tracks is not reset.
   */
  lemma QuitThenFrameFinishes(s: Session, ts: string)
    requires s.phase == Driving && !s.capturing
    ensures var t := Run(s, [FrontPress(Char('q')), BackPress(Char('q'))] + Iteration(ts));
      && t.phase == Finished
      && t.car.wheels == s.car.wheels.(frontAngle := CenterAngle, backSpeed := 0)
      && t.car.angle == s.car.angle
  {
    var keys := [FrontPress(Char('q')), BackPress(Char('q'))];
    var quit := Step(Step(s, keys[0]), keys[1]);
    assert keys[1..] == [keys[1]] && [keys[1]][1..] == [];
    assert Run(s, keys) == Run(Step(s, keys[0]), keys[1..]);
    assert Run(Step(s, keys[0]), keys[1..]) == Run(quit, []);
    assert !quit.frontRunning && !quit.backRunning && quit.car == s.car && quit.phase == Driving;
    RunConcat(s, keys, Iteration(ts));
    var evs := Iteration(ts);
    var read := Step(quit, evs[0]);
    assert read.capturing && read.car == s.car;
    assert evs[1..] == [evs[1]] && [evs[1]][1..] == [];
    assert Run(quit, evs) == Run(read, evs[1..]);
    assert Run(read, evs[1..]) == Run(Step(read, evs[1]), []);
  }

  /** The whole steering scenario ends straight and stopped, with the tracked angle left at 80. */
  lemma QuitScenario(ts: string)
    ensures var s := Run(Start(5, 80, false),
        SteeringKeys() + ([FrontPress(Char('q')), BackPress(Char('q'))] + Iteration(ts)));
      s.phase == Finished && s.car.wheels == Wheels(CenterAngle, 0, NoMotion) && s.car.angle == 80
  {
    SteeringScenario();
    var steered := Run(Start(5, 80, false), SteeringKeys());
    assert steered.car.angle == 80 && steered.car.wheels == Wheels(80, 0, NoMotion);
    assert steered.phase == Driving && !steered.capturing;
    var tail := [FrontPress(Char('q')), BackPress(Char('q'))] + Iteration(ts);
    RunConcat(Start(5, 80, false), SteeringKeys(), tail);
    QuitThenFrameFinishes(steered, ts);
  }

  /**
   Pressing `w` with speed 80 asked for runs the back wheels at 60 through
   the backward primitive; releasing it sets the speed to 0 and leaves the
   last primitive as it was.
   */
  lemma ForwardKeyScenario()
    ensures var s := Run(Start(5, 80, false), [BackPress(Char('w'))]);
      s.trace[|SetupCommands|..] == [SetSpeed(60), DriveBackward]
      && s.car.wheels == Wheels(CenterAngle, 60, Backward)
    ensures var s := Run(Start(5, 80, false), [BackPress(Char('w')), BackRelease(Char('w'))]);
      s.trace[|SetupCommands|..] == [SetSpeed(60), DriveBackward, SetSpeed(0)]
      && s.car.wheels == Wheels(CenterAngle, 0, Backward)
  {
  }

  /**
   When the camera closes, the loop ends and the session is cleaned up with
   both listeners still running: nothing stops them. A `w` press the drive
   listener handles after that cleanup runs the back wheels at the drive
   speed again.
   */
  lemma ClosedCameraLeavesListeners(stepSize: int, speed: int, saveImg: bool)
    ensures var s := Run(Start(stepSize, speed, saveImg), [Capture(false)]);
      && s.phase == Finished && Neutral(s.car.wheels)
      && s.frontRunning && s.backRunning
      && Heard(s, Move(s.car, Char('w')), false).car.wheels.backSpeed == DriveSpeed
  {
  }

  /** Three passes of the loop on an open camera, then a closed camera: three files, then the session ends. */
  lemma CaptureScenario(t1: string, t2: string, t3: string)
    ensures var s := Run(Start(2, 40, true),
        Iteration(t1) + Iteration(t2) + Iteration(t3) + [Capture(false)]);
      && s.saved == [Filename(t1, 90, 60), Filename(t2, 90, 60), Filename(t3, 90, 60)]
      && s.phase == Finished && Neutral(s.car.wheels)
  {
    var s0 := Start(2, 40, true);
    IterationWhileListening(s0, t1);
    var s1 := Run(s0, Iteration(t1));
    IterationWhileListening(s1, t2);
    var s2 := Run(s1, Iteration(t2));
    IterationWhileListening(s2, t3);
    var s3 := Run(s2, Iteration(t3));
    assert s3 == s0.(saved := [Filename(t1, 90, 60), Filename(t2, 90, 60), Filename(t3, 90, 60)]);
    RunConcat(s0, Iteration(t1), Iteration(t2));
    RunConcat(s0, Iteration(t1) + Iteration(t2), Iteration(t3));
    RunConcat(s0, Iteration(t1) + Iteration(t2) + Iteration(t3), [Capture(false)]);
    assert Run(s3, [Capture(false)]) == Run(Step(s3, Capture(false)), []);
  }
}
