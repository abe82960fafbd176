# DeepPiCar remote control, modelled in Dafny

The remote-control driver of DeepPiCar lets an operator drive the car from
the keyboard while the camera streams frames. Two keyboard listeners run at
once: the steering listener calls `steer` on every key press; the drive
listener calls `move` on presses and `stop` on releases. `a` and `d` step the
steering angle left and right, saturating at 45 and 135. `w` and `s` run the
back wheels at the fixed drive speed, and releasing them sets the speed to 0.
`q` makes a callback return `False`, which stops the listener that called it.
The camera loop in `drive` shows each frame and, when image saving is on,
writes it under a name recording the timestamp, the steering angle and the
speed. It ends once both listeners have stopped, or when the camera closes.
`cleanup` then resets the hardware: speed 0, wheels straight.

The model is functional:

- `options.dfy`: `Options.Option`, for Python's `None`.
- `decimal.dfy`: `Decimal`, Python's `str` on integers, with a parser proved to invert it.
- `frame_log.dfy`: `FrameLog`, the saved-frame file name, with a parser proved to read it back.
- `remote_control.dfy`: `RemoteControl`, the controller state and each callback as a pure
  function `(Car, Key) -> Reaction`. A `Reaction` is the new state, the actuator commands
  issued in order, and `Continue` or `Quit`.
- `drive.dfy`: `Drive`, the session. The concurrent flows appear as one interleaving: a list
  of events, each one a key event delivered to one listener or one half of a camera-loop
  iteration. `Capture` is the `isOpened` check and the frame read. `EndIteration` is the
  rest: building the name from the clock and the controller's current angle, saving, and
  checking the listeners. A callback can run between the two halves.
  `Run` folds `Step` over that list, and the lemmas state what holds for every interleaving.

`Actuate` gives each command's effect on the wheels, and `Replay` applies a
list of commands. Every callback, the cleanup and the whole session are
proved to leave the wheels exactly where the commands they issued put them.

Where the code departs from how the controller is usually described, the
model follows the code:

- The speed passed to the constructor is ignored: the drive speed is always
  60, so the constructor's default of 80 and the command line's default of 40
  have no effect.
- Releasing `w` or `s` only sets the speed to 0. There is no stop primitive
  and no direction reset.
- `w` calls the driver's backward primitive and `s` its forward primitive.
- `q` stops the drive listener on key release as well as on key press; the
  steering listener has no release callback.
- `cleanup` resets the hardware, but not the angle the controller tracks.
- A saved frame's name records the configured speed (60), not the
  back-wheel speed at that moment. A frame taken while the car stands still
  is still named `speed-60`.
- The angle in a saved name is read when the name is built, after the frame
  was read and shown. A steering key handled in between puts the newer angle
  into the name (`Drive.NameCanPostdateFrame`).
- When the camera closes, the listeners are never stopped, so a key handled after
  the final cleanup can drive the wheels again (`Drive.ClosedCameraLeavesListeners`).
- There is no lock, retry or safety-stop escalation.
- The step size is not checked. A negative step moves the angle out of
  [45, 135] (`RemoteControl.NegativeStepLeavesRange`). The bounds hold for
  every step that is not negative.

## Model

| member | source | states |
|---|---|---|
| `RemoteControl.Init` | driver/code/remote_control.py:40-45 | the new controller tracks angle 90, has drive speed 60 whatever speed was requested, keeps the given step and save flag, and starts with the wheels straight and stopped |
| `RemoteControl.InitIgnoresSpeed` | driver/code/remote_control.py:40-45 | two controllers built with different `speed` arguments are identical, and both drive at 60 |
| `RemoteControl.Steer` | driver/code/remote_control.py:74-88 | the wheels match the commands issued; only the angle and front wheels can change; the listener stops exactly on `q`; `a` and `d` always issue one turn to the new angle, even when the angle did not move; `a` gives the larger of 45 and angle minus step; `d` gives the smaller of 135 and angle plus step; other keys, including special keys, change nothing; with a step of 0 or more, an angle in [45,135] stays there |
| `RemoteControl.SteerSaturatesLeft` | driver/code/remote_control.py:78-86 | at angle 45, `a` leaves the controller unchanged and still issues `turn(45)` |
| `RemoteControl.SteerSaturatesRight` | driver/code/remote_control.py:78-86 | at angle 135, `d` leaves the controller unchanged and still issues `turn(135)` |
| `RemoteControl.NegativeStepLeavesRange` | driver/code/remote_control.py:79-81 | with step -5 at angle 135, `a` produces an angle outside [45,135] |
| `RemoteControl.Move` | driver/code/remote_control.py:90-102 | the wheels match the commands issued; only the back wheels change; `w` sets the drive speed and calls the backward primitive; `s` sets the same speed and calls the forward primitive; the listener stops exactly on `q`; every other key changes nothing |
| `RemoteControl.Stop` | driver/code/remote_control.py:104-109 | releasing `w` or `s` issues only "speed 0" and changes only the back-wheel speed, keeping the angle and the last primitive; releasing `q` stops the listener and changes nothing; other keys change nothing |
| `RemoteControl.Cleanup` | driver/code/remote_control.py:66-70 | issues "speed 0" then "turn 90", leaves the wheels straight and stopped, matches the wheels to those commands, and leaves the tracked angle and last primitive as they were |
| `RemoteControl.CleanupIdempotent` | driver/code/remote_control.py:66-70 | cleaning up a second time gives the same controller and issues the same two commands again |
| `Decimal.NatToString` | driver/code/remote_control.py:112 | the decimal text of a natural number is non-empty and all digits, with no leading zero |
| `Decimal.IntToString` | driver/code/remote_control.py:112 | the text of an integer is digits, with a leading `-` exactly when the integer is negative, in canonical form: no leading zero except for `0` itself, and never `-0` |
| `Decimal.NatToStringRoundTrip` | driver/code/remote_control.py:112 | the digits written for a natural number read back as that number |
| `Decimal.IntToStringRoundTrip` | driver/code/remote_control.py:112 | `ParseInt` of the text written for any integer gives that integer |
| `Decimal.IntToStringInjective` | driver/code/remote_control.py:112 | different integers are written differently |
| `FrameLog.Filename` | driver/code/remote_control.py:112 | a saved frame's name starts with its timestamp and ends with `.png` |
| `FrameLog.TimestampHasNoUnderscore` | driver/code/remote_control.py:112 | a timestamp of the `%m-%d-%y-%H:%M:%S:%f` shape contains no `_` |
| `FrameLog.FilenameRoundTrip` | driver/code/remote_control.py:112 | a name built from a timestamp with no `_` reads back as exactly that timestamp, angle and speed |
| `FrameLog.FilenameInjective` | driver/code/remote_control.py:112 | frames saved with different timestamps, angles or speeds get different names |
| `Drive.Start` | driver/code/remote_control.py:116-123 | the session starts with the freshly built controller, both listeners running, nothing saved, and exactly the `PiCar` setup commands "speed 0" then "turn 90", in the order of lines 32 and 37, which straighten and stop the wheels from any prior position (no direction primitive called yet) |
| `Drive.Clean` | driver/code/remote_control.py:66-72 | running cleanup inside a session gives exactly the car `Cleanup` produces, appends its commands to the trace, leaves the wheels neutral and changes no other session field |
| `Drive.Exit` | driver/code/remote_control.py:58-64 | leaving the `with` block finishes the session with the wheels straight and stopped |
| `Drive.Step` | driver/code/remote_control.py:117-137 | a finished session ignores events; the trace only grows, and the wheels match the new commands; listeners never restart; `q` stops the listener it reaches; a key event reaching a running listener runs its callback (`steer` for a steering-listener press, `move` for a drive-listener press, `stop` for a drive-listener release) and takes exactly that callback's new controller state, appends exactly its commands, stops that listener exactly when the callback returns `False` and leaves the other listener as it was; a key event reaching a stopped listener changes nothing; key events neither save frames nor end the session nor touch the loop; a read on an open camera only starts the iteration; a read on a closed camera ends the session having run only the `with` block's cleanup: its car is `cleanup`'s, exactly cleanup's commands are appended, and both listener flags are kept; ending an iteration saves the name built from the angle and speed held at that moment (when saving is on), and ends the session exactly when both listeners had already stopped; an iteration that finds a listener running changes nothing but the saved names; one that finds both stopped runs cleanup twice, `drive`'s own and then the `with` block's, appending both command pairs in that order; a session that finishes leaves the wheels neutral |
| `Drive.StartInv` | driver/code/remote_control.py:40-45 | a session started with a step of 0 or more satisfies the session invariant |
| `Drive.StepInv` | driver/code/remote_control.py:74-137 | every event preserves the invariant: angle and front wheels in [45,135], back wheels at 0 or the drive speed, front wheels at the tracked angle while driving, neutral once finished |
| `Drive.RunInv` | driver/code/remote_control.py:74-137 | any sequence of events preserves the invariant |
| `Drive.SessionStaysInBounds` | driver/code/remote_control.py:78-84 | for any interleaving of key events and camera iterations, with a step of 0 or more, the tracked angle and the front wheels stay in [45,135], the back wheels run at 0 or 60, and a session is straight and stopped when it finishes |
| `Drive.RunReplaysTrace` | driver/code/remote_control.py:74-109 | over any event sequence the trace only grows, and the wheels are the old wheels with the new commands replayed |
| `Drive.SessionTraceExplainsWheels` | driver/code/remote_control.py:74-109 | at every point of a session, replaying the full command trace gives the current wheel state |
| `Drive.RunFinishedIsFinal` | driver/code/remote_control.py:135-137 | once the session has finished, no event changes it |
| `Drive.RunOnlyStops` | driver/code/remote_control.py:118-122 | over any event sequence a stopped listener stays stopped, and a finished session stays finished |
| `Drive.QuitStopsSteering` | driver/code/remote_control.py:87-88 | if `q` reached the steering listener and the session is still driving, that listener has stopped |
| `Drive.QuitStopsDriving` | driver/code/remote_control.py:101-109 | if a `q` press or release reached the drive listener and the session is still driving, that listener has stopped |
| `Drive.IterationLogsSnapshot` | driver/code/remote_control.py:131-133 | with saving on, ending an iteration writes exactly one name, and it reads back as that moment's timestamp, the angle held when the name is built and speed 60 |
| `Drive.NameCanPostdateFrame` | driver/code/remote_control.py:124-133 | after a frame is read at angle 90, a `d` press handled before the save makes the saved name read back with angle 95 |
| `Drive.IterationWhileListening` | driver/code/remote_control.py:124-137 | one pass of the loop between iterations, with a listener still running, only appends the name built from the current angle and speed (when saving is on) |
| `Drive.RunLogsDriveSpeed` | driver/code/remote_control.py:112 | if every timestamp has the clock's `%m-%d-%y-%H:%M:%S:%f` shape, every name saved over any event sequence reads back with an in-range angle and speed 60 |
| `Drive.SessionLogsDriveSpeed` | driver/code/remote_control.py:112 | every frame a session saves is named with an angle in [45,135] and speed 60, even while the car stands still |
| `Drive.PressRightRepeatedly` | driver/code/remote_control.py:82-86 | `n` presses of `d` reaching the steering listener give the smaller of 135 and the angle plus `n` steps, turn the front wheels there, and change nothing else |
| `Drive.PressLeftRepeatedly` | driver/code/remote_control.py:79-86 | `n` presses of `a` give the larger of 45 and the angle minus `n` steps, turn the front wheels there, and change nothing else |
| `Drive.SteeringScenario` | driver/code/remote_control.py:78-86 | from straight ahead with step 5, three `d` presses reach 105; five `a` presses then bring the angle and front wheels to 80, with both listeners still running |
| `Drive.QuitThenFrameFinishes` | driver/code/remote_control.py:124-137 | from any driving session between iterations, `q` on both listeners plus one pass of the loop finish the session with the wheels straight and stopped, the last primitive kept and the tracked angle not reset |
| `Drive.QuitScenario` | driver/code/remote_control.py:116-137 | the steering scenario followed by `q` ends straight and stopped, with the tracked angle still 80 |
| `Drive.ForwardKeyScenario` | driver/code/remote_control.py:92-107 | asking for speed 80, pressing `w` issues "speed 60" then the backward primitive; releasing it issues "speed 0" and keeps the backward primitive |
| `Drive.ClosedCameraLeavesListeners` | driver/code/remote_control.py:118-124 | when the camera closes, the session finishes straight and stopped with both listeners still running, and a `w` press the drive listener then handles runs the back wheels at 60 again |
| `Drive.CaptureScenario` | driver/code/remote_control.py:124-137 | with saving on, three passes of the loop on an open camera and then a read on a closed camera save exactly three names, in order, and finish the session neutral |

## Left out

- The pynput listener threads, and how a listener's `running` flag changes over time. Each
  key event is one listener's callback running to completion. A callback's `False` stops its
  listener at once.
- Within each half of a camera-loop iteration nothing else runs. A callback can run between
  the frame read and the name being built. It cannot run inside either half, for example
  between the listener check at line 135 and `cleanup`.
- Camera capture, `imshow`, `waitKey`, `imwrite`, `destroyAllWindows`, the `print` calls
  and `camera.release` in `cleanup`. These are device and GUI I/O. A camera-loop iteration
  carries only the camera's open flag and the timestamp.
- `datetime.now().strftime(...)`. The timestamp is an opaque string passed in with each
  iteration.
- The directory joined by `os.path.join` in `save_frame_and_angle`. Only the file name is
  modelled.
- The `PiCar` hardware setup: pan and tilt servos, calibration offsets and the camera
  resolution. These are foreign calls into `picar`. Only the "speed 0" and "turn 90" setup
  commands are kept.
- What the `picar` drivers do with a command, for example how the servo clamps or offsets
  an angle. `Actuate` records the value commanded.
- Exceptions: a failing `camera.read` or a fault in a callback, and the traceback logging
  in `__exit__`. The session ends only along the two normal paths of the loop.
- Events after the session has finished. When the loop ends because the camera closed,
  both listeners are still running and nothing stops them, before or after `__exit__`'s
  cleanup. A callback they run before the process exits can move the wheels again
  (`Drive.ClosedCameraLeavesListeners`). `Step` ignores such events, so the neutral
  finished state that `Drive.SessionStaysInBounds` states holds when the session
  finishes, not up to the exit of the process.
- Argument parsing and logging setup. The step size, requested speed and save flag are
  parameters of `Start`.
- A key code whose character is longer than one character. `KeyCode` carries an optional
  single character.
- object_detection/code/collect_object_data.py. It is a camera capture and save loop with
  no controller logic.
