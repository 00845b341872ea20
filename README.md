# Money Heist: the game state machine

This project models the one piece of game logic in the hotel-room "Money
Heist" OpenGL demo. The player presses S to start a 60-second countdown and
steers the camera with the mouse. SPACE pushes aside whichever prop (kaktus,
laptop, lazybag) the camera is looking at. ENTER takes the diamond hidden
behind the kaktus or the dollars behind the lazybag. The overlay shows the
countdown and one of its messages. Taking both items freezes
mouse-look, and so does running out of time while the overlay is shown.

The project has three modules:

- `rules.dfy` (`GameRules`) holds the state shared by the callbacks as a
  `World` value: the game fields of `ProgramState`, the toggles of
  `MovingObject`, the mouse globals and the camera fields the game touches.
  It has one pure transition per input: `StartGame`, `Interact`, `Collect`,
  `MouseMoved`, `Recenter` and `Frame`. It also holds the countdown
  (`DisplayedTime`), the overlay branch (`OverlayFor`) and `Run`, which
  folds a sequence of events.
- `properties.dfy` (`GameProperties`) proves what holds over whole runs.
  It gives the invariant every reachable state keeps (`Consistent`) and the
  fields that only move one way (`Later`). It proves the geometry of the
  three SPACE probes and the play-throughs: timeout, winning, and
  completing after a timeout.
- `program.dfy` (`HeistProgram`) is the imperative program. It has classes
  `Camera`, `MovingObject` and `ProgramState`, plus `Game`, which holds the
  globals `programState`, `movingObject`, `lastX`, `lastY` and `firstMouse`.
  Each callback is written step by step as the source has it. Each one is
  proved to leave `Model()` equal to the matching `GameRules` transition of
  the old state, and to keep `Consistent`.

Times and vectors are `real`. The clock value (`glfwGetTime`) is an
argument (`now`) of the operations that read it. Whether M is held, and the
direction the camera turns to, are arguments as well.

Behaviour worth knowing, all proved:

- No look direction passes both the kaktus probe and the lazybag probe
  (`KaktusLazybagApart`), nor both the laptop and the lazybag probe
  (`LaptopLazybagApart`). So in any reachable state the lazybag is never
  displaced together with the kaktus or the laptop (`Reachable`). The
  diamond-first order of ENTER therefore never decides anything in practice.
- The kaktus and laptop probes overlap. After S, moving the mouse so that
  the camera turns to the unit direction (22, -6, 3) / 23 and pressing
  SPACE moves both (`TwoPropsInOnePress`).

Places where one might expect something other than what the code does
(the model follows the code):

- The timeout message reads "Kraj igre, isteklo vreme" ("game over, time
  is up", src/main.cpp:615). One might expect the game to end there. It
  does not: SPACE and ENTER are not gated on the timer, so an ENTER after
  the timeout can still complete the heist. The timer then reads 60 again
  and the overlay shows "Sve si pronasao na vreme" ("you found everything
  in time", src/main.cpp:627) (`CollectAfterTimeout`).
- One might expect the success message to replace the instructions. The
  code shows it inside the in-progress branch, under the instructions
  (src/main.cpp:617-628, `OverlayFor`).
- One might expect a displaced prop to go back only when the camera looks
  at it again. The code returns every displaced prop to rest on every SPACE,
  whatever the camera is looking at (src/main.cpp:655-656, `Toggle`).
- One might expect the timeout to freeze mouse-look in every game. The code
  switches it off inside the overlay routine, which runs only when
  `ImGuiEnabled` is set (src/main.cpp:508-509, 614, `TimeoutWithoutOverlay`).

## Model

| member | source | states |
|---|---|---|
| `GameRules.Initial` | src/main.cpp:59-73 | at launch the game is not started, all props are at rest, nothing is collected, mouse-look is on and the first mouse event is still to come |
| `GameRules.SquaredDistance` | src/main.cpp:653-663 | the probe distance of the three SPACE tests (`LooksAt` compares it with 0.1) is never negative and is zero when looking exactly at the target |
| `GameRules.StartGame` | src/main.cpp:639-643 | S always starts the game; the start time becomes `now` only when the game had not started, so a later S keeps it; nothing else changes |
| `GameRules.Toggle` | src/main.cpp:653-656 | a prop becomes displaced exactly when it was at rest and aimed at; a displaced prop always returns to rest; values stay in {-1, 1} |
| `GameRules.Interact` | src/main.cpp:647-667 | SPACE changes nothing before the game starts; otherwise each prop is judged on its own probe; only the toggles change, and they stay in {-1, 1} |
| `GameRules.Collect` | src/main.cpp:669-680 | ENTER takes at most one item per press: the diamond when the kaktus is displaced, otherwise the dollars when the lazybag is; no flag is ever reset; mouse-look is off exactly when it was off or both items are held |
| `GameRules.KeyResponse` | src/main.cpp:638-681 | only presses of S, SPACE and ENTER act; a release, a repeat or any other key leaves the state unchanged |
| `GameRules.MouseOffset` | src/main.cpp:564-571 | the first mouse event yields a zero offset; later ones yield the movement since the last event, with y reversed |
| `GameRules.MouseMoved` | src/main.cpp:563-578 | lastX/lastY always take the new position and firstMouse is cleared; the camera turns, and receives the offset, only while mouse-look is on |
| `GameRules.StdMax` | src/main.cpp:594 | std::max returns an argument that is at least both arguments |
| `GameRules.DisplayedTime` | src/main.cpp:592-595 | the timer is exactly 60 unless the game has started and not both items are held; otherwise 60 minus the elapsed time, floored at 0; it is 0 exactly when the countdown runs and 60 seconds have passed; it lies in [0, 60] when now is not before the start |
| `GameRules.OverlayFor` | src/main.cpp:607-629 | the start prompt shows exactly before S; the timeout message exactly when started and the timer reads 0; otherwise the instructions with the message for the items held |
| `GameRules.Recenter` | src/main.cpp:549-550 | holding M puts the camera at (-2.32, 0.54, 5.87), whatever the game state; nothing else changes |
| `GameRules.Overlaid` | src/main.cpp:613-614 | drawing the overlay switches mouse-look off exactly when it reaches the timeout branch; nothing else changes |
| `GameRules.Frame` | src/main.cpp:340-514 | a frame recentres on M and switches mouse-look off only when the overlay is on, the game has started and the timer reads 0 |
| `GameRules.Step` | src/main.cpp:340-514 | one input event (a key callback, a mouse callback or a frame) never changes the loaded UI flag, and a key event never moves or turns the camera |
| `GameRules.Run` | src/main.cpp:340-514 | a run of events, polled between frames, keeps the loaded UI flag, and a run of key events alone leaves the camera where it was |
| `GameProperties.KaktusLazybagApart` | src/main.cpp:653-661 | no look direction is within the probe threshold of both the kaktus and the lazybag target |
| `GameProperties.LaptopLazybagApart` | src/main.cpp:658-666 | no look direction is within the probe threshold of both the laptop and the lazybag target |
| `GameProperties.TwoPropsInOnePress` | src/main.cpp:652-666 | after S, a first mouse event that seeds the mouse position and a second that moves the mouse by (-20, -5) and turns the camera to a unit direction, one SPACE press moves both the kaktus and the laptop |
| `GameProperties.StepConsistent` | src/main.cpp:638-681 | every event keeps the invariant: toggles in {-1, 1}; before S nothing is moved or collected and mouse-look is on; both items held means mouse-look is off; the lazybag is never displaced together with the kaktus or the laptop |
| `GameProperties.RunConsistent` | src/main.cpp:638-681 | any sequence of events keeps that invariant |
| `GameProperties.Reachable` | src/main.cpp:59-73 | every state reachable from launch satisfies the invariant |
| `GameProperties.CollectBeforeStart` | src/main.cpp:669-675 | in a reachable state before S, ENTER changes nothing |
| `GameProperties.CollectIgnoresLaptop` | src/main.cpp:669-675 | the laptop toggle plays no part in ENTER |
| `GameProperties.StepLater` | src/main.cpp:639-679 | one event never clears a collected flag, never moves the start time once set, and never turns mouse-look back on; once mouse-look is off the camera stops turning |
| `GameProperties.RunLater` | src/main.cpp:639-679 | the same holds between any state and any later state of a run |
| `GameProperties.DisplayedTimeNonIncreasing` | src/main.cpp:592-595 | in a fixed state the displayed timer never increases as the clock advances |
| `GameProperties.RunTimerNonIncreasing` | src/main.cpp:592-595 | across a run in which the countdown is running at both ends, the timer read later never shows more than the timer read earlier |
| `GameProperties.RunAppend` | src/main.cpp:340-514 | running two event sequences one after the other is the same as running their concatenation |
| `GameProperties.TimeoutScenario` | src/main.cpp:592-616 | S at t = 0 and a frame at t = 61 with the overlay on: the timer reads 0, the timeout message shows, mouse-look is off |
| `GameProperties.TimeoutWithoutOverlay` | src/main.cpp:508-509 | the same run with the overlay off leaves mouse-look on |
| `GameProperties.WinningScenario` | src/main.cpp:638-681 | moving the kaktus, ENTER, moving the lazybag, ENTER gives both items, mouse-look off and a timer frozen at 60 |
| `GameProperties.CollectAfterTimeout` | src/main.cpp:613-629 | after a timed-out frame, ENTER on the displaced lazybag still completes the heist and the success message shows |
| `HeistProgram.Camera.constructor` | src/main.cpp:77-78 | the camera starts at the given pose (the spawn point, or the pose loaded from the settings file) with no mouse movement received |
| `HeistProgram.Camera.ProcessMouseMovement` | src/main.cpp:576-577 | the camera receives the offset and turns to the resulting direction; its position does not change |
| `HeistProgram.MovingObject.constructor` | src/main.cpp:59-63 | all three props start at rest |
| `HeistProgram.ProgramState.constructor` | src/main.cpp:65-78 | mouse-look on, game not started, nothing collected, camera at the loaded pose |
| `HeistProgram.Game.constructor` | src/main.cpp:40-42 | the program starts in the `Initial` state, lastX/lastY at the window centre and firstMouse set, and the invariant holds |
| `HeistProgram.Game.KeyCallback` | src/main.cpp:638-681 | a key event moves the state exactly as `KeyResponse` and keeps the invariant |
| `HeistProgram.Game.PressS` | src/main.cpp:639-645 | the S branch moves the state exactly as `StartGame` |
| `HeistProgram.Game.PressSpace` | src/main.cpp:647-667 | the SPACE branch moves the state exactly as `Interact` |
| `HeistProgram.Game.PressEnter` | src/main.cpp:669-680 | the ENTER branch moves the state exactly as `Collect` |
| `HeistProgram.Game.MouseCallback` | src/main.cpp:563-578 | a mouse event moves the state exactly as `MouseMoved` and keeps the invariant |
| `HeistProgram.Game.ProcessInput` | src/main.cpp:533-551 | the per-frame key poll moves the state exactly as `Recenter` |
| `HeistProgram.Game.DrawImGui` | src/main.cpp:586-636 | returns the displayed timer and the overlay branch, and moves the state exactly as `Overlaid` |
| `HeistProgram.Game.RenderFrame` | src/main.cpp:340-514 | one pass of the render loop moves the state exactly as `Frame` and keeps the invariant |
| `HeistProgram.TimeoutRun` | src/main.cpp:592-616 | driving the classes through S at t = 0 and a frame at t = 61 yields timer 0, the timeout branch and mouse-look off |

## Left out

- Window, context and callback setup, cursor-mode calls and the framebuffer resize callback (src/main.cpp:121-164, 555-559, 644). These are platform I/O.
- ESC closing the window (src/main.cpp:534-535). It is a platform call with no game state.
- scroll_callback (src/main.cpp:582-584). It only changes the camera zoom, inside the camera.
- The internals of `Camera` (`ProcessMouseMovement`, `ProcessMouseScroll`, `GetViewMatrix`). learnopengl/camera.h is not part of this model. `Camera.ProcessMouseMovement` records the offset it is given and takes the resulting front vector as the argument `turned`.
- `SaveToFile` and `LoadFromFile` (src/main.cpp:85-113). They are file I/O. Their effect on the game is the `ImGuiEnabled` flag and the camera pose, which the constructors take as arguments.
- The uninitialised `startTime` (src/main.cpp:71). The model starts it at 0. The source never reads it before S sets it, and `DisplayedTime` does not depend on it before the start.
- Background colour, lights, shaders, buffers, textures, model transforms and draw calls (src/main.cpp:170-337, 351-506, 684-750). This includes the toggle-dependent model offsets and the billboards drawn while an item is not yet collected. They are rendering through external libraries.
- The overlay's text output (src/main.cpp:587-635). Only the branch choice and the mouse-look update are modelled.
- `deltaTime` and `lastFrame` (src/main.cpp:342-344). The game never reads them.
- Float and double rounding. The model does not capture the narrowing of the mouse position to `float` in `lastX`/`lastY`, or rounding in the probe and timer arithmetic. All are exact reals.
