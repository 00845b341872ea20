/** The program's mutable globals and the callbacks that change them, in
    the shape src/main.cpp gives them: a ProgramState holding the camera
    and the game flags, a MovingObject holding the three prop toggles, and
    the mouse bookkeeping (lastX, lastY, firstMouse). Each callback is
    proved to move the whole state exactly as the matching transition of
    GameRules says, and to keep the invariant of GameProperties. */
module HeistProgram {
  import opened GameRules
  import opened GameProperties

  /** The fields of learnopengl's Camera that the game reads or writes. */
  class Camera {
    var position: Vec3
    var front: Vec3
    /** The offsets handed to ProcessMouseMovement so far. */
    var movements: seq<Offset>

    constructor (position: Vec3, front: Vec3)
      ensures this.position == position && this.front == front && movements == []
    {
      this.position := position;
      this.front := front;
      movements := [];
    }

    /** Camera::ProcessMouseMovement. How it turns yaw and pitch into a
        front vector is not part of this model: the caller supplies the
        resulting direction as `turned`. */
    method ProcessMouseMovement(offset: Offset, turned: Vec3)
      modifies this
      ensures position == old(position) && front == turned
      ensures movements == old(movements) + [offset]
    {
      front := turned;
      movements := movements + [offset];
    }
  }

  /** The three movable props, each AtRest (-1) or Displaced (1). */
  class MovingObject {
    var kaktus: int
    var laptop: int
    var lazybag: int

    constructor ()
      ensures kaktus == AtRest && laptop == AtRest && lazybag == AtRest
    {
      kaktus, laptop, lazybag := AtRest, AtRest, AtRest;
    }
  }

  /** The game fields of ProgramState, after LoadFromFile has supplied the
      UI flag and the camera pose. */
  class ProgramState {
    var imGuiEnabled: bool
    const camera: Camera
    var cameraMouseMovementUpdateEnabled: bool
    var gameStart: bool
    var startTime: real
    var diamondCollected: bool
    var dollarCollected: bool

    constructor (imGuiEnabled: bool, position: Vec3, front: Vec3)
      ensures fresh(camera)
      ensures this.imGuiEnabled == imGuiEnabled
      ensures camera.position == position && camera.front == front && camera.movements == []
      ensures cameraMouseMovementUpdateEnabled && !gameStart && startTime == 0.0
      ensures !diamondCollected && !dollarCollected
    {
      this.imGuiEnabled := imGuiEnabled;
      camera := new Camera(position, front);
      cameraMouseMovementUpdateEnabled := true;
      gameStart := false;
      startTime := 0.0;
      diamondCollected := false;
      dollarCollected := false;
    }
  }

  /** The globals programState, movingObject, lastX, lastY and firstMouse,
      with the callbacks that act on them. */
  class Game {
    const programState: ProgramState
    const movingObject: MovingObject
    var lastX: real
    var lastY: real
    var firstMouse: bool

    /** The whole state as a GameRules value. */
    ghost function Model(): World
      reads this, programState, programState.camera, movingObject
    {
      World(programState.imGuiEnabled,
            programState.camera.position,
            programState.camera.front,
            programState.camera.movements,
            programState.cameraMouseMovementUpdateEnabled,
            programState.gameStart,
            programState.startTime,
            programState.diamondCollected,
            programState.dollarCollected,
            Props(movingObject.kaktus, movingObject.laptop, movingObject.lazybag),
            lastX, lastY, firstMouse)
    }

    ghost predicate Valid()
      reads this, programState, programState.camera, movingObject
    {
      Consistent(Model())
    }

    constructor (imGuiEnabled: bool, position: Vec3, front: Vec3)
      ensures fresh(programState) && fresh(programState.camera) && fresh(movingObject)
      ensures Valid() && Model() == Initial(imGuiEnabled, position, front)
    {
      programState := new ProgramState(imGuiEnabled, position, front);
      movingObject := new MovingObject();
      lastX := InitialLastX;
      lastY := InitialLastY;
      firstMouse := true;
      new;
      InitialConsistent(imGuiEnabled, position, front);
    }

    /** key_callback: S starts the game, SPACE moves props, ENTER collects. */
    method KeyCallback(key: Key, action: Action, now: real)
      requires Valid()
      modifies programState, movingObject
      ensures Valid()
      ensures Model() == KeyResponse(old(Model()), key, action, now)
    {
      ghost var before := Model();
      if key == KeyS && action == Press {
        PressS(now);
      }
      if key == KeySpace && action == Press {
        PressSpace();
      }
      if key == KeyEnter && action == Press {
        PressEnter();
      }
      StepConsistent(before, KeyEvent(key, action, now));
    }

    /** The S branch of key_callback. */
    method PressS(now: real)
      modifies programState
      ensures Model() == StartGame(old(Model()), now)
    {
      if !programState.gameStart {
        programState.startTime := now;
      }
      programState.gameStart := true;
    }

    /** The SPACE branch of key_callback, gated on gameStart. */
    method PressSpace()
      modifies movingObject
      ensures Model() == Interact(old(Model()))
    {
      if programState.gameStart {
        var front := programState.camera.front;
        if LooksAt(front, KaktusTarget) && movingObject.kaktus == AtRest {
          movingObject.kaktus := Displaced;
        } else if movingObject.kaktus == Displaced {
          movingObject.kaktus := AtRest;
        }
        if LooksAt(front, LazybagTarget) && movingObject.lazybag == AtRest {
          movingObject.lazybag := Displaced;
        } else if movingObject.lazybag == Displaced {
          movingObject.lazybag := AtRest;
        }
        if LooksAt(front, LaptopTarget) && movingObject.laptop == AtRest {
          movingObject.laptop := Displaced;
        } else if movingObject.laptop == Displaced {
          movingObject.laptop := AtRest;
        }
      }
    }

    /** The ENTER branch of key_callback: not gated on gameStart. */
    method PressEnter()
      modifies programState
      ensures Model() == Collect(old(Model()))
    {
      if movingObject.kaktus == Displaced {
        programState.diamondCollected := true;
      } else if movingObject.lazybag == Displaced {
        programState.dollarCollected := true;
      }
      if programState.diamondCollected && programState.dollarCollected {
        programState.cameraMouseMovementUpdateEnabled := false;
      }
    }

    /** mouse_callback: the camera is told about the movement only while
        mouse-look is on; lastX, lastY and firstMouse are updated always. */
    method MouseCallback(xpos: real, ypos: real, turned: Vec3)
      requires Valid()
      modifies this, programState.camera
      ensures Valid()
      ensures Model() == MouseMoved(old(Model()), xpos, ypos, turned)
    {
      ghost var before := Model();
      if firstMouse {
        lastX := xpos;
        lastY := ypos;
        firstMouse := false;
      }
      var xoffset := xpos - lastX;
      var yoffset := lastY - ypos;
      lastX := xpos;
      lastY := ypos;
      if programState.cameraMouseMovementUpdateEnabled {
        programState.camera.ProcessMouseMovement(Offset(xoffset, yoffset), turned);
      }
      StepConsistent(before, MouseEvent(xpos, ypos, turned));
    }

    /** processInput: M puts the camera back at the spawn point. */
    method ProcessInput(mPressed: bool)
      requires Valid()
      modifies programState.camera
      ensures Valid()
      ensures Model() == Recenter(old(Model()), mPressed)
    {
      if mPressed {
        programState.camera.position := Spawn;
      }
    }

    /** The game part of DrawImGui: the countdown it shows, the branch it
        picks, and mouse-look switched off in the timeout branch. */
    method DrawImGui(now: real) returns (time: real, overlay: Overlay)
      requires Valid()
      modifies programState
      ensures Valid()
      ensures time == DisplayedTime(old(Model()), now)
      ensures overlay == OverlayFor(old(Model()), time)
      ensures Model() == Overlaid(old(Model()), now)
    {
      time := TimerStart;
      if programState.gameStart && !(programState.diamondCollected && programState.dollarCollected) {
        time := StdMax(TimerStart - now + programState.startTime, 0.0);
      }
      if !programState.gameStart {
        overlay := StartPrompt;
      } else if time == 0.0 {
        programState.cameraMouseMovementUpdateEnabled := false;
        overlay := TimeUp;
      } else {
        var progress := Searching;
        if programState.diamondCollected && !programState.dollarCollected {
          progress := DiamondFound;
        }
        if programState.dollarCollected && !programState.diamondCollected {
          progress := DollarsFound;
        }
        if programState.diamondCollected && programState.dollarCollected {
          progress := MissionComplete;
        }
        overlay := Running(progress);
      }
    }

    /** One pass of the render loop, as far as the game is concerned:
        processInput first, and the overlay only when ImGuiEnabled. */
    method RenderFrame(now: real, mPressed: bool)
      requires Valid()
      modifies programState, programState.camera
      ensures Valid()
      ensures Model() == Frame(old(Model()), now, mPressed)
    {
      ghost var before := Model();
      ProcessInput(mPressed);
      if programState.imGuiEnabled {
        var time, overlay := DrawImGui(now);
      }
      StepConsistent(before, FrameEvent(now, mPressed));
    }
  }

  /** A fresh program with the overlay on: S at t = 0, then a frame at
      t = 61. The callbacks' contracts alone show the overlay reaching the
      timeout branch with the timer at 0 and mouse-look switched off. */
  method TimeoutRun(position: Vec3, front: Vec3) returns (time: real, overlay: Overlay, mouseLook: bool)
    ensures time == 0.0 && overlay == TimeUp && !mouseLook
  {
    var game := new Game(true, position, front);
    game.KeyCallback(KeyS, Press, 0.0);
    game.ProcessInput(false);
    time, overlay := game.DrawImGui(61.0);
    mouseLook := game.programState.cameraMouseMovementUpdateEnabled;
  }
}
