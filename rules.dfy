/** The heist mini-game of src/main.cpp as values: the state the callbacks
    share (ProgramState, MovingObject, the mouse globals and the camera
    fields they touch), one transition per input event, the countdown the
    overlay displays and the overlay branch it picks. The classes in
    program.dfy are proved to follow these transitions field by field. */
module GameRules {

  /** A glm::vec3, with exact reals in place of floats. */
  datatype Vec3 = Vec3(x: real, y: real, z: real)

  /** TIMER_START: the length of a game, in seconds. */
  const TimerStart: real := 60.0

  /** The squared distance below which the look direction "hits" a prop. */
  const ProbeThreshold: real := 0.1

  /** The camera position the program starts from and the M key returns to. */
  const Spawn: Vec3 := Vec3(-2.32, 0.54, 5.87)

  /** lastX and lastY before the first mouse event: the centre of the 800x600 window. */
  const InitialLastX: real := 400.0
  const InitialLastY: real := 300.0

  /** The look directions the SPACE probe compares the camera front against. */
  const KaktusTarget: Vec3 := Vec3(0.93, -0.33, -0.13)
  const LazybagTarget: Vec3 := Vec3(-0.06, -0.21, 0.97)
  const LaptopTarget: Vec3 := Vec3(0.88, -0.20, 0.41)

  /** The two values a MovingObject toggle takes. */
  const AtRest: int := -1
  const Displaced: int := 1

  predicate IsToggle(v: int) {
    v == AtRest || v == Displaced
  }

  /** The square of one coordinate difference. */
  function Sq(r: real): (s: real)
    ensures 0.0 <= s
  {
    r * r
  }

  function SquaredDistance(a: Vec3, b: Vec3): (d: real)
    ensures 0.0 <= d
    ensures a == b ==> d == 0.0
  {
    Sq(a.x - b.x) + Sq(a.y - b.y) + Sq(a.z - b.z)
  }

  /** The "look-direction near target" probe of the SPACE handler. */
  predicate LooksAt(front: Vec3, target: Vec3) {
    SquaredDistance(front, target) < ProbeThreshold
  }

  /** The three toggles of MovingObject. */
  datatype Props = Props(kaktus: int, laptop: int, lazybag: int)

  const AllAtRest: Props := Props(AtRest, AtRest, AtRest)

  predicate PropsValid(p: Props) {
    IsToggle(p.kaktus) && IsToggle(p.laptop) && IsToggle(p.lazybag)
  }

  /** One offset pair handed to Camera::ProcessMouseMovement. */
  datatype Offset = Offset(dx: real, dy: real)

  /** Everything the callbacks read or write. `movements` records the calls
      made to the camera's mouse-movement routine, whose internals are not
      part of this model. */
  datatype World = World(
    imGuiEnabled: bool,
    position: Vec3,
    front: Vec3,
    movements: seq<Offset>,
    mouseLook: bool,
    gameStart: bool,
    startTime: real,
    diamondCollected: bool,
    dollarCollected: bool,
    props: Props,
    lastX: real,
    lastY: real,
    firstMouse: bool)

  /** The state after ProgramState's constructor and LoadFromFile: the UI
      flag and the camera pose come from the settings (or their defaults),
      everything else from the initialisers. The source leaves startTime
      uninitialised; it is never read before S sets it. */
  function Initial(imGuiEnabled: bool, position: Vec3, front: Vec3): (w: World)
    ensures !w.gameStart && w.mouseLook && w.props == AllAtRest
    ensures !w.diamondCollected && !w.dollarCollected && w.firstMouse
  {
    World(imGuiEnabled, position, front, [], true, false, 0.0, false, false,
          AllAtRest, InitialLastX, InitialLastY, true)
  }

  /** Both collectibles are in hand. */
  predicate Completed(w: World) {
    w.diamondCollected && w.dollarCollected
  }

  /** The game has started and is not yet won: the countdown is running. */
  predicate Counting(w: World) {
    w.gameStart && !Completed(w)
  }

  // ---------------------------------------------------------------- keys

  /** Pressing S: the game starts, and the start time is taken only the
      first time. */
  function StartGame(w: World, now: real): (r: World)
    ensures r.gameStart
    ensures r.startTime == if w.gameStart then w.startTime else now
    ensures r.(gameStart := w.gameStart, startTime := w.startTime) == w
  {
    w.(gameStart := true, startTime := if w.gameStart then w.startTime else now)
  }

  /** One prop under SPACE: at rest and aimed at, it is displaced; displaced,
      it returns to rest whatever the aim. */
  function Toggle(state: int, aimed: bool): (r: int)
    ensures IsToggle(state) ==> IsToggle(r)
    ensures r == Displaced <==> state == AtRest && aimed
    ensures state == Displaced ==> r == AtRest
  {
    if aimed && state == AtRest then Displaced
    else if state == Displaced then AtRest
    else state
  }

  /** Pressing SPACE: ignored before the game starts; otherwise every prop
      is probed independently against the current look direction. */
  function Interact(w: World): (r: World)
    ensures !w.gameStart ==> r == w
    ensures r.(props := w.props) == w
    ensures PropsValid(w.props) ==> PropsValid(r.props)
    ensures w.gameStart ==>
      (r.props.kaktus == Displaced <==> w.props.kaktus == AtRest && LooksAt(w.front, KaktusTarget)) &&
      (r.props.laptop == Displaced <==> w.props.laptop == AtRest && LooksAt(w.front, LaptopTarget)) &&
      (r.props.lazybag == Displaced <==> w.props.lazybag == AtRest && LooksAt(w.front, LazybagTarget))
  {
    if !w.gameStart then w
    else
      w.(props := Props(
           Toggle(w.props.kaktus, LooksAt(w.front, KaktusTarget)),
           Toggle(w.props.laptop, LooksAt(w.front, LaptopTarget)),
           Toggle(w.props.lazybag, LooksAt(w.front, LazybagTarget))))
  }

  /** Pressing ENTER: the diamond if the kaktus is displaced, otherwise the
      dollars if the lazybag is displaced; holding both ends mouse-look. */
  function Collect(w: World): (r: World)
    ensures r.(diamondCollected := w.diamondCollected, dollarCollected := w.dollarCollected,
               mouseLook := w.mouseLook) == w
    ensures w.diamondCollected ==> r.diamondCollected
    ensures w.dollarCollected ==> r.dollarCollected
    ensures !(!w.diamondCollected && r.diamondCollected && !w.dollarCollected && r.dollarCollected)
    ensures w.props.kaktus == Displaced ==> r.diamondCollected && r.dollarCollected == w.dollarCollected
    ensures w.props.kaktus != Displaced && w.props.lazybag == Displaced ==>
      r.dollarCollected && r.diamondCollected == w.diamondCollected
    ensures w.props.kaktus != Displaced && w.props.lazybag != Displaced ==>
      r.diamondCollected == w.diamondCollected && r.dollarCollected == w.dollarCollected
    ensures r.mouseLook <==> w.mouseLook && !Completed(r)
  {
    var diamond := w.diamondCollected || w.props.kaktus == Displaced;
    var dollar := w.dollarCollected || (w.props.kaktus != Displaced && w.props.lazybag == Displaced);
    w.(diamondCollected := diamond,
       dollarCollected := dollar,
       mouseLook := w.mouseLook && !(diamond && dollar))
  }

  datatype Key = KeyS | KeySpace | KeyEnter | KeyOther
  datatype Action = Press | Release | Repeat

  /** key_callback: only presses act, and each of S, SPACE and ENTER has
      its own handler. */
  function KeyResponse(w: World, key: Key, action: Action, now: real): (r: World)
    ensures action != Press ==> r == w
    ensures key == KeyOther ==> r == w
  {
    if action != Press then w
    else
      match key
      case KeyS => StartGame(w, now)
      case KeySpace => Interact(w)
      case KeyEnter => Collect(w)
      case KeyOther => w
  }

  // --------------------------------------------------------------- mouse

  /** mouse_callback: the first event only seeds lastX/lastY, so the offset
      it hands on is zero; the camera turns (to `turned`, whatever the
      camera computes from the offset) only while mouse-look is on. */
  function MouseMoved(w: World, xpos: real, ypos: real, turned: Vec3): (r: World)
    ensures r.lastX == xpos && r.lastY == ypos && !r.firstMouse
    ensures r.front == if w.mouseLook then turned else w.front
    ensures r.movements == if w.mouseLook then w.movements + [MouseOffset(w, xpos, ypos)] else w.movements
    ensures r.(lastX := w.lastX, lastY := w.lastY, firstMouse := w.firstMouse,
               front := w.front, movements := w.movements) == w
  {
    var w1 := w.(lastX := xpos, lastY := ypos, firstMouse := false);
    if w.mouseLook then w1.(front := turned, movements := w.movements + [MouseOffset(w, xpos, ypos)])
    else w1
  }

  /** The offset mouse_callback computes; y is reversed. */
  function MouseOffset(w: World, xpos: real, ypos: real): (o: Offset)
    ensures w.firstMouse ==> o == Offset(0.0, 0.0)
    ensures !w.firstMouse ==> o.dx == xpos - w.lastX && o.dy == w.lastY - ypos
  {
    var lastX := if w.firstMouse then xpos else w.lastX;
    var lastY := if w.firstMouse then ypos else w.lastY;
    Offset(xpos - lastX, lastY - ypos)
  }

  // ------------------------------------------------------- timer, overlay

  /** std::max on doubles: the first argument unless it is below the second. */
  function StdMax(a: real, b: real): (m: real)
    ensures a <= m && b <= m && (m == a || m == b)
  {
    if a < b then b else a
  }

  /** The countdown DrawImGui shows at clock value `now`. */
  function DisplayedTime(w: World, now: real): (t: real)
    ensures 0.0 <= t
    ensures !Counting(w) ==> t == TimerStart
    ensures Counting(w) && now - w.startTime < TimerStart ==> t == TimerStart - (now - w.startTime)
    ensures t == 0.0 <==> Counting(w) && TimerStart <= now - w.startTime
    ensures w.startTime <= now ==> t <= TimerStart
  {
    if Counting(w) then StdMax(TimerStart - now + w.startTime, 0.0) else TimerStart
  }

  /** The messages shown under the in-progress instructions. */
  datatype Progress = Searching | DiamondFound | DollarsFound | MissionComplete

  /** The three branches of DrawImGui. */
  datatype Overlay = StartPrompt | TimeUp | Running(progress: Progress)

  function OverlayFor(w: World, time: real): (o: Overlay)
    ensures o == StartPrompt <==> !w.gameStart
    ensures o == TimeUp <==> w.gameStart && time == 0.0
    ensures o == Running(MissionComplete) <==> w.gameStart && time != 0.0 && Completed(w)
    ensures o == Running(DiamondFound) <==> w.gameStart && time != 0.0 && w.diamondCollected && !w.dollarCollected
    ensures o == Running(DollarsFound) <==> w.gameStart && time != 0.0 && w.dollarCollected && !w.diamondCollected
  {
    if !w.gameStart then StartPrompt
    else if time == 0.0 then TimeUp
    else if w.diamondCollected && w.dollarCollected then Running(MissionComplete)
    else if w.diamondCollected then Running(DiamondFound)
    else if w.dollarCollected then Running(DollarsFound)
    else Running(Searching)
  }

  // --------------------------------------------------------------- frame

  /** processInput: holding M puts the camera back at the spawn point,
      whatever the game state. */
  function Recenter(w: World, mHeld: bool): (r: World)
    ensures r.position == if mHeld then Spawn else w.position
    ensures r.(position := w.position) == w
  {
    if mHeld then w.(position := Spawn) else w
  }

  /** The game part of DrawImGui: reaching the timeout branch switches
      mouse-look off; nothing else changes. */
  function Overlaid(w: World, now: real): (r: World)
    ensures r.(mouseLook := w.mouseLook) == w
    ensures !r.mouseLook <==> !w.mouseLook || OverlayFor(w, DisplayedTime(w, now)) == TimeUp
  {
    if OverlayFor(w, DisplayedTime(w, now)) == TimeUp then w.(mouseLook := false) else w
  }

  /** One pass of the render loop: processInput first, the overlay (only
      when ImGuiEnabled) last. */
  function Frame(w: World, now: real, mHeld: bool): (r: World)
    ensures r.position == if mHeld then Spawn else w.position
    ensures !r.mouseLook <==> !w.mouseLook || (w.imGuiEnabled && w.gameStart && DisplayedTime(w, now) == 0.0)
    ensures r.(position := w.position, mouseLook := w.mouseLook) == w
  {
    var w1 := Recenter(w, mHeld);
    if w1.imGuiEnabled then Overlaid(w1, now) else w1
  }

  // -------------------------------------------------------------- events

  datatype Event =
    | KeyEvent(key: Key, action: Action, now: real)
    | MouseEvent(xpos: real, ypos: real, turned: Vec3)
    | FrameEvent(now: real, mHeld: bool)

  /** One input event. Only the loaded settings never change, and key
      presses never move the camera. */
  function Step(w: World, e: Event): (r: World)
    ensures r.imGuiEnabled == w.imGuiEnabled
    ensures e.KeyEvent? ==> r.position == w.position && r.front == w.front && r.movements == w.movements
  {
    match e
    case KeyEvent(key, action, now) => KeyResponse(w, key, action, now)
    case MouseEvent(xpos, ypos, turned) => MouseMoved(w, xpos, ypos, turned)
    case FrameEvent(now, mHeld) => Frame(w, now, mHeld)
  }

  /** The state after a sequence of events, oldest first. */
  function Run(w: World, events: seq<Event>): (r: World)
    ensures r.imGuiEnabled == w.imGuiEnabled
    ensures (forall i :: 0 <= i < |events| ==> events[i].KeyEvent?) ==> r.position == w.position && r.front == w.front
    decreases |events|
  {
    if events == [] then w else Run(Step(w, events[0]), events[1..])
  }
}
