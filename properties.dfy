/** What holds of the heist game over whole runs: the invariant every
    reachable state keeps, the fields that only ever move one way, the
    geometry of the three SPACE probes, and sample play-throughs. */
module GameProperties {
  import opened GameRules

  // ------------------------------------------------------------ geometry

  lemma SumSquareBound(u: real, v: real)
    ensures (u + v) * (u + v) <= 2.0 * (u * u + v * v)
  {
    assert 0.0 <= (u - v) * (u - v);
  }

  /** The one-coordinate form of ParallelogramBound. */
  lemma CoordBound(p: real, q: real, r: real)
    ensures Sq(p - q) <= 2.0 * (Sq(r - p) + Sq(r - q))
  {
    var u, v := p - r, r - q;
    SumSquareBound(u, v);
    assert p - q == u + v;
    assert Sq(r - p) == u * u;
    assert Sq(r - q) == v * v;
  }

  /** Two targets that are far apart cannot both be near one look direction. */
  lemma ParallelogramBound(a: Vec3, b: Vec3, f: Vec3)
    ensures SquaredDistance(a, b) <= 2.0 * (SquaredDistance(f, a) + SquaredDistance(f, b))
  {
    CoordBound(a.x, b.x, f.x);
    CoordBound(a.y, b.y, f.y);
    CoordBound(a.z, b.z, f.z);
  }

  /** No look direction passes both the kaktus and the lazybag probe. */
  lemma KaktusLazybagApart(front: Vec3)
    ensures !(LooksAt(front, KaktusTarget) && LooksAt(front, LazybagTarget))
  {
    ParallelogramBound(KaktusTarget, LazybagTarget, front);
  }

  /** No look direction passes both the laptop and the lazybag probe. */
  lemma LaptopLazybagApart(front: Vec3)
    ensures !(LooksAt(front, LaptopTarget) && LooksAt(front, LazybagTarget))
  {
    ParallelogramBound(LaptopTarget, LazybagTarget, front);
  }

  /** The unit look direction (22, -6, 3) / 23, inside both the kaktus
      and the laptop probe. */
  const BetweenKaktusAndLaptop: Vec3 := Vec3(22.0 / 23.0, -6.0 / 23.0, 3.0 / 23.0)

  /** The kaktus and laptop probes overlap: after S, a first mouse event
      that leaves the camera where it looks, then a real mouse movement
      that turns it to a unit direction between the two, one SPACE press
      displaces both. */
  lemma TwoPropsInOnePress(imGuiEnabled: bool, position: Vec3, front: Vec3)
    ensures var f := BetweenKaktusAndLaptop;
      f.x * f.x + f.y * f.y + f.z * f.z == 1.0 &&
      var w := Run(Initial(imGuiEnabled, position, front),
                   [KeyEvent(KeyS, Press, 0.0), MouseEvent(400.0, 300.0, front),
                    MouseEvent(380.0, 305.0, f), KeyEvent(KeySpace, Press, 1.0)]);
      w.movements == [Offset(0.0, 0.0), Offset(-20.0, -5.0)] &&
      w.front == f && w.props == Props(Displaced, Displaced, AtRest)
  {
    var f := BetweenKaktusAndLaptop;
    var e := [KeyEvent(KeyS, Press, 0.0), MouseEvent(400.0, 300.0, front),
              MouseEvent(380.0, 305.0, f), KeyEvent(KeySpace, Press, 1.0)];
    var w0 := Initial(imGuiEnabled, position, front);
    var w1 := Step(w0, e[0]);
    assert Run(w0, e) == Run(w1, e[1..]);
    var w2 := Step(w1, e[1]);
    assert w2.front == front && w2.movements == [Offset(0.0, 0.0)];
    assert Run(w1, e[1..]) == Run(w2, e[2..]);
    var w3 := Step(w2, e[2]);
    assert w3.front == f && w3.movements == [Offset(0.0, 0.0), Offset(-20.0, -5.0)];
    assert Run(w2, e[2..]) == Run(w3, e[3..]);
    assert LooksAt(f, KaktusTarget) && LooksAt(f, LaptopTarget) && !LooksAt(f, LazybagTarget);
    var w4 := Step(w3, e[3]);
    assert Run(w3, e[3..]) == Run(w4, e[4..]);
    assert e[4..] == [];
  }

  // ----------------------------------------------------------- invariant

  /** What every state reachable from Initial satisfies. */
  predicate Consistent(w: World) {
    PropsValid(w.props)
    && (!w.gameStart ==>
          w.props == AllAtRest && !w.diamondCollected && !w.dollarCollected && w.mouseLook)
    && (Completed(w) ==> !w.mouseLook)
    && !(w.props.kaktus == Displaced && w.props.lazybag == Displaced)
    && !(w.props.laptop == Displaced && w.props.lazybag == Displaced)
  }

  lemma InitialConsistent(imGuiEnabled: bool, position: Vec3, front: Vec3)
    ensures Consistent(Initial(imGuiEnabled, position, front))
  {
  }

  lemma StepConsistent(w: World, e: Event)
    requires Consistent(w)
    ensures Consistent(Step(w, e))
  {
    match e
    case KeyEvent(key, action, now) =>
      if action == Press && key == KeySpace {
        KaktusLazybagApart(w.front);
        LaptopLazybagApart(w.front);
      }
    case MouseEvent(_, _, _) =>
    case FrameEvent(_, _) =>
  }

  lemma {:induction false} RunConsistent(w: World, events: seq<Event>)
    requires Consistent(w)
    ensures Consistent(Run(w, events))
    decreases |events|
  {
    if events != [] {
      StepConsistent(w, events[0]);
      RunConsistent(Step(w, events[0]), events[1..]);
    }
  }

  /** Every state the program can reach keeps the invariant: the toggles
      stay in {-1, 1}, nothing moves or is collected before S, winning
      switches mouse-look off, and the lazybag is never displaced together
      with the kaktus or the laptop, so the diamond-first order of ENTER never
      decides anything. */
  lemma Reachable(imGuiEnabled: bool, position: Vec3, front: Vec3, events: seq<Event>)
    ensures Consistent(Run(Initial(imGuiEnabled, position, front), events))
  {
    InitialConsistent(imGuiEnabled, position, front);
    RunConsistent(Initial(imGuiEnabled, position, front), events);
  }

  /** ENTER before S collects nothing and changes nothing. */
  lemma CollectBeforeStart(w: World)
    requires Consistent(w) && !w.gameStart
    ensures Collect(w) == w
  {
  }

  /** The laptop plays no part in ENTER. */
  lemma CollectIgnoresLaptop(w: World, laptop: int)
    ensures Collect(w.(props := w.props.(laptop := laptop))) == Collect(w).(props := w.props.(laptop := laptop))
  {
  }

  // ---------------------------------------------------------- monotonicity

  /** How a later state of one run relates to an earlier one: the start
      time is fixed once taken, collected items stay collected, mouse-look
      never comes back, and once it is off the camera no longer turns. */
  predicate Later(a: World, b: World) {
    b.imGuiEnabled == a.imGuiEnabled
    && (a.gameStart ==> b.gameStart && b.startTime == a.startTime)
    && (a.diamondCollected ==> b.diamondCollected)
    && (a.dollarCollected ==> b.dollarCollected)
    && (b.mouseLook ==> a.mouseLook)
    && a.movements <= b.movements
    && (!a.mouseLook ==> b.front == a.front && b.movements == a.movements)
    && (!a.firstMouse ==> !b.firstMouse)
  }

  lemma StepLater(w: World, e: Event)
    ensures Later(w, Step(w, e))
  {
    match e
    case KeyEvent(_, _, _) =>
    case MouseEvent(_, _, _) =>
    case FrameEvent(_, _) =>
  }

  lemma {:induction false} RunLater(w: World, events: seq<Event>)
    ensures Later(w, Run(w, events))
    decreases |events|
  {
    if events != [] {
      var w1 := Step(w, events[0]);
      StepLater(w, events[0]);
      RunLater(w1, events[1..]);
    }
  }

  // --------------------------------------------------------------- timer

  /** The displayed countdown never goes up as the clock advances. */
  lemma DisplayedTimeNonIncreasing(w: World, earlier: real, later: real)
    requires earlier <= later
    ensures DisplayedTime(w, later) <= DisplayedTime(w, earlier)
  {
  }

  /** Across a run, the displayed countdown never goes up while the game
      is counting down: a later state read at a later clock shows no more
      time than an earlier state read at an earlier clock. */
  lemma RunTimerNonIncreasing(w: World, events: seq<Event>, earlier: real, later: real)
    requires Counting(w) && Counting(Run(w, events)) && earlier <= later
    ensures DisplayedTime(Run(w, events), later) <= DisplayedTime(w, earlier)
  {
    RunLater(w, events);
  }

  /** Running two event sequences one after the other is running their
      concatenation. */
  lemma {:induction false} RunAppend(w: World, first: seq<Event>, second: seq<Event>)
    ensures Run(w, first + second) == Run(Run(w, first), second)
    decreases |first|
  {
    if first == [] {
      assert first + second == second;
    } else {
      assert (first + second)[0] == first[0];
      assert (first + second)[1..] == first[1..] + second;
      RunAppend(Step(w, first[0]), first[1..], second);
    }
  }

  // ----------------------------------------------------------- scenarios

  /** Start at t = 0 and draw a frame at t = 61 with the overlay on: the
      timer reads 0, the timeout message shows and mouse-look is off. */
  lemma TimeoutScenario(position: Vec3, front: Vec3)
    ensures var w := Run(Initial(true, position, front), [KeyEvent(KeyS, Press, 0.0), FrameEvent(61.0, false)]);
      DisplayedTime(w, 61.0) == 0.0 && OverlayFor(w, 0.0) == TimeUp && !w.mouseLook
  {
    var events := [KeyEvent(KeyS, Press, 0.0), FrameEvent(61.0, false)];
    var w0 := Initial(true, position, front);
    var w1 := Step(w0, events[0]);
    assert Run(w0, events) == Run(w1, events[1..]);
    assert Run(w1, events[1..]) == Run(Step(w1, events[1]), events[2..]);
  }

  /** The same run with the overlay off: the timeout branch is never
      reached, so mouse-look stays on. */
  lemma TimeoutWithoutOverlay(position: Vec3, front: Vec3)
    ensures var w := Run(Initial(false, position, front), [KeyEvent(KeyS, Press, 0.0), FrameEvent(61.0, false)]);
      DisplayedTime(w, 61.0) == 0.0 && w.mouseLook
  {
    var events := [KeyEvent(KeyS, Press, 0.0), FrameEvent(61.0, false)];
    var w0 := Initial(false, position, front);
    var w1 := Step(w0, events[0]);
    assert Run(w0, events) == Run(w1, events[1..]);
    assert Run(w1, events[1..]) == Run(Step(w1, events[1]), events[2..]);
  }

  /** The events of a winning play: start, look at the kaktus, move it,
      take the diamond, look at the lazybag, move it (the kaktus goes back),
      take the dollars. */
  function WinningPlay(): seq<Event> {
    [KeyEvent(KeyS, Press, 0.0),
     MouseEvent(400.0, 300.0, KaktusTarget),
     KeyEvent(KeySpace, Press, 1.0),
     KeyEvent(KeyEnter, Press, 2.0),
     MouseEvent(500.0, 300.0, LazybagTarget),
     KeyEvent(KeySpace, Press, 3.0),
     KeyEvent(KeyEnter, Press, 4.0)]
  }

  lemma WinningScenario(position: Vec3, front: Vec3, imGuiEnabled: bool, now: real)
    ensures var w := Run(Initial(imGuiEnabled, position, front), WinningPlay());
      Completed(w) && !w.mouseLook && DisplayedTime(w, now) == TimerStart &&
      w.props == Props(AtRest, AtRest, Displaced)
  {
    var e := WinningPlay();
    var w0 := Initial(imGuiEnabled, position, front);
    var w1 := Step(w0, e[0]);
    assert Run(w0, e) == Run(w1, e[1..]);
    var w2 := Step(w1, e[1]);
    assert Run(w1, e[1..]) == Run(w2, e[2..]);
    var w3 := Step(w2, e[2]);
    assert w3.props == Props(Displaced, AtRest, AtRest);
    assert Run(w2, e[2..]) == Run(w3, e[3..]);
    var w4 := Step(w3, e[3]);
    assert w4.diamondCollected && !w4.dollarCollected;
    assert Run(w3, e[3..]) == Run(w4, e[4..]);
    var w5 := Step(w4, e[4]);
    assert Run(w4, e[4..]) == Run(w5, e[5..]);
    var w6 := Step(w5, e[5]);
    assert w6.props == Props(AtRest, AtRest, Displaced);
    assert Run(w5, e[5..]) == Run(w6, e[6..]);
    var w7 := Step(w6, e[6]);
    assert Run(w6, e[6..]) == Run(w7, e[7..]);
    assert e[7..] == [];
  }

  /** The timeout branch is not final: after a timed-out frame, an ENTER
      on a displaced lazybag still completes the heist, and the overlay
      then shows the success message with the timer back at 60. */
  lemma CollectAfterTimeout(position: Vec3, front: Vec3)
    ensures var e := WinningPlay()[..6] + [FrameEvent(61.0, false)];
      var timedOut := Run(Initial(true, position, front), e);
      var w := Collect(timedOut);
      OverlayFor(timedOut, DisplayedTime(timedOut, 61.0)) == TimeUp && !timedOut.mouseLook &&
      Completed(w) && OverlayFor(w, DisplayedTime(w, 61.0)) == Running(MissionComplete)
  {
    var e := WinningPlay()[..6] + [FrameEvent(61.0, false)];
    var w0 := Initial(true, position, front);
    var w1 := Step(w0, e[0]);
    assert Run(w0, e) == Run(w1, e[1..]);
    var w2 := Step(w1, e[1]);
    assert Run(w1, e[1..]) == Run(w2, e[2..]);
    var w3 := Step(w2, e[2]);
    assert Run(w2, e[2..]) == Run(w3, e[3..]);
    var w4 := Step(w3, e[3]);
    assert Run(w3, e[3..]) == Run(w4, e[4..]);
    var w5 := Step(w4, e[4]);
    assert Run(w4, e[4..]) == Run(w5, e[5..]);
    var w6 := Step(w5, e[5]);
    assert w6.props == Props(AtRest, AtRest, Displaced);
    assert Run(w5, e[5..]) == Run(w6, e[6..]);
    var w7 := Step(w6, e[6]);
    assert Run(w6, e[6..]) == Run(w7, e[7..]);
    assert e[7..] == [];
  }
}
