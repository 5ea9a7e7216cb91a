/**
 * Managers.InputManager: a per-frame touch/drag state machine that turns the
 * mouse button's up/down/held flags into signals on InputSignals, gated by the
 * game's enable/disable/play/reset signals.
 *
 * The frame's engine queries (button flags, pointer position, the UI raycast
 * at each of the three checks, the frame time) are the fields of a `Frame`.
 * `Mathf.SmoothDamp` is a parameter of the model. The signals the manager
 * raises are appended to a trace.
 */
module Input {
  import opened Common
  import opened Signals

  /** Data.ValueObjects.InputData, loaded once from the "Data/CD_Input" asset. */
  datatype InputData = InputData(horizontalInputSpeed: real, clampSpeed: real, clampSides: Vec2)

  /** Keys.HorizontalInputParams, the payload of `onInputDragged`. */
  datatype HorizontalInputParams = HorizontalInputParams(xValue: real, clampValues: Vec2)

  /** A signal raised on InputSignals (`?.Invoke`, which never faults). */
  datatype InputEmission =
    | InputReleased
    | InputTaken
    | FirstTimeTouchTaken
    | InputDragged(params: HorizontalInputParams)

  /**
   * `Mathf.SmoothDamp(current, 0, ref velocity, smoothTime)` over one frame of
   * length `deltaTime`: given (current, velocity, smoothTime, deltaTime) it
   * yields the smoothed value and the new velocity.
   */
  type SmoothDamp = (real, real, real, real) -> (real, real)

  /** What one `Update` reads from the engine. */
  datatype Frame = Frame(
    buttonUp: bool,       // Input.GetMouseButtonUp(0)
    buttonDown: bool,     // Input.GetMouseButtonDown(0)
    buttonHeld: bool,     // Input.GetMouseButton(0)
    pointer: Vec2,        // (Vector2)Input.mousePosition
    overUiOnUp: bool,     // IsPointerOverUIElement() at the release check
    overUiOnDown: bool,   // ... at the press check
    overUiOnHeld: bool,   // ... at the held check
    deltaTime: real)      // Time.deltaTime, read by SmoothDamp

  /** The manager's fields, as a value. */
  datatype TouchState = TouchState(
    ready: bool,               // isReadyForTouch
    firstTouchTaken: bool,     // isFirstTimeTouchTaken
    touching: bool,            // _isTouching
    velocity: real,            // _currentVelocity
    lastPointer: Option<Vec2>, // _mousePosition
    moveVector: Vec3)          // _moveVector

  /** The state after a step and the signals raised during it, in order. */
  datatype Step = Step(state: TouchState, emitted: seq<InputEmission>)

  /** Runs `b` after `a`: `b`'s state, both emissions in order. */
  function Then(a: Step, b: Step): Step {
    Step(b.state, a.emitted + b.emitted)
  }

  /** EndMouseDrag. */
  function EndDragStep(s: TouchState): (r: Step)
    ensures !r.state.touching && r.emitted == [InputReleased]
    ensures r.state.(touching := s.touching) == s
  {
    Step(s.(touching := false), [InputReleased])
  }

  /** StartMouseDrag, at pointer position `pointer`. */
  function StartDragStep(s: TouchState, pointer: Vec2): (r: Step)
    ensures r.state.touching && r.state.firstTouchTaken && r.state.lastPointer == Some(pointer)
    ensures r.state.ready == s.ready && r.state.velocity == s.velocity && r.state.moveVector == s.moveVector
    ensures r.emitted != [] && r.emitted[0] == InputTaken
    ensures FirstTimeTouchTaken in r.emitted <==> !s.firstTouchTaken
  {
    if !s.firstTouchTaken then
      Step(s.(touching := true, firstTouchTaken := true, lastPointer := Some(pointer)),
           [InputTaken, FirstTimeTouchTaken])
    else
      Step(s.(touching := true, lastPointer := Some(pointer)), [InputTaken])
  }

  /** The horizontal move value MouseDrag computes and the velocity it leaves behind. */
  function DragValue(data: InputData, smooth: SmoothDamp, s: TouchState, dx: real, dt: real): (real, real) {
    var speed := data.horizontalInputSpeed;
    if dx > speed then (speed / 10.0 * dx, s.velocity)
    else if dx < -speed then (-speed / 10.0 * -dx, s.velocity)
    else smooth(s.moveVector.x, s.velocity, data.clampSpeed, dt)
  }

  /** MouseDrag; the caller has checked that a pointer position is stored. */
  function DragStep(data: InputData, smooth: SmoothDamp, s: TouchState, pointer: Vec2, dt: real): Step
    requires s.lastPointer.Some?
  {
    var (x, v) := DragValue(data, smooth, s, pointer.x - s.lastPointer.value.x, dt);
    Step(s.(moveVector := s.moveVector.(x := x), velocity := v, lastPointer := Some(pointer)),
         [InputDragged(HorizontalInputParams(x, Vec2(data.clampSides.x, data.clampSides.y)))])
  }

  /** A release the UI does not swallow. */
  predicate Releases(f: Frame) { f.buttonUp && !f.overUiOnUp }

  /** A press the UI does not swallow. */
  predicate Presses(f: Frame) { f.buttonDown && !f.overUiOnDown }

  /** A hold the UI does not swallow. */
  predicate Holds(f: Frame) { f.buttonHeld && !f.overUiOnHeld }

  /** The release check, then the press check, of one Update. */
  function ButtonStep(s: TouchState, f: Frame): (r: Step)
    ensures r.state.ready == s.ready
    ensures r.state.touching <==> Presses(f) || (s.touching && !Releases(f))
    ensures |r.emitted| <= 3
  {
    var a := if Releases(f) then EndDragStep(s) else Step(s, []);
    if Presses(f) then Then(a, StartDragStep(a.state, f.pointer)) else a
  }

  /** Update: release, then press, then drag, each in its own `if`. */
  function TickStep(data: InputData, smooth: SmoothDamp, s: TouchState, f: Frame): (r: Step)
    ensures r.state.ready == s.ready
    ensures |r.emitted| <= 4
    ensures !s.ready ==> r.emitted == []
  {
    if !s.ready then Step(s, [])
    else
      var b := ButtonStep(s, f);
      if Holds(f) && b.state.touching && b.state.lastPointer.Some?
      then Then(b, DragStep(data, smooth, b.state, f.pointer, f.deltaTime))
      else b
  }

  /** The game signals InputManager subscribes to. */
  datatype Gate = EnableInput | DisableInput | Play | Reset

  /** OnEnableInput, OnDisableInput, OnPlay and OnReset. */
  function GateStep(s: TouchState, g: Gate): (r: TouchState)
    ensures r.ready <==> g == EnableInput || g == Play
    ensures g == Reset ==> !r.touching && !r.firstTouchTaken
    ensures g != Reset ==> r.touching == s.touching && r.firstTouchTaken == s.firstTouchTaken
    ensures r.velocity == s.velocity && r.lastPointer == s.lastPointer && r.moveVector == s.moveVector
  {
    match g
    case EnableInput => s.(ready := true)
    case DisableInput => s.(ready := false)
    case Play => s.(ready := true)
    case Reset => s.(touching := false, ready := false, firstTouchTaken := false)
  }

  /** Something that reaches the manager: a frame, or one of the game signals. */
  datatype Stimulus = Tick(frame: Frame) | GameSignal(gate: Gate)

  function React(data: InputData, smooth: SmoothDamp, s: TouchState, x: Stimulus): Step {
    match x
    case Tick(f) => TickStep(data, smooth, s, f)
    case GameSignal(g) => Step(GateStep(s, g), [])
  }

  /** The stimuli one after another. */
  function Run(data: InputData, smooth: SmoothDamp, s: TouchState, xs: seq<Stimulus>): Step
    decreases |xs|
  {
    if xs == [] then Step(s, [])
    else Then(React(data, smooth, s, xs[0]), Run(data, smooth, React(data, smooth, s, xs[0]).state, xs[1..]))
  }

  /** How often `e` was raised. */
  function Count(es: seq<InputEmission>, e: InputEmission): nat {
    multiset(es)[e]
  }

  // ---------------------------------------------------------------------------
  // Properties of one frame
  // ---------------------------------------------------------------------------

  /** While not ready for touch a frame raises nothing and changes nothing. */
  lemma NotReadyTickIsInert(data: InputData, smooth: SmoothDamp, s: TouchState, f: Frame)
    requires !s.ready
    ensures TickStep(data, smooth, s, f) == Step(s, [])
  {
  }

  /**
   * How often a frame raises each discrete signal: one "released" per release,
   * one "taken" per press, "first touch" only on a press before any other
   * since the last reset; and which flags it leaves behind.
   */
  lemma TickCounts(data: InputData, smooth: SmoothDamp, s: TouchState, f: Frame)
    ensures var r := TickStep(data, smooth, s, f);
      && Count(r.emitted, InputReleased) == (if s.ready && Releases(f) then 1 else 0)
      && Count(r.emitted, InputTaken) == (if s.ready && Presses(f) then 1 else 0)
      && Count(r.emitted, FirstTimeTouchTaken) == (if s.ready && Presses(f) && !s.firstTouchTaken then 1 else 0)
      && r.state.firstTouchTaken == (s.firstTouchTaken || (s.ready && Presses(f)))
      && r.state.ready == s.ready
  {
    if s.ready {
      var b := ButtonStep(s, f);
      ButtonCounts(s, f);
      if Holds(f) && b.state.touching && b.state.lastPointer.Some? {
        var d := DragStep(data, smooth, b.state, f.pointer, f.deltaTime);
        assert multiset(b.emitted + d.emitted) == multiset(b.emitted) + multiset(d.emitted);
      }
    }
  }

  /** The button checks of one frame, counted signal by signal. */
  lemma ButtonCounts(s: TouchState, f: Frame)
    ensures var b := ButtonStep(s, f);
      && Count(b.emitted, InputReleased) == (if Releases(f) then 1 else 0)
      && Count(b.emitted, InputTaken) == (if Presses(f) then 1 else 0)
      && Count(b.emitted, FirstTimeTouchTaken) == (if Presses(f) && !s.firstTouchTaken then 1 else 0)
      && b.state.firstTouchTaken == (s.firstTouchTaken || Presses(f))
      && b.state.ready == s.ready
  {
    if Releases(f) {
      if Presses(f) {
        assert ButtonStep(s, f).emitted == [InputReleased] + StartDragStep(s.(touching := false), f.pointer).emitted;
      }
    }
  }

  /** The signals the release and press checks raise, in order. */
  function ButtonSignals(s: TouchState, f: Frame): seq<InputEmission> {
    (if Releases(f) then [InputReleased] else [])
      + (if Presses(f) then [InputTaken] else [])
      + (if Presses(f) && !s.firstTouchTaken then [FirstTimeTouchTaken] else [])
  }

  /** The release and press checks raise "released", then "taken", then "first touch", each only when due. */
  lemma ButtonOrder(s: TouchState, f: Frame)
    ensures ButtonStep(s, f).emitted == ButtonSignals(s, f)
  {
    if Releases(f) && Presses(f) {
      assert ButtonStep(s, f).emitted == [InputReleased] + StartDragStep(s.(touching := false), f.pointer).emitted;
    }
  }

  /**
   * A ready frame raises, in this order: "released" on a release, "taken" on a
   * press, "first touch" on a press while armed, and then at most one "dragged".
   */
  lemma TickOrder(data: InputData, smooth: SmoothDamp, s: TouchState, f: Frame)
    requires s.ready
    ensures var r := TickStep(data, smooth, s, f);
      var head := ButtonSignals(s, f);
      var drags := Holds(f) && (Presses(f) || (!Releases(f) && s.touching && s.lastPointer.Some?));
      && |r.emitted| == |head| + (if drags then 1 else 0)
      && r.emitted[..|head|] == head
      && (drags ==> r.emitted[|head|].InputDragged?)
  {
    var b := ButtonStep(s, f);
    ButtonOrder(s, f);
    assert b.state.touching == (Presses(f) || (!Releases(f) && s.touching));
    assert b.state.lastPointer == if Presses(f) then Some(f.pointer) else s.lastPointer;
    if Holds(f) && b.state.touching && b.state.lastPointer.Some? {
      var d := DragStep(data, smooth, b.state, f.pointer, f.deltaTime);
      assert (b.emitted + d.emitted)[..|b.emitted|] == b.emitted;
    }
  }

  /** Release is handled before press: both in one frame raise "released" then "taken" and leave the pointer down. */
  lemma ReleaseBeforePress(data: InputData, smooth: SmoothDamp, s: TouchState, f: Frame)
    requires s.ready && Releases(f) && Presses(f)
    ensures var r := TickStep(data, smooth, s, f);
      |r.emitted| >= 2 && r.emitted[0] == InputReleased && r.emitted[1] == InputTaken && r.state.touching
  {
  }

  /** A press marks the pointer down, raises "taken", records the position, and raises "first touch" iff none was taken yet. */
  lemma PressEffects(data: InputData, smooth: SmoothDamp, s: TouchState, f: Frame)
    requires s.ready && Presses(f)
    ensures var r := TickStep(data, smooth, s, f);
      && r.state.touching && r.state.firstTouchTaken
      && r.state.lastPointer == Some(f.pointer)
      && InputTaken in r.emitted
      && (FirstTimeTouchTaken in r.emitted <==> !s.firstTouchTaken)
  {
  }

  /** A release without a press leaves the pointer up. */
  lemma ReleaseEffects(data: InputData, smooth: SmoothDamp, s: TouchState, f: Frame)
    requires s.ready && Releases(f) && !Presses(f)
    ensures var r := TickStep(data, smooth, s, f);
      !r.state.touching && r.emitted[0] == InputReleased
  {
  }

  /** A release over the UI is no release at all. */
  lemma UiSwallowsRelease(data: InputData, smooth: SmoothDamp, s: TouchState, f: Frame)
    ensures TickStep(data, smooth, s, f.(overUiOnUp := true)) == TickStep(data, smooth, s, f.(buttonUp := false))
  {
  }

  /** A press over the UI is no press at all. */
  lemma UiSwallowsPress(data: InputData, smooth: SmoothDamp, s: TouchState, f: Frame)
    ensures TickStep(data, smooth, s, f.(overUiOnDown := true)) == TickStep(data, smooth, s, f.(buttonDown := false))
  {
  }

  /** A hold over the UI is no hold at all. */
  lemma UiSwallowsHold(data: InputData, smooth: SmoothDamp, s: TouchState, f: Frame)
    ensures TickStep(data, smooth, s, f.(overUiOnHeld := true)) == TickStep(data, smooth, s, f.(buttonHeld := false))
  {
  }

  /**
   * "Dragged" is raised exactly when the button is held, the pointer is down and
   * a position is stored after the release and press checks; the drag then stores
   * the current position. A frame that neither presses nor drags keeps the stored one.
   */
  lemma DraggedExactlyWhen(data: InputData, smooth: SmoothDamp, s: TouchState, f: Frame)
    ensures var r := TickStep(data, smooth, s, f);
      var drags := s.ready && Holds(f) && (Presses(f) || (!Releases(f) && s.touching && s.lastPointer.Some?));
      && ((exists e :: e in r.emitted && e.InputDragged?) <==> drags)
      && (drags ==> r.state.lastPointer == Some(f.pointer) && r.emitted[|r.emitted| - 1].InputDragged?)
      && (!drags && !(s.ready && Presses(f)) ==> r.state.lastPointer == s.lastPointer)
  {
    var r := TickStep(data, smooth, s, f);
    if s.ready {
      var b := ButtonStep(s, f);
      assert b.state.touching == (Presses(f) || (!Releases(f) && s.touching));
      assert b.state.lastPointer == if Presses(f) then Some(f.pointer) else s.lastPointer;
      assert forall e :: e in b.emitted ==> !e.InputDragged?;
      if Holds(f) && b.state.touching && b.state.lastPointer.Some? {
        var d := DragStep(data, smooth, b.state, f.pointer, f.deltaTime);
        assert r.emitted == b.emitted + d.emitted;
        assert r.emitted[|r.emitted| - 1] == d.emitted[0];
      } else {
        assert r == b;
      }
    }
  }

  /**
   * A frame that drags runs MouseDrag on the state the button checks leave: the
   * new move value and velocity are those of the threshold rule, and the
   * "dragged" payload carries that move value and the configured clamp sides.
   */
  lemma DragPayload(data: InputData, smooth: SmoothDamp, s: TouchState, f: Frame)
    requires s.ready
    requires var b := ButtonStep(s, f); Holds(f) && b.state.touching && b.state.lastPointer.Some?
    ensures var b := ButtonStep(s, f);
      var r := TickStep(data, smooth, s, f);
      && (r.state.moveVector.x, r.state.velocity)
         == DragValue(data, smooth, b.state, f.pointer.x - b.state.lastPointer.value.x, f.deltaTime)
      && r.state.moveVector.(x := b.state.moveVector.x) == b.state.moveVector
      && r.emitted != []
      && r.emitted[|r.emitted| - 1] == InputDragged(HorizontalInputParams(r.state.moveVector.x, data.clampSides))
  {
  }

  /** Beyond the threshold the move value is a tenth of the speed times the delta, on either side, and the velocity is kept. */
  lemma DragBeyondThreshold(data: InputData, smooth: SmoothDamp, s: TouchState, dx: real, dt: real)
    requires dx > data.horizontalInputSpeed || dx < -data.horizontalInputSpeed
    ensures DragValue(data, smooth, s, dx, dt).0 == data.horizontalInputSpeed / 10.0 * dx
    ensures DragValue(data, smooth, s, dx, dt).1 == s.velocity
  {
    var speed := data.horizontalInputSpeed;
    if !(dx > speed) {
      assert -speed / 10.0 * -dx == speed / 10.0 * dx;
    }
  }

  /** Within the threshold the move value and velocity are SmoothDamp's, toward zero. */
  lemma DragWithinThreshold(data: InputData, smooth: SmoothDamp, s: TouchState, dx: real, dt: real)
    requires -data.horizontalInputSpeed <= dx <= data.horizontalInputSpeed
    ensures DragValue(data, smooth, s, dx, dt) == smooth(s.moveVector.x, s.velocity, data.clampSpeed, dt)
  {
  }

  // ---------------------------------------------------------------------------
  // Properties of the game signals and of runs
  // ---------------------------------------------------------------------------

  /** Each game signal, applied twice, does what it does once. */
  lemma GateIdempotent(s: TouchState, g: Gate)
    ensures GateStep(GateStep(s, g), g) == GateStep(s, g)
  {
  }

  /** Running one stimulus ahead of a sequence. */
  lemma RunCons(data: InputData, smooth: SmoothDamp, s: TouchState, x: Stimulus, rest: seq<Stimulus>)
    ensures Run(data, smooth, s, [x] + rest)
      == Then(React(data, smooth, s, x), Run(data, smooth, React(data, smooth, s, x).state, rest))
  {
    assert ([x] + rest)[0] == x;
    assert ([x] + rest)[1..] == rest;
  }

  lemma ThenAssoc(a: Step, b: Step, c: Step)
    ensures Then(a, Then(b, c)) == Then(Then(a, b), c)
  {
    assert a.emitted + (b.emitted + c.emitted) == (a.emitted + b.emitted) + c.emitted;
  }

  /** Running two sequences of stimuli one after the other. */
  lemma {:induction false} RunAppend(data: InputData, smooth: SmoothDamp, s: TouchState, xs: seq<Stimulus>, ys: seq<Stimulus>)
    ensures Run(data, smooth, s, xs + ys) == Then(Run(data, smooth, s, xs), Run(data, smooth, Run(data, smooth, s, xs).state, ys))
    decreases |xs|
  {
    if xs == [] {
      assert xs + ys == ys;
    } else {
      var x, rest := xs[0], xs[1..];
      var t := React(data, smooth, s, x).state;
      assert xs == [x] + rest;
      assert xs + ys == [x] + (rest + ys);
      RunCons(data, smooth, s, x, rest + ys);
      RunCons(data, smooth, s, x, rest);
      RunAppend(data, smooth, t, rest, ys);
      ThenAssoc(React(data, smooth, s, x), Run(data, smooth, t, rest), Run(data, smooth, Run(data, smooth, t, rest).state, ys));
    }
  }

  /**
   * A tap, pressed in one frame and released in the next, raises "taken", then
   * "first touch" if the one-shot is armed, then "dragged" when the press frame
   * also reports the button held, and last "released".
   */
  lemma TapSignals(data: InputData, smooth: SmoothDamp, s: TouchState, f1: Frame, f2: Frame)
    requires s.ready && Presses(f1) && !Releases(f1) && Releases(f2) && !Presses(f2)
    ensures var r := Run(data, smooth, s, [Tick(f1), Tick(f2)]);
      var taken := [InputTaken] + (if s.firstTouchTaken then [] else [FirstTimeTouchTaken]);
      && |r.emitted| == |taken| + (if Holds(f1) then 1 else 0) + 1
      && r.emitted[..|taken|] == taken
      && (Holds(f1) ==> r.emitted[|taken|].InputDragged?)
      && r.emitted[|r.emitted| - 1] == InputReleased
  {
    var a := TickStep(data, smooth, s, f1);
    var b := TickStep(data, smooth, a.state, f2);
    TickOrder(data, smooth, s, f1);
    TickOrder(data, smooth, a.state, f2);
    assert ButtonSignals(a.state, f2) == [InputReleased];
    assert b.emitted == [InputReleased];
    assert [Tick(f1), Tick(f2)] == [Tick(f1)] + [Tick(f2)];
    RunCons(data, smooth, s, Tick(f1), [Tick(f2)]);
    RunCons(data, smooth, a.state, Tick(f2), []);
    assert [Tick(f2)] == [Tick(f2)] + [];
    assert Run(data, smooth, s, [Tick(f1), Tick(f2)]).emitted == a.emitted + b.emitted;
  }

  /** No frame of `xs` presses (outside the UI). */
  predicate NoPress(xs: seq<Stimulus>) {
    forall i :: 0 <= i < |xs| && xs[i].Tick? ==> !Presses(xs[i].frame)
  }

  /** While no frame presses, an armed one-shot stays armed and "first touch" is not raised. */
  lemma {:induction false} StaysArmed(data: InputData, smooth: SmoothDamp, s: TouchState, xs: seq<Stimulus>)
    requires !s.firstTouchTaken && NoPress(xs)
    ensures var r := Run(data, smooth, s, xs);
      !r.state.firstTouchTaken && FirstTimeTouchTaken !in r.emitted
    decreases |xs|
  {
    if xs != [] {
      var a := React(data, smooth, s, xs[0]);
      assert Count(a.emitted, FirstTimeTouchTaken) == 0 && !a.state.firstTouchTaken by {
        match xs[0]
        case Tick(f) => TickCounts(data, smooth, s, f);
        case GameSignal(g) =>
      }
      assert NoPress(xs[1..]) by {
        forall i | 0 <= i < |xs[1..]| && xs[1..][i].Tick? ensures !Presses(xs[1..][i].frame) { assert xs[1..][i] == xs[i + 1]; }
      }
      StaysArmed(data, smooth, a.state, xs[1..]);
      assert Run(data, smooth, s, xs).emitted == a.emitted + Run(data, smooth, a.state, xs[1..]).emitted;
    }
  }

  /** A press that finds the gate open and the one-shot armed, after any run, raises "first touch". */
  lemma ArmedPressFires(data: InputData, smooth: SmoothDamp, s: TouchState, xs: seq<Stimulus>, f: Frame)
    requires var t := Run(data, smooth, s, xs).state; t.ready && !t.firstTouchTaken
    requires Presses(f)
    ensures FirstTimeTouchTaken in Run(data, smooth, s, xs + [Tick(f)]).emitted
  {
    var before := Run(data, smooth, s, xs);
    RunAppend(data, smooth, s, xs, [Tick(f)]);
    PressEffects(data, smooth, before.state, f);
    assert Run(data, smooth, before.state, [Tick(f)]).emitted == TickStep(data, smooth, before.state, f).emitted;
  }

  /**
   * After a reset, the first press that gets through while the gate is open
   * raises "first touch" again, whatever press-free frames and game signals
   * came in between.
   */
  lemma NextPressRearmed(data: InputData, smooth: SmoothDamp, s: TouchState, xs: seq<Stimulus>, f: Frame)
    requires NoPress(xs) && Presses(f)
    requires Run(data, smooth, GateStep(s, Reset), xs).state.ready
    ensures FirstTimeTouchTaken in Run(data, smooth, GateStep(s, Reset), xs + [Tick(f)]).emitted
  {
    StaysArmed(data, smooth, GateStep(s, Reset), xs);
    ArmedPressFires(data, smooth, GateStep(s, Reset), xs, f);
  }

  /** No stimulus of `xs` is "enable input" or "play", the only signals that open the gate. */
  predicate NoOpening(xs: seq<Stimulus>) {
    forall i :: 0 <= i < |xs| ==> xs[i] != GameSignal(EnableInput) && xs[i] != GameSignal(Play)
  }

  /**
   * While the gate is closed and nothing reopens it, every frame is ignored,
   * whatever it presses, and the other game signals only close it again: nothing
   * is raised, the gate stays closed and an armed one-shot stays armed.
   */
  lemma {:induction false} ClosedGateIsSilent(data: InputData, smooth: SmoothDamp, s: TouchState, xs: seq<Stimulus>)
    requires !s.ready && NoOpening(xs)
    ensures var r := Run(data, smooth, s, xs);
      && r.emitted == [] && !r.state.ready
      && (!s.firstTouchTaken ==> !r.state.firstTouchTaken)
    decreases |xs|
  {
    if xs != [] {
      var a := React(data, smooth, s, xs[0]);
      assert a.emitted == [] && !a.state.ready && (!s.firstTouchTaken ==> !a.state.firstTouchTaken);
      assert NoOpening(xs[1..]) by {
        forall i | 0 <= i < |xs[1..]|
          ensures xs[1..][i] != GameSignal(EnableInput) && xs[1..][i] != GameSignal(Play)
        {
          assert xs[1..][i] == xs[i + 1];
        }
      }
      ClosedGateIsSilent(data, smooth, a.state, xs[1..]);
    }
  }

  /**
   * After a reset, frames while the gate is closed (presses included) are
   * ignored; once "enable input" or "play" opens it, the first press that gets
   * through raises "first touch" again, whatever press-free frames and game
   * signals came in between.
   */
  lemma RearmedAfterOpening(data: InputData, smooth: SmoothDamp, s: TouchState, ys: seq<Stimulus>, g: Gate, zs: seq<Stimulus>, f: Frame)
    requires NoOpening(ys) && (g == EnableInput || g == Play)
    requires NoPress(zs) && Presses(f)
    requires Run(data, smooth, GateStep(s, Reset), ys + [GameSignal(g)] + zs).state.ready
    ensures FirstTimeTouchTaken in Run(data, smooth, GateStep(s, Reset), ys + [GameSignal(g)] + zs + [Tick(f)]).emitted
  {
    var s0 := GateStep(s, Reset);
    var closed := Run(data, smooth, s0, ys).state;
    ClosedGateIsSilent(data, smooth, s0, ys);
    RunAppend(data, smooth, s0, ys, [GameSignal(g)]);
    assert Run(data, smooth, closed, [GameSignal(g)]).state == GateStep(closed, g);
    RunAppend(data, smooth, s0, ys + [GameSignal(g)], zs);
    StaysArmed(data, smooth, GateStep(closed, g), zs);
    ArmedPressFires(data, smooth, s0, ys + [GameSignal(g)] + zs, f);
  }

  predicate NoReset(xs: seq<Stimulus>) {
    forall i :: 0 <= i < |xs| ==> xs[i] != GameSignal(Reset)
  }

  /**
   * Between resets "first touch" is raised at most once: exactly once if it was
   * still armed and some press got through, never if it had already fired.
   */
  lemma {:induction false} FirstTouchAtMostOnce(data: InputData, smooth: SmoothDamp, s: TouchState, xs: seq<Stimulus>)
    requires NoReset(xs)
    ensures var r := Run(data, smooth, s, xs);
      && Count(r.emitted, FirstTimeTouchTaken) + (if s.firstTouchTaken then 1 else 0)
           == (if r.state.firstTouchTaken then 1 else 0)
      && Count(r.emitted, FirstTimeTouchTaken) <= 1
      && (s.firstTouchTaken ==> Count(r.emitted, FirstTimeTouchTaken) == 0)
    decreases |xs|
  {
    if xs != [] {
      var a := React(data, smooth, s, xs[0]);
      var rest := Run(data, smooth, a.state, xs[1..]);
      assert Count(a.emitted, FirstTimeTouchTaken) + (if s.firstTouchTaken then 1 else 0)
          == (if a.state.firstTouchTaken then 1 else 0) by {
        match xs[0]
        case Tick(f) => TickCounts(data, smooth, s, f);
        case GameSignal(g) => assert xs[0] != GameSignal(Reset);
      }
      assert NoReset(xs[1..]) by {
        forall i | 0 <= i < |xs[1..]| ensures xs[1..][i] != GameSignal(Reset) { assert xs[1..][i] == xs[i + 1]; }
      }
      FirstTouchAtMostOnce(data, smooth, a.state, xs[1..]);
      assert Run(data, smooth, s, xs).emitted == a.emitted + rest.emitted;
    }
  }

  predicate OnlyTicks(xs: seq<Stimulus>) {
    forall i :: 0 <= i < |xs| ==> xs[i].Tick?
  }

  /** After "disable input", no sequence of frames raises anything or changes anything. */
  lemma {:induction false} DisabledInputIsSilent(data: InputData, smooth: SmoothDamp, s: TouchState, xs: seq<Stimulus>)
    requires OnlyTicks(xs)
    ensures Run(data, smooth, GateStep(s, DisableInput), xs) == Step(GateStep(s, DisableInput), [])
    decreases |xs|
  {
    if xs != [] {
      assert OnlyTicks(xs[1..]) by {
        forall i | 0 <= i < |xs[1..]| ensures xs[1..][i].Tick? { assert xs[1..][i] == xs[i + 1]; }
      }
      assert GateStep(GateStep(s, DisableInput), DisableInput) == GateStep(s, DisableInput);
      DisabledInputIsSilent(data, smooth, s, xs[1..]);
    }
  }

  // ---------------------------------------------------------------------------
  // Subscriptions
  // ---------------------------------------------------------------------------

  /** SubscribeEvents, statement by statement; UnSubscribeEvents removes the same four. */
  const InputBindings: seq<Binding> := [
    Binding(onEnableInput, Handler(TheInputManager, OnEnableInput)),
    Binding(onDisableInput, Handler(TheInputManager, OnDisableInput)),
    Binding(onPlay, Handler(TheInputManager, OnPlay)),
    Binding(onReset, Handler(TheInputManager, OnReset))
  ]

  /** OnEnable then OnDisable leaves all four invocation lists as they were. */
  lemma InputSubscriptionRoundTrip(m: Slots)
    requires NoEmptySlot(m)
    ensures DetachAll(AttachAll(m, InputBindings), InputBindings) == m
  {
    DetachAllUndoesAttachAll(m, InputBindings, InputBindings);
  }

  // ---------------------------------------------------------------------------
  // The component
  // ---------------------------------------------------------------------------

  class InputManager {
    const data: InputData
    const smoothDamp: SmoothDamp
    var isReadyForTouch: bool
    var isFirstTimeTouchTaken: bool
    var isTouching: bool
    var currentVelocity: real
    var mousePosition: Option<Vec2>
    var moveVector: Vec3
    /** Every signal raised on InputSignals so far, in order. */
    var emitted: seq<InputEmission>

    function State(): TouchState
      reads this
    {
      TouchState(isReadyForTouch, isFirstTimeTouchTaken, isTouching, currentVelocity, mousePosition, moveVector)
    }

    /** Awake, with the loaded configuration and the two serialized flags from the scene. */
    constructor (data: InputData, smoothDamp: SmoothDamp, isReadyForTouch: bool, isFirstTimeTouchTaken: bool)
      ensures this.data == data && this.smoothDamp == smoothDamp
      ensures State() == TouchState(isReadyForTouch, isFirstTimeTouchTaken, false, 0.0, None, Vec3(0.0, 0.0, 0.0))
      ensures emitted == []
    {
      this.data := data;
      this.smoothDamp := smoothDamp;
      this.isReadyForTouch := isReadyForTouch;
      this.isFirstTimeTouchTaken := isFirstTimeTouchTaken;
      isTouching := false;
      currentVelocity := 0.0;
      mousePosition := None;
      moveVector := Vec3(0.0, 0.0, 0.0);
      emitted := [];
    }

    method Update(f: Frame)
      modifies this
      ensures State() == TickStep(data, smoothDamp, old(State()), f).state
      ensures emitted == old(emitted) + TickStep(data, smoothDamp, old(State()), f).emitted
    {
      if !isReadyForTouch {
        return;
      }
      if f.buttonUp && !f.overUiOnUp {
        EndMouseDrag();
      }
      if f.buttonDown && !f.overUiOnDown {
        StartMouseDrag(f.pointer);
      }
      assert State() == ButtonStep(old(State()), f).state;
      assert emitted == old(emitted) + ButtonStep(old(State()), f).emitted;
      if f.buttonHeld && !f.overUiOnHeld {
        if isTouching {
          if mousePosition != None {
            MouseDrag(f.pointer, f.deltaTime);
          }
        }
      }
    }

    method EndMouseDrag()
      modifies this
      ensures State() == EndDragStep(old(State())).state
      ensures emitted == old(emitted) + EndDragStep(old(State())).emitted
    {
      isTouching := false;
      emitted := emitted + [InputReleased];
    }

    method StartMouseDrag(pointer: Vec2)
      modifies this
      ensures State() == StartDragStep(old(State()), pointer).state
      ensures emitted == old(emitted) + StartDragStep(old(State()), pointer).emitted
    {
      isTouching := true;
      emitted := emitted + [InputTaken];
      if !isFirstTimeTouchTaken {
        isFirstTimeTouchTaken := true;
        emitted := emitted + [FirstTimeTouchTaken];
      }
      mousePosition := Some(pointer);
    }

    method MouseDrag(pointer: Vec2, deltaTime: real)
      requires mousePosition.Some?
      modifies this
      ensures State() == DragStep(data, smoothDamp, old(State()), pointer, deltaTime).state
      ensures emitted == old(emitted) + DragStep(data, smoothDamp, old(State()), pointer, deltaTime).emitted
    {
      var dx := pointer.x - mousePosition.value.x;
      if dx > data.horizontalInputSpeed {
        moveVector := moveVector.(x := data.horizontalInputSpeed / 10.0 * dx);
      } else if dx < -data.horizontalInputSpeed {
        moveVector := moveVector.(x := -data.horizontalInputSpeed / 10.0 * -dx);
      } else {
        var (x, v) := smoothDamp(moveVector.x, currentVelocity, data.clampSpeed, deltaTime);
        moveVector := moveVector.(x := x);
        currentVelocity := v;
      }
      mousePosition := Some(pointer);
      emitted := emitted + [InputDragged(HorizontalInputParams(moveVector.x, Vec2(data.clampSides.x, data.clampSides.y)))];
    }

    method OnEnableInput()
      modifies this
      ensures State() == GateStep(old(State()), EnableInput) && emitted == old(emitted)
    {
      isReadyForTouch := true;
    }

    method OnDisableInput()
      modifies this
      ensures State() == GateStep(old(State()), DisableInput) && emitted == old(emitted)
    {
      isReadyForTouch := false;
    }

    method OnPlay()
      modifies this
      ensures State() == GateStep(old(State()), Play) && emitted == old(emitted)
    {
      isReadyForTouch := true;
    }

    method OnReset()
      modifies this
      ensures State() == GateStep(old(State()), Reset) && emitted == old(emitted)
    {
      isTouching := false;
      isReadyForTouch := false;
      isFirstTimeTouchTaken := false;
    }

    /** SubscribeEvents, called from OnEnable. */
    method SubscribeEvents(reg: SignalRegistry)
      requires reg.Valid()
      modifies reg
      ensures reg.Valid() && reg.slots == AttachAll(old(reg.slots), InputBindings)
    {
      reg.AddAll(InputBindings);
    }

    /** UnSubscribeEvents, called from OnDisable. */
    method UnSubscribeEvents(reg: SignalRegistry)
      requires reg.Valid()
      modifies reg
      ensures reg.Valid() && reg.slots == DetachAll(old(reg.slots), InputBindings)
    {
      reg.SubtractAll(InputBindings);
    }
  }
}
