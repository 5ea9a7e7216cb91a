/**
 * Managers.PlayerManager: subscribes to input and game signals and passes each
 * one on to the player's controllers (movement, animation, mesh, text). The
 * controllers are opaque here: every call into them, and every signal the
 * manager raises, is appended to a trace.
 */
module Player {
  import opened Common
  import opened Delegates
  import opened Signals

  /** Payloads the manager forwards without reading them. */
  datatype RunnerHorizontalInputParams = RunnerHorizontalInputParams(token: nat)
  datatype IdleInputParams = IdleInputParams(token: nat)
  datatype PlayerMovementData = PlayerMovementData(token: nat)
  datatype GameObjectRef = GameObjectRef(id: nat)

  /** Data.ValueObjects.PlayerData, loaded once from the "Data/CD_Player" asset. */
  datatype PlayerData = PlayerData(playerMovementData: PlayerMovementData)

  /** Calls into PlayerMovementController. */
  datatype MovementCall =
    | SetMovementData(data: PlayerMovementData)
    | EnableMovement
    | DisableMovement
    | UpdateInputValue(input: RunnerHorizontalInputParams)
    | UpdateIdleInputValue(idleInput: IdleInputParams)
    | SetCurrentGameState(state: GameStates)   // the CurrentGameState property setter
    | EnableIdleMovement
    | IsReadyToPlay(ready: bool)
    | ChangeVerticalMovement(speed: real)
    | StopAllMovement
    | RepositionPlayerForDrone(other: GameObjectRef)
    | SetSidewayEnabled(enabled: bool)
    | OnReset

  /** Calls into PlayerMeshController. */
  datatype MeshCall = IncreasePlayerSize | ActiveMesh

  /** One entry of the trace: a controller call or a raised signal. */
  datatype PlayerCall =
    | Movement(movement: MovementCall)
    | Animation(animation: PlayerAnimationTypes)   // PlayerAnimationController.ChangeAnimation
    | Mesh(mesh: MeshCall)
    | Text(score: real)                            // PlayerTextController.UpdatePlayerScore
    | Raise(signal: Signal)                        // CoreGameSignals.Instance.signal?.Invoke()

  /** A call into the manager: a subscribed handler or one of its public methods. */
  datatype PlayerEvent =
    | ActivateMovement                          // OnActivateMovement
    | DeactivateMovement                        // OnDeactivateMovement
    | InputValues(input: RunnerHorizontalInputParams)  // OnGetInputValues
    | IdleInputValues(idleInput: IdleInputParams)      // OnGetIdleInputValues
    | Play                                      // OnPlay
    | LevelSuccessful                           // OnLevelSuccessful
    | LevelFailed                               // OnLevelFailed
    | UpdateScore(totalScore: real)             // OnUpdateScore
    | GameStateChanged(state: GameStates)       // OnChangeGameState
    | StopVertical                              // StopVerticalMovement
    | AnimationChange(animationType: PlayerAnimationTypes)  // ChangeAnimation
    | StopAll                                   // StopAllMovement
    | EnableVertical                            // EnableVerticalMovement
    | DroneReposition(other: GameObjectRef)     // RepositionPlayerForDrone
    | VerticalSpeedChange(verticalSpeed: real)  // OnChangeVerticalSpeed
    | SidewaysEnable(isSidewayEnable: bool)     // OnSidewaysEnable
    | Reset                                     // OnReset
    | SizeIncrease                              // OnIncreaseSize
    | MeshActivation                            // ActivateMesh

  /** The trace entries one event produces, in order. */
  function Effects(e: PlayerEvent): seq<PlayerCall>
    decreases if e.StopAll? || e.Reset? then 1 else 0
  {
    match e
    case ActivateMovement => [Movement(EnableMovement)]
    case DeactivateMovement => [Movement(DisableMovement)]
    case InputValues(p) => [Movement(UpdateInputValue(p))]
    case IdleInputValues(p) => [Movement(UpdateIdleInputValue(p))]
    case Play => [Movement(EnableMovement)]
    case LevelSuccessful => [Movement(IsReadyToPlay(false))]
    case LevelFailed => [Movement(IsReadyToPlay(false))]
    case UpdateScore(t) => [Text(t)]
    case GameStateChanged(s) =>
      [Movement(SetCurrentGameState(s))] + (if s == Idle then [Movement(EnableIdleMovement)] else [])
    case StopVertical => [Movement(ChangeVerticalMovement(0.0))]
    case AnimationChange(a) => [Animation(a)]
    case StopAll => [Movement(StopAllMovement)] + Effects(AnimationChange(IdleAnimation))
    case EnableVertical => [Movement(ChangeVerticalMovement(10.0))]
    case DroneReposition(o) => [Movement(RepositionPlayerForDrone(o))]
    case VerticalSpeedChange(v) => [Movement(ChangeVerticalMovement(v))]
    case SidewaysEnable(b) => [Movement(SetSidewayEnabled(b))]
    case Reset =>
      [Raise(onClearActiveLevel), Raise(onLevelInitialize)] + Effects(UpdateScore(0.0)) + [Movement(MovementCall.OnReset)]
    case SizeIncrease => [Mesh(IncreasePlayerSize)]
    case MeshActivation => [Mesh(ActiveMesh)]
  }

  /** `CurrentScore` after the event. */
  function ScoreAfter(score: real, e: PlayerEvent): real
    decreases if e.Reset? then 1 else 0
  {
    match e
    case UpdateScore(t) => t
    case Reset => ScoreAfter(score, UpdateScore(0.0))
    case _ => score
  }

  /** The last score handed to the text controller, if any. */
  function LastShownScore(calls: seq<PlayerCall>): Option<real>
    decreases |calls|
  {
    if calls == [] then None
    else if calls[|calls| - 1].Text? then Some(calls[|calls| - 1].score)
    else LastShownScore(calls[..|calls| - 1])
  }

  /** `CurrentScore` is the score the text controller last showed, once it has shown one. */
  predicate ScoreAgrees(score: real, calls: seq<PlayerCall>) {
    LastShownScore(calls).Some? ==> LastShownScore(calls) == Some(score)
  }

  /** The events one after another: the trace they append and the final score. */
  function RunCalls(es: seq<PlayerEvent>): seq<PlayerCall>
    decreases |es|
  {
    if es == [] then [] else Effects(es[0]) + RunCalls(es[1..])
  }

  function RunScore(score: real, es: seq<PlayerEvent>): real
    decreases |es|
  {
    if es == [] then score else RunScore(ScoreAfter(score, es[0]), es[1..])
  }

  // ---------------------------------------------------------------------------
  // Properties of the handlers
  // ---------------------------------------------------------------------------

  /** The game state reaches the movement controller first; idle movement is enabled iff the state is Idle. */
  lemma GameStateChangeEffects(s: GameStates)
    ensures var r := Effects(GameStateChanged(s));
      && r[0] == Movement(SetCurrentGameState(s))
      && (Movement(EnableIdleMovement) in r <==> s == Idle)
      && |r| == (if s == Idle then 2 else 1)
  {
  }

  /**
   * Reset clears the active level, initializes the level, shows score 0 and
   * resets the movement controller, in this order, and leaves `CurrentScore` 0.
   */
  lemma ResetOrder(score: real)
    ensures Effects(Reset) == [Raise(onClearActiveLevel), Raise(onLevelInitialize), Text(0.0), Movement(MovementCall.OnReset)]
    ensures ScoreAfter(score, Reset) == 0.0
  {
  }

  /** A score update shows the total and stores it, and does nothing else. */
  lemma UpdateScoreEffects(score: real, t: real)
    ensures Effects(UpdateScore(t)) == [Text(t)] && ScoreAfter(score, UpdateScore(t)) == t
  {
  }

  /** Only a score update or a reset changes `CurrentScore`. */
  lemma OnlyScoreEventsChangeScore(score: real, e: PlayerEvent)
    requires !e.UpdateScore? && !e.Reset?
    ensures ScoreAfter(score, e) == score
    ensures forall c :: c in Effects(e) ==> !c.Text?
  {
  }

  /** Winning and losing a level do the same thing: one `IsReadyToPlay(false)`. */
  lemma LevelEndsAgree()
    ensures Effects(LevelSuccessful) == Effects(LevelFailed) == [Movement(IsReadyToPlay(false))]
  {
  }

  /** Play and a taken input both just enable movement; a released input just disables it. */
  lemma MovementToggles()
    ensures Effects(Play) == Effects(ActivateMovement) == [Movement(EnableMovement)]
    ensures Effects(DeactivateMovement) == [Movement(DisableMovement)]
  {
  }

  /** Vertical movement stops at speed 0 and restarts at speed 10; stopping everything stops the controller before the idle animation. */
  lemma VerticalAndStopEffects()
    ensures Effects(StopVertical) == Effects(VerticalSpeedChange(0.0)) == [Movement(ChangeVerticalMovement(0.0))]
    ensures Effects(EnableVertical) == Effects(VerticalSpeedChange(10.0)) == [Movement(ChangeVerticalMovement(10.0))]
    ensures Effects(StopAll) == [Movement(StopAllMovement), Animation(IdleAnimation)]
  {
  }

  /** Appending calls that show no score keeps the last shown score; otherwise theirs wins. */
  lemma {:induction false} LastShownScoreAppend(a: seq<PlayerCall>, b: seq<PlayerCall>)
    ensures LastShownScore(a + b) == if LastShownScore(b).Some? then LastShownScore(b) else LastShownScore(a)
    decreases |b|
  {
    if b != [] {
      var b' := b[..|b| - 1];
      assert (a + b)[..|a + b| - 1] == a + b';
      LastShownScoreAppend(a, b');
    } else {
      assert a + b == a;
    }
  }

  /** The score an event hands to the text controller last: the total for an update, 0 for a reset, none otherwise. */
  lemma EffectsShowScore(e: PlayerEvent)
    ensures e.UpdateScore? ==> LastShownScore(Effects(e)) == Some(e.totalScore)
    ensures e.Reset? ==> LastShownScore(Effects(e)) == Some(0.0)
    ensures !e.UpdateScore? && !e.Reset? ==> LastShownScore(Effects(e)) == None
  {
    match e
    case Reset =>
      var r := Effects(Reset);
      assert r == [Raise(onClearActiveLevel), Raise(onLevelInitialize), Text(0.0), Movement(MovementCall.OnReset)];
      assert r[..3] == [Raise(onClearActiveLevel), Raise(onLevelInitialize), Text(0.0)];
    case StopAll =>
      var r := Effects(StopAll);
      assert r[..1] == [Movement(StopAllMovement)];
      assert LastShownScore(r[..1]) == LastShownScore([]);
    case GameStateChanged(s) =>
      var r := Effects(e);
      if s == Idle {
        assert r == [Movement(SetCurrentGameState(s)), Movement(EnableIdleMovement)];
        assert r[..1] == [Movement(SetCurrentGameState(s))];
        assert LastShownScore(r[..1]) == LastShownScore([]);
      }
    case _ =>
  }

  /** Every event keeps `CurrentScore` equal to the score last shown. */
  lemma EventKeepsScoreAgreement(score: real, calls: seq<PlayerCall>, e: PlayerEvent)
    requires ScoreAgrees(score, calls)
    ensures ScoreAgrees(ScoreAfter(score, e), calls + Effects(e))
  {
    LastShownScoreAppend(calls, Effects(e));
    EffectsShowScore(e);
  }

  /** Over any run of events, `CurrentScore` stays equal to the score last shown. */
  lemma {:induction false} RunKeepsScoreAgreement(score: real, calls: seq<PlayerCall>, es: seq<PlayerEvent>)
    requires ScoreAgrees(score, calls)
    ensures ScoreAgrees(RunScore(score, es), calls + RunCalls(es))
    decreases |es|
  {
    if es != [] {
      EventKeepsScoreAgreement(score, calls, es[0]);
      RunKeepsScoreAgreement(ScoreAfter(score, es[0]), calls + Effects(es[0]), es[1..]);
      var now, later := Effects(es[0]), RunCalls(es[1..]);
      assert RunCalls(es) == now + later;
      assert calls + (now + later) == (calls + now) + later;
    } else {
      assert calls + RunCalls(es) == calls;
    }
  }

  // ---------------------------------------------------------------------------
  // Subscriptions
  // ---------------------------------------------------------------------------

  /** SubscribeEvents, statement by statement. */
  const PlayerBindings: seq<Binding> := [
    Binding(onInputTaken, Handler(ThePlayerManager, OnActivateMovement)),
    Binding(onIdleInputTaken, Handler(ThePlayerManager, OnGetIdleInputValues)),
    Binding(onInputReleased, Handler(ThePlayerManager, OnDeactivateMovement)),
    Binding(onInputDragged, Handler(ThePlayerManager, OnGetInputValues)),
    Binding(onPlay, Handler(ThePlayerManager, HandlerName.OnPlay)),
    Binding(onReset, Handler(ThePlayerManager, HandlerName.OnReset)),
    Binding(onLevelSuccessful, Handler(ThePlayerManager, OnLevelSuccessful)),
    Binding(onLevelFailed, Handler(ThePlayerManager, OnLevelFailed)),
    Binding(onGetGameState, Handler(ThePlayerManager, OnChangeGameState)),
    Binding(onChangeVerticalSpeed, Handler(ThePlayerManager, OnChangeVerticalSpeed)),
    Binding(onIncreaseScale, Handler(ThePlayerManager, OnIncreaseSize)),
    Binding(onSidewaysEnable, Handler(ThePlayerManager, OnSidewaysEnable))
  ]

  /** The idle-input subscription, which UnSubscribeEvents adds a second time. */
  const IdleBinding: Binding := Binding(onIdleInputTaken, Handler(ThePlayerManager, OnGetIdleInputValues))

  /** The eleven `-=` statements of UnSubscribeEvents, in source order. */
  const PlayerUnbindings: seq<Binding> := [
    Binding(onInputTaken, Handler(ThePlayerManager, OnActivateMovement)),
    Binding(onInputReleased, Handler(ThePlayerManager, OnDeactivateMovement)),
    Binding(onInputDragged, Handler(ThePlayerManager, OnGetInputValues)),
    Binding(onPlay, Handler(ThePlayerManager, HandlerName.OnPlay)),
    Binding(onReset, Handler(ThePlayerManager, HandlerName.OnReset)),
    Binding(onLevelSuccessful, Handler(ThePlayerManager, OnLevelSuccessful)),
    Binding(onLevelFailed, Handler(ThePlayerManager, OnLevelFailed)),
    Binding(onGetGameState, Handler(ThePlayerManager, OnChangeGameState)),
    Binding(onChangeVerticalSpeed, Handler(ThePlayerManager, OnChangeVerticalSpeed)),
    Binding(onIncreaseScale, Handler(ThePlayerManager, OnIncreaseSize)),
    Binding(onSidewaysEnable, Handler(ThePlayerManager, OnSidewaysEnable))
  ]

  /** UnSubscribeEvents as written: `onIdleInputTaken += ...` first, then the eleven `-=`. */
  function UnsubscribedAsWritten(m: Slots): Slots {
    DetachAll(Attach(m, IdleBinding), PlayerUnbindings)
  }

  /** UnSubscribeEvents as intended: all twelve statements `-=`. */
  function UnsubscribedIntended(m: Slots): Slots {
    DetachAll(m, [IdleBinding] + PlayerUnbindings)
  }

  /** `n` rounds of `round`, starting from `m`. */
  function Iterate(m: Slots, n: nat, round: Slots -> Slots): Slots {
    if n == 0 then m else round(Iterate(m, n - 1, round))
  }

  /** One OnEnable/OnDisable cycle of this manager, with UnSubscribeEvents as written. */
  function EnableDisableCycle(m: Slots): Slots {
    UnsubscribedAsWritten(AttachAll(m, PlayerBindings))
  }

  /** A round that leaves two more `h` on slot `sig`, and every other slot as it was. */
  ghost predicate LeaksTwice(round: Slots -> Slots, sig: Signal, h: Handler) {
    && (forall m :: Listeners(round(m), sig) == Listeners(m, sig) + [h, h])
    && (forall m, s :: s != sig ==> Listeners(round(m), s) == Listeners(m, s))
  }

  /** Moving the second statement of a run to the front does not change which statements it makes. */
  lemma SecondToFront<T>(subs: seq<T>, unsubs: seq<T>, x: T)
    requires |unsubs| >= 1 && subs == [unsubs[0], x] + unsubs[1..]
    ensures multiset(subs) == multiset([x] + unsubs)
  {
    assert [unsubs[0], x] + unsubs[1..] == [unsubs[0]] + [x] + unsubs[1..];
    assert [x] + unsubs == [x] + [unsubs[0]] + unsubs[1..];
  }

  /** What `subs`, which is `unsubs` with `extra` inserted second, binds to each slot. */
  lemma ExtraHandlers(subs: seq<Binding>, extra: Binding, unsubs: seq<Binding>, s: Signal)
    requires |unsubs| >= 1 && subs == [unsubs[0], extra] + unsubs[1..]
    requires forall i :: 0 <= i < |unsubs| ==> unsubs[i].signal != extra.signal
    ensures s == extra.signal ==> HandlersOn(subs, s) == [extra.handler] && HandlersOn(unsubs, s) == []
    ensures s != extra.signal ==> HandlersOn(subs, s) == HandlersOn(unsubs, s)
  {
    var first := [unsubs[0]];
    var rest := unsubs[1..];
    assert subs == first + [extra] + rest;
    assert unsubs == first + rest;
    HandlersOnAppend(first + [extra], rest, s);
    HandlersOnAppend(first, [extra], s);
    HandlersOnAppend(first, rest, s);
    if s == extra.signal {
      HandlersOnAbsent(unsubs, s);
    }
  }

  /**
   * Subscribing `subs`, then one more `+= extra`, then unsubscribing `unsubs`,
   * where `subs` is `unsubs` with `extra` inserted second and no statement of
   * `unsubs` names the slot of `extra`: that slot keeps two more copies of the
   * handler and every other slot is as it was.
   */
  lemma ExtraAttachLeaks(m: Slots, subs: seq<Binding>, extra: Binding, unsubs: seq<Binding>, s: Signal)
    requires |unsubs| >= 1 && subs == [unsubs[0], extra] + unsubs[1..]
    requires forall i :: 0 <= i < |unsubs| ==> unsubs[i].signal != extra.signal
    ensures s == extra.signal ==>
      Listeners(DetachAll(Attach(AttachAll(m, subs), extra), unsubs), s) == Listeners(m, s) + [extra.handler, extra.handler]
    ensures s != extra.signal ==>
      Listeners(DetachAll(Attach(AttachAll(m, subs), extra), unsubs), s) == Listeners(m, s)
  {
    var m0 := AttachAll(m, subs);
    var m1 := Attach(m0, extra);
    AttachAllListeners(m, subs, s);
    DetachAllListeners(m1, unsubs, s);
    ExtraHandlers(subs, extra, unsubs, s);
    if s == extra.signal {
      assert Listeners(m1, s) == Listeners(m0, s) + [extra.handler];
      assert RemoveAll(Listeners(m1, s), []) == Listeners(m1, s);
    } else {
      assert Listeners(m1, s) == Listeners(m0, s);
      RemoveAllUndoesAppend(Listeners(m, s), HandlersOn(unsubs, s), HandlersOn(unsubs, s));
    }
  }

  lemma AppendTwoMore<T>(l: seq<T>, h: T, k: nat)
    ensures (l + Repeat(h, k)) + [h, h] == l + Repeat(h, k + 2)
  {
    assert Repeat(h, k + 2) == Repeat(h, k) + [h] + [h];
  }

  /** `n` rounds that each add two copies of `h` to slot `sig` leave `2n` of them there. */
  lemma {:induction false} IterateGrows(m: Slots, n: nat, round: Slots -> Slots, sig: Signal, h: Handler)
    requires forall x :: Listeners(round(x), sig) == Listeners(x, sig) + [h, h]
    ensures Listeners(Iterate(m, n, round), sig) == Listeners(m, sig) + Repeat(h, 2 * n)
  {
    if n > 0 {
      IterateGrows(m, n - 1, round, sig, h);
      AppendTwoMore(Listeners(m, sig), h, 2 * (n - 1));
    } else {
      assert Listeners(m, sig) + Repeat(h, 0) == Listeners(m, sig);
    }
  }

  /** `n` rounds that each leave slot `s` alone leave it alone. */
  lemma {:induction false} IterateKeeps(m: Slots, n: nat, round: Slots -> Slots, s: Signal)
    requires forall x :: Listeners(round(x), s) == Listeners(x, s)
    ensures Listeners(Iterate(m, n, round), s) == Listeners(m, s)
  {
    if n > 0 {
      IterateKeeps(m, n - 1, round, s);
    }
  }

  /**
   * The twelve statements of SubscribeEvents name twelve different slots, so
   * (by `AttachAllDistinct`) each handler lands on its slot exactly once.
   */
  lemma PlayerSubscriptionsDistinct()
    ensures DistinctSignals(PlayerBindings)
  {
  }

  /**
   * SubscribeEvents puts each of its twelve handlers once at the end of its
   * slot and leaves every slot it does not name alone.
   */
  lemma SubscribeAddsEachHandlerOnce(m: Slots)
    ensures forall i :: 0 <= i < |PlayerBindings| ==>
      Listeners(AttachAll(m, PlayerBindings), PlayerBindings[i].signal)
        == Listeners(m, PlayerBindings[i].signal) + [PlayerBindings[i].handler]
    ensures forall s :: (forall i :: 0 <= i < |PlayerBindings| ==> PlayerBindings[i].signal != s) ==>
      Listeners(AttachAll(m, PlayerBindings), s) == Listeners(m, s)
  {
    PlayerSubscriptionsDistinct();
    AttachAllDistinct(m, PlayerBindings);
  }

  /**
   * One OnEnable/OnDisable cycle with UnSubscribeEvents as written leaves two
   * more `OnGetIdleInputValues` on `onIdleInputTaken`, and every other slot as it was.
   */
  lemma UnsubscribeLeaksIdleHandler()
    ensures LeaksTwice(EnableDisableCycle, onIdleInputTaken, IdleBinding.handler)
  {
    assert PlayerBindings == [PlayerUnbindings[0], IdleBinding] + PlayerUnbindings[1..];
    assert forall i :: 0 <= i < |PlayerUnbindings| ==> PlayerUnbindings[i].signal != onIdleInputTaken;
    forall m ensures Listeners(EnableDisableCycle(m), onIdleInputTaken)
      == Listeners(m, onIdleInputTaken) + [IdleBinding.handler, IdleBinding.handler]
    {
      ExtraAttachLeaks(m, PlayerBindings, IdleBinding, PlayerUnbindings, onIdleInputTaken);
    }
    forall m, s | s != onIdleInputTaken ensures Listeners(EnableDisableCycle(m), s) == Listeners(m, s) {
      ExtraAttachLeaks(m, PlayerBindings, IdleBinding, PlayerUnbindings, s);
    }
  }

  /** After `n` cycles the slot holds `2n` extra copies of the idle handler; every other slot is as it was. */
  lemma LeakGrowsWithCycles(m: Slots, n: nat)
    ensures Listeners(Iterate(m, n, EnableDisableCycle), onIdleInputTaken)
      == Listeners(m, onIdleInputTaken) + Repeat(IdleBinding.handler, 2 * n)
    ensures forall s :: s != onIdleInputTaken ==> Listeners(Iterate(m, n, EnableDisableCycle), s) == Listeners(m, s)
  {
    UnsubscribeLeaksIdleHandler();
    IterateGrows(m, n, EnableDisableCycle, onIdleInputTaken, IdleBinding.handler);
    forall s | s != onIdleInputTaken {
      IterateKeeps(m, n, EnableDisableCycle, s);
    }
  }

  /** A round that leaks two copies of `h` into `sig` turns the empty registry into a non-empty one. */
  lemma LeakFromEmpty(round: Slots -> Slots, sig: Signal, h: Handler)
    requires LeaksTwice(round, sig, h)
    ensures Listeners(round(map[]), sig) == [h, h]
    ensures round(map[]) != map[]
  {
    assert Listeners(round(map[]), sig) == Listeners(map[], sig) + [h, h];
  }

  /** Concretely: starting from an empty registry, one cycle leaves `onIdleInputTaken` non-null. */
  lemma LeakFromEmptyRegistry()
    ensures Listeners(EnableDisableCycle(map[]), onIdleInputTaken) == [IdleBinding.handler, IdleBinding.handler]
    ensures EnableDisableCycle(map[]) != map[]
  {
    UnsubscribeLeaksIdleHandler();
    LeakFromEmpty(EnableDisableCycle, onIdleInputTaken, IdleBinding.handler);
  }

  /** With `-=` on every line, OnEnable then OnDisable gives back the registry exactly. */
  lemma IntendedUnsubscribeRestores(m: Slots)
    requires NoEmptySlot(m)
    ensures UnsubscribedIntended(AttachAll(m, PlayerBindings)) == m
  {
    assert PlayerBindings == [PlayerUnbindings[0], IdleBinding] + PlayerUnbindings[1..];
    SecondToFront(PlayerBindings, PlayerUnbindings, IdleBinding);
    DetachAllUndoesAttachAll(m, PlayerBindings, [IdleBinding] + PlayerUnbindings);
  }

  // ---------------------------------------------------------------------------
  // The component
  // ---------------------------------------------------------------------------

  class PlayerManager {
    var currentScore: real
    var data: Option<PlayerData>
    /** Every controller call and raised signal so far, in order. */
    var calls: seq<PlayerCall>

    /** `CurrentScore` agrees with what the text controller was last told. */
    ghost predicate Valid()
      reads this
    {
      ScoreAgrees(currentScore, calls)
    }

    constructor (currentScore: real)
      ensures Valid() && this.currentScore == currentScore && data == None && calls == []
    {
      this.currentScore := currentScore;
      data := None;
      calls := [];
    }

    /** Awake with the loaded configuration: keep it and hand the movement data to the controller. */
    method Awake(loaded: PlayerData)
      requires Valid()
      modifies this
      ensures Valid() && data == Some(loaded) && currentScore == old(currentScore)
      ensures calls == old(calls) + [Movement(SetMovementData(loaded.playerMovementData))]
    {
      data := Some(loaded);
      calls := calls + [Movement(SetMovementData(loaded.playerMovementData))];
      assert LastShownScore(calls) == LastShownScore(old(calls));
    }

    method OnActivateMovement()
      requires Valid()
      modifies this`calls
      ensures Valid() && calls == old(calls) + Effects(ActivateMovement)
    {
      calls := calls + [Movement(EnableMovement)];
      EventKeepsScoreAgreement(currentScore, old(calls), ActivateMovement);
    }

    method OnDeactivateMovement()
      requires Valid()
      modifies this`calls
      ensures Valid() && calls == old(calls) + Effects(DeactivateMovement)
    {
      calls := calls + [Movement(DisableMovement)];
      EventKeepsScoreAgreement(currentScore, old(calls), DeactivateMovement);
    }

    method OnGetInputValues(inputParam: RunnerHorizontalInputParams)
      requires Valid()
      modifies this`calls
      ensures Valid() && calls == old(calls) + Effects(InputValues(inputParam))
    {
      calls := calls + [Movement(UpdateInputValue(inputParam))];
      EventKeepsScoreAgreement(currentScore, old(calls), InputValues(inputParam));
    }

    method OnGetIdleInputValues(inputParam: IdleInputParams)
      requires Valid()
      modifies this`calls
      ensures Valid() && calls == old(calls) + Effects(IdleInputValues(inputParam))
    {
      calls := calls + [Movement(UpdateIdleInputValue(inputParam))];
      EventKeepsScoreAgreement(currentScore, old(calls), IdleInputValues(inputParam));
    }

    method OnPlay()
      requires Valid()
      modifies this`calls
      ensures Valid() && calls == old(calls) + Effects(Play)
    {
      calls := calls + [Movement(EnableMovement)];
      EventKeepsScoreAgreement(currentScore, old(calls), Play);
    }

    method OnLevelSuccessful()
      requires Valid()
      modifies this`calls
      ensures Valid() && calls == old(calls) + Effects(LevelSuccessful)
    {
      calls := calls + [Movement(IsReadyToPlay(false))];
      EventKeepsScoreAgreement(currentScore, old(calls), LevelSuccessful);
    }

    method OnLevelFailed()
      requires Valid()
      modifies this`calls
      ensures Valid() && calls == old(calls) + Effects(LevelFailed)
    {
      calls := calls + [Movement(IsReadyToPlay(false))];
      EventKeepsScoreAgreement(currentScore, old(calls), LevelFailed);
    }

    method OnUpdateScore(totalScore: real)
      requires Valid()
      modifies this`calls, this`currentScore
      ensures Valid() && calls == old(calls) + Effects(UpdateScore(totalScore))
      ensures currentScore == ScoreAfter(old(currentScore), UpdateScore(totalScore))
    {
      calls := calls + [Text(totalScore)];
      currentScore := totalScore;
      EventKeepsScoreAgreement(old(currentScore), old(calls), UpdateScore(totalScore));
    }

    method OnChangeGameState(arg0: GameStates)
      requires Valid()
      modifies this`calls
      ensures Valid() && calls == old(calls) + Effects(GameStateChanged(arg0))
    {
      calls := calls + [Movement(SetCurrentGameState(arg0))];
      if arg0 == Idle {
        calls := calls + [Movement(EnableIdleMovement)];
      }
      EventKeepsScoreAgreement(currentScore, old(calls), GameStateChanged(arg0));
    }

    method StopVerticalMovement()
      requires Valid()
      modifies this`calls
      ensures Valid() && calls == old(calls) + Effects(StopVertical)
    {
      calls := calls + [Movement(ChangeVerticalMovement(0.0))];
      EventKeepsScoreAgreement(currentScore, old(calls), StopVertical);
    }

    method ChangeAnimation(animationType: PlayerAnimationTypes)
      requires Valid()
      modifies this`calls
      ensures Valid() && calls == old(calls) + Effects(AnimationChange(animationType))
    {
      calls := calls + [Animation(animationType)];
      EventKeepsScoreAgreement(currentScore, old(calls), AnimationChange(animationType));
    }

    method StopAllMovement()
      requires Valid()
      modifies this`calls
      ensures Valid() && calls == old(calls) + Effects(StopAll)
    {
      calls := calls + [Movement(MovementCall.StopAllMovement)];
      LastShownScoreAppend(old(calls), [Movement(MovementCall.StopAllMovement)]);
      ChangeAnimation(IdleAnimation);
    }

    method EnableVerticalMovement()
      requires Valid()
      modifies this`calls
      ensures Valid() && calls == old(calls) + Effects(EnableVertical)
    {
      calls := calls + [Movement(ChangeVerticalMovement(10.0))];
      EventKeepsScoreAgreement(currentScore, old(calls), EnableVertical);
    }

    method RepositionPlayerForDrone(other: GameObjectRef)
      requires Valid()
      modifies this`calls
      ensures Valid() && calls == old(calls) + Effects(DroneReposition(other))
    {
      calls := calls + [Movement(MovementCall.RepositionPlayerForDrone(other))];
      EventKeepsScoreAgreement(currentScore, old(calls), DroneReposition(other));
    }

    method OnChangeVerticalSpeed(verticalSpeed: real)
      requires Valid()
      modifies this`calls
      ensures Valid() && calls == old(calls) + Effects(VerticalSpeedChange(verticalSpeed))
    {
      calls := calls + [Movement(ChangeVerticalMovement(verticalSpeed))];
      EventKeepsScoreAgreement(currentScore, old(calls), VerticalSpeedChange(verticalSpeed));
    }

    method OnSidewaysEnable(isSidewayEnable: bool)
      requires Valid()
      modifies this`calls
      ensures Valid() && calls == old(calls) + Effects(SidewaysEnable(isSidewayEnable))
    {
      calls := calls + [Movement(SetSidewayEnabled(isSidewayEnable))];
      EventKeepsScoreAgreement(currentScore, old(calls), SidewaysEnable(isSidewayEnable));
    }

    method OnReset()
      requires Valid()
      modifies this`calls, this`currentScore
      ensures Valid() && calls == old(calls) + Effects(Reset)
      ensures currentScore == ScoreAfter(old(currentScore), Reset)
    {
      calls := calls + [Raise(onClearActiveLevel)];
      calls := calls + [Raise(onLevelInitialize)];
      LastShownScoreAppend(old(calls), [Raise(onClearActiveLevel), Raise(onLevelInitialize)]);
      assert [Raise(onClearActiveLevel), Raise(onLevelInitialize)][..1] == [Raise(onClearActiveLevel)];
      OnUpdateScore(0.0);
      calls := calls + [Movement(MovementCall.OnReset)];
      EventKeepsScoreAgreement(old(currentScore), old(calls), Reset);
    }

    method OnIncreaseSize()
      requires Valid()
      modifies this`calls
      ensures Valid() && calls == old(calls) + Effects(SizeIncrease)
    {
      calls := calls + [Mesh(IncreasePlayerSize)];
      EventKeepsScoreAgreement(currentScore, old(calls), SizeIncrease);
    }

    /** ActivateMesh, without the camera signal it raises first. */
    method ActivateMesh()
      requires Valid()
      modifies this`calls
      ensures Valid() && calls == old(calls) + Effects(MeshActivation)
    {
      calls := calls + [Mesh(MeshCall.ActiveMesh)];
      EventKeepsScoreAgreement(currentScore, old(calls), MeshActivation);
    }

    /** SubscribeEvents, called from OnEnable. */
    method SubscribeEvents(reg: SignalRegistry)
      requires reg.Valid()
      modifies reg
      ensures reg.Valid() && reg.slots == AttachAll(old(reg.slots), PlayerBindings)
    {
      reg.AddAll(PlayerBindings);
    }

    /** UnSubscribeEvents, called from OnDisable, as written: its first statement is `+=`. */
    method UnSubscribeEvents(reg: SignalRegistry)
      requires reg.Valid()
      modifies reg
      ensures reg.Valid() && reg.slots == UnsubscribedAsWritten(old(reg.slots))
    {
      reg.AddAll([IdleBinding]);
      reg.SubtractAll(PlayerUnbindings);
    }
  }
}
