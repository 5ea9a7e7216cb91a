# Colors Runners managers: touch input, game-state relay, player subscriptions

This project models three `MonoBehaviour` managers of the Colors Runners game
and proves properties about them in Dafny.

- **InputManager.** A per-frame touch/drag state machine. Each `Update` reads the mouse
  button flags, and a UI raycast at each of its three checks. It raises, in
  a fixed order:
  - `onInputReleased`;
  - `onInputTaken`;
  - the one-shot `onFirstTimeTouchTaken`;
  - `onInputDragged`.

  A press frame that also reports the button held raises `onInputDragged` in that same
  frame, so a tap whose press frame holds raises "taken", then "first touch" if armed,
  then "dragged", and "released" only in the next frame.

  The game signals `onEnableInput`, `onDisableInput`, `onPlay` and `onReset` open and close
  the `isReadyForTouch` gate. `onReset` also re-arms the one-shot.
- **GameManager.** It stores every requested game state, then re-broadcasts
  it on `onGetGameState` with a plain `Invoke`, which throws when nobody listens
  (the delegate field is taken to be null then; see "Left out").
- **PlayerManager.** It subscribes twelve handlers to the signal singletons and
  forwards each event to its controllers. It keeps `CurrentScore` in step with the
  score shown by the text controller.

**How the engine becomes explicit.**
- The signal singletons (`InputSignals`, `CoreGameSignals`, `PlayerSignal`) are one
  registry: a map from delegate field to invocation list.
  - `+=` appends a handler.
  - `-=` deletes the last occurrence of the handler, or nothing when it is absent.
  - A list that empties is the null delegate: the key is absent.
- Each manager is a class with its fields. `Update`, the lifecycle hooks and the handlers
  are methods.
  - InputManager's methods and PlayerManager's handlers are proved against pure
    specification functions (`Input.TickStep`, `Input.GateStep`, `Player.Effects`).
  - The subscription hooks are proved against `Signals.AttachAll` and `Signals.DetachAll`.
  - `GameManager.OnChangeGameState` and `PlayerManager.Awake` state their effects directly
    in their own contracts.
- Everything a manager raises or calls on a collaborator is appended to a trace field:
  - `emitted` on InputManager;
  - `broadcasts` on GameManager;
  - `calls` on PlayerManager.
- Each engine query of a frame is a field of a `Frame` value:
  - `Input.GetMouseButtonUp/Down`, `Input.GetMouseButton`;
  - the pointer position;
  - `IsPointerOverUIElement` at each check;
  - `Time.deltaTime`.
- `Mathf.SmoothDamp` is a function parameter.

**Files.**
- `common.dfy`: shared values.
- `delegates.dfy`: invocation lists.
- `signals.dfy`: the registry.
- `input_manager.dfy`, `game_manager.dfy`, `player_manager.dfy`: the three managers.

**What a reset keeps.** InputManager's `OnReset` (InputManager.cs:172-177) clears only
`_isTouching`, `isReadyForTouch` and `isFirstTimeTouchTaken`. It keeps `_mousePosition`,
`_moveVector` and `_currentVelocity`, so a drag position survives a reset.

## Model

| member | source | states |
|---|---|---|
| Delegates.Combine | Assets/Scripts/Managers/PlayerManager.cs:63-74 | `d += h` appends `h`; `Delegates.RemoveUndoesCombine` proves `-=` its inverse, and `Signals.AttachAllListeners` the order it builds |
| Delegates.LastIndexOf | Assets/Scripts/Managers/PlayerManager.cs:90-100 | finds the occurrence `-=` deletes: none iff the handler is absent, otherwise an index holding it with no later copy |
| Delegates.Remove | Assets/Scripts/Managers/PlayerManager.cs:90-100 | `-=` leaves a list without the handler unchanged and shortens a list with it by exactly one |
| Delegates.RemoveCount | Assets/Scripts/Managers/PlayerManager.cs:90-100 | `-=` takes exactly one copy of the handler out, when there is one, and nothing else |
| Delegates.RemoveKeepsOrder | Assets/Scripts/Managers/PlayerManager.cs:90-100 | `-=` cuts out the last occurrence and keeps the order of the rest |
| Delegates.RemoveUndoesCombine | Assets/Scripts/Managers/GameManager.cs:32-40 | `d += h` followed by `d -= h` gives back `d` |
| Delegates.RemoveInSuffix | Assets/Scripts/Managers/PlayerManager.cs:90-100 | removing a handler that occurs among the later subscriptions leaves the earlier ones alone |
| Delegates.RemoveAll | Assets/Scripts/Managers/PlayerManager.cs:90-100 | a run of `-=` shortens the list by at most one per statement; `Delegates.RemoveAllCount` gives its exact contents |
| Delegates.RemoveAllCount | Assets/Scripts/Managers/PlayerManager.cs:90-100 | any run of `-=` removes exactly the multiset difference: each handler still present loses one copy, and an absent one is skipped |
| Delegates.RemoveAllUndoesAppend | Assets/Scripts/Managers/InputManager.cs:52-66 | removing, in any order, exactly the handlers appended gives back the list before the appends |
| Signals.Attach | Assets/Scripts/Managers/PlayerManager.cs:63-74 | `signal += handler` appends to that slot only and never leaves an empty (non-null) slot |
| Signals.Detach | Assets/Scripts/Managers/PlayerManager.cs:90-100 | `signal -= handler` applies `-=` to that slot only; a slot that empties becomes null |
| Signals.AttachAll | Assets/Scripts/Managers/PlayerManager.cs:61-76 | a run of `+=` never leaves an empty non-null slot; `Signals.AttachAllListeners` gives each slot's contents |
| Signals.DetachAll | Assets/Scripts/Managers/PlayerManager.cs:87-102 | a run of `-=` never leaves an empty non-null slot; `Signals.DetachAllListeners` gives each slot's contents and `Signals.DetachAllUndoesAttachAll` makes it the inverse of `Signals.AttachAll` |
| Signals.AttachAllListeners | Assets/Scripts/Managers/PlayerManager.cs:61-76 | a run of `+=` appends to each slot exactly the handlers it binds there, in statement order |
| Signals.DetachAllListeners | Assets/Scripts/Managers/PlayerManager.cs:87-102 | a run of `-=` removes from each slot the handlers it names for that slot, one at a time |
| Signals.HandlersOnCount | Assets/Scripts/Managers/PlayerManager.cs:61-76 | a run binds a handler to a slot as often as that statement occurs in it |
| Signals.SameBindingsSameHandlers | Assets/Scripts/Managers/PlayerManager.cs:87-102 | two runs with the same statements in another order bind the same handlers to every slot, up to order |
| Signals.HandlersOnDistinct | Assets/Scripts/Managers/PlayerManager.cs:61-76 | when statements name distinct slots, each named slot gets exactly its one handler and any other slot none |
| Signals.AttachAllDistinct | Assets/Scripts/Managers/PlayerManager.cs:61-76 | a run of `+=` on distinct slots appends each handler once to its slot and leaves unnamed slots unchanged |
| Signals.DetachAllUndoesAttachAll | Assets/Scripts/Managers/InputManager.cs:52-66 | unsubscribing exactly the subscribed statements, in any order, restores the whole registry |
| Signals.SignalRegistry.AddAll | Assets/Scripts/Managers/InputManager.cs:52-58 | executing `+=` statements one at a time yields the specified run and keeps every non-null slot non-empty |
| Signals.SignalRegistry.SubtractAll | Assets/Scripts/Managers/InputManager.cs:60-66 | executing `-=` statements one at a time yields the specified run and keeps every non-null slot non-empty |
| Input.EndDragStep | Assets/Scripts/Managers/InputManager.cs:103-107 | EndMouseDrag clears the touching flag, raises only "released", and changes no other field |
| Input.StartDragStep | Assets/Scripts/Managers/InputManager.cs:109-120 | StartMouseDrag sets touching and the one-shot flag, stores the pointer, raises "taken" first, and raises "first touch" iff the one-shot was not yet taken |
| Input.DragValue | Assets/Scripts/Managers/InputManager.cs:124-133 | the move value and velocity of the threshold rule, as `Input.DragBeyondThreshold` and `Input.DragWithinThreshold` state |
| Input.DragStep | Assets/Scripts/Managers/InputManager.cs:122-142 | MouseDrag's new fields and its one "dragged" signal, as `Input.DragPayload` and `Input.DraggedExactlyWhen` state |
| Input.ButtonStep | Assets/Scripts/Managers/InputManager.cs:79-88 | the release and press checks keep readiness, leave the pointer down iff there was a press or it was down without a release, and raise at most three signals |
| Input.TickStep | Assets/Scripts/Managers/InputManager.cs:75-100 | a frame never changes readiness, raises nothing when not ready, and raises at most four signals |
| Input.React | Assets/Scripts/Managers/InputManager.cs:75-177 | one frame or one game signal; its properties are those of `Input.TickStep` and `Input.GateStep` |
| Input.Run | Assets/Scripts/Managers/InputManager.cs:75-177 | stimuli one after another; `Input.RunAppend` splits a run at any point |
| Input.GateStep | Assets/Scripts/Managers/InputManager.cs:157-177 | enable and play open the gate, disable and reset close it; only reset clears the touch and first-touch flags; nothing else changes |
| Input.NotReadyTickIsInert | Assets/Scripts/Managers/InputManager.cs:77 | a frame while not ready for touch raises nothing and changes no field |
| Input.TickCounts | Assets/Scripts/Managers/InputManager.cs:75-120 | a ready frame raises "released" once per release, "taken" once per press, "first touch" only on a press while armed (not yet fired); readiness is untouched |
| Input.ButtonCounts | Assets/Scripts/Managers/InputManager.cs:79-88 | the release and press checks of a frame raise each discrete signal once per event the UI does not swallow |
| Input.ButtonOrder | Assets/Scripts/Managers/InputManager.cs:79-88 | the release and press checks raise exactly "released" if there is a release, then "taken" if there is a press, then "first touch" if that press finds the one-shot armed (not yet fired) |
| Input.TickOrder | Assets/Scripts/Managers/InputManager.cs:75-142 | a ready frame raises exactly the button signals in that order, followed by one "dragged" if it drags and nothing otherwise |
| Input.TapSignals | Assets/Scripts/Managers/InputManager.cs:79-117 | a press frame followed by a release frame raises exactly "taken", "first touch" if armed, one "dragged" iff the press frame also holds, and last "released" |
| Input.ReleaseBeforePress | Assets/Scripts/Managers/InputManager.cs:79-88 | with both up and down in one frame, "released" comes before "taken" and the pointer ends down |
| Input.PressEffects | Assets/Scripts/Managers/InputManager.cs:109-120 | a press marks the pointer down, raises "taken", stores the position, and raises "first touch" iff it was not taken yet |
| Input.ReleaseEffects | Assets/Scripts/Managers/InputManager.cs:103-107 | a release without a press leaves the pointer up and raises "released" first |
| Input.UiSwallowsRelease | Assets/Scripts/Managers/InputManager.cs:79 | a release over the UI has the same result as no release at all |
| Input.UiSwallowsPress | Assets/Scripts/Managers/InputManager.cs:85 | a press over the UI has the same result as no press at all |
| Input.UiSwallowsHold | Assets/Scripts/Managers/InputManager.cs:90 | a hold over the UI has the same result as no hold at all |
| Input.DraggedExactlyWhen | Assets/Scripts/Managers/InputManager.cs:90-99 | "dragged" is raised iff the button is held while the pointer is down with a stored position; the drag stores the current position and is raised last |
| Input.DragPayload | Assets/Scripts/Managers/InputManager.cs:122-141 | a dragging frame leaves the move value and velocity of the threshold rule applied to the pointer delta, keeps the other move components, and raises last a "dragged" carrying that move value and the configured clamp sides |
| Input.DragBeyondThreshold | Assets/Scripts/Managers/InputManager.cs:127-130 | beyond the speed threshold on either side the move value is speed/10 times the delta and the velocity is kept |
| Input.DragWithinThreshold | Assets/Scripts/Managers/InputManager.cs:131-133 | within the threshold the move value and velocity are SmoothDamp's toward 0 with the clamp speed |
| Input.GateIdempotent | Assets/Scripts/Managers/InputManager.cs:157-177 | each game signal applied twice has the effect of applying it once |
| Input.RunAppend | Assets/Scripts/Managers/InputManager.cs:75-177 | running `xs` then `ys` is running `xs + ys`: the final state of the second part and both emissions in order |
| Input.StaysArmed | Assets/Scripts/Managers/InputManager.cs:109-117 | from an armed state, any run with no frame pressing outside the UI (open gate or not) raises no "first touch" and leaves the one-shot armed |
| Input.ArmedPressFires | Assets/Scripts/Managers/InputManager.cs:109-117 | a press that finds the gate open and the one-shot armed raises "first touch", after any run |
| Input.NextPressRearmed | Assets/Scripts/Managers/InputManager.cs:109-117 | after reset, any run with no frame pressing outside the UI that leaves input enabled lets the next press raise "first touch" again |
| Input.RearmedAfterOpening | Assets/Scripts/Managers/InputManager.cs:77-177 | after reset, frames while the gate is closed (presses included) and closing signals, then enable or play, then press-free stimuli: the next press with the gate open raises "first touch" again |
| Input.FirstTouchAtMostOnce | Assets/Scripts/Managers/InputManager.cs:109-117 | between resets "first touch" is raised at most once, exactly when the one-shot flag goes from false to true |
| Input.DisabledInputIsSilent | Assets/Scripts/Managers/InputManager.cs:162-165 | after disable, any run of frames raises nothing and changes nothing |
| Input.ClosedGateIsSilent | Assets/Scripts/Managers/InputManager.cs:77-177 | with the gate closed, any run of frames, disables and resets without enable or play raises nothing, keeps the gate closed and keeps an armed one-shot armed |
| Input.InputSubscriptionRoundTrip | Assets/Scripts/Managers/InputManager.cs:52-66 | OnEnable then OnDisable restores all four invocation lists, and every other slot |
| Input.InputManager.constructor | Assets/Scripts/Managers/InputManager.cs:23-43 | the scene's two flags are kept, the drag fields start cleared and nothing has been raised |
| Input.InputManager.Update | Assets/Scripts/Managers/InputManager.cs:75-100 | the fields and the raised signals after the frame are those of the specified frame step |
| Input.InputManager.EndMouseDrag | Assets/Scripts/Managers/InputManager.cs:103-107 | clears the touching flag and raises "released" |
| Input.InputManager.StartMouseDrag | Assets/Scripts/Managers/InputManager.cs:109-120 | sets the touching flag, raises "taken", fires the one-shot once, and stores the position |
| Input.InputManager.MouseDrag | Assets/Scripts/Managers/InputManager.cs:122-142 | computes the move value by the threshold rule, stores the new position, and raises "dragged" with the value and clamp sides |
| Input.InputManager.OnEnableInput | Assets/Scripts/Managers/InputManager.cs:157-160 | opens the gate and changes nothing else |
| Input.InputManager.OnDisableInput | Assets/Scripts/Managers/InputManager.cs:162-165 | closes the gate and changes nothing else |
| Input.InputManager.OnPlay | Assets/Scripts/Managers/InputManager.cs:167-170 | opens the gate and changes nothing else |
| Input.InputManager.OnReset | Assets/Scripts/Managers/InputManager.cs:172-177 | clears touching, readiness and the one-shot flag, and nothing else |
| Input.InputManager.SubscribeEvents | Assets/Scripts/Managers/InputManager.cs:52-58 | appends the four handlers to their four slots, in order |
| Input.InputManager.UnSubscribeEvents | Assets/Scripts/Managers/InputManager.cs:60-66 | removes the four handlers from their four slots, in order |
| Game.GameSubscriptionRoundTrip | Assets/Scripts/Managers/GameManager.cs:32-40 | OnEnable then OnDisable restores the registry exactly |
| Game.GameManager.constructor | Assets/Scripts/Managers/GameManager.cs:13 | starts with the given state and no broadcast |
| Game.GameManager.OnChangeGameState | Assets/Scripts/Managers/GameManager.cs:47-51 | every state is stored; it is broadcast once, carrying exactly that state, and listeners see it already stored; with no listener the call faults, but only after the state is stored |
| Game.GameManager.SubscribeEvents | Assets/Scripts/Managers/GameManager.cs:32-35 | appends the handler to `onChangeGameState` |
| Game.GameManager.UnsubscribeEvents | Assets/Scripts/Managers/GameManager.cs:37-40 | removes the handler from `onChangeGameState` |
| Player.Effects | Assets/Scripts/Managers/PlayerManager.cs:124-213 | each handler's calls in order, as the effect lemmas below state, and score agreement by `Player.EventKeepsScoreAgreement` |
| Player.ScoreAfter | Assets/Scripts/Managers/PlayerManager.cs:158-203 | `CurrentScore` after a handler, as `Player.OnlyScoreEventsChangeScore` and `Player.ResetOrder` state |
| Player.GameStateChangeEffects | Assets/Scripts/Managers/PlayerManager.cs:78-85 | the game state reaches the movement controller, and `EnableIdleMovement` follows iff the state is Idle |
| Player.ResetOrder | Assets/Scripts/Managers/PlayerManager.cs:197-203 | reset raises clear-active-level, then level-initialize, then shows score 0, then resets the controller; `CurrentScore` becomes 0 |
| Player.UpdateScoreEffects | Assets/Scripts/Managers/PlayerManager.cs:158-162 | a score update shows the total, stores it, and does nothing else |
| Player.OnlyScoreEventsChangeScore | Assets/Scripts/Managers/PlayerManager.cs:124-213 | every event except a score update or a reset keeps `CurrentScore` and shows no score |
| Player.LevelEndsAgree | Assets/Scripts/Managers/PlayerManager.cs:148-156 | winning and losing a level both make exactly one `IsReadyToPlay(false)` call |
| Player.MovementToggles | Assets/Scripts/Managers/PlayerManager.cs:124-147 | play and input-taken each make one `EnableMovement` call; input-released makes one `DisableMovement` call |
| Player.VerticalAndStopEffects | Assets/Scripts/Managers/PlayerManager.cs:163-190 | stopping sets vertical speed 0 and enabling sets 10, as the speed handler would; stop-all stops the controller before the Idle animation |
| Player.LastShownScoreAppend | Assets/Scripts/Managers/PlayerManager.cs:158-162 | after more calls, the score last shown is theirs if they show one, else the earlier one |
| Player.EffectsShowScore | Assets/Scripts/Managers/PlayerManager.cs:158-203 | the score an event shows last is the total for an update, 0 for a reset, and none for every other event |
| Player.EventKeepsScoreAgreement | Assets/Scripts/Managers/PlayerManager.cs:158-203 | every event keeps `CurrentScore` equal to the score last shown |
| Player.RunKeepsScoreAgreement | Assets/Scripts/Managers/PlayerManager.cs:158-203 | any run of events keeps `CurrentScore` equal to the score last shown |
| Player.SubscribeAddsEachHandlerOnce | Assets/Scripts/Managers/PlayerManager.cs:61-76 | SubscribeEvents adds exactly one copy of each of the twelve handlers to its slot and leaves every other slot alone |
| Player.PlayerSubscriptionsDistinct | Assets/Scripts/Managers/PlayerManager.cs:63-74 | the twelve subscriptions name twelve different slots |
| Player.UnsubscribedAsWritten | Assets/Scripts/Managers/PlayerManager.cs:87-102 | UnSubscribeEvents as written, with `+=` on line 89; `Player.UnsubscribeLeaksIdleHandler` gives its effect |
| Player.UnsubscribedIntended | Assets/Scripts/Managers/PlayerManager.cs:87-102 | UnSubscribeEvents with `-=` on every line; `Player.IntendedUnsubscribeRestores` makes it the inverse of SubscribeEvents |
| Player.EnableDisableCycle | Assets/Scripts/Managers/PlayerManager.cs:51-102 | one OnEnable/OnDisable cycle; `Player.LeakGrowsWithCycles` gives the effect of `n` of them |
| Player.SecondToFront | Assets/Scripts/Managers/PlayerManager.cs:87-102 | SubscribeEvents makes the same statements as the intended unsubscription, with the idle binding first |
| Player.ExtraHandlers | Assets/Scripts/Managers/PlayerManager.cs:87-102 | the idle slot is bound once by SubscribeEvents and never by the eleven `-=`; every other slot is bound identically by both |
| Player.ExtraAttachLeaks | Assets/Scripts/Managers/PlayerManager.cs:87-102 | subscribe, then the extra `+=`, then the eleven `-=`: two more idle handlers remain, and every other slot is restored |
| Player.UnsubscribeLeaksIdleHandler | Assets/Scripts/Managers/PlayerManager.cs:87-102 | one OnEnable/OnDisable cycle adds two copies of `OnGetIdleInputValues` to `onIdleInputTaken` and restores every other slot |
| Player.IterateGrows | Assets/Scripts/Managers/PlayerManager.cs:51-59 | `n` cycles that each add two copies leave `2n` copies |
| Player.IterateKeeps | Assets/Scripts/Managers/PlayerManager.cs:51-59 | `n` cycles that each leave a slot alone leave it alone |
| Player.LeakGrowsWithCycles | Assets/Scripts/Managers/PlayerManager.cs:51-102 | after `n` enable/disable cycles `onIdleInputTaken` holds `2n` extra copies of the idle handler, and every other slot is as before |
| Player.LeakFromEmpty | Assets/Scripts/Managers/PlayerManager.cs:89 | a cycle that adds two copies to a slot turns the empty registry into a non-empty one |
| Player.LeakFromEmptyRegistry | Assets/Scripts/Managers/PlayerManager.cs:89 | from an empty registry, one cycle leaves `onIdleInputTaken` non-null, holding two idle handlers |
| Player.IntendedUnsubscribeRestores | Assets/Scripts/Managers/PlayerManager.cs:87-102 | with `-=` on every line, OnEnable then OnDisable restores the registry exactly |
| Player.PlayerManager.constructor | Assets/Scripts/Managers/PlayerManager.cs:18 | starts with the given `CurrentScore`, no data and no calls |
| Player.PlayerManager.Awake | Assets/Scripts/Managers/PlayerManager.cs:107-117 | keeps the loaded data and hands its movement data to the movement controller |
| Player.PlayerManager.OnActivateMovement | Assets/Scripts/Managers/PlayerManager.cs:124-127 | one `EnableMovement` call; score agreement kept |
| Player.PlayerManager.OnDeactivateMovement | Assets/Scripts/Managers/PlayerManager.cs:129-132 | one `DisableMovement` call; score agreement kept |
| Player.PlayerManager.OnGetInputValues | Assets/Scripts/Managers/PlayerManager.cs:134-137 | forwards the runner input to the movement controller |
| Player.PlayerManager.OnGetIdleInputValues | Assets/Scripts/Managers/PlayerManager.cs:138-141 | forwards the idle input to the movement controller |
| Player.PlayerManager.OnPlay | Assets/Scripts/Managers/PlayerManager.cs:144-147 | one `EnableMovement` call |
| Player.PlayerManager.OnLevelSuccessful | Assets/Scripts/Managers/PlayerManager.cs:148-151 | one `IsReadyToPlay(false)` call |
| Player.PlayerManager.OnLevelFailed | Assets/Scripts/Managers/PlayerManager.cs:153-156 | one `IsReadyToPlay(false)` call |
| Player.PlayerManager.OnUpdateScore | Assets/Scripts/Managers/PlayerManager.cs:158-162 | shows the total on the text controller and stores it as `CurrentScore` |
| Player.PlayerManager.OnChangeGameState | Assets/Scripts/Managers/PlayerManager.cs:78-85 | sets the controller's game state, then enables idle movement iff the state is Idle |
| Player.PlayerManager.StopVerticalMovement | Assets/Scripts/Managers/PlayerManager.cs:163-166 | sets vertical speed 0 |
| Player.PlayerManager.ChangeAnimation | Assets/Scripts/Managers/PlayerManager.cs:168-171 | forwards the animation to the animation controller |
| Player.PlayerManager.StopAllMovement | Assets/Scripts/Managers/PlayerManager.cs:172-176 | stops the movement controller, then switches to the Idle animation |
| Player.PlayerManager.EnableVerticalMovement | Assets/Scripts/Managers/PlayerManager.cs:177-180 | sets vertical speed 10 |
| Player.PlayerManager.RepositionPlayerForDrone | Assets/Scripts/Managers/PlayerManager.cs:182-185 | forwards the drone object to the movement controller |
| Player.PlayerManager.OnChangeVerticalSpeed | Assets/Scripts/Managers/PlayerManager.cs:187-190 | forwards the vertical speed to the movement controller |
| Player.PlayerManager.OnSidewaysEnable | Assets/Scripts/Managers/PlayerManager.cs:192-195 | forwards the sideways flag to the movement controller |
| Player.PlayerManager.OnReset | Assets/Scripts/Managers/PlayerManager.cs:197-203 | raises clear-active-level and level-initialize, shows score 0, stores 0, then resets the controller |
| Player.PlayerManager.OnIncreaseSize | Assets/Scripts/Managers/PlayerManager.cs:206-209 | one `IncreasePlayerSize` call on the mesh controller |
| Player.PlayerManager.ActivateMesh | Assets/Scripts/Managers/PlayerManager.cs:209-213 | one `ActiveMesh` call on the mesh controller |
| Player.PlayerManager.SubscribeEvents | Assets/Scripts/Managers/PlayerManager.cs:61-76 | appends the twelve handlers to their slots, in statement order |
| Player.PlayerManager.UnSubscribeEvents | Assets/Scripts/Managers/PlayerManager.cs:87-102 | as written: one more `+=` of the idle handler, then the eleven `-=`, in order |

Each PlayerManager handler method also keeps `Valid()`: `CurrentScore` agrees with the
score last shown on the text controller.

## Left out

- Configuration loading through `Resources.Load` (InputManager.cs:43, PlayerManager.cs:119) is asset I/O. The loaded `InputData` is a constructor argument, and the loaded `PlayerData` is an argument of `Awake`.
- `IsPointerOverUIElement` (InputManager.cs:144-151) raycasts through the engine's event system. Its answer at each of the three checks is a boolean field of `Frame`.
- `Mathf.SmoothDamp` is a library smoother, so it is a function parameter. Every `float` is `real`: `CurrentScore`, `HorizontalInputSpeed`, `_currentVelocity`, the vertical speed and the vector components. The model has no rounding and no single precision.
- `Application.targetFrameRate` (GameManager.cs:21) is engine configuration.
- Player.PlayerManager.ActivateMesh: does not model the camera signal it raises first (PlayerManager.cs:211). That call is a plain `Invoke` on a singleton outside this model.
- The movement, physics, animation, mesh and text controllers are not part of this model. Their calls are trace entries.
- Game.GameManager.OnChangeGameState: records who is on the invocation list, but does not run the listeners. Re-entrant listeners are not modelled.
- The `?.Invoke` calls of InputManager (InputManager.cs:106, 112, 116, 137) and PlayerManager (PlayerManager.cs:199-200) do not run listeners. A signal is recorded as raised even when nobody listens, where `?.Invoke` does nothing. A listener that raises `onReset` or `onDisableInput` during `Update` would change the fields in the middle of the frame, because readiness is checked only at InputManager.cs:77; that is not captured.
- `CoreGameSignals`, `InputSignals` and `PlayerSignal` are not part of this model. Their delegate fields are taken to be declared without an initializer, so a field starts null and becomes null again when its last handler is removed. The empty-slot rule of `Signals.NoEmptySlot` and the fault of `Game.GameManager.OnChangeGameState` with nobody listening rest on that.
- `OnEnable`/`OnDisable` and the singletons' lifetimes are driven by Unity. They are explicit calls on one registry object, and handler identity is the pair (owner component, method).
- Signals.SignalRegistry.AddAll and Signals.SignalRegistry.SubtractAll: each manager's hooks pass their whole statement list to one call. The call still executes the statements one at a time.
- `SendPlayerDataToMovementController` (PlayerManager.cs:114-117) is folded into `Player.PlayerManager.Awake`.
- The dead fields `_playerState` and `_currentColor` (PlayerManager.cs:35,42) are read by nothing.
- `GameStates` and `PlayerAnimationTypes` name Idle and keep every other value as an opaque ordinal: the managers only compare against Idle.
- `OnUpdateScore` is not subscribed to any signal (its lines are commented out), so it is modelled only as a method.
- Player.PlayerManager.UnSubscribeEvents: models the code as written, with the `+=` on line 89. The corrected unsubscription is the function `Player.UnsubscribedIntended` (see Findings).

## Findings

| source | as written | input that shows it | evidently intended | confidence | as-written member | corrected member |
|---|---|---|---|---|---|---|
| Assets/Scripts/Managers/PlayerManager.cs:89 | UnSubscribeEvents subscribes `OnGetIdleInputValues` to `onIdleInputTaken` again (`+=`) instead of removing it | the empty registry, one OnEnable then OnDisable: `onIdleInputTaken` holds two copies of the handler; after `n` cycles it holds `2n` | `-=`, so that OnDisable undoes OnEnable and the destroyed player's handler is never called again | not executed | Player.LeakFromEmptyRegistry | Player.IntendedUnsubscribeRestores |
