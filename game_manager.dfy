/**
 * Managers.GameManager: keeps the current game state and relays every
 * `onChangeGameState` request as an `onGetGameState` broadcast.
 */
module Game {
  import opened Common
  import opened Signals

  /** How a handler call ends: normally, or with the exception a null delegate's plain `Invoke` throws. */
  datatype Outcome = Completed | NullReferenceFault

  /**
   * One `onGetGameState.Invoke(value)`: the invocation list it runs, and the
   * manager's `States` at that moment, which is what a listener reading it sees.
   */
  datatype Broadcast = Broadcast(value: GameStates, recipients: seq<Handler>, statesDuringDispatch: GameStates)

  /** SubscribeEvents, statement by statement; UnsubscribeEvents removes the same one. */
  const GameBindings: seq<Binding> := [
    Binding(onChangeGameState, Handler(TheGameManager, OnChangeGameState))
  ]

  /** OnEnable then OnDisable leaves the `onChangeGameState` invocation list, and every other, as it was. */
  lemma GameSubscriptionRoundTrip(m: Slots)
    requires NoEmptySlot(m)
    ensures DetachAll(AttachAll(m, GameBindings), GameBindings) == m
  {
    DetachAllUndoesAttachAll(m, GameBindings, GameBindings);
  }

  class GameManager {
    var states: GameStates
    /** Every `onGetGameState` broadcast this manager made, in order. */
    var broadcasts: seq<Broadcast>

    constructor (initial: GameStates)
      ensures states == initial && broadcasts == []
    {
      states := initial;
      broadcasts := [];
    }

    /**
     * Accepts every state, stores it, then broadcasts it once to the current
     * listeners, who see the new state stored. With no listeners the delegate
     * is null and `Invoke` throws, after the state was stored.
     */
    method OnChangeGameState(newState: GameStates, reg: SignalRegistry) returns (outcome: Outcome)
      modifies this
      ensures states == newState
      ensures outcome == NullReferenceFault <==> reg.InvocationList(onGetGameState) == []
      ensures outcome == NullReferenceFault ==> broadcasts == old(broadcasts)
      ensures outcome == Completed ==>
        broadcasts == old(broadcasts) + [Broadcast(newState, reg.InvocationList(onGetGameState), newState)]
    {
      states := newState;
      var listeners := reg.InvocationList(onGetGameState);
      if listeners == [] {
        return NullReferenceFault;
      }
      broadcasts := broadcasts + [Broadcast(newState, listeners, states)];
      outcome := Completed;
    }

    /** SubscribeEvents, called from OnEnable. */
    method SubscribeEvents(reg: SignalRegistry)
      requires reg.Valid()
      modifies reg
      ensures reg.Valid() && reg.slots == AttachAll(old(reg.slots), GameBindings)
    {
      reg.AddAll(GameBindings);
    }

    /** UnsubscribeEvents, called from OnDisable. */
    method UnsubscribeEvents(reg: SignalRegistry)
      requires reg.Valid()
      modifies reg
      ensures reg.Valid() && reg.slots == DetachAll(old(reg.slots), GameBindings)
    {
      reg.SubtractAll(GameBindings);
    }
  }
}
