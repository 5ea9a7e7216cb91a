/**
 * The global signal singletons (InputSignals, CoreGameSignals, PlayerSignal)
 * seen as one registry: each named delegate slot holds the invocation list of
 * the handlers subscribed to it. A slot with no handlers is the null delegate
 * and is absent from the map.
 */
module Signals {
  import opened Common
  import opened Delegates

  /** The delegate slots the managers touch, named as the fields of the singletons. */
  datatype Signal =
    // InputSignals
    | onEnableInput | onDisableInput | onInputTaken | onInputReleased | onFirstTimeTouchTaken
    | onInputDragged | onIdleInputTaken | onSidewaysEnable
    // CoreGameSignals
    | onPlay | onReset | onChangeGameState | onGetGameState | onLevelSuccessful | onLevelFailed
    | onClearActiveLevel | onLevelInitialize
    // PlayerSignal
    | onChangeVerticalSpeed | onIncreaseScale

  /** The component whose method a delegate targets (one instance of each in a scene). */
  datatype Owner = TheInputManager | TheGameManager | ThePlayerManager

  /** The handler methods the managers subscribe. */
  datatype HandlerName =
    | OnEnableInput | OnDisableInput | OnPlay | OnReset | OnChangeGameState
    | OnActivateMovement | OnGetIdleInputValues | OnDeactivateMovement | OnGetInputValues
    | OnLevelSuccessful | OnLevelFailed | OnChangeVerticalSpeed | OnIncreaseSize | OnSidewaysEnable

  /** A delegate to one method of one object; two are equal when target and method are. */
  datatype Handler = Handler(owner: Owner, name: HandlerName)

  /** One `signal += handler` (or `-=`) statement. */
  datatype Binding = Binding(signal: Signal, handler: Handler)

  type Slots = map<Signal, seq<Handler>>

  /** A delegate that loses its last handler becomes null: no slot holds an empty list. */
  predicate NoEmptySlot(m: Slots) {
    forall s :: s in m ==> m[s] != []
  }

  /** The invocation list of slot `s`; the null delegate has none. */
  function Listeners(m: Slots, s: Signal): seq<Handler> {
    if s in m then m[s] else []
  }

  /** `Instance.signal += handler`. */
  function Attach(m: Slots, b: Binding): (r: Slots)
    ensures Listeners(r, b.signal) == Listeners(m, b.signal) + [b.handler]
    ensures forall s :: s != b.signal ==> Listeners(r, s) == Listeners(m, s)
    ensures NoEmptySlot(m) ==> NoEmptySlot(r)
  {
    m[b.signal := Combine(Listeners(m, b.signal), b.handler)]
  }

  /** `Instance.signal -= handler`. */
  function Detach(m: Slots, b: Binding): (r: Slots)
    ensures Listeners(r, b.signal) == Remove(Listeners(m, b.signal), b.handler)
    ensures forall s :: s != b.signal ==> Listeners(r, s) == Listeners(m, s)
    ensures NoEmptySlot(m) ==> NoEmptySlot(r)
  {
    var rest := Remove(Listeners(m, b.signal), b.handler);
    if rest == [] then m - {b.signal} else m[b.signal := rest]
  }

  /** A run of `+=` statements, in order. */
  function AttachAll(m: Slots, bs: seq<Binding>): (r: Slots)
    ensures NoEmptySlot(m) ==> NoEmptySlot(r)
    decreases |bs|
  {
    if bs == [] then m else AttachAll(Attach(m, bs[0]), bs[1..])
  }

  /** A run of `-=` statements, in order. */
  function DetachAll(m: Slots, bs: seq<Binding>): (r: Slots)
    ensures NoEmptySlot(m) ==> NoEmptySlot(r)
    decreases |bs|
  {
    if bs == [] then m else DetachAll(Detach(m, bs[0]), bs[1..])
  }

  /** The handlers that `bs` binds to slot `s`, in order. */
  function HandlersOn(bs: seq<Binding>, s: Signal): seq<Handler>
    decreases |bs|
  {
    if bs == [] then []
    else (if bs[0].signal == s then [bs[0].handler] else []) + HandlersOn(bs[1..], s)
  }

  /** No two statements of `bs` name the same slot. */
  predicate DistinctSignals(bs: seq<Binding>) {
    forall i, j :: 0 <= i < j < |bs| ==> bs[i].signal != bs[j].signal
  }

  /** A run of `+=` appends to each slot exactly the handlers bound to it, in statement order. */
  lemma {:induction false} AttachAllListeners(m: Slots, bs: seq<Binding>, s: Signal)
    ensures Listeners(AttachAll(m, bs), s) == Listeners(m, s) + HandlersOn(bs, s)
    decreases |bs|
  {
    if bs != [] {
      AttachAllListeners(Attach(m, bs[0]), bs[1..], s);
      if bs[0].signal == s {
        assert HandlersOn(bs, s) == [bs[0].handler] + HandlersOn(bs[1..], s);
      } else {
        assert HandlersOn(bs, s) == HandlersOn(bs[1..], s);
      }
    }
  }

  /** A run of `-=` removes from each slot the handlers bound to it, one `Remove` at a time. */
  lemma {:induction false} DetachAllListeners(m: Slots, bs: seq<Binding>, s: Signal)
    ensures Listeners(DetachAll(m, bs), s) == RemoveAll(Listeners(m, s), HandlersOn(bs, s))
    decreases |bs|
  {
    if bs != [] {
      DetachAllListeners(Detach(m, bs[0]), bs[1..], s);
      if bs[0].signal != s {
        assert HandlersOn(bs, s) == HandlersOn(bs[1..], s);
      }
    }
  }

  /** How often `bs` binds `h` to `s` is how often `h` shows up among the handlers it binds to `s`. */
  lemma {:induction false} HandlersOnCount(bs: seq<Binding>, s: Signal, h: Handler)
    ensures multiset(HandlersOn(bs, s))[h] == multiset(bs)[Binding(s, h)]
    decreases |bs|
  {
    if bs != [] {
      var head := if bs[0].signal == s then [bs[0].handler] else [];
      HandlersOnCount(bs[1..], s, h);
      assert bs == [bs[0]] + bs[1..];
      assert multiset(bs)[Binding(s, h)] == multiset([bs[0]])[Binding(s, h)] + multiset(bs[1..])[Binding(s, h)];
      assert multiset(HandlersOn(bs, s))[h] == multiset(head)[h] + multiset(HandlersOn(bs[1..], s))[h];
    }
  }

  /** Two sequences of bindings with the same statements bind the same handlers to every slot, up to order. */
  lemma SameBindingsSameHandlers(bs: seq<Binding>, cs: seq<Binding>, s: Signal)
    requires multiset(bs) == multiset(cs)
    ensures multiset(HandlersOn(bs, s)) == multiset(HandlersOn(cs, s))
  {
    forall h ensures multiset(HandlersOn(bs, s))[h] == multiset(HandlersOn(cs, s))[h] {
      HandlersOnCount(bs, s, h);
      HandlersOnCount(cs, s, h);
    }
  }

  /** With distinct slots, a bound slot receives exactly its one handler and any other slot none. */
  lemma {:induction false} HandlersOnDistinct(bs: seq<Binding>, s: Signal)
    requires DistinctSignals(bs)
    ensures forall i :: 0 <= i < |bs| && bs[i].signal == s ==> HandlersOn(bs, s) == [bs[i].handler]
    ensures (forall i :: 0 <= i < |bs| ==> bs[i].signal != s) ==> HandlersOn(bs, s) == []
    decreases |bs|
  {
    if bs != [] {
      HandlersOnDistinct(bs[1..], s);
      assert forall i :: 1 <= i < |bs| ==> bs[1..][i - 1] == bs[i];
    }
  }

  /** The handlers bound by two runs of statements, one after the other. */
  lemma {:induction false} HandlersOnAppend(a: seq<Binding>, b: seq<Binding>, s: Signal)
    ensures HandlersOn(a + b, s) == HandlersOn(a, s) + HandlersOn(b, s)
    decreases |a|
  {
    if a != [] {
      assert (a + b)[1..] == a[1..] + b;
      HandlersOnAppend(a[1..], b, s);
    } else {
      assert a + b == b;
    }
  }

  /** Statements that never name slot `s` bind nothing to it. */
  lemma {:induction false} HandlersOnAbsent(bs: seq<Binding>, s: Signal)
    requires forall i :: 0 <= i < |bs| ==> bs[i].signal != s
    ensures HandlersOn(bs, s) == []
    decreases |bs|
  {
    if bs != [] {
      assert forall i :: 1 <= i < |bs| ==> bs[1..][i - 1] == bs[i];
      HandlersOnAbsent(bs[1..], s);
    }
  }

  /**
   * A run of `+=` statements naming distinct slots puts each statement's
   * handler at the end of its slot, once, and leaves every unnamed slot alone.
   */
  lemma AttachAllDistinct(m: Slots, bs: seq<Binding>)
    requires DistinctSignals(bs)
    ensures forall i :: 0 <= i < |bs| ==>
      Listeners(AttachAll(m, bs), bs[i].signal) == Listeners(m, bs[i].signal) + [bs[i].handler]
    ensures forall s :: (forall i :: 0 <= i < |bs| ==> bs[i].signal != s) ==>
      Listeners(AttachAll(m, bs), s) == Listeners(m, s)
  {
    forall s
      ensures Listeners(AttachAll(m, bs), s) == Listeners(m, s) + HandlersOn(bs, s)
      ensures forall i :: 0 <= i < |bs| && bs[i].signal == s ==> HandlersOn(bs, s) == [bs[i].handler]
      ensures (forall i :: 0 <= i < |bs| ==> bs[i].signal != s) ==> HandlersOn(bs, s) == []
    {
      AttachAllListeners(m, bs, s);
      HandlersOnDistinct(bs, s);
    }
  }

  /** Registries are equal when every slot holds the same invocation list. */
  lemma SameListenersSameSlots(m1: Slots, m2: Slots)
    requires NoEmptySlot(m1) && NoEmptySlot(m2)
    requires forall s :: Listeners(m1, s) == Listeners(m2, s)
    ensures m1 == m2
  {
    forall s ensures s in m1 <==> s in m2 {
      assert Listeners(m1, s) == Listeners(m2, s);
    }
    forall s | s in m1 ensures m1[s] == m2[s] {
      assert Listeners(m1, s) == Listeners(m2, s);
    }
  }

  /**
   * Unsubscribing exactly the statements that were subscribed, in any order,
   * gives back the registry as it was.
   */
  lemma DetachAllUndoesAttachAll(m: Slots, subs: seq<Binding>, unsubs: seq<Binding>)
    requires NoEmptySlot(m)
    requires multiset(subs) == multiset(unsubs)
    ensures DetachAll(AttachAll(m, subs), unsubs) == m
  {
    var m' := DetachAll(AttachAll(m, subs), unsubs);
    forall s ensures Listeners(m', s) == Listeners(m, s) {
      DetachAllListeners(AttachAll(m, subs), unsubs, s);
      AttachAllListeners(m, subs, s);
      SameBindingsSameHandlers(subs, unsubs, s);
      RemoveAllUndoesAppend(Listeners(m, s), HandlersOn(subs, s), HandlersOn(unsubs, s));
    }
    SameListenersSameSlots(m', m);
  }

  /** One more `+=` after a run of them extends the run. */
  lemma {:induction false} AttachAllExtend(m: Slots, bs: seq<Binding>, i: nat)
    requires i < |bs|
    ensures AttachAll(m, bs[..i + 1]) == Attach(AttachAll(m, bs[..i]), bs[i])
    decreases i
  {
    if i > 0 {
      assert bs[..i + 1][1..] == bs[1..][..i];
      assert bs[..i][1..] == bs[1..][..i - 1];
      AttachAllExtend(Attach(m, bs[0]), bs[1..], i - 1);
    }
  }

  /** One more `-=` after a run of them extends the run. */
  lemma {:induction false} DetachAllExtend(m: Slots, bs: seq<Binding>, i: nat)
    requires i < |bs|
    ensures DetachAll(m, bs[..i + 1]) == Detach(DetachAll(m, bs[..i]), bs[i])
    decreases i
  {
    if i > 0 {
      assert bs[..i + 1][1..] == bs[1..][..i];
      assert bs[..i][1..] == bs[1..][..i - 1];
      DetachAllExtend(Detach(m, bs[0]), bs[1..], i - 1);
    }
  }

  /** The singletons' delegate fields, updated in place by the managers' lifecycle hooks. */
  class SignalRegistry {
    var slots: Slots

    ghost predicate Valid()
      reads this
    {
      NoEmptySlot(slots)
    }

    constructor ()
      ensures Valid() && slots == map[]
    {
      slots := map[];
    }

    /** The current invocation list of `s`. */
    function InvocationList(s: Signal): seq<Handler>
      reads this
    {
      Listeners(slots, s)
    }

    /** A run of `signal += handler` statements, executed one at a time. */
    method AddAll(bs: seq<Binding>)
      requires Valid()
      modifies this
      ensures Valid() && slots == AttachAll(old(slots), bs)
    {
      var i := 0;
      while i < |bs|
        invariant 0 <= i <= |bs|
        invariant Valid() && slots == AttachAll(old(slots), bs[..i])
      {
        AttachAllExtend(old(slots), bs, i);
        slots := Attach(slots, bs[i]);
        i := i + 1;
      }
      assert bs[..i] == bs;
    }

    /** A run of `signal -= handler` statements, executed one at a time. */
    method SubtractAll(bs: seq<Binding>)
      requires Valid()
      modifies this
      ensures Valid() && slots == DetachAll(old(slots), bs)
    {
      var i := 0;
      while i < |bs|
        invariant 0 <= i <= |bs|
        invariant Valid() && slots == DetachAll(old(slots), bs[..i])
      {
        DetachAllExtend(old(slots), bs, i);
        slots := Detach(slots, bs[i]);
        i := i + 1;
      }
      assert bs[..i] == bs;
    }
  }
}
