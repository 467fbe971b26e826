/** The halt-gesture handler of lib/gestures/gestureController.ts. */
module GestureController {
  import opened Wrappers
  import opened AppState
  import opened Events
  import Store

  const GestureListener: ListenerId := 2

  /** The partial that `handleHalt` passes to `setState`. */
  function HaltPatch(s: State): Patch {
    NoChange.(isPlaying := Some(!s.isPlaying))
  }

  /** Two halts in a row restore the playing flag. */
  lemma HaltTwiceRestores(s: State)
    ensures Merge(Merge(s, HaltPatch(s)), HaltPatch(Merge(s, HaltPatch(s)))) == s
  {}

  class GestureController {
    var isRegistered: bool

    constructor ()
      ensures !isRegistered
    {
      isRegistered := false;
    }

    /** `registerGestureHandlers()`: subscribes once; a second call is a no-op. */
    method Register(bus: EventBus)
      requires bus.Valid()
      modifies this, bus
      ensures bus.Valid() && isRegistered
      ensures bus.listeners == if old(isRegistered) || GestureListener in old(bus.listeners) then old(bus.listeners)
                               else old(bus.listeners) + [GestureListener]
    {
      if isRegistered {
        return;
      }
      isRegistered := true;
      bus.Subscribe(GestureListener);
    }

    /**
     * The subscriber: `gesture.halt` negates `isPlaying` through `setState`, and the
     * UI voice window opens (`openedVoiceWindow`) exactly when the new state is paused.
     * Every other event is ignored.
     */
    method OnEvent(e: AppEvent, store: Store.Store) returns (openedVoiceWindow: bool)
      modifies store
      ensures e.kind == GestureHalt ==>
                store.state == old(store.state).(isPlaying := !old(store.state).isPlaying) &&
                store.outbox == old(store.outbox) + [Store.Updated(store.state)] &&
                openedVoiceWindow == !store.state.isPlaying
      ensures e.kind != GestureHalt ==>
                store.state == old(store.state) && store.outbox == old(store.outbox) && !openedVoiceWindow
    {
      openedVoiceWindow := false;
      if e.kind == GestureHalt {
        openedVoiceWindow := HandleHalt(store);
      }
    }

    /** `handleHalt()` */
    method HandleHalt(store: Store.Store) returns (openedVoiceWindow: bool)
      modifies store
      ensures store.state == Merge(old(store.state), HaltPatch(old(store.state)))
      ensures store.outbox == old(store.outbox) + [Store.Updated(store.state)]
      ensures openedVoiceWindow <==> old(store.state).isPlaying
    {
      var newIsPlaying := !store.state.isPlaying;
      store.SetState(HaltPatch(store.state));
      openedVoiceWindow := !newIsPlaying;
    }
  }
}
