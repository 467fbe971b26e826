/** The visual reactions of lib/visuals/visController.ts. */
module VisController {
  import opened Wrappers
  import opened AppState
  import opened Events
  import Store

  const VisListener: ListenerId := 3

  /** `vis.pulse` bumps by `payload.amount ?? 0.4`. */
  function PulseAmount(e: AppEvent): real {
    if e.payload.Pulse? then e.payload.amount.GetOr(0.4) else 0.4
  }

  /** The state after the subscriber has handled `e` at time `now`. */
  function React(s: State, e: AppEvent, now: int): (r: State)
    ensures e.kind == VisBurst ==>
              r.visuals.lastBurstAt == now &&
              r.visuals.intensity == Min(1.0, s.visuals.intensity + 0.6) &&
              (s.visuals.paletteIndex >= 0 ==> 0 <= r.visuals.paletteIndex < 5)
    ensures e.kind == VisBurst ==>
              r == s.(visuals := Visuals(JsRem(s.visuals.paletteIndex + 1, 5), Min(1.0, s.visuals.intensity + 0.6), now))
    ensures e.kind == VisPulse ==> r == BumpIntensity(s, PulseAmount(e))
    ensures e.kind !in {VisBurst, VisPulse} ==> r == s
    ensures r.visuals.intensity <= 1.0 || r == s
  {
    match e.kind
    case VisBurst => BumpIntensity(CyclePalette(s, now, 1), 0.6)
    case VisPulse => BumpIntensity(s, PulseAmount(e))
    case _ => s
  }

  /** A pulse without an amount bumps by the default 0.4. */
  lemma PulseDefault(s: State)
    ensures React(s, AppEvent(VisPulse, Pulse(None)), 0) == BumpIntensity(s, 0.4)
  {}

  class VisController {
    var isRegistered: bool

    constructor ()
      ensures !isRegistered
    {
      isRegistered := false;
    }

    /** `registerVisHandlers()`: subscribes once; a second call is a no-op. */
    method Register(bus: EventBus)
      requires bus.Valid()
      modifies this, bus
      ensures bus.Valid() && isRegistered
      ensures bus.listeners == if old(isRegistered) || VisListener in old(bus.listeners) then old(bus.listeners)
                               else old(bus.listeners) + [VisListener]
    {
      if isRegistered {
        return;
      }
      isRegistered := true;
      bus.Subscribe(VisListener);
    }

    /**
     * The subscriber: `vis.burst` is `cyclePalette(+1)` then `bumpIntensity(0.6)` (two
     * `state.updated` events); `vis.pulse` is one `bumpIntensity`; nothing else reacts.
     */
    method OnEvent(e: AppEvent, store: Store.Store, now: int)
      modifies store
      ensures store.state == React(old(store.state), e, now)
      ensures e.kind == VisBurst ==>
                store.outbox == old(store.outbox) + [Store.Updated(CyclePalette(old(store.state), now, 1)), Store.Updated(store.state)]
      ensures e.kind == VisPulse ==> store.outbox == old(store.outbox) + [Store.Updated(store.state)]
      ensures e.kind !in {VisBurst, VisPulse} ==> store.outbox == old(store.outbox)
    {
      match e.kind {
        case VisBurst =>
          store.CyclePalette(now, 1);
          store.BumpIntensity(0.6);
        case VisPulse =>
          store.BumpIntensity(PulseAmount(e));
        case _ =>
      }
    }
  }
}
