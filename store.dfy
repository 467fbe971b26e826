/**
 * The module-level `state` object of lib/state.ts. Every setter shallow-merges a partial
 * record into it and then publishes one `state.updated` event carrying a snapshot; the
 * publish is recorded in `outbox`.
 */
module Store {
  import opened Wrappers
  import opened AppState
  import opened Events

  /** The `state.updated` event published after a merge. */
  function Updated(s: State): AppEvent {
    AppEvent(StateUpdated, Snapshot(s))
  }

  class Store {
    var state: State
    var outbox: seq<AppEvent>

    constructor ()
      ensures state == Initial && outbox == []
    {
      state := Initial;
      outbox := [];
    }

    /** `setState(p)` */
    method SetState(p: Patch)
      modifies this
      ensures state == Merge(old(state), p)
      ensures outbox == old(outbox) + [Updated(state)]
    {
      state := Merge(state, p);
      outbox := outbox + [Updated(state)];
    }

    /** `bumpIntensity(amount = 0.35)` */
    method BumpIntensity(amount: real := 0.35)
      modifies this
      ensures state == AppState.BumpIntensity(old(state), amount)
      ensures state.visuals.intensity <= 1.0
      ensures outbox == old(outbox) + [Updated(state)]
    {
      SetState(BumpIntensityPatch(state, amount));
    }

    /** `cyclePalette(step = 1)`, with `Date.now()` passed as `now` */
    method CyclePalette(now: int, step: int := 1)
      modifies this
      ensures state == AppState.CyclePalette(old(state), now, step)
      ensures state.visuals.intensity == old(state).visuals.intensity
      ensures outbox == old(outbox) + [Updated(state)]
    {
      SetState(CyclePalettePatch(state, step, now));
    }

    /** `toggleCamera(enabled)` */
    method ToggleCamera(enabled: bool)
      modifies this
      ensures state == old(state).(camera := Camera(enabled))
      ensures outbox == old(outbox) + [Updated(state)]
    {
      SetState(ToggleCameraPatch(state, enabled));
    }

    /** `setTheme(theme)` */
    method SetTheme(theme: Theme)
      modifies this
      ensures state == old(state).(theme := theme)
      ensures outbox == old(outbox) + [Updated(state)]
    {
      SetState(ThemePatch(theme));
    }

    /** `setIndividualLayer(layer, enabled)` */
    method SetIndividualLayer(layer: Part, enabled: bool)
      modifies this
      ensures state == AppState.SetIndividualLayer(old(state), layer, enabled)
      ensures outbox == old(outbox) + [Updated(state)]
    {
      SetState(IndividualLayerPatch(state, layer, enabled));
    }
  }
}
