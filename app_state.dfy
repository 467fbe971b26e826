/**
 * The application state record of lib/state.ts and its pure setters.
 * `setState` is a shallow merge (`Object.assign`): a partial record (`Patch`)
 * replaces exactly the top-level fields it names.
 */
module AppState {
  import opened Wrappers

  datatype Layers = Layers(drums: bool, melody: bool)

  /** The keys of `IndividualLayers`. */
  datatype Part = Lead | Chords | Bass | Kick | Snare | Hats

  datatype IndividualLayers = IndividualLayers(lead: bool, chords: bool, bass: bool, kick: bool, snare: bool, hats: bool)
  {
    function Get(p: Part): bool {
      match p
      case Lead => lead
      case Chords => chords
      case Bass => bass
      case Kick => kick
      case Snare => snare
      case Hats => hats
    }

    /** `{ ...layers, [p]: on }` */
    function With(p: Part, on: bool): (r: IndividualLayers)
      ensures r.Get(p) == on
      ensures forall q :: q != p ==> r.Get(q) == Get(q)
    {
      match p
      case Lead => this.(lead := on)
      case Chords => this.(chords := on)
      case Bass => this.(bass := on)
      case Kick => this.(kick := on)
      case Snare => this.(snare := on)
      case Hats => this.(hats := on)
    }
  }

  datatype Visuals = Visuals(paletteIndex: int, intensity: real, lastBurstAt: int)
  datatype Camera = Camera(enabled: bool)
  datatype Theme = Default | Club

  datatype State = State(
    bpm: real,
    isPlaying: bool,
    layers: Layers,
    individualLayers: IndividualLayers,
    visuals: Visuals,
    camera: Camera,
    theme: Theme)

  /** The initial value of the module-level `state` object. */
  const Initial: State := State(
    120.0, false,
    Layers(false, false),
    IndividualLayers(false, false, false, false, false, false),
    Visuals(0, 0.25, 0),
    Camera(false),
    Club)

  /** A `Partial<AppState>`: `None` means the key is absent from the object literal. */
  datatype Patch = Patch(
    bpm: Option<real>,
    isPlaying: Option<bool>,
    layers: Option<Layers>,
    individualLayers: Option<IndividualLayers>,
    visuals: Option<Visuals>,
    camera: Option<Camera>,
    theme: Option<Theme>)

  const NoChange: Patch := Patch(None, None, None, None, None, None, None)

  /** `Object.assign(state, p)`: every key present in `p` overwrites, every other key is kept. */
  function Merge(s: State, p: Patch): State {
    State(
      p.bpm.GetOr(s.bpm),
      p.isPlaying.GetOr(s.isPlaying),
      p.layers.GetOr(s.layers),
      p.individualLayers.GetOr(s.individualLayers),
      p.visuals.GetOr(s.visuals),
      p.camera.GetOr(s.camera),
      p.theme.GetOr(s.theme))
  }

  /** The patch whose keys are those of `p` and `q`, with `q` winning on a shared key. */
  function Overlay(p: Patch, q: Patch): Patch {
    Patch(
      if q.bpm.Some? then q.bpm else p.bpm,
      if q.isPlaying.Some? then q.isPlaying else p.isPlaying,
      if q.layers.Some? then q.layers else p.layers,
      if q.individualLayers.Some? then q.individualLayers else p.individualLayers,
      if q.visuals.Some? then q.visuals else p.visuals,
      if q.camera.Some? then q.camera else p.camera,
      if q.theme.Some? then q.theme else p.theme)
  }

  /** Merging an empty partial changes nothing. */
  lemma MergeNoChange(s: State)
    ensures Merge(s, NoChange) == s
  {}

  /** Two successive `setState` calls are one call with the combined partial. */
  lemma MergeSequential(s: State, p: Patch, q: Patch)
    ensures Merge(Merge(s, p), q) == Merge(s, Overlay(p, q))
  {}

  /** Re-applying the same partial is idempotent. */
  lemma MergeIdempotent(s: State, p: Patch)
    ensures Merge(Merge(s, p), p) == Merge(s, p)
  {}

  function Min(a: real, b: real): real { if a <= b then a else b }

  /**
   * JavaScript's `%` on integers: the remainder takes the sign of the dividend
   * (Dafny's `%` is Euclidean and never negative).
   */
  function JsRem(a: int, b: int): (r: int)
    requires b > 0
    ensures a >= 0 ==> 0 <= r < b
    ensures a < 0 ==> -b < r <= 0
  {
    if a >= 0 then a % b else -((-a) % b)
  }

  /** `bumpIntensity(amount = 0.35)` */
  function BumpIntensity(s: State, amount: real := 0.35): (r: State)
    ensures r.visuals.intensity <= 1.0
    ensures r.visuals.intensity == Min(1.0, s.visuals.intensity + amount)
    ensures s.visuals.intensity + amount <= 1.0 ==> r.visuals.intensity == s.visuals.intensity + amount
    ensures r == s.(visuals := s.visuals.(intensity := r.visuals.intensity))
  {
    Merge(s, BumpIntensityPatch(s, amount))
  }

  /** The partial that `bumpIntensity` passes to `setState`. */
  function BumpIntensityPatch(s: State, amount: real): Patch {
    NoChange.(visuals := Some(s.visuals.(intensity := Min(1.0, s.visuals.intensity + amount))))
  }

  /** There is no lower clamp: a negative amount can drive the intensity below zero. */
  lemma BumpIntensityHasNoLowerClamp()
    ensures BumpIntensity(Initial, -1.0).visuals.intensity == -0.75
  {}

  /** `cyclePalette(step = 1)` at wall-clock time `now`. */
  function CyclePalette(s: State, now: int, step: int := 1): (r: State)
    ensures s.visuals.paletteIndex + step >= 0 ==> 0 <= r.visuals.paletteIndex < 5
    ensures (s.visuals.paletteIndex + step - r.visuals.paletteIndex) % 5 == 0
    ensures r.visuals.lastBurstAt == now
    ensures r == s.(visuals := Visuals(r.visuals.paletteIndex, s.visuals.intensity, now))
  {
    Merge(s, CyclePalettePatch(s, step, now))
  }

  /** The partial that `cyclePalette` passes to `setState`. */
  function CyclePalettePatch(s: State, step: int, now: int): Patch {
    NoChange.(visuals := Some(s.visuals.(paletteIndex := JsRem(s.visuals.paletteIndex + step, 5), lastBurstAt := now)))
  }

  /** A negative sum keeps JavaScript's negative remainder. */
  lemma CyclePaletteNegative()
    ensures CyclePalette(Initial, 7, -1).visuals.paletteIndex == -1
  {}

  /** Called without arguments, the two visual setters bump by 0.35 and step by one palette. */
  lemma VisualDefaults(now: int)
    ensures BumpIntensity(Initial).visuals.intensity == 0.6
    ensures CyclePalette(Initial, now).visuals.paletteIndex == 1
  {}

  /** `toggleCamera(enabled)` */
  function ToggleCamera(s: State, enabled: bool): (r: State)
    ensures r == s.(camera := Camera(enabled))
  {
    Merge(s, ToggleCameraPatch(s, enabled))
  }

  /** The partial that `toggleCamera` passes to `setState`. */
  function ToggleCameraPatch(s: State, enabled: bool): Patch {
    NoChange.(camera := Some(s.camera.(enabled := enabled)))
  }

  /** `setTheme(theme)` */
  function SetTheme(s: State, theme: Theme): (r: State)
    ensures r == s.(theme := theme)
  {
    Merge(s, ThemePatch(theme))
  }

  /** The partial that `setTheme` passes to `setState`. */
  function ThemePatch(theme: Theme): Patch {
    NoChange.(theme := Some(theme))
  }

  /** `setIndividualLayer(layer, enabled)` */
  function SetIndividualLayer(s: State, layer: Part, enabled: bool): (r: State)
    ensures r.individualLayers.Get(layer) == enabled
    ensures forall q :: q != layer ==> r.individualLayers.Get(q) == s.individualLayers.Get(q)
    ensures r == s.(individualLayers := r.individualLayers)
  {
    Merge(s, IndividualLayerPatch(s, layer, enabled))
  }

  /** The partial that `setIndividualLayer` passes to `setState`. */
  function IndividualLayerPatch(s: State, layer: Part, enabled: bool): Patch {
    NoChange.(individualLayers := Some(s.individualLayers.With(layer, enabled)))
  }
}
