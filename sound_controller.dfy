/**
 * The audio event router of lib/audio/soundController.ts. Until the audio engine is
 * ready every bus event is queued in `backlog`; once ready, events are routed to the
 * transport, to the part setters of the instruments module (whose Tone.js effects are
 * recorded in `calls`, and which record each part in the application state) and to the
 * application state. Each event is handled to completion before the next one: the
 * interleaving of the source's `await`s is not modelled.
 */
module SoundController {
  import opened Wrappers
  import opened AppState
  import opened Events
  import opened Transport
  import Store

  /** The effects on Tone.js that have no state of their own here. */
  datatype AudioCall =
    | LoopMute(part: Part, mute: bool)   // `<part>Loop.mute = !on` in setLead .. setHats
    | Unmute                             // Tone.Destination.mute = false
    | RampBpm(bpm: real)                 // Tone.Transport.bpm.rampTo

  /**
   * Everything an audio handler can change. `instrumentsReady` is the `isInitialized` flag
   * of the instruments module, which every part setter consults.
   */
  datatype World = World(flags: Flags, instrumentsReady: bool, state: State, outbox: seq<AppEvent>, calls: seq<AudioCall>)

  const SoundListener: ListenerId := 1

  function SetStateW(w: World, p: Patch): World {
    w.(state := Merge(w.state, p), outbox := w.outbox + [Store.Updated(Merge(w.state, p))])
  }

  function SetBpmW(w: World, bpm: real): World {
    var w1 := if w.flags.isInitialized then w.(calls := w.calls + [RampBpm(ClampBpm(bpm))]) else w;
    SetStateW(w1, NoChange.(bpm := Some(ClampBpm(bpm))))
  }

  /**
   * A part setter of the instruments module (`setLead` .. `setHats`): before the instruments
   * are initialised it only warns; afterwards it (un)mutes the part's loop and records the
   * part with `setIndividualLayer`, which publishes a snapshot.
   */
  function SetPartW(w: World, p: Part, on: bool): World {
    if !w.instrumentsReady then w
    else
      var s := SetIndividualLayer(w.state, p, on);
      w.(state := s, outbox := w.outbox + [Store.Updated(s)], calls := w.calls + [LoopMute(p, !on)])
  }

  /** `toggleMelody(on)`: lead, then chords. */
  function ToggleMelodyW(w: World, on: bool): World {
    SetPartW(SetPartW(w, Lead, on), Chords, on)
  }

  /** `toggleDrums(on)`: kick, snare, then hats. */
  function ToggleDrumsW(w: World, on: bool): World {
    SetPartW(SetPartW(SetPartW(w, Kick, on), Snare, on), Hats, on)
  }

  /**
   * `handleStart()`: a failed start is caught and logged; only the flags it left behind
   * (initialised when `initTransport` had succeeded) change.
   */
  function HandleStartW(w: World, tone: StartOutcome): World {
    var (f, ok) := StartNext(w.flags, tone);
    if !ok then w.(flags := f)
    else
      var w1 := w.(flags := f, calls := w.calls + [Unmute]);
      SetStateW(SetBpmW(w1, w1.state.bpm), NoChange.(isPlaying := Some(true)))
  }

  /** `handleStop()` */
  function HandleStopW(w: World): World {
    SetStateW(w.(flags := StopNext(w.flags)), NoChange.(isPlaying := Some(false)))
  }

  /** `setMelody(on)`: starts the transport first when enabling; a failure is caught. */
  function SetMelodyW(w: World, on: bool, tone: StartOutcome): World {
    var (f, ok) := if on then StartNext(w.flags, tone) else (w.flags, true);
    if !ok then w.(flags := f)
    else
      var w1 := ToggleMelodyW(w.(flags := f), on);
      SetStateW(w1, NoChange.(layers := Some(w1.state.layers.(melody := on))))
  }

  /** `setDrums(on)` */
  function SetDrumsW(w: World, on: bool, tone: StartOutcome): World {
    var (f, ok) := if on then StartNext(w.flags, tone) else (w.flags, true);
    if !ok then w.(flags := f)
    else
      var w1 := ToggleDrumsW(w.(flags := f), on);
      SetStateW(w1, NoChange.(layers := Some(w1.state.layers.(drums := on))))
  }

  /**
   * A live `voice.<part>.on`: `await startTransport()` then the part's setter. The
   * subscriber has no try/catch here, so a failed start skips the setter.
   */
  function PartOnW(w: World, p: Part, tone: StartOutcome): World {
    var (f, ok) := StartNext(w.flags, tone);
    if ok then SetPartW(w.(flags := f), p, true) else w.(flags := f)
  }

  /** A live `voice.<part>.off` only disables the part. */
  function PartOffW(w: World, p: Part): World {
    SetPartW(w, p, false)
  }

  /** The switch of the live subscriber (after the readiness and gesture checks). */
  function LiveW(w: World, e: AppEvent, tone: StartOutcome): World {
    if IsGesture(e.kind) then w
    else match e.kind
      case VoiceStart => HandleStartW(w, tone)
      case VoiceStop => HandleStopW(w)
      case VoiceChordsOn => PartOnW(w, Chords, tone)
      case VoiceChordsOff => PartOffW(w, Chords)
      case VoiceLeadOn => PartOnW(w, Lead, tone)
      case VoiceLeadOff => PartOffW(w, Lead)
      case VoiceBassOn => PartOnW(w, Bass, tone)
      case VoiceBassOff => PartOffW(w, Bass)
      case VoiceKickOn => PartOnW(w, Kick, tone)
      case VoiceKickOff => PartOffW(w, Kick)
      case VoiceSnareOn => PartOnW(w, Snare, tone)
      case VoiceSnareOff => PartOffW(w, Snare)
      case VoiceHatsOn => PartOnW(w, Hats, tone)
      case VoiceHatsOff => PartOffW(w, Hats)
      case VoiceMelodyOn => SetMelodyW(w, true, tone)
      case VoiceMelodyOff => SetMelodyW(w, false, tone)
      case VoiceDrumsOn => SetDrumsW(w, true, tone)
      case VoiceDrumsOff => SetDrumsW(w, false, tone)
      case _ => w
  }

  /** The switch of the backlog flush: only transport and legacy layer events. */
  function BacklogW(w: World, e: AppEvent, tone: StartOutcome): World {
    if IsGesture(e.kind) then w
    else match e.kind
      case VoiceStart => HandleStartW(w, tone)
      case VoiceStop => HandleStopW(w)
      case VoiceMelodyOn => SetMelodyW(w, true, tone)
      case VoiceMelodyOff => SetMelodyW(w, false, tone)
      case VoiceDrumsOn => SetDrumsW(w, true, tone)
      case VoiceDrumsOff => SetDrumsW(w, false, tone)
      case _ => w
  }

  /**
   * The flush loop over the drained backlog, in FIFO order; `tones[k]` is how the Tone.js
   * calls made while replaying `es[k]` resolve.
   */
  function FlushW(w: World, es: seq<AppEvent>, tones: seq<StartOutcome>): World
    requires |tones| == |es|
    decreases |es|
  {
    if es == [] then w else FlushW(BacklogW(w, es[0], tones[0]), es[1..], tones[1..])
  }

  lemma FlushCons(w: World, es: seq<AppEvent>, tones: seq<StartOutcome>)
    requires es != [] && |tones| == |es|
    ensures FlushW(w, es, tones) == FlushW(BacklogW(w, es[0], tones[0]), es[1..], tones[1..])
  {}

  /** Gesture events reach no audio handler, live or from the backlog. */
  lemma GesturesIgnored(w: World, e: AppEvent, tone: StartOutcome)
    requires IsGesture(e.kind)
    ensures LiveW(w, e, tone) == w && BacklogW(w, e, tone) == w
  {}

  /** Per-part events are acted on live but dropped from the backlog. */
  lemma BufferedPartEventDropped(w: World, e: AppEvent, tone: StartOutcome)
    requires e.kind in {VoiceChordsOn, VoiceChordsOff, VoiceLeadOn, VoiceLeadOff, VoiceBassOn, VoiceBassOff,
                        VoiceKickOn, VoiceKickOff, VoiceSnareOn, VoiceSnareOff, VoiceHatsOn, VoiceHatsOff}
    ensures BacklogW(w, e, tone) == w
  {}

  /**
   * A live `voice.bass.on` starts the transport, then enables the bass part: with the
   * instruments initialised it unmutes the bass loop and sets `individualLayers.bass` alone,
   * publishing one snapshot; before that only the transport moves. The flush drops it.
   */
  lemma LiveBassOnStartsTransport(w: World, tone: StartOutcome)
    requires Consistent(w.flags) && tone.startOk && (w.flags.isInitialized || tone.initOk)
    ensures var r := LiveW(w, Bare(VoiceBassOn), tone);
            r.flags == Flags(true, true) && r.instrumentsReady == w.instrumentsReady
    ensures var r := LiveW(w, Bare(VoiceBassOn), tone);
            w.instrumentsReady ==>
              r.state == w.state.(individualLayers := w.state.individualLayers.With(Bass, true)) &&
              r.outbox == w.outbox + [Store.Updated(r.state)] && r.calls == w.calls + [LoopMute(Bass, false)]
    ensures !w.instrumentsReady ==> LiveW(w, Bare(VoiceBassOn), tone) == w.(flags := Flags(true, true))
    ensures BacklogW(w, Bare(VoiceBassOn), tone) == w
  {
    assert !IsGesture(VoiceBassOn) by { IsGestureExactly(VoiceBassOn); }
  }

  /** Whether a legacy layer setter gets past its transport start. */
  predicate LayerStarts(w: World, on: bool, tone: StartOutcome) {
    !on || StartNext(w.flags, tone).1
  }

  /**
   * `setMelody` changes `layers` only at `melody`, and the individual layers only at lead
   * and chords, which follow `on` when the instruments are initialised; it publishes a
   * snapshot per setter that acts. A failed start changes only the transport flags.
   */
  lemma SetMelodyOnlyMelody(w: World, on: bool, tone: StartOutcome)
    ensures var r := SetMelodyW(w, on, tone);
            r.state == w.state.(layers := r.state.layers, individualLayers := r.state.individualLayers) &&
            r.state.layers == (if LayerStarts(w, on, tone) then w.state.layers.(melody := on) else w.state.layers)
    ensures var r := SetMelodyW(w, on, tone);
            r.state.individualLayers ==
              (if LayerStarts(w, on, tone) && w.instrumentsReady
               then w.state.individualLayers.(lead := on, chords := on) else w.state.individualLayers)
    ensures |SetMelodyW(w, on, tone).outbox| ==
              |w.outbox| + (if !LayerStarts(w, on, tone) then 0 else if w.instrumentsReady then 3 else 1)
    ensures !LayerStarts(w, on, tone) ==> SetMelodyW(w, on, tone) == w.(flags := StartNext(w.flags, tone).0)
  {}

  /**
   * `setDrums` changes `layers` only at `drums`, and the individual layers only at kick,
   * snare and hats, which follow `on` when the instruments are initialised.
   */
  lemma SetDrumsOnlyDrums(w: World, on: bool, tone: StartOutcome)
    ensures var r := SetDrumsW(w, on, tone);
            r.state == w.state.(layers := r.state.layers, individualLayers := r.state.individualLayers) &&
            r.state.layers == (if LayerStarts(w, on, tone) then w.state.layers.(drums := on) else w.state.layers)
    ensures var r := SetDrumsW(w, on, tone);
            r.state.individualLayers ==
              (if LayerStarts(w, on, tone) && w.instrumentsReady
               then w.state.individualLayers.(kick := on, snare := on, hats := on) else w.state.individualLayers)
    ensures |SetDrumsW(w, on, tone).outbox| ==
              |w.outbox| + (if !LayerStarts(w, on, tone) then 0 else if w.instrumentsReady then 4 else 1)
    ensures !LayerStarts(w, on, tone) ==> SetDrumsW(w, on, tone) == w.(flags := StartNext(w.flags, tone).0)
  {}

  /**
   * `r` extends `w`'s call log with calls none of which touches the bass loop, and keeps
   * the bass layer of the state.
   */
  predicate LeavesBass(w: World, r: World) {
    |w.calls| <= |r.calls| && r.calls[..|w.calls|] == w.calls &&
    (forall k :: |w.calls| <= k < |r.calls| ==> !(r.calls[k].LoopMute? && r.calls[k].part == Bass)) &&
    r.state.individualLayers.bass == w.state.individualLayers.bass
  }

  lemma LeavesBassTrans(a: World, b: World, c: World)
    requires LeavesBass(a, b) && LeavesBass(b, c)
    ensures LeavesBass(a, c)
  {
    assert c.calls[..|a.calls|] == c.calls[..|b.calls|][..|a.calls|];
    forall k | |a.calls| <= k < |c.calls|
      ensures !(c.calls[k].LoopMute? && c.calls[k].part == Bass)
    {
      if k < |b.calls| {
        assert c.calls[k] == c.calls[..|b.calls|][k];
      }
    }
  }

  lemma SetPartLeavesBass(w: World, p: Part, on: bool)
    requires p != Bass
    ensures LeavesBass(w, SetPartW(w, p, on))
  {}

  /**
   * A replayed event never touches the bass part: the flush has no per-part cases and the
   * legacy setters reach lead, chords, kick, snare and hats only.
   */
  lemma BufferedEventLeavesBass(w: World, e: AppEvent, tone: StartOutcome)
    ensures LeavesBass(w, BacklogW(w, e, tone))
  {
    if !IsGesture(e.kind) {
      match e.kind
      case VoiceStart =>
        var (f, ok) := StartNext(w.flags, tone);
        if ok {
          var w1 := w.(flags := f, calls := w.calls + [Unmute]);
          var w2 := SetBpmW(w1, w1.state.bpm);
          assert w2.calls == w.calls + [Unmute] || w2.calls == w.calls + [Unmute, RampBpm(ClampBpm(w1.state.bpm))];
        }
      case VoiceMelodyOn => MelodyLeavesBass(w, true, tone);
      case VoiceMelodyOff => MelodyLeavesBass(w, false, tone);
      case VoiceDrumsOn => DrumsLeavesBass(w, true, tone);
      case VoiceDrumsOff => DrumsLeavesBass(w, false, tone);
      case _ =>
    }
  }

  lemma MelodyLeavesBass(w: World, on: bool, tone: StartOutcome)
    ensures LeavesBass(w, SetMelodyW(w, on, tone))
  {
    var (f, ok) := if on then StartNext(w.flags, tone) else (w.flags, true);
    if ok {
      var w0 := w.(flags := f);
      var a := SetPartW(w0, Lead, on);
      SetPartLeavesBass(w0, Lead, on);
      SetPartLeavesBass(a, Chords, on);
      LeavesBassTrans(w0, a, SetPartW(a, Chords, on));
    }
  }

  lemma DrumsLeavesBass(w: World, on: bool, tone: StartOutcome)
    ensures LeavesBass(w, SetDrumsW(w, on, tone))
  {
    var (f, ok) := if on then StartNext(w.flags, tone) else (w.flags, true);
    if ok {
      var w0 := w.(flags := f);
      var a := SetPartW(w0, Kick, on);
      var b := SetPartW(a, Snare, on);
      SetPartLeavesBass(w0, Kick, on);
      SetPartLeavesBass(a, Snare, on);
      SetPartLeavesBass(b, Hats, on);
      LeavesBassTrans(w0, a, b);
      LeavesBassTrans(w0, b, SetPartW(b, Hats, on));
    }
  }

  /** The whole backlog flush never touches the bass part, whatever was queued. */
  lemma {:induction false} FlushLeavesBass(w: World, es: seq<AppEvent>, tones: seq<StartOutcome>)
    requires |tones| == |es|
    ensures LeavesBass(w, FlushW(w, es, tones))
    decreases |es|
  {
    if es != [] {
      var w1 := BacklogW(w, es[0], tones[0]);
      BufferedEventLeavesBass(w, es[0], tones[0]);
      FlushLeavesBass(w1, es[1..], tones[1..]);
      LeavesBassTrans(w, w1, FlushW(w1, es[1..], tones[1..]));
    }
  }

  /** The flush's effect on the state machine only: a consistent transport stays consistent. */
  lemma {:induction false} FlushKeepsTransportConsistent(w: World, es: seq<AppEvent>, tones: seq<StartOutcome>)
    requires Consistent(w.flags) && |tones| == |es|
    ensures Consistent(FlushW(w, es, tones).flags)
    decreases |es|
  {
    if es != [] {
      BacklogKeepsTransportConsistent(w, es[0], tones[0]);
      FlushKeepsTransportConsistent(BacklogW(w, es[0], tones[0]), es[1..], tones[1..]);
    }
  }

  lemma BacklogKeepsTransportConsistent(w: World, e: AppEvent, tone: StartOutcome)
    requires Consistent(w.flags)
    ensures Consistent(BacklogW(w, e, tone).flags)
  {
    if !IsGesture(e.kind) {
      match e.kind
      case VoiceMelodyOn => LayerKeepsTransportConsistent(w, true, tone);
      case VoiceMelodyOff => LayerKeepsTransportConsistent(w, false, tone);
      case VoiceDrumsOn => LayerKeepsTransportConsistent(w, true, tone);
      case VoiceDrumsOff => LayerKeepsTransportConsistent(w, false, tone);
      case _ =>
    }
  }

  lemma LayerKeepsTransportConsistent(w: World, on: bool, tone: StartOutcome)
    requires Consistent(w.flags)
    ensures Consistent(SetMelodyW(w, on, tone).flags) && Consistent(SetDrumsW(w, on, tone).flags)
  {
    var (f, ok) := if on then StartNext(w.flags, tone) else (w.flags, true);
    if ok {
      var w0 := w.(flags := f);
      assert SetPartW(w0, Lead, on).flags == f;
      assert SetPartW(w0, Kick, on).flags == f;
      assert SetPartW(SetPartW(w0, Kick, on), Snare, on).flags == f;
    }
  }

  class SoundController {
    var isRegistered: bool
    var audioReady: bool
    var backlog: seq<AppEvent>
    var calls: seq<AudioCall>
    /** The `isInitialized` flag of the instruments module. */
    var instrumentsReady: bool
    const transport: Transport
    const store: Store.Store

    ghost function WorldOf(): World
      reads this, transport, store
    {
      World(transport.flags, instrumentsReady, store.state, store.outbox, calls)
    }

    constructor (transport: Transport, store: Store.Store)
      ensures !isRegistered && !audioReady && backlog == [] && calls == [] && !instrumentsReady
      ensures this.transport == transport && this.store == store
    {
      this.transport := transport;
      this.store := store;
      isRegistered, audioReady, backlog, calls, instrumentsReady := false, false, [], [], false;
    }

    /**
     * `registerSoundHandlers()`: subscribes to the bus and starts the audio
     * initialisation (`started`), whose completion is `CompleteAudioInit`. A second
     * call is a no-op.
     */
    method Register(bus: EventBus) returns (started: bool)
      requires bus.Valid()
      modifies this, bus
      ensures bus.Valid()
      ensures started == !old(isRegistered) && isRegistered
      ensures bus.listeners == if old(isRegistered) then old(bus.listeners)
                               else if SoundListener in old(bus.listeners) then old(bus.listeners)
                               else old(bus.listeners) + [SoundListener]
      ensures audioReady == old(audioReady) && backlog == old(backlog) && calls == old(calls)
      ensures instrumentsReady == old(instrumentsReady)
    {
      if isRegistered {
        return false;
      }
      bus.Subscribe(SoundListener);
      isRegistered := true;
      started := true;
    }

    method HandleStart(tone: StartOutcome)
      modifies this, transport, store
      ensures WorldOf() == HandleStartW(old(WorldOf()), tone)
      ensures isRegistered == old(isRegistered) && audioReady == old(audioReady) && backlog == old(backlog)
    {
      var ok := transport.Start(tone);
      if !ok {
        return;
      }
      calls := calls + [Unmute];
      var ramp := transport.SetBpm(store, store.state.bpm);
      if ramp.Some? {
        calls := calls + [RampBpm(ramp.value)];
      }
      store.SetState(NoChange.(isPlaying := Some(true)));
    }

    method HandleStop()
      modifies this, transport, store
      ensures WorldOf() == HandleStopW(old(WorldOf()))
      ensures isRegistered == old(isRegistered) && audioReady == old(audioReady) && backlog == old(backlog)
    {
      transport.Stop();
      store.SetState(NoChange.(isPlaying := Some(false)));
    }

    /** A part setter of the instruments module (`setLead` .. `setHats`). */
    method SetPart(p: Part, on: bool)
      modifies this, store
      ensures WorldOf() == SetPartW(old(WorldOf()), p, on)
      ensures isRegistered == old(isRegistered) && audioReady == old(audioReady) && backlog == old(backlog)
    {
      if !instrumentsReady {
        return;
      }
      calls := calls + [LoopMute(p, !on)];
      store.SetIndividualLayer(p, on);
    }

    /** `toggleMelody(on)` */
    method ToggleMelody(on: bool)
      modifies this, store
      ensures WorldOf() == ToggleMelodyW(old(WorldOf()), on)
      ensures isRegistered == old(isRegistered) && audioReady == old(audioReady) && backlog == old(backlog)
    {
      SetPart(Lead, on);
      SetPart(Chords, on);
    }

    /** `toggleDrums(on)` */
    method ToggleDrums(on: bool)
      modifies this, store
      ensures WorldOf() == ToggleDrumsW(old(WorldOf()), on)
      ensures isRegistered == old(isRegistered) && audioReady == old(audioReady) && backlog == old(backlog)
    {
      SetPart(Kick, on);
      SetPart(Snare, on);
      SetPart(Hats, on);
    }

    method SetMelody(on: bool, tone: StartOutcome)
      modifies this, transport, store
      ensures WorldOf() == SetMelodyW(old(WorldOf()), on, tone)
      ensures isRegistered == old(isRegistered) && audioReady == old(audioReady) && backlog == old(backlog)
    {
      if on {
        var ok := transport.Start(tone);
        if !ok {
          return;
        }
      }
      ToggleMelody(on);
      store.SetState(NoChange.(layers := Some(store.state.layers.(melody := on))));
    }

    method SetDrums(on: bool, tone: StartOutcome)
      modifies this, transport, store
      ensures WorldOf() == SetDrumsW(old(WorldOf()), on, tone)
      ensures isRegistered == old(isRegistered) && audioReady == old(audioReady) && backlog == old(backlog)
    {
      if on {
        var ok := transport.Start(tone);
        if !ok {
          return;
        }
      }
      ToggleDrums(on);
      store.SetState(NoChange.(layers := Some(store.state.layers.(drums := on))));
    }

    method PartOn(p: Part, tone: StartOutcome)
      modifies this, transport, store
      ensures WorldOf() == PartOnW(old(WorldOf()), p, tone)
      ensures isRegistered == old(isRegistered) && audioReady == old(audioReady) && backlog == old(backlog)
    {
      var ok := transport.Start(tone);
      if ok {
        SetPart(p, true);
      }
    }

    method PartOff(p: Part)
      modifies this, store
      ensures WorldOf() == PartOffW(old(WorldOf()), p)
      ensures isRegistered == old(isRegistered) && audioReady == old(audioReady) && backlog == old(backlog)
    {
      SetPart(p, false);
    }

    /** The bus subscriber: queue until ready, then ignore gestures and route the rest. */
    method OnEvent(e: AppEvent, tone: StartOutcome)
      modifies this, transport, store
      ensures !old(audioReady) ==> backlog == old(backlog) + [e] && WorldOf() == old(WorldOf())
      ensures old(audioReady) ==> backlog == old(backlog) && WorldOf() == LiveW(old(WorldOf()), e, tone)
      ensures isRegistered == old(isRegistered) && audioReady == old(audioReady)
    {
      if !audioReady {
        backlog := backlog + [e];
        return;
      }
      if IsGesture(e.kind) {
        return;
      }
      match e.kind {
        case VoiceStart => HandleStart(tone);
        case VoiceStop => HandleStop();
        case VoiceChordsOn => PartOn(Chords, tone);
        case VoiceChordsOff => PartOff(Chords);
        case VoiceLeadOn => PartOn(Lead, tone);
        case VoiceLeadOff => PartOff(Lead);
        case VoiceBassOn => PartOn(Bass, tone);
        case VoiceBassOff => PartOff(Bass);
        case VoiceKickOn => PartOn(Kick, tone);
        case VoiceKickOff => PartOff(Kick);
        case VoiceSnareOn => PartOn(Snare, tone);
        case VoiceSnareOff => PartOff(Snare);
        case VoiceHatsOn => PartOn(Hats, tone);
        case VoiceHatsOff => PartOff(Hats);
        case VoiceMelodyOn => SetMelody(true, tone);
        case VoiceMelodyOff => SetMelody(false, tone);
        case VoiceDrumsOn => SetDrums(true, tone);
        case VoiceDrumsOff => SetDrums(false, tone);
        case _ =>
      }
    }

    /** One event of the flush. */
    method DispatchBuffered(e: AppEvent, tone: StartOutcome)
      modifies this, transport, store
      ensures WorldOf() == BacklogW(old(WorldOf()), e, tone)
      ensures isRegistered == old(isRegistered) && audioReady == old(audioReady) && backlog == old(backlog)
    {
      if IsGesture(e.kind) {
        return;
      }
      match e.kind {
        case VoiceStart => HandleStart(tone);
        case VoiceStop => HandleStop();
        case VoiceMelodyOn => SetMelody(true, tone);
        case VoiceMelodyOff => SetMelody(false, tone);
        case VoiceDrumsOn => SetDrums(true, tone);
        case VoiceDrumsOff => SetDrums(false, tone);
        case _ =>
      }
    }

    /**
     * The continuation of the initialisation started by `Register`: `initTransport()`,
     * then `initInstruments()`. `initInstruments` catches its own failure (`instrumentsOk`
     * false) and only then leaves the instruments uninitialised. Once the transport is up
     * the controller becomes ready and drains the whole backlog (`splice(0)`) in FIFO order.
     * A failed `initTransport` is caught and logged: the controller stays not ready and
     * keeps queueing. `tones` holds one outcome per queued event.
     */
    method CompleteAudioInit(transportOk: bool, instrumentsOk: bool, tones: seq<StartOutcome>)
      requires |tones| == |backlog|
      modifies this, transport, store
      ensures var (f, ok) := InitNext(old(transport.flags), transportOk);
              if ok then
                audioReady && backlog == [] &&
                WorldOf() == FlushW(old(WorldOf()).(flags := f, instrumentsReady := old(instrumentsReady) || instrumentsOk),
                                    old(backlog), tones)
              else
                audioReady == old(audioReady) && backlog == old(backlog) &&
                WorldOf() == old(WorldOf()).(flags := f)
      ensures isRegistered == old(isRegistered)
    {
      var ok := transport.Init(transportOk);
      if !ok {
        return;
      }
      if !instrumentsReady && instrumentsOk {
        instrumentsReady := true;
      }
      audioReady := true;
      FlushBacklog(tones);
    }

    /** The drain of the backlog: `for (const evt of backlog.splice(0))`. */
    method FlushBacklog(tones: seq<StartOutcome>)
      requires |tones| == |backlog|
      modifies this, transport, store
      ensures backlog == [] && WorldOf() == FlushW(old(WorldOf()), old(backlog), tones)
      ensures isRegistered == old(isRegistered) && audioReady == old(audioReady)
    {
      ghost var start := WorldOf();
      var drained := backlog;
      backlog := [];
      var i := 0;
      while i < |drained|
        invariant 0 <= i <= |drained|
        invariant backlog == [] && isRegistered == old(isRegistered) && audioReady == old(audioReady)
        invariant FlushW(start, drained, tones) == FlushW(WorldOf(), drained[i..], tones[i..])
      {
        FlushCons(WorldOf(), drained[i..], tones[i..]);
        assert drained[i..][1..] == drained[i + 1..];
        assert tones[i..][1..] == tones[i + 1..];
        DispatchBuffered(drained[i], tones[i]);
        i := i + 1;
      }
      assert drained[i..] == [] && tones[i..] == [];
    }
  }
}
