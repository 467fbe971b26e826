/**
 * The audio transport flags of lib/audio/transport.ts. Tone.js itself is an opaque
 * effect: `toneOk` says whether the `Tone.start()` of `initTransport` resolves, and a
 * `StartOutcome` says the same of each of the two stages of `startTransport` (false: the
 * stage throws, and the operation rethrows).
 */
module Transport {
  import opened Wrappers
  import opened AppState
  import Store

  datatype Flags = Flags(isInitialized: bool, isStarted: bool)

  const Off: Flags := Flags(false, false)

  /** The transport never runs before it has been initialised. */
  predicate Consistent(f: Flags) {
    f.isStarted ==> f.isInitialized
  }

  /** `initTransport()`: the new flags and whether the call resolved. */
  function InitNext(f: Flags, toneOk: bool): (r: (Flags, bool))
    ensures r.1 ==> r.0.isInitialized
    ensures !r.1 ==> r.0 == f
    ensures f.isInitialized ==> r == (f, true)
    ensures Consistent(f) ==> Consistent(r.0)
    ensures !f.isInitialized && r.1 ==> !r.0.isStarted
  {
    if f.isInitialized then (f, true)
    else if toneOk then (Flags(true, false), true)
    else (f, false)
  }

  /**
   * The outcomes of the Tone.js calls of one `startTransport()`: `initOk` for the
   * `initTransport()` it makes when not yet initialised, `startOk` for the later
   * `Tone.start()` / `Tone.Transport.start()`.
   */
  datatype StartOutcome = StartOutcome(initOk: bool, startOk: bool)

  /** Every Tone.js call resolves. */
  const AllOk: StartOutcome := StartOutcome(true, true)

  /**
   * `startTransport()`: initialises first when needed; the new flags and whether it
   * resolved. A failure after a successful initialisation leaves the transport initialised.
   */
  function StartNext(f: Flags, t: StartOutcome): (r: (Flags, bool))
    ensures f.isStarted ==> r == (f, true)
    ensures !f.isStarted ==> (r.1 <==> (f.isInitialized || t.initOk) && t.startOk)
    ensures r.1 ==> r.0.isStarted
    ensures r.1 && Consistent(f) ==> r.0 == Flags(true, true)
    ensures !r.1 ==> !r.0.isStarted && (r.0.isInitialized <==> f.isInitialized || t.initOk)
    ensures Consistent(f) ==> Consistent(r.0)
  {
    if f.isStarted then (f, true)
    else if !f.isInitialized && !t.initOk then (f, false)
    else if t.startOk then (Flags(true, true), true)
    else (Flags(true, false), false)
  }

  /** A start that is not yet running is `initTransport` followed by the start stage. */
  lemma StartIsInitThenStart(f: Flags, t: StartOutcome)
    requires !f.isStarted
    ensures var (g, inited) := InitNext(f, t.initOk);
            StartNext(f, t) == if !inited then (f, false) else (g.(isStarted := t.startOk), t.startOk)
  {}

  /** A start that fails after `initTransport` succeeded keeps the transport initialised. */
  lemma PartialStartKeepsInit()
    ensures StartNext(Off, StartOutcome(true, false)) == (Flags(true, false), false)
  {}

  /** `stopTransport()`: clears `isStarted` only when it was set. */
  function StopNext(f: Flags): (r: Flags)
    ensures !r.isStarted
    ensures r.isInitialized == f.isInitialized
    ensures !f.isStarted ==> r == f
  {
    if f.isStarted then f.(isStarted := false) else f
  }

  /** Starting twice is starting once. */
  lemma StartIdempotent(f: Flags, a: StartOutcome, b: StartOutcome)
    requires StartNext(f, a).1
    ensures StartNext(StartNext(f, a).0, b) == StartNext(f, a)
  {}

  /** A stop after a successful start leaves the transport initialised and stopped. */
  lemma StartThenStop(f: Flags, t: StartOutcome)
    requires Consistent(f) && StartNext(f, t).1
    ensures StopNext(StartNext(f, t).0) == Flags(true, false)
  {}

  /** `Math.max(60, Math.min(180, bpm))` */
  function ClampBpm(bpm: real): (r: real)
    ensures 60.0 <= r <= 180.0
    ensures 60.0 <= bpm <= 180.0 ==> r == bpm
    ensures bpm < 60.0 ==> r == 60.0
    ensures bpm > 180.0 ==> r == 180.0
  {
    if bpm > 180.0 then 180.0 else if bpm < 60.0 then 60.0 else bpm
  }

  /** Clamping is idempotent. */
  lemma ClampBpmIdempotent(bpm: real)
    ensures ClampBpm(ClampBpm(bpm)) == ClampBpm(bpm)
  {}

  class Transport {
    var flags: Flags

    constructor ()
      ensures flags == Off
    {
      flags := Off;
    }

    /** `initTransport()`; `ok` is false when it throws. */
    method Init(toneOk: bool) returns (ok: bool)
      modifies this
      ensures (flags, ok) == InitNext(old(flags), toneOk)
    {
      if flags.isInitialized {
        return true;
      }
      if toneOk {
        flags := Flags(true, false);
        ok := true;
      } else {
        ok := false;
      }
    }

    /** `startTransport()`; `ok` is false when it throws. */
    method Start(t: StartOutcome) returns (ok: bool)
      modifies this
      ensures (flags, ok) == StartNext(old(flags), t)
    {
      if flags.isStarted {
        return true;
      }
      if !flags.isInitialized {
        ok := Init(t.initOk);
        if !ok {
          return false;
        }
      }
      if t.startOk {
        flags := flags.(isStarted := true);
        ok := true;
      } else {
        ok := false;
      }
    }

    /** `stopTransport()` */
    method Stop()
      modifies this
      ensures flags == StopNext(old(flags))
    {
      if flags.isStarted {
        flags := flags.(isStarted := false);
      }
    }

    /**
     * `setBpm(bpm)`: ramps Tone's tempo only when initialised (`rampedTo`), and stores
     * the clamped value in the application state either way.
     */
    method SetBpm(store: Store.Store, bpm: real) returns (rampedTo: Option<real>)
      modifies store
      ensures rampedTo == if flags.isInitialized then Some(ClampBpm(bpm)) else None
      ensures store.state == old(store.state).(bpm := ClampBpm(bpm))
      ensures store.outbox == old(store.outbox) + [Store.Updated(store.state)]
    {
      var clamped := ClampBpm(bpm);
      rampedTo := if flags.isInitialized then Some(clamped) else None;
      store.SetState(NoChange.(bpm := Some(clamped)));
    }
  }
}
