/**
 * The application event vocabulary and the publish/subscribe bus of lib/eventBus.ts.
 * Listeners are opaque identities; the bus keeps them in a JavaScript `Set`, whose
 * iteration order is insertion order and which never holds an element twice.
 */
module Events {
  import opened Wrappers
  import AppState

  /** `AppEventType` */
  datatype EventType =
    | GestureRaiseRight | GestureRaiseLeft | GestureWaveRight | GestureWaveLeft | GestureHalt
    | GestureFlickRightUp | GestureFlickRightDown
    | VoiceStart | VoiceStop | VoiceFaster | VoiceSlower
    | VoiceMelodyOn | VoiceMelodyOff
    | VoiceDrumsOn | VoiceDrumsOff
    | VoiceChordsOn | VoiceChordsOff
    | VoiceLeadOn | VoiceLeadOff
    | VoiceBassOn | VoiceBassOff
    | VoiceKickOn | VoiceKickOff
    | VoiceSnareOn | VoiceSnareOff
    | VoiceHatsOn | VoiceHatsOff
    | UiSettingsOpen | UiSettingsClose
    | UiAboutOpen | UiAboutClose
    | UiStart | UiThemeClub | UiThemeDefault
    | UiVisualsOn | UiVisualsOff
    | VisBurst | VisPulse
    | BeatPulse
    | StateUpdated

  /** The event's `type` string. */
  function Name(t: EventType): string {
    match t
    case GestureRaiseRight => "gesture.raiseRight"
    case GestureRaiseLeft => "gesture.raiseLeft"
    case GestureWaveRight => "gesture.waveRight"
    case GestureWaveLeft => "gesture.waveLeft"
    case GestureHalt => "gesture.halt"
    case GestureFlickRightUp => "gesture.flickRightUp"
    case GestureFlickRightDown => "gesture.flickRightDown"
    case VoiceStart => "voice.start"
    case VoiceStop => "voice.stop"
    case VoiceFaster => "voice.faster"
    case VoiceSlower => "voice.slower"
    case VoiceMelodyOn => "voice.melody.on"
    case VoiceMelodyOff => "voice.melody.off"
    case VoiceDrumsOn => "voice.drums.on"
    case VoiceDrumsOff => "voice.drums.off"
    case VoiceChordsOn => "voice.chords.on"
    case VoiceChordsOff => "voice.chords.off"
    case VoiceLeadOn => "voice.lead.on"
    case VoiceLeadOff => "voice.lead.off"
    case VoiceBassOn => "voice.bass.on"
    case VoiceBassOff => "voice.bass.off"
    case VoiceKickOn => "voice.kick.on"
    case VoiceKickOff => "voice.kick.off"
    case VoiceSnareOn => "voice.snare.on"
    case VoiceSnareOff => "voice.snare.off"
    case VoiceHatsOn => "voice.hats.on"
    case VoiceHatsOff => "voice.hats.off"
    case UiSettingsOpen => "ui.settings.open"
    case UiSettingsClose => "ui.settings.close"
    case UiAboutOpen => "ui.about.open"
    case UiAboutClose => "ui.about.close"
    case UiStart => "ui.start"
    case UiThemeClub => "ui.theme.club"
    case UiThemeDefault => "ui.theme.default"
    case UiVisualsOn => "ui.visuals.on"
    case UiVisualsOff => "ui.visuals.off"
    case VisBurst => "vis.burst"
    case VisPulse => "vis.pulse"
    case BeatPulse => "beat.pulse"
    case StateUpdated => "state.updated"
  }

  /** `event.type.startsWith("gesture.")` */
  predicate IsGesture(t: EventType) {
    "gesture." <= Name(t)
  }

  /** Exactly the seven `gesture.*` constructors pass the prefix test. */
  lemma IsGestureExactly(t: EventType)
    ensures IsGesture(t) <==> t in {GestureRaiseRight, GestureRaiseLeft, GestureWaveRight, GestureWaveLeft,
                                    GestureHalt, GestureFlickRightUp, GestureFlickRightDown}
  {
    match t
    case GestureRaiseRight => {}
    case GestureRaiseLeft => {}
    case GestureWaveRight => {}
    case GestureWaveLeft => {}
    case GestureHalt => {}
    case GestureFlickRightUp => {}
    case GestureFlickRightDown => {}
    case _ => {
      assert Name(t)[0] != 'g';
    }
  }

  /** The payload fields that some consumer reads. */
  datatype Payload =
    | NoPayload
      /** `vis.pulse` carries an optional `amount`. */
    | Pulse(amount: Option<real>)
      /** `state.updated` carries a snapshot `{ ...state }`. */
    | Snapshot(state: AppState.State)
      /** gesture events carry the firing time. */
    | Stamped(timestamp: int)
      /** voice-routed events carry the normalised transcript and the phrase that matched. */
    | Transcript(transcript: string, matchedPhrase: string, manual: bool)

  datatype AppEvent = AppEvent(kind: EventType, payload: Payload)

  /** An event published as `publish({ type })` with no payload. */
  function Bare(t: EventType): AppEvent { AppEvent(t, NoPayload) }

  /** The identity of a subscribed function. */
  type ListenerId = nat

  /** The listener sequence with `fn` removed (`Set.delete`). */
  function Without(ls: seq<ListenerId>, fn: ListenerId): (r: seq<ListenerId>)
    ensures forall x :: x in r <==> x in ls && x != fn
    ensures |r| <= |ls|
  {
    if ls == [] then []
    else if ls[0] == fn then Without(ls[1..], fn)
    else [ls[0]] + Without(ls[1..], fn)
  }

  predicate NoDuplicates(ls: seq<ListenerId>) {
    forall i, j :: 0 <= i < j < |ls| ==> ls[i] != ls[j]
  }

  /** Removing a listener keeps the others in their relative order and distinct. */
  lemma {:induction false} WithoutKeepsDistinct(ls: seq<ListenerId>, fn: ListenerId)
    requires NoDuplicates(ls)
    ensures NoDuplicates(Without(ls, fn))
  {
    if ls != [] {
      WithoutKeepsDistinct(ls[1..], fn);
      var rest := Without(ls[1..], fn);
      assert forall x :: x in rest ==> x in ls[1..];
      assert ls[0] !in ls[1..];
    }
  }

  /** Removing an absent listener changes nothing. */
  lemma {:induction false} WithoutAbsent(ls: seq<ListenerId>, fn: ListenerId)
    requires fn !in ls
    ensures Without(ls, fn) == ls
  {
    if ls != [] {
      WithoutAbsent(ls[1..], fn);
    }
  }

  /**
   * The listeners that receive one publish, in order: `for (const fn of listeners) fn(e)`
   * has no try/catch, so delivery stops right after the first listener that throws.
   */
  function Delivery(ls: seq<ListenerId>, throwing: set<ListenerId>): (r: seq<ListenerId>)
    ensures |r| <= |ls| && r == ls[..|r|]
    ensures (forall x :: x in ls ==> x !in throwing) ==> r == ls
    ensures r != ls ==> r != [] && r[|r| - 1] in throwing
    ensures forall k :: 0 <= k < |r| - 1 ==> r[k] !in throwing
  {
    if ls == [] then []
    else if ls[0] in throwing then [ls[0]]
    else [ls[0]] + Delivery(ls[1..], throwing)
  }

  /** Delivery reaches the first throwing listener and stops there. */
  lemma {:induction false} DeliveryStopsAtThrower(ls: seq<ListenerId>, throwing: set<ListenerId>, i: nat)
    requires i < |ls| && ls[i] in throwing
    requires forall k :: 0 <= k < i ==> ls[k] !in throwing
    ensures Delivery(ls, throwing) == ls[..i + 1]
  {
    if i > 0 {
      DeliveryStopsAtThrower(ls[1..], throwing, i - 1);
      assert ls[1..][..i] == ls[1..i + 1];
      assert ls[..i + 1] == [ls[0]] + ls[1..i + 1];
    }
  }

  /** The module-level `listeners` set of the bus. */
  class EventBus {
    var listeners: seq<ListenerId>

    ghost predicate Valid()
      reads this
    {
      NoDuplicates(listeners)
    }

    constructor ()
      ensures Valid() && listeners == []
    {
      listeners := [];
    }

    /** `subscribe(fn)`: `Set.add`, so a second subscription of `fn` stores nothing new. */
    method Subscribe(fn: ListenerId)
      requires Valid()
      modifies this
      ensures Valid()
      ensures listeners == if fn in old(listeners) then old(listeners) else old(listeners) + [fn]
      ensures fn in listeners
    {
      if fn !in listeners {
        listeners := listeners + [fn];
      }
    }

    /** The function returned by `subscribe(fn)`: `Set.delete(fn)`, reporting whether it was present. */
    method Unsubscribe(fn: ListenerId) returns (removed: bool)
      requires Valid()
      modifies this
      ensures Valid()
      ensures removed == (fn in old(listeners))
      ensures listeners == Without(old(listeners), fn)
      ensures forall x :: x in listeners <==> x in old(listeners) && x != fn
    {
      removed := fn in listeners;
      WithoutKeepsDistinct(listeners, fn);
      listeners := Without(listeners, fn);
    }

    /**
     * `publish(e)`: calls each current listener once, in insertion order. `throwing` names
     * the listeners that throw on this event; the exception escapes `publish` and the
     * later listeners are not called.
     */
    method Publish(e: AppEvent, throwing: set<ListenerId>) returns (delivered: seq<ListenerId>, threw: bool)
      requires Valid()
      ensures delivered == Delivery(listeners, throwing)
      ensures threw <==> exists x :: x in listeners && x in throwing
    {
      delivered := [];
      threw := false;
      var i := 0;
      while i < |listeners|
        invariant 0 <= i <= |listeners|
        invariant delivered == listeners[..i]
        invariant forall k :: 0 <= k < i ==> listeners[k] !in throwing
      {
        var fn := listeners[i];
        delivered := delivered + [fn];
        if fn in throwing {
          threw := true;
          DeliveryStopsAtThrower(listeners, throwing, i);
          return;
        }
        i := i + 1;
      }
      assert listeners[..i] == listeners;
    }
  }
}
