/**
 * The voice controller of lib/voice/voiceController.ts: the `VOICE_COMMANDS` phrase table,
 * the first-match router the speech client calls with each accepted utterance, exact-key
 * manual commands, and the `isInitialized` flag.
 */
module Voice {
  import opened Wrappers
  import opened Text
  import opened Events
  import opened Phrases

  /** The table in `Object.entries` order (insertion order), one group per source comment. */
  const TransportCommands: seq<Match> := [
    Match(VoiceStart, "start"), Match(VoiceStart, "play"),
    Match(VoiceStop, "stop"), Match(VoiceStop, "pause"), Match(VoiceStop, "halt")]

  const LayerCommands: seq<Match> := [
    Match(VoiceDrumsOn, "drums on"), Match(VoiceDrumsOff, "drums off"),
    Match(VoiceMelodyOn, "melody on"), Match(VoiceMelodyOff, "melody off")]

  const InstrumentCommands: seq<Match> := [
    Match(VoiceBassOn, "bass on"), Match(VoiceBassOff, "bass off"),
    Match(VoiceBassOn, "sub on"), Match(VoiceBassOff, "sub off"),
    Match(VoiceKickOn, "kick on"), Match(VoiceKickOff, "kick off"),
    Match(VoiceKickOn, "bass drum on"), Match(VoiceKickOff, "bass drum off"),
    Match(VoiceSnareOn, "snare on"), Match(VoiceSnareOff, "snare off"),
    Match(VoiceHatsOn, "hats on"), Match(VoiceHatsOff, "hats off"),
    Match(VoiceHatsOn, "hi-hats on"), Match(VoiceHatsOff, "hi-hats off"),
    Match(VoiceLeadOn, "lead on"), Match(VoiceLeadOff, "lead off"),
    Match(VoiceLeadOn, "synth on"), Match(VoiceLeadOff, "synth off"),
    Match(VoiceChordsOn, "chords on"), Match(VoiceChordsOff, "chords off"),
    Match(VoiceChordsOn, "pads on"), Match(VoiceChordsOff, "pads off")]

  const TempoCommands: seq<Match> := [
    Match(VoiceFaster, "faster"), Match(VoiceFaster, "increase tempo"),
    Match(VoiceSlower, "slower"), Match(VoiceSlower, "decrease tempo")]

  const UiCommands: seq<Match> := [
    Match(UiSettingsOpen, "open settings"), Match(UiSettingsClose, "close settings"),
    Match(UiAboutOpen, "open about"), Match(UiAboutClose, "close about"),
    Match(UiStart, "start conducting"),
    Match(UiThemeClub, "enter club goose"), Match(UiThemeDefault, "exit club goose"),
    Match(UiThemeClub, "club mode"), Match(UiThemeDefault, "default mode"),
    Match(UiThemeDefault, "normal mode"),
    Match(UiVisualsOn, "visuals on"), Match(UiVisualsOff, "visuals off"),
    Match(UiVisualsOn, "show visuals"), Match(UiVisualsOff, "hide visuals"),
    Match(UiVisualsOn, "enable visuals"), Match(UiVisualsOff, "disable visuals")]

  /** The commands before the UI group. */
  const ControlCommands: seq<Match> := TransportCommands + LayerCommands + InstrumentCommands + TempoCommands

  /** `VOICE_COMMANDS` */
  const VoiceCommands: seq<Match> := ControlCommands + UiCommands

  /**
   * The loop of `routeVoiceCommand`: the first entry, in table order, whose phrase equals
   * the text or occurs in it.
   */
  method FirstPhrase(text: string, table: seq<Match>) returns (m: Option<Match>)
    ensures m == FirstMatch(text, table)
  {
    var i := 0;
    while i < |table|
      invariant 0 <= i <= |table|
      invariant forall j :: 0 <= j < i ==> !Contains(text, table[j].phrase)
    {
      var entry := table[i];
      if text == entry.phrase || Contains(text, entry.phrase) {
        if text == entry.phrase {
          ContainsSelf(text);
        }
        assert FirstHit(text, table) == i;
        return Some(entry);
      }
      i := i + 1;
    }
    return None;
  }

  /** What `routeVoiceCommand` publishes for the normalised text and the entry it found. */
  function RouteEvents(text: string, m: Option<Match>): (r: seq<AppEvent>)
    ensures |r| <= 1
    ensures r == [] <==> m.None?
    ensures m.Some? ==> r[0].kind == m.value.event && r[0].payload == Transcript(text, m.value.phrase, false)
  {
    match m
    case Some(e) => [AppEvent(e.event, Transcript(text, e.phrase, false))]
    case None => []
  }

  /**
   * `VOICE_COMMANDS[key]` on the table's own keys: the event of the entry whose phrase is
   * exactly `key`.
   */
  function Lookup(key: string, table: seq<Match>): (r: Option<EventType>)
    ensures r.Some? <==> exists j :: 0 <= j < |table| && table[j].phrase == key
    ensures r.Some? ==> exists j :: 0 <= j < |table| && table[j] == Match(r.value, key)
  {
    if |table| == 0 then None
    else if table[0].phrase == key then Some(table[0].event)
    else
      var r := Lookup(key, table[1..]);
      assert r.Some? ==> exists j :: 1 <= j < |table| && table[j] == Match(r.value, key) by {
        if r.Some? {
          var j :| 0 <= j < |table[1..]| && table[1..][j] == Match(r.value, key);
          assert table[j + 1] == Match(r.value, key);
        }
      }
      assert (exists j :: 0 <= j < |table| && table[j].phrase == key) ==> r.Some? by {
        if exists j :: 0 <= j < |table| && table[j].phrase == key {
          var j :| 0 <= j < |table| && table[j].phrase == key;
          assert table[1..][j - 1].phrase == key;
        }
      }
      r
  }

  /** The phrases of a table, in order. */
  function Keys(table: seq<Match>): (r: seq<string>)
    ensures |r| == |table|
    ensures forall i :: 0 <= i < |table| ==> r[i] == table[i].phrase
  {
    if |table| == 0 then [] else [table[0].phrase] + Keys(table[1..])
  }

  /** `getAvailableCommands`: `Object.keys(VOICE_COMMANDS)`. */
  function AvailableCommands(): (r: seq<string>)
    ensures |r| == |VoiceCommands|
    ensures forall i :: 0 <= i < |r| ==> r[i] == VoiceCommands[i].phrase
  {
    Keys(VoiceCommands)
  }

  /**
   * What `manualVoiceCommand` publishes, CORRECTED to look up own keys only: the exact
   * entry for the lower-cased command, if any. The code as written also publishes for
   * `constructor` and `__proto__`, which it finds on the object's prototype; see
   * `PrototypeLeak`.
   */
  function ManualEvents(command: string): (r: seq<AppEvent>)
    ensures |r| <= 1
    ensures r != [] ==> r[0].payload == Transcript(command, command, true)
  {
    match Lookup(ToLower(command), VoiceCommands)
    case Some(e) => [AppEvent(e, Transcript(command, command, true))]
    case None => []
  }

  /**
   * Under the corrected own-key lookup, a manual command publishes exactly when its
   * lower-cased form is one of the available commands, and then the event that command
   * maps to. The code as written also publishes for `constructor` and `__proto__`; see
   * `PrototypeLeak`.
   */
  lemma ManualIffAvailable(command: string)
    ensures ManualEvents(command) != [] <==> ToLower(command) in AvailableCommands()
    ensures ManualEvents(command) != [] ==>
              exists j :: 0 <= j < |VoiceCommands| && VoiceCommands[j] == Match(ManualEvents(command)[0].kind, ToLower(command))
  {
    var keys := AvailableCommands();
    if ToLower(command) in keys {
      var j :| 0 <= j < |keys| && keys[j] == ToLower(command);
      assert VoiceCommands[j].phrase == ToLower(command);
    }
  }

  /** Every phrase of a table is at most `n` characters long. */
  predicate PhrasesWithin(table: seq<Match>, n: nat) {
    forall j :: 0 <= j < |table| ==> |table[j].phrase| <= n
  }

  /** No entry of a table maps to `e`. */
  predicate Avoids(table: seq<Match>, e: EventType) {
    forall j :: 0 <= j < |table| ==> table[j].event != e
  }

  /** No phrase of a table is one of the inherited `Object.prototype` names that survive lower-casing. */
  predicate NoLowerBuiltin(table: seq<Match>) {
    forall j :: 0 <= j < |table| ==> table[j].phrase != "constructor" && table[j].phrase != "__proto__"
  }

  lemma AppendFacts(a: seq<Match>, b: seq<Match>, n: nat, e: EventType)
    requires PhrasesWithin(a, n) && PhrasesWithin(b, n)
    requires Avoids(a, e) && Avoids(b, e)
    requires NoLowerBuiltin(a) && NoLowerBuiltin(b)
    requires |a| > 0
    ensures PhrasesWithin(a + b, n) && Avoids(a + b, e) && NoLowerBuiltin(a + b)
    ensures (a + b)[0] == a[0]
  {
    forall j | |a| <= j < |a + b|
      ensures (a + b)[j] == b[j - |a|]
    {
    }
  }

  /** A key longer than every phrase is not in the table. */
  lemma LookupTooLong(key: string, table: seq<Match>, n: nat)
    requires PhrasesWithin(table, n) && |key| > n
    ensures Lookup(key, table) == None
  {}

  /** Each group's phrases are short and none of the control groups maps to `ui.start`. */
  lemma TransportFacts()
    ensures PhrasesWithin(TransportCommands, 16) && Avoids(TransportCommands, UiStart)
    ensures NoLowerBuiltin(TransportCommands)
    ensures TransportCommands[0] == Match(VoiceStart, "start")
  {}

  lemma LayerFacts()
    ensures PhrasesWithin(LayerCommands, 16) && Avoids(LayerCommands, UiStart)
    ensures NoLowerBuiltin(LayerCommands)
  {}

  lemma InstrumentFacts()
    ensures PhrasesWithin(InstrumentCommands, 16) && Avoids(InstrumentCommands, UiStart)
    ensures NoLowerBuiltin(InstrumentCommands)
  {
    InstrumentsShort();
    InstrumentsNoBuiltin();
  }

  lemma InstrumentsShort()
    ensures PhrasesWithin(InstrumentCommands, 16)
  {}

  lemma InstrumentsNoBuiltin()
    ensures NoLowerBuiltin(InstrumentCommands)
  {}

  lemma TempoFacts()
    ensures PhrasesWithin(TempoCommands, 16) && Avoids(TempoCommands, UiStart)
    ensures NoLowerBuiltin(TempoCommands)
  {}

  /** Among the UI commands only "start conducting" maps to `ui.start`. */
  lemma UiFacts()
    ensures PhrasesWithin(UiCommands, 16) && NoLowerBuiltin(UiCommands)
    ensures forall j :: 0 <= j < |UiCommands| && UiCommands[j].event == UiStart ==> UiCommands[j].phrase == "start conducting"
  {}

  /** The control commands: none maps to `ui.start` and the first is "start". */
  lemma ControlFacts()
    ensures PhrasesWithin(ControlCommands, 16) && Avoids(ControlCommands, UiStart)
    ensures NoLowerBuiltin(ControlCommands)
    ensures ControlCommands[0] == Match(VoiceStart, "start")
  {
    TransportFacts();
    LayerFacts();
    InstrumentFacts();
    TempoFacts();
    var tl := TransportCommands + LayerCommands;
    AppendFacts(TransportCommands, LayerCommands, 16, UiStart);
    AppendFacts(tl, InstrumentCommands, 16, UiStart);
    AppendFacts(tl + InstrumentCommands, TempoCommands, 16, UiStart);
  }

  /** No command is longer than "start conducting" (16 characters). */
  lemma CommandsWithin16()
    ensures PhrasesWithin(VoiceCommands, 16)
  {
    ControlFacts();
    UiFacts();
    PhrasesWithinAppend(ControlCommands, UiCommands, 16);
  }

  /** Neither "constructor" nor "__proto__" is an own key of the command table. */
  lemma NoBuiltinCommand()
    ensures NoLowerBuiltin(VoiceCommands)
  {
    ControlFacts();
    UiFacts();
    PhrasesWithinAppend(ControlCommands, UiCommands, 16);
  }

  lemma PhrasesWithinAppend(a: seq<Match>, b: seq<Match>, n: nat)
    requires PhrasesWithin(a, n) && PhrasesWithin(b, n)
    requires NoLowerBuiltin(a) && NoLowerBuiltin(b)
    ensures PhrasesWithin(a + b, n) && NoLowerBuiltin(a + b)
  {
    forall j | |a| <= j < |a + b|
      ensures (a + b)[j] == b[j - |a|]
    {
    }
  }

  /** The manual lookup is exact: "Start" publishes `voice.start` with the command as typed. */
  lemma ManualStart()
    ensures ManualEvents("Start") == [AppEvent(VoiceStart, Transcript("Start", "Start", true))]
  {
    assert ToLower("Start") == "start";
    assert VoiceCommands[0] == Match(VoiceStart, "start");
  }

  /** A command that merely contains a phrase ("start") publishes nothing. */
  lemma ManualNoSubstring()
    ensures ManualEvents("start conducting now") == []
  {
    CommandsWithin16();
    var k := ToLower("start conducting now");
    assert |k| == 20;
    LookupTooLong(k, VoiceCommands, 16);
  }

  /**
   * If the first entry's phrase occurs in every phrase that maps to `e`, and no entry of
   * the first part maps to `e`, then searching the two parts in turn never yields `e`.
   */
  lemma ShadowedEvent(text: string, a: seq<Match>, b: seq<Match>, e: EventType)
    requires |a| > 0 && Avoids(a, e)
    requires forall j :: 0 <= j < |b| && b[j].event == e ==> Contains(b[j].phrase, a[0].phrase)
    ensures FirstMatch(text, a + b).Some? ==> FirstMatch(text, a + b).value.event != e
  {
    FirstMatchAppend(text, a, b);
    var r := FirstMatch(text, b);
    if FirstMatch(text, a).None? && r.Some? && r.value.event == e {
      var k :| 0 <= k < |b| && b[k] == r.value && Contains(text, r.value.phrase);
      ContainsTransitive(text, r.value.phrase, a[0].phrase);
    }
  }

  /** Entries whose only phrase is `p` contain whatever `p` contains. */
  lemma OnlyPhraseContains(b: seq<Match>, e: EventType, p: string, q: string)
    requires forall j :: 0 <= j < |b| && b[j].event == e ==> b[j].phrase == p
    requires Contains(p, q)
    ensures forall j :: 0 <= j < |b| && b[j].event == e ==> Contains(b[j].phrase, q)
  {}

  /**
   * "start" comes first and occurs in "start conducting", the only phrase for `ui.start`,
   * so the router never produces `ui.start`.
   */
  lemma UiStartUnreachable(text: string)
    ensures FirstMatch(text, VoiceCommands).Some? ==> FirstMatch(text, VoiceCommands).value.event != UiStart
  {
    ControlFacts();
    UiFacts();
    OccursContains("start conducting", "start", 0);
    OnlyPhraseContains(UiCommands, UiStart, "start conducting", "start");
    ShadowedEvent(text, ControlCommands, UiCommands, UiStart);
  }

  /** The members an object literal inherits from `Object.prototype`; each is a function or an object. */
  const ObjectPrototypeMembers: seq<string> := [
    "constructor", "hasOwnProperty", "isPrototypeOf", "propertyIsEnumerable",
    "toLocaleString", "toString", "valueOf", "__proto__",
    "__defineGetter__", "__defineSetter__", "__lookupGetter__", "__lookupSetter__"]

  /** The value of `VOICE_COMMANDS[key]` in JavaScript: an own command, an inherited member, or `undefined`. */
  datatype Property = Command(event: EventType) | Inherited(name: string) | Undefined

  /** Property access as written: own keys first, then the prototype chain. */
  function PropertyOf(key: string): (r: Property)
    ensures r.Command? <==> Lookup(key, VoiceCommands).Some?
    ensures r.Inherited? <==> Lookup(key, VoiceCommands).None? && key in ObjectPrototypeMembers
  {
    match Lookup(key, VoiceCommands)
    case Some(e) => Command(e)
    case None => if key in ObjectPrototypeMembers then Inherited(key) else Undefined
  }

  /** `if (eventType)` in `manualVoiceCommand` as written: every inherited member is truthy. */
  predicate PublishesAsWritten(command: string) {
    !PropertyOf(ToLower(command)).Undefined?
  }

  /** Of the inherited names only "constructor" and "__proto__" are all lower-case. */
  lemma LowerPrototypeMembers(k: string)
    requires NoUpper(k)
    ensures k in ObjectPrototypeMembers <==> k == "constructor" || k == "__proto__"
  {
    assert IsUpper("hasOwnProperty"[3]);
    assert IsUpper("isPrototypeOf"[2]);
    assert IsUpper("propertyIsEnumerable"[8]);
    assert IsUpper("toLocaleString"[2]);
    assert IsUpper("toString"[2]);
    assert IsUpper("valueOf"[5]);
    assert IsUpper("__defineGetter__"[8]);
    assert IsUpper("__defineSetter__"[8]);
    assert IsUpper("__lookupGetter__"[8]);
    assert IsUpper("__lookupSetter__"[8]);
  }

  /**
   * As written, `manualVoiceCommand` also publishes for a command that is not in the table
   * exactly when it lower-cases to "constructor" or "__proto__"; the own-key lookup of
   * `ManualEvents` publishes for neither.
   */
  lemma PrototypeLeak(command: string)
    ensures (PublishesAsWritten(command) && ManualEvents(command) == []) <==>
            (ToLower(command) == "constructor" || ToLower(command) == "__proto__")
  {
    var k := ToLower(command);
    ToLowerNoUpper(command);
    LowerPrototypeMembers(k);
    NoBuiltinCommand();
    if k == "constructor" || k == "__proto__" {
      assert Lookup(k, VoiceCommands) == None;
    }
  }

  /** The concrete input: "constructor" is no command, yet the code as written publishes for it. */
  lemma ConstructorLeaks()
    ensures PublishesAsWritten("constructor") && ManualEvents("constructor") == []
  {
    assert NoUpper("constructor");
    ToLowerOfLower("constructor");
    PrototypeLeak("constructor");
  }

  /**
   * The speech client hands the router `transcript.trim().toLowerCase()`; normalising that
   * again selects the same command as normalising the raw transcript.
   */
  lemma RouterSeesRawNormalForm(raw: string)
    ensures FirstMatch(Normalize(ToLower(Trim(raw))), VoiceCommands) == FirstMatch(Normalize(raw), VoiceCommands)
  {
    NormalizeAfterTrimmedLower(raw);
  }

  /** `isInitialized`, and what the controller publishes, in order. */
  class VoiceController {
    var isInitialized: bool
    var outbox: seq<AppEvent>

    constructor ()
      ensures !isInitialized && outbox == []
    {
      isInitialized := false;
      outbox := [];
    }

    /**
     * `initVoice`: a no-op when initialised; otherwise the flag is set only when
     * `startListening` succeeds (`startFails` says whether it throws), and the error is
     * rethrown.
     */
    method InitVoice(startFails: bool) returns (threw: bool)
      modifies this
      ensures outbox == old(outbox)
      ensures old(isInitialized) ==> !threw && isInitialized
      ensures !old(isInitialized) ==> threw == startFails && isInitialized == !startFails
    {
      if isInitialized {
        return false;
      }
      if startFails {
        return true;
      }
      isInitialized := true;
      threw := false;
    }

    /** `disposeVoice` */
    method DisposeVoice()
      modifies this
      ensures !isInitialized && outbox == old(outbox)
    {
      isInitialized := false;
    }

    /**
     * `routeVoiceCommand`: normalise, find the first table phrase the text equals or
     * contains, publish its event with the text and the phrase, and nothing when none matches.
     */
    method RouteVoiceCommand(transcript: string) returns (matched: Option<Match>)
      modifies this
      ensures isInitialized == old(isInitialized)
      ensures matched == FirstMatch(Normalize(transcript), VoiceCommands)
      ensures outbox == old(outbox) + RouteEvents(Normalize(transcript), matched)
    {
      var text := Normalize(transcript);
      matched := FirstPhrase(text, VoiceCommands);
      outbox := outbox + RouteEvents(text, matched);
    }

    /**
     * `manualVoiceCommand`, CORRECTED to look up own keys only. The code as written also
     * publishes for `constructor` and `__proto__`; see `PrototypeLeak`.
     */
    method ManualVoiceCommand(command: string)
      modifies this
      ensures isInitialized == old(isInitialized)
      ensures outbox == old(outbox) + ManualEvents(command)
    {
      var e := Lookup(ToLower(command), VoiceCommands);
      if e.Some? {
        outbox := outbox + [AppEvent(e.value, Transcript(command, command, true))];
      }
    }
  }
}
