/**
 * lib/voice/speechClient.ts: the synonym table with the first-match resolution of a
 * transcript, and the recogniser's module state (the result debounce and the
 * microphone permission flags).
 */
module Speech {
  import opened Wrappers
  import opened Text
  import opened Events
  import opened Phrases

  /** A table row: an event and its synonyms. */
  type Row = (EventType, seq<string>)

  /** The rows of `COMMAND_SYNONYMS`. */
  const ChordsOnRow: Row := (VoiceChordsOn, ["chords on", "pads on"])
  const ChordsOffRow: Row := (VoiceChordsOff, ["chords off", "pads off"])
  const LeadOnRow: Row := (VoiceLeadOn, ["lead on", "melody on", "synth on"])
  const LeadOffRow: Row := (VoiceLeadOff, ["lead off", "melody off", "synth off"])
  const BassOnRow: Row := (VoiceBassOn, ["bass on", "sub on"])
  const BassOffRow: Row := (VoiceBassOff, ["bass off", "sub off"])
  const KickOnRow: Row := (VoiceKickOn, ["kick on", "bass drum on"])
  const KickOffRow: Row := (VoiceKickOff, ["kick off", "bass drum off"])
  const SnareOnRow: Row := (VoiceSnareOn, ["snare on"])
  const SnareOffRow: Row := (VoiceSnareOff, ["snare off"])
  const HatsOnRow: Row := (VoiceHatsOn, ["hats on", "hi-hats on"])
  const HatsOffRow: Row := (VoiceHatsOff, ["hats off", "hi-hats off"])
  const MelodyOnRow: Row := (VoiceMelodyOn, ["melody on", "lead on", "synth on"])
  const MelodyOffRow: Row := (VoiceMelodyOff, ["melody off", "lead off", "synth off"])
  const DrumsOnRow: Row := (VoiceDrumsOn, ["drums on", "beat on", "kick on"])
  const DrumsOffRow: Row := (VoiceDrumsOff, ["drums off", "beat off", "kick off"])
  const StartRow: Row := (VoiceStart, ["start", "play", "begin"])
  const StopRow: Row := (VoiceStop, ["stop", "pause", "halt"])
  const UiSettingsOpenRow: Row := (UiSettingsOpen, ["open settings", "show settings", "settings"])
  const UiSettingsCloseRow: Row := (UiSettingsClose, ["close settings", "hide settings"])
  const UiAboutOpenRow: Row := (UiAboutOpen, ["open about", "show about", "about"])
  const UiAboutCloseRow: Row := (UiAboutClose, ["close about", "hide about"])
  const UiThemeClubRow: Row := (UiThemeClub, ["enter club goose", "club mode", "club goose"])
  const UiThemeDefaultRow: Row := (UiThemeDefault, ["exit club goose", "default mode", "normal mode"])
  const UiVisualsOnRow: Row := (UiVisualsOn, ["visuals on", "show visuals", "enable visuals"])
  const UiVisualsOffRow: Row := (UiVisualsOff, ["visuals off", "hide visuals", "disable visuals"])

  /** `COMMAND_SYNONYMS`, rows in the object's insertion order. */
  const CommandSynonyms: seq<Row> := [
    ChordsOnRow, ChordsOffRow, LeadOnRow, LeadOffRow,
    BassOnRow, BassOffRow, KickOnRow, KickOffRow,
    SnareOnRow, SnareOffRow, HatsOnRow, HatsOffRow,
    MelodyOnRow, MelodyOffRow, DrumsOnRow, DrumsOffRow,
    StartRow, StopRow, UiSettingsOpenRow, UiSettingsCloseRow,
    UiAboutOpenRow, UiAboutCloseRow, UiThemeClubRow, UiThemeDefaultRow,
    UiVisualsOnRow, UiVisualsOffRow
  ]

  /** The row of `CommandSynonyms` that names an event; `|CommandSynonyms|` for the others. */
  function RowOf(e: EventType): nat {
    match e
    case VoiceChordsOn => 0
    case VoiceChordsOff => 1
    case VoiceLeadOn => 2
    case VoiceLeadOff => 3
    case VoiceBassOn => 4
    case VoiceBassOff => 5
    case VoiceKickOn => 6
    case VoiceKickOff => 7
    case VoiceSnareOn => 8
    case VoiceSnareOff => 9
    case VoiceHatsOn => 10
    case VoiceHatsOff => 11
    case VoiceMelodyOn => 12
    case VoiceMelodyOff => 13
    case VoiceDrumsOn => 14
    case VoiceDrumsOff => 15
    case VoiceStart => 16
    case VoiceStop => 17
    case UiSettingsOpen => 18
    case UiSettingsClose => 19
    case UiAboutOpen => 20
    case UiAboutClose => 21
    case UiThemeClub => 22
    case UiThemeDefault => 23
    case UiVisualsOn => 24
    case UiVisualsOff => 25
    case _ => 26
  }

  /** Each event names exactly one row of the table, so rows are identified by their events. */
  lemma RowsIndexed()
    ensures forall i :: 0 <= i < |CommandSynonyms| ==> RowOf(CommandSynonyms[i].0) == i
  {
    FrontRowsIndexed();
    BackRowsIndexed();
  }

  lemma FrontRowsIndexed()
    ensures forall i :: 0 <= i < 13 ==> RowOf(CommandSynonyms[i].0) == i
  {}

  lemma BackRowsIndexed()
    ensures forall i :: 13 <= i < 26 ==> RowOf(CommandSynonyms[i].0) == i
  {}

  /** The inner loop: the first synonym of one row that `text` contains. */
  function FindSynonym(text: string, synonyms: seq<string>): (r: Option<string>)
    ensures r.Some? ==> r.value in synonyms && Contains(text, r.value)
    ensures r.None? ==> forall j :: 0 <= j < |synonyms| ==> !Contains(text, synonyms[j])
  {
    if |synonyms| == 0 then None
    else if Contains(text, synonyms[0]) then Some(synonyms[0])
    else FindSynonym(text, synonyms[1..])
  }

  /** The outer loop over the rows, returning at the first match. */
  function FindCommand(text: string, table: seq<Row>): (r: Option<Match>)
    ensures r.Some? ==> Contains(text, r.value.phrase)
  {
    if |table| == 0 then None
    else match FindSynonym(text, table[0].1)
      case Some(s) => Some(Match(table[0].0, s))
      case None => FindCommand(text, table[1..])
  }

  /** One row's (event, synonym) pairs. */
  function RowEntries(event: EventType, synonyms: seq<string>): (r: seq<Match>)
    ensures |r| == |synonyms|
    ensures forall i :: 0 <= i < |r| ==> r[i] == Match(event, synonyms[i])
  {
    if |synonyms| == 0 then [] else [Match(event, synonyms[0])] + RowEntries(event, synonyms[1..])
  }

  /** The table flattened in loop order: rows in order, synonyms in order within a row. */
  function Entries(table: seq<Row>): seq<Match> {
    if |table| == 0 then [] else RowEntries(table[0].0, table[0].1) + Entries(table[1..])
  }

  lemma {:induction false} FindSynonymIsFirstMatch(text: string, event: EventType, synonyms: seq<string>)
    ensures FirstMatch(text, RowEntries(event, synonyms)) ==
            (match FindSynonym(text, synonyms) case Some(s) => Some(Match(event, s)) case None => None)
    decreases |synonyms|
  {
    if |synonyms| > 0 {
      var r := RowEntries(event, synonyms);
      assert r == [Match(event, synonyms[0])] + RowEntries(event, synonyms[1..]);
      FirstMatchAppend(text, [Match(event, synonyms[0])], RowEntries(event, synonyms[1..]));
      FindSynonymIsFirstMatch(text, event, synonyms[1..]);
    }
  }

  /** The nested loops with their early return find the first match of the flattened table. */
  lemma {:induction false} FindCommandIsFirstMatch(text: string, table: seq<Row>)
    ensures FindCommand(text, table) == FirstMatch(text, Entries(table))
    decreases |table|
  {
    if |table| > 0 {
      FirstMatchAppend(text, RowEntries(table[0].0, table[0].1), Entries(table[1..]));
      FindSynonymIsFirstMatch(text, table[0].0, table[0].1);
      FindCommandIsFirstMatch(text, table[1..]);
    }
  }

  /** `processVoiceCommand(text)` */
  function ProcessVoiceCommand(text: string): (r: Option<Match>)
    ensures r.Some? ==> Contains(Normalize(text), r.value.phrase)
  {
    FindCommand(Normalize(text), CommandSynonyms)
  }

  /**
   * `processVoiceCommand` returns the first (event, synonym) pair, in row order and then
   * synonym order, whose synonym the lower-cased, trimmed text contains; null when
   * there is none.
   */
  lemma ProcessVoiceCommandIsFirstMatch(text: string)
    ensures ProcessVoiceCommand(text) == FirstMatch(Normalize(text), Entries(CommandSynonyms))
  {
    FindCommandIsFirstMatch(Normalize(text), CommandSynonyms);
  }

  /** The index of the row at which the outer loop returns; `|table|` when none matches. */
  function FirstRow(text: string, table: seq<Row>): (k: nat)
    ensures k <= |table|
    ensures forall j :: 0 <= j < k ==> FindSynonym(text, table[j].1).None?
    ensures k < |table| ==> FindSynonym(text, table[k].1).Some?
    ensures FindCommand(text, table) ==
            if k < |table| then Some(Match(table[k].0, FindSynonym(text, table[k].1).value)) else None
  {
    if |table| == 0 then 0
    else if FindSynonym(text, table[0].1).Some? then 0
    else 1 + FirstRow(text, table[1..])
  }

  /** A row is hit whenever the text contains one of its synonyms. */
  lemma RowHit(text: string, synonyms: seq<string>, p: string)
    requires p in synonyms && Contains(text, p)
    ensures FindSynonym(text, synonyms).Some?
  {
    var i :| 0 <= i < |synonyms| && synonyms[i] == p;
  }

  /** Text containing a synonym of a row is resolved at that row or an earlier one. */
  lemma {:induction false} ResolvedByRow(text: string, table: seq<Row>, row: nat, p: string)
    requires row < |table| && p in table[row].1 && Contains(text, p)
    ensures FindCommand(text, table).Some?
    ensures FirstRow(text, table) <= row
    decreases row
  {
    if row == 0 {
      RowHit(text, table[0].1, p);
    } else if FindSynonym(text, table[0].1).None? {
      ResolvedByRow(text, table[1..], row - 1, p);
    }
  }

  /**
   * A row each of whose synonyms contains a synonym `p` of an earlier row is never the
   * row at which the search returns.
   */
  lemma RowShadowed(text: string, table: seq<Row>, j: nat, k: nat, p: string)
    requires j < k < |table| && p in table[j].1
    requires forall i :: 0 <= i < |table[k].1| ==> Contains(table[k].1[i], p)
    ensures FirstRow(text, table) != k
  {
    var r := FindSynonym(text, table[k].1);
    if r.Some? {
      ContainsTransitive(text, r.value, p);
      RowHit(text, table[j].1, p);
    }
  }

  /** An event whose only row is never the returning row is never produced. */
  lemma NotProduced(text: string, table: seq<Row>, row: nat)
    requires row < |table| && FirstRow(text, table) != row
    requires forall i :: 0 <= i < |table| ==> RowOf(table[i].0) == i
    ensures FindCommand(text, table).Some? ==> FindCommand(text, table).value.event != table[row].0
  {}

  lemma SettingsCloseNotProduced(t: string)
    ensures FindCommand(t, CommandSynonyms).Some? ==> FindCommand(t, CommandSynonyms).value.event != UiSettingsClose
  {
    assert CommandSynonyms[18] == UiSettingsOpenRow && CommandSynonyms[19] == UiSettingsCloseRow;
    OccursContains("close settings", "settings", 6);
    OccursContains("hide settings", "settings", 5);
    RowShadowed(t, CommandSynonyms, 18, 19, "settings");
    RowsIndexed();
    NotProduced(t, CommandSynonyms, 19);
  }

  /**
   * `ui.settings.close` is never produced: both of its synonyms contain `settings`, a
   * synonym of the earlier `ui.settings.open`.
   */
  lemma SettingsCloseUnreachable(text: string)
    ensures ProcessVoiceCommand(text).Some? ==> ProcessVoiceCommand(text).value.event != UiSettingsClose
  {
    SettingsCloseNotProduced(Normalize(text));
  }

  lemma AboutCloseNotProduced(t: string)
    ensures FindCommand(t, CommandSynonyms).Some? ==> FindCommand(t, CommandSynonyms).value.event != UiAboutClose
  {
    assert CommandSynonyms[20] == UiAboutOpenRow && CommandSynonyms[21] == UiAboutCloseRow;
    OccursContains("close about", "about", 6);
    OccursContains("hide about", "about", 5);
    RowShadowed(t, CommandSynonyms, 20, 21, "about");
    RowsIndexed();
    NotProduced(t, CommandSynonyms, 21);
  }

  /** `ui.about.close` is never produced, because of the bare synonym `about` of `ui.about.open`. */
  lemma AboutCloseUnreachable(text: string)
    ensures ProcessVoiceCommand(text).Some? ==> ProcessVoiceCommand(text).value.event != UiAboutClose
  {
    AboutCloseNotProduced(Normalize(text));
  }

  /** A row all of whose synonyms are synonyms of an earlier row is never the returning row. */
  lemma RowSubsumed(text: string, table: seq<Row>, j: nat, k: nat)
    requires j < k < |table|
    requires forall i :: 0 <= i < |table[k].1| ==> table[k].1[i] in table[j].1
    ensures FirstRow(text, table) != k
  {
    var r := FindSynonym(text, table[k].1);
    if r.Some? {
      RowHit(text, table[j].1, r.value);
    }
  }

  lemma MelodyOnNotProduced(t: string)
    ensures FindCommand(t, CommandSynonyms).Some? ==> FindCommand(t, CommandSynonyms).value.event != VoiceMelodyOn
  {
    assert CommandSynonyms[2] == LeadOnRow && CommandSynonyms[12] == MelodyOnRow;
    RowSubsumed(t, CommandSynonyms, 2, 12);
    RowsIndexed();
    NotProduced(t, CommandSynonyms, 12);
  }

  lemma MelodyOffNotProduced(t: string)
    ensures FindCommand(t, CommandSynonyms).Some? ==> FindCommand(t, CommandSynonyms).value.event != VoiceMelodyOff
  {
    assert CommandSynonyms[3] == LeadOffRow && CommandSynonyms[13] == MelodyOffRow;
    RowSubsumed(t, CommandSynonyms, 3, 13);
    RowsIndexed();
    NotProduced(t, CommandSynonyms, 13);
  }

  /**
   * The legacy `voice.melody.on` and `voice.melody.off` are never produced: every one
   * of their synonyms is a synonym of the earlier `voice.lead.on` / `voice.lead.off`.
   */
  lemma MelodyUnreachable(text: string)
    ensures ProcessVoiceCommand(text).Some? ==>
              ProcessVoiceCommand(text).value.event != VoiceMelodyOn &&
              ProcessVoiceCommand(text).value.event != VoiceMelodyOff
  {
    MelodyOnNotProduced(Normalize(text));
    MelodyOffNotProduced(Normalize(text));
  }

  /** A search resolved at or before a row produces no event of a later row. */
  lemma EarlyRowEvent(text: string, table: seq<Row>, row: nat, e: EventType)
    requires row < |table| && FirstRow(text, table) <= row && row < RowOf(e)
    requires forall i :: 0 <= i < |table| ==> RowOf(table[i].0) == i
    ensures FindCommand(text, table).Some? && FindCommand(text, table).value.event != e
  {}

  lemma KickOnResolvedEarly(t: string)
    requires Contains(t, "kick on")
    ensures FindCommand(t, CommandSynonyms).Some?
    ensures FindCommand(t, CommandSynonyms).value.event != VoiceDrumsOn
  {
    var tbl := CommandSynonyms;
    assert tbl[6] == KickOnRow;
    assert "kick on" in tbl[6].1;
    ResolvedByRow(t, tbl, 6, "kick on");
    assert RowOf(VoiceDrumsOn) == 14;
    RowsIndexed();
    EarlyRowEvent(t, tbl, 6, VoiceDrumsOn);
  }

  /** Text containing "kick on" is resolved at or before `voice.kick.on`, never as `voice.drums.on`. */
  lemma KickOnNeverDrums(text: string)
    requires Contains(Normalize(text), "kick on")
    ensures ProcessVoiceCommand(text).Some?
    ensures ProcessVoiceCommand(text).value.event != VoiceDrumsOn
  {
    KickOnResolvedEarly(Normalize(text));
  }

  lemma ClubGooseResolvedEarly(t: string)
    requires Contains(t, "club goose")
    ensures FindCommand(t, CommandSynonyms).Some?
    ensures FindCommand(t, CommandSynonyms).value.event != UiThemeDefault
  {
    var tbl := CommandSynonyms;
    assert tbl[22] == UiThemeClubRow;
    assert "club goose" in tbl[22].1;
    ResolvedByRow(t, tbl, 22, "club goose");
    assert RowOf(UiThemeDefault) == 23;
    RowsIndexed();
    EarlyRowEvent(t, tbl, 22, UiThemeDefault);
  }

  /**
   * Text containing "club goose" never selects `ui.theme.default`, so the synonym
   * "exit club goose" enters club mode instead of leaving it.
   */
  lemma ClubGooseNeverDefault(text: string)
    requires Contains(Normalize(text), "club goose")
    ensures ProcessVoiceCommand(text).Some?
    ensures ProcessVoiceCommand(text).value.event != UiThemeDefault
  {
    ClubGooseResolvedEarly(Normalize(text));
  }

  /** `DEBOUNCE_MS` */
  const DebounceMs := 800

  /** One entry of `ev.results`: whether it is final, and the transcript of its first alternative. */
  datatype RecognitionResult = RecognitionResult(isFinal: bool, transcript: string)

  /**
   * The filter at the top of `onresult`: the trimmed transcript of the last result when that
   * result is final and at least `DEBOUNCE_MS` have passed since the last accepted one.
   */
  function Accept(results: seq<RecognitionResult>, lastRecognitionTime: int, now: int): (r: Option<string>)
    ensures r.Some? <==> |results| > 0 && results[|results| - 1].isFinal && now - lastRecognitionTime >= DebounceMs
    ensures r.Some? ==> r.value == Trim(results[|results| - 1].transcript)
  {
    if |results| == 0 || !results[|results| - 1].isFinal then None
    else if now - lastRecognitionTime < DebounceMs then None
    else Some(Trim(results[|results| - 1].transcript))
  }

  /**
   * The arrival times, among final results arriving at `arrivals`, that pass the debounce
   * when the last accepted time starts at `last`.
   */
  function AcceptedTimes(last: int, arrivals: seq<int>): seq<int>
    decreases |arrivals|
  {
    if |arrivals| == 0 then []
    else if arrivals[0] - last >= DebounceMs then [arrivals[0]] + AcceptedTimes(arrivals[0], arrivals[1..])
    else AcceptedTimes(last, arrivals[1..])
  }

  /**
   * Since `lastRecognitionTime` moves only on acceptance, accepted results are at least
   * `DEBOUNCE_MS` after the starting time and at least `DEBOUNCE_MS` apart from each other,
   * however densely results arrive.
   */
  lemma {:induction false} AcceptedSpaced(last: int, arrivals: seq<int>)
    ensures forall i :: 0 <= i < |AcceptedTimes(last, arrivals)| ==> AcceptedTimes(last, arrivals)[i] in arrivals
    ensures |AcceptedTimes(last, arrivals)| > 0 ==> AcceptedTimes(last, arrivals)[0] >= last + DebounceMs
    ensures forall i :: 0 < i < |AcceptedTimes(last, arrivals)| ==>
              AcceptedTimes(last, arrivals)[i] >= AcceptedTimes(last, arrivals)[i - 1] + DebounceMs
    decreases |arrivals|
  {
    if |arrivals| > 0 {
      var a := arrivals[0];
      if a - last >= DebounceMs {
        AcceptedSpaced(a, arrivals[1..]);
        var rest := AcceptedTimes(a, arrivals[1..]);
        assert AcceptedTimes(last, arrivals) == [a] + rest;
      } else {
        AcceptedSpaced(last, arrivals[1..]);
      }
    }
  }

  /**
   * The retry delay `onerror` schedules: none for `not-allowed` (the microphone is given up),
   * 600 ms for `no-speech`, 2000 ms otherwise. An empty `error` reads as `unknown`.
   */
  function ErrorRetry(error: string): (r: Option<nat>)
    ensures r.None? <==> error == "not-allowed"
    ensures r == Some(600) <==> error == "no-speech"
    ensures r.Some? ==> r.value == 600 || r.value == 2000
  {
    var errorType := if error == "" then "unknown" else error;
    if errorType == "not-allowed" then None
    else if errorType == "no-speech" then Some(600)
    else Some(2000)
  }

  /** What `onresult` publishes for an accepted text: the resolved event, with no payload. */
  function CommandEvents(text: string): seq<AppEvent> {
    match ProcessVoiceCommand(text)
    case Some(m) => [Bare(m.event)]
    case None => []
  }

  /** The module state of the speech client; `outbox` logs what it publishes on the bus. */
  class SpeechClient {
    var micReady: bool
    var asking: bool
    var lastRecognitionTime: int
    var outbox: seq<AppEvent>

    constructor ()
      ensures !micReady && !asking && lastRecognitionTime == 0 && outbox == []
    {
      micReady := false;
      asking := false;
      lastRecognitionTime := 0;
      outbox := [];
    }

    /**
     * `onresult`: drops non-final and debounced results; otherwise records the time,
     * publishes the resolved command (if any) with no payload, and returns the lower-cased
     * text handed to the `onCommand` callback.
     */
    method OnResult(results: seq<RecognitionResult>, now: int) returns (forwarded: Option<string>)
      modifies this
      ensures micReady == old(micReady) && asking == old(asking)
      ensures match Accept(results, old(lastRecognitionTime), now)
              case None =>
                forwarded.None? && lastRecognitionTime == old(lastRecognitionTime) && outbox == old(outbox)
              case Some(text) =>
                forwarded == Some(ToLower(text)) && lastRecognitionTime == now &&
                outbox == old(outbox) + CommandEvents(text)
    {
      var accepted := Accept(results, lastRecognitionTime, now);
      if accepted.None? {
        return None;
      }
      var text := accepted.value;
      lastRecognitionTime := now;
      outbox := outbox + CommandEvents(text);
      forwarded := Some(ToLower(text));
    }

    /**
     * The synchronous part of `ensureMic`: `Some(true)` when the microphone is ready,
     * `Some(false)` while a request is already in flight, `None` after starting a request.
     */
    method EnsureMicBegin() returns (immediate: Option<bool>)
      modifies this
      ensures micReady == old(micReady) && lastRecognitionTime == old(lastRecognitionTime) && outbox == old(outbox)
      ensures old(micReady) ==> immediate == Some(true) && asking == old(asking)
      ensures !old(micReady) && old(asking) ==> immediate == Some(false) && asking
      ensures !old(micReady) && !old(asking) ==> immediate.None? && asking
    {
      if micReady {
        return Some(true);
      }
      if asking {
        return Some(false);
      }
      asking := true;
      immediate := None;
    }

    /** The settlement of the permission request: its outcome is the answer, and `asking` is cleared. */
    method EnsureMicFinish(granted: bool) returns (ready: bool)
      modifies this
      ensures ready == granted && micReady == granted && !asking
      ensures lastRecognitionTime == old(lastRecognitionTime) && outbox == old(outbox)
    {
      micReady := granted;
      asking := false;
      ready := granted;
    }

    /** `onerror`: `not-allowed` gives up the microphone; the result is the retry delay. */
    method OnError(error: string) returns (retryDelay: Option<nat>)
      modifies this
      ensures retryDelay == ErrorRetry(error)
      ensures micReady == (old(micReady) && retryDelay.Some?)
      ensures asking == old(asking) && lastRecognitionTime == old(lastRecognitionTime) && outbox == old(outbox)
    {
      retryDelay := ErrorRetry(error);
      if retryDelay.None? {
        micReady := false;
      }
    }

    /** `onend`: a restart after 250 ms, only while the microphone is ready. */
    method OnEnd() returns (restartDelay: Option<nat>)
      ensures restartDelay == if micReady then Some(250) else None
    {
      restartDelay := if micReady then Some(250) else None;
    }
  }
}
