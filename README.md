# club-goose core, modelled in Dafny

Club Goose is a browser music toy. A DJ-style audio engine is driven in three ways:

- by voice: phrases recognised by the Web Speech API;
- by head movements: tilts, nods and shakes seen by a face tracker;
- by pose gestures: wrist flicks, quick taps and a two-handed "down-chop" halt seen by a pose tracker.

All three publish typed events on one in-process event bus. Controllers subscribe to the bus.
- The sound controller starts and stops the transport, changes the tempo, and toggles layers and instruments. It keeps a backlog of events that arrive before audio is ready.
- The gesture and visual controllers update the shared application state.
- The stage canvas tints its theme colours according to the layers that are playing.

The project models that core:

- the pose gesture engine, `Gestures`, and its threshold calibration, `Calibration`, including the tap and chop state machines, the flick buffer and the frame gate;
- the face gesture engine, `Face`, with `Smoothing` and `TimedSamples`;
- the voice pipeline:
  - the speech client's phrase table and debounce, `Speech`;
  - the string functions it relies on, `Text`;
  - the voice controller's command router, `Voice` with `Phrases`;
  - the windowed recogniser, `Window`;
- the event bus, `Events`, and the application state and its mutators, `AppState` and `Store`;
- the transport and the sound controller, `Transport` and `SoundController`;
- the gesture and visual controllers, `GestureController` and `VisController`;
- the colour helpers of the stage canvas, `Colors`.

Each classifier or mutator is a pure step function over a datatype. Its properties are proved as lemmas.
Each of the source's stateful objects is a class whose methods are proved to move their fields along those step functions. The same applies to the source's module-level state, which is modelled as an object.
Every `publish` is an append to the publishing object's `outbox`.

Inputs the source reads from its environment become parameters:

- time is an integer millisecond `now`, in place of `Date.now()`;
- `Math.sqrt` is a function parameter `sqrt`;
- the camera flag is a parameter;
- the compile-time switches `HALT_ONLY_MODE` and `GESTURES_ENABLED` are constructor parameters of the detector. Their values in the source are `true` and `false`, and keeping them as parameters keeps both branches of each check in the model.

Three facts about the code are easy to miss, because its comments and names suggest otherwise:

- The comment on `HALT_HYST_BACK` (lib/vision/gestureDetector.ts:37) says that both wrists must return 6% above the shoulder to re-arm the halt. `suppressUntilReturn` is set after a halt and cleared when both wrists are raised again, but no check ever reads it. A halt can fire again as soon as the 1500 ms cooldown has passed (`Gestures.SuppressIsNoGate`).
- That re-arm test compares the raw wrist heights, not the smoothed ones (lib/vision/gestureDetector.ts:496-504).
- `processCalibrationData` computes typical wrist speeds and the averages of the shoulder heights, but no threshold uses them (lib/vision/gestureDetector.ts:597-625). The model computes the speeds as the loop does (`Calibration.WristSpeeds`). `Calibration.Calibrated` takes no speeds, so no threshold depends on them.

## Model

| member | source | states |
|---|---|---|
| AppState.IndividualLayers.With | lib/state.ts:12 | the computed-key spread sets exactly the named layer and keeps the other five |
| AppState.MergeNoChange | lib/state.ts:6 | an empty partial leaves the state unchanged |
| AppState.MergeSequential | lib/state.ts:6 | two successive `Object.assign` merges equal one merge of the combined partial, the later key winning |
| AppState.MergeIdempotent | lib/state.ts:6 | merging the same partial twice is the same as merging it once |
| AppState.JsRem | lib/state.ts:9 | JavaScript's `%`: the remainder lies in `[0, b)` for a non-negative dividend and in `(-b, 0]` for a negative one |
| AppState.BumpIntensity | lib/state.ts:8 | the intensity becomes `min(1, intensity + amount)`, with `amount` 0.35 by default, so never above 1, and equals the plain sum when that is at most 1; nothing else changes |
| AppState.BumpIntensityHasNoLowerClamp | lib/state.ts:8 | a negative amount drives the intensity below zero (0.25 - 1 = -0.75) |
| AppState.CyclePalette | lib/state.ts:9 | the palette index is congruent to `index + step` modulo 5, with `step` 1 by default, and lies in `0..4` when that sum is non-negative; `lastBurstAt` becomes `now`; the intensity is kept |
| AppState.CyclePaletteNegative | lib/state.ts:9 | stepping back from palette 0 gives index -1, the sign of JavaScript's remainder |
| AppState.VisualDefaults | lib/state.ts:8-9 | called without arguments from the initial state, `bumpIntensity` gives 0.6 and `cyclePalette` gives palette 1 |
| AppState.ToggleCamera | lib/state.ts:10 | only `camera.enabled` changes |
| AppState.SetTheme | lib/state.ts:11 | only the theme changes |
| AppState.SetIndividualLayer | lib/state.ts:12 | the named layer takes the new value, every other layer and every other field is kept |
| Store.Store.SetState | lib/state.ts:6 | the state becomes the merge of the old state and the partial, and one `state.updated` event carrying the new state is published |
| Store.Store.BumpIntensity | lib/state.ts:8 | the state becomes `AppState.BumpIntensity` of the old one (intensity at most 1), and one update is published |
| Store.Store.CyclePalette | lib/state.ts:9 | the state becomes `AppState.CyclePalette` of the old one at time `now`, the intensity is kept, and one update is published |
| Store.Store.ToggleCamera | lib/state.ts:10 | only the camera flag changes, and one update is published |
| Store.Store.SetTheme | lib/state.ts:11 | only the theme changes, and one update is published |
| Store.Store.SetIndividualLayer | lib/state.ts:12 | the state becomes `AppState.SetIndividualLayer` of the old one, and one update is published |
| Events.IsGestureExactly | lib/audio/soundController.ts:21 | the `startsWith("gesture.")` test holds for exactly the seven `gesture.*` event types |
| Events.Without | lib/eventBus.ts:24 | `Set.delete`: a listener remains exactly when it was present and is not the removed one |
| Events.WithoutKeepsDistinct | lib/eventBus.ts:22-24 | deleting from a listener set keeps its members distinct |
| Events.WithoutAbsent | lib/eventBus.ts:24 | deleting a listener that is not subscribed changes nothing |
| Events.Delivery | lib/eventBus.ts:23 | `publish` reaches a prefix of the listeners in insertion order: all of them when none throws, otherwise up to and including the first that throws, and no earlier listener throws |
| Events.DeliveryStopsAtThrower | lib/eventBus.ts:23 | when listener `i` is the first to throw, exactly listeners `0..i` are called |
| Events.EventBus.Subscribe | lib/eventBus.ts:24 | `Set.add`: the listener is appended unless already present, and afterwards it is present |
| Events.EventBus.Unsubscribe | lib/eventBus.ts:24 | the returned function deletes the listener, reports whether it was present, and keeps every other listener |
| Events.EventBus.Publish | lib/eventBus.ts:23 | the listeners called are `Delivery` of the current set, and the call throws exactly when some listener throws |
| GestureController.HaltTwiceRestores | lib/gestures/gestureController.ts:20-23 | two halts in a row give back the original state |
| GestureController.GestureController.Register | lib/gestures/gestureController.ts:7-17 | the first call subscribes the handler once; a second call changes no subscription |
| GestureController.GestureController.OnEvent | lib/gestures/gestureController.ts:11-17 | `gesture.halt` negates `isPlaying` with one published update and opens the voice window exactly when the new state is paused; any other event changes nothing |
| GestureController.GestureController.HandleHalt | lib/gestures/gestureController.ts:20-31 | `isPlaying` is negated with one published update, and the voice window opens exactly when the old state was playing |
| VisController.React | lib/visuals/visController.ts:11-19 | `vis.burst` sets the palette index to `(index + 1) % 5` with JavaScript's remainder (so in `0..4` from a non-negative index), the intensity to `min(1, intensity + 0.6)` and `lastBurstAt` to `now`, and keeps every other field; `vis.pulse` bumps by the payload amount; every other event leaves the state alone |
| VisController.PulseDefault | lib/visuals/visController.ts:17 | a pulse without an amount bumps by 0.4 |
| VisController.VisController.Register | lib/visuals/visController.ts:6-10 | the first call subscribes the handler once; a second call changes no subscription |
| VisController.VisController.OnEvent | lib/visuals/visController.ts:10-20 | the store's new state is `React` of the old one; a burst publishes the snapshot after `cyclePalette(+1)` and then the one after `bumpIntensity(0.6)`, a pulse one snapshot, anything else none |
| Transport.InitNext | lib/audio/transport.ts:12-31 | an already initialised transport is untouched and resolves; a first successful call sets initialised and clears started; a failed call keeps the flags; consistency (never started before initialised) is preserved |
| Transport.StartNext | lib/audio/transport.ts:33-62 | a running transport is untouched and resolves; otherwise the start resolves exactly when the transport was initialised or `initTransport` succeeds, and the later start stage succeeds, leaving it initialised and started; a failure leaves it stopped, and initialised exactly when it was before or `initTransport` succeeded; consistency is preserved |
| Transport.StartIsInitThenStart | lib/audio/transport.ts:43-56 | a start of a stopped transport is `initTransport` followed by the start stage: a failed initialisation keeps the flags, otherwise the started flag follows the start stage |
| Transport.PartialStartKeepsInit | lib/audio/transport.ts:43-61 | a start whose initialisation succeeds but whose start stage throws rejects and leaves the transport initialised and stopped |
| Transport.StopNext | lib/audio/transport.ts:64-74 | afterwards the transport is stopped with its initialised flag kept, and stopping a stopped transport changes nothing |
| Transport.StartIdempotent | lib/audio/transport.ts:38-41 | starting a started transport again changes nothing and resolves |
| Transport.StartThenStop | lib/audio/transport.ts:33-74 | a successful start followed by a stop leaves the transport initialised and stopped |
| Transport.ClampBpm | lib/audio/transport.ts:82 | the tempo lies in `[60, 180]`, equals the input inside that range and the nearer bound outside it |
| Transport.ClampBpmIdempotent | lib/audio/transport.ts:82 | clamping a clamped tempo changes nothing |
| Transport.Transport.Init | lib/audio/transport.ts:12-31 | the new flags and the outcome are `InitNext` of the old flags |
| Transport.Transport.Start | lib/audio/transport.ts:33-62 | the new flags and the outcome are `StartNext` of the old flags and the outcomes of its two Tone.js stages |
| Transport.Transport.Stop | lib/audio/transport.ts:64-74 | the new flags are `StopNext` of the old flags |
| Transport.Transport.SetBpm | lib/audio/transport.ts:76-90 | the tempo is ramped to the clamped value only when initialised, and the state's `bpm` becomes the clamped value with one update published |
| SoundController.GesturesIgnored | lib/audio/soundController.ts:20-24 | a `gesture.*` event changes nothing, live or from the backlog |
| SoundController.BufferedPartEventDropped | lib/audio/soundController.ts:122-130 | a per-part event such as `voice.bass.on` replayed from the backlog changes nothing |
| SoundController.LiveBassOnStartsTransport | lib/audio/soundController.ts:53-57 | a live `voice.bass.on` starts the transport and then runs `setBass(true)`: with the instruments initialised it unmutes the bass loop, sets `individualLayers.bass` alone and publishes one update; before that only the transport moves; from the backlog it does nothing |
| SoundController.SetMelodyOnlyMelody | lib/audio/soundController.ts:167-176 | `setMelody` changes `layers` only at `melody`, and the individual layers only at lead and chords (set to `on` when the instruments are initialised); it publishes three updates with the instruments initialised and one without; a failed start changes only the transport flags |
| SoundController.SetDrumsOnlyDrums | lib/audio/soundController.ts:178-187 | `setDrums` changes `layers` only at `drums`, and the individual layers only at kick, snare and hats (set to `on` when the instruments are initialised); it publishes four updates with the instruments initialised and one without; a failed start changes only the transport flags |
| SoundController.BufferedEventLeavesBass | lib/audio/soundController.ts:122-130 | replaying one backlog event only appends calls, none of which touches the bass loop, and keeps `individualLayers.bass`: the flush has no per-part case and the legacy setters reach lead, chords, kick, snare and hats only |
| SoundController.MelodyLeavesBass | lib/audio/soundController.ts:167-176 | `setMelody` never touches the bass loop or the bass layer |
| SoundController.DrumsLeavesBass | lib/audio/soundController.ts:178-187 | `setDrums` never touches the bass loop or the bass layer |
| SoundController.FlushLeavesBass | lib/audio/soundController.ts:111-131 | the whole backlog flush, whatever was queued, never touches the bass loop or the bass layer |
| SoundController.FlushKeepsTransportConsistent | lib/audio/soundController.ts:111-131 | the flush never leaves the transport started without being initialised |
| SoundController.BacklogKeepsTransportConsistent | lib/audio/soundController.ts:122-130 | one replayed event never leaves the transport started without being initialised |
| SoundController.LayerKeepsTransportConsistent | lib/audio/soundController.ts:167-187 | neither legacy layer setter leaves the transport started without being initialised |
| SoundController.SoundController.Register | lib/audio/soundController.ts:13-17 | the first call subscribes once and starts the audio initialisation; a second call is a no-op |
| SoundController.SoundController.HandleStart | lib/audio/soundController.ts:142-152 | start the transport, then unmute, re-apply the tempo and set playing; a failed start is caught and changes nothing but the flags it left behind |
| SoundController.SoundController.HandleStop | lib/audio/soundController.ts:154-162 | stop the transport and clear `isPlaying` |
| SoundController.SoundController.SetPart | lib/audio/instruments.ts:492-550 | a part setter does nothing before the instruments are initialised; afterwards it (un)mutes the part loop and sets exactly that individual layer, publishing one update |
| SoundController.SoundController.ToggleMelody | lib/audio/instruments.ts:559-562 | the lead setter, then the chords setter |
| SoundController.SoundController.ToggleDrums | lib/audio/instruments.ts:553-557 | the kick, snare and hats setters, in that order |
| SoundController.SoundController.SetMelody | lib/audio/soundController.ts:167-176 | start first when enabling; then `toggleMelody` runs the lead and chords setters, and `layers.melody` is recorded with one more update; a failed start changes only the transport flags |
| SoundController.SoundController.SetDrums | lib/audio/soundController.ts:178-187 | start first when enabling; then `toggleDrums` runs the kick, snare and hats setters, and `layers.drums` is recorded with one more update; a failed start changes only the transport flags |
| SoundController.SoundController.PartOn | lib/audio/soundController.ts:39-82 | a live `voice.<part>.on` starts the transport and then runs the part setter; a failed start changes only the transport flags and skips the setter |
| SoundController.SoundController.PartOff | lib/audio/soundController.ts:43-81 | a live `voice.<part>.off` only runs the part setter with `false` |
| SoundController.SoundController.OnEvent | lib/audio/soundController.ts:17-102 | before audio is ready the event is queued and nothing else changes; afterwards the live switch runs (with the part setters' state writes) and the queue is untouched |
| SoundController.SoundController.DispatchBuffered | lib/audio/soundController.ts:113-130 | one replayed event has the effect of the backlog switch, including the part setters that `setMelody`/`setDrums` reach |
| SoundController.SoundController.CompleteAudioInit | lib/audio/soundController.ts:105-136 | when `initTransport` succeeds the instruments are initialised unless their own (caught) setup failed, the controller becomes ready, the queue is emptied, and the effect is the FIFO flush of the old queue, each replayed event with its own Tone.js outcome; when it throws the controller stays not ready and keeps its queue |
| SoundController.SoundController.FlushBacklog | lib/audio/soundController.ts:111-131 | the backlog is emptied, and the effect is the FIFO flush of the old backlog, each replayed event with its own Tone.js outcome |
| Speech.RowsIndexed | lib/voice/speechClient.ts:24-74 | each event names exactly one row of the synonym table |
| Speech.FindSynonym | lib/voice/speechClient.ts:85-90 | the inner loop returns a synonym of the row that the text contains, or none exactly when the text contains none of them |
| Speech.FindCommand | lib/voice/speechClient.ts:84-94 | a returned match's phrase is contained in the text |
| Speech.RowEntries | lib/voice/speechClient.ts:84-85 | a row's entries are its synonyms, in order, each paired with the row's event |
| Speech.FindSynonymIsFirstMatch | lib/voice/speechClient.ts:85-90 | the inner loop finds the first entry of its row that the text contains |
| Speech.FindCommandIsFirstMatch | lib/voice/speechClient.ts:84-94 | the nested loops with their early return find the first contained entry of the flattened table |
| Speech.ProcessVoiceCommand | lib/voice/speechClient.ts:77-95 | a match's phrase is contained in the lower-cased, trimmed text |
| Speech.ProcessVoiceCommandIsFirstMatch | lib/voice/speechClient.ts:77-95 | the result is the first (event, synonym) pair, rows then synonyms in order, whose synonym the normalised text contains, and null when there is none |
| Speech.FirstRow | lib/voice/speechClient.ts:84-94 | the row where the outer loop returns: no earlier row matches, that row does, and the result is its event with its first contained synonym |
| Speech.RowHit | lib/voice/speechClient.ts:85-86 | a row is hit whenever the text contains one of its synonyms |
| Speech.ResolvedByRow | lib/voice/speechClient.ts:84-91 | text containing a synonym of a row is resolved at that row or an earlier one |
| Speech.RowShadowed | lib/voice/speechClient.ts:84-91 | a row each of whose synonyms contains a synonym of an earlier row is never where the search returns |
| Speech.NotProduced | lib/voice/speechClient.ts:84-91 | an event whose only row is never the returning row is never produced |
| Speech.SettingsCloseUnreachable | lib/voice/speechClient.ts:62-63 | `ui.settings.close` is never produced, since both its synonyms contain `settings` |
| Speech.AboutCloseUnreachable | lib/voice/speechClient.ts:64-65 | `ui.about.close` is never produced, since both its synonyms contain `about` |
| Speech.RowSubsumed | lib/voice/speechClient.ts:84-91 | a row all of whose synonyms belong to an earlier row is never where the search returns |
| Speech.MelodyUnreachable | lib/voice/speechClient.ts:50-51 | `voice.melody.on` and `voice.melody.off` are never produced, since their synonyms are those of `voice.lead.on`/`off` (lines 30-31), which come first |
| Speech.EarlyRowEvent | lib/voice/speechClient.ts:84-91 | a search that returns at or before a row never produces the event of a later row |
| Speech.KickOnNeverDrums | lib/voice/speechClient.ts:38 | text containing `kick on` is always resolved, and never as `voice.drums.on` (line 54) |
| Speech.ClubGooseNeverDefault | lib/voice/speechClient.ts:68-69 | text containing `club goose` is always resolved and never as `ui.theme.default`, so `exit club goose` enters club mode |
| Speech.Accept | lib/voice/speechClient.ts:129-141 | a transcript is accepted exactly when the last result is final and at least 800 ms have passed since the last acceptance, and the accepted text is the trimmed transcript |
| Speech.AcceptedSpaced | lib/voice/speechClient.ts:137-141 | accepted results come from the arrivals, the first at least 800 ms after the start, and each at least 800 ms after the previous one |
| Speech.ErrorRetry | lib/voice/speechClient.ts:172-191 | no retry exactly for `not-allowed`, a 600 ms retry exactly for `no-speech`, and 2000 ms for any other error |
| Speech.SpeechClient.OnResult | lib/voice/speechClient.ts:129-170 | a rejected result changes nothing; an accepted one records `now`, publishes the resolved command with no payload, and forwards the lower-cased text |
| Speech.SpeechClient.EnsureMicBegin | lib/voice/speechClient.ts:97-102 | answers true when the microphone is ready, false while a request is in flight, and otherwise starts a request |
| Speech.SpeechClient.EnsureMicFinish | lib/voice/speechClient.ts:103-113 | the request's outcome becomes the answer and the readiness, and `asking` is cleared |
| Speech.SpeechClient.OnError | lib/voice/speechClient.ts:172-191 | the retry delay is `ErrorRetry`, and the microphone stays ready exactly when a retry is scheduled |
| Speech.SpeechClient.OnEnd | lib/voice/speechClient.ts:193-195 | a restart after 250 ms, only while the microphone is ready |
| Text.LowerChar | lib/voice/speechClient.ts:78 | `toLowerCase` on one ASCII character: an upper-case ASCII letter moves down by 32 and anything else is kept |
| Text.ToLowerChars | lib/voice/speechClient.ts:78 | ASCII `toLowerCase` maps each character on its own, so it keeps the length |
| Text.ToLowerNoUpper | lib/voice/speechClient.ts:78 | lower-cased text has no upper-case letter |
| Text.ToLowerIdempotent | lib/voice/speechClient.ts:78 | lower-casing twice is lower-casing once |
| Text.ToLowerKeepsSpace | lib/voice/speechClient.ts:78 | lower-casing leaves whitespace where it was |
| Text.TrimStartShape | lib/voice/speechClient.ts:133 | the start of `trim` drops a whitespace prefix and stops at the first non-space |
| Text.TrimEndShape | lib/voice/speechClient.ts:133 | the end of `trim` drops a whitespace suffix and stops at the last non-space |
| Text.TrimEnds | lib/voice/speechClient.ts:133 | trimmed text neither starts nor ends with whitespace |
| Text.TrimSplits | lib/voice/speechClient.ts:133 | the text is whitespace, then its trim, then whitespace |
| Text.TrimIdempotent | lib/voice/speechClient.ts:133 | trimming twice is trimming once |
| Text.TrimUnique | lib/voice/speechClient.ts:133 | any split into whitespace, a core with non-space ends, and whitespace has that core as its trim |
| Text.ToLowerAppend | lib/voice/speechClient.ts:78 | lower-casing distributes over concatenation |
| Text.NormalizeShape | lib/voice/speechClient.ts:78 | `toLowerCase().trim()` has no upper-case letter and no whitespace at either end |
| Text.NormalizeIdempotent | lib/voice/speechClient.ts:78 | normal forms are fixed points |
| Text.NormalizeAfterTrimmedLower | lib/voice/speechClient.ts:133-169 | trimming and lower-casing the text first, as `onresult` does before passing it on, does not change its normal form |
| Text.NormalizeIsLowerTrim | lib/voice/speechClient.ts:78 | lower-casing and trimming commute |
| Text.ContainsIff | lib/voice/speechClient.ts:86 | `includes` holds exactly when the pattern occurs at some index |
| Text.ContainsSelf | lib/voice/speechClient.ts:86 | every text contains itself |
| Text.ContainsTransitive | lib/voice/speechClient.ts:86 | a text containing `b` contains everything `b` contains |
| Text.ContainedCharsOccur | lib/voice/speechClient.ts:86 | every character of a contained pattern occurs in the text |
| Phrases.FirstHit | lib/voice/voiceController.ts:104-121 | the index where a first-match scan stops: no earlier phrase is contained in the text, and the phrase there is |
| Phrases.FirstMatch | lib/voice/voiceController.ts:104-121 | none exactly when no phrase is contained; otherwise an entry whose phrase is contained and before which no phrase is |
| Phrases.FirstMatchAppend | lib/voice/voiceController.ts:104-121 | scanning a concatenated table scans the first part, then the second |
| Phrases.Shadowed | lib/voice/voiceController.ts:104-121 | an entry listed after an entry whose phrase it contains is never the first hit |
| Voice.FirstPhrase | lib/voice/voiceController.ts:104-121 | the loop, with its `===` or `includes` test and its early return, yields `FirstMatch` of the table |
| Voice.RouteEvents | lib/voice/voiceController.ts:109-116 | at most one event, none exactly when nothing matched, carrying the matched event, the normalised transcript and the phrase |
| Voice.Lookup | lib/voice/voiceController.ts:129 | an own key of the table is found exactly when some entry has that phrase, and it yields that entry's event |
| Voice.Keys | lib/voice/voiceController.ts:143-145 | the phrases of a table in insertion order |
| Voice.AvailableCommands | lib/voice/voiceController.ts:143-145 | `Object.keys(VOICE_COMMANDS)`: one key per entry, in order |
| Voice.ManualEvents | lib/voice/voiceController.ts:128-141 | at most one event, whose transcript and matched phrase are the command as typed, marked manual (corrected, own keys only; the code as written also publishes for `constructor` and `__proto__`, see `Voice.PrototypeLeak`) |
| Voice.ManualIffAvailable | lib/voice/voiceController.ts:128-145 | a manual command publishes exactly when its lower-cased form is one of the available commands, and then that command's event (corrected, own keys only; the code as written also publishes for `constructor` and `__proto__`, see `Voice.PrototypeLeak`) |
| Voice.LookupTooLong | lib/voice/voiceController.ts:129 | a key longer than every phrase is not found |
| Voice.CommandsWithin16 | lib/voice/voiceController.ts:5-66 | no command phrase is longer than 16 characters |
| Voice.NoBuiltinCommand | lib/voice/voiceController.ts:5-66 | neither `constructor` nor `__proto__` is an own key of the table |
| Voice.ManualStart | lib/voice/voiceController.ts:128-141 | `Start` publishes `voice.start` with the command as typed |
| Voice.ManualNoSubstring | lib/voice/voiceController.ts:129 | a command that only contains a phrase publishes nothing: the manual lookup is exact |
| Voice.ShadowedEvent | lib/voice/voiceController.ts:104-121 | when the first entry's phrase occurs in every phrase for an event and the front part avoids it, the scan never yields that event |
| Voice.UiStartUnreachable | lib/voice/voiceController.ts:5-66 | `start` comes first and occurs in `start conducting`, so spoken text never routes to `ui.start` |
| Voice.PropertyOf | lib/voice/voiceController.ts:129 | property access finds an own command when the key is a phrase, an inherited member when it names one of `Object.prototype`'s, and `undefined` otherwise |
| Voice.LowerPrototypeMembers | lib/voice/voiceController.ts:129 | among the inherited names, only `constructor` and `__proto__` are all lower-case |
| Voice.PrototypeLeak | lib/voice/voiceController.ts:129-130 | as written, a command outside the table publishes exactly when it lower-cases to `constructor` or `__proto__` |
| Voice.ConstructorLeaks | lib/voice/voiceController.ts:129-130 | `constructor` is no command, yet the code as written publishes for it |
| Voice.RouterSeesRawNormalForm | lib/voice/voiceController.ts:101 | re-normalising the text the speech client forwards selects the same command as normalising the raw transcript |
| Voice.VoiceController.InitVoice | lib/voice/voiceController.ts:70-91 | a no-op when initialised; otherwise the flag is set exactly when listening starts, and a failure is rethrown |
| Voice.VoiceController.DisposeVoice | lib/voice/voiceController.ts:93-97 | clears the flag and publishes nothing |
| Voice.VoiceController.RouteVoiceCommand | lib/voice/voiceController.ts:99-125 | the entry found is the first match for the normalised transcript, and exactly its event is published |
| Voice.VoiceController.ManualVoiceCommand | lib/voice/voiceController.ts:128-141 | publishes `ManualEvents` of the command and nothing else (corrected, own keys only; the code as written also publishes for `constructor` and `__proto__`, see `Voice.PrototypeLeak`) |
| Window.WindowSwitch | lib/voice/windowedRecognition.ts:36-56 | at most two events; something is published exactly for the five `case` phrases, and two exactly for `enter club goose` |
| Window.SettingsAndAboutPhrases | lib/voice/windowedRecognition.ts:37-48 | each settings/about phrase publishes exactly its own event, once |
| Window.ClubGoosePublishesTwo | lib/voice/windowedRecognition.ts:49-52 | `enter club goose` publishes `ui.theme.club` and then `vis.burst` |
| Window.OthersPublishNothing | lib/voice/windowedRecognition.ts:53-55 | a transcript whose normal form is not one of the five phrases publishes nothing |
| Window.ContainingIsNotEnough | lib/voice/windowedRecognition.ts:36 | the switch compares for equality: a sentence that contains `open settings` publishes nothing |
| Window.WindowSeesNormalForm | lib/voice/windowedRecognition.ts:31-36 | the window acts on the lower-cased, trimmed transcript, and normalising first changes nothing |
| Window.CaseIgnored | lib/voice/windowedRecognition.ts:31 | upper case in the transcript does not matter |
| Window.PaddingIgnored | lib/voice/windowedRecognition.ts:31 | whitespace around a lower-case transcript does not matter |
| Smoothing.Ema | lib/vision/faceGestures.ts:124-128 | for a factor in [0, 1] the average lies between the previous value and the sample and is no farther from the sample; factor 1 gives the sample and 0 the previous value |
| Smoothing.EmaBetween | lib/vision/faceGestures.ts:125 | the two offset identities of the weighted average place it between its inputs, no farther from the sample |
| Smoothing.SeededEma | lib/vision/gestureDetector.ts:331-336 | a stored 0 is replaced by the raw sample; otherwise the average moves `alpha` of the way to it |
| TimedSamples.RecentFacts | lib/vision/faceGestures.ts:185 | the filter keeps exactly the samples of the window, and only samples of the history |
| TimedSamples.RecentKeepsNewest | lib/vision/faceGestures.ts:182-185 | the sample just pushed survives the prune |
| TimedSamples.RecentAppend | lib/vision/faceGestures.ts:182-185 | pruning an extended history extends the pruned history, in order |
| TimedSamples.RecentIdempotent | lib/vision/faceGestures.ts:185 | pruning twice with the same window is pruning once |
| Face.Smoothed | lib/vision/faceGestures.ts:124-128 | each angle of the smoothed pose lies between the old and the new angle, and the roll moves towards the sample |
| Face.FirstSmoothing | lib/vision/faceGestures.ts:29-39 | from the initial zero pose the first smoothed pose is 0.35 of the sample |
| Face.TiltDirection | lib/vision/faceGestures.ts:137 | right exactly above 0.10, left exactly below -0.10, none in between |
| Face.TiltStep | lib/vision/faceGestures.ts:131-171 | a tilt step leaves the pose, the nod state and the shake history alone |
| Face.TiltFiresIff | lib/vision/faceGestures.ts:131-171 | a tilt fires exactly out of cooldown when the current direction is the held non-zero one for at least 350 ms; firing publishes the toggle for that side, records the time and clears the direction |
| Face.TiltDirectionChanges | lib/vision/faceGestures.ts:139-171 | the stored direction becomes non-zero only from zero, starting the hold clock; out of cooldown any other direction resets it; in cooldown nothing changes |
| Face.TiltRightHeld | lib/vision/faceGestures.ts:139-165 | holding a right tilt from rest for 350 ms toggles the melody: the first frame starts the tilt, the later frame fires |
| Face.ExtremesFacts | lib/vision/faceGestures.ts:190-204 | the scan's minimum is a smallest pitch with every earlier pitch larger, and dually for the maximum |
| Face.ScanExtremes | lib/vision/faceGestures.ts:190-204 | the loop leaves the value and time of the first smallest and the first largest sample |
| Face.PrefixStep | lib/vision/faceGestures.ts:195-204 | one more sample moves an extreme only on a strict improvement |
| Face.NodStep | lib/vision/faceGestures.ts:174-226 | a nod step leaves the pose, the tilt state and the shake history alone |
| Face.NodFiresIff | lib/vision/faceGestures.ts:174-226 | a nod fires exactly out of cooldown when the pruned history has at least three samples, the maximum after the minimum and a rise of at least 0.06; it then publishes one event and clears the history, and otherwise keeps only the last 500 ms, the new sample included |
| Face.NodEvents | lib/vision/faceGestures.ts:207-221 | a nod within 900 ms of the last single nod publishes `voice.faster` and zeroes the nod time; otherwise it publishes stop when playing and start when not, and records the time |
| Face.NoTripleNod | lib/vision/faceGestures.ts:215 | after a double nod has zeroed the time, the next nod is a single one again |
| Face.StepDirection | lib/vision/faceGestures.ts:249 | a yaw step has no direction exactly below 0.08 in size, and otherwise the sign of the step |
| Face.ScanTo | lib/vision/faceGestures.ts:244-258 | the last direction is -1, 0 or 1, a zero direction means no reversal yet, and there are at most `n - 2` reversals |
| Face.CountAlternations | lib/vision/faceGestures.ts:244-258 | the loop counts the reversals of direction among the yaw steps |
| Face.ShakeNeedsFourSamples | lib/vision/faceGestures.ts:241-261 | two reversals need at least four samples |
| Face.JitterNoAlternation | lib/vision/faceGestures.ts:249-257 | steps smaller than 0.08 never count as a reversal |
| Face.OneWayNoAlternation | lib/vision/faceGestures.ts:249-257 | turning one way only is no reversal |
| Face.ShakeExample | lib/vision/faceGestures.ts:244-258 | right, left, right in steps of 0.1 is two reversals |
| Face.ShakeStep | lib/vision/faceGestures.ts:229-267 | a shake step leaves the pose, the tilt state and the nod state alone |
| Face.ShakeFiresIff | lib/vision/faceGestures.ts:229-267 | a shake fires exactly out of cooldown when the pruned 900 ms history has at least two reversals; it publishes `voice.slower`, records the time and clears the history, and otherwise keeps only the window |
| Face.OneGesturePerFrame | lib/vision/faceGestures.ts:270-285 | a frame publishes at most one event, since the first detector to fire puts the later ones in cooldown |
| Face.FaceGestures.SmoothPose | lib/vision/faceGestures.ts:124-128 | the stored pose becomes the smoothed pose and nothing else changes |
| Face.FaceGestures.DetectTilt | lib/vision/faceGestures.ts:131-171 | the module state and the published events are those of `TiltStep` |
| Face.FaceGestures.DetectNod | lib/vision/faceGestures.ts:174-226 | the module state and the published events are those of `NodStep`, with the min/max loop run in place |
| Face.FaceGestures.DetectShake | lib/vision/faceGestures.ts:229-267 | the module state and the published events are those of `ShakeStep`, with the alternation loop run in place |
| Face.FaceGestures.OnResults | lib/vision/faceGestures.ts:270-285 | smooth, then tilt, nod and shake in order: the state and the events are those of `FrameStep` |
| Face.FaceGestures.StartFaceGestures | lib/vision/faceGestures.ts:288-332 | a no-op when running; otherwise running exactly when the camera starts, and a failure is rethrown |
| Face.FaceGestures.StopFaceGestures | lib/vision/faceGestures.ts:335-362 | a no-op when not running; otherwise stopped with every detector variable back at its initial value |
| PoseLandmarks.PointsOf | lib/vision/gestureDetector.ts:173-176 | the four points are landmarks 11, 12, 15 and 16 of the frame |
| PoseLandmarks.AboveImpliesAtLeast | lib/vision/gestureDetector.ts:212 | the strict visibility test of the frame gate implies the non-strict test of the classifiers; a visibility of exactly the minimum passes the second but not the first |
| Gestures.ValidFrameSidesVisible | lib/vision/gestureDetector.ts:178-184 | on a frame that passed the gate, both sides pass the classifiers' own visibility tests, so the classifiers never skip a side |
| Gestures.TapStep | lib/vision/gestureDetector.ts:331-336 | the tap average is seeded with the first sample and smoothed after that |
| Gestures.TapSmoothing | lib/vision/gestureDetector.ts:331-344 | an established average lands between the old average and the sample; a zero average is seeded with the sample; during cooldown only the average changes and nothing fires |
| Gestures.TapArming | lib/vision/gestureDetector.ts:346-351 | an unarmed tap never fires; out of cooldown it arms at `now` exactly when the average is above the peak line |
| Gestures.TapFiring | lib/vision/gestureDetector.ts:352-374 | a tap fires iff it is out of cooldown and armed, 120 ms to `tapMaxMs` have passed since arming, and the average is below the drop line; firing disarms and starts a 900 ms cooldown; past `tapMaxMs` it disarms without firing |
| Gestures.CooldownIsQuiet | lib/vision/gestureDetector.ts:341-344 | over any run of frames before the cooldown ends, nothing fires, and the armed flag and the cooldown end stay the same |
| Gestures.OneTapPerArm | lib/vision/gestureDetector.ts:366-368 | after a tap fires, the next frame cannot fire, and no frame in the following 900 ms fires |
| Gestures.FlickBuffer | lib/vision/gestureDetector.ts:215-227 | after an update, the buffer ends with the new sample and holds only samples from the last 250 ms; if it held at most 15 before, it still does |
| Gestures.FlickEvent | lib/vision/gestureDetector.ts:229-272 | a flick decision is `voice.faster` or `voice.slower` |
| Gestures.FlickFiresIff | lib/vision/gestureDetector.ts:229-272 | a flick fires iff all of these hold: out of the 500 ms cooldown, at least 3 buffered samples, at least 2 samples in the 180 ms window, a positive time span, a speed of at least 1.2 and a movement of at least 0.08; it is `voice.faster` exactly when the movement is upward |
| Gestures.ChopSeedingAndStaleTime | lib/vision/gestureDetector.ts:431-444 | the first sample only seeds the average, the last height and the time, and leaves the latch; a sample that is not later than the last one only smooths |
| Gestures.ChopLatch | lib/vision/gestureDetector.ts:446-461 | a set latch stays set with its time; an unset latch sets, at `now`, exactly when the smoothed wrist is past the chop line and moving down at least `chopMinSpeed` |
| Gestures.HaltFiresIff | lib/vision/gestureDetector.ts:400-505 | within 1500 ms of the last halt nothing changes; otherwise a halt fires iff, after the chop updates, both sides are latched within `chopPairMs` of each other; firing clears both latches, records the time, and sets suppression unless both raw wrists are already 0.06 above their shoulders |
| Gestures.HaltLatchesExpire | lib/vision/gestureDetector.ts:488-494 | out of cooldown, any latch that survives the frame is at most `chopPairMs` old |
| Gestures.NoHaltWithinCooldown | lib/vision/gestureDetector.ts:407-484 | after a halt fires, no frame in the next 1500 ms fires another |
| Gestures.SuppressIsNoGate | lib/vision/gestureDetector.ts:464-505 | whether a halt fires does not depend on `suppressUntilReturn` |
| Gestures.GatedFrames | lib/vision/gestureDetector.ts:165-184 | a frame that is too short, arrives while the camera is disabled, or has an invalid point changes nothing and publishes nothing |
| Gestures.HaltOnlyMode | lib/vision/gestureDetector.ts:188-193 | in halt-only mode only the halt state changes, and the frame publishes at most one event, a `gesture.halt` |
| Gestures.DisabledGesturesOnlyHalt | lib/vision/gestureDetector.ts:290-397 | with gestures disabled, flicks and taps publish nothing; a frame publishes at most one `gesture.halt` |
| Gestures.FlickSuppressesRightTap | lib/vision/gestureDetector.ts:257-322 | a flick records its time, suppresses raises for 400 ms and disarms the right tap, so the right tap does not change in the frame of the flick |
| Gestures.GestureDetector.constructor | lib/vision/gestureDetector.ts:98-116 | a new detector has empty buffers, zero times, unarmed taps and an unchopped pair; it is unsubscribed and has published nothing |
| Gestures.GestureDetector.Init | lib/vision/gestureDetector.ts:118-142 | the detector subscribes once; a repeated call does nothing; the first call starts calibration exactly when not yet calibrated |
| Gestures.GestureDetector.Dispose | lib/vision/gestureDetector.ts:144-163 | the detector unsubscribes and every classifier field returns to its initial value |
| Gestures.GestureDetector.UpdateFlickSamples | lib/vision/gestureDetector.ts:215-227 | the sample buffer becomes the pruned and capped buffer, and nothing else changes |
| Gestures.GestureDetector.CheckFlickGestures | lib/vision/gestureDetector.ts:229-272 | on a flick, the method records its time and suppression, disarms the right tap and publishes the tempo event and its visual event when gestures are enabled; otherwise nothing changes |
| Gestures.GestureDetector.PublishFlick | lib/vision/gestureDetector.ts:274-304 | the method sets the flick time and the raise suppression, and publishes both events only when gestures are enabled |
| Gestures.GestureDetector.ProcessTap | lib/vision/gestureDetector.ts:330-398 | the chosen side's tap state takes one tap step, the other side is untouched, and a fire publishes that side's wave when gestures are enabled |
| Gestures.GestureDetector.CheckQuickTapGestures | lib/vision/gestureDetector.ts:306-328 | the right tap runs only when its side is visible and raise suppression has passed; then the left tap runs if its side is visible |
| Gestures.GestureDetector.ProcessChop | lib/vision/gestureDetector.ts:431-462 | the chosen side's chop state takes one chop step, and nothing else changes |
| Gestures.GestureDetector.CheckDoubleChopCompletion | lib/vision/gestureDetector.ts:464-523 | the halt state becomes the completion step's state, and a fire publishes one `gesture.halt` |
| Gestures.GestureDetector.CheckDoubleChopHalt | lib/vision/gestureDetector.ts:400-429 | the detector's state and outbox become those of the halt stage |
| Gestures.GestureDetector.RunClassifiers | lib/vision/gestureDetector.ts:195-205 | the flick, tap and halt stages run in that order, and their events are appended in that order |
| Gestures.GestureDetector.ProcessLandmarks | lib/vision/gestureDetector.ts:165-206 | the detector's state and outbox become those of one frame step |
| Calibration.Clamp | lib/vision/gestureDetector.ts:82-84 | for ordered bounds the result lies within them; a value inside them is returned unchanged, and one outside is moved to the nearer bound |
| Calibration.Mean | lib/vision/gestureDetector.ts:87-89 | the mean of no values is 0; otherwise the mean times the count is the sum |
| Calibration.MeanWithin | lib/vision/gestureDetector.ts:87-89 | the mean of values within bounds lies within those bounds |
| Calibration.MeanOfConstant | lib/vision/gestureDetector.ts:87-89 | the mean of a constant sequence is that constant |
| Calibration.Variance | lib/vision/gestureDetector.ts:94 | the sample variance, with the n - 1 divisor, is never negative |
| Calibration.StdDev | lib/vision/gestureDetector.ts:91-96 | the result is 0 for fewer than two values, and never negative when `sqrt` is never negative on non-negative inputs |
| Calibration.NoDeviation | lib/vision/gestureDetector.ts:94 | values that all equal the centre have squared deviations summing to 0 |
| Calibration.ConstantHasNoVariance | lib/vision/gestureDetector.ts:91-95 | a wrist that never moves has variance 0 |
| Calibration.SampleOf | lib/vision/gestureDetector.ts:555-577 | a frame gives a sample iff it has at least 17 landmarks, all four points have visibility absent or above the minimum, both shoulders have numeric coordinates and both wrists a numeric height; the sample is stamped `now`, has a non-negative shoulder width, and holds the wrists' heights |
| Calibration.Derive | lib/vision/gestureDetector.ts:620-625 | the five derived thresholds lie in their clamp ranges, and the smoothing, visibility and pair-window settings are unchanged |
| Calibration.Calibrated | lib/vision/gestureDetector.ts:591-625 | fewer than 10 samples fail, and this is the only failure; a success keeps the thresholds in their calibrated ranges and leaves the other settings |
| Calibration.StillBaseline | lib/vision/gestureDetector.ts:620-625 | with no wrist noise at shoulder width 0.25, the tap thresholds take their floors 0.06 and 0.03, the chop thresholds their base values 0.10 and 0.85, and the tap window lies just above 500 ms |
| Calibration.StillWristsCalibrateToFloors | lib/vision/gestureDetector.ts:601-622 | when neither wrist moves in a baseline of at least 10 samples, calibration sets the tap thresholds to 0.06 and 0.03 |
| Calibration.WiderShouldersTighter | lib/vision/gestureDetector.ts:623-625 | wider shoulders never lengthen the tap window and never raise the chop thresholds |
| Calibration.NoisierWristsLooser | lib/vision/gestureDetector.ts:621-622 | more wrist noise never lowers the tap thresholds |
| Calibration.DefaultsInRange | lib/vision/gestureDetector.ts:24-35 | the initial thresholds already lie in the calibrated ranges |
| Calibration.SpeedsTo | lib/vision/gestureDetector.ts:612-618 | only pairs with a time step strictly between 0 and 0.1 s give a speed, so there are fewer speeds than samples, and every speed is non-negative |
| Calibration.SpeedsPaired | lib/vision/gestureDetector.ts:612-618 | both wrists record a speed for the same pairs, so their lists are the same length |
| Calibration.WristSpeeds | lib/vision/gestureDetector.ts:608-618 | the loop's two lists are the specified speeds of the left and right wrists |
| Calibration.Calibrator.constructor | lib/vision/gestureDetector.ts:24-40 | a fresh calibrator starts uncalibrated, with the default thresholds, no collection in progress and no samples |
| Calibration.Calibrator.ProcessCalibrationData | lib/vision/gestureDetector.ts:591-625 | fewer than 10 samples throws and leaves the thresholds; otherwise the thresholds become the calibrated configuration |
| Calibration.Calibrator.Calibrate | lib/vision/gestureDetector.ts:527-536 | once calibrated, the call is skipped and changes nothing; otherwise a new, empty collection starts at `now` |
| Calibration.Calibrator.OnCalibrationFrame | lib/vision/gestureDetector.ts:539-579 | past the duration, the collection ends and the samples are processed, setting `calibrated` only on success; before that, the frame's sample is kept if the filter gives one |
| Colors.HexChar | app/components/StageCanvas.tsx:189 | `toString(16)` writes each value below 16 as one lower-case hexadecimal digit that reads back as that value |
| Colors.HexToRgb | app/components/StageCanvas.tsx:179-186 | every channel is a byte, and a string that does not match the colour pattern gives black |
| Colors.LeadingOne | app/components/StageCanvas.tsx:189 | in base 16, `(16^k + x)` is a `1` followed by exactly k digits of x; this is why `slice(1)` keeps all six digits |
| Colors.RgbToHexForm | app/components/StageCanvas.tsx:188-190 | for byte channels, `rgbToHex` writes `#` and then two lower-case digits per channel |
| Colors.ParseSerialised | app/components/StageCanvas.tsx:179-190 | round trip: parsing a serialised byte colour gives back its channels |
| Colors.SerialiseParsed | app/components/StageCanvas.tsx:179-190 | round trip: serialising a parsed colour gives the lower-case `#` form of the input, with or without its `#` |
| Colors.LayerTints | app/components/StageCanvas.tsx:221-235 | no layer gives no tint; melody adds (20, 0, 15); drums add (25, -5, 0); both add (45, -5, 15) |
| Colors.NoTintIsCanonical | app/components/StageCanvas.tsx:211-218 | with no layer playing, tinting gives back the colour's lower-case form |
| Colors.TintedWithinBytes | app/components/StageCanvas.tsx:211-218 | a tint that keeps every channel a byte is read back as exactly the tinted colour |
| Colors.NegativeGreenBorrows | app/components/StageCanvas.tsx:188-218 | as written, a negative green borrows from red in the packed number, so the colour reads back with red one lower and green wrapped past zero |
| Colors.ClubDrumsTintBorrows | app/components/StageCanvas.tsx:258-264 | as written, the club theme's `#ff00ff` under the drums tint reads back as (254, 251, 255) |
| Colors.Byte | app/components/StageCanvas.tsx:214-216 | the corrected channel clamp keeps a byte unchanged and sends values below 0 to 0 and above 255 to 255 |
| Colors.ApplyColorTintClamped | app/components/StageCanvas.tsx:211-218 | corrected tint: the string reads back as the tinted colour with every channel clamped into 0..255 |
| Colors.ClubDrumsTintClamped | app/components/StageCanvas.tsx:258-264 | with the clamp, the club magenta under the drums tint stays (255, 0, 255) |
| Colors.ClampedAgreesInRange | app/components/StageCanvas.tsx:211-218 | where no channel goes below zero, the corrected tint writes the same string as the one as written |
| Colors.RgbToHex | app/components/StageCanvas.tsx:188-190 | the string starts with `#` |
| Events.EventBus.constructor | lib/eventBus.ts:22 | the bus starts with no listeners |
| Store.Store.constructor | lib/state.ts:5 | the store starts in the initial application state and has notified nobody |
| Transport.Transport.constructor | lib/audio/transport.ts:9-10 | the transport starts neither initialised nor started |
| SoundController.SoundController.constructor | lib/audio/soundController.ts:7-9 | the controller starts unregistered, with audio not ready, an empty backlog, the instruments uninitialised and no instrument calls |
| Speech.SpeechClient.constructor | lib/voice/speechClient.ts:17-20 | the client starts with the mic not ready, no request in flight, no recognition time and nothing published |
| Voice.VoiceController.constructor | lib/voice/voiceController.ts:68 | voice control starts uninitialised and has published nothing |
| Face.FaceGestures.constructor | lib/vision/faceGestures.ts:32-51 | the face engine starts stopped, with a zero pose, zero times and empty histories, and has published nothing |
| GestureController.GestureController.constructor | lib/gestures/gestureController.ts:5 | the controller starts unregistered |
| VisController.VisController.constructor | lib/visuals/visController.ts:4 | the controller starts unregistered |

## Left out

- MediaPipe, the camera and `lib/vision/poseClient.ts`: these are foreign I/O. Landmark frames are an input to `Gestures.GestureDetector.ProcessLandmarks` and to the face detectors. The landmark subscription is modelled as the `subscribed` flag.
- `computeHeadPose`, `loadScripts` and the FaceMesh setup in `lib/vision/faceGestures.ts`: these are floating-point trigonometry and script loading. Head poses are inputs.
- The asynchronous wrapper of `calibrate`: its Promise, its second landmark subscription and its `setTimeout` fallback are callback timing. Concurrent calibrations are left out for the same reason. The already-calibrated guard, the sample filter and `processCalibrationData` are modelled (`Calibration.Calibrator`). The calibration that `init` starts in the background is reported as the result `startsCalibration`.
- `Math.sqrt`: there is no real square root with a body. It is the parameter `sqrt`, and the proved bounds hold whatever it returns.
- The shoulder-height averages of `processCalibrationData` are computed in the source but never used. They are not modelled.
- Floating point: coordinates, speeds and thresholds are exact reals. Rounding, `NaN` and infinities are not modelled. A coordinate that is not a number is an absent `Option`.
- `toFixed` metadata, `console` logging and the browser debug hooks are not modelled. The hooks are `__mmTune`, `__mmOnGesture`, `__mmCalibrate`, `__mmPublish`, `__mmPub`, `__mmSub`, `__mmBus`, `__mmBeep`, `__mmMetro`, `__mmAudioStatus`, `__mmOverlaySet`, `__mmOverlayInfo`, `__faceDbg` and `__testVoiceCommand`. The only part of `__mmTune` that is kept is the threshold record it would overwrite (`Calibration.Config`).
- Gestures.GestureDetector.Dispose: also clears the debug listener set in the source. That set belongs to the debug hooks and is not modelled.
- Published payloads keep only these fields: the firing time of gesture events, the pulse amount, the state snapshot, and the transcript with its matched phrase. The other metadata fields are dropped.
- `initGestureDetector`, `disposeGestureDetector` and `handleCameraStateChange`: the module-level singleton that wraps the detector object is not modelled. The camera check they add is the `cameraEnabled` input of `ProcessLandmarks`.
- The synthesis graph of `lib/audio/instruments.ts` (synths, effects, loops driven by `Math.random`) and the Tone.js calls are left out as external synthesis code. Whether a Tone.js call resolves is an input: `toneOk` for `initTransport`, and a `StartOutcome` of two flags for the two stages of `startTransport`, one per handled or replayed event. The part setters `setLead` .. `setHats`, `toggleMelody` and `toggleDrums` are modelled, because they write `individualLayers` back into the application state; their loop muting is recorded in a `calls` log. Whether the caught setup of `initInstruments` succeeded is the input `instrumentsOk` of `CompleteAudioInit`.
- SoundController.SoundController.SetPart: the `typeof window === 'undefined'` check of the part setters is not modelled; the model always runs in a browser.
- The interleaving of `await`s inside the sound controller's asynchronous subscriber is left out: it is concurrency. Each event is handled to completion.
- `lib/ui/themeController.ts` is not part of this model. It is a Tone.js flourish with timers.
- The Web Speech API objects are left out: creating a recogniser, `initSpeech`, `startListening`, and restarting after `onend`/`onerror`. The model returns the delay at which a restart would happen, and does not model the timer.
- The setup and the 2000 ms timeout of `startVoiceWindow` are left out. Only the transcript-to-events switch is modelled.
- `isVoiceInitialized` is not a member: it only reads the `isInitialized` field of `Voice.VoiceController`.
- The React components, `app/page.tsx` and `app/layout.tsx` are left out, as rendering code. So are `render`, `updateBlobs`, `updateConfetti` and `applySaturationBoost` in `app/components/StageCanvas.tsx`, which are float ratios, random particles and canvas drawing.
- Text.ToLower: only ASCII letters are lowered. JavaScript's `toLowerCase` lowers every Unicode upper-case letter (U+212A KELVIN SIGN becomes `k`) and can change the length (U+0130 becomes two code units), so text with such letters can match a phrase in the source and none in the model.
- Text.LowerChar: the same ASCII-only case mapping as `Text.ToLower`.
- Text.ToLowerChars: keeping the length holds of the ASCII mapping only, not of JavaScript's full Unicode `toLowerCase`.
- Calibration.SampleOf: the source's filter checks only the landmark count and visibility, and would push a sample holding `NaN` or `undefined` when a shoulder coordinate or a wrist height is not a number. Such values have no counterpart among reals, so the model drops those frames instead.
- Colors.RgbToHex: models `<<` as multiplication by a power of two. This is exact while the 32-bit shifts do not overflow, which holds for every channel the tint produces. `Math.round` is the identity on the integer channels that reach it. Fractional channels are not modelled.

## Findings

| source | as written | input that shows it | evidently intended | confidence | as-written member | corrected member |
|---|---|---|---|---|---|---|
| lib/voice/voiceController.ts:129-130 | `VOICE_COMMANDS[command.toLowerCase()]` reads through the object's prototype chain, so the truthiness test also passes for inherited members | `manualVoiceCommand("constructor")` publishes an event whose type is the `Object` constructor function (`"__proto__"` does the same with the prototype) | only the table's own phrases publish, and any other command publishes nothing | not executed | Voice.PrototypeLeak, Voice.ConstructorLeaks | Voice.ManualIffAvailable |
| app/components/StageCanvas.tsx:211-218 | `applyColorTint` caps each channel at 255 but has no lower bound, and `rgbToHex` adds the shifted channels into one integer | the club theme's `#ff00ff` with only drums playing gets green -5, which borrows from red and is drawn as `#fefbff` | each channel clamped into 0..255, giving `#ff00ff` | not executed | Colors.ClubDrumsTintBorrows, Colors.NegativeGreenBorrows | Colors.ApplyColorTintClamped, Colors.ClubDrumsTintClamped |
