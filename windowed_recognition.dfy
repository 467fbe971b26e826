/**
 * The short voice window of lib/voice/windowedRecognition.ts: the first result's transcript
 * is lower-cased and trimmed, then compared for equality with five UI phrases.
 */
module Window {
  import opened Text
  import opened Events

  /** The `case` labels of the `switch`. */
  const WindowPhrases: seq<string> :=
    ["open settings", "close settings", "open about", "close about", "enter club goose"]

  /** The `switch (transcript)`: what is published for the normalised transcript. */
  function WindowSwitch(text: string): (r: seq<AppEvent>)
    ensures |r| <= 2
    ensures r != [] <==> text in WindowPhrases
    ensures |r| == 2 <==> text == "enter club goose"
  {
    if text == "open settings" then [Bare(UiSettingsOpen)]
    else if text == "close settings" then [Bare(UiSettingsClose)]
    else if text == "open about" then [Bare(UiAboutOpen)]
    else if text == "close about" then [Bare(UiAboutClose)]
    else if text == "enter club goose" then [Bare(UiThemeClub), Bare(VisBurst)]
    else []
  }

  /** `onresult`: `results[0][0].transcript.toLowerCase().trim()`, then the switch. */
  function WindowEvents(transcript: string): seq<AppEvent> {
    WindowSwitch(Normalize(transcript))
  }

  /** Each settings/about phrase publishes exactly its own event, once. */
  lemma SettingsAndAboutPhrases()
    ensures WindowSwitch("open settings") == [Bare(UiSettingsOpen)]
    ensures WindowSwitch("close settings") == [Bare(UiSettingsClose)]
    ensures WindowSwitch("open about") == [Bare(UiAboutOpen)]
    ensures WindowSwitch("close about") == [Bare(UiAboutClose)]
  {}

  /** "enter club goose" switches the theme, then bursts the visuals. */
  lemma ClubGoosePublishesTwo()
    ensures WindowSwitch("enter club goose") == [Bare(UiThemeClub), Bare(VisBurst)]
  {}

  /**
   * The match is on equality, not on containment: a transcript whose normal form is not one
   * of the five phrases publishes nothing, whatever phrase it contains.
   */
  lemma OthersPublishNothing(transcript: string)
    requires Normalize(transcript) !in WindowPhrases
    ensures WindowEvents(transcript) == []
  {}

  /** A longer sentence that contains "open settings" publishes nothing. */
  lemma ContainingIsNotEnough()
    ensures WindowSwitch("please open settings") == []
  {
    assert |"please open settings"| == 20;
  }

  /** Case and surrounding whitespace do not matter: the window sees the normal form. */
  lemma WindowSeesNormalForm(transcript: string)
    ensures WindowEvents(transcript) == WindowSwitch(Normalize(transcript))
    ensures WindowEvents(Normalize(transcript)) == WindowEvents(transcript)
  {
    NormalizeIdempotent(transcript);
  }

  /** Upper case does not matter. */
  lemma CaseIgnored(transcript: string)
    ensures WindowEvents(ToLower(transcript)) == WindowEvents(transcript)
  {
    ToLowerIdempotent(transcript);
    TrimOfEqual(ToLower(ToLower(transcript)), ToLower(transcript));
  }

  /** Whitespace around a lower-case text does not matter. */
  lemma PaddingIgnored(pre: string, m: string, post: string)
    requires AllSpace(pre) && AllSpace(post) && NoUpper(m)
    requires |m| > 0 ==> !IsSpace(m[0]) && !IsSpace(m[|m| - 1])
    ensures WindowEvents(pre + m + post) == WindowSwitch(m)
  {
    LowerTrimOfSplit(pre, m, post);
    ToLowerOfLower(m);
  }
}
