/**
 * First-match phrase tables: both voice modules walk an ordered table of
 * (phrase, event) entries and take the first phrase the text contains.
 */
module Phrases {
  import opened Wrappers
  import opened Text
  import opened Events

  /** A phrase table entry, and also the `{ event, matchedPhrase }` result of a lookup. */
  datatype Match = Match(event: EventType, phrase: string)

  /** Index of the first entry whose phrase `text` contains; `|entries|` when there is none. */
  function FirstHit(text: string, entries: seq<Match>): (k: nat)
    ensures k <= |entries|
    ensures forall j :: 0 <= j < k ==> !Contains(text, entries[j].phrase)
    ensures k < |entries| ==> Contains(text, entries[k].phrase)
  {
    if |entries| == 0 then 0
    else if Contains(text, entries[0].phrase) then 0
    else 1 + FirstHit(text, entries[1..])
  }

  /** The first entry whose phrase `text` contains, if any. */
  function FirstMatch(text: string, entries: seq<Match>): (r: Option<Match>)
    ensures r.None? <==> forall j :: 0 <= j < |entries| ==> !Contains(text, entries[j].phrase)
    ensures r.Some? ==> exists k :: 0 <= k < |entries| && entries[k] == r.value &&
                          Contains(text, r.value.phrase) &&
                          forall j :: 0 <= j < k ==> !Contains(text, entries[j].phrase)
  {
    var k := FirstHit(text, entries);
    if k < |entries| then Some(entries[k]) else None
  }

  /** Searching a concatenation searches the first part, then the second. */
  lemma {:induction false} FirstMatchAppend(text: string, a: seq<Match>, b: seq<Match>)
    ensures FirstMatch(text, a + b) == if FirstMatch(text, a).Some? then FirstMatch(text, a) else FirstMatch(text, b)
    decreases |a|
  {
    if |a| > 0 {
      assert (a + b)[1..] == a[1..] + b;
      FirstMatchAppend(text, a[1..], b);
      if !Contains(text, a[0].phrase) {
        assert FirstHit(text, a + b) == 1 + FirstHit(text, a[1..] + b);
        assert FirstHit(text, a) == 1 + FirstHit(text, a[1..]);
      }
    } else {
      assert a + b == b;
    }
  }

  /**
   * An entry that comes after an entry whose phrase it contains can never be the first
   * hit: whatever text contains the later phrase also contains the earlier one.
   */
  lemma Shadowed(text: string, entries: seq<Match>, j: nat, k: nat)
    requires j < k < |entries|
    requires Contains(entries[k].phrase, entries[j].phrase)
    ensures FirstHit(text, entries) != k
  {
    if Contains(text, entries[k].phrase) {
      ContainsTransitive(text, entries[k].phrase, entries[j].phrase);
    }
  }
}
