/**
 * Time-stamped samples and the `filter(s => now - s.t <= window)` pruning that the flick
 * buffer of lib/vision/gestureDetector.ts and the nod and shake histories of
 * lib/vision/faceGestures.ts share.
 */
module TimedSamples {

  /** A reading (a wrist y, a head pitch or yaw) and the time it was taken. */
  datatype Sample = Sample(time: int, value: real)

  /** `history.filter(h => now - h.time <= window)` */
  function Recent(h: seq<Sample>, now: int, window: int): (r: seq<Sample>)
    ensures |r| <= |h|
  {
    if |h| == 0 then []
    else
      var rest := Recent(h[1..], now, window);
      if now - h[0].time <= window then [h[0]] + rest else rest
  }

  /** The filter keeps exactly the samples of the window, and only samples of the history. */
  lemma {:induction false} RecentFacts(h: seq<Sample>, now: int, window: int)
    ensures forall i :: 0 <= i < |Recent(h, now, window)| ==>
              now - Recent(h, now, window)[i].time <= window && Recent(h, now, window)[i] in h
    ensures forall s :: s in h && now - s.time <= window ==> s in Recent(h, now, window)
  {
    if |h| > 0 {
      RecentFacts(h[1..], now, window);
      assert forall s :: s in h[1..] ==> s in h;
      assert forall s :: s in h ==> s == h[0] || s in h[1..];
    }
  }

  /** The sample just pushed is never pruned. */
  lemma RecentKeepsNewest(h: seq<Sample>, now: int, v: real, window: nat)
    ensures Sample(now, v) in Recent(h + [Sample(now, v)], now, window)
  {
    RecentFacts(h + [Sample(now, v)], now, window);
  }

  /** Filtering keeps the order: the filter of an extended history extends the filter. */
  lemma {:induction false} RecentAppend(h: seq<Sample>, s: Sample, now: int, window: int)
    ensures Recent(h + [s], now, window) ==
            Recent(h, now, window) + (if now - s.time <= window then [s] else [])
  {
    if |h| > 0 {
      assert (h + [s])[1..] == h[1..] + [s];
      RecentAppend(h[1..], s, now, window);
    }
  }

  /** Filtering twice with the same window changes nothing. */
  lemma {:induction false} RecentIdempotent(h: seq<Sample>, now: int, window: int)
    ensures Recent(Recent(h, now, window), now, window) == Recent(h, now, window)
  {
    if |h| > 0 {
      RecentIdempotent(h[1..], now, window);
    }
  }

}
