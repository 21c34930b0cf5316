/** The gaps that both clocks of a gate tolerate, the pass's and the estimator's: `times` are the times of the reads. */
module Cadence {

  /** The gap before read `i` is within the hard limit, and within three times a positive gap before it. */
  predicate Fits(times: seq<int>, hardGap: int, i: nat)
    requires 0 < i < |times|
  {
    var gap := times[i] - times[i - 1];
    gap <= hardGap && (i > 1 && times[i - 1] > times[i - 2] ==> gap <= 3 * (times[i - 1] - times[i - 2]))
  }

  ghost predicate Even(times: seq<int>, hardGap: int) {
    forall i: nat | 0 < i < |times| :: Fits(times, hardGap, i)
  }

  lemma EvenOneFurther(times: seq<int>, hardGap: int)
    requires |times| >= 2
    ensures Even(times, hardGap) <==> Even(times[..|times| - 1], hardGap) && Fits(times, hardGap, |times| - 1)
  {
    var before := times[..|times| - 1];
    assert forall i: nat | 0 < i < |before| :: Fits(before, hardGap, i) == Fits(times, hardGap, i);
  }

  /** The same, going on from a last read and the gap learned before it; 0 stands for no last read and no learned gap. */
  predicate EvenFrom(last: int, learned: int, times: seq<int>, hardGap: int)
    decreases |times|
  {
    times == [] ||
    (var gap := times[0] - last;
     (last != 0 ==> gap <= hardGap && (learned > 0 ==> gap <= 3 * learned)) &&
     EvenFrom(times[0], if last != 0 then gap else learned, times[1..], hardGap))
  }

  /** Seen from the read `i` on, the two say the same. */
  lemma EvenIsEvenFrom(times: seq<int>, hardGap: int, i: nat)
    requires i < |times| && forall k | 0 <= k < |times| :: times[k] != 0
    ensures EvenFrom(times[i], if i > 0 then times[i] - times[i - 1] else 0, times[i + 1..], hardGap) <==>
      forall k: nat | i < k < |times| :: Fits(times, hardGap, k)
    decreases |times| - i
  {
    if i + 1 == |times| {
    } else {
      EvenIsEvenFrom(times, hardGap, i + 1);
      assert times[i + 1..][0] == times[i + 1] && times[i + 1..][1..] == times[i + 2..];
      assert (forall k: nat | i < k < |times| :: Fits(times, hardGap, k)) <==>
        Fits(times, hardGap, i + 1) && (forall k: nat | i + 1 < k < |times| :: Fits(times, hardGap, k));
    }
  }
}
