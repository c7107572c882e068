/**
 * The results callback of the hand-landmark hook: it counts frames, forwards
 * every `processEvery`-th one, publishes a copy of the first hand's keypoints
 * (or nothing when no hand is seen) with the frame's time, and does nothing
 * once the effect run that registered it has been stopped.
 */
module Hands {
  import opened Types
  import Constants

  datatype StreamStatus = Idle | Loading | Streaming | Error

  /** A keypoint as the landmark source reports it; only x, y and z are kept. */
  datatype SourceLandmark = SourceLandmark(x: real, y: real, z: real, visibility: Option<real>)

  /**
   * Whether frame number `frame` is forwarded under `frameCount % every !== 0`:
   * a zero divisor yields NaN in the source, which is never 0, so nothing is
   * forwarded then. For a non-zero divisor the remainder is zero exactly when
   * `every` divides `frame`, whichever rounding `%` uses.
   */
  function Forwarded(frame: nat, every: int): (forwarded: bool)
    ensures every == 0 ==> !forwarded
    ensures every == 1 || every == -1 ==> forwarded
    ensures every != 0 ==> (forwarded <==> frame == (frame / every) * every)
  {
    every != 0 && frame % every == 0
  }

  /** How many of the frames numbered 1 to n are forwarded. */
  function ForwardedCount(n: nat, every: int): nat
  {
    if n == 0 then 0
    else ForwardedCount(n - 1, every) + (if Forwarded(n, every) then 1 else 0)
  }

  /** A positive multiple of e is at least e; a negative one at most -e. */
  lemma {:induction false} MultipleBound(d: int, e: int)
    requires e > 0
    ensures d >= 1 ==> d * e >= e
    ensures d <= -1 ==> d * e <= -e
    decreases if d < 0 then -d else d
  {
    if d > 1 {
      MultipleBound(d - 1, e);
      assert d * e == (d - 1) * e + e;
    } else if d < -1 {
      MultipleBound(d + 1, e);
      assert d * e == (d + 1) * e - e;
    }
  }

  /** Integer division and remainder are determined by the defining equation. */
  lemma DivModUnique(n: int, e: int, q: int, r: int)
    requires e > 0 && 0 <= r < e && n == q * e + r
    ensures n / e == q && n % e == r
  {
    var q', r' := n / e, n % e;
    assert n == q' * e + r';
    assert (q' - q) * e == r - r' by {
      assert (q' - q) * e == q' * e - q * e;
    }
    MultipleBound(q' - q, e);
  }

  /** Advancing one frame raises the quotient exactly when the new frame is a multiple. */
  lemma DivStep(n: nat, e: int)
    requires n >= 1 && e >= 1
    ensures n / e == (n - 1) / e + (if n % e == 0 then 1 else 0)
  {
    var q, r := (n - 1) / e, (n - 1) % e;
    assert n - 1 == q * e + r;
    if r == e - 1 {
      DivModUnique(n, e, q + 1, 0);
    } else {
      DivModUnique(n, e, q, r + 1);
    }
  }

  /** With `processEvery` = e >= 1, exactly n / e of the first n frames are forwarded. */
  lemma {:induction false} ForwardedCountIsQuotient(n: nat, every: int)
    requires every >= 1
    ensures ForwardedCount(n, every) == n / every
  {
    if n > 0 {
      ForwardedCountIsQuotient(n - 1, every);
      DivStep(n, every);
    }
  }

  /** The default `processEvery` of 1 forwards every frame. */
  lemma {:induction false} DefaultForwardsEveryFrame(n: nat)
    ensures ForwardedCount(n, 1) == n
  {
    ForwardedCountIsQuotient(n, 1);
  }

  /** The published copy of one hand: same length and order, x, y and z unchanged. */
  function CopyHand(hand: seq<SourceLandmark>): (copy: seq<Point>)
    ensures |copy| == |hand|
    ensures forall i :: 0 <= i < |hand| ==>
              copy[i] == Point(hand[i].x, hand[i].y, hand[i].z)
  {
    seq(|hand|, i requires 0 <= i < |hand| => Point(hand[i].x, hand[i].y, hand[i].z))
  }

  /**
   * What a forwarded frame publishes: a copy of the first hand when the
   * source reports at least one, otherwise nothing.
   */
  function FirstHand(multiHandLandmarks: Option<seq<seq<SourceLandmark>>>): (published: Option<seq<Point>>)
    ensures published.Some? <==> multiHandLandmarks.Some? && |multiHandLandmarks.value| > 0
    ensures published.Some? ==> published.value == CopyHand(multiHandLandmarks.value[0])
  {
    if multiHandLandmarks.Some? && |multiHandLandmarks.value| > 0
    then Some(CopyHand(multiHandLandmarks.value[0]))
    else None
  }

  /**
   * The state one run of the hook's effect works on: its own frame counter
   * and stop flag, and the hook's published keypoints and frame time.
   */
  class HandsCallback {
    const processEvery: int
    var frameCount: nat
    var stopped: bool
    var landmarks: Option<seq<Point>>
    var frameTimestamp: Option<real>
    /** How many frames this run has published. */
    ghost var published: nat

    ghost predicate Valid()
      reads this
    {
      published == ForwardedCount(frameCount, processEvery)
    }

    /**
     * A new effect run: the counter starts at 0 and the run is live. The
     * published state is the hook's current state, carried over.
     */
    constructor (processEveryOption: Option<int>, landmarks: Option<seq<Point>>, frameTimestamp: Option<real>)
      ensures Valid()
      ensures processEvery == (if processEveryOption.Some? then processEveryOption.value else 1)
      ensures frameCount == 0 && !stopped && published == 0
      ensures this.landmarks == landmarks && this.frameTimestamp == frameTimestamp
    {
      processEvery := if processEveryOption.Some? then processEveryOption.value else 1;
      frameCount := 0;
      stopped := false;
      this.landmarks := landmarks;
      this.frameTimestamp := frameTimestamp;
      published := 0;
    }

    /** One results callback; `now` is the clock reading taken when a frame is published. */
    method OnResults(multiHandLandmarks: Option<seq<seq<SourceLandmark>>>, now: real)
      requires Valid()
      modifies this
      ensures Valid()
      ensures old(stopped) ==>
                && frameCount == old(frameCount) && stopped && published == old(published)
                && landmarks == old(landmarks) && frameTimestamp == old(frameTimestamp)
      ensures !old(stopped) ==> frameCount == old(frameCount) + 1 && !stopped
      ensures !old(stopped) && Forwarded(frameCount, processEvery) ==>
                && landmarks == FirstHand(multiHandLandmarks)
                && frameTimestamp == Some(now)
                && published == old(published) + 1
      ensures !old(stopped) && !Forwarded(frameCount, processEvery) ==>
                && landmarks == old(landmarks)
                && frameTimestamp == old(frameTimestamp)
                && published == old(published)
    {
      if stopped {
        return;
      }
      frameCount := frameCount + 1;
      if !Forwarded(frameCount, processEvery) {
        return;
      }
      if multiHandLandmarks.Some? && |multiHandLandmarks.value| > 0 {
        var firstHand := multiHandLandmarks.value[0];
        var mapped := CopyHand(firstHand);
        landmarks := Some(mapped);
      } else {
        landmarks := None;
      }
      frameTimestamp := Some(now);
      published := published + 1;
    }

    /** The effect's cleanup marks the run stopped. */
    method Stop()
      requires Valid()
      modifies this
      ensures Valid() && stopped
      ensures frameCount == old(frameCount) && published == old(published)
      ensures landmarks == old(landmarks) && frameTimestamp == old(frameTimestamp)
    {
      stopped := true;
    }

    /** With `processEvery` >= 1, the run has published frameCount / processEvery frames. */
    lemma PublishedIsQuotient()
      requires Valid() && processEvery >= 1
      ensures published == frameCount / processEvery
    {
      ForwardedCountIsQuotient(frameCount, processEvery);
    }
  }

  /** The source is asked for one hand, and only the first reported hand is consumed. */
  lemma OnlyFirstHandConsumed(hands: seq<seq<SourceLandmark>>)
    requires |hands| == Constants.MaxHands
    ensures FirstHand(Some(hands)) == Some(CopyHand(hands[0]))
  {
  }
}
