// The ball and putter tracker: one exponentially smoothed track per class,
// with snapping on (re)acquisition, coasting through short detection gaps and a hard
// cut-off after too many missed frames.
module Tracking {
  import opened Results
  import opened FramePipeline
  import opened Numeric

  const BallClass: int := 0
  const PutterClass: int := 1

  /// Below this frame interval (seconds) the velocity estimate is left alone.
  const VelocityEpsilon: real := 0.000001

  /// Per-frame velocity decay while coasting.
  const CoastDecay: real := 0.9

  /// Smoothed state of one tracked object.
  datatype TrackedObject = TrackedObject(
    classId: int,
    x: real, y: real,          // smoothed centre (px)
    vx: real, vy: real,        // estimated velocity (px/s)
    confidence: real,
    framesSinceSeen: int,
    valid: bool)

  /// A freshly constructed track: no class, at the origin, at rest, not valid.
  const DefaultTrack := TrackedObject(-1, 0.0, 0.0, 0.0, 0.0, 0.0, 0, false)

  /// The track invariant: a track that is not valid is at rest, and the miss
  /// counter is never negative.
  predicate TrackInvariant(t: TrackedObject)
  {
    (!t.valid ==> t.vx == 0.0 && t.vy == 0.0) && t.framesSinceSeen >= 0
  }

  lemma DefaultTrackSatisfiesInvariant()
    ensures !DefaultTrack.valid && TrackInvariant(DefaultTrack)
    ensures DefaultTrack.classId == -1 && DefaultTrack.framesSinceSeen == 0
  {
  }

  // ---- choosing the observation of each class ----

  /// Confidence of the currently chosen detection, 0 when none is chosen yet.
  function BestConfidence(dets: seq<Detection>, best: Option<nat>): real
  {
    if best.Some? && best.value < |dets| then dets[best.value].confidence else 0.0
  }

  /// The index the selection loop ends with for class `cls`: scanning left to right,
  /// a detection of that class replaces the current choice when its confidence is
  /// strictly greater (the initial bar being 0).
  function BestIndex(dets: seq<Detection>, cls: int): (r: Option<nat>)
    ensures r.Some? ==> r.value < |dets| && dets[r.value].classId == cls && dets[r.value].confidence > 0.0
    decreases |dets|
  {
    if dets == [] then None
    else
      var prev := BestIndex(dets[..|dets| - 1], cls);
      var d := dets[|dets| - 1];
      if d.classId == cls && d.confidence > BestConfidence(dets, prev) then Some(|dets| - 1) else prev
  }

  /// `best` is the first detection of class `cls` with the greatest positive confidence,
  /// or there is none when no detection of that class has positive confidence.
  ghost predicate IsFirstBest(dets: seq<Detection>, cls: int, best: Option<nat>)
  {
    match best
    case None => forall j :: 0 <= j < |dets| && dets[j].classId == cls ==> dets[j].confidence <= 0.0
    case Some(b) =>
      b < |dets| && dets[b].classId == cls && dets[b].confidence > 0.0
      && (forall j :: 0 <= j < |dets| && dets[j].classId == cls ==> dets[j].confidence <= dets[b].confidence)
      && (forall j :: 0 <= j < b && dets[j].classId == cls ==> dets[j].confidence < dets[b].confidence)
  }

  /// The selection loop picks the first maximal-confidence detection of the class; it never
  /// picks one of another class or one with confidence <= 0.
  lemma {:induction false} BestIndexIsFirstBest(dets: seq<Detection>, cls: int)
    ensures IsFirstBest(dets, cls, BestIndex(dets, cls))
    decreases |dets|
  {
    if dets != [] {
      var pre := dets[..|dets| - 1];
      BestIndexIsFirstBest(pre, cls);
      assert forall j :: 0 <= j < |pre| ==> pre[j] == dets[j];
    }
  }

  /// There is only one first-best choice, so `BestIndex` is characterised by `IsFirstBest`.
  lemma FirstBestUnique(dets: seq<Detection>, cls: int, a: Option<nat>, b: Option<nat>)
    requires IsFirstBest(dets, cls, a) && IsFirstBest(dets, cls, b)
    ensures a == b
  {
    if a.Some? && b.Some? {
      assert dets[a.value].confidence == dets[b.value].confidence;
    }
  }

  /// The detection at an optional index.
  function Chosen(dets: seq<Detection>, best: Option<nat>): Option<Detection>
  {
    if best.Some? && best.value < |dets| then Some(dets[best.value]) else None
  }

  /// The selection loop of `Tracker::update`, run once over the detections for both classes.
  method SelectBest(detections: seq<Detection>) returns (bestBall: Option<nat>, bestPutter: Option<nat>)
    ensures bestBall == BestIndex(detections, BallClass)
    ensures bestPutter == BestIndex(detections, PutterClass)
  {
    bestBall, bestPutter := None, None;
    var bestBallConf, bestPutterConf := 0.0, 0.0;
    for i := 0 to |detections|
      invariant bestBall == BestIndex(detections[..i], BallClass)
      invariant bestPutter == BestIndex(detections[..i], PutterClass)
      invariant bestBallConf == BestConfidence(detections[..i], bestBall)
      invariant bestPutterConf == BestConfidence(detections[..i], bestPutter)
    {
      var d := detections[i];
      assert detections[..i + 1][..i] == detections[..i];
      if d.classId == BallClass && d.confidence > bestBallConf {
        bestBall := Some(i);
        bestBallConf := d.confidence;
      } else if d.classId == PutterClass && d.confidence > bestPutterConf {
        bestPutter := Some(i);
        bestPutterConf := d.confidence;
      }
    }
    assert detections[..|detections|] == detections;
  }

  // ---- updating one track ----

  /// `Tracker::update_track`: snap on acquisition, exponential smoothing of position and
  /// velocity while tracked, coasting with decaying velocity through a miss, and loss
  /// after more than `maxLost` consecutive misses.
  function UpdateTrack(t: TrackedObject, det: Option<Detection>, dt: real, alpha: real, maxLost: int): (r: TrackedObject)
    ensures r.classId == t.classId
    ensures det.Some? ==> r.valid && r.confidence == det.value.confidence && r.framesSinceSeen == 0
    ensures det.None? ==> r.framesSinceSeen == t.framesSinceSeen + 1 && r.confidence == t.confidence
    ensures TrackInvariant(t) ==> TrackInvariant(r)
  {
    match det
    case Some(d) =>
      var moved :=
        if !t.valid then
          t.(x := d.Cx(), y := d.Cy(), vx := 0.0, vy := 0.0)
        else
          var nx := alpha * d.Cx() + (1.0 - alpha) * t.x;
          var ny := alpha * d.Cy() + (1.0 - alpha) * t.y;
          if dt > VelocityEpsilon then
            t.(x := nx, y := ny,
               vx := alpha * ((nx - t.x) / dt) + (1.0 - alpha) * t.vx,
               vy := alpha * ((ny - t.y) / dt) + (1.0 - alpha) * t.vy)
          else
            t.(x := nx, y := ny);
      moved.(confidence := d.confidence, framesSinceSeen := 0, valid := true)
    case None =>
      var missed := t.framesSinceSeen + 1;
      if missed > maxLost then
        t.(framesSinceSeen := missed, valid := false, vx := 0.0, vy := 0.0)
      else if t.valid then
        t.(framesSinceSeen := missed,
           x := t.x + t.vx * dt, y := t.y + t.vy * dt,
           vx := t.vx * CoastDecay, vy := t.vy * CoastDecay)
      else
        t.(framesSinceSeen := missed)
  }

  /// Acquiring a track snaps it exactly to the detection centre, at rest.
  lemma SnapOnAcquire(t: TrackedObject, d: Detection, dt: real, alpha: real, maxLost: int)
    requires !t.valid
    ensures var r := UpdateTrack(t, Some(d), dt, alpha, maxLost);
      r.valid && r.x == d.Cx() && r.y == d.Cy() && r.vx == 0.0 && r.vy == 0.0
  {
  }

  /// A convex combination with weight `alpha` in [0, 1] lies between its two end points.
  lemma BlendBetween(alpha: real, obs: real, prev: real, v: real)
    requires 0.0 <= alpha <= 1.0
    requires v == alpha * obs + (1.0 - alpha) * prev
    ensures (prev <= obs ==> prev <= v <= obs) && (obs <= prev ==> obs <= v <= prev)
  {
    assert v == prev + alpha * (obs - prev) == obs - (1.0 - alpha) * (obs - prev);
    if prev <= obs {
      MulNonNegative(alpha, obs - prev);
      MulNonNegative(1.0 - alpha, obs - prev);
    } else {
      MulNonNegative(alpha, prev - obs);
      MulNonNegative(1.0 - alpha, prev - obs);
    }
  }

  /// Smoothing a tracked position moves it onto the segment between the old position
  /// and the observed centre.
  lemma SmoothedPositionBetween(t: TrackedObject, d: Detection, dt: real, alpha: real, maxLost: int)
    requires t.valid && 0.0 <= alpha <= 1.0
    ensures var r := UpdateTrack(t, Some(d), dt, alpha, maxLost);
      (t.x <= d.Cx() ==> t.x <= r.x <= d.Cx()) && (d.Cx() <= t.x ==> d.Cx() <= r.x <= t.x)
      && (t.y <= d.Cy() ==> t.y <= r.y <= d.Cy()) && (d.Cy() <= t.y ==> d.Cy() <= r.y <= t.y)
  {
    var r := UpdateTrack(t, Some(d), dt, alpha, maxLost);
    SmoothedPosition(t, d, dt, alpha, maxLost);
    var cx, cy := d.Cx(), d.Cy();
    BlendBetween(alpha, cx, t.x, r.x);
    BlendBetween(alpha, cy, t.y, r.y);
  }

  /// Smoothing a tracked position blends the observed centre into it with weight `alpha`.
  lemma SmoothedPosition(t: TrackedObject, d: Detection, dt: real, alpha: real, maxLost: int)
    requires t.valid
    ensures var r := UpdateTrack(t, Some(d), dt, alpha, maxLost);
      r.x == alpha * d.Cx() + (1.0 - alpha) * t.x && r.y == alpha * d.Cy() + (1.0 - alpha) * t.y
  {
  }

  /// The velocity of a tracked object is re-estimated only when `dt` exceeds the epsilon,
  /// as the smoothed displacement per second.
  lemma SmoothedVelocity(t: TrackedObject, d: Detection, dt: real, alpha: real, maxLost: int)
    requires t.valid
    ensures var r := UpdateTrack(t, Some(d), dt, alpha, maxLost);
      (dt <= VelocityEpsilon ==> r.vx == t.vx && r.vy == t.vy)
      && (dt > VelocityEpsilon ==>
            r.vx == alpha * ((r.x - t.x) / dt) + (1.0 - alpha) * t.vx
            && r.vy == alpha * ((r.y - t.y) / dt) + (1.0 - alpha) * t.vy)
  {
  }

  /// A miss counts one more frame; past `maxLost` the track is lost and at rest, otherwise
  /// a valid track coasts on its velocity, which then decays, and an invalid one stays put.
  lemma MissOutcome(t: TrackedObject, dt: real, alpha: real, maxLost: int)
    ensures var r := UpdateTrack(t, None, dt, alpha, maxLost);
      r.framesSinceSeen == t.framesSinceSeen + 1
      && (r.framesSinceSeen > maxLost ==> !r.valid && r.vx == 0.0 && r.vy == 0.0 && r.x == t.x && r.y == t.y)
      && (r.framesSinceSeen <= maxLost && t.valid ==>
            r.valid && r.x == t.x + t.vx * dt && r.y == t.y + t.vy * dt
            && r.vx == 0.9 * t.vx && r.vy == 0.9 * t.vy)
      && (r.framesSinceSeen <= maxLost && !t.valid ==>
            !r.valid && r.x == t.x && r.y == t.y && r.vx == t.vx && r.vy == t.vy)
  {
  }

  /// Coasting example: a track at velocity (10, 0) with `maxLost` 3 survives three misses at
  /// dt = 1, its speed decaying by 0.9 each time, and is lost with zero velocity on the fourth.
  lemma CoastThenLose(t: TrackedObject, alpha: real)
    requires t.valid && t.vx == 10.0 && t.vy == 0.0 && t.framesSinceSeen == 0
    ensures var r1 := UpdateTrack(t, None, 1.0, alpha, 3);
      var r2 := UpdateTrack(r1, None, 1.0, alpha, 3);
      var r3 := UpdateTrack(r2, None, 1.0, alpha, 3);
      var r4 := UpdateTrack(r3, None, 1.0, alpha, 3);
      r1.valid && r1.vx == 9.0 && r1.x == t.x + 10.0
      && r2.valid && r2.vx == 8.1 && r2.x == t.x + 19.0
      && r3.valid && r3.vx == 7.29 && r3.x == t.x + 27.1
      && !r4.valid && r4.vx == 0.0 && r4.vy == 0.0
  {
  }

  /// The tracker: one track per class, updated once per frame.
  class Tracker {
    /// Smoothing factor (documented range 0..1, higher is more responsive).
    const alpha: real
    /// Consecutive missed frames tolerated before a track is lost.
    const maxLost: int
    var ball: TrackedObject
    var putter: TrackedObject

    ghost predicate Valid()
      reads this
    {
      ball.classId == BallClass && putter.classId == PutterClass
      && TrackInvariant(ball) && TrackInvariant(putter)
    }

    constructor(alpha: real := 0.6, maxLost: int := 15)
      ensures this.alpha == alpha && this.maxLost == maxLost
      ensures ball == DefaultTrack.(classId := BallClass)
      ensures putter == DefaultTrack.(classId := PutterClass)
      ensures Valid()
    {
      this.alpha := alpha;
      this.maxLost := maxLost;
      ball := DefaultTrack.(classId := BallClass);
      putter := DefaultTrack.(classId := PutterClass);
    }

    /// Feeds one frame's detections: the ball track sees only the best class-0 detection
    /// and the putter track only the best class-1 detection.
    method Update(detections: seq<Detection>, dt: real)
      requires Valid()
      modifies this
      ensures Valid()
      ensures ball == UpdateTrack(old(ball), Chosen(detections, BestIndex(detections, BallClass)), dt, alpha, maxLost)
      ensures putter == UpdateTrack(old(putter), Chosen(detections, BestIndex(detections, PutterClass)), dt, alpha, maxLost)
    {
      var bestBall, bestPutter := SelectBest(detections);
      ball := UpdateTrack(ball, Chosen(detections, bestBall), dt, alpha, maxLost);
      putter := UpdateTrack(putter, Chosen(detections, bestPutter), dt, alpha, maxLost);
    }

    /// The current ball state; always of class 0 and at rest when not valid.
    function Ball(): (t: TrackedObject)
      reads this
      requires Valid()
      ensures t.classId == BallClass && TrackInvariant(t)
    {
      ball
    }

    /// The current putter state; always of class 1 and at rest when not valid.
    function Putter(): (t: TrackedObject)
      reads this
      requires Valid()
      ensures t.classId == PutterClass && TrackInvariant(t)
    {
      putter
    }

    /// True exactly when the ball track is active.
    function BallVisible(): (visible: bool)
      reads this
      requires Valid()
      ensures visible == Ball().valid
    {
      ball.valid
    }

    /// True exactly when the putter track is active.
    function PutterVisible(): (visible: bool)
      reads this
      requires Valid()
      ensures visible == Putter().valid
    {
      putter.valid
    }
  }
}
