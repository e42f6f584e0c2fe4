// The putt lifecycle engine: a three-state machine driven once per frame by the ball
// track, accumulating per-putt metrics and appending each completed putt to a history.
module PuttStatistics {
  import opened Numeric
  import opened Tracking

  datatype PuttState = Idle | InMotion | Stopped

  /// The in-progress (or most recently completed) putt.
  datatype PuttData = PuttData(
    puttNumber: int,
    state: PuttState,
    launchSpeed: real,      // px/s at first motion
    currentSpeed: real,     // px/s, real time
    peakSpeed: real,        // px/s, maximum during the putt
    totalDistance: real,    // px, cumulative path
    breakDistance: real,    // px, largest lateral drift from the initial line
    timeInMotion: real,     // seconds
    startX: real, startY: real,
    finalX: real, finalY: real)
  {
    /// The wire tag of the state.
    function StateStr(): (tag: string)
      ensures tag in {"idle", "in_motion", "stopped"}
      ensures tag == "idle" <==> state == Idle
      ensures tag == "in_motion" <==> state == InMotion
      ensures tag == "stopped" <==> state == Stopped
    {
      match state
      case Idle => "idle"
      case InMotion => "in_motion"
      case Stopped => "stopped"
    }
  }

  /// A default-initialised putt record: number 0, idle, every metric and coordinate 0.
  const DefaultPuttData := PuttData(0, Idle, 0.0, 0.0, 0.0, 0.0, 0.0, 0.0, 0.0, 0.0, 0.0, 0.0)

  /// Distinct states have distinct tags.
  lemma StateStrInjective(p: PuttData, q: PuttData)
    ensures p.StateStr() == q.StateStr() <==> p.state == q.state
  {
  }

  /// Count and averages over the completed putts.
  datatype SessionSummary = SessionSummary(
    totalPutts: int,
    avgLaunchSpeed: real,
    avgDistance: real,
    avgBreak: real,
    avgTime: real)

  const DefaultSummary := SessionSummary(0, 0.0, 0.0, 0.0, 0.0)

  /// Below this velocity magnitude no reference direction is captured.
  const DirectionEpsilon: real := 0.000001

  /// The whole mutable state of the engine, as one value.
  datatype Engine = Engine(
    current: PuttData,
    history: seq<PuttData>,
    framesBelowThreshold: int,
    prevX: real, prevY: real, hasPrev: bool,
    dirX: real, dirY: real, hasDirection: bool)

  /// A freshly constructed engine: default record, empty history, counter 0, no previous
  /// position and no direction.
  const InitialEngine := Engine(DefaultPuttData, [], 0, 0.0, 0.0, false, 0.0, 0.0, false)

  /// Metrics that hold of every record the engine produces.
  predicate MetricsSane(p: PuttData)
  {
    0.0 <= p.launchSpeed <= p.peakSpeed && p.currentSpeed >= 0.0
    && p.totalDistance >= 0.0 && p.breakDistance >= 0.0
  }

  /// The k-th completed putt (1-based) carries number k, is stopped, and has sane metrics.
  predicate WellNumbered(h: seq<PuttData>)
  {
    forall k :: 0 <= k < |h| ==> h[k].puttNumber == k + 1 && h[k].state == Stopped && MetricsSane(h[k])
  }

  /// The invariant the engine keeps between ticks.
  predicate EngineInvariant(e: Engine)
  {
    WellNumbered(e.history) && MetricsSane(e.current) && e.framesBelowThreshold >= 0
    && (e.current.state == Idle ==> e.history == [] && e.current.puttNumber == 0)
    && (e.current.state == InMotion ==> e.current.puttNumber == |e.history| + 1)
    && (e.current.state == Stopped ==> |e.history| > 0 && e.current.puttNumber == |e.history|)
  }

  lemma InitialEngineSatisfiesInvariant()
    ensures EngineInvariant(InitialEngine)
  {
  }

  // ---- one tick, as a function of the previous state ----

  /// Metric accumulation of one valid tick: only while in motion and only when a previous
  /// position exists.
  function Accumulate(e: Engine, ball: TrackedObject, dt: real, speed: real, sqrt: real -> real): (r: Engine)
    requires IsSqrt(sqrt)
    ensures !e.hasPrev || e.current.state != InMotion ==> r == e
    ensures r.history == e.history && r.current.state == e.current.state && r.current.puttNumber == e.current.puttNumber
    ensures r.current.totalDistance >= e.current.totalDistance && r.current.peakSpeed >= e.current.peakSpeed
            && r.current.breakDistance >= e.current.breakDistance
  {
    if !e.hasPrev || e.current.state != InMotion then e
    else
      var c := e.current;
      var frameDist := Norm(ball.x - e.prevX, ball.y - e.prevY, sqrt);
      var brk :=
        if e.hasDirection then Max(c.breakDistance, Abs((ball.x - c.startX) * e.dirY - (ball.y - c.startY) * e.dirX))
        else c.breakDistance;
      e.(current := c.(totalDistance := c.totalDistance + frameDist,
                       timeInMotion := c.timeInMotion + dt,
                       peakSpeed := Max(c.peakSpeed, speed),
                       breakDistance := brk,
                       finalX := ball.x, finalY := ball.y))
  }

  /// Entry into IN_MOTION (from IDLE or STOPPED): a new putt numbered after the history,
  /// launch and peak speed set, accumulators zeroed, start and final at the ball, and the
  /// unit direction of the velocity captured when its magnitude exceeds the epsilon.
  function EnterMotion(e: Engine, ball: TrackedObject, speed: real, sqrt: real -> real): (r: Engine)
    requires IsSqrt(sqrt)
    ensures r.current.state == InMotion && r.current.puttNumber == |e.history| + 1 && r.history == e.history
    ensures r.current.launchSpeed == speed && r.current.peakSpeed == speed && r.framesBelowThreshold == 0
    ensures r.hasDirection <==> Norm(ball.vx, ball.vy, sqrt) > DirectionEpsilon
  {
    var c := e.current.(state := InMotion, puttNumber := |e.history| + 1,
                        launchSpeed := speed, peakSpeed := speed,
                        totalDistance := 0.0, breakDistance := 0.0, timeInMotion := 0.0,
                        startX := ball.x, startY := ball.y, finalX := ball.x, finalY := ball.y);
    var vmag := Norm(ball.vx, ball.vy, sqrt);
    if vmag > DirectionEpsilon then
      e.(current := c, dirX := ball.vx / vmag, dirY := ball.vy / vmag, hasDirection := true, framesBelowThreshold := 0)
    else
      e.(current := c, hasDirection := false, framesBelowThreshold := 0)
  }

  /// The state transition of one valid tick.
  function Transition(e: Engine, ball: TrackedObject, speed: real, threshold: real, stopFrames: int, sqrt: real -> real): (r: Engine)
    requires IsSqrt(sqrt)
    ensures r.history == e.history || (r.history == e.history + [r.current] && r.current.state == Stopped)
    ensures e.current.state != InMotion && !(speed > threshold) ==> r == e
  {
    match e.current.state
    case Idle => if speed > threshold then EnterMotion(e, ball, speed, sqrt) else e
    case InMotion =>
      if speed < threshold then
        var below := e.framesBelowThreshold + 1;
        if below >= stopFrames then
          var done := e.current.(state := Stopped);
          e.(current := done, framesBelowThreshold := below, history := e.history + [done])
        else
          e.(framesBelowThreshold := below)
      else
        e.(framesBelowThreshold := 0)
    case Stopped => if speed > threshold then EnterMotion(e, ball, speed, sqrt) else e
  }

  /// `PuttStats::update`: one tick of the engine for the given ball track.
  function Step(e: Engine, ball: TrackedObject, dt: real, threshold: real, stopFrames: int, sqrt: real -> real): (r: Engine)
    requires IsSqrt(sqrt)
    ensures !ball.valid ==> r == e.(hasPrev := false)
    ensures ball.valid ==> r.hasPrev && r.prevX == ball.x && r.prevY == ball.y
    ensures r.history == e.history || r.history == e.history + [r.current]
  {
    if !ball.valid then e.(hasPrev := false)
    else
      var speed := Norm(ball.vx, ball.vy, sqrt);
      var e1 := e.(current := e.current.(currentSpeed := speed));
      var e2 := Accumulate(e1, ball, dt, speed, sqrt);
      var e3 := e2.(prevX := ball.x, prevY := ball.y, hasPrev := true);
      Transition(e3, ball, speed, threshold, stopFrames, sqrt)
  }

  /// Whether a valid tick finalises the putt in progress.
  predicate StopsNow(e: Engine, ball: TrackedObject, threshold: real, stopFrames: int, sqrt: real -> real)
    requires IsSqrt(sqrt)
  {
    ball.valid && e.current.state == InMotion
    && Norm(ball.vx, ball.vy, sqrt) < threshold && e.framesBelowThreshold + 1 >= stopFrames
  }

  // ---- properties of one tick ----

  /// Metric accumulation keeps the invariant.
  lemma AccumulatePreservesInvariant(e: Engine, ball: TrackedObject, dt: real, speed: real, sqrt: real -> real)
    requires IsSqrt(sqrt) && EngineInvariant(e) && speed >= 0.0
    ensures EngineInvariant(Accumulate(e, ball, dt, speed, sqrt))
  {
  }

  /// Starting a putt keeps the invariant.
  lemma EnterMotionPreservesInvariant(e: Engine, ball: TrackedObject, speed: real, sqrt: real -> real)
    requires IsSqrt(sqrt) && EngineInvariant(e) && e.current.state != InMotion
    requires speed >= 0.0 && e.current.currentSpeed >= 0.0
    ensures EngineInvariant(EnterMotion(e, ball, speed, sqrt))
  {
  }

  /// The state transition keeps the invariant.
  lemma TransitionPreservesInvariant(e: Engine, ball: TrackedObject, speed: real, threshold: real, stopFrames: int, sqrt: real -> real)
    requires IsSqrt(sqrt) && EngineInvariant(e) && speed >= 0.0
    ensures EngineInvariant(Transition(e, ball, speed, threshold, stopFrames, sqrt))
  {
    if e.current.state != InMotion && speed > threshold {
      EnterMotionPreservesInvariant(e, ball, speed, sqrt);
    } else if e.current.state == InMotion && speed < threshold && e.framesBelowThreshold + 1 >= stopFrames {
      var done := e.current.(state := Stopped);
      var h := e.history + [done];
      assert h[|e.history|] == done;
      assert WellNumbered(h);
    }
  }

  /// Every tick keeps the engine invariant: history numbering, the state of completed
  /// records, and metric signs.
  lemma StepPreservesInvariant(e: Engine, ball: TrackedObject, dt: real, threshold: real, stopFrames: int, sqrt: real -> real)
    requires IsSqrt(sqrt) && EngineInvariant(e)
    ensures EngineInvariant(Step(e, ball, dt, threshold, stopFrames, sqrt))
  {
    if ball.valid {
      var speed := Norm(ball.vx, ball.vy, sqrt);
      var e1 := e.(current := e.current.(currentSpeed := speed));
      AccumulatePreservesInvariant(e1, ball, dt, speed, sqrt);
      var e2 := Accumulate(e1, ball, dt, speed, sqrt);
      var e3 := e2.(prevX := ball.x, prevY := ball.y, hasPrev := true);
      TransitionPreservesInvariant(e3, ball, speed, threshold, stopFrames, sqrt);
    }
  }

  /// A tick with an invalid ball only forgets the previous position: state, record
  /// (including the current speed), history and counter are untouched.
  lemma InvalidTickOnlyForgetsPrevious(e: Engine, ball: TrackedObject, dt: real, threshold: real, stopFrames: int, sqrt: real -> real)
    requires IsSqrt(sqrt) && !ball.valid
    ensures Step(e, ball, dt, threshold, stopFrames, sqrt) == e.(hasPrev := false)
  {
  }

  /// A valid tick records the speed |v| and the ball position as the previous position.
  lemma ValidTickRecordsSample(e: Engine, ball: TrackedObject, dt: real, threshold: real, stopFrames: int, sqrt: real -> real)
    requires IsSqrt(sqrt) && ball.valid
    ensures var r := Step(e, ball, dt, threshold, stopFrames, sqrt);
      var speed := r.current.currentSpeed;
      speed >= 0.0 && speed * speed == ball.vx * ball.vx + ball.vy * ball.vy
      && r.prevX == ball.x && r.prevY == ball.y && r.hasPrev
  {
  }

  /// While a putt is in motion and a previous sample exists, the tick adds the frame
  /// displacement to the distance, dt to the time, raises the peak to the speed and the
  /// break to the perpendicular deviation from the initial line, and moves the final point.
  lemma MotionAccumulates(e: Engine, ball: TrackedObject, dt: real, threshold: real, stopFrames: int, sqrt: real -> real)
    requires IsSqrt(sqrt) && ball.valid && e.current.state == InMotion && e.hasPrev
    ensures var r := Step(e, ball, dt, threshold, stopFrames, sqrt).current;
      var c := e.current;
      var speed := Norm(ball.vx, ball.vy, sqrt);
      r.puttNumber == c.puttNumber && r.launchSpeed == c.launchSpeed
      && r.totalDistance == c.totalDistance + Norm(ball.x - e.prevX, ball.y - e.prevY, sqrt)
      && r.timeInMotion == c.timeInMotion + dt
      && r.peakSpeed == Max(c.peakSpeed, speed)
      && r.breakDistance == (if e.hasDirection
                             then Max(c.breakDistance, Abs((ball.x - c.startX) * e.dirY - (ball.y - c.startY) * e.dirX))
                             else c.breakDistance)
      && r.finalX == ball.x && r.finalY == ball.y
  {
    var speed := Norm(ball.vx, ball.vy, sqrt);
    var e1 := e.(current := e.current.(currentSpeed := speed));
    var e2 := Accumulate(e1, ball, dt, speed, sqrt);
    var e3 := e2.(prevX := ball.x, prevY := ball.y, hasPrev := true);
    StepValid(e, ball, dt, threshold, stopFrames, sqrt);
    AccumulateInMotion(e1, ball, dt, speed, sqrt);
    TransitionInMotionKeepsRecord(e3, ball, speed, threshold, stopFrames, sqrt);
  }

  /// A valid tick records the speed, accumulates, moves the previous point and transitions.
  lemma StepValid(e: Engine, ball: TrackedObject, dt: real, threshold: real, stopFrames: int, sqrt: real -> real)
    requires IsSqrt(sqrt) && ball.valid
    ensures var speed := Norm(ball.vx, ball.vy, sqrt);
      var e2 := Accumulate(e.(current := e.current.(currentSpeed := speed)), ball, dt, speed, sqrt);
      Step(e, ball, dt, threshold, stopFrames, sqrt)
      == Transition(e2.(prevX := ball.x, prevY := ball.y, hasPrev := true), ball, speed, threshold, stopFrames, sqrt)
  {
  }

  /// `Accumulate` on an engine in motion with a previous sample, written out field by field.
  lemma AccumulateInMotion(e: Engine, ball: TrackedObject, dt: real, speed: real, sqrt: real -> real)
    requires IsSqrt(sqrt) && e.hasPrev && e.current.state == InMotion
    ensures var c := e.current;
      var r := Accumulate(e, ball, dt, speed, sqrt).current;
      r == c.(totalDistance := r.totalDistance, timeInMotion := r.timeInMotion, peakSpeed := r.peakSpeed,
              breakDistance := r.breakDistance, finalX := r.finalX, finalY := r.finalY)
      && r.totalDistance == c.totalDistance + Norm(ball.x - e.prevX, ball.y - e.prevY, sqrt)
      && r.timeInMotion == c.timeInMotion + dt
      && r.peakSpeed == Max(c.peakSpeed, speed)
      && r.breakDistance == (if e.hasDirection
                             then Max(c.breakDistance, Abs((ball.x - c.startX) * e.dirY - (ball.y - c.startY) * e.dirX))
                             else c.breakDistance)
      && r.finalX == ball.x && r.finalY == ball.y
  {
  }

  /// A tick in motion changes at most the state of the current record.
  lemma TransitionInMotionKeepsRecord(e: Engine, ball: TrackedObject, speed: real, threshold: real, stopFrames: int, sqrt: real -> real)
    requires IsSqrt(sqrt) && e.current.state == InMotion
    ensures var r := Transition(e, ball, speed, threshold, stopFrames, sqrt).current;
      r == e.current.(state := r.state)
  {
  }

  /// Within a putt the distance, time, peak speed and break never decrease (for dt >= 0).
  lemma AccumulatorsNonDecreasing(e: Engine, ball: TrackedObject, dt: real, threshold: real, stopFrames: int, sqrt: real -> real)
    requires IsSqrt(sqrt) && e.current.state == InMotion && dt >= 0.0
    ensures var r := Step(e, ball, dt, threshold, stopFrames, sqrt).current;
      r.totalDistance >= e.current.totalDistance && r.timeInMotion >= e.current.timeInMotion
      && r.peakSpeed >= e.current.peakSpeed && r.breakDistance >= e.current.breakDistance
      && r.startX == e.current.startX && r.startY == e.current.startY
  {
  }

  /// No jump after a lost frame: in motion but without a previous position (the ball was
  /// not tracked on the last tick), a valid tick adds nothing to the distance, time, peak
  /// speed or break, and leaves the final point where it was.
  lemma NoAccumulationWithoutPrevious(e: Engine, ball: TrackedObject, dt: real, threshold: real, stopFrames: int, sqrt: real -> real)
    requires IsSqrt(sqrt) && ball.valid && e.current.state == InMotion && !e.hasPrev
    ensures var r := Step(e, ball, dt, threshold, stopFrames, sqrt).current;
      var c := e.current;
      r.totalDistance == c.totalDistance && r.timeInMotion == c.timeInMotion
      && r.peakSpeed == c.peakSpeed && r.breakDistance == c.breakDistance
      && r.finalX == c.finalX && r.finalY == c.finalY
  {
  }

  /// Outside motion nothing accumulates: a tick that does not start a putt leaves every
  /// metric of the record as it was, apart from the current speed.
  lemma NoAccumulationOutsideMotion(e: Engine, ball: TrackedObject, dt: real, threshold: real, stopFrames: int, sqrt: real -> real)
    requires IsSqrt(sqrt) && e.current.state != InMotion
    requires !ball.valid || Norm(ball.vx, ball.vy, sqrt) <= threshold
    ensures var r := Step(e, ball, dt, threshold, stopFrames, sqrt);
      r.current.(currentSpeed := e.current.currentSpeed) == e.current && r.history == e.history
      && r.framesBelowThreshold == e.framesBelowThreshold
  {
  }

  /// From IDLE or STOPPED a valid tick starts a putt exactly when the speed is strictly
  /// above the threshold, and the new putt starts from scratch.
  lemma StartsPuttIff(e: Engine, ball: TrackedObject, dt: real, threshold: real, stopFrames: int, sqrt: real -> real)
    requires IsSqrt(sqrt) && ball.valid && e.current.state != InMotion
    ensures var r := Step(e, ball, dt, threshold, stopFrames, sqrt);
      var speed := Norm(ball.vx, ball.vy, sqrt);
      (r.current.state == InMotion <==> speed > threshold)
      && (speed > threshold ==>
            r.current.puttNumber == |e.history| + 1 && r.history == e.history
            && r.current.launchSpeed == speed && r.current.peakSpeed == speed
            && r.current.totalDistance == 0.0 && r.current.breakDistance == 0.0 && r.current.timeInMotion == 0.0
            && r.current.startX == ball.x && r.current.startY == ball.y
            && r.current.finalX == ball.x && r.current.finalY == ball.y
            && r.framesBelowThreshold == 0)
  {
  }

  /// The speed and the direction magnitude are the same quantity, so with a threshold of
  /// at least the epsilon every putt starts with a captured direction, the velocity
  /// divided by its magnitude.
  lemma DirectionCapturedOnStart(e: Engine, ball: TrackedObject, dt: real, threshold: real, stopFrames: int, sqrt: real -> real)
    requires IsSqrt(sqrt) && ball.valid && e.current.state != InMotion
    requires threshold >= DirectionEpsilon && Norm(ball.vx, ball.vy, sqrt) > threshold
    ensures var r := Step(e, ball, dt, threshold, stopFrames, sqrt);
      r.hasDirection
      && r.dirX * Norm(ball.vx, ball.vy, sqrt) == ball.vx && r.dirY * Norm(ball.vx, ball.vy, sqrt) == ball.vy
  {
  }

  /// Stop debouncing in motion: a speed strictly below the threshold adds one to the
  /// counter, any other speed (equality included) resets it and keeps the putt going, and
  /// the putt stops exactly when the counter reaches the required number of frames.
  lemma StopDebounce(e: Engine, ball: TrackedObject, dt: real, threshold: real, stopFrames: int, sqrt: real -> real)
    requires IsSqrt(sqrt) && ball.valid && e.current.state == InMotion
    ensures var r := Step(e, ball, dt, threshold, stopFrames, sqrt);
      var speed := Norm(ball.vx, ball.vy, sqrt);
      (speed < threshold ==> r.framesBelowThreshold == e.framesBelowThreshold + 1)
      && (speed >= threshold ==> r.framesBelowThreshold == 0 && r.current.state == InMotion)
      && (r.current.state == Stopped <==> speed < threshold && e.framesBelowThreshold + 1 >= stopFrames)
      && r.current.state != Idle
  {
  }

  /// History changes only by appending exactly one copy of the finished record, and only
  /// on the tick that stops a putt.
  lemma HistoryAppendOnlyOnStop(e: Engine, ball: TrackedObject, dt: real, threshold: real, stopFrames: int, sqrt: real -> real)
    requires IsSqrt(sqrt)
    ensures var r := Step(e, ball, dt, threshold, stopFrames, sqrt);
      if StopsNow(e, ball, threshold, stopFrames, sqrt)
      then r.history == e.history + [r.current] && r.current.state == Stopped
      else r.history == e.history
  {
  }

  // ---- many ticks ----

  /// One frame's input to the engine.
  datatype Tick = Tick(ball: TrackedObject, dt: real)

  /// The engine after a sequence of ticks.
  function Run(e: Engine, ticks: seq<Tick>, threshold: real, stopFrames: int, sqrt: real -> real): Engine
    requires IsSqrt(sqrt)
    decreases |ticks|
  {
    if ticks == [] then e
    else Run(Step(e, ticks[0].ball, ticks[0].dt, threshold, stopFrames, sqrt), ticks[1..], threshold, stopFrames, sqrt)
  }

  /// Over any run from a state satisfying the invariant, the history only grows at its end
  /// (earlier entries never change) and the k-th entry keeps number k.
  lemma {:induction false} RunKeepsHistory(e: Engine, ticks: seq<Tick>, threshold: real, stopFrames: int, sqrt: real -> real)
    requires IsSqrt(sqrt) && EngineInvariant(e)
    ensures var r := Run(e, ticks, threshold, stopFrames, sqrt);
      EngineInvariant(r) && |e.history| <= |r.history| && r.history[..|e.history|] == e.history
      && forall k :: 0 <= k < |r.history| ==> r.history[k].puttNumber == k + 1
    decreases |ticks|
  {
    if ticks != [] {
      var e1 := Step(e, ticks[0].ball, ticks[0].dt, threshold, stopFrames, sqrt);
      StepPreservesInvariant(e, ticks[0].ball, ticks[0].dt, threshold, stopFrames, sqrt);
      HistoryAppendOnlyOnStop(e, ticks[0].ball, ticks[0].dt, threshold, stopFrames, sqrt);
      RunKeepsHistory(e1, ticks[1..], threshold, stopFrames, sqrt);
      var r := Run(e1, ticks[1..], threshold, stopFrames, sqrt);
      assert r.history[..|e1.history|] == e1.history;
      assert e1.history[..|e.history|] == e.history;
      assert r.history[..|e.history|] == r.history[..|e1.history|][..|e.history|];
    }
  }

  // ---- session summary ----

  /// Sum of one metric over a history.
  function SumOf(h: seq<PuttData>, metric: PuttData -> real): real
    decreases |h|
  {
    if h == [] then 0.0 else SumOf(h[..|h| - 1], metric) + metric(h[|h| - 1])
  }

  function LaunchSpeedOf(p: PuttData): real { p.launchSpeed }
  function DistanceOf(p: PuttData): real { p.totalDistance }
  function BreakOf(p: PuttData): real { p.breakDistance }
  function TimeOf(p: PuttData): real { p.timeInMotion }

  /// Arithmetic mean of one metric over a history, 0 for an empty history.
  function Mean(h: seq<PuttData>, metric: PuttData -> real): real
  {
    if h == [] then 0.0 else SumOf(h, metric) / |h| as real
  }

  /// `session()`: the count and the mean of each metric over the history.
  function Summary(h: seq<PuttData>): (s: SessionSummary)
    ensures s.totalPutts == |h|
    ensures h == [] ==> s == DefaultSummary
  {
    SessionSummary(|h|, Mean(h, LaunchSpeedOf), Mean(h, DistanceOf), Mean(h, BreakOf), Mean(h, TimeOf))
  }

  /// A sum of |h| terms each in [lo, hi] lies in [|h| * lo, |h| * hi].
  lemma {:induction false} SumBounds(h: seq<PuttData>, metric: PuttData -> real, lo: real, hi: real)
    requires forall k :: 0 <= k < |h| ==> lo <= metric(h[k]) <= hi
    ensures |h| as real * lo <= SumOf(h, metric) <= |h| as real * hi
    decreases |h|
  {
    if h != [] {
      SumBounds(h[..|h| - 1], metric, lo, hi);
    }
  }

  /// The mean of a non-empty history lies between the least and greatest value it averages.
  lemma MeanBounds(h: seq<PuttData>, metric: PuttData -> real, lo: real, hi: real)
    requires h != []
    requires forall k :: 0 <= k < |h| ==> lo <= metric(h[k]) <= hi
    ensures lo <= Mean(h, metric) <= hi
  {
    SumBounds(h, metric, lo, hi);
    var n := |h| as real;
    var s := SumOf(h, metric);
    assert lo <= s / n by {
      assert n * lo <= s;
      assert (n * lo) / n == lo;
    }
    assert s / n <= hi by {
      assert s <= n * hi;
      assert (n * hi) / n == hi;
    }
  }

  /// Two putts launched at 10 and 20 px/s average a launch speed of 15 px/s.
  lemma TwoPuttAverage(p: PuttData, q: PuttData)
    requires p.launchSpeed == 10.0 && q.launchSpeed == 20.0
    ensures Summary([p, q]).totalPutts == 2 && Summary([p, q]).avgLaunchSpeed == 15.0
  {
    assert [p, q][..1] == [p];
    assert [p][..0] == [];
    assert SumOf([p], LaunchSpeedOf) == 10.0;
    assert SumOf([p, q], LaunchSpeedOf) == 30.0;
  }

  // ---- the engine object ----

  /// `PuttStats`: the engine with its configuration and private state. The square root used
  /// for speeds and distances is supplied at construction.
  class PuttStats {
    const motionThreshold: real
    const stopFramesRequired: int
    const sqrt: real -> real

    var current: PuttData
    var history: seq<PuttData>
    var framesBelowThreshold: int
    var prevX: real
    var prevY: real
    var hasPrev: bool
    var dirX: real
    var dirY: real
    var hasDirection: bool

    /// The engine state as one value.
    ghost function State(): Engine
      reads this
    {
      Engine(current, history, framesBelowThreshold, prevX, prevY, hasPrev, dirX, dirY, hasDirection)
    }

    ghost predicate Valid()
      reads this
    {
      IsSqrt(sqrt) && EngineInvariant(State())
    }

    constructor(sqrt: real -> real, motionThreshold: real := 5.0, stopFrames: int := 15)
      requires IsSqrt(sqrt)
      ensures this.sqrt == sqrt && this.motionThreshold == motionThreshold && this.stopFramesRequired == stopFrames
      ensures State() == InitialEngine
      ensures Valid()
    {
      this.sqrt := sqrt;
      this.motionThreshold := motionThreshold;
      this.stopFramesRequired := stopFrames;
      current := DefaultPuttData;
      history := [];
      framesBelowThreshold := 0;
      prevX, prevY, hasPrev := 0.0, 0.0, false;
      dirX, dirY, hasDirection := 0.0, 0.0, false;
    }

    /// One tick of the engine for the given ball track.
    method Update(ball: TrackedObject, dt: real)
      requires Valid()
      modifies this
      ensures Valid()
      ensures State() == Step(old(State()), ball, dt, motionThreshold, stopFramesRequired, sqrt)
    {
      StepPreservesInvariant(State(), ball, dt, motionThreshold, stopFramesRequired, sqrt);
      if !ball.valid {
        hasPrev := false;
        return;
      }
      var speed := Norm(ball.vx, ball.vy, sqrt);
      current := current.(currentSpeed := speed);
      AccumulateSample(ball, dt, speed);
      prevX, prevY, hasPrev := ball.x, ball.y, true;
      ApplyTransition(ball, speed);
    }

    /// The accumulation part of `update`: distance, time, peak speed, break and final
    /// position, only while in motion and only against an existing previous sample.
    method AccumulateSample(ball: TrackedObject, dt: real, speed: real)
      requires IsSqrt(sqrt)
      modifies this
      ensures State() == Accumulate(old(State()), ball, dt, speed, sqrt)
    {
      ghost var e := State();
      if hasPrev {
        var frameDist := Norm(ball.x - prevX, ball.y - prevY, sqrt);
        if current.state == InMotion {
          var p := current;
          p := p.(totalDistance := p.totalDistance + frameDist, timeInMotion := p.timeInMotion + dt);
          if speed > p.peakSpeed {
            p := p.(peakSpeed := speed);
          }
          if hasDirection {
            var rx := ball.x - p.startX;
            var ry := ball.y - p.startY;
            var cross := Abs(rx * dirY - ry * dirX);
            if cross > p.breakDistance {
              p := p.(breakDistance := cross);
            }
          }
          p := p.(finalX := ball.x, finalY := ball.y);
          assert p == Accumulate(e, ball, dt, speed, sqrt).current;
          current := p;
        } else {
          assert State() == e;
        }
      } else {
        assert State() == e;
      }
    }

    /// The state-transition part of `update`.
    method ApplyTransition(ball: TrackedObject, speed: real)
      requires IsSqrt(sqrt)
      modifies this
      ensures State() == Transition(old(State()), ball, speed, motionThreshold, stopFramesRequired, sqrt)
    {
      match current.state {
        case Idle =>
          if speed > motionThreshold {
            BeginPutt(ball, speed);
          }
        case InMotion =>
          if speed < motionThreshold {
            framesBelowThreshold := framesBelowThreshold + 1;
            if framesBelowThreshold >= stopFramesRequired {
              current := current.(state := Stopped);
              FinalizePutt();
            }
          } else {
            framesBelowThreshold := 0;
          }
        case Stopped =>
          if speed > motionThreshold {
            BeginPutt(ball, speed);
          }
      }
    }

    /// The entry actions of IN_MOTION, shared by the IDLE and STOPPED cases.
    method BeginPutt(ball: TrackedObject, speed: real)
      requires IsSqrt(sqrt)
      modifies this
      ensures State() == EnterMotion(old(State()), ball, speed, sqrt)
    {
      current := current.(state := InMotion, puttNumber := |history| + 1,
                          launchSpeed := speed, peakSpeed := speed,
                          totalDistance := 0.0, breakDistance := 0.0, timeInMotion := 0.0,
                          startX := ball.x, startY := ball.y, finalX := ball.x, finalY := ball.y);
      var vmag := Norm(ball.vx, ball.vy, sqrt);
      if vmag > DirectionEpsilon {
        dirX := ball.vx / vmag;
        dirY := ball.vy / vmag;
        hasDirection := true;
      } else {
        hasDirection := false;
      }
      framesBelowThreshold := 0;
    }

    /// Appends a copy of the current record to the history.
    method FinalizePutt()
      modifies this`history
      ensures history == old(history) + [current]
    {
      history := history + [current];
    }

    /// A copy of the current record; changes nothing.
    method Current() returns (p: PuttData)
      requires Valid()
      ensures p == current
      ensures p.state == InMotion ==> p.puttNumber == |history| + 1
    {
      p := current;
    }

    /// A copy of the history, oldest first; the k-th entry has number k. Changes nothing.
    method History() returns (h: seq<PuttData>)
      requires Valid()
      ensures h == history
      ensures forall k :: 0 <= k < |h| ==> h[k].puttNumber == k + 1 && h[k].state == Stopped
    {
      h := history;
    }

    /// The session summary, summed in a loop over the history; changes nothing.
    method Session() returns (s: SessionSummary)
      ensures s == Summary(history)
    {
      s := DefaultSummary.(totalPutts := |history|);
      if |history| == 0 {
        return;
      }
      var launch, distance, brk, time := 0.0, 0.0, 0.0, 0.0;
      for i := 0 to |history|
        invariant launch == SumOf(history[..i], LaunchSpeedOf)
        invariant distance == SumOf(history[..i], DistanceOf)
        invariant brk == SumOf(history[..i], BreakOf)
        invariant time == SumOf(history[..i], TimeOf)
      {
        assert history[..i + 1][..i] == history[..i];
        launch := launch + history[i].launchSpeed;
        distance := distance + history[i].totalDistance;
        brk := brk + history[i].breakDistance;
        time := time + history[i].timeInMotion;
      }
      assert history[..|history|] == history;
      var n := |history| as real;
      s := s.(avgLaunchSpeed := launch / n, avgDistance := distance / n, avgBreak := brk / n, avgTime := time / n);
    }
  }
}
