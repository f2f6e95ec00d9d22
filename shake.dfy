/**
 * The shake gesture detector of the recipe result screen. Accelerometer
 * readings arrive with the wall-clock time at which they were handled; a
 * reading is only looked at when more than 100 ms have passed since the
 * last one looked at. A reading whose change from the previous reading
 * exceeds the threshold counts as a shake; enough shakes inside the shake
 * window fire the callback, at most once per cooldown.
 */
module Shake {

  /** The configuration the detector is constructed with. */
  datatype Params = Params(threshold: real, minShakes: int, shakeWindow: int, cooldown: int)

  /** The configuration the recipe result screen uses (all constructor defaults). */
  const DefaultParams := Params(20.0, 2, 500, 1000)

  /** Readings closer together than this, in milliseconds, are ignored. */
  const SampleGap: int := 100

  /** The detector's mutable fields, as one value. */
  datatype DetectorState = DetectorState(
    lastShakeTime: int,
    lastX: real, lastY: real, lastZ: real,
    lastUpdate: int,
    shakeCount: int,
    firstShakeTime: int)

  const Initial := DetectorState(0, 0.0, 0.0, 0.0, 0, 0, 0)

  /**
   * `sqrt(dx*dx + dy*dy + dz*dz) > threshold` without the square root:
   * a square root is never negative, so a negative threshold is always
   * exceeded, and otherwise both sides may be squared.
   */
  predicate Exceeds(dx: real, dy: real, dz: real, threshold: real) {
    threshold < 0.0 || dx * dx + dy * dy + dz * dz > threshold * threshold
  }

  predicate Accepted(s: DetectorState, now: int) {
    now - s.lastUpdate > SampleGap
  }

  /** The shake count and first-shake time right after a shake has been counted. */
  function Counted(s: DetectorState, now: int): (c: DetectorState) {
    s.(shakeCount := s.shakeCount + 1,
       firstShakeTime := if s.shakeCount == 0 then now else s.firstShakeTime)
  }

  predicate Fires(p: Params, c: DetectorState, now: int) {
    c.shakeCount >= p.minShakes
    && now - c.firstShakeTime <= p.shakeWindow
    && now - c.lastShakeTime > p.cooldown
  }

  /** What one reading does to the detector, and whether it fires the callback. */
  function Step(p: Params, s: DetectorState, now: int, x: real, y: real, z: real): (r: (DetectorState, bool))
    ensures !Accepted(s, now) ==> r == (s, false)
    ensures Accepted(s, now) ==> r.0.lastUpdate == now && (r.0.lastX, r.0.lastY, r.0.lastZ) == (x, y, z)
    ensures r.1 ==> Accepted(s, now) && r.0.shakeCount == 0 && r.0.lastShakeTime == now
    ensures !r.1 ==> r.0.lastShakeTime == s.lastShakeTime
  {
    if !Accepted(s, now) then (s, false)
    else
      var shaken := Exceeds(x - s.lastX, y - s.lastY, z - s.lastZ, p.threshold);
      var c := if shaken then Counted(s, now) else s;
      var fired := shaken && Fires(p, c, now);
      var f := if fired then c.(lastShakeTime := now, shakeCount := 0) else c;
      var w := if f.shakeCount > 0 && now - f.firstShakeTime > p.shakeWindow then f.(shakeCount := 0) else f;
      (w.(lastUpdate := now, lastX := x, lastY := y, lastZ := z), fired)
  }

  /** The detector's invariant: the count is never negative, and a pending count lies inside the window. */
  predicate Inv(p: Params, s: DetectorState) {
    s.shakeCount >= 0
    && (s.shakeCount > 0 ==> s.lastUpdate - s.firstShakeTime <= p.shakeWindow)
  }

  class ShakeDetector {
    const threshold: real
    const minShakes: int
    const shakeWindow: int
    const cooldown: int

    var lastShakeTime: int
    var lastX: real
    var lastY: real
    var lastZ: real
    var lastUpdate: int
    var shakeCount: int
    var firstShakeTime: int

    function Config(): (p: Params) {
      Params(threshold, minShakes, shakeWindow, cooldown)
    }

    function State(): (s: DetectorState)
      reads this
    {
      DetectorState(lastShakeTime, lastX, lastY, lastZ, lastUpdate, shakeCount, firstShakeTime)
    }

    predicate Valid()
      reads this
    {
      Inv(Config(), State())
    }

    constructor (threshold: real, minShakes: int, shakeWindow: int, cooldown: int)
      ensures Config() == Params(threshold, minShakes, shakeWindow, cooldown)
      ensures State() == Initial
      ensures Valid()
    {
      this.threshold := threshold;
      this.minShakes := minShakes;
      this.shakeWindow := shakeWindow;
      this.cooldown := cooldown;
      lastShakeTime := 0;
      lastX, lastY, lastZ := 0.0, 0.0, 0.0;
      lastUpdate := 0;
      shakeCount := 0;
      firstShakeTime := 0;
    }

    /** `onSensorChanged`: `now` is the clock reading taken on entry; `fired` is whether `onShake` ran. */
    method OnSample(now: int, x: real, y: real, z: real) returns (fired: bool)
      requires Valid()
      modifies this
      ensures Valid()
      ensures (State(), fired) == Step(Config(), old(State()), now, x, y, z)
      ensures !Accepted(old(State()), now) ==> State() == old(State()) && !fired
      ensures Accepted(old(State()), now) ==> lastUpdate == now && lastX == x && lastY == y && lastZ == z
      ensures fired ==> lastShakeTime == now && shakeCount == 0
      ensures !fired ==> lastShakeTime == old(lastShakeTime)
    {
      fired := false;
      if now - lastUpdate > SampleGap {
        lastUpdate := now;
        var deltaX := x - lastX;
        var deltaY := y - lastY;
        var deltaZ := z - lastZ;
        if Exceeds(deltaX, deltaY, deltaZ, threshold) {
          if shakeCount == 0 {
            firstShakeTime := now;
          }
          shakeCount := shakeCount + 1;
          if shakeCount >= minShakes && now - firstShakeTime <= shakeWindow && now - lastShakeTime > cooldown {
            lastShakeTime := now;
            shakeCount := 0;
            fired := true;
          }
        }
        if shakeCount > 0 && now - firstShakeTime > shakeWindow {
          shakeCount := 0;
        }
        lastX := x;
        lastY := y;
        lastZ := z;
      }
    }
  }

  /** A reading no more than 100 ms after the last accepted one changes nothing and fires nothing. */
  lemma GateIgnoresEarlyReadings(p: Params, s: DetectorState, now: int, x: real, y: real, z: real)
    requires now - s.lastUpdate <= SampleGap
    ensures Step(p, s, now, x, y, z) == (s, false)
  {
  }

  /** An accepted reading always records its time and its values, shake or not. */
  lemma AcceptedReadingIsRecorded(p: Params, s: DetectorState, now: int, x: real, y: real, z: real)
    requires Accepted(s, now)
    ensures var s' := Step(p, s, now, x, y, z).0;
      s'.lastUpdate == now && s'.lastX == x && s'.lastY == y && s'.lastZ == z
  {
  }

  /**
   * A counted shake adds exactly one to the count, and starts the window
   * only when the count was zero; the count then survives unless the
   * callback fires or the window has run out.
   */
  lemma ShakeCountsOnce(p: Params, s: DetectorState, now: int, x: real, y: real, z: real)
    requires Inv(p, s)
    requires Accepted(s, now)
    requires Exceeds(x - s.lastX, y - s.lastY, z - s.lastZ, p.threshold)
    ensures var c := Counted(s, now);
      c.shakeCount == s.shakeCount + 1
      && (c.firstShakeTime == now || c.firstShakeTime == s.firstShakeTime)
      && (s.shakeCount == 0 ==> c.firstShakeTime == now)
      && (s.shakeCount != 0 ==> c.firstShakeTime == s.firstShakeTime)
    ensures var (s', fired) := Step(p, s, now, x, y, z);
      var c := Counted(s, now);
      fired == Fires(p, c, now)
      && s'.firstShakeTime == c.firstShakeTime
      && s'.shakeCount == (if fired || now - c.firstShakeTime > p.shakeWindow then 0 else s.shakeCount + 1)
  {
  }

  /** A reading that is not a shake leaves the count alone unless the window has run out, and never fires. */
  lemma CalmReadingDoesNotCount(p: Params, s: DetectorState, now: int, x: real, y: real, z: real)
    requires Accepted(s, now)
    requires !Exceeds(x - s.lastX, y - s.lastY, z - s.lastZ, p.threshold)
    ensures var (s', fired) := Step(p, s, now, x, y, z);
      !fired
      && s'.lastShakeTime == s.lastShakeTime
      && s'.firstShakeTime == s.firstShakeTime
      && s'.shakeCount == (if s.shakeCount > 0 && now - s.firstShakeTime > p.shakeWindow then 0 else s.shakeCount)
  {
  }

  /**
   * The callback fires exactly when the reading is accepted, is a shake, and
   * then the count reaches `minShakes` inside the window and outside the
   * cooldown; firing records the time and clears the count.
   */
  lemma FiringCondition(p: Params, s: DetectorState, now: int, x: real, y: real, z: real)
    ensures var (s', fired) := Step(p, s, now, x, y, z);
      var c := Counted(s, now);
      (fired <==>
        Accepted(s, now)
        && Exceeds(x - s.lastX, y - s.lastY, z - s.lastZ, p.threshold)
        && c.shakeCount >= p.minShakes
        && now - c.firstShakeTime <= p.shakeWindow
        && now - s.lastShakeTime > p.cooldown)
      && (fired ==> s'.lastShakeTime == now && s'.shakeCount == 0)
      && (!fired ==> s'.lastShakeTime == s.lastShakeTime)
  {
  }

  /** Every step keeps the invariant: the count stays non-negative and a pending count stays in its window. */
  lemma StepKeepsInv(p: Params, s: DetectorState, now: int, x: real, y: real, z: real)
    requires Inv(p, s)
    ensures Inv(p, Step(p, s, now, x, y, z).0)
    ensures Accepted(s, now) ==>
      var s' := Step(p, s, now, x, y, z).0;
      s'.shakeCount > 0 ==> now - s'.firstShakeTime <= p.shakeWindow
  {
  }

  /** A fresh detector accepts the first reading taken after time 100. */
  lemma FirstReadingAccepted(now: int)
    requires now > SampleGap
    ensures Accepted(Initial, now)
  {
  }

  datatype Sample = Sample(now: int, x: real, y: real, z: real)

  /** A sequence of readings fed to the detector: the final state and the times at which it fired. */
  function Run(p: Params, s: DetectorState, samples: seq<Sample>): (r: (DetectorState, seq<int>))
    decreases |samples|
  {
    if samples == [] then (s, [])
    else
      var e := samples[0];
      var (s1, fired) := Step(p, s, e.now, e.x, e.y, e.z);
      var (s2, fires) := Run(p, s1, samples[1..]);
      (s2, (if fired then [e.now] else []) + fires)
  }

  /** Firing times are more than `cooldown` after the previous firing time `last`, and apart from each other. */
  predicate Spaced(last: int, fires: seq<int>, cooldown: int) {
    (|fires| > 0 ==> fires[0] - last > cooldown)
    && forall i | 0 <= i < |fires| - 1 :: fires[i + 1] - fires[i] > cooldown
  }

  /**
   * Over any run, two consecutive firings are more than `cooldown` apart, and
   * the first is more than `cooldown` after the last firing before the run;
   * the detector remembers the last firing time.
   */
  lemma {:induction false} FiringsRespectCooldown(p: Params, s: DetectorState, samples: seq<Sample>)
    ensures Spaced(s.lastShakeTime, Run(p, s, samples).1, p.cooldown)
    ensures var (s', fires) := Run(p, s, samples);
      s'.lastShakeTime == if fires == [] then s.lastShakeTime else fires[|fires| - 1]
    decreases |samples|
  {
    if samples != [] {
      var e := samples[0];
      var (s1, fired) := Step(p, s, e.now, e.x, e.y, e.z);
      FiringCondition(p, s, e.now, e.x, e.y, e.z);
      FiringsRespectCooldown(p, s1, samples[1..]);
      var (s2, fires) := Run(p, s1, samples[1..]);
      assert Run(p, s, samples) == (s2, (if fired then [e.now] else []) + fires);
    }
  }
}
