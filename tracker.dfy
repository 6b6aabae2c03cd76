/**
 * Tracker::run: bidirectional streamline tracking from a seed through a
 * direction field, inside a voxel grid and a tracking mask.
 *
 * The mask, the data source's sampleDirection() and R's uniform random draw
 * are collaborators: the mask is a value with an occupancy function, the data
 * source a function of (location, previous step), and the one uniform draw a
 * run can make is a parameter. Coordinates are exact reals.
 *
 * One pass of the tracking loop is specified by the function Pass, which
 * iterates StepOnce (one trip round the loop body); the method TrackPass runs
 * the loop over the visitation and loop-check arrays and is proved to agree
 * with it, and the lemmas about Pass state what a pass guarantees.
 */
module Tracking {
  import opened Geometry
  import opened Maybe
  import opened Streamlines

  /** The tracking mask: grid extents, voxel size and occupancy (true where the voxel value is non-zero). */
  datatype Mask = Mask(dims: Grid, voxelDims: Vec, inside: Voxel -> bool)

  predicate ValidMask(m: Mask)
  {
    PositiveGrid(m.dims) && m.voxelDims.x > 0.0 && m.voxelDims.y > 0.0 && m.voxelDims.z > 0.0
  }

  /** The flags the tracker consults: "loopcheck", "terminate-outside" and "must-leave". */
  datatype Flags = Flags(loopcheck: bool, terminateOutside: bool, mustLeave: bool)

  /** dataSource->sampleDirection(location, previousStep). */
  type DirectionSource = (Vec, Vec) -> Vec

  /** LOOPCHECK_RATIO: the loop-check field has one cell per 5x5x5 block of voxels. */
  const LoopcheckRatio: real := 5.0

  /** The extents of the down-sampled loop-check field: round(dim / ratio) + 1 per axis. */
  function LoopcheckDims(dims: Grid): Grid
  {
    Grid(Round(dims.nx as real / LoopcheckRatio) + 1,
         Round(dims.ny as real / LoopcheckRatio) + 1,
         Round(dims.nz as real / LoopcheckRatio) + 1)
  }

  /** The loop-check cell of a location: each coordinate divided by the ratio and rounded. */
  function LoopcheckCell(p: Vec): Voxel
  {
    Voxel(Round(p.x / LoopcheckRatio), Round(p.y / LoopcheckRatio), Round(p.z / LoopcheckRatio))
  }

  lemma LoopcheckAxis(x: real, n: int)
    requires n >= 1 && 0 <= Round(x) <= n - 1
    ensures 0 <= Round(x / LoopcheckRatio) <= Round(n as real / LoopcheckRatio)
  {
    AxisInRange(x, n);
    RoundMonotone(-0.1, x / LoopcheckRatio);
    RoundMonotone(x / LoopcheckRatio, n as real / LoopcheckRatio);
  }

  /**
   * Every location that passes the bounds check has its loop-check cell
   * inside the loop-check field (the source indexes the field unchecked).
   */
  lemma LoopcheckCellInRange(p: Vec, dims: Grid)
    requires PositiveGrid(dims) && InBounds(p, dims)
    ensures InGrid(LoopcheckCell(p), LoopcheckDims(dims))
  {
    LoopcheckAxis(p.x, dims.nx);
    LoopcheckAxis(p.y, dims.ny);
    LoopcheckAxis(p.z, dims.nz);
  }

  /** maxSteps / 2 with C's division, which truncates towards zero. */
  function CHalf(n: int): (h: int)
    ensures n >= 0 ==> 0 <= 2 * h <= n && n - 2 * h <= 1
    ensures n < 0 ==> n <= 2 * h <= 0 && 2 * h - n <= 1
  {
    if n >= 0 then n / 2 else -((-n) / 2)
  }

  /**
   * Sign resolution against the previous step (every iteration but the
   * random first one): None when |dot| is below the threshold (too sharp a
   * turn); otherwise +1 exactly when the dot product is positive, and the
   * signed direction then makes the non-negative angle |dot| with the previous step.
   */
  function CurvatureSign(previousStep: Vec, currentStep: Vec, threshold: real): (r: Option<real>)
    ensures r.None? <==> Abs(Dot(previousStep, currentStep)) < threshold
    ensures r.Some? ==> (r.value == 1.0 <==> Dot(previousStep, currentStep) > 0.0)
    ensures r.Some? ==> r.value == 1.0 || r.value == -1.0
    ensures r.Some? ==>
      Dot(previousStep, Scale(currentStep, r.value)) == Abs(Dot(previousStep, currentStep)) >= threshold
  {
    var innerProd := Dot(previousStep, currentStep);
    if Abs(innerProd) < threshold then None
    else if innerProd > 0.0 then Some(1.0)
    else Some(-1.0)
  }

  /** The sign the uniform draw gives a random first move. */
  function CoinSign(coin: real): real
  {
    if coin > 0.5 then 1.0 else -1.0
  }

  /** Which break ended a pass (the source logs it and records nothing). */
  datatype Stop = OutOfBounds | LeftMask | Deferred | Looped | Curved | StepLimit

  /**
   * The state of one pass at the head of its loop: the local variables of
   * the source (front location, previous step, starting, leftMask,
   * previouslyInsideMask, terminateOnNextStep), the points appended so far,
   * and the history of the pass (its Trace).
   */
  datatype Front = Front(
    loc: Vec, previousStep: Vec, starting: bool, leftMask: bool,
    previouslyInsideMask: int, terminateOnNextStep: bool, trace: Trace)
  {
    const points: seq<Vec> := trace.points
    const steps: seq<Vec> := trace.steps
    const signs: seq<real> := trace.signs
  }

  /**
   * The history of a pass: the points appended so far; steps[0] is the
   * previous step it started from and steps[i + 1] the previous step after
   * move i, signs[i] the sign of move i.
   */
  datatype Trace = Trace(points: seq<Vec>, steps: seq<Vec>, signs: seq<real>)

  /** A loop head: one move made from every appended point. */
  predicate Shaped(f: Front)
  {
    |f.steps| == |f.points| + 1 && |f.signs| == |f.points|
  }

  /** One trip round the loop body: on to the next loop head, or out through a break. */
  datatype Outcome = Continue(next: Front) | Stopped(last: Front, why: Stop)

  /** How a pass ended: the state at its last break (or loop exit) and which one it was. */
  datatype Ended = Ended(front: Front, why: Stop)

  /** The loop-check cell c after the points before the n-th: the previous step stored at the latest of them in c, or zero. */
  function LastWrite(points: seq<Vec>, steps: seq<Vec>, n: nat, c: Voxel): Vec
    requires n <= |points| && n <= |steps|
  {
    if n == 0 then Zero
    else if LoopcheckCell(points[n - 1]) == c then steps[n - 1]
    else LastWrite(points, steps, n - 1, c)
  }

  /** Extending the points and steps after the first n leaves LastWrite at n as it was. */
  lemma {:induction false} LastWriteStable(p: seq<Vec>, s: seq<Vec>, p2: seq<Vec>, s2: seq<Vec>, n: nat, c: Voxel)
    requires n <= |p| && n <= |s| && |p| <= |p2| && |s| <= |s2|
    requires p == p2[..|p|] && s == s2[..|s|]
    ensures LastWrite(p, s, n, c) == LastWrite(p2, s2, n, c)
  {
    if n > 0 {
      assert p[n - 1] == p2[n - 1] && s[n - 1] == s2[n - 1];
      LastWriteStable(p, s, p2, s2, n - 1, c);
    }
  }

  /** A point at which the pass has stepped outside the mask: the one before it was inside, it is not. */
  predicate Transition(m: Mask, ps: seq<Vec>)
  {
    |ps| >= 2 && m.inside(RoundVoxel(ps[|ps| - 2])) && !m.inside(RoundVoxel(ps[|ps| - 1]))
  }

  /**
   * Once a pass is inside the mask its points stay inside, except for the
   * last point when it is the one outside the mask after a transition.
   */
  predicate StaysInside(m: Mask, ps: seq<Vec>, leftMask: bool)
  {
    forall i, j :: 0 <= i < j < |ps| && m.inside(RoundVoxel(ps[i])) && !(leftMask && j == |ps| - 1) ==>
      m.inside(RoundVoxel(ps[j]))
  }

  class Tracker {
    const mask: Mask
    const dataSource: DirectionSource
    const seed: Vec
    const stepLength: real
    const innerProductThreshold: real
    const flags: Flags
    var rightwardsVector: Vec
    var visited: array3?<bool>
    var loopcheck: array3?<Vec>

    ghost predicate Valid()
      reads this`visited, this`loopcheck
    {
      && ValidMask(mask)
      && (visited != null ==>
            visited.Length0 as int == mask.dims.nx && visited.Length1 as int == mask.dims.ny
            && visited.Length2 as int == mask.dims.nz)
      && (loopcheck != null ==>
            var d := LoopcheckDims(mask.dims);
            loopcheck.Length0 as int == d.nx && loopcheck.Length1 as int == d.ny
            && loopcheck.Length2 as int == d.nz)
    }

    /** The visitation map marks exactly those of its voxels that are in s. */
    ghost predicate Marks(s: set<Voxel>)
      reads this`visited, visited
    {
      visited != null &&
      forall i, j, k {:trigger visited[i, j, k]}
        :: 0 <= i < visited.Length0 && 0 <= j < visited.Length1 && 0 <= k < visited.Length2 ==>
        (visited[i, j, k] <==> Voxel(i, j, k) in s)
    }

    /** The loop-check field holds, in every cell, the step LastWrite gives after the first n points. */
    ghost predicate LoopcheckHolds(points: seq<Vec>, steps: seq<Vec>, n: nat)
      requires n <= |points| && n <= |steps|
      reads this`loopcheck, loopcheck
    {
      loopcheck != null &&
      forall i, j, k {:trigger loopcheck[i, j, k]}
        :: 0 <= i < loopcheck.Length0 && 0 <= j < loopcheck.Length1 && 0 <= k < loopcheck.Length2 ==>
        loopcheck[i, j, k] == LastWrite(points, steps, n, Voxel(i, j, k))
    }

    /**
     * What the loop head cur of a pass keeps in the tracker's state: the
     * history is well shaped and ends in the previous step, starting holds
     * until the first move, the loop-check field agrees with LastWrite, and
     * the rightwards vector (rv0 when the pass began) is the first move's
     * step if that move was random.
     */
    ghost predicate Tracked(cur: Front, rv0: Vec, startingIn: bool, rightwardsVectorValid: bool)
      reads this`rightwardsVector, this`visited, this`loopcheck, loopcheck
    {
      && Valid() && visited != null && (flags.loopcheck ==> loopcheck != null)
      && Shaped(cur) && cur.steps[|cur.points|] == cur.previousStep
      && cur.starting == (startingIn && |cur.signs| == 0)
      && (flags.loopcheck ==> LoopcheckHolds(cur.points, cur.steps, |cur.points|))
      && rightwardsVector == (if startingIn && !rightwardsVectorValid && |cur.signs| >= 1 then cur.steps[1] else rv0)
    }

    /** A tracker with no rightwards vector and no scratch arrays yet. */
    constructor (mask: Mask, dataSource: DirectionSource, seed: Vec, stepLength: real,
                 innerProductThreshold: real, flags: Flags)
      requires ValidMask(mask)
      ensures Valid()
      ensures this.mask == mask && this.dataSource == dataSource && this.seed == seed
      ensures this.stepLength == stepLength && this.innerProductThreshold == innerProductThreshold
      ensures this.flags == flags
      ensures rightwardsVector == Zero && visited == null && loopcheck == null
    {
      this.mask := mask;
      this.dataSource := dataSource;
      this.seed := seed;
      this.stepLength := stepLength;
      this.innerProductThreshold := innerProductThreshold;
      this.flags := flags;
      rightwardsVector := Zero;
      visited := null;
      loopcheck := null;
    }

    /** The location after one move from loc: the sampled direction in voxel units, signed, times the step length. */
    function Advance(loc: Vec, previousStep: Vec, sign: real): Vec
      requires ValidMask(mask)
    {
      Add(loc, Scale(Div(dataSource(loc, previousStep), mask.voxelDims), sign * stepLength))
    }

    /** The loop head a pass starts from: at the seed, nothing appended, starting from previousStep. */
    function Start(starting: bool, previousStep: Vec): Front
    {
      Front(seed, previousStep, starting, false, -1, false, Trace([], [previousStep], []))
    }

    /** The loop head after the mask check has passed and the location is appended to the points. */
    function Appended(f: Front): Front
    {
      var inside := mask.inside(RoundVoxel(f.loc));
      var transition := !inside && f.previouslyInsideMask == 1;
      f.(leftMask := f.leftMask || transition,
         terminateOnNextStep := transition,
         previouslyInsideMask := if inside then 1 else 0,
         trace := f.trace.(points := f.points + [f.loc]))
    }

    /**
     * The rest of a trip round the loop once the mask check has passed and
     * the location is appended: the loop check against the cell's stored
     * step, the sign (random on a first move without a valid rightwards
     * vector, else by curvature) and the move.
     */
    function Proceed(f: Front, rightwardsVectorValid: bool, coin: real): (r: Outcome)
      requires ValidMask(mask) && Shaped(f)
      ensures r.Continue? ==>
        && Shaped(r.next) && r.next.points == f.points + [f.loc]
        && r.next.steps == f.steps + [r.next.previousStep] && r.next.signs[..|f.signs|] == f.signs
        && !r.next.starting
      ensures r.Stopped? ==> r.last == Appended(f)
    {
      var g := Appended(f);
      var currentStep := dataSource(f.loc, f.previousStep);
      if flags.loopcheck
         && Dot(LastWrite(f.points, f.steps, |f.points|, LoopcheckCell(f.loc)), f.previousStep) < 0.0
      then Stopped(g, Looped)
      else
        var sign := if f.starting && !rightwardsVectorValid then Some(CoinSign(coin))
                    else CurvatureSign(f.previousStep, currentStep, innerProductThreshold);
        if sign.None? then Stopped(g, Curved)
        else
          Continue(g.(loc := Advance(f.loc, f.previousStep, sign.value),
                      previousStep := Scale(currentStep, sign.value),
                      starting := false,
                      trace := g.trace.(steps := f.steps + [Scale(currentStep, sign.value)],
                                        signs := f.signs + [sign.value])))
    }

    /**
     * One trip round the loop body: a deferred termination; the bounds
     * check; the mask check (a transition outside either breaks or, with
     * "terminate-outside", defers); then Proceed.
     */
    function StepOnce(f: Front, rightwardsVectorValid: bool, coin: real): (r: Outcome)
      requires ValidMask(mask) && Shaped(f)
      ensures r.Continue? ==>
        && Shaped(r.next) && r.next.points == f.points + [f.loc]
        && r.next.steps == f.steps + [r.next.previousStep] && r.next.signs[..|f.signs|] == f.signs
        && !r.next.starting
      ensures r.Stopped? ==>
        && (r.last.points == f.points || r.last.points == f.points + [f.loc])
        && r.last.steps == f.steps && r.last.signs == f.signs
    {
      if f.terminateOnNextStep then Stopped(f, Deferred)
      else if !InBounds(f.loc, mask.dims) then Stopped(f, OutOfBounds)
      else if !mask.inside(RoundVoxel(f.loc)) && f.previouslyInsideMask == 1 && !flags.terminateOutside
      then Stopped(f.(leftMask := true), LeftMask)
      else Proceed(f, rightwardsVectorValid, coin)
    }

    /**
     * At most k more trips round the loop from f: the points appended only
     * grow, by at most one per trip, and by exactly k when no break is taken.
     */
    function Pass(f: Front, k: int, rightwardsVectorValid: bool, coin: real): (r: Ended)
      requires ValidMask(mask) && Shaped(f)
      ensures f.points <= r.front.points && f.steps <= r.front.steps
      ensures |r.front.steps| == |r.front.signs| + 1
      ensures |r.front.points| <= |f.points| + Max(k, 0)
      ensures r.why == StepLimit ==> |r.front.points| == |f.points| + Max(k, 0) && Shaped(r.front)
      decreases k
    {
      if k <= 0 then Ended(f, StepLimit)
      else
        match StepOnce(f, rightwardsVectorValid, coin)
        case Continue(g) => Pass(g, k - 1, rightwardsVectorValid, coin)
        case Stopped(g, why) => Ended(g, why)
    }

    /** A pass leaves `starting` set exactly when it made no move. */
    lemma {:induction false} PassStarting(f: Front, k: int, rightwardsVectorValid: bool, coin: real)
      requires ValidMask(mask) && Shaped(f)
      ensures var e := Pass(f, k, rightwardsVectorValid, coin);
        e.front.starting == (f.starting && |e.front.signs| == |f.signs|)
      decreases k
    {
      if k > 0 {
        match StepOnce(f, rightwardsVectorValid, coin)
        case Continue(g) =>
          PassStarting(g, k - 1, rightwardsVectorValid, coin);
        case Stopped(_, _) =>
      }
    }

    /** Move i of the front was sampled, signed and loop-checked as the loop body does it. */
    ghost predicate Moved(f: Front, i: int, randomFirst: bool, coin: real)
      requires 0 <= i < |f.signs| && i < |f.points| && i + 1 < |f.steps|
    {
      var ps := f.points;
      && f.steps[i + 1] == Scale(dataSource(ps[i], f.steps[i]), f.signs[i])
      && (if i == 0 && randomFirst then f.signs[0] == CoinSign(coin)
          else CurvatureSign(f.steps[i], dataSource(ps[i], f.steps[i]), innerProductThreshold)
               == Some(f.signs[i]))
      && (flags.loopcheck ==> Dot(LastWrite(ps, f.steps, i, LoopcheckCell(ps[i])), f.steps[i]) >= 0.0)
    }

    /**
     * The path of a pass started from `initial`: the seed first, every point
     * within the grid, each point one move from the one before, and the
     * front one move past the last point (or at it, when the break came
     * after appending it).
     */
    ghost predicate Trail(f: Front, randomFirst: bool, coin: real, initial: Vec)
      requires ValidMask(mask)
    {
      var ps := f.points;
      var n := |f.signs|;
      && |f.steps| == n + 1 && n <= |ps| <= n + 1
      && f.steps[0] == initial
      && (|ps| >= 1 ==> ps[0] == seed)
      && (forall i :: 0 <= i < |ps| ==> InBounds(ps[i], mask.dims))
      && (forall i :: 0 <= i < n ==> Moved(f, i, randomFirst, coin))
      && (forall i :: 0 <= i < n && i + 1 < |ps| ==> ps[i + 1] == Advance(ps[i], f.steps[i], f.signs[i]))
      && f.loc == (if n < |ps| then ps[n]
                   else if n == 0 then seed
                   else Advance(ps[n - 1], f.steps[n - 1], f.signs[n - 1]))
      && f.previousStep == f.steps[n]
    }

    /** The bookkeeping variables of a loop head agree with the points appended. */
    ghost predicate Running(f: Front, startingIn: bool)
    {
      && Shaped(f) && f.steps[|f.points|] == f.previousStep
      && f.starting == (startingIn && |f.signs| == 0)
      && f.previouslyInsideMask ==
           (if |f.points| == 0 then -1 else if mask.inside(RoundVoxel(f.points[|f.points| - 1])) then 1 else 0)
      && f.terminateOnNextStep == f.leftMask
      && (f.leftMask ==> flags.terminateOutside)
      && (f.leftMask <==> Transition(mask, f.points))
      && StaysInside(mask, f.points, f.leftMask)
    }

    /** What a pass guarantees about the mask and about the break that ended it. */
    ghost predicate Outcomes(e: Ended, randomFirst: bool)
      requires ValidMask(mask)
    {
      var g := e.front;
      var ps := g.points;
      var n := |g.signs|;
      && |g.steps| == n + 1 && n <= |ps| <= n + 1
      && StaysInside(mask, ps, g.leftMask)
      && (flags.terminateOutside ==> (g.leftMask <==> Transition(mask, ps)))
      && (!flags.terminateOutside ==> (g.leftMask <==> e.why == LeftMask))
      && (e.why == OutOfBounds ==> n == |ps| && !InBounds(g.loc, mask.dims))
      && (e.why == LeftMask ==>
            n == |ps| && |ps| >= 1 && mask.inside(RoundVoxel(ps[|ps| - 1]))
            && InBounds(g.loc, mask.dims) && !mask.inside(RoundVoxel(g.loc)))
      && (e.why == Deferred ==> flags.terminateOutside && g.leftMask && n == |ps|)
      && (e.why == Looped ==>
            flags.loopcheck && n + 1 == |ps|
            && Dot(LastWrite(ps, g.steps, n, LoopcheckCell(ps[n])), g.steps[n]) < 0.0)
      && (e.why == Curved ==>
            n + 1 == |ps| && !(n == 0 && randomFirst)
            && Abs(Dot(g.steps[n], dataSource(ps[n], g.steps[n]))) < innerProductThreshold)
      && (e.why == StepLimit ==> n == |ps|)
    }

    /** The path facts speak only of the location, the previous step, the points, steps and signs. */
    lemma TrailSame(f: Front, g: Front, randomFirst: bool, coin: real, initial: Vec)
      requires ValidMask(mask) && Trail(f, randomFirst, coin, initial)
      requires g.points == f.points && g.loc == f.loc && g.previousStep == f.previousStep
      requires g.steps == f.steps && g.signs == f.signs
      ensures Trail(g, randomFirst, coin, initial)
    {
      forall i | 0 <= i < |f.signs|
        ensures Moved(g, i, randomFirst, coin)
      {
        assert Moved(f, i, randomFirst, coin);
      }
    }

    /** Appending the front's location (after its bounds check passed) keeps the path facts. */
    lemma TrailAppend(f: Front, g: Front, randomFirst: bool, coin: real, initial: Vec)
      requires ValidMask(mask) && Trail(f, randomFirst, coin, initial)
      requires |f.signs| == |f.points| && InBounds(f.loc, mask.dims)
      requires g.points == f.points + [f.loc] && g.loc == f.loc && g.previousStep == f.previousStep
      requires g.steps == f.steps && g.signs == f.signs
      ensures Trail(g, randomFirst, coin, initial)
    {
      forall i | 0 <= i < |f.signs|
        ensures Moved(g, i, randomFirst, coin)
      {
        MovedAppend(f, g, i, randomFirst, coin);
      }
    }

    /** A move of the front stays as it was when a point is appended. */
    lemma MovedAppend(f: Front, g: Front, i: int, randomFirst: bool, coin: real)
      requires 0 <= i < |f.signs| && i < |f.points| && i + 1 < |f.steps| && Moved(f, i, randomFirst, coin)
      requires g.points == f.points + [f.loc] && g.steps == f.steps && g.signs == f.signs
      ensures Moved(g, i, randomFirst, coin)
    {
      assert g.points[..|f.points|] == f.points && g.points[i] == f.points[i];
      LastWriteStable(f.points, f.steps, g.points, g.steps, i, LoopcheckCell(f.points[i]));
    }

    /** Making the move from the last appended point, as the loop body does, keeps the path facts. */
    lemma TrailMove(h: Front, g: Front, sign: real, randomFirst: bool, coin: real, initial: Vec)
      requires ValidMask(mask) && Trail(h, randomFirst, coin, initial)
      requires |h.signs| + 1 == |h.points|
      requires var n := |h.signs|;
        && (if n == 0 && randomFirst then sign == CoinSign(coin)
            else CurvatureSign(h.previousStep, dataSource(h.loc, h.previousStep), innerProductThreshold) == Some(sign))
        && (flags.loopcheck ==> Dot(LastWrite(h.points, h.steps, n, LoopcheckCell(h.loc)), h.previousStep) >= 0.0)
      requires g.points == h.points && g.signs == h.signs + [sign]
      requires g.steps == h.steps + [Scale(dataSource(h.loc, h.previousStep), sign)]
      requires g.loc == Advance(h.loc, h.previousStep, sign)
      requires g.previousStep == Scale(dataSource(h.loc, h.previousStep), sign)
      ensures Trail(g, randomFirst, coin, initial)
    {
      var n := |h.signs|;
      forall i | 0 <= i < n + 1
        ensures Moved(g, i, randomFirst, coin)
      {
        LastWriteStable(h.points, h.steps, g.points, g.steps, i, LoopcheckCell(g.points[i]));
        if i < n {
          assert Moved(h, i, randomFirst, coin);
        }
      }
    }

    /** The path facts survive a trip round the loop that takes a break. */
    lemma StepTrailStopped(f: Front, startingIn: bool, rightwardsVectorValid: bool, coin: real, initial: Vec)
      requires ValidMask(mask) && Shaped(f) && f.starting == (startingIn && |f.signs| == 0)
      requires Trail(f, startingIn && !rightwardsVectorValid, coin, initial)
      requires StepOnce(f, rightwardsVectorValid, coin).Stopped?
      ensures Trail(StepOnce(f, rightwardsVectorValid, coin).last, startingIn && !rightwardsVectorValid, coin, initial)
    {
      var g := StepOnce(f, rightwardsVectorValid, coin).last;
      var transition := !mask.inside(RoundVoxel(f.loc)) && f.previouslyInsideMask == 1;
      if f.terminateOnNextStep || !InBounds(f.loc, mask.dims) || (transition && !flags.terminateOutside) {
        assert g.points == f.points && g.loc == f.loc && g.previousStep == f.previousStep;
        TrailSame(f, g, startingIn && !rightwardsVectorValid, coin, initial);
      } else {
        TrailAppend(f, g, startingIn && !rightwardsVectorValid, coin, initial);
      }
    }

    /** The path facts survive a trip round the loop that comes back to its head. */
    lemma StepTrailContinue(f: Front, startingIn: bool, rightwardsVectorValid: bool, coin: real, initial: Vec)
      requires ValidMask(mask) && Shaped(f) && f.starting == (startingIn && |f.signs| == 0)
      requires Trail(f, startingIn && !rightwardsVectorValid, coin, initial)
      requires StepOnce(f, rightwardsVectorValid, coin).Continue?
      ensures Trail(StepOnce(f, rightwardsVectorValid, coin).next, startingIn && !rightwardsVectorValid, coin, initial)
    {
      var randomFirst := startingIn && !rightwardsVectorValid;
      var g := StepOnce(f, rightwardsVectorValid, coin).next;
      var currentStep := dataSource(f.loc, f.previousStep);
      var sign := if f.starting && !rightwardsVectorValid then Some(CoinSign(coin))
                  else CurvatureSign(f.previousStep, currentStep, innerProductThreshold);
      assert InBounds(f.loc, mask.dims) && sign.Some?;
      assert flags.loopcheck ==>
        Dot(LastWrite(f.points, f.steps, |f.points|, LoopcheckCell(f.loc)), f.previousStep) >= 0.0;
      var h := f.(trace := f.trace.(points := f.points + [f.loc]));
      TrailAppend(f, h, randomFirst, coin, initial);
      assert g.points == h.points && g.signs == h.signs + [sign.value];
      assert g.steps == h.steps + [Scale(currentStep, sign.value)];
      assert h.points[..|f.points|] == f.points;
      LastWriteStable(f.points, f.steps, h.points, h.steps, |f.points|, LoopcheckCell(f.loc));
      TrailMove(h, g, sign.value, randomFirst, coin, initial);
    }

    /** Appending a point keeps "once inside, stays inside" as the mask check leaves it. */
    lemma StaysInsideAppend(ps: seq<Vec>, leftMask: bool, p: Vec)
      requires StaysInside(mask, ps, leftMask) && !leftMask
      requires ps != [] && mask.inside(RoundVoxel(ps[|ps| - 1])) ==> mask.inside(RoundVoxel(p)) || flags.terminateOutside
      ensures StaysInside(mask, ps + [p], Transition(mask, ps + [p]))
    {
      var qs := ps + [p];
      forall i, j | 0 <= i < j < |qs| && mask.inside(RoundVoxel(qs[i])) && !(Transition(mask, qs) && j == |qs| - 1)
        ensures mask.inside(RoundVoxel(qs[j]))
      {
        if j == |qs| - 1 {
          assert mask.inside(RoundVoxel(ps[|ps| - 1])) by {
            if i < |ps| - 1 {
              assert qs[i] == ps[i];
            }
          }
        } else {
          assert qs[i] == ps[i] && qs[j] == ps[j];
        }
      }
    }

    /** At a break, the mask facts and the facts of that break hold. */
    lemma StepMaskStopped(f: Front, startingIn: bool, rightwardsVectorValid: bool, coin: real)
      requires ValidMask(mask) && Running(f, startingIn)
      requires StepOnce(f, rightwardsVectorValid, coin).Stopped?
      ensures Outcomes(Ended(StepOnce(f, rightwardsVectorValid, coin).last, StepOnce(f, rightwardsVectorValid, coin).why),
                       startingIn && !rightwardsVectorValid)
    {
      var r := StepOnce(f, rightwardsVectorValid, coin);
      var g := r.last;
      var ps := f.points;
      if g.points != ps {
        assert g.points == ps + [f.loc];
        assert !f.leftMask;
        StaysInsideAppend(ps, f.leftMask, f.loc);
        assert g.points[..|ps|] == ps;
        LastWriteStable(ps, f.steps, g.points, g.steps, |ps|, LoopcheckCell(f.loc));
      }
    }

    /** A trip round the loop that comes back to its head keeps the bookkeeping and mask facts. */
    lemma StepMaskContinue(f: Front, startingIn: bool, rightwardsVectorValid: bool, coin: real)
      requires ValidMask(mask) && Running(f, startingIn)
      requires StepOnce(f, rightwardsVectorValid, coin).Continue?
      ensures Running(StepOnce(f, rightwardsVectorValid, coin).next, startingIn)
    {
      var g := StepOnce(f, rightwardsVectorValid, coin).next;
      assert !f.leftMask;
      StaysInsideAppend(f.points, f.leftMask, f.loc);
    }

    /** The path facts of Trail hold wherever a pass from a loop head stops. */
    lemma {:induction false} PassTrail(f: Front, k: int, startingIn: bool, rightwardsVectorValid: bool,
                                       coin: real, initial: Vec)
      requires ValidMask(mask) && Shaped(f) && f.starting == (startingIn && |f.signs| == 0)
      requires Trail(f, startingIn && !rightwardsVectorValid, coin, initial)
      ensures Trail(Pass(f, k, rightwardsVectorValid, coin).front, startingIn && !rightwardsVectorValid, coin, initial)
      decreases k
    {
      if k > 0 {
        PassStep(f, k, rightwardsVectorValid, coin, StepOnce(f, rightwardsVectorValid, coin));
        match StepOnce(f, rightwardsVectorValid, coin)
        case Continue(g) =>
          StepTrailContinue(f, startingIn, rightwardsVectorValid, coin, initial);
          PassTrail(g, k - 1, startingIn, rightwardsVectorValid, coin, initial);
        case Stopped(_, _) =>
          StepTrailStopped(f, startingIn, rightwardsVectorValid, coin, initial);
      }
    }

    /** The mask and break facts of Outcomes hold wherever a pass from a loop head stops. */
    lemma {:induction false} PassOutcomes(f: Front, k: int, startingIn: bool, rightwardsVectorValid: bool, coin: real)
      requires ValidMask(mask) && Running(f, startingIn)
      ensures Outcomes(Pass(f, k, rightwardsVectorValid, coin), startingIn && !rightwardsVectorValid)
      decreases k
    {
      if k <= 0 {
        OutcomesAtLimit(f, startingIn, startingIn && !rightwardsVectorValid);
      } else {
        var r := StepOnce(f, rightwardsVectorValid, coin);
        PassStep(f, k, rightwardsVectorValid, coin, r);
        if r.Continue? {
          StepMaskContinue(f, startingIn, rightwardsVectorValid, coin);
          PassOutcomes(r.next, k - 1, startingIn, rightwardsVectorValid, coin);
        } else {
          StepMaskStopped(f, startingIn, rightwardsVectorValid, coin);
        }
      }
    }

    /** A pass that ends at the step limit at a loop head has the facts of Outcomes. */
    lemma OutcomesAtLimit(f: Front, startingIn: bool, randomFirst: bool)
      requires ValidMask(mask) && Running(f, startingIn)
      ensures Outcomes(Ended(f, StepLimit), randomFirst)
    {
    }

    /**
     * Everything a pass from a loop head guarantees: the path facts of Trail
     * and the mask and break facts of Outcomes for wherever it stops.
     */
    lemma PassFacts(f: Front, k: int, startingIn: bool, rightwardsVectorValid: bool, coin: real, initial: Vec)
      requires ValidMask(mask) && Running(f, startingIn)
      requires Trail(f, startingIn && !rightwardsVectorValid, coin, initial)
      ensures Trail(Pass(f, k, rightwardsVectorValid, coin).front, startingIn && !rightwardsVectorValid, coin, initial)
      ensures Outcomes(Pass(f, k, rightwardsVectorValid, coin), startingIn && !rightwardsVectorValid)
    {
      PassTrail(f, k, startingIn, rightwardsVectorValid, coin, initial);
      PassOutcomes(f, k, startingIn, rightwardsVectorValid, coin);
    }

    /**
     * A whole pass (at most maxHalf = maxSteps/2 iterations) from the seed:
     * at most maxHalf points, exactly maxHalf when no break was taken, at
     * least the seed when it is within the grid, and the facts of Trail and
     * Outcomes.
     */
    lemma TrackedPass(startingIn: bool, rightwardsVectorValid: bool, initial: Vec, maxHalf: int, coin: real)
      requires ValidMask(mask)
      ensures var e := Pass(Start(startingIn, initial), maxHalf, rightwardsVectorValid, coin);
        && |e.front.points| <= Max(maxHalf, 0)
        && (e.why == StepLimit ==> |e.front.points| == Max(maxHalf, 0))
        && (InBounds(seed, mask.dims) && maxHalf >= 1 ==> |e.front.points| >= 1)
        && Trail(e.front, startingIn && !rightwardsVectorValid, coin, initial)
        && Outcomes(e, startingIn && !rightwardsVectorValid)
    {
      var s := Start(startingIn, initial);
      PassFacts(s, maxHalf, startingIn, rightwardsVectorValid, coin, initial);
      if InBounds(seed, mask.dims) && maxHalf >= 1 {
        match StepOnce(s, rightwardsVectorValid, coin)
        case Continue(g) =>
          assert |Pass(g, maxHalf - 1, rightwardsVectorValid, coin).front.points| >= 1;
        case Stopped(g, _) =>
          assert g.points == [seed];
      }
    }

    /** A pass with k >= 1 trips left makes one trip and then ends where the rest of the pass from there ends. */
    lemma PassStep(f: Front, k: int, rightwardsVectorValid: bool, coin: real, r: Outcome)
      requires ValidMask(mask) && Shaped(f) && k >= 1 && r == StepOnce(f, rightwardsVectorValid, coin)
      ensures r.Continue? ==> Pass(f, k, rightwardsVectorValid, coin) == Pass(r.next, k - 1, rightwardsVectorValid, coin)
      ensures r.Stopped? ==> Pass(f, k, rightwardsVectorValid, coin) == Ended(r.last, r.why)
    {
    }

    /** Past the loop check, a resolved sign makes the move. */
    lemma ProceedMoves(f: Front, rightwardsVectorValid: bool, coin: real, sign: real)
      requires ValidMask(mask) && Shaped(f)
      requires flags.loopcheck ==>
        Dot(LastWrite(f.points, f.steps, |f.points|, LoopcheckCell(f.loc)), f.previousStep) >= 0.0
      requires if f.starting && !rightwardsVectorValid then sign == CoinSign(coin)
               else CurvatureSign(f.previousStep, dataSource(f.loc, f.previousStep), innerProductThreshold) == Some(sign)
      ensures var step := Scale(dataSource(f.loc, f.previousStep), sign);
        Proceed(f, rightwardsVectorValid, coin)
          == Continue(Appended(f).(loc := Advance(f.loc, f.previousStep, sign), previousStep := step, starting := false,
                                   trace := Trace(f.points + [f.loc], f.steps + [step], f.signs + [sign])))
    {
    }

    /** The bounds check of one location (the per-axis loop): rounds each coordinate and stops at the first one out of range. */
    static method RoundLocation(loc: Vec, dims: Grid) returns (rounded: Voxel, inBounds: bool)
      ensures inBounds <==> InBounds(loc, dims)
      ensures inBounds ==> rounded == RoundVoxel(loc)
    {
      var coords := [loc.x, loc.y, loc.z];
      var extents := [dims.nx, dims.ny, dims.nz];
      var r: seq<int> := [];
      inBounds := true;
      var i := 0;
      while i < 3
        invariant 0 <= i <= 3 && |r| == i
        invariant forall a :: 0 <= a < i ==> r[a] == Round(coords[a]) && 0 <= r[a] <= extents[a] - 1
      {
        var ri := Round(coords[i]);
        r := r + [ri];
        if ri < 0 || ri > extents[i] - 1 {
          inBounds := false;
          break;
        }
        i := i + 1;
      }
      if inBounds {
        rounded := Voxel(r[0], r[1], r[2]);
      } else {
        rounded := Voxel(-1, -1, -1);
      }
    }

    /** visited->fill(false). */
    method ClearVisited()
      requires visited != null
      modifies visited
      ensures Marks({})
    {
      forall i, j, k | 0 <= i < visited.Length0 && 0 <= j < visited.Length1 && 0 <= k < visited.Length2 {
        visited[i, j, k] := false;
      }
    }

    /** loopcheck->fill(zeroVector()). */
    method ResetLoopcheck()
      requires loopcheck != null
      modifies loopcheck
      ensures forall i, j, k :: 0 <= i < loopcheck.Length0 && 0 <= j < loopcheck.Length1 && 0 <= k < loopcheck.Length2 ==>
        loopcheck[i, j, k] == Zero
      ensures forall steps :: LoopcheckHolds([], steps, 0)
    {
      forall i, j, k | 0 <= i < loopcheck.Length0 && 0 <= j < loopcheck.Length1 && 0 <= k < loopcheck.Length2 {
        loopcheck[i, j, k] := Zero;
      }
    }

    /** Marks one voxel visited; every other entry is left as it was. */
    method MarkVisited(v: Voxel, ghost s: set<Voxel>)
      requires Valid() && InGrid(v, mask.dims) && Marks(s)
      modifies visited
      ensures Marks(s + {v})
    {
      if !visited[v.i, v.j, v.k] {
        visited[v.i, v.j, v.k] := true;
      }
    }

    /** Extending the points and steps after the first n keeps the loop-check field equal to LastWrite at n. */
    lemma LoopcheckHoldsStable(p: seq<Vec>, s: seq<Vec>, p2: seq<Vec>, s2: seq<Vec>, n: nat)
      requires n <= |p| && n <= |s| && |p| <= |p2| && |s| <= |s2|
      requires p == p2[..|p|] && s == s2[..|s|]
      requires LoopcheckHolds(p, s, n)
      ensures LoopcheckHolds(p2, s2, n)
    {
      forall c: Voxel
        ensures LastWrite(p, s, n, c) == LastWrite(p2, s2, n, c)
      {
        LastWriteStable(p, s, p2, s2, n, c);
      }
    }

    /** Stores the previous step of point p in p's loop-check cell; the field then agrees with LastWrite one point on. */
    method StoreLoopcheck(c: Voxel, step: Vec, ghost points: seq<Vec>, ghost steps: seq<Vec>, ghost p: Vec)
      requires Valid() && loopcheck != null && InGrid(c, LoopcheckDims(mask.dims)) && LoopcheckCell(p) == c
      requires |points| < |steps| && steps[|points|] == step && LoopcheckHolds(points, steps, |points|)
      modifies loopcheck
      ensures LoopcheckHolds(points + [p], steps, |points| + 1)
    {
      assert (points + [p])[..|points|] == points;
      LoopcheckHoldsStable(points, steps, points + [p], steps, |points|);
      loopcheck[c.i, c.j, c.k] := step;
    }

    /**
     * The first part of the loop body: the deferred termination, the bounds
     * check and the mask check; past them the current voxel is marked
     * visited, the location appended to the points, and the rest of the
     * trip is Proceed.
     */
    method TrackHead(rightwardsVectorValid: bool, coin: real,
                     loc: Vec, previousStep: Vec, starting: bool, leftMask: bool,
                     previouslyInsideMask: int, terminateOnNextStep: bool, points: seq<Vec>,
                     ghost cur: Front, ghost base: set<Voxel>, ghost rv0: Vec, ghost startingIn: bool)
      returns (stopped: bool, leftMask': bool, previouslyInsideMask': int, terminateOnNextStep': bool,
               points': seq<Vec>, ghost next: Front)
      requires cur == Front(loc, previousStep, starting, leftMask, previouslyInsideMask,
                            terminateOnNextStep, cur.trace) && cur.points == points
      requires Tracked(cur, rv0, startingIn, rightwardsVectorValid) && Marks(base + VoxelsOf(points))
      modifies visited
      ensures next == Front(loc, previousStep, starting, leftMask', previouslyInsideMask', terminateOnNextStep',
                            next.trace)
      ensures next.points == points' && next.steps == cur.steps && next.signs == cur.signs
      ensures Marks(base + VoxelsOf(points'))
      ensures stopped ==> StepOnce(cur, rightwardsVectorValid, coin).Stopped? && StepOnce(cur, rightwardsVectorValid, coin).last == next
      ensures !stopped ==>
        && next == Appended(cur) && InBounds(loc, mask.dims)
        && StepOnce(cur, rightwardsVectorValid, coin) == Proceed(cur, rightwardsVectorValid, coin)
    {
      stopped, leftMask', previouslyInsideMask', terminateOnNextStep', points' :=
        true, leftMask, previouslyInsideMask, terminateOnNextStep, points;
      next := cur;

      if terminateOnNextStep {
        return;
      }

      var rounded, inBounds := RoundLocation(loc, mask.dims);
      if !inBounds {
        return;
      }

      var inside := mask.inside(rounded);
      if !inside && previouslyInsideMask == 1 {
        leftMask' := true;
        if flags.terminateOutside {
          terminateOnNextStep' := true;
        } else {
          next := cur.(leftMask := true);
          return;
        }
      }
      previouslyInsideMask' := if inside then 1 else 0;

      MarkVisited(rounded, base + VoxelsOf(points));
      points' := points + [loc];
      VoxelsOfAppend(points, loc);
      assert base + VoxelsOf(points') == base + VoxelsOf(points) + {rounded};
      stopped := false;
      next := Appended(cur);
    }

    /**
     * The rest of the loop body, as Proceed says: the loop check (storing
     * the previous step in the location's cell), the sign and the move; the
     * rightwards vector is set by a random first move.
     */
    method TrackMove(rightwardsVectorValid: bool, coin: real,
                     loc: Vec, previousStep: Vec, starting: bool, points': seq<Vec>,
                     ghost cur: Front, ghost rv0: Vec, ghost startingIn: bool)
      returns (stopped: bool, loc': Vec, previousStep': Vec, starting': bool, ghost next: Front)
      requires cur.loc == loc && cur.previousStep == previousStep && cur.starting == starting
      requires points' == cur.points + [loc] && InBounds(loc, mask.dims)
      requires Tracked(cur, rv0, startingIn, rightwardsVectorValid)
      modifies this`rightwardsVector, loopcheck
      ensures next == Appended(cur).(loc := loc', previousStep := previousStep', starting := starting',
                                     trace := next.trace)
      ensures next.points == points'
      ensures !stopped ==>
        Proceed(cur, rightwardsVectorValid, coin) == Continue(next) && Tracked(next, rv0, startingIn, rightwardsVectorValid)
      ensures stopped ==>
        && Proceed(cur, rightwardsVectorValid, coin).Stopped? && Proceed(cur, rightwardsVectorValid, coin).last == next
        && rightwardsVector == old(rightwardsVector)
    {
      ghost var r := Proceed(cur, rightwardsVectorValid, coin);
      stopped, loc', previousStep', starting' := true, loc, previousStep, starting;
      next := Appended(cur);

      var currentStep := dataSource(loc, previousStep);
      if flags.loopcheck {
        var cell := LoopcheckCell(loc);
        LoopcheckCellInRange(loc, mask.dims);
        if Dot(loopcheck[cell.i, cell.j, cell.k], previousStep) < 0.0 {
          return;
        }
        StoreLoopcheck(cell, previousStep, cur.points, cur.steps, loc);
      }

      var sign: real;
      if starting && !rightwardsVectorValid {
        sign := CoinSign(coin);
      } else {
        var resolved := CurvatureSign(previousStep, currentStep, innerProductThreshold);
        if resolved.None? {
          return;
        }
        sign := resolved.value;
      }

      loc' := Advance(loc, previousStep, sign);
      previousStep' := Scale(currentStep, sign);
      if starting {
        if !rightwardsVectorValid {
          rightwardsVector := previousStep';
        }
        starting' := false;
      }
      stopped := false;
      ProceedMoves(cur, rightwardsVectorValid, coin, sign);
      next := r.next;
      if flags.loopcheck {
        assert next.steps[..|cur.steps|] == cur.steps && points'[..|points'|] == points';
        LoopcheckHoldsStable(points', cur.steps, points', next.steps, |points'|);
      }
      assert |cur.steps| >= 2 ==> next.steps[1] == cur.steps[1];
    }

    /**
     * One trip round the body of the step loop, from the loop head whose
     * local variables are the arguments (with the pass's history so far), as
     * StepOnce says. It marks the voxel of an appended point visited, keeps
     * the loop-check field equal to LastWrite, and sets the rightwards
     * vector on a random first move.
     */
    method TrackStep(rightwardsVectorValid: bool, coin: real,
                     loc: Vec, previousStep: Vec, starting: bool, leftMask: bool,
                     previouslyInsideMask: int, terminateOnNextStep: bool, points: seq<Vec>,
                     ghost cur: Front, ghost base: set<Voxel>, ghost rv0: Vec, ghost startingIn: bool)
      returns (stopped: bool, loc': Vec, previousStep': Vec, starting': bool, leftMask': bool,
               previouslyInsideMask': int, terminateOnNextStep': bool, points': seq<Vec>,
               ghost next: Front)
      requires cur == Front(loc, previousStep, starting, leftMask, previouslyInsideMask,
                            terminateOnNextStep, cur.trace) && cur.points == points
      requires Tracked(cur, rv0, startingIn, rightwardsVectorValid) && Marks(base + VoxelsOf(points))
      modifies this`rightwardsVector, visited, loopcheck
      ensures next == Front(loc', previousStep', starting', leftMask', previouslyInsideMask', terminateOnNextStep',
                            next.trace) && next.points == points'
      ensures Valid() && Marks(base + VoxelsOf(points'))
      ensures !stopped ==>
        StepOnce(cur, rightwardsVectorValid, coin) == Continue(next) && Tracked(next, rv0, startingIn, rightwardsVectorValid)
      ensures stopped ==>
        && StepOnce(cur, rightwardsVectorValid, coin).Stopped? && StepOnce(cur, rightwardsVectorValid, coin).last == next
        && rightwardsVector == old(rightwardsVector)
    {
      ghost var head;
      stopped, leftMask', previouslyInsideMask', terminateOnNextStep', points', head :=
        TrackHead(rightwardsVectorValid, coin, loc, previousStep, starting, leftMask, previouslyInsideMask,
                  terminateOnNextStep, points, cur, base, rv0, startingIn);
      if stopped {
        loc', previousStep', starting', next := loc, previousStep, starting, head;
      } else {
        ghost var marked := base + VoxelsOf(points');
        assert Marks(marked);
        stopped, loc', previousStep', starting', next :=
          TrackMove(rightwardsVectorValid, coin, loc, previousStep, starting, points', cur, rv0, startingIn);
        assert Marks(marked);
      }
    }

    /**
     * The step loop of one pass, from the loop head cur0 with k trips
     * allowed: it runs TrackStep until a break or the step limit, and ends
     * where Pass from cur0 ends.
     */
    method TrackLoop(k: int, coin: real, rightwardsVectorValid: bool,
                     loc0: Vec, previousStep0: Vec, starting0: bool,
                     ghost cur0: Front, ghost base: set<Voxel>, ghost rv0: Vec, ghost startingIn: bool)
      returns (points: seq<Vec>, leftMask: bool, startingOut: bool, previousStepOut: Vec, ghost e: Ended)
      requires cur0 == Front(loc0, previousStep0, starting0, false, -1, false, cur0.trace) && cur0.points == []
      requires Tracked(cur0, rv0, startingIn, rightwardsVectorValid) && Marks(base)
      modifies this`rightwardsVector, visited, loopcheck
      ensures e == Pass(cur0, k, rightwardsVectorValid, coin)
      ensures Valid()
      ensures points == e.front.points && leftMask == e.front.leftMask
      ensures startingOut == e.front.starting && previousStepOut == e.front.previousStep
      ensures rightwardsVector ==
        if startingIn && !rightwardsVectorValid && |e.front.signs| >= 1 then e.front.steps[1] else rv0
      ensures Marks(base + VoxelsOf(points))
    {
      e := Pass(cur0, k, rightwardsVectorValid, coin);
      var loc, previousStep, starting := loc0, previousStep0, starting0;
      points := [];
      leftMask := false;
      var previouslyInsideMask := -1;
      var terminateOnNextStep := false;
      ghost var cur := cur0;
      var step := 0;
      ghost var left := k;
      assert base + VoxelsOf(points) == base;
      while step < k
        invariant left == k - step
        invariant cur == Front(loc, previousStep, starting, leftMask, previouslyInsideMask,
                               terminateOnNextStep, cur.trace) && cur.points == points
        invariant Tracked(cur, rv0, startingIn, rightwardsVectorValid) && Marks(base + VoxelsOf(points))
        invariant Pass(cur, left, rightwardsVectorValid, coin) == e
      {
        var stopped;
        ghost var next;
        stopped, loc, previousStep, starting, leftMask, previouslyInsideMask, terminateOnNextStep, points, next :=
          TrackStep(rightwardsVectorValid, coin, loc, previousStep, starting, leftMask,
                    previouslyInsideMask, terminateOnNextStep, points, cur, base, rv0, startingIn);
        PassStep(cur, left, rightwardsVectorValid, coin, StepOnce(cur, rightwardsVectorValid, coin));
        if stopped {
          break;
        }
        cur := next;
        left := left - 1;
        step := step + 1;
      }
      startingOut := starting;
      previousStepOut := previousStep;
    }

    /**
     * One pass (dir 0 tracks "right", dir 1 "left"): the body of the source's
     * loop over dir up to the must-leave decision. It zero-fills the
     * loop-check field and starts at the seed from previousStepIn or, when
     * the rightwards vector was valid on entry to the run, from that vector
     * (negated for dir 1). Its points and flags are those of Pass; the
     * rightwards vector is set by a random first move; the voxels of the
     * appended points are marked visited and no others.
     */
    method TrackPass(dir: int, maxHalf: int, coin: real, rightwardsVectorValid: bool,
                     startingIn: bool, previousStepIn: Vec, ghost base: set<Voxel>)
      returns (points: seq<Vec>, leftMask: bool, startingOut: bool, previousStepOut: Vec, ghost e: Ended)
      requires Valid() && Marks(base) && (flags.loopcheck ==> loopcheck != null)
      requires dir == 0 || dir == 1
      modifies this`rightwardsVector, visited, loopcheck
      ensures Valid()
      ensures e == Pass(Start(startingIn, if rightwardsVectorValid
                                         then Scale(old(rightwardsVector), if dir == 0 then 1.0 else -1.0)
                                         else previousStepIn),
                        maxHalf, rightwardsVectorValid, coin)
      ensures points == e.front.points && leftMask == e.front.leftMask
      ensures startingOut == e.front.starting && previousStepOut == e.front.previousStep
      ensures rightwardsVector ==
        if startingIn && !rightwardsVectorValid && |e.front.signs| >= 1 then e.front.steps[1]
        else old(rightwardsVector)
      ensures Marks(base + VoxelsOf(points))
    {
      if flags.loopcheck {
        ResetLoopcheck();
      }
      var previousStep := previousStepIn;
      if rightwardsVectorValid {
        previousStep := Scale(rightwardsVector, if dir == 0 then 1.0 else -1.0);
      }
      points, leftMask, startingOut, previousStepOut, e :=
        TrackLoop(maxHalf, coin, rightwardsVectorValid, seed, previousStep, startingIn,
                  Start(startingIn, previousStep), base, old(rightwardsVector), startingIn);
    }
  
    /**
     * The set-up at the top of a run: the visitation map is created (all
     * false) or refilled with false, and the loop-check field is created,
     * zero-filled, when loop checking is on and it does not exist yet.
     */
    method Prepare()
      requires Valid()
      modifies this`visited, this`loopcheck, visited
      ensures Valid() && Marks({}) && (flags.loopcheck ==> loopcheck != null)
      ensures old(visited) != null ==> visited == old(visited)
      ensures old(loopcheck) != null ==> loopcheck == old(loopcheck)
      ensures !(flags.loopcheck && old(loopcheck) == null) ==> loopcheck == old(loopcheck)
      ensures flags.loopcheck && old(loopcheck) == null ==>
        && fresh(loopcheck)
        && forall i, j, k :: 0 <= i < loopcheck.Length0 && 0 <= j < loopcheck.Length1 && 0 <= k < loopcheck.Length2 ==>
             loopcheck[i, j, k] == Zero
      ensures visited == old(visited) || fresh(visited)
    {
      var dims := mask.dims;
      if visited == null {
        visited := new bool[dims.nx, dims.ny, dims.nz]((i, j, k) => false);
      } else {
        ClearVisited();
      }

      if flags.loopcheck && loopcheck == null {
        var d := LoopcheckDims(dims);
        loopcheck := new Vec[d.nx, d.ny, d.nz]((i, j, k) => Zero);
      }
    }

    /**
     * The right pass of a run entered with rightwards vector rv: it starts at
     * the seed from rv when rv is non-zero, else from the zero vector with a
     * random first move.
     */
    function RightPass(maxSteps: int, coin: real, rv: Vec): Ended
      requires ValidMask(mask)
    {
      var valid := !IsZero(rv);
      Pass(Start(true, if valid then Scale(rv, 1.0) else Zero), CHalf(maxSteps), valid, coin)
    }

    /**
     * The left pass of the same run: from -rv when rv was non-zero on entry;
     * otherwise validity is not re-read, so it starts from the right pass's
     * last previous step, and its first move is random only if the right pass made none.
     */
    function LeftPass(maxSteps: int, coin: real, rv: Vec): Ended
      requires ValidMask(mask)
    {
      var valid := !IsZero(rv);
      var right := RightPass(maxSteps, coin, rv).front;
      Pass(Start(right.starting, if valid then Scale(rv, -1.0) else right.previousStep), CHalf(maxSteps), valid, coin)
    }

    /** The points a pass leaves to the streamline: none when "must-leave" is set and the pass never left the mask. */
    function Kept(e: Ended): seq<Vec>
    {
      if flags.mustLeave && !e.front.leftMask then [] else e.front.points
    }

    /** The rightwards vector after a run entered with rv: rv if non-zero, else the first move's resolved step, if any. */
    function RightwardsAfter(maxSteps: int, coin: real, rv: Vec): Vec
      requires ValidMask(mask)
    {
      if !IsZero(rv) then rv
      else
        var right := RightPass(maxSteps, coin, rv).front;
        var left := LeftPass(maxSteps, coin, rv).front;
        if |right.signs| >= 1 then right.steps[1]
        else if |left.signs| >= 1 then left.steps[1]
        else rv
    }

    /**
     * What one side of a run guarantees: at most maxHalf points, each of
     * them rounding into the grid, the seed first, and at least the seed
     * when it lies within the grid and the pass has a trip to make.
     */
    ghost predicate Side(e: Ended, maxHalf: int)
      requires ValidMask(mask)
    {
      var ps := e.front.points;
      && |ps| <= Max(maxHalf, 0)
      && (forall i :: 0 <= i < |ps| ==> InBounds(ps[i], mask.dims))
      && (|ps| >= 1 ==> ps[0] == seed)
      && (InBounds(seed, mask.dims) && maxHalf >= 1 ==> |ps| >= 1)
    }

    /** Both passes of a run keep the side facts, with maxSteps/2 trips each. */
    lemma RunSides(maxSteps: int, coin: real, rv: Vec)
      requires ValidMask(mask)
      ensures Side(RightPass(maxSteps, coin, rv), CHalf(maxSteps))
      ensures Side(LeftPass(maxSteps, coin, rv), CHalf(maxSteps))
    {
      var valid := !IsZero(rv);
      TrackedPass(true, valid, if valid then Scale(rv, 1.0) else Zero, CHalf(maxSteps), coin);
      var right := RightPass(maxSteps, coin, rv).front;
      TrackedPass(right.starting, valid, if valid then Scale(rv, -1.0) else right.previousStep, CHalf(maxSteps), coin);
    }

    /**
     * The "must-leave" discard: without it a side keeps all its points;
     * with it, a side keeps them exactly when its pass crossed from inside
     * the mask to outside (which, without "terminate-outside", is exactly
     * when it stopped for leaving the mask); stopping at the grid edge, on
     * curvature, on a loop or at the step limit does not count.
     */
    lemma RunKept(maxSteps: int, coin: real, rv: Vec, e: Ended)
      requires ValidMask(mask)
      requires e == RightPass(maxSteps, coin, rv) || e == LeftPass(maxSteps, coin, rv)
      ensures !flags.mustLeave ==> Kept(e) == e.front.points
      ensures flags.mustLeave && flags.terminateOutside ==>
        Kept(e) == if Transition(mask, e.front.points) then e.front.points else []
      ensures flags.mustLeave && !flags.terminateOutside ==>
        Kept(e) == if e.why == LeftMask then e.front.points else []
    {
      var valid := !IsZero(rv);
      var right := RightPass(maxSteps, coin, rv).front;
      if e == RightPass(maxSteps, coin, rv) {
        TrackedPass(true, valid, if valid then Scale(rv, 1.0) else Zero, CHalf(maxSteps), coin);
      } else {
        TrackedPass(right.starting, valid, if valid then Scale(rv, -1.0) else right.previousStep, CHalf(maxSteps), coin);
      }
    }

    /**
     * The first move of a pass from the seed: it starts from `initial`; a
     * random first move takes the coin's sign, any other makes an angle of
     * at least the threshold with `initial`.
     */
    lemma PassFirstMove(startingIn: bool, rightwardsVectorValid: bool, initial: Vec, maxHalf: int, coin: real)
      requires ValidMask(mask)
      ensures var f := Pass(Start(startingIn, initial), maxHalf, rightwardsVectorValid, coin).front;
        && f.steps[0] == initial
        && (|f.signs| >= 1 && startingIn && !rightwardsVectorValid ==> f.signs[0] == CoinSign(coin))
        && (|f.signs| >= 1 && !(startingIn && !rightwardsVectorValid) ==>
              Dot(initial, f.steps[1]) >= innerProductThreshold)
    {
      TrackedPass(startingIn, rightwardsVectorValid, initial, maxHalf, coin);
      var f := Pass(Start(startingIn, initial), maxHalf, rightwardsVectorValid, coin).front;
      if |f.signs| >= 1 {
        assert Moved(f, 0, startingIn && !rightwardsVectorValid, coin);
        assert f.points[0] == seed;
      }
    }

    /**
     * Where the two passes of a run point. With a non-zero rightwards vector
     * rv on entry, the right pass starts from rv and the left from -rv, and
     * every first move is resolved by curvature. With rv zero, the right
     * pass starts from the zero vector and its first move takes the coin's
     * sign; the left pass starts from the right pass's last previous step
     * (not its negation), so when both passes moved, the left pass's first
     * step makes an angle of at least the threshold with the right pass's
     * last step: it heads the way the right pass was going.
     */
    lemma RunDirections(maxSteps: int, coin: real, rv: Vec)
      requires ValidMask(mask)
      ensures var right := RightPass(maxSteps, coin, rv).front;
        var left := LeftPass(maxSteps, coin, rv).front;
        && (!IsZero(rv) ==> right.steps[0] == Scale(rv, 1.0) && left.steps[0] == Scale(rv, -1.0))
        && (!IsZero(rv) && |left.signs| >= 1 ==>
              Dot(Scale(rv, -1.0), left.steps[1]) >= innerProductThreshold)
        && (IsZero(rv) ==> right.steps[0] == Zero && left.steps[0] == right.previousStep)
        && (IsZero(rv) && |right.signs| >= 1 ==> right.signs[0] == CoinSign(coin))
        && (IsZero(rv) && |right.signs| >= 1 && |left.signs| >= 1 ==>
              Dot(right.previousStep, left.steps[1]) >= innerProductThreshold)
    {
      var valid := !IsZero(rv);
      var maxHalf := CHalf(maxSteps);
      PassFirstMove(true, valid, if valid then Scale(rv, 1.0) else Zero, maxHalf, coin);
      PassStarting(Start(true, if valid then Scale(rv, 1.0) else Zero), maxHalf, valid, coin);
      var right := RightPass(maxSteps, coin, rv).front;
      PassFirstMove(right.starting, valid, if valid then Scale(rv, -1.0) else right.previousStep, maxHalf, coin);
    }

    /**
     * The source's loop over dir: the right pass (dir 0) then the left pass
     * (dir 1), each followed by the "must-leave" discard of its side. The
     * rightwards vector's validity is read once, on entry; the left pass
     * continues from the right pass's `starting` and previous step.
     */
    method TrackBothWays(maxSteps: int, coin: real) returns (leftPoints: seq<Vec>, rightPoints: seq<Vec>)
      requires Valid() && Marks({}) && (flags.loopcheck ==> loopcheck != null)
      modifies this`rightwardsVector, visited, loopcheck
      ensures Valid()
      ensures rightPoints == Kept(RightPass(maxSteps, coin, old(rightwardsVector)))
      ensures leftPoints == Kept(LeftPass(maxSteps, coin, old(rightwardsVector)))
      ensures Marks(VoxelsOf(RightPass(maxSteps, coin, old(rightwardsVector)).front.points)
                    + VoxelsOf(LeftPass(maxSteps, coin, old(rightwardsVector)).front.points))
      ensures rightwardsVector == RightwardsAfter(maxSteps, coin, old(rightwardsVector))
    {
      ghost var rv := rightwardsVector;
      var rightwardsVectorValid := !IsZero(rightwardsVector);
      var maxHalf := CHalf(maxSteps);

      var rightLeftMask, starting, previousStep;
      ghost var right;
      rightPoints, rightLeftMask, starting, previousStep, right :=
        TrackPass(0, maxHalf, coin, rightwardsVectorValid, true, Zero, {});
      assert right == RightPass(maxSteps, coin, rv);
      PassStarting(Start(true, if rightwardsVectorValid then Scale(rv, 1.0) else Zero), maxHalf, rightwardsVectorValid, coin);
      ghost var rightAppended := rightPoints;
      assert {} + VoxelsOf(rightPoints) == VoxelsOf(rightPoints);
      if flags.mustLeave && !rightLeftMask {
        rightPoints := [];
      }

      var leftLeftMask, leftStarting, leftPreviousStep;
      ghost var left;
      leftPoints, leftLeftMask, leftStarting, leftPreviousStep, left :=
        TrackPass(1, maxHalf, coin, rightwardsVectorValid, starting, previousStep, VoxelsOf(rightAppended));
      assert left == LeftPass(maxSteps, coin, rv);
      if flags.mustLeave && !leftLeftMask {
        leftPoints := [];
      }
    }

    /**
     * Tracker::run(maxSteps): creates or clears the visitation map, creates
     * the loop-check field on first use, tracks both ways from the seed, and
     * returns a voxel-space streamline with the mask's voxel size, fixed
     * spacing and both termination reasons unknown. The one uniform draw a
     * run can make is `coin`.
     */
    method Run(maxSteps: int, coin: real) returns (streamline: Streamline)
      requires Valid()
      modifies this`rightwardsVector, this`visited, this`loopcheck, visited, loopcheck
      ensures Valid() && visited != null && (flags.loopcheck ==> loopcheck != null)
      ensures old(visited) != null ==> visited == old(visited)
      ensures old(loopcheck) != null ==> loopcheck == old(loopcheck)
      ensures fresh(streamline)
      ensures streamline.Snapshot()
        == Fields(Kept(LeftPass(maxSteps, coin, old(rightwardsVector))),
                  Kept(RightPass(maxSteps, coin, old(rightwardsVector))),
                  VoxelPointType, mask.voxelDims, {}, UnknownReason, UnknownReason, true)
      ensures Marks(VoxelsOf(RightPass(maxSteps, coin, old(rightwardsVector)).front.points)
                    + VoxelsOf(LeftPass(maxSteps, coin, old(rightwardsVector)).front.points))
      ensures rightwardsVector == RightwardsAfter(maxSteps, coin, old(rightwardsVector))
    {
      Prepare();
      var leftPoints, rightPoints := TrackBothWays(maxSteps, coin);
      streamline := new Streamline(leftPoints, rightPoints, VoxelPointType, mask.voxelDims, true);
    }
  }
}
