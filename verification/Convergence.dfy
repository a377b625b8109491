/** Where the closed loop goes: the PI law it telescopes to while no clamp is
    active, and its convergence to a bound under a steady error. */
module Convergence {
  import opened Common
  import opened Types
  import opened Allocation
  import opened Recommender
  import opened VerticalLoop

  // ---- Telescoping of the fixed-gain controller ----------------------------

  function SumReal(xs: seq<real>): real
  {
    if |xs| == 0 then 0.0 else SumReal(xs[..|xs| - 1]) + xs[|xs| - 1]
  }

  /** The actual CPU after a run of errors, each desired value followed. */
  function Follow(start: int, errors: seq<real>): int
  {
    if |errors| == 0 then start
    else
      var n := |errors| - 1;
      DesiredCpu(Follow(start, errors[..n]), Before(errors), errors[n])
  }

  /** The fixed-gain controller that meets the last error of the run. */
  function Before(errors: seq<real>): Controller
    requires 0 < |errors|
  {
    FRESH.(prevError := LastError(errors[..|errors| - 1]))
  }

  function LastError(errors: seq<real>): real
  {
    if |errors| == 0 then 0.0 else errors[|errors| - 1]
  }

  /** No step of the run meets either clamp of the controller. */
  ghost predicate Unclamped(start: int, errors: seq<real>)
  {
    |errors| == 0 ||
    var n := |errors| - 1;
    var cores := Follow(start, errors[..n]) as real;
    Unclamped(start, errors[..n]) && MIN_CPU <= Law(cores, Before(errors), errors[n]) <= cores * 1.5
  }

  /** The positional PI law the velocity form is derived from. */
  function PositionalLaw(start: int, errors: seq<real>): real
  {
    start as real + 40.0 * LastError(errors) + 80.0 * SumReal(errors)
  }

  /** Telescoping: after n unclamped steps the code sits below the positional
      PI law by a truncation loss of less than n milli-units. */
  lemma {:induction false} VelocityFormTelescopes(start: int, errors: seq<real>)
    requires Unclamped(start, errors)
    ensures var delta := PositionalLaw(start, errors) - Follow(start, errors) as real;
            0.0 <= delta && (if |errors| == 0 then delta == 0.0 else delta < |errors| as real)
  {
    if |errors| == 0 {
    } else {
      var n := |errors| - 1;
      var rest, e := errors[..n], errors[n];
      VelocityFormTelescopes(start, rest);
      var cores := Follow(start, rest) as real;
      var out := Law(cores, Before(errors), e);
      FixedLaw(cores, LastError(rest), e);
      TruncateBounds(out, 0);
      assert Clamped(cores, out) == out;
      assert |errors| as real == n as real + 1.0;
    }
  }

  lemma FixedLaw(cores: real, prevError: real, e: real)
    ensures Law(cores, FRESH.(prevError := prevError), e) ==
            cores - 40.0 * prevError + 40.0 * e + 80.0 * e
  {
  }

  // ---- Convergence under a steady error ------------------------------------

  /** The integral gain a logic never goes below, over any run. */
  function LeastGain(logic: Logic): real
  {
    if logic == FixedGain then 80.0 else 20.0
  }

  function Bounded(value: int, sla: Sla): int
  {
    ApplyBounds(value, Lower(sla).cpu, Upper(sla).cpu, sla.minResources.Some?, sla.maxResources.Some?)
  }

  lemma GainTimesError(p: PodLoop, e: real)
    requires ValidPod(p)
    ensures 1.0 <= Times(LeastGain(p.logic), e) ==> 1.0 <= Times(p.controller.dc, e)
    ensures Times(LeastGain(p.logic), e) <= -1.0 ==> Times(p.controller.dc, e) <= -1.0
  {
    var g, dc := LeastGain(p.logic), p.controller.dc;
    ProductSign(g, e);
    ProductSign(dc - g, e);
    assert Times(dc, e) == Times(g, e) + Times(dc - g, e);
  }

  lemma ProductSign(g: real, e: real)
    requires 0.0 <= g
    ensures 0.0 <= e ==> 0.0 <= Times(g, e)
    ensures e <= 0.0 ==> Times(g, e) <= 0.0
  {
  }

  lemma ProportionalPart(c: Controller, e: real)
    requires 0.0 <= c.bc
    ensures c.prevError <= e ==> Times(c.bc, c.prevError) <= Times(c.bc, e)
    ensures e <= c.prevError ==> Times(c.bc, e) <= Times(c.bc, c.prevError)
  {
    if c.prevError <= e {
      assert 0.0 <= c.bc * (e - c.prevError);
    }
    if e <= c.prevError {
      assert 0.0 <= c.bc * (c.prevError - e);
    }
  }

  /** CPU `next` follows `cpu` on the way up to the upper bound, if any. */
  ghost predicate Rises(cpu: int, next: int, sla: Sla)
  {
    if sla.maxResources.Some? then next == Upper(sla).cpu || cpu < next < Upper(sla).cpu else cpu < next
  }

  /** A positive steady error: one step climbs, or lands on the upper bound. */
  lemma ClimbStep(p: PodLoop, e: real, sla: Sla)
    requires ValidPod(p)
    requires 1.0 <= Times(LeastGain(p.logic), e) && p.controller.prevError <= e && 2 <= p.actual.cpu
    requires sla.minResources.Some? && sla.maxResources.Some? ==> Lower(sla).cpu <= Upper(sla).cpu
    ensures Rises(p.actual.cpu, Bounded(DesiredCpu(p.actual.cpu, p.controller, e), sla), sla)
  {
    GainTimesError(p, e);
    ProportionalPart(p.controller, e);
    var cores := p.actual.cpu as real;
    var out := Clamped(cores, Law(cores, p.controller, e));
    assert (p.actual.cpu + 1) as real == cores + 1.0;
    assert cores + 1.0 <= out;
    TruncateBounds(out, p.actual.cpu + 1);
  }

  /** A negative steady error: one step falls, or lands on the floor. */
  lemma FallStep(p: PodLoop, e: real, sla: Sla)
    requires ValidPod(p)
    requires Times(LeastGain(p.logic), e) <= -1.0 && e <= p.controller.prevError
    requires sla.maxResources.Some? ==> 0 <= Upper(sla).cpu
    requires sla.minResources.Some? && sla.maxResources.Some? ==> Lower(sla).cpu <= Upper(sla).cpu
    requires Bounded(5, sla) <= p.actual.cpu
    ensures var next := Bounded(DesiredCpu(p.actual.cpu, p.controller, e), sla);
            next == Bounded(5, sla) || Bounded(5, sla) < next < p.actual.cpu
  {
    GainTimesError(p, e);
    ProportionalPart(p.controller, e);
    var a := p.actual.cpu;
    var out := Clamped(a as real, Law(a as real, p.controller, e));
    var d := Truncate(out);
    assert out <= MaxReal(5.0, a as real - 1.0);
    TruncateBounds(out, 5);
    assert d <= Max(5, a - 1);
    DesiredCpuRange(a, p.controller, e);
    if a < 5 {
      assert a as real <= out;
      TruncateBounds(out, a);
    }
  }

  /** The demands of the round fit what is allocatable, so the contention
      manager grants them all. */
  ghost predicate Uncontended(ps: seq<PodLoop>, input: RoundInput)
    requires ValidInput(input, |ps|)
  {
    Admissible(ps, input) && Sum(CpuDemands(ps, input)) <= Allocatable(ps, input).cpu
  }

  /** A condition on the agreements alone: if upper bounds of the present pods
      and the resources of absent ones fit the node, no metric contends it. */
  lemma FittingBoundsNeverContend(ps: seq<PodLoop>, input: RoundInput, bounds: seq<int>)
    requires ValidPods(ps) && ValidInput(input, |ps|) && |bounds| == |ps| && Fits(ps, input.capacity)
    requires forall i :: 0 <= i < |ps| ==>
               if Absent(input.pods[i]) then ps[i].actual.cpu <= bounds[i]
               else input.pods[i].sla.maxResources.Some? && Upper(input.pods[i].sla).cpu <= bounds[i]
    requires Sum(bounds) <= input.capacity.cpu
    ensures Uncontended(ps, input)
  {
    hide DesiredCpu, Error, Capped;
    FittingIsAdmissible(ps, input);
    var demands, reserved := CpuDemands(ps, input), CpuReserved(ps, input);
    var both := seq(|ps|, i requires 0 <= i < |ps| => demands[i] + reserved[i]);
    forall i | 0 <= i < |ps| ensures both[i] <= bounds[i] {
      DemandRange(ps[i], input.pods[i]);
    }
    SumMonotone(both, bounds);
    SumPlus(demands, reserved, both);
  }

  lemma {:induction false} SumPlus(xs: seq<int>, ys: seq<int>, zs: seq<int>)
    requires |xs| == |ys| == |zs|
    requires forall i :: 0 <= i < |xs| ==> zs[i] == xs[i] + ys[i]
    ensures Sum(zs) == Sum(xs) + Sum(ys)
  {
    if |xs| == 0 {
    } else {
      var n := |xs| - 1;
      SumPlus(xs[..n], ys[..n], zs[..n]);
    }
  }

  lemma UncontendedRound(ps: seq<PodLoop>, input: RoundInput, i: nat)
    requires ValidPods(ps) && ValidInput(input, |ps|) && Uncontended(ps, input) && i < |ps|
    requires !Absent(input.pods[i]) && input.pods[i].reached
    ensures var p', sla, e := Round(ps, input)[i], input.pods[i].sla, ErrorOf(input.pods[i]);
            && p'.actual.cpu == Bounded(DesiredCpu(ps[i].actual.cpu, ps[i].controller, e), sla)
            && p'.controller.prevError == e && p'.logic == ps[i].logic
  {
    hide DesiredCpu, Error, Proportional;
    DemandsNonNegative(ps, input);
    TightSplit(CpuDemands(ps, input), Allocatable(ps, input).cpu);
  }

  /** What contention can take from a pod: without it, both resources of a pod
      that is reached lie within both bounds of its agreement. */
  lemma UncontendedRespectsAgreement(ps: seq<PodLoop>, input: RoundInput, i: nat)
    requires ValidPods(ps) && ValidInput(input, |ps|) && Uncontended(ps, input) && i < |ps|
    requires Sum(MemoryDemands(ps, input)) <= Allocatable(ps, input).memory
    requires !Absent(input.pods[i]) && input.pods[i].reached
    ensures var actual, sla := Round(ps, input)[i].actual, input.pods[i].sla;
            && (sla.minResources.Some? ==>
                  sla.minResources.value.cpu <= actual.cpu && sla.minResources.value.memory <= actual.memory)
            && (sla.maxResources.Some? ==>
                  actual.cpu <= sla.maxResources.value.cpu && actual.memory <= sla.maxResources.value.memory)
  {
    hide DesiredCpu, Error, Proportional;
    DemandsNonNegative(ps, input);
    TightSplit(CpuDemands(ps, input), Allocatable(ps, input).cpu);
    TightSplit(MemoryDemands(ps, input), Allocatable(ps, input).memory);
    var desired := Resources(DesiredCpu(ps[i].actual.cpu, ps[i].controller, ErrorOf(input.pods[i])),
                             ps[i].desiredMemory);
    CappedIsNearest(desired, input.pods[i].sla);
  }

  /** Pod `i` sees the same agreement and the same error in every round and is
      reached; no round is contended. The other pods may see anything. */
  ghost predicate Steady(ps: seq<PodLoop>, inputs: seq<RoundInput>, i: nat, sla: Sla, e: real)
    requires ValidInputs(inputs, |ps|) && i < |ps|
  {
    forall k :: 0 <= k < |inputs| ==>
      && Uncontended(StateAt(ps, inputs, k), inputs[k])
      && SteadyInput(inputs[k].pods[i], sla, e)
  }

  ghost predicate SteadyInput(input: PodInput, sla: Sla, e: real)
    requires ValidPodInput(input)
  {
    !Absent(input) && input.reached && input.sla == sla && ErrorOf(input) == e
  }

  /** Pod `p` is driven upwards by error `e`. */
  ghost predicate Climbing(p: PodLoop, e: real)
  {
    1.0 <= Times(LeastGain(p.logic), e) && p.controller.prevError <= e && 2 <= p.actual.cpu
  }

  lemma ClimbRound(ps: seq<PodLoop>, input: RoundInput, i: nat, sla: Sla, e: real)
    requires ValidPods(ps) && ValidInput(input, |ps|) && Uncontended(ps, input) && i < |ps|
    requires SteadyInput(input.pods[i], sla, e)
    requires Climbing(ps[i], e) && (sla.maxResources.Some? ==> 2 <= Upper(sla).cpu)
    ensures Climbing(Round(ps, input)[i], e) && ValidPods(Round(ps, input))
    ensures Rises(ps[i].actual.cpu, Round(ps, input)[i].actual.cpu, sla)
  {
    UncontendedRound(ps, input, i);
    RoundIsSafe(ps, input);
    ClimbStep(ps[i], e, sla);
  }

  /** Convergence upwards: CPU rises in every round until it equals the upper
      bound, which takes at most `max - start` rounds, and then stays there.
      Without an upper bound it rises for as long as the node is uncontended. */
  lemma {:induction false} SteadyErrorClimbs(
    ps: seq<PodLoop>, inputs: seq<RoundInput>, i: nat, sla: Sla, e: real, k: nat)
    requires ValidPods(ps) && ValidInputs(inputs, |ps|) && i < |ps| && k <= |inputs|
    requires Steady(ps, inputs, i, sla, e)
    requires Climbing(ps[i], e) && (sla.maxResources.Some? ==> 2 <= Upper(sla).cpu)
    ensures ValidPods(StateAt(ps, inputs, k)) && Climbing(StateAt(ps, inputs, k)[i], e)
    ensures var start, cpu := ps[i].actual.cpu, StateAt(ps, inputs, k)[i].actual.cpu;
            0 < k ==>
              && Rises(StateAt(ps, inputs, k - 1)[i].actual.cpu, cpu, sla)
              && Rises(start + k - 1, cpu, sla)
              && (sla.maxResources.Some? && Upper(sla).cpu - start <= k ==> cpu == Upper(sla).cpu)
  {
    hide Run, Round, StateAt, ValidPod, Uncontended, Bounded, Climbing, SteadyInput;
    if k == 0 {
    } else {
      SteadyErrorClimbs(ps, inputs, i, sla, e, k - 1);
      RunStep(ps, inputs, k - 1);
      ClimbRound(StateAt(ps, inputs, k - 1), inputs[k - 1], i, sla, e);
    }
  }

  /** Pod `p` is driven by error `e` down to the floor of `sla`. */
  ghost predicate Falling(p: PodLoop, sla: Sla, e: real)
  {
    Times(LeastGain(p.logic), e) <= -1.0 && e <= p.controller.prevError && Bounded(5, sla) <= p.actual.cpu
  }

  lemma FallRound(ps: seq<PodLoop>, input: RoundInput, i: nat, sla: Sla, e: real)
    requires ValidPods(ps) && ValidInput(input, |ps|) && Uncontended(ps, input) && i < |ps|
    requires SteadyInput(input.pods[i], sla, e) && Falling(ps[i], sla, e)
    ensures var p', floor := Round(ps, input)[i], Bounded(5, sla);
            && Falling(p', sla, e) && ValidPods(Round(ps, input))
            && (p'.actual.cpu == floor || floor < p'.actual.cpu < ps[i].actual.cpu)
  {
    UncontendedRound(ps, input, i);
    RoundIsSafe(ps, input);
    FallStep(ps[i], e, sla);
  }

  /** Convergence downwards: CPU falls in every round until it equals the
      bounded minimum of 5 milli-units, in at most `start - floor` rounds. */
  lemma {:induction false} SteadyErrorFalls(
    ps: seq<PodLoop>, inputs: seq<RoundInput>, i: nat, sla: Sla, e: real, k: nat)
    requires ValidPods(ps) && ValidInputs(inputs, |ps|) && i < |ps| && k <= |inputs|
    requires Steady(ps, inputs, i, sla, e) && Falling(ps[i], sla, e)
    ensures ValidPods(StateAt(ps, inputs, k)) && Falling(StateAt(ps, inputs, k)[i], sla, e)
    ensures var start, cpu, floor := ps[i].actual.cpu, StateAt(ps, inputs, k)[i].actual.cpu, Bounded(5, sla);
            && (0 < k ==> cpu == floor || floor < cpu < StateAt(ps, inputs, k - 1)[i].actual.cpu)
            && (cpu == floor || floor < cpu <= start - k)
            && (start - floor <= k ==> cpu == floor)
  {
    hide Run, Round, StateAt, ValidPod, Uncontended, Bounded, Times, LeastGain, SteadyInput;
    if k == 0 {
    } else {
      SteadyErrorFalls(ps, inputs, i, sla, e, k - 1);
      RunStep(ps, inputs, k - 1);
      FallRound(StateAt(ps, inputs, k - 1), inputs[k - 1], i, sla, e);
    }
  }

  // ---- The same in milliseconds --------------------------------------------

  /** The errors that the code computes from response times. */
  function ErrorsOf(setPoint: int, times: seq<int>): (errors: seq<real>)
    requires 0 < setPoint
    ensures |errors| == |times|
  {
    seq(|times|, i requires 0 <= i < |times| => Error(setPoint, times[i]))
  }

  function Differences(setPoint: int, times: seq<int>): (ds: seq<real>)
    requires 0 < setPoint && forall i :: 0 <= i < |times| ==> 0 < times[i]
    ensures |ds| == |times|
  {
    seq(|times|, i requires 0 <= i < |times| => InverseDifference(setPoint, times[i]))
  }

  /** Telescoping for response times: as long as none is so far off the set
      point that the error is cut at ten, and no step is clamped, the CPU is the
      positional PI law of the differences of inverse times, less than one
      milli-unit per step below it. */
  lemma ResponseTimesTelescope(start: int, setPoint: int, times: seq<int>)
    requires 0 < setPoint
    requires forall i :: 0 <= i < |times| ==>
               && 0 < times[i]
               && -10 * (setPoint * times[i]) <= 1000 * (times[i] - setPoint) <= 10 * (setPoint * times[i])
    requires Unclamped(start, ErrorsOf(setPoint, times))
    ensures var delta := PositionalLaw(start, Differences(setPoint, times)) -
                         Follow(start, ErrorsOf(setPoint, times)) as real;
            0.0 <= delta && (if |times| == 0 then delta == 0.0 else delta < |times| as real)
  {
    forall i | 0 <= i < |times|
      ensures ErrorsOf(setPoint, times)[i] == Differences(setPoint, times)[i]
    {
      ErrorInMilliseconds(setPoint, times[i]);
    }
    assert ErrorsOf(setPoint, times) == Differences(setPoint, times);
    VelocityFormTelescopes(start, ErrorsOf(setPoint, times));
  }

  lemma GainCondition(gain: int, e: real, n: int, d: int)
    requires 0 < d && 0 < gain && e * d as real == n as real
    ensures d <= gain * n ==> 1.0 <= Times(gain as real, e)
    ensures gain * n <= -d ==> Times(gain as real, e) <= -1.0
  {
    CastTimes(gain, n);
    var x := gain as real * e;
    assert x * d as real == gain as real * (e * d as real);
    AgainstBound(x, d as real, 1.0);
    AgainstBound(x, d as real, -1.0);
  }

  /** Slower than the set point by enough, in milliseconds, for the integral gain
      of the logic to make a milli-unit of it, and no faster than before. */
  ghost predicate SlowEnough(p: PodLoop, setPoint: int, t: int)
  {
    && 0 < setPoint && 0 < t
    && setPoint * t <= (if p.logic == FixedGain then 80 else 20) * (1000 * (t - setPoint))
    && p.controller.prevError <= 10.0
    && p.controller.prevError * (setPoint * t) as real <= (1000 * (t - setPoint)) as real
  }

  /** Faster than the set point by as much, and no slower than before. */
  ghost predicate FastEnough(p: PodLoop, setPoint: int, t: int)
  {
    && 0 < setPoint && 0 <= t
    && (if p.logic == FixedGain then 80 else 20) * (1000 * (t - setPoint)) <= -(setPoint * t)
    && -10.0 <= p.controller.prevError
    && (1000 * (t - setPoint)) as real <= p.controller.prevError * (setPoint * t) as real
  }

  lemma SlowMeansClimbing(p: PodLoop, setPoint: int, t: int)
    requires SlowEnough(p, setPoint, t) && 2 <= p.actual.cpu
    ensures Climbing(p, Error(setPoint, t))
  {
    hide Error, Times;
    var e, n, d := Error(setPoint, t), 1000 * (t - setPoint), setPoint * t;
    assert 0 < d;
    ErrorInMilliseconds(setPoint, t);
    if 10 * d < n {
      BoundIsEnough(p.logic);
    } else {
      GainCondition(if p.logic == FixedGain then 80 else 20, e, n, d);
      AgainstBound(p.controller.prevError, d as real, e);
    }
  }

  lemma FastMeansFalling(p: PodLoop, sla: Sla, t: int)
    requires FastEnough(p, sla.responseTime, t) && Bounded(5, sla) <= p.actual.cpu
    ensures Falling(p, sla, Error(sla.responseTime, t))
  {
    hide Error, Times, Bounded;
    var e, n, d := Error(sla.responseTime, t), 1000 * (t - sla.responseTime), sla.responseTime * t;
    ErrorInMilliseconds(sla.responseTime, t);
    if t == 0 || n < -10 * d {
      BoundIsEnough(p.logic);
    } else {
      assert 0 < d;
      GainCondition(if p.logic == FixedGain then 80 else 20, e, n, d);
      AgainstBound(p.controller.prevError, d as real, e);
    }
  }

  lemma BoundIsEnough(logic: Logic)
    ensures 1.0 <= Times(LeastGain(logic), 10.0) && Times(LeastGain(logic), -10.0) <= -1.0
  {
  }

  /** Pod `i` answers in the same time `t` under the same agreement in every
      round and is reached; no round is contended. */
  ghost predicate SteadyTime(ps: seq<PodLoop>, inputs: seq<RoundInput>, i: nat, sla: Sla, t: int)
    requires ValidInputs(inputs, |ps|) && i < |ps|
  {
    forall k :: 0 <= k < |inputs| ==>
      && Uncontended(StateAt(ps, inputs, k), inputs[k])
      && !Absent(inputs[k].pods[i]) && inputs[k].pods[i].reached
      && inputs[k].pods[i].sla == sla && inputs[k].pods[i].metric.value.responseTime == t
  }

  /** A service that stays slower than its set point by enough gets more CPU every
      round, up to its bound. */
  lemma SlowServiceClimbs(ps: seq<PodLoop>, inputs: seq<RoundInput>, i: nat, sla: Sla, t: int, k: nat)
    requires ValidPods(ps) && ValidInputs(inputs, |ps|) && i < |ps| && k <= |inputs| && 0 < |inputs|
    requires SteadyTime(ps, inputs, i, sla, t) && SlowEnough(ps[i], sla.responseTime, t) && 2 <= ps[i].actual.cpu
    requires sla.maxResources.Some? ==> 2 <= sla.maxResources.value.cpu
    ensures var start, cpu := ps[i].actual.cpu, StateAt(ps, inputs, k)[i].actual.cpu;
            0 < k ==>
              if sla.maxResources.None? then start + k <= cpu
              else
                && (cpu == sla.maxResources.value.cpu || start + k <= cpu < sla.maxResources.value.cpu)
                && (sla.maxResources.value.cpu - start <= k ==> cpu == sla.maxResources.value.cpu)
  {
    SlowMeansClimbing(ps[i], sla.responseTime, t);
    hide Climbing, Uncontended, Error, StateAt, SlowEnough;
    SteadyErrorClimbs(ps, inputs, i, sla, Error(sla.responseTime, t), k);
  }

  /** One that stays faster by enough gets less every round, down to the bounded
      minimum of 5. A response time of zero is always fast enough. */
  lemma FastServiceFalls(ps: seq<PodLoop>, inputs: seq<RoundInput>, i: nat, sla: Sla, t: int, k: nat)
    requires ValidPods(ps) && ValidInputs(inputs, |ps|) && i < |ps| && k <= |inputs| && 0 < |inputs|
    requires SteadyTime(ps, inputs, i, sla, t) && FastEnough(ps[i], sla.responseTime, t)
    requires Bounded(5, sla) <= ps[i].actual.cpu
    ensures var start, cpu, floor := ps[i].actual.cpu, StateAt(ps, inputs, k)[i].actual.cpu, Bounded(5, sla);
            && (cpu == floor || floor < cpu <= start - k)
            && (start - floor <= k ==> cpu == floor)
  {
    FastMeansFalling(ps[i], sla, t);
    hide Falling, Uncontended, Error, StateAt, Bounded, FastEnough;
    SteadyErrorFalls(ps, inputs, i, sla, Error(sla.responseTime, t), k);
  }

  // ---- Telescoping of the adaptive controller ------------------------------

  function ReadingError(r: Reading): real
    requires 0 < r.setPoint
  {
    Error(r.setPoint, r.responseTime)
  }

  /** The actual CPU after a run of readings, each desired value followed. */
  ghost function AdaptiveFollow(start: int, rs: seq<Reading>): int
    requires ValidReadings(rs)
  {
    if |rs| == 0 then start
    else
      var n := |rs| - 1;
      DesiredCpu(AdaptiveFollow(start, rs[..n]), AdaptiveRun(rs[..n]), ReadingError(rs[n]))
  }

  /** What one step adds: the proportional gain on the step of the error, and the
      integral gain on the error. */
  function Push(c: Controller, e: real): real
  {
    c.bc * (e - c.prevError) + c.dc * e
  }

  /** What the gains of the run make of its errors. */
  ghost function AdaptiveLaw(start: int, rs: seq<Reading>): real
    requires ValidReadings(rs)
  {
    if |rs| == 0 then start as real
    else
      var n := |rs| - 1;
      AdaptiveLaw(start, rs[..n]) + Push(AdaptiveRun(rs[..n]), ReadingError(rs[n]))
  }

  /** No step of the run meets either clamp of the controller. */
  ghost predicate AdaptiveUnclamped(start: int, rs: seq<Reading>)
    requires ValidReadings(rs)
  {
    |rs| == 0 ||
    var n := |rs| - 1;
    var cores := AdaptiveFollow(start, rs[..n]) as real;
    && AdaptiveUnclamped(start, rs[..n])
    && 5.0 <= cores + Push(AdaptiveRun(rs[..n]), ReadingError(rs[n])) <= cores * 1.5
  }

  lemma UnclampedStep(actual: int, c: Controller, e: real)
    requires 5.0 <= actual as real + Push(c, e) <= actual as real * 1.5
    ensures var out := actual as real + Push(c, e);
            DesiredCpu(actual, c, e) as real <= out < DesiredCpu(actual, c, e) as real + 1.0
  {
    DesiredCpuExactly(actual, c, e);
  }

  /** Telescoping with adapted gains: after n unclamped steps the code sits below
      what its own gains make of the errors by a loss of less than n. */
  lemma {:induction false} AdaptiveFormTelescopes(start: int, rs: seq<Reading>)
    requires ValidReadings(rs) && AdaptiveUnclamped(start, rs)
    ensures var delta := AdaptiveLaw(start, rs) - AdaptiveFollow(start, rs) as real;
            0.0 <= delta && (if |rs| == 0 then delta == 0.0 else delta < |rs| as real)
  {
    if |rs| == 0 {
    } else {
      hide DesiredCpu, Error, Push;
      var n := |rs| - 1;
      AdaptiveFormTelescopes(start, rs[..n]);
      UnclampedStep(AdaptiveFollow(start, rs[..n]), AdaptiveRun(rs[..n]), ReadingError(rs[n]));
      assert |rs| as real == n as real + 1.0;
    }
  }
}
