/** The two replica logics: what each proposes, and the timed three-state
    machine both of them put between a proposal and a change. */
module ReplicaUpdater {
  import opened Common
  import opened Types
  import opened Allocation

  const SCALE_UP_PERIOD := 15000
  const SCALE_DOWN_PERIOD := 30000
  const STABILIZE_PERIOD := 150000

  datatype Phase = Steady | ScalingUp | ScalingDown

  /** The fields of a logic; times are in milliseconds. */
  datatype Vars = Vars(phase: Phase, startUp: int, startDown: int, stabilized: int)

  /** What one call makes of its inputs: the metric could not be read, it lies
      within the tolerance, or a number of replicas is proposed. */
  datatype Verdict = Unread | Hold | Propose(replicas: int)

  function New(now: int): Vars
  {
    Vars(Steady, now, now, now)
  }

  /** The timed machine: the new fields and the returned number of replicas. */
  function Step(v: Vars, now: int, verdict: Verdict, current: int): (Vars, int)
  {
    if now - v.stabilized < STABILIZE_PERIOD then (v.(phase := Steady), current)
    else
      match verdict
      case Unread => (v, current)
      case Hold => (v.(phase := Steady), current)
      case Propose(n) =>
        if n > current then
          if v.phase != ScalingUp then (v.(phase := ScalingUp, startUp := now), current)
          else if now - v.startUp > SCALE_UP_PERIOD then (v.(phase := Steady, stabilized := now), n)
          else (v, current)
        else if n < current then
          if v.phase != ScalingDown then (v.(phase := ScalingDown, startDown := now), current)
          else if now - v.startDown > SCALE_DOWN_PERIOD then (v.(phase := Steady, stabilized := now), n)
          else (v, current)
        else (v.(phase := Steady), current)
  }

  // ---- Verdicts ------------------------------------------------------------

  function Clamp(sla: Sla, n: int): int
  {
    Min(sla.maxReplicas, Max(sla.minReplicas, n))
  }

  function ScaledCount(responseTime: int, target: int, current: int): real
    requires target != 0
  {
    responseTime as real / target as real * current as real
  }

  /** The replicas that would bring the response time to its target. */
  function TargetReplicas(sla: Sla, responseTime: int, current: int): int
    requires 0 < sla.responseTime
  {
    Clamp(sla, RoundHalfAway(ScaledCount(responseTime, sla.responseTime, current)))
  }

  /** The bounds of the tolerance, which the source computes from the target
      response time and compares with a number of replicas. */
  function ToleranceLower(sla: Sla): int
  {
    Truncate(sla.responseTime as real * 0.8)
  }

  function ToleranceUpper(sla: Sla): int
  {
    Truncate(sla.responseTime as real * 1.2)
  }

  function HpaVerdict(sla: Sla, responseTime: Option<int>, current: int): Verdict
    requires 0 < sla.responseTime
  {
    if responseTime.None? then Unread
    else
      var n := TargetReplicas(sla, responseTime.value, current);
      if n < ToleranceUpper(sla) && n > ToleranceLower(sla)
      then Hold else Propose(n)
  }

  /** The CPU requests of the containers of each pod of a node. */
  datatype NodeLoad = NodeLoad(allocatable: nat, requests: seq<seq<int>>)

  function Requested(requests: seq<seq<int>>): int
  {
    if |requests| == 0 then 0
    else Requested(requests[..|requests| - 1]) + Sum(requests[|requests| - 1])
  }

  /** Saturation above 0.8. Dividing by an allocatable of zero gives infinity,
      which is above, or for nothing requested a value that compares false. */
  predicate Saturated(load: NodeLoad)
  {
    if load.allocatable == 0 then Requested(load.requests) > 0
    else Requested(load.requests) as real / load.allocatable as real > 0.8
  }

  /** A podscale asks for one replica more when its node can be read and is
      saturated. */
  predicate AsksForMore(load: Option<NodeLoad>)
  {
    load.Some? && Saturated(load.value)
  }

  function Saturations(loads: seq<Option<NodeLoad>>): nat
  {
    if |loads| == 0 then 0
    else Saturations(loads[..|loads| - 1]) + if AsksForMore(loads[|loads| - 1]) then 1 else 0
  }

  function Upscaled(loads: seq<Option<NodeLoad>>, earlyStop: bool, current: int): int
  {
    if earlyStop then Min(current + 1, current + Saturations(loads)) else current + Saturations(loads)
  }

  function CustomVerdict(sla: Sla, loads: seq<Option<NodeLoad>>, responseTime: Option<int>,
                         earlyStop: bool, current: int): Verdict
    requires 0 < sla.responseTime
  {
    var up := Upscaled(loads, earlyStop, current);
    if up != current then Propose(Clamp(sla, up))
    else if responseTime.None? then Unread
    else Propose(Clamp(sla, Min(current, TargetReplicas(sla, responseTime.value, current))))
  }

  // ---- The logics ----------------------------------------------------------

  class HpaLogic {
    var startScaleUpTime: int
    var startScaleDownTime: int
    var stabilizeTime: int
    var state: Phase

    ghost function State(): Vars
      reads this
    {
      Vars(state, startScaleUpTime, startScaleDownTime, stabilizeTime)
    }

    constructor (now: int)
      ensures State() == New(now)
    {
      startScaleUpTime, startScaleDownTime, stabilizeTime := now, now, now;
      state := Steady;
    }

    method ComputeReplica(sla: Sla, responseTime: Option<int>, current: int, now: int) returns (replicas: int)
      requires 0 < sla.responseTime
      modifies this
      ensures (State(), replicas) == Step(old(State()), now, HpaVerdict(sla, responseTime, current), current)
    {
      if now - stabilizeTime < STABILIZE_PERIOD {
        state := Steady;
        return current;
      }
      if responseTime.None? {
        return current;
      }
      var nReplicas := TargetReplicas(sla, responseTime.value, current);
      var toleranceUpperBound := Truncate(sla.responseTime as real * 1.2);
      var toleranceLowerBound := Truncate(sla.responseTime as real * 0.8);
      if nReplicas < toleranceUpperBound && nReplicas > toleranceLowerBound {
        state := Steady;
        return current;
      }
      if nReplicas > current {
        if state == ScalingUp {
          if now - startScaleUpTime > SCALE_UP_PERIOD {
            state := Steady;
            stabilizeTime := now;
            return nReplicas;
          }
        } else {
          state := ScalingUp;
          startScaleUpTime := now;
          return current;
        }
      } else if nReplicas < current {
        if state == ScalingDown {
          if now - startScaleDownTime > SCALE_DOWN_PERIOD {
            state := Steady;
            stabilizeTime := now;
            return nReplicas;
          }
        } else {
          state := ScalingDown;
          startScaleDownTime := now;
          return current;
        }
      } else {
        state := Steady;
      }
      return current;
    }
  }

  class CustomLogic {
    var startScaleUpTime: int
    var startScaleDownTime: int
    var stabilizeTime: int
    var state: Phase
    const earlyStop: bool

    ghost function State(): Vars
      reads this
    {
      Vars(state, startScaleUpTime, startScaleDownTime, stabilizeTime)
    }

    constructor (earlyStop: bool, now: int)
      ensures State() == New(now) && this.earlyStop == earlyStop
    {
      startScaleUpTime, startScaleDownTime, stabilizeTime := now, now, now;
      state := Steady;
      this.earlyStop := earlyStop;
    }

    method IsSaturated(load: NodeLoad) returns (above: bool)
      ensures above == Saturated(load)
    {
      var requestedCpu := 0;
      for p := 0 to |load.requests|
        invariant requestedCpu == Requested(load.requests[..p])
      {
        var containers := load.requests[p];
        for c := 0 to |containers|
          invariant requestedCpu == Requested(load.requests[..p]) + Sum(containers[..c])
        {
          SumStep(containers, c);
          requestedCpu := requestedCpu + containers[c];
        }
        assert containers[..|containers|] == containers;
        assert load.requests[..p + 1][..p] == load.requests[..p];
      }
      assert load.requests[..|load.requests|] == load.requests;
      if load.allocatable == 0 {
        return requestedCpu > 0;
      }
      return requestedCpu as real / load.allocatable as real > 0.8;
    }

    /** The scan over the podscales, cut short at the first saturated node when
        the logic stops early. */
    method ScanNodes(loads: seq<Option<NodeLoad>>, current: int) returns (replicas: int)
      ensures replicas == Upscaled(loads, earlyStop, current)
    {
      replicas := current;
      for i := 0 to |loads|
        invariant replicas == current + Saturations(loads[..i])
        invariant earlyStop ==> replicas == current
      {
        assert loads[..i + 1][..i] == loads[..i];
        if loads[i].None? {
          continue;
        }
        var above := IsSaturated(loads[i].value);
        if above {
          replicas := replicas + 1;
          if earlyStop {
            SaturationsGrow(loads, i + 1);
            return;
          }
        }
      }
      assert loads[..|loads|] == loads;
    }

    method ComputeReplica(sla: Sla, loads: seq<Option<NodeLoad>>, responseTime: Option<int>, current: int, now: int)
      returns (replicas: int)
      requires 0 < sla.responseTime
      modifies this
      ensures (State(), replicas) ==
              Step(old(State()), now, CustomVerdict(sla, loads, responseTime, earlyStop, current), current)
    {
      if now - stabilizeTime < STABILIZE_PERIOD {
        state := Steady;
        return current;
      }
      var nReplicas := ScanNodes(loads, current);
      if current == nReplicas {
        if responseTime.None? {
          return current;
        }
        var downscaledReplicas := TargetReplicas(sla, responseTime.value, current);
        if downscaledReplicas < nReplicas {
          nReplicas := downscaledReplicas;
        }
      }
      nReplicas := Clamp(sla, nReplicas);
      if nReplicas > current {
        if state == ScalingUp {
          if now - startScaleUpTime > SCALE_UP_PERIOD {
            state := Steady;
            stabilizeTime := now;
            return nReplicas;
          }
        } else {
          state := ScalingUp;
          startScaleUpTime := now;
          return current;
        }
      } else if nReplicas < current {
        if state == ScalingDown {
          if now - startScaleDownTime > SCALE_DOWN_PERIOD {
            state := Steady;
            stabilizeTime := now;
            return nReplicas;
          }
        } else {
          state := ScalingDown;
          startScaleDownTime := now;
          return current;
        }
      } else {
        state := Steady;
      }
      return current;
    }
  }

  // ---- Properties of the proposals -----------------------------------------

  lemma {:induction false} SaturationsGrow(loads: seq<Option<NodeLoad>>, k: nat)
    requires k <= |loads|
    ensures Saturations(loads[..k]) <= Saturations(loads)
    decreases |loads| - k
  {
    if k == |loads| {
      assert loads[..k] == loads;
    } else {
      assert loads[..k + 1][..k] == loads[..k];
      SaturationsGrow(loads, k + 1);
    }
  }

  /** Proposals respect the range of the agreement, and with an early stop they
      exceed the current count by at most one. */
  lemma ProposalsInRange(sla: Sla, loads: seq<Option<NodeLoad>>, responseTime: Option<int>,
                         earlyStop: bool, current: int)
    requires 0 < sla.responseTime && sla.minReplicas <= sla.maxReplicas
    ensures var v := HpaVerdict(sla, responseTime, current);
            v.Propose? ==> sla.minReplicas <= v.replicas <= sla.maxReplicas
    ensures var v := CustomVerdict(sla, loads, responseTime, earlyStop, current);
            v.Propose? ==>
              && sla.minReplicas <= v.replicas <= sla.maxReplicas
              && (earlyStop && sla.minReplicas <= current ==> v.replicas <= current + 1)
  {
  }

  lemma RoundedBetween(x: real, low: int, high: int)
    ensures low as real <= x ==> low <= RoundHalfAway(x)
    ensures x <= high as real ==> RoundHalfAway(x) <= high
    ensures -0.5 <= x - RoundHalfAway(x) as real <= 0.5
  {
    var r := RoundHalfAway(x);
    assert low as real <= x ==> low as real < (r + 1) as real;
    assert x <= high as real ==> (r - 1) as real < high as real;
  }

  lemma ScaledCountOrder(part: int, whole: int, n: int)
    requires 0 < whole && 0 <= n
    ensures part <= whole ==> ScaledCount(part, whole, n) <= n as real
    ensures whole <= part ==> n as real <= ScaledCount(part, whole, n)
  {
    var q := part as real / whole as real;
    assert q * whole as real == part as real;
    SignOfProduct(q - 1.0, whole as real);
    SignOfProduct(q - 1.0, n as real);
    assert (q - 1.0) * whole as real == part as real - whole as real;
    assert (q - 1.0) * n as real == q * n as real - n as real;
  }

  lemma SignOfProduct(x: real, y: real)
    requires 0.0 <= y
    ensures 0.0 < x && 0.0 < y ==> 0.0 < x * y
    ensures x < 0.0 && 0.0 < y ==> x * y < 0.0
    ensures 0.0 <= x ==> 0.0 <= x * y
    ensures x <= 0.0 ==> x * y <= 0.0
  {
  }

  lemma RoundedAndClamped(sla: Sla, x: real, current: int)
    ensures x <= current as real ==> Clamp(sla, RoundHalfAway(x)) <= Clamp(sla, current)
    ensures current as real <= x ==> Clamp(sla, current) <= Clamp(sla, RoundHalfAway(x))
  {
    RoundedBetween(x, current, current);
  }

  /** The response-time target never moves the count the wrong way: a service
      within its target is given at most, one beyond it at least, its current
      count, up to the range of the agreement. */
  lemma TargetMovesTheRightWay(sla: Sla, responseTime: int, current: int)
    requires 0 < sla.responseTime && 0 <= current
    ensures responseTime <= sla.responseTime ==> TargetReplicas(sla, responseTime, current) <= Clamp(sla, current)
    ensures sla.responseTime <= responseTime ==> Clamp(sla, current) <= TargetReplicas(sla, responseTime, current)
  {
    hide Clamp, RoundHalfAway, ScaledCount;
    ScaledCountOrder(responseTime, sla.responseTime, current);
    RoundedAndClamped(sla, ScaledCount(responseTime, sla.responseTime, current), current);
  }

  /** A service on its target is given its current count, within the range. */
  lemma OnTarget(sla: Sla, current: int)
    requires 0 < sla.responseTime && 0 <= current
    ensures TargetReplicas(sla, sla.responseTime, current) == Clamp(sla, current)
  {
    hide Clamp, RoundHalfAway, ScaledCount;
    ScaledCountOrder(sla.responseTime, sla.responseTime, current);
    RoundedAndClamped(sla, ScaledCount(sla.responseTime, sla.responseTime, current), current);
  }

  // ---- What the proposals are ----------------------------------------------

  /** The target in whole numbers: the count times the ratio of the times, rounded
      to the nearest with halves up, kept in the range of the agreement. */
  lemma TargetIsRatio(sla: Sla, responseTime: int, current: int)
    requires 0 < sla.responseTime && 0 <= responseTime && 0 <= current
    requires sla.minReplicas <= sla.maxReplicas
    ensures var q := (2 * (responseTime * current) + sla.responseTime) / (2 * sla.responseTime);
            TargetReplicas(sla, responseTime, current) ==
            if q < sla.minReplicas then sla.minReplicas
            else if sla.maxReplicas < q then sla.maxReplicas else q
  {
    RoundedRatio(responseTime, sla.responseTime, current);
  }

  lemma RoundedRatio(part: int, whole: int, n: int)
    requires 0 < whole && 0 <= part && 0 <= n
    ensures RoundHalfAway(ScaledCount(part, whole, n)) == (2 * (part * n) + whole) / (2 * whole)
  {
    var x := ScaledCount(part, whole, n);
    var q := (2 * (part * n) + whole) / (2 * whole);
    RatioTimes(part, whole, n);
    assert 0.0 <= x by {
      ScaledCountOrder(0, whole, n);
      SignOfProduct(part as real / whole as real, n as real);
    }
    assert q * (2 * whole) <= 2 * (part * n) + whole < (q + 1) * (2 * whole);
    HalfUp(x, part * n, whole, q);
  }

  lemma RatioTimes(part: int, whole: int, n: int)
    requires 0 < whole
    ensures ScaledCount(part, whole, n) * whole as real == (part * n) as real
  {
    var u := part as real / whole as real;
    assert u * whole as real == part as real;
    assert (u * n as real) * whole as real == (u * whole as real) * n as real;
    assert (part * n) as real == part as real * n as real;
  }

  lemma HalfUp(x: real, p: int, whole: int, q: int)
    requires 0.0 <= x && 0 < whole && x * whole as real == p as real
    requires q * (2 * whole) <= 2 * p + whole < (q + 1) * (2 * whole)
    ensures RoundHalfAway(x) == q
  {
    DoubledHalf(x, p, whole);
    QuotientInterval(x + 0.5, 2 * p + whole, 2 * whole, q);
  }

  lemma DoubledHalf(x: real, p: int, whole: int)
    requires x * whole as real == p as real
    ensures (x + 0.5) * (2 * whole) as real == (2 * p + whole) as real
  {
    var w := whole as real;
    assert (2 * whole) as real == 2.0 * w;
    assert (x + 0.5) * (2.0 * w) == 2.0 * (x * w) + w;
  }

  lemma Cast(a: int, b: int)
    ensures (a * b) as real == a as real * b as real
  {
  }

  lemma Cancel(a: real, b: real, t: real)
    requires 0.0 < t
    ensures a * t <= b * t <==> a <= b
  {
    if b < a {
      assert 0.0 < (a - b) * t;
    } else {
      assert 0.0 <= (b - a) * t;
    }
  }

  /** What each pod requests. */
  function PodSums(requests: seq<seq<int>>): (sums: seq<int>)
    ensures |sums| == |requests|
  {
    seq(|requests|, p requires 0 <= p < |requests| => Sum(requests[p]))
  }

  lemma {:induction false} RequestedIsSum(requests: seq<seq<int>>)
    ensures Requested(requests) == Sum(PodSums(requests))
  {
    if |requests| == 0 {
    } else {
      var n := |requests| - 1;
      RequestedIsSum(requests[..n]);
      assert PodSums(requests)[..n] == PodSums(requests[..n]);
    }
  }

  /** Saturation in whole numbers: the sum of all requests is above eight tenths
      of the allocatable CPU. */
  ghost predicate AboveEightTenths(load: NodeLoad)
  {
    8 * load.allocatable < 10 * Sum(PodSums(load.requests))
  }

  lemma QuotientAbove(t: int, a: int)
    requires 0 < a
    ensures t as real / a as real > 0.8 <==> 8 * a < 10 * t
  {
    var x := t as real / a as real;
    assert x * a as real == t as real;
    Cancel(x, 0.8, a as real);
    assert x * a as real <= 0.8 * a as real <==> x <= 0.8;
    assert 10.0 * (0.8 * a as real) == (8 * a) as real;
    assert 10.0 * t as real == (10 * t) as real;
  }

  lemma SaturatedMeansAbove(load: NodeLoad)
    ensures Saturated(load) <==> AboveEightTenths(load)
  {
    RequestedIsSum(load.requests);
    if load.allocatable != 0 {
      QuotientAbove(Requested(load.requests), load.allocatable);
    }
  }

  /** The podscales whose node can be read and is above eight tenths. */
  ghost function Hot(loads: seq<Option<NodeLoad>>): set<nat>
  {
    set i: nat | i < |loads| && loads[i].Some? && AboveEightTenths(loads[i].value)
  }

  lemma {:induction false} SaturationsAreHot(loads: seq<Option<NodeLoad>>)
    ensures Saturations(loads) == |Hot(loads)|
  {
    hide Saturated, AboveEightTenths;
    if |loads| == 0 {
      assert Hot(loads) == {};
    } else {
      var n := |loads| - 1;
      SaturationsAreHot(loads[..n]);
      if loads[n].Some? {
        SaturatedMeansAbove(loads[n].value);
      }
      assert Hot(loads) == Hot(loads[..n]) + if AsksForMore(loads[n]) then {n} else {};
    }
  }

  /** What the custom logic proposes: one replica more for every podscale on a hot
      node, or only one with an early stop; without hot nodes what the response
      time asks for, but never more than there are. */
  lemma CustomProposes(sla: Sla, loads: seq<Option<NodeLoad>>, responseTime: Option<int>, earlyStop: bool,
                       current: int)
    requires 0 < sla.responseTime && sla.minReplicas <= current <= sla.maxReplicas && 0 <= current
    ensures var hot, v := |Hot(loads)|, CustomVerdict(sla, loads, responseTime, earlyStop, current);
            if 0 < hot then
              v == Propose(Min(sla.maxReplicas, current + if earlyStop then 1 else hot))
            else if responseTime.None? then v == Unread
            else
              v == Propose(Min(current, TargetReplicas(sla, responseTime.value, current)))
  {
    SaturationsAreHot(loads);
  }

  /** What the HPA logic proposes: the target, unless it lies strictly between
      eight and twelve tenths of the target time in milliseconds. */
  lemma HpaProposes(sla: Sla, responseTime: Option<int>, current: int)
    requires 0 < sla.responseTime
    ensures var v := HpaVerdict(sla, responseTime, current);
            if responseTime.None? then v == Unread
            else
              var n := TargetReplicas(sla, responseTime.value, current);
              v == if 8 * sla.responseTime / 10 < n < 12 * sla.responseTime / 10 then Hold else Propose(n)
  {
    TenthsOf(sla.responseTime, 8, 0.8);
    TenthsOf(sla.responseTime, 12, 1.2);
  }

  lemma TenthsOf(t: int, tenths: int, factor: real)
    requires 0 < t && 0 < tenths && factor * 10.0 == tenths as real
    ensures Truncate(t as real * factor) == tenths * t / 10
  {
    var x, q := t as real * factor, tenths * t / 10;
    assert x * 10.0 == (tenths * t) as real by {
      Cast(tenths, t);
      assert x * 10.0 == t as real * (factor * 10.0);
    }
    assert q as real <= x < q as real + 1.0;
    assert 0 <= q;
  }

  /** The agreements on which the tolerance ever holds a proposal back: some
      number of replicas is both allowed and strictly between bounds computed
      from a response time in milliseconds. For every other agreement the
      tolerance is dead code. */
  lemma ToleranceCanHold(sla: Sla)
    requires 0 < sla.responseTime && sla.minReplicas <= sla.maxReplicas
    ensures (exists responseTime: nat, current: nat :: HpaVerdict(sla, Some(responseTime), current) == Hold) <==>
            && ToleranceLower(sla) + 1 < ToleranceUpper(sla)
            && ToleranceLower(sla) < sla.maxReplicas && sla.minReplicas < ToleranceUpper(sla)
  {
    var n := Max(sla.minReplicas, ToleranceLower(sla) + 1);
    TruncateBounds(sla.responseTime as real * 0.8, 0);
    if ToleranceLower(sla) + 1 < ToleranceUpper(sla) && ToleranceLower(sla) < sla.maxReplicas
       && sla.minReplicas < ToleranceUpper(sla) {
      OnTarget(sla, n);
      assert HpaVerdict(sla, Some(sla.responseTime), n) == Hold;
    }
  }
}
