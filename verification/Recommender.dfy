/** The two per-pod controllers of the recommender: a velocity-form PI law with
    clamped output, with fixed gains or with gains adapted to the error. */
module Recommender {
  import opened Common
  import opened Types

  const MIN_CPU := 5.0
  const MIN_ERROR := -10.0
  const MAX_ERROR := 10.0
  const MIN_BC := 10.0
  const MIN_DC := 15.0
  const MAX_BC := 100.0
  const MAX_DC := 150.0

  // ---- The control law -----------------------------------------------------

  /** What a controller carries from one round to the next. */
  datatype Controller = Controller(prevError: real, bc: real, dc: real)

  /** A new controller; 40 and 80 are the source's BC and DC, spelled out
      wherever they are factors. */
  const FRESH := Controller(0.0, 40.0, 80.0)

  /** The clamped control error; a response time of zero divides to minus
      infinity in the source, which the clamp turns into the minimum. */
  function Error(setPoint: int, responseTime: int): (e: real)
    requires 0 < setPoint
    ensures MIN_ERROR <= e <= MAX_ERROR
  {
    if responseTime == 0 then MIN_ERROR
    else
      var e := 1.0 / (setPoint as real / 1000.0) - 1.0 / (responseTime as real / 1000.0);
      MinReal(MaxReal(e, MIN_ERROR), MAX_ERROR)
  }

  /** The product of two varying reals, named so that equal factors are seen
      to give equal products. */
  function Times(x: real, y: real): real { x * y }

  /** The unclamped output of the velocity form. */
  function Law(cores: real, c: Controller, e: real): real
  {
    cores - Times(c.bc, c.prevError) + Times(c.bc, e) + Times(c.dc, e)
  }

  function Clamped(cores: real, raw: real): real
  {
    MinReal(MaxReal(MIN_CPU, raw), cores * 1.5)
  }

  function DesiredCpu(actual: int, c: Controller, e: real): int
  {
    Truncate(Clamped(actual as real, Law(actual as real, c, e)))
  }

  ghost predicate IsRoot(root: real, square: real)
  {
    0.0 <= root && root * root == square
  }

  function AdaptedGains(c: Controller, e: real, root: real): Controller
  {
    var bc := MinReal(MaxReal(Times(c.bc, root), MIN_BC), MAX_BC);
    Controller(e, bc, MinReal(MaxReal(bc * 80.0 / 40.0, MIN_DC), MAX_DC))
  }

  function ApplyBounds(value: int, min: int, max: int, checkLower: bool, checkUpper: bool): int
  {
    if checkUpper && value > max then max
    else if checkLower && value < min then min
    else value
  }

  function Lower(sla: Sla): Resources
  {
    if sla.minResources.Some? then sla.minResources.value else Resources(0, 0)
  }

  function Upper(sla: Sla): Resources
  {
    if sla.maxResources.Some? then sla.maxResources.value else Resources(0, 0)
  }

  function Capped(desired: Resources, sla: Sla): Resources
  {
    Resources(ApplyBounds(desired.cpu, Lower(sla).cpu, Upper(sla).cpu,
                          sla.minResources.Some?, sla.maxResources.Some?),
              ApplyBounds(desired.memory, Lower(sla).memory, Upper(sla).memory,
                          sla.minResources.Some?, sla.maxResources.Some?))
  }

  // ---- The controllers -----------------------------------------------------

  method ContainerToScale(pod: Pod, container: string) returns (found: Option<Container>)
    ensures found.Some? == HasContainer(pod.containers, container)
    ensures found.Some? ==> found.value in pod.containers && found.value.name == container
  {
    for i := 0 to |pod.containers|
      invariant forall j :: 0 <= j < i ==> pod.containers[j].name != container
    {
      if pod.containers[i].name == container {
        return Some(pod.containers[i]);
      }
    }
    return None;
  }

  /** The podscale sent on to the contention manager: a copy whose desired and
      capped resources are new and whose actual resources are the old ones. */
  method Recommendation(podScale: PodScale, desired: Resources, sla: Sla) returns (scale: PodScale)
    ensures fresh(scale) && scale.spec == podScale.spec
    ensures scale.desired == desired && scale.capped == Capped(desired, sla)
    ensures scale.actual == podScale.actual
  {
    scale := podScale.DeepCopy();
    scale.desired := desired;
    scale.capped := Capped(desired, sla);
  }

  class FixedGainControlLogic {
    var xcprec: real
    var cores: real
    var prevError: real

    ghost function State(): Controller
      reads this
    {
      Controller(prevError, 40.0, 80.0)
    }

    constructor (podScale: PodScale)
      ensures State() == FRESH
    {
      xcprec := podScale.actual.cpu as real;
      cores := podScale.actual.cpu as real;
      prevError := 0.0;
    }

    method ComputeCpuResource(podScale: PodScale, sla: Sla, responseTime: int) returns (desired: int)
      requires 0 < sla.responseTime
      modifies this
      ensures var e := Error(sla.responseTime, responseTime);
              && desired == DesiredCpu(podScale.actual.cpu, old(State()), e)
              && State() == old(State()).(prevError := e)
              && cores == podScale.actual.cpu as real
              && xcprec == cores - Times(40.0, old(prevError))
    {
      cores := podScale.actual.cpu as real;
      xcprec := cores - Times(40.0, prevError);
      var e := Error(sla.responseTime, responseTime);
      prevError := e;
      var xc := xcprec + Times(40.0, e);
      var oldcores := cores;
      var newCores := MinReal(MaxReal(MIN_CPU, xc + Times(80.0, e)), oldcores * 1.5);
      desired := Truncate(newCores);
    }

    /** A pod without the container to scale changes nothing. */
    method ComputePodScale(pod: Pod, podScale: PodScale, sla: Sla, responseTime: int)
      returns (result: Option<PodScale>)
      requires 0 < sla.responseTime
      modifies this
      ensures result.Some? == HasContainer(pod.containers, sla.container)
      ensures result.None? ==> unchanged(this)
      ensures result.Some? ==>
                var e := Error(sla.responseTime, responseTime);
                var desired := Resources(DesiredCpu(podScale.actual.cpu, old(State()), e),
                                         podScale.desired.memory);
                && fresh(result.value) && result.value.spec == podScale.spec
                && result.value.desired == desired && result.value.capped == Capped(desired, sla)
                && result.value.actual == podScale.actual
                && State() == old(State()).(prevError := e)
    {
      var container := ContainerToScale(pod, sla.container);
      if container.None? {
        return None;
      }
      var cpu := ComputeCpuResource(podScale, sla, responseTime);
      var scale := Recommendation(podScale, Resources(cpu, podScale.desired.memory), sla);
      return Some(scale);
    }
  }

  class AdaptiveGainControlLogic {
    var xcprec: real
    var cores: real
    var prevError: real
    var bc: real
    var dc: real

    ghost function State(): Controller
      reads this
    {
      Controller(prevError, bc, dc)
    }

    constructor (podScale: PodScale)
      ensures State() == FRESH
    {
      xcprec := podScale.actual.cpu as real;
      cores := podScale.actual.cpu as real;
      prevError := 0.0;
      bc := 40.0;
      dc := 80.0;
    }

    /** `root` stands for the square root taken by the source. */
    method ComputeCpuResource(podScale: PodScale, sla: Sla, responseTime: int, root: real)
      returns (desired: int)
      requires 0 < sla.responseTime
      requires IsRoot(root, AbsReal(Error(sla.responseTime, responseTime)) * 2.0)
      modifies this
      ensures var e := Error(sla.responseTime, responseTime);
              && desired == DesiredCpu(podScale.actual.cpu, old(State()), e)
              && State() == AdaptedGains(old(State()), e, root)
              && cores == podScale.actual.cpu as real
              && xcprec == cores - Times(old(bc), old(prevError))
    {
      cores := podScale.actual.cpu as real;
      xcprec := cores - Times(bc, prevError);
      var e := Error(sla.responseTime, responseTime);
      prevError := e;
      var xc := xcprec + Times(bc, e);
      var oldcores := cores;
      var newCores := MinReal(MaxReal(MIN_CPU, xc + Times(dc, e)), oldcores * 1.5);
      bc := MinReal(MaxReal(Times(bc, root), MIN_BC), MAX_BC);
      dc := MinReal(MaxReal(bc * 80.0 / 40.0, MIN_DC), MAX_DC);
      desired := Truncate(newCores);
    }

    method ComputePodScale(pod: Pod, podScale: PodScale, sla: Sla, responseTime: int, root: real)
      returns (result: Option<PodScale>)
      requires 0 < sla.responseTime
      requires IsRoot(root, AbsReal(Error(sla.responseTime, responseTime)) * 2.0)
      modifies this
      ensures result.Some? == HasContainer(pod.containers, sla.container)
      ensures result.None? ==> unchanged(this)
      ensures result.Some? ==>
                var e := Error(sla.responseTime, responseTime);
                var desired := Resources(DesiredCpu(podScale.actual.cpu, old(State()), e),
                                         podScale.desired.memory);
                && fresh(result.value) && result.value.spec == podScale.spec
                && result.value.desired == desired && result.value.capped == Capped(desired, sla)
                && result.value.actual == podScale.actual
                && State() == AdaptedGains(old(State()), e, root)
    {
      var container := ContainerToScale(pod, sla.container);
      if container.None? {
        return None;
      }
      var cpu := ComputeCpuResource(podScale, sla, responseTime, root);
      var scale := Recommendation(podScale, Resources(cpu, podScale.desired.memory), sla);
      return Some(scale);
    }
  }

  lemma InverseOrder(a: real, b: real)
    requires 0.0 < a < b
    ensures 1.0 / b < 1.0 / a
  {
    var x, y := 1.0 / a, 1.0 / b;
    assert x * a == 1.0 && y * b == 1.0;
    ScaleSign(a, x);
    ScaleSign(b, x - y);
    assert x * b == x * a + x * (b - a);
    assert 0.0 < x * (b - a);
    assert (x - y) * b == x * b - y * b;
  }

  lemma ScaleSign(a: real, x: real)
    requires 0.0 < a
    ensures x <= 0.0 ==> x * a <= 0.0
  {
  }

  /** The error is positive exactly for a pod slower than its set point, zero
      exactly on it, and a slower pod never shows a smaller error. */
  lemma ErrorOrder(setPoint: int, fast: int, slow: int)
    requires 0 < setPoint && 0 <= fast <= slow
    ensures Error(setPoint, slow) > 0.0 <==> slow > setPoint
    ensures Error(setPoint, slow) == 0.0 <==> slow == setPoint
    ensures Error(setPoint, fast) <= Error(setPoint, slow)
  {
    var s, f, w := setPoint as real / 1000.0, fast as real / 1000.0, slow as real / 1000.0;
    if 0 < slow < setPoint {
      InverseOrder(w, s);
    }
    if setPoint < slow {
      InverseOrder(s, w);
    }
    if 0 < fast < slow {
      InverseOrder(f, w);
    }
  }

  // ---- The error in milliseconds -------------------------------------------

  /** The difference of the inverse times in seconds, from milliseconds. */
  function InverseDifference(setPoint: int, responseTime: int): real
    requires 0 < setPoint && 0 < responseTime
  {
    1000.0 * (responseTime - setPoint) as real / (setPoint * responseTime) as real
  }

  lemma CommonDenominator(s: real, r: real)
    requires 0.0 < s && 0.0 < r
    ensures s * r != 0.0
    ensures 1.0 / (s / 1000.0) - 1.0 / (r / 1000.0) == 1000.0 * (r - s) / (s * r)
  {
    assert 0.0 < s * r;
    var x, y := 1.0 / (s / 1000.0), 1.0 / (r / 1000.0);
    assert x * (s / 1000.0) == 1.0 && y * (r / 1000.0) == 1.0;
    assert x * s == 1000.0 && y * r == 1000.0;
    assert (x - y) * (s * r) == (x * s) * r - (y * r) * s;
    assert (x - y) * (s * r) == 1000.0 * (r - s);
    Quotient(x - y, s * r, 1000.0 * (r - s));
  }

  lemma Quotient(x: real, d: real, n: real)
    requires d != 0.0 && x * d == n
    ensures x == n / d
  {
    var q := n / d;
    assert q * d == n;
    assert (x - q) * d == 0.0;
  }

  lemma InverseDifferenceTimes(setPoint: int, responseTime: int)
    requires 0 < setPoint && 0 < responseTime
    ensures var d, n := setPoint * responseTime, 1000 * (responseTime - setPoint);
            && 0 < d && InverseDifference(setPoint, responseTime) * d as real == n as real
            && 1.0 / (setPoint as real / 1000.0) - 1.0 / (responseTime as real / 1000.0) ==
               InverseDifference(setPoint, responseTime)
  {
    CommonDenominator(setPoint as real, responseTime as real);
    CastTimes(setPoint, responseTime);
    CastTimes(1000, responseTime - setPoint);
  }

  lemma ClampedQuotient(x: real, n: int, d: int)
    requires 0 < d && x * d as real == n as real
    ensures n < -10 * d <==> x < -10.0
    ensures 10 * d < n <==> 10.0 < x
  {
    CastTimes(-10, d);
    CastTimes(10, d);
    AgainstBound(x, d as real, -10.0);
    AgainstBound(x, d as real, 10.0);
  }

  /** The error is that difference, or the bound on its side: ten on either. A
      response time of zero counts as infinitely fast. */
  lemma ErrorInMilliseconds(setPoint: int, responseTime: int)
    requires 0 < setPoint && 0 <= responseTime
    ensures var e := Error(setPoint, responseTime);
            if responseTime == 0 then e == -10.0
            else
              var n, d := 1000 * (responseTime - setPoint), setPoint * responseTime;
              if n < -10 * d then e == -10.0
              else if 10 * d < n then e == 10.0
              else e * d as real == n as real && e == InverseDifference(setPoint, responseTime)
  {
    if responseTime != 0 {
      hide InverseDifference;
      InverseDifferenceTimes(setPoint, responseTime);
      ClampedQuotient(InverseDifference(setPoint, responseTime), 1000 * (responseTime - setPoint),
                      setPoint * responseTime);
    }
  }

  lemma CastTimes(a: int, b: int)
    ensures (a * b) as real == a as real * b as real
  {
  }

  lemma AgainstBound(x: real, d: real, bound: real)
    requires 0.0 < d
    ensures x * d < bound * d <==> x < bound
    ensures bound * d < x * d <==> bound < x
  {
    if x < bound {
      assert 0.0 < (bound - x) * d;
    }
    if bound < x {
      assert 0.0 < (x - bound) * d;
    }
  }

  // ---- Laws of one step ----------------------------------------------------

  /** Before truncation the output stays between the smaller of 5 and one and a
      half times the old value, and one and a half times the old value; the
      truncated one is at most `floor(1.5 * actual)` and never negative. */
  lemma DesiredCpuRange(actual: int, c: Controller, e: real)
    requires 0 <= actual
    ensures var out := Clamped(actual as real, Law(actual as real, c, e));
            MinReal(MIN_CPU, actual as real * 1.5) <= out <= actual as real * 1.5
    ensures 0 <= DesiredCpu(actual, c, e) <= 3 * actual / 2
    ensures 4 <= actual ==> 5 <= DesiredCpu(actual, c, e)
  {
    var out := Clamped(actual as real, Law(actual as real, c, e));
    TruncateBounds(out, 5);
    var d := Truncate(out);
    assert 2.0 * d as real <= (3 * actual) as real;
    assert (2 * d) as real == 2.0 * d as real;
  }

  /** With ordered bounds, bounding is clamping. */
  lemma ApplyBoundsClamps(value: int, min: int, max: int, checkLower: bool, checkUpper: bool)
    requires checkLower && checkUpper ==> min <= max
    ensures var b := ApplyBounds(value, min, max, checkLower, checkUpper);
            && (checkLower ==> min <= b) && (checkUpper ==> b <= max)
            && (b == value || (checkLower && b == min && value < min)
                           || (checkUpper && b == max && max < value))
            && ApplyBounds(b, min, max, checkLower, checkUpper) == b
  {
  }

  /** `b` is the value nearest to `v` inside the bounds that are there. */
  ghost predicate Nearest(v: int, b: int, lower: Option<int>, upper: Option<int>)
  {
    && (lower.Some? ==> lower.value <= b) && (upper.Some? ==> b <= upper.value)
    && (b == v || (lower.Some? && v < b == lower.value) || (upper.Some? && upper.value == b < v))
  }

  /** Both resources are brought to the nearest value that the agreement allows. */
  lemma CappedIsNearest(desired: Resources, sla: Sla)
    requires sla.minResources.Some? && sla.maxResources.Some? ==>
               && sla.minResources.value.cpu <= sla.maxResources.value.cpu
               && sla.minResources.value.memory <= sla.maxResources.value.memory
    ensures var min, max, capped := sla.minResources, sla.maxResources, Capped(desired, sla);
            && Nearest(desired.cpu, capped.cpu, if min.Some? then Some(min.value.cpu) else None,
                       if max.Some? then Some(max.value.cpu) else None)
            && Nearest(desired.memory, capped.memory, if min.Some? then Some(min.value.memory) else None,
                       if max.Some? then Some(max.value.memory) else None)
  {
  }

  /** What the desired CPU is the whole part of: the velocity law, kept between
      5 and one and a half times the old value, of which the latter wins. */
  lemma DesiredCpuExactly(actual: int, c: Controller, e: real)
    requires 0 <= actual
    ensures var raw := actual as real + c.bc * (e - c.prevError) + c.dc * e;
            var top := (3 * actual) as real / 2.0;
            var out := if top < raw || top < 5.0 then top else if raw < 5.0 then 5.0 else raw;
            DesiredCpu(actual, c, e) as real <= out < DesiredCpu(actual, c, e) as real + 1.0
  {
    var raw := actual as real + c.bc * (e - c.prevError) + c.dc * e;
    assert Law(actual as real, c, e) == raw by {
      assert c.bc * (e - c.prevError) == c.bc * e - c.bc * c.prevError;
    }
    TruncateBounds(Clamped(actual as real, raw), 0);
  }

  // ---- Adaptive gains over whole runs --------------------------------------

  ghost predicate GainsInRange(c: Controller)
  {
    && MIN_BC <= c.bc <= MAX_BC
    && c.dc == MinReal(2.0 * c.bc, MAX_DC)
    && 20.0 <= c.dc
  }

  datatype Reading = Reading(setPoint: int, responseTime: int, root: real)

  ghost predicate ValidReading(r: Reading)
  {
    0 < r.setPoint && IsRoot(r.root, AbsReal(Error(r.setPoint, r.responseTime)) * 2.0)
  }

  ghost predicate ValidReadings(rs: seq<Reading>)
  {
    forall i :: 0 <= i < |rs| ==> ValidReading(rs[i])
  }

  /** The controller after a run of readings, from a new one. */
  ghost function AdaptiveRun(rs: seq<Reading>): Controller
    requires ValidReadings(rs)
  {
    if |rs| == 0 then FRESH
    else
      var r := rs[|rs| - 1];
      AdaptedGains(AdaptiveRun(rs[..|rs| - 1]), Error(r.setPoint, r.responseTime), r.root)
  }

  lemma RootAgainstOne(root: real, square: real)
    requires IsRoot(root, square)
    ensures square <= 1.0 ==> root <= 1.0
    ensures 1.0 <= square ==> 1.0 <= root
  {
    if root > 1.0 {
      assert (root - 1.0) * root > 0.0;
    }
    if root < 1.0 {
      assert (1.0 - root) * root >= 0.0;
    }
  }

  lemma ScaleAgainstSelf(x: real, f: real)
    requires 0.0 <= x
    ensures f <= 1.0 ==> Times(x, f) <= x
    ensures 1.0 <= f ==> x <= Times(x, f)
  {
    if f <= 1.0 {
      assert x * (1.0 - f) >= 0.0;
    }
    if 1.0 <= f {
      assert x * (f - 1.0) >= 0.0;
    }
  }

  lemma AdaptStep(c: Controller, e: real, root: real)
    requires GainsInRange(c) && IsRoot(root, AbsReal(e) * 2.0)
    ensures var c' := AdaptedGains(c, e, root);
            && GainsInRange(c')
            && (AbsReal(e) <= 0.5 ==> c'.bc <= c.bc)
            && (0.5 <= AbsReal(e) ==> c.bc <= c'.bc)
  {
    var square := AbsReal(e) * 2.0;
    RootAgainstOne(root, square);
    ScaleAgainstSelf(c.bc, root);
  }

  lemma SquareOrder(x: real, y: real)
    requires 0.0 <= x && 0.0 <= y
    ensures x < y <==> x * x < y * y
  {
    assert x * x - y * y == (x - y) * (x + y);
    if x < y {
      NegativeProduct(x - y, x + y);
    } else {
      assert 0.0 <= (x - y) * (x + y);
    }
  }

  lemma NegativeProduct(x: real, y: real)
    requires x < 0.0 && 0.0 < y
    ensures x * y < 0.0
  {
  }

  lemma ProductSquare(x: real, y: real, square: real)
    requires y * y == square
    ensures Times(Times(x, y), Times(x, y)) == Times(Times(x, x), square)
  {
    assert (x * y) * (x * y) == (x * x) * (y * y);
  }

  lemma StrictScale(x: real, f: real)
    requires 0.0 < x
    ensures f < 1.0 ==> Times(x, f) < x
    ensures 1.0 < f ==> x < Times(x, f)
  {
    if f < 1.0 {
      NegativeProduct(f - 1.0, x);
    }
    if 1.0 < f {
      NegativeProduct(1.0 - f, x);
    }
  }

  lemma AgainstTen(p: real)
    requires 0.0 <= p
    ensures p < 10.0 <==> Times(p, p) < 100.0
    ensures 100.0 < p <==> 10000.0 < Times(p, p)
  {
    SquareOrder(p, 10.0);
    SquareOrder(100.0, p);
  }

  lemma AgainstOne(root: real, square: real)
    requires IsRoot(root, square)
    ensures root < 1.0 <==> square < 1.0
    ensures 1.0 < root <==> 1.0 < square
  {
    SquareOrder(root, 1.0);
    SquareOrder(1.0, root);
  }

  lemma NonNegativeProduct(x: real, y: real)
    requires 0.0 <= x && 0.0 <= y
    ensures 0.0 <= Times(x, y)
  {
  }

  /** The square of the new gain is that of the old one times twice the size of
      the error, kept between those of 10 and 100; so the gain moves strictly
      whenever the error is off one half and the gain off its bound. */
  lemma AdaptedGainsExactly(c: Controller, e: real, root: real)
    requires GainsInRange(c) && IsRoot(root, AbsReal(e) * 2.0)
    ensures var c', square := AdaptedGains(c, e, root), Times(Times(c.bc, c.bc), AbsReal(e) * 2.0);
            && c'.prevError == e && c'.dc == MinReal(2.0 * c'.bc, 150.0)
            && (if square < 100.0 then c'.bc == 10.0
                else if 10000.0 < square then c'.bc == 100.0
                else 0.0 <= c'.bc && Times(c'.bc, c'.bc) == square)
            && (AbsReal(e) < 0.5 && 10.0 < c.bc ==> c'.bc < c.bc)
            && (0.5 < AbsReal(e) && c.bc < 100.0 ==> c.bc < c'.bc)
  {
    ProductSquare(c.bc, root, AbsReal(e) * 2.0);
    hide Times;
    NonNegativeProduct(c.bc, root);
    AgainstTen(Times(c.bc, root));
    AgainstOne(root, AbsReal(e) * 2.0);
    StrictScale(c.bc, root);
  }

  /** Over every run: the gains keep their ranges, the derived gain never meets
      its lower clamp, and the last step moved the gain in the direction given
      by the size of the error. */
  lemma {:induction false} AdaptiveGainsOverRuns(rs: seq<Reading>)
    requires ValidReadings(rs)
    ensures GainsInRange(AdaptiveRun(rs))
    ensures 0 < |rs| ==>
              var before, after, r := AdaptiveRun(rs[..|rs| - 1]), AdaptiveRun(rs), rs[|rs| - 1];
              var e := Error(r.setPoint, r.responseTime);
              && after.prevError == e
              && (AbsReal(e) <= 0.5 ==> after.bc <= before.bc)
              && (0.5 <= AbsReal(e) ==> before.bc <= after.bc)
  {
    if |rs| == 0 {
    } else {
      var r := rs[|rs| - 1];
      AdaptiveGainsOverRuns(rs[..|rs| - 1]);
      AdaptStep(AdaptiveRun(rs[..|rs| - 1]), Error(r.setPoint, r.responseTime), r.root);
    }
  }
}
