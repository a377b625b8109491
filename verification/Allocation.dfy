/** The proportional policy of the contention manager, as a function from the
    demands on a node to the allocations, and the laws it obeys. */
module Allocation {
  import opened Common

  ghost predicate NonNegative(demands: seq<int>)
  {
    forall i :: 0 <= i < |demands| ==> 0 <= demands[i]
  }

  function Proportional(desired: int, totalDesired: int, totalAvailable: int): int
    requires totalDesired != 0
  {
    var quota := desired as real / totalDesired as real;
    Truncate(quota * totalAvailable as real)
  }

  predicate Contended(demands: seq<int>, capacity: int)
  {
    Sum(demands) > capacity
  }

  function Share(demand: int, total: int, capacity: int): int
    requires 0 <= capacity
  {
    if total > capacity then Proportional(demand, total, capacity) else demand
  }

  function Allocate(demands: seq<int>, capacity: int): (a: seq<int>)
    requires 0 <= capacity
    ensures |a| == |demands|
  {
    seq(|demands|, i requires 0 <= i < |demands| => Share(demands[i], Sum(demands), capacity))
  }

  // ---- One share -----------------------------------------------------------

  /** With exact arithmetic the policy is a floor division. */
  lemma ProportionalIsFloor(d: int, t: int, a: int)
    requires 0 <= d && 0 < t && 0 <= a
    ensures Proportional(d, t, a) == d * a / t
    ensures Proportional(d, t, a) * t <= d * a < (Proportional(d, t, a) + 1) * t
    ensures 0 <= Proportional(d, t, a)
  {
    var x := (d as real / t as real) * a as real;
    var q := d * a / t;
    MultiplyAtMost(0, d, a);
    QuotientTimes(d as real, t as real, a as real);
    assert x * t as real == (d * a) as real;
    assert q * t <= d * a < (q + 1) * t;
    QuotientInterval(x, d * a, t, q);
    if q < 0 {
      MultiplyAtMost(q + 1, 0, t);
    }
    TruncateBounds(x, q);
    assert Truncate(x) == q;
  }

  lemma QuotientTimes(d: real, t: real, a: real)
    requires t != 0.0
    ensures ((d / t) * a) * t == d * a
  {
    var u := d / t;
    assert u * t == d;
    assert (u * a) * t == (u * t) * a;
  }

  lemma QuotientInterval(x: real, n: int, t: int, q: int)
    requires 0 < t && x * t as real == n as real && q * t <= n < (q + 1) * t
    ensures q as real <= x < q as real + 1.0
  {
    CastProduct(q, t);
    CastProduct(q + 1, t);
    RealCancel(q as real, x, t as real);
    RealCancel((q + 1) as real, x, t as real);
  }

  lemma CastProduct(x: int, y: int)
    ensures (x * y) as real == x as real * y as real
  {
  }

  lemma RealCancel(x: real, y: real, t: real)
    requires 0.0 < t
    ensures x * t <= y * t ==> x <= y
    ensures y * t < x * t ==> y < x
  {
    if y < x {
      assert 0.0 < (x - y) * t;
    }
    if x <= y {
      assert 0.0 <= (y - x) * t;
    }
  }

  lemma CancelLess(x: int, y: int, t: int)
    requires 0 < t && x * t < y * t
    ensures x < y
  {
    if y <= x {
      MultiplyAtMost(y, x, t);
    }
  }

  lemma MultiplyCommutes(x: int, y: int, z: int)
    ensures x * y * z == x * z * y == y * z * x
  {
  }

  lemma MultiplyLess(x: int, y: int, t: int)
    requires 0 < t && x < y
    ensures x * t < y * t
  {
    assert 0 < (y - x) * t;
  }

  lemma MultiplyAtMost(x: int, y: int, t: int)
    requires 0 <= t && x <= y
    ensures x * t <= y * t
  {
    assert 0 <= (y - x) * t;
  }

  /** No share exceeds its demand. */
  lemma ShareAtMostDemand(d: int, t: int, a: int)
    requires 0 <= d <= t && 0 <= a
    ensures 0 <= Share(d, t, a) <= d
  {
    if t > a {
      ProportionalIsFloor(d, t, a);
      var s := Proportional(d, t, a);
      MultiplyAtMost(a, t, d);
      assert s * t < (d + 1) * t;
      CancelLess(s, d + 1, t);
    }
  }

  // ---- The split -----------------------------------------------------------

  lemma PrefixStep(u: int, v: int, d: int, s: int, t: int, c: int, k: nat)
    requires v * t <= u * c
    requires if k == 0 then u * c <= v * t else u * c < (v + k) * t
    requires s * t <= d * c < (s + 1) * t
    ensures (v + s) * t <= (u + d) * c < (v + s + k + 1) * t
  {
    assert (u + d) * c == u * c + d * c;
    assert (v + s) * t == v * t + s * t;
    assert (v + s + k + 1) * t == (v + k) * t + (s + 1) * t;
  }

  lemma {:induction false} PrefixBounds(demands: seq<int>, capacity: int, k: nat)
    requires NonNegative(demands) && 0 <= capacity && Contended(demands, capacity)
    requires k <= |demands|
    ensures var t, a := Sum(demands), Allocate(demands, capacity);
            && Sum(a[..k]) * t <= Sum(demands[..k]) * capacity
            && (0 < k ==> Sum(demands[..k]) * capacity < (Sum(a[..k]) + k) * t)
  {
    var t, a := Sum(demands), Allocate(demands, capacity);
    if k == 0 {
    } else {
      var j := k - 1;
      PrefixBounds(demands, capacity, j);
      SumStep(demands, j);
      SumStep(a, j);
      ProportionalIsFloor(demands[j], t, capacity);
      PrefixStep(Sum(demands[..j]), Sum(a[..j]), demands[j], a[j], t, capacity, j);
    }
  }

  /** Tight split: without contention everyone gets the demand; with it the
      capacity is handed out up to a rounding loss below one unit per pod. */
  lemma TightSplit(demands: seq<int>, capacity: int)
    requires NonNegative(demands) && 0 <= capacity
    ensures var a := Allocate(demands, capacity);
            && Sum(a) <= capacity
            && (Contended(demands, capacity) ==> capacity - |demands| < Sum(a))
            && (!Contended(demands, capacity) ==> a == demands)
            && forall i :: 0 <= i < |demands| ==> 0 <= a[i] <= demands[i]
  {
    var t, a, n := Sum(demands), Allocate(demands, capacity), |demands|;
    SumNonNegative(demands);
    forall i | 0 <= i < n ensures 0 <= a[i] <= demands[i] {
      ShareAtMostDemand(demands[i], t, capacity);
    }
    if Contended(demands, capacity) {
      PrefixBounds(demands, capacity, n);
      assert demands[..n] == demands && a[..n] == a;
      assert t * capacity < (capacity + 1) * t;
      assert Sum(a) * t < (capacity + 1) * t;
      CancelLess(Sum(a), capacity + 1, t);
      assert capacity * t < (Sum(a) + n) * t;
      CancelLess(capacity, Sum(a) + n, t);
    } else {
      assert a == demands;
    }
  }

  /** Fairness: cross-multiplied shares differ by less than one unit of demand. */
  lemma FairSplit(demands: seq<int>, capacity: int, i: nat, j: nat)
    requires NonNegative(demands) && 0 <= capacity && Contended(demands, capacity)
    requires i < |demands| && j < |demands| && 0 < demands[i] && 0 < demands[j]
    ensures var a := Allocate(demands, capacity);
            -demands[j] < a[i] * demands[j] - a[j] * demands[i] < demands[i]
  {
    FairOneSide(demands, capacity, i, j);
    FairOneSide(demands, capacity, j, i);
  }

  lemma FairOneSide(demands: seq<int>, capacity: int, i: nat, j: nat)
    requires NonNegative(demands) && 0 <= capacity && Contended(demands, capacity)
    requires i < |demands| && j < |demands| && 0 < demands[i] && 0 < demands[j]
    ensures var a := Allocate(demands, capacity);
            a[i] * demands[j] - a[j] * demands[i] < demands[i]
  {
    var t := Sum(demands);
    ProportionalIsFloor(demands[i], t, capacity);
    ProportionalIsFloor(demands[j], t, capacity);
    var a := Allocate(demands, capacity);
    CrossShares(demands[i], demands[j], a[i], a[j], t, capacity);
  }

  lemma CrossShares(d: int, e: int, s: int, r: int, t: int, c: int)
    requires 0 < d && 0 < e && 0 < t
    requires s * t <= d * c && e * c < (r + 1) * t
    ensures s * e - r * d < d
  {
    MultiplyAtMost(s * t, d * c, e);
    MultiplyLess(e * c, (r + 1) * t, d);
    MultiplyCommutes(d, c, e);
    MultiplyCommutes(e, c, d);
    MultiplyCommutes(s, t, e);
    MultiplyCommutes(r + 1, t, d);
    CancelLess(s * e, (r + 1) * d, t);
  }

  // ---- Monotonicity --------------------------------------------------------

  /** A share grows with the capacity, also across the contention switch. */
  lemma ShareMonotoneInCapacity(d: int, t: int, a: int, a': int)
    requires 0 <= d <= t && 0 <= a <= a'
    ensures Share(d, t, a) <= Share(d, t, a')
  {
    ShareAtMostDemand(d, t, a);
    if t > a' {
      ProportionalIsFloor(d, t, a);
      ProportionalIsFloor(d, t, a');
      MultiplyAtMost(a, a', d);
      CancelLess(Share(d, t, a), Share(d, t, a') + 1, t);
    }
  }

  /** A share shrinks when the others ask for more. */
  lemma ShareAntitoneInTotal(d: int, t: int, t': int, a: int)
    requires 0 <= d <= t <= t' && 0 <= a
    ensures Share(d, t', a) <= Share(d, t, a)
  {
    ShareAtMostDemand(d, t', a);
    if t > a {
      ProportionalIsFloor(d, t, a);
      ProportionalIsFloor(d, t', a);
      LargerTotal(d * a, t, t', Share(d, t, a), Share(d, t', a));
    }
  }

  lemma LargerTotal(n: int, t: int, t': int, s: int, s': int)
    requires 0 < t <= t' && 0 <= s
    requires n < (s + 1) * t && s' * t' <= n
    ensures s' <= s
  {
    MultiplyAtMost(t, t', s + 1);
    CancelLess(s', s + 1, t');
  }

  /** A pod that raises its own demand by `more` never loses. */
  lemma ShareMonotoneInOwnDemand(d: int, more: int, t: int, a: int)
    requires 0 <= d <= t && 0 <= more && 0 <= a
    ensures Share(d, t, a) <= Share(d + more, t + more, a)
  {
    var d', t' := d + more, t + more;
    if t' > a {
      ProportionalIsFloor(d', t', a);
      var s' := Share(d', t', a);
      RaisedFraction(d, more, t);
      if t > a {
        ProportionalIsFloor(d, t, a);
        LargerFraction(d, t, d', t', a, Share(d, t, a), s');
      } else {
        MultiplyAtMost(t, a, d');
        CancelLess(d, s' + 1, t');
      }
    }
  }

  lemma RaisedFraction(d: int, more: int, t: int)
    requires 0 <= d <= t && 0 <= more
    ensures d * (t + more) <= (d + more) * t
  {
    MultiplyAtMost(d, t, more);
    assert d * (t + more) == d * t + d * more;
    assert (d + more) * t == d * t + t * more;
  }

  lemma LargerFraction(d: int, t: int, d': int, t': int, a: int, s: int, s': int)
    requires 0 < t && 0 < t' && 0 <= a
    requires d * t' <= d' * t
    requires s * t <= d * a && d' * a < (s' + 1) * t'
    ensures s <= s'
  {
    MultiplyAtMost(s * t, d * a, t');
    MultiplyAtMost(d * t', d' * t, a);
    MultiplyLess(d' * a, (s' + 1) * t', t);
    MultiplyCommutes(d, a, t');
    MultiplyCommutes(d', t, a);
    MultiplyCommutes(s, t, t');
    MultiplyCommutes(s' + 1, t', t);
    assert s * t' * t < (s' + 1) * t' * t;
    CancelLess(s * t', (s' + 1) * t', t);
    CancelLess(s, s' + 1, t');
  }

  /** More capacity never lowers any allocation. */
  lemma AllocateMonotoneInCapacity(demands: seq<int>, capacity: int, capacity': int)
    requires NonNegative(demands) && 0 <= capacity <= capacity'
    ensures forall i :: 0 <= i < |demands| ==>
              Allocate(demands, capacity)[i] <= Allocate(demands, capacity')[i]
  {
    SumNonNegative(demands);
    forall i | 0 <= i < |demands|
      ensures Allocate(demands, capacity)[i] <= Allocate(demands, capacity')[i]
    {
      ShareMonotoneInCapacity(demands[i], Sum(demands), capacity, capacity');
    }
  }

  /** When other pods raise their demands, no unchanged pod gains. */
  lemma AllocateAntitoneInOthers(demands: seq<int>, demands': seq<int>, capacity: int, i: nat)
    requires NonNegative(demands) && 0 <= capacity && |demands| == |demands'|
    requires forall k :: 0 <= k < |demands| ==> demands[k] <= demands'[k]
    requires i < |demands| && demands[i] == demands'[i]
    ensures Allocate(demands', capacity)[i] <= Allocate(demands, capacity)[i]
  {
    SumNonNegative(demands);
    SumMonotone(demands, demands');
    ShareAntitoneInTotal(demands[i], Sum(demands), Sum(demands'), capacity);
  }

  lemma {:induction false} SumUpdate(xs: seq<int>, i: nat, x: int)
    requires i < |xs|
    ensures Sum(xs[i := x]) == Sum(xs) - xs[i] + x
  {
    var n := |xs| - 1;
    if i == n {
      assert xs[i := x][..n] == xs[..n];
    } else {
      SumUpdate(xs[..n], i, x);
      assert xs[i := x][..n] == xs[..n][i := x];
    }
  }

  /** A pod that raises its own demand does not lose, and inside one split the
      larger demand gets no smaller allocation. */
  lemma AllocateMonotoneInDemand(demands: seq<int>, capacity: int, i: nat, d: int, j: nat)
    requires NonNegative(demands) && 0 <= capacity
    requires i < |demands| && demands[i] <= d && j < |demands|
    ensures Allocate(demands, capacity)[i] <= Allocate(demands[i := d], capacity)[i]
    ensures demands[i] <= demands[j] ==>
              Allocate(demands, capacity)[i] <= Allocate(demands, capacity)[j]
  {
    SumNonNegative(demands);
    SumUpdate(demands, i, d);
    ShareMonotoneInOwnDemand(demands[i], d - demands[i], Sum(demands), capacity);
    var t := Sum(demands);
    if demands[i] <= demands[j] && t > capacity {
      ProportionalIsFloor(demands[i], t, capacity);
      ProportionalIsFloor(demands[j], t, capacity);
      MultiplyAtMost(demands[i], demands[j], capacity);
      CancelLess(Share(demands[i], t, capacity), Share(demands[j], t, capacity) + 1, t);
    }
  }

  /** Solving again from the allocations themselves changes nothing. */
  lemma AllocateIdempotent(demands: seq<int>, capacity: int)
    requires NonNegative(demands) && 0 <= capacity
    ensures Allocate(Allocate(demands, capacity), capacity) == Allocate(demands, capacity)
  {
    TightSplit(demands, capacity);
    var a := Allocate(demands, capacity);
    assert !Contended(a, capacity);
    assert Allocate(a, capacity) == a;
  }
}
