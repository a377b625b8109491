/** Small vocabulary shared by every model: options, integer sums and the
    numeric conversions of the source language. */
module Common {

  datatype Option<+T> = None | Some(value: T)

  /** Resource quantities in milli-units. */
  datatype Resources = Resources(cpu: int, memory: int)

  function Min(a: int, b: int): int { if a <= b then a else b }

  function Max(a: int, b: int): int { if a >= b then a else b }

  function MinReal(a: real, b: real): real { if a <= b then a else b }

  function MaxReal(a: real, b: real): real { if a >= b then a else b }

  function AbsReal(x: real): real { if x >= 0.0 then x else -x }

  /** The conversion `int64(x)`: rounds toward zero. */
  function Truncate(x: real): int
  {
    if x >= 0.0 then x.Floor else -((-x).Floor)
  }

  /** The function `math.Round`: halves round away from zero. */
  function RoundHalfAway(x: real): int
  {
    if x >= 0.0 then (x + 0.5).Floor else -((-x + 0.5).Floor)
  }

  function Sum(xs: seq<int>): int
  {
    if |xs| == 0 then 0 else Sum(xs[..|xs| - 1]) + xs[|xs| - 1]
  }

  lemma SumStep(xs: seq<int>, k: nat)
    requires k < |xs|
    ensures Sum(xs[..k + 1]) == Sum(xs[..k]) + xs[k]
  {
    assert xs[..k + 1][..k] == xs[..k];
  }

  lemma {:induction false} SumAppend(xs: seq<int>, ys: seq<int>)
    ensures Sum(xs + ys) == Sum(xs) + Sum(ys)
  {
    if |ys| == 0 {
      assert xs + ys == xs;
    } else {
      SumAppend(xs, ys[..|ys| - 1]);
      assert (xs + ys)[..|xs + ys| - 1] == xs + ys[..|ys| - 1];
    }
  }

  lemma {:induction false} SumMonotone(xs: seq<int>, ys: seq<int>)
    requires |xs| == |ys|
    requires forall i :: 0 <= i < |xs| ==> xs[i] <= ys[i]
    ensures Sum(xs) <= Sum(ys)
  {
    if |xs| == 0 {
    } else {
      SumMonotone(xs[..|xs| - 1], ys[..|ys| - 1]);
    }
  }

  lemma {:induction false} SumNonNegative(xs: seq<int>)
    requires forall i :: 0 <= i < |xs| ==> 0 <= xs[i]
    ensures 0 <= Sum(xs)
    ensures forall i :: 0 <= i < |xs| ==> xs[i] <= Sum(xs)
  {
    if |xs| == 0 {
    } else {
      SumNonNegative(xs[..|xs| - 1]);
    }
  }

  lemma {:induction false} SumSplit(xs: seq<int>, ys: seq<int>, zs: seq<int>)
    requires |xs| == |ys| == |zs|
    requires forall i :: 0 <= i < |xs| ==> zs[i] <= xs[i] + ys[i]
    ensures Sum(zs) <= Sum(xs) + Sum(ys)
  {
    if |xs| == 0 {
    } else {
      var n := |xs| - 1;
      SumSplit(xs[..n], ys[..n], zs[..n]);
    }
  }

  lemma {:induction false} SumOfZeros(xs: seq<int>)
    requires forall i :: 0 <= i < |xs| ==> xs[i] == 0
    ensures Sum(xs) == 0
  {
    if |xs| == 0 {
    } else {
      SumOfZeros(xs[..|xs| - 1]);
    }
  }

  lemma SumOfOne(x: int)
    ensures Sum([x]) == x
  {
    assert [x][..0] == [];
  }

  lemma SumOfPair(x: int, y: int)
    ensures Sum([x, y]) == x + y
  {
    SumOfOne(x);
    assert [x, y][..1] == [x];
  }

  lemma SumHead(xs: seq<int>)
    requires 0 < |xs|
    ensures Sum(xs) == xs[0] + Sum(xs[1..])
  {
    SumOfOne(xs[0]);
    SumAppend([xs[0]], xs[1..]);
    assert xs == [xs[0]] + xs[1..];
  }

  /** Truncation loses less than one unit of a non-negative value. */
  lemma TruncateBounds(x: real, lower: int)
    requires 0.0 <= x
    ensures Truncate(x) as real <= x < Truncate(x) as real + 1.0
    ensures 0 <= Truncate(x)
    ensures lower as real <= x ==> lower <= Truncate(x)
  {
    if lower as real <= x {
      assert lower as real < (Truncate(x) + 1) as real;
    }
  }

  // ---- Sums of resources ---------------------------------------------------

  function Plus(a: Resources, b: Resources): Resources
  {
    Resources(a.cpu + b.cpu, a.memory + b.memory)
  }

  function Minus(a: Resources, b: Resources): Resources
  {
    Resources(a.cpu - b.cpu, a.memory - b.memory)
  }

  function Total(rs: seq<Resources>): Resources
  {
    if |rs| == 0 then Resources(0, 0) else Plus(Total(rs[..|rs| - 1]), rs[|rs| - 1])
  }

  lemma {:induction false} TotalPlus(xs: seq<Resources>, ys: seq<Resources>, zs: seq<Resources>)
    requires |xs| == |ys| == |zs|
    requires forall i :: 0 <= i < |xs| ==> zs[i] == Plus(xs[i], ys[i])
    ensures Total(zs) == Plus(Total(xs), Total(ys))
  {
    if |xs| == 0 {
    } else {
      var n := |xs| - 1;
      TotalPlus(xs[..n], ys[..n], zs[..n]);
    }
  }

  lemma {:induction false} TotalComponents(rs: seq<Resources>, cpu: seq<int>, memory: seq<int>)
    requires |rs| == |cpu| == |memory|
    requires forall i :: 0 <= i < |rs| ==> rs[i] == Resources(cpu[i], memory[i])
    ensures Total(rs) == Resources(Sum(cpu), Sum(memory))
  {
    if |rs| == 0 {
    } else {
      var n := |rs| - 1;
      TotalComponents(rs[..n], cpu[..n], memory[..n]);
    }
  }
}
