/** The closed loop of vertical scaling on one node: recommend, bound, solve,
    and feed the result back as the next round's actual resources. */
module VerticalLoop {
  import opened Common
  import opened Types
  import opened Allocation
  import opened Recommender

  datatype Logic = FixedGain | AdaptiveGain

  datatype PodLoop = PodLoop(logic: Logic, controller: Controller, desiredMemory: int, actual: Resources)

  /** A metric reading; `root` is the square root the adaptive logic takes. */
  datatype Metric = Metric(responseTime: int, root: real)

  /** Without a reading the recommender skips the pod for this round; a pod that
      is not Guaranteed is dropped by the contention manager after its
      controller has moved; `reached` says whether the updater wrote the share. */
  datatype PodInput = PodInput(sla: Sla, metric: Option<Metric>, guaranteed: bool, reached: bool)

  /** One round: the capacity left by pods that never have a podscale, and the
      agreement and metric of every pod. */
  datatype RoundInput = RoundInput(capacity: Resources, pods: seq<PodInput>)

  // ---- One round -----------------------------------------------------------

  function ErrorOf(input: PodInput): real
    requires input.metric.Some? && 0 < input.sla.responseTime
  {
    Error(input.sla.responseTime, input.metric.value.responseTime)
  }

  ghost predicate ValidPodInput(input: PodInput)
  {
    && 0 < input.sla.responseTime
    && (input.sla.minResources.Some? ==>
          0 <= Lower(input.sla).cpu && 0 <= Lower(input.sla).memory)
    && (input.sla.maxResources.Some? ==>
          && Lower(input.sla).cpu <= Upper(input.sla).cpu
          && Lower(input.sla).memory <= Upper(input.sla).memory)
    && (input.metric.Some? ==> IsRoot(input.metric.value.root, AbsReal(ErrorOf(input)) * 2.0))
  }

  ghost predicate ValidInput(input: RoundInput, n: nat)
  {
    && |input.pods| == n
    && forall i :: 0 <= i < n ==> ValidPodInput(input.pods[i])
  }

  ghost predicate ValidPod(p: PodLoop)
  {
    && 0 <= p.actual.cpu && 0 <= p.actual.memory && 0 <= p.desiredMemory
    && GainsInRange(p.controller)
    && (p.logic == FixedGain ==> p.controller.bc == 40.0 && p.controller.dc == 80.0)
  }

  ghost predicate ValidPods(ps: seq<PodLoop>)
  {
    forall i :: 0 <= i < |ps| ==> ValidPod(ps[i])
  }

  function NextController(p: PodLoop, input: PodInput): Controller
    requires 0 < input.sla.responseTime
  {
    if input.metric.None? then p.controller
    else if p.logic == FixedGain then p.controller.(prevError := ErrorOf(input))
    else AdaptedGains(p.controller, ErrorOf(input), input.metric.value.root)
  }

  /** The contention manager does not see the pod, or drops it. */
  predicate Absent(input: PodInput)
  {
    input.metric.None? || !input.guaranteed
  }

  /** What a pod asks of the contention manager; an absent pod asks nothing. */
  function Demand(p: PodLoop, input: PodInput): Resources
    requires 0 < input.sla.responseTime
  {
    if Absent(input) then Resources(0, 0)
    else Capped(Resources(DesiredCpu(p.actual.cpu, p.controller, ErrorOf(input)), p.desiredMemory), input.sla)
  }

  /** What the contention manager subtracts for a pod that is absent in this
      round: the requests written into it by an earlier round. */
  function Reserved(p: PodLoop, input: PodInput): Resources
  {
    if Absent(input) then p.actual else Resources(0, 0)
  }

  ghost function CpuDemands(ps: seq<PodLoop>, input: RoundInput): (d: seq<int>)
    requires ValidInput(input, |ps|)
    ensures |d| == |ps|
  {
    seq(|ps|, i requires 0 <= i < |ps| => Demand(ps[i], input.pods[i]).cpu)
  }

  ghost function MemoryDemands(ps: seq<PodLoop>, input: RoundInput): (d: seq<int>)
    requires ValidInput(input, |ps|)
    ensures |d| == |ps|
  {
    seq(|ps|, i requires 0 <= i < |ps| => Demand(ps[i], input.pods[i]).memory)
  }

  ghost function CpuReserved(ps: seq<PodLoop>, input: RoundInput): (d: seq<int>)
    requires ValidInput(input, |ps|)
    ensures |d| == |ps|
  {
    seq(|ps|, i requires 0 <= i < |ps| => Reserved(ps[i], input.pods[i]).cpu)
  }

  ghost function MemoryReserved(ps: seq<PodLoop>, input: RoundInput): (d: seq<int>)
    requires ValidInput(input, |ps|)
    ensures |d| == |ps|
  {
    seq(|ps|, i requires 0 <= i < |ps| => Reserved(ps[i], input.pods[i]).memory)
  }

  ghost function Allocatable(ps: seq<PodLoop>, input: RoundInput): Resources
    requires ValidInput(input, |ps|)
  {
    Resources(input.capacity.cpu - Sum(CpuReserved(ps, input)),
              input.capacity.memory - Sum(MemoryReserved(ps, input)))
  }

  /** The contention manager exists: nothing allocatable is negative. */
  ghost predicate Admissible(ps: seq<PodLoop>, input: RoundInput)
    requires ValidInput(input, |ps|)
  {
    0 <= Allocatable(ps, input).cpu && 0 <= Allocatable(ps, input).memory
  }

  ghost function CpuShares(ps: seq<PodLoop>, input: RoundInput): (shares: seq<int>)
    requires ValidInput(input, |ps|) && Admissible(ps, input)
    ensures |shares| == |ps|
  {
    Allocate(CpuDemands(ps, input), Allocatable(ps, input).cpu)
  }

  ghost function MemoryShares(ps: seq<PodLoop>, input: RoundInput): (shares: seq<int>)
    requires ValidInput(input, |ps|) && Admissible(ps, input)
    ensures |shares| == |ps|
  {
    Allocate(MemoryDemands(ps, input), Allocatable(ps, input).memory)
  }

  /** A round with whatever feedback the updater achieves. Without a contention
      manager no allocation leaves the node, though controllers have moved. */
  ghost function Round(ps: seq<PodLoop>, input: RoundInput): (ps': seq<PodLoop>)
    requires ValidInput(input, |ps|)
    ensures |ps'| == |ps|
  {
    seq(|ps|, i requires 0 <= i < |ps| =>
      PodLoop(ps[i].logic, NextController(ps[i], input.pods[i]), ps[i].desiredMemory,
              if Absent(input.pods[i]) || !input.pods[i].reached || !Admissible(ps, input) then ps[i].actual
              else Resources(CpuShares(ps, input)[i], MemoryShares(ps, input)[i])))
  }

  ghost predicate ValidInputs(inputs: seq<RoundInput>, n: nat)
  {
    forall k :: 0 <= k < |inputs| ==> ValidInput(inputs[k], n)
  }

  /** The state after a run of rounds. */
  ghost function Run(ps: seq<PodLoop>, inputs: seq<RoundInput>): (ps': seq<PodLoop>)
    requires ValidInputs(inputs, |ps|)
    ensures |ps'| == |ps|
  {
    if |inputs| == 0 then ps
    else Round(Run(ps, inputs[..|inputs| - 1]), inputs[|inputs| - 1])
  }

  /** The state before round `k`. */
  ghost function StateAt(ps: seq<PodLoop>, inputs: seq<RoundInput>, k: nat): (ps': seq<PodLoop>)
    requires ValidInputs(inputs, |ps|) && k <= |inputs|
    ensures |ps'| == |ps| && (k == 0 ==> ps' == ps)
  {
    Run(ps, inputs[..k])
  }

  lemma RunStep(ps: seq<PodLoop>, inputs: seq<RoundInput>, k: nat)
    requires ValidInputs(inputs, |ps|) && k < |inputs|
    ensures StateAt(ps, inputs, k + 1) == Round(StateAt(ps, inputs, k), inputs[k])
  {
    assert inputs[..k + 1][..k] == inputs[..k];
  }

  // ---- Safety --------------------------------------------------------------

  function CpuOf(ps: seq<PodLoop>): seq<int>
  {
    seq(|ps|, i requires 0 <= i < |ps| => ps[i].actual.cpu)
  }

  function MemoryOf(ps: seq<PodLoop>): seq<int>
  {
    seq(|ps|, i requires 0 <= i < |ps| => ps[i].actual.memory)
  }

  /** What a pod that the updater did not reach keeps beyond its share. */
  ghost function CpuKept(ps: seq<PodLoop>, input: RoundInput): (kept: seq<int>)
    requires ValidInput(input, |ps|) && Admissible(ps, input)
    ensures |kept| == |ps|
  {
    seq(|ps|, i requires 0 <= i < |ps| =>
      if Absent(input.pods[i]) || input.pods[i].reached then 0
      else Max(0, ps[i].actual.cpu - CpuShares(ps, input)[i]))
  }

  ghost function MemoryKept(ps: seq<PodLoop>, input: RoundInput): (kept: seq<int>)
    requires ValidInput(input, |ps|) && Admissible(ps, input)
    ensures |kept| == |ps|
  {
    seq(|ps|, i requires 0 <= i < |ps| =>
      if Absent(input.pods[i]) || input.pods[i].reached then 0
      else Max(0, ps[i].actual.memory - MemoryShares(ps, input)[i]))
  }

  /** What a round guarantees about the node: the actual resources total at most
      the capacity plus what unreached pods keep beyond their shares. */
  ghost predicate SafeRound(before: seq<PodLoop>, input: RoundInput, after: seq<PodLoop>)
    requires ValidInput(input, |before|) && Admissible(before, input) && |after| == |before|
  {
    && Sum(CpuOf(after)) <= input.capacity.cpu + Sum(CpuKept(before, input))
    && Sum(MemoryOf(after)) <= input.capacity.memory + Sum(MemoryKept(before, input))
    && forall i :: 0 <= i < |before| ==> SafePod(before[i], input.pods[i], after[i])
  }

  ghost predicate SafePod(before: PodLoop, input: PodInput, after: PodLoop)
    requires ValidPodInput(input)
  {
    if Absent(input) || !input.reached then after == before.(controller := NextController(before, input))
    else
      && 0 <= after.actual.cpu && 0 <= after.actual.memory
      && (input.sla.maxResources.Some? ==>
            after.actual.cpu <= Upper(input.sla).cpu && after.actual.memory <= Upper(input.sla).memory)
      && after.actual.cpu <= Max(Lower(input.sla).cpu, 3 * before.actual.cpu / 2)
  }

  lemma DemandRange(p: PodLoop, input: PodInput)
    requires ValidPod(p) && ValidPodInput(input)
    ensures var d := Demand(p, input);
            && 0 <= d.cpu && 0 <= d.memory
            && (!Absent(input) && input.sla.maxResources.Some? ==>
                  d.cpu <= Upper(input.sla).cpu && d.memory <= Upper(input.sla).memory)
            && (!Absent(input) ==> d.cpu <= Max(Lower(input.sla).cpu, 3 * p.actual.cpu / 2))
  {
    if !Absent(input) {
      DesiredCpuRange(p.actual.cpu, p.controller, ErrorOf(input));
    }
  }

  lemma ControllerStaysValid(p: PodLoop, input: PodInput)
    requires ValidPod(p) && ValidPodInput(input)
    ensures ValidPod(p.(controller := NextController(p, input)))
  {
    if input.metric.Some? && p.logic == AdaptiveGain {
      AdaptStep(p.controller, ErrorOf(input), input.metric.value.root);
    }
  }

  lemma DemandsNonNegative(ps: seq<PodLoop>, input: RoundInput)
    requires ValidPods(ps) && ValidInput(input, |ps|)
    ensures NonNegative(CpuDemands(ps, input)) && NonNegative(MemoryDemands(ps, input))
  {
    forall i | 0 <= i < |ps|
      ensures 0 <= Demand(ps[i], input.pods[i]).cpu && 0 <= Demand(ps[i], input.pods[i]).memory
    {
      DemandRange(ps[i], input.pods[i]);
    }
  }

  /** What a granted share means for the pod that demanded it. */
  lemma GrantIsSafe(p: PodLoop, input: PodInput, cpu: int, memory: int)
    requires ValidPod(p) && ValidPodInput(input) && !Absent(input) && input.reached
    requires 0 <= cpu <= Demand(p, input).cpu && 0 <= memory <= Demand(p, input).memory
    ensures var p' := PodLoop(p.logic, NextController(p, input), p.desiredMemory, Resources(cpu, memory));
            ValidPod(p') && SafePod(p, input, p')
  {
    ControllerStaysValid(p, input);
    DemandRange(p, input);
  }

  lemma SharesInRange(ps: seq<PodLoop>, input: RoundInput)
    requires ValidPods(ps) && ValidInput(input, |ps|) && Admissible(ps, input)
    ensures Sum(CpuShares(ps, input)) <= Allocatable(ps, input).cpu
    ensures Sum(MemoryShares(ps, input)) <= Allocatable(ps, input).memory
    ensures forall i :: 0 <= i < |ps| ==>
              && 0 <= CpuShares(ps, input)[i] <= Demand(ps[i], input.pods[i]).cpu
              && 0 <= MemoryShares(ps, input)[i] <= Demand(ps[i], input.pods[i]).memory
  {
    DemandsNonNegative(ps, input);
    TightSplit(CpuDemands(ps, input), Allocatable(ps, input).cpu);
    TightSplit(MemoryDemands(ps, input), Allocatable(ps, input).memory);
  }

  lemma ShareInRange(ps: seq<PodLoop>, input: RoundInput, i: nat)
    requires ValidPods(ps) && ValidInput(input, |ps|) && Admissible(ps, input) && i < |ps|
    ensures 0 <= CpuShares(ps, input)[i] <= Demand(ps[i], input.pods[i]).cpu
    ensures 0 <= MemoryShares(ps, input)[i] <= Demand(ps[i], input.pods[i]).memory
  {
    hide CpuShares, MemoryShares, Demand;
    SharesInRange(ps, input);
  }

  lemma PodIsSafe(ps: seq<PodLoop>, input: RoundInput, i: nat)
    requires ValidPods(ps) && ValidInput(input, |ps|) && i < |ps|
    ensures ValidPod(Round(ps, input)[i])
    ensures Admissible(ps, input) ==> SafePod(ps[i], input.pods[i], Round(ps, input)[i])
  {
    hide CpuShares, MemoryShares, Demand;
    if Admissible(ps, input) && !Absent(input.pods[i]) && input.pods[i].reached {
      ShareInRange(ps, input, i);
      GrantIsSafe(ps[i], input.pods[i], CpuShares(ps, input)[i], MemoryShares(ps, input)[i]);
    } else {
      ControllerStaysValid(ps[i], input.pods[i]);
    }
  }

  lemma {:induction false} SumOfThree(shares: seq<int>, reserved: seq<int>, kept: seq<int>, after: seq<int>)
    requires |shares| == |reserved| == |kept| == |after|
    requires forall i :: 0 <= i < |after| ==> after[i] <= shares[i] + reserved[i] + kept[i]
    ensures Sum(after) <= Sum(shares) + Sum(reserved) + Sum(kept)
  {
    if |after| == 0 {
    } else {
      var n := |after| - 1;
      SumOfThree(shares[..n], reserved[..n], kept[..n], after[..n]);
    }
  }

  lemma PodAdds(ps: seq<PodLoop>, input: RoundInput, i: nat)
    requires ValidPods(ps) && ValidInput(input, |ps|) && Admissible(ps, input) && i < |ps|
    ensures CpuOf(Round(ps, input))[i] <= CpuShares(ps, input)[i] + CpuReserved(ps, input)[i] + CpuKept(ps, input)[i]
    ensures MemoryOf(Round(ps, input))[i] <=
            MemoryShares(ps, input)[i] + MemoryReserved(ps, input)[i] + MemoryKept(ps, input)[i]
  {
    hide CpuShares, MemoryShares, Demand, Allocatable, NextController, ValidPod, ValidPodInput, Admissible;
    ShareInRange(ps, input, i);
  }

  lemma NodeIsSafe(ps: seq<PodLoop>, input: RoundInput)
    requires ValidPods(ps) && ValidInput(input, |ps|) && Admissible(ps, input)
    ensures Sum(CpuOf(Round(ps, input))) <= input.capacity.cpu + Sum(CpuKept(ps, input))
    ensures Sum(MemoryOf(Round(ps, input))) <= input.capacity.memory + Sum(MemoryKept(ps, input))
  {
    hide CpuShares, MemoryShares, CpuKept, MemoryKept, CpuReserved, MemoryReserved, Round, Demand, ValidPods, Sum;
    SharesInRange(ps, input);
    var cpu, memory := CpuOf(Round(ps, input)), MemoryOf(Round(ps, input));
    forall i | 0 <= i < |ps|
      ensures cpu[i] <= CpuShares(ps, input)[i] + CpuReserved(ps, input)[i] + CpuKept(ps, input)[i]
      ensures memory[i] <= MemoryShares(ps, input)[i] + MemoryReserved(ps, input)[i] + MemoryKept(ps, input)[i]
    {
      PodAdds(ps, input, i);
    }
    SumOfThree(CpuShares(ps, input), CpuReserved(ps, input), CpuKept(ps, input), cpu);
    SumOfThree(MemoryShares(ps, input), MemoryReserved(ps, input), MemoryKept(ps, input), memory);
  }

  lemma RoundIsSafe(ps: seq<PodLoop>, input: RoundInput)
    requires ValidPods(ps) && ValidInput(input, |ps|)
    ensures ValidPods(Round(ps, input))
    ensures Admissible(ps, input) ==> SafeRound(ps, input, Round(ps, input))
  {
    forall i | 0 <= i < |ps|
      ensures ValidPod(Round(ps, input)[i])
      ensures Admissible(ps, input) ==> SafePod(ps[i], input.pods[i], Round(ps, input)[i])
    {
      PodIsSafe(ps, input, i);
    }
    if Admissible(ps, input) {
      NodeIsSafe(ps, input);
    }
  }

  /** Closed-loop safety: whatever the metrics, agreements, absent pods, missed
      feedback and capacities, every round of every run is safe. */
  lemma {:induction false} LoopIsSafe(ps: seq<PodLoop>, inputs: seq<RoundInput>, k: nat)
    requires ValidPods(ps) && ValidInputs(inputs, |ps|) && k <= |inputs|
    ensures ValidPods(StateAt(ps, inputs, k))
    ensures k < |inputs| && Admissible(StateAt(ps, inputs, k), inputs[k]) ==>
              SafeRound(StateAt(ps, inputs, k), inputs[k], StateAt(ps, inputs, k + 1))
  {
    hide Round, Run, StateAt, SafeRound, Admissible, ValidPod;
    if k == 0 {
    } else {
      LoopIsSafe(ps, inputs, k - 1);
      RunStep(ps, inputs, k - 1);
      RoundIsSafe(StateAt(ps, inputs, k - 1), inputs[k - 1]);
    }
    if k < |inputs| {
      RunStep(ps, inputs, k);
      RoundIsSafe(StateAt(ps, inputs, k), inputs[k]);
    }
  }

  ghost predicate Fits(ps: seq<PodLoop>, capacity: Resources)
  {
    Sum(CpuOf(ps)) <= capacity.cpu && Sum(MemoryOf(ps)) <= capacity.memory
  }

  lemma FittingIsAdmissible(ps: seq<PodLoop>, input: RoundInput)
    requires ValidPods(ps) && ValidInput(input, |ps|) && Fits(ps, input.capacity)
    ensures Admissible(ps, input)
  {
    SumMonotone(CpuReserved(ps, input), CpuOf(ps));
    SumMonotone(MemoryReserved(ps, input), MemoryOf(ps));
  }

  /** No unreached pod keeps more than its share, as when all are reached. */
  ghost predicate NothingKept(ps: seq<PodLoop>, input: RoundInput)
    requires ValidInput(input, |ps|)
  {
    Admissible(ps, input) ==>
      forall i :: 0 <= i < |ps| ==> CpuKept(ps, input)[i] == 0 && MemoryKept(ps, input)[i] == 0
  }

  /** The capacity never shrinks and no round leaves a pod more than its share. */
  ghost predicate Steadfast(ps: seq<PodLoop>, inputs: seq<RoundInput>)
    requires ValidInputs(inputs, |ps|)
  {
    && (forall k :: 0 < k < |inputs| ==>
          && inputs[k - 1].capacity.cpu <= inputs[k].capacity.cpu
          && inputs[k - 1].capacity.memory <= inputs[k].capacity.memory)
    && forall k :: 0 <= k < |inputs| ==> NothingKept(StateAt(ps, inputs, k), inputs[k])
  }

  lemma RoundFits(ps: seq<PodLoop>, input: RoundInput)
    requires ValidPods(ps) && ValidInput(input, |ps|) && Fits(ps, input.capacity) && NothingKept(ps, input)
    ensures Admissible(ps, input) && Fits(Round(ps, input), input.capacity)
  {
    FittingIsAdmissible(ps, input);
    RoundIsSafe(ps, input);
    SumOfZeros(CpuKept(ps, input));
    SumOfZeros(MemoryKept(ps, input));
  }

  /** With a capacity that never shrinks, and no unreached pod that was to
      shrink, a node that fits once fits after every round, and no round is ever
      lost to a missing contention manager. */
  lemma {:induction false} FittingIsInvariant(ps: seq<PodLoop>, inputs: seq<RoundInput>, k: nat)
    requires ValidPods(ps) && ValidInputs(inputs, |ps|) && k < |inputs|
    requires Fits(ps, inputs[0].capacity) && Steadfast(ps, inputs)
    ensures Admissible(StateAt(ps, inputs, k), inputs[k])
    ensures Fits(StateAt(ps, inputs, k + 1), inputs[k].capacity)
  {
    if k == 0 {
    } else {
      FittingIsInvariant(ps, inputs, k - 1);
    }
    LoopIsSafe(ps, inputs, k);
    RunStep(ps, inputs, k);
    RoundFits(StateAt(ps, inputs, k), inputs[k]);
  }

  // ---- Memory is a fixed point after one round ------------------------------

  /** Same agreements, capacity and absent pods in every round. */
  ghost predicate SameMembership(inputs: seq<RoundInput>, n: nat)
    requires ValidInputs(inputs, n)
  {
    forall k :: 0 <= k < |inputs| ==>
      && inputs[k].capacity == inputs[0].capacity
      && forall i :: 0 <= i < n ==>
           && (Absent(inputs[k].pods[i]) <==> Absent(inputs[0].pods[i]))
           && inputs[k].pods[i].sla == inputs[0].pods[i].sla
  }

  lemma {:induction false} DesiredMemoryConstant(ps: seq<PodLoop>, inputs: seq<RoundInput>, i: nat)
    requires ValidInputs(inputs, |ps|) && i < |ps|
    ensures Run(ps, inputs)[i].desiredMemory == ps[i].desiredMemory
  {
    if |inputs| == 0 {
    } else {
      DesiredMemoryConstant(ps, inputs[..|inputs| - 1], i);
    }
  }

  lemma {:induction false} AbsentKeepsActual(ps: seq<PodLoop>, inputs: seq<RoundInput>, i: nat, k: nat)
    requires ValidInputs(inputs, |ps|) && SameMembership(inputs, |ps|)
    requires i < |ps| && k < |inputs| && Absent(inputs[0].pods[i])
    ensures StateAt(ps, inputs, k)[i].actual == ps[i].actual
  {
    if k == 0 {
    } else {
      AbsentKeepsActual(ps, inputs, i, k - 1);
      RunStep(ps, inputs, k - 1);
    }
  }

  lemma SameReservation(p: PodLoop, q: PodLoop, a: PodInput, b: PodInput)
    requires Absent(a) <==> Absent(b)
    requires Absent(b) ==> p.actual == q.actual
    ensures Reserved(p, a) == Reserved(q, b)
  {
  }

  lemma SameMemoryDemand(p: PodLoop, q: PodLoop, a: PodInput, b: PodInput)
    requires 0 < a.sla.responseTime && a.sla == b.sla && (Absent(a) <==> Absent(b))
    requires p.desiredMemory == q.desiredMemory
    ensures Demand(p, a).memory == Demand(q, b).memory
  {
  }

  /** Every round has the room and the memory demands of the first. */
  lemma SameRoomAndDemands(ps: seq<PodLoop>, inputs: seq<RoundInput>, k: nat)
    requires ValidInputs(inputs, |ps|) && SameMembership(inputs, |ps|) && k < |inputs|
    ensures Allocatable(StateAt(ps, inputs, k), inputs[k]) == Allocatable(ps, inputs[0])
    ensures MemoryDemands(StateAt(ps, inputs, k), inputs[k]) == MemoryDemands(ps, inputs[0])
  {
    hide StateAt, Demand, Reserved;
    var before, input := StateAt(ps, inputs, k), inputs[k];
    forall i | 0 <= i < |ps|
      ensures Demand(before[i], input.pods[i]).memory == Demand(ps[i], inputs[0].pods[i]).memory
      ensures Reserved(before[i], input.pods[i]) == Reserved(ps[i], inputs[0].pods[i])
    {
      DesiredMemoryAt(ps, inputs, i, k);
      SameMemoryDemand(before[i], ps[i], input.pods[i], inputs[0].pods[i]);
      if Absent(inputs[0].pods[i]) {
        AbsentKeepsActual(ps, inputs, i, k);
      }
      SameReservation(before[i], ps[i], input.pods[i], inputs[0].pods[i]);
    }
    assert MemoryDemands(before, input) == MemoryDemands(ps, inputs[0]);
    assert CpuReserved(before, input) == CpuReserved(ps, inputs[0]);
    assert MemoryReserved(before, input) == MemoryReserved(ps, inputs[0]);
  }

  lemma DesiredMemoryAt(ps: seq<PodLoop>, inputs: seq<RoundInput>, i: nat, k: nat)
    requires ValidInputs(inputs, |ps|) && i < |ps| && k <= |inputs|
    ensures StateAt(ps, inputs, k)[i].desiredMemory == ps[i].desiredMemory
  {
    DesiredMemoryConstant(ps, inputs[..k], i);
  }

  /** The updater reached pod `i` in one of the first `k` rounds. */
  ghost predicate ReachedBy(inputs: seq<RoundInput>, n: nat, i: nat, k: nat)
    requires ValidInputs(inputs, n) && i < n && k <= |inputs|
  {
    exists j :: 0 <= j < k && inputs[j].pods[i].reached
  }

  /** The pod is given memory in such rounds: it is present, and there is a
      contention manager. */
  ghost predicate Served(ps: seq<PodLoop>, input: RoundInput, i: nat)
    requires ValidInput(input, |ps|) && i < |ps|
  {
    Admissible(ps, input) && !Absent(input.pods[i])
  }

  lemma RoundMemory(ps: seq<PodLoop>, input: RoundInput, i: nat)
    requires ValidInput(input, |ps|) && i < |ps|
    ensures Round(ps, input)[i].actual.memory ==
            if Served(ps, input, i) && input.pods[i].reached then MemoryShares(ps, input)[i] else ps[i].actual.memory
  {
    hide MemoryShares, CpuShares, NextController;
  }

  /** From the first round that reaches a pod on, its memory is what the first
      round assigned to it; until then, and for a pod that is never present or a
      node without a contention manager, it is what it started with. */
  lemma {:induction false} MemoryFixedPoint(ps: seq<PodLoop>, inputs: seq<RoundInput>, i: nat, k: nat)
    requires ValidInputs(inputs, |ps|) && SameMembership(inputs, |ps|)
    requires i < |ps| && 0 < |inputs| && k <= |inputs|
    ensures StateAt(ps, inputs, k)[i].actual.memory ==
            if Served(ps, inputs[0], i) && ReachedBy(inputs, |ps|, i, k) then MemoryShares(ps, inputs[0])[i]
            else ps[i].actual.memory
  {
    hide Round, StateAt, Run, Allocatable, MemoryDemands, Allocate;
    if k == 0 {
    } else {
      MemoryFixedPoint(ps, inputs, i, k - 1);
      SameRoomAndDemands(ps, inputs, k - 1);
      RoundMemory(StateAt(ps, inputs, k - 1), inputs[k - 1], i);
      RunStep(ps, inputs, k - 1);
      assert ReachedBy(inputs, |ps|, i, k) <==>
               ReachedBy(inputs, |ps|, i, k - 1) || inputs[k - 1].pods[i].reached;
    }
  }
}
