/** Guarantees of the replica logics over whole runs of calls. */
module ReplicaRuns {
  import opened Common
  import opened Types
  import opened ReplicaUpdater

  /** One call; the current count is whatever the deployment says by then. */
  datatype Call = Call(now: int, verdict: Verdict, current: int)

  ghost function Fields(t0: int, calls: seq<Call>): Vars
  {
    if |calls| == 0 then New(t0)
    else
      var c := calls[|calls| - 1];
      Step(Fields(t0, calls[..|calls| - 1]), c.now, c.verdict, c.current).0
  }

  ghost function Returned(t0: int, calls: seq<Call>, k: nat): int
    requires k < |calls|
  {
    Step(Fields(t0, calls[..k]), calls[k].now, calls[k].verdict, calls[k].current).1
  }

  ghost predicate Changes(t0: int, calls: seq<Call>, k: nat)
    requires k < |calls|
  {
    Returned(t0, calls, k) != calls[k].current
  }

  ghost predicate Monotone(t0: int, calls: seq<Call>)
  {
    && (0 < |calls| ==> t0 <= calls[0].now)
    && forall i, j :: 0 <= i < j < |calls| ==> calls[i].now <= calls[j].now
  }

  ghost function CountChanges(t0: int, calls: seq<Call>): nat
  {
    if |calls| == 0 then 0
    else CountChanges(t0, calls[..|calls| - 1]) + if Changes(t0, calls, |calls| - 1) then 1 else 0
  }

  lemma FieldsStep(t0: int, calls: seq<Call>, k: nat)
    requires k < |calls|
    ensures Fields(t0, calls[..k + 1]) ==
            Step(Fields(t0, calls[..k]), calls[k].now, calls[k].verdict, calls[k].current).0
  {
    assert calls[..k + 1][..k] == calls[..k];
  }

  /** A scaling phase began after the stabilization period, not in the future. */
  ghost predicate TimesOrdered(v: Vars, now: int)
  {
    && v.stabilized <= now
    && (v.phase == ScalingUp ==> v.stabilized + STABILIZE_PERIOD <= v.startUp <= now)
    && (v.phase == ScalingDown ==> v.stabilized + STABILIZE_PERIOD <= v.startDown <= now)
  }

  lemma {:induction false} TimesStayOrdered(t0: int, calls: seq<Call>, k: nat)
    requires Monotone(t0, calls) && k <= |calls|
    ensures TimesOrdered(Fields(t0, calls[..k]), if k == 0 then t0 else calls[k - 1].now)
  {
    if k == 0 {
    } else {
      TimesStayOrdered(t0, calls, k - 1);
      FieldsStep(t0, calls, k - 1);
    }
  }

  lemma StepStabilizes(v: Vars, now: int, verdict: Verdict, current: int)
    requires v.stabilized <= now
    ensures var (v', r) := Step(v, now, verdict, current);
            v.stabilized <= v'.stabilized && (r != current ==> v'.stabilized == now)
  {
  }

  lemma {:induction false} StabilizedGrows(t0: int, calls: seq<Call>, i: nat, k: nat)
    requires Monotone(t0, calls) && i <= k <= |calls|
    ensures Fields(t0, calls[..i]).stabilized <= Fields(t0, calls[..k]).stabilized
    decreases k
  {
    if i < k {
      var c := calls[k - 1];
      StabilizedGrows(t0, calls, i, k - 1);
      FieldsStep(t0, calls, k - 1);
      TimesStayOrdered(t0, calls, k - 1);
      StepStabilizes(Fields(t0, calls[..k - 1]), c.now, c.verdict, c.current);
    }
  }

  /** The stabilization time is at or after every earlier change. */
  lemma StabilizedAfterChanges(t0: int, calls: seq<Call>, k: nat, i: nat)
    requires Monotone(t0, calls) && i < k <= |calls|
    ensures t0 <= Fields(t0, calls[..k]).stabilized
    ensures Changes(t0, calls, i) ==> calls[i].now <= Fields(t0, calls[..k]).stabilized
  {
    var c := calls[i];
    StabilizedGrows(t0, calls, 0, k);
    assert calls[..0] == [];
    StabilizedGrows(t0, calls, i + 1, k);
    FieldsStep(t0, calls, i);
    TimesStayOrdered(t0, calls, i);
    StepStabilizes(Fields(t0, calls[..i]), c.now, c.verdict, c.current);
  }

  /** Spacing: an upward change comes more than 165 seconds, a downward change
      more than 180 seconds, after every earlier change and the construction. */
  lemma ChangesAreSpaced(t0: int, calls: seq<Call>, j: nat)
    requires Monotone(t0, calls) && j < |calls| && Changes(t0, calls, j)
    ensures var gap := if Returned(t0, calls, j) > calls[j].current then 165000 else 180000;
            && t0 + gap < calls[j].now
            && forall i :: 0 <= i < j && Changes(t0, calls, i) ==> calls[i].now + gap < calls[j].now
  {
    TimesStayOrdered(t0, calls, j);
    var v := Fields(t0, calls[..j]);
    if 0 < j {
      StabilizedAfterChanges(t0, calls, j, j - 1);
    }
    forall i | 0 <= i < j && Changes(t0, calls, i)
      ensures calls[i].now <= v.stabilized
    {
      StabilizedAfterChanges(t0, calls, j, i);
    }
  }

  lemma StepTakesTime(v: Vars, now: int, verdict: Verdict, current: int)
    requires TimesOrdered(v, now)
    ensures var (v', r) := Step(v, now, verdict, current);
            if r == current then v'.stabilized == v.stabilized else v'.stabilized >= v.stabilized + 165001
  {
  }

  lemma OrderedLater(v: Vars, now: int, later: int)
    requires TimesOrdered(v, now) && now <= later
    ensures TimesOrdered(v, later)
  {
  }

  lemma {:induction false} ChangesCounted(t0: int, calls: seq<Call>)
    requires Monotone(t0, calls)
    ensures t0 + 165001 * CountChanges(t0, calls) <= Fields(t0, calls).stabilized
  {
    if |calls| == 0 {
    } else {
      var n := |calls| - 1;
      var c := calls[n];
      ChangesCounted(t0, calls[..n]);
      TimesStayOrdered(t0, calls, n);
      OrderedLater(Fields(t0, calls[..n]), if n == 0 then t0 else calls[n - 1].now, c.now);
      StepTakesTime(Fields(t0, calls[..n]), c.now, c.verdict, c.current);
    }
  }

  /** Rate: k changes take at least k times 165001 milliseconds. */
  lemma ChangesTakeTime(t0: int, calls: seq<Call>)
    requires Monotone(t0, calls) && 0 < |calls|
    ensures 165001 * CountChanges(t0, calls) <= calls[|calls| - 1].now - t0
    ensures CountChanges(t0, calls) <= (calls[|calls| - 1].now - t0) / 165001
  {
    ChangesCounted(t0, calls);
    TimesStayOrdered(t0, calls, |calls|);
    assert calls[..|calls|] == calls;
  }

  // ---- Sustained demand ----------------------------------------------------

  /** The call could not read its metric, or wanted more (fewer) replicas. */
  ghost predicate Wants(c: Call, phase: Phase)
  {
    c.verdict.Unread? ||
    (c.verdict.Propose? &&
     (if phase == ScalingUp then c.verdict.replicas > c.current else c.verdict.replicas < c.current))
  }

  /** Call `i` entered the phase, and every call since kept wanting it. */
  ghost predicate WantedSince(t0: int, calls: seq<Call>, phase: Phase, i: nat, k: nat)
    requires i < k <= |calls|
  {
    && Fields(t0, calls[..i]).phase != phase && Fields(t0, calls[..i + 1]).phase == phase
    && calls[i].verdict.Propose?
    && forall m :: i <= m < k ==> Wants(calls[m], phase)
  }

  function StartOf(v: Vars, phase: Phase): int
  {
    if phase == ScalingUp then v.startUp else v.startDown
  }

  /** A call that ends in a scaling phase wanted it; one that stays in the
      phase keeps its start, one that enters the phase proposes and starts now. */
  lemma StepWants(v: Vars, c: Call, phase: Phase)
    requires phase != Steady && Step(v, c.now, c.verdict, c.current).0.phase == phase
    ensures Wants(c, phase)
    ensures var v' := Step(v, c.now, c.verdict, c.current).0;
            if v.phase == phase then StartOf(v', phase) == StartOf(v, phase)
            else c.verdict.Propose? && StartOf(v', phase) == c.now
  {
  }

  lemma {:induction false} PhaseHasEntry(t0: int, calls: seq<Call>, phase: Phase, k: nat) returns (i: nat)
    requires phase != Steady && k <= |calls| && Fields(t0, calls[..k]).phase == phase
    ensures i < k && WantedSince(t0, calls, phase, i, k)
    ensures StartOf(Fields(t0, calls[..k]), phase) == calls[i].now
  {
    assert k != 0;
    FieldsStep(t0, calls, k - 1);
    StepWants(Fields(t0, calls[..k - 1]), calls[k - 1], phase);
    if Fields(t0, calls[..k - 1]).phase == phase {
      i := PhaseHasEntry(t0, calls, phase, k - 1);
    } else {
      i := k - 1;
    }
  }

  /** Sustained demand: behind every change stands an entry into the scaling
      phase more than 15 (30) seconds before, and from the entry to the change
      every call either could not read its metric or wanted the same direction. */
  lemma ChangesAreSustained(t0: int, calls: seq<Call>, j: nat) returns (i: nat)
    requires j < |calls| && Changes(t0, calls, j)
    ensures var phase := if Returned(t0, calls, j) > calls[j].current then ScalingUp else ScalingDown;
            var period := if phase == ScalingUp then 15000 else 30000;
            && i < j && WantedSince(t0, calls, phase, i, j + 1)
            && calls[i].now + period < calls[j].now
  {
    var phase := if Returned(t0, calls, j) > calls[j].current then ScalingUp else ScalingDown;
    i := PhaseHasEntry(t0, calls, phase, j);
  }

  // ---- Demand that is sustained is met -------------------------------------

  lemma StepKeepsStable(v: Vars, c: Call)
    ensures var (v', r) := Step(v, c.now, c.verdict, c.current);
            r == c.current ==> v'.stabilized == v.stabilized
  {
  }

  /** The stabilization time is that of the construction or of a change. */
  lemma {:induction false} StabilizedIsAChange(t0: int, calls: seq<Call>, k: nat)
    requires k <= |calls|
    ensures var s := Fields(t0, calls[..k]).stabilized;
            s == t0 || exists m :: 0 <= m < k && Changes(t0, calls, m) && s == calls[m].now
  {
    if k == 0 {
    } else {
      var c := calls[k - 1];
      StabilizedIsAChange(t0, calls, k - 1);
      FieldsStep(t0, calls, k - 1);
      StepKeepsStable(Fields(t0, calls[..k - 1]), c);
      if Changes(t0, calls, k - 1) {
        StepChanges(Fields(t0, calls[..k - 1]), c);
      }
    }
  }

  lemma StepChanges(v: Vars, c: Call)
    ensures var (v', r) := Step(v, c.now, c.verdict, c.current);
            r != c.current ==> v'.stabilized == c.now
  {
  }

  /** A wanting call, after the stabilization period, enters the phase or stays in
      it, or makes the change. */
  lemma WantingStep(v: Vars, c: Call, phase: Phase)
    requires phase != Steady && 150000 <= c.now - v.stabilized && Wants(c, phase)
    requires c.verdict.Propose? || v.phase == phase
    ensures var (v', r) := Step(v, c.now, c.verdict, c.current);
            r == c.current ==>
              && v'.phase == phase && v'.stabilized == v.stabilized
              && StartOf(v', phase) == if v.phase == phase then StartOf(v, phase) else c.now
  {
  }

  /** In the phase for longer than its period, a proposal is carried out. */
  lemma WaitedStep(v: Vars, c: Call, phase: Phase)
    requires phase != Steady && 150000 <= c.now - v.stabilized && Wants(c, phase) && c.verdict.Propose?
    requires v.phase == phase && (if phase == ScalingUp then 15000 else 30000) < c.now - StartOf(v, phase)
    ensures Step(v, c.now, c.verdict, c.current).1 == c.verdict.replicas
  {
  }

  /** Calls from `i` to before `j` all want the phase's direction, the first one
      proposes it, none makes a change, and at `i` construction and every change
      are 150 seconds ago. */
  ghost predicate DemandSustained(t0: int, calls: seq<Call>, phase: Phase, i: nat, j: nat)
    requires i < j <= |calls|
  {
    && phase != Steady && calls[i].verdict.Propose?
    && t0 + 150000 <= calls[i].now
    && (forall m :: 0 <= m < i && Changes(t0, calls, m) ==> calls[m].now + 150000 <= calls[i].now)
    && (forall m :: i <= m < j ==> Wants(calls[m], phase) && !Changes(t0, calls, m))
  }

  lemma {:induction false} SustainedStaysInPhase(t0: int, calls: seq<Call>, phase: Phase, i: nat, j: nat)
    requires Monotone(t0, calls) && i < j <= |calls| && DemandSustained(t0, calls, phase, i, j)
    ensures var v := Fields(t0, calls[..j]);
            v.phase == phase && StartOf(v, phase) <= calls[i].now && v.stabilized + 150000 <= calls[i].now
    decreases j
  {
    hide Step;
    var c := calls[j - 1];
    if j == i + 1 {
      StabilizedIsAChange(t0, calls, i);
      TimesStayOrdered(t0, calls, i);
    } else {
      SustainedStaysInPhase(t0, calls, phase, i, j - 1);
    }
    FieldsStep(t0, calls, j - 1);
    assert Wants(c, phase) && !Changes(t0, calls, j - 1);
    WantingStep(Fields(t0, calls[..j - 1]), c, phase);
  }

  /** The converse of what changes need: once demand in one direction has lasted
      more than 15 (30) seconds on a count that has been stable for 150, the next
      proposal is carried out. */
  lemma SustainedDemandIsMet(t0: int, calls: seq<Call>, phase: Phase, i: nat, j: nat)
    requires Monotone(t0, calls) && i < j < |calls| && DemandSustained(t0, calls, phase, i, j)
    requires Wants(calls[j], phase) && calls[j].verdict.Propose?
    requires calls[i].now + (if phase == ScalingUp then 15000 else 30000) < calls[j].now
    ensures Returned(t0, calls, j) == calls[j].verdict.replicas
  {
    SustainedStaysInPhase(t0, calls, phase, i, j);
    WaitedStep(Fields(t0, calls[..j]), calls[j], phase);
  }

  // ---- Range and rate with feedback ----------------------------------------

  /** Every call starts from the count the previous call returned. */
  ghost predicate Feedback(t0: int, calls: seq<Call>)
  {
    forall k :: 0 < k < |calls| ==> calls[k].current == Returned(t0, calls, k - 1)
  }

  /** The inputs of one call of the custom logic. */
  datatype CustomInput = CustomInput(loads: seq<Option<NodeLoad>>, responseTime: Option<int>)

  ghost predicate CustomRun(sla: Sla, earlyStop: bool, inputs: seq<CustomInput>, calls: seq<Call>)
    requires 0 < sla.responseTime
  {
    && |inputs| == |calls|
    && forall k :: 0 <= k < |calls| ==>
         calls[k].verdict ==
         CustomVerdict(sla, inputs[k].loads, inputs[k].responseTime, earlyStop, calls[k].current)
  }

  ghost predicate HpaRun(sla: Sla, metrics: seq<Option<int>>, calls: seq<Call>)
    requires 0 < sla.responseTime
  {
    && |metrics| == |calls|
    && forall k :: 0 <= k < |calls| ==> calls[k].verdict == HpaVerdict(sla, metrics[k], calls[k].current)
  }

  ghost predicate ProposesWithin(calls: seq<Call>, low: int, high: int)
  {
    forall k :: 0 <= k < |calls| && calls[k].verdict.Propose? ==> low <= calls[k].verdict.replicas <= high
  }

  lemma {:induction false} StaysWithin(t0: int, calls: seq<Call>, low: int, high: int, k: nat)
    requires Feedback(t0, calls) && ProposesWithin(calls, low, high)
    requires k < |calls| && low <= calls[0].current <= high
    ensures low <= calls[k].current <= high && low <= Returned(t0, calls, k) <= high
  {
    if k == 0 {
    } else {
      StaysWithin(t0, calls, low, high, k - 1);
    }
  }

  /** Range: started inside the range of the agreement, either logic returns
      only counts inside it. */
  lemma CountsStayInRange(t0: int, sla: Sla, earlyStop: bool, inputs: seq<CustomInput>, metrics: seq<Option<int>>,
                          calls: seq<Call>, k: nat)
    requires 0 < sla.responseTime && sla.minReplicas <= sla.maxReplicas
    requires CustomRun(sla, earlyStop, inputs, calls) || HpaRun(sla, metrics, calls)
    requires Feedback(t0, calls) && k < |calls|
    requires sla.minReplicas <= calls[0].current <= sla.maxReplicas
    ensures sla.minReplicas <= Returned(t0, calls, k) <= sla.maxReplicas
  {
    forall m | 0 <= m < |calls| && calls[m].verdict.Propose?
      ensures sla.minReplicas <= calls[m].verdict.replicas <= sla.maxReplicas
    {
      if CustomRun(sla, earlyStop, inputs, calls) {
        ProposalsInRange(sla, inputs[m].loads, inputs[m].responseTime, earlyStop, calls[m].current);
      } else {
        ProposalsInRange(sla, [], metrics[m], earlyStop, calls[m].current);
      }
    }
    StaysWithin(t0, calls, sla.minReplicas, sla.maxReplicas, k);
  }

  lemma StepReturns(v: Vars, now: int, verdict: Verdict, current: int)
    ensures var r := Step(v, now, verdict, current).1;
            r == current || (verdict.Propose? && r == verdict.replicas)
  {
  }

  lemma ReturnedInPrefix(t0: int, calls: seq<Call>, n: nat, k: nat)
    requires k < n <= |calls|
    ensures Returned(t0, calls[..n], k) == Returned(t0, calls, k)
  {
    assert calls[..n][..k] == calls[..k];
  }

  lemma GrowsByOne(t0: int, calls: seq<Call>, k: nat)
    requires k < |calls| && (calls[k].verdict.Propose? ==> calls[k].verdict.replicas <= calls[k].current + 1)
    ensures Returned(t0, calls, k) - calls[k].current <= if Changes(t0, calls, k) then 1 else 0
  {
    hide Step;
    StepReturns(Fields(t0, calls[..k]), calls[k].now, calls[k].verdict, calls[k].current);
  }

  lemma {:induction false} GrowthIsCounted(t0: int, calls: seq<Call>)
    requires Feedback(t0, calls) && 0 < |calls|
    requires forall k :: 0 <= k < |calls| && calls[k].verdict.Propose? ==>
               calls[k].verdict.replicas <= calls[k].current + 1
    ensures Returned(t0, calls, |calls| - 1) - calls[0].current <= CountChanges(t0, calls)
  {
    hide Returned, Changes;
    var n := |calls| - 1;
    GrowsByOne(t0, calls, n);
    if n == 0 {
      assert calls[..0] == [];
    } else {
      forall k | 0 < k < n ensures calls[..n][k].current == Returned(t0, calls[..n], k - 1) {
        ReturnedInPrefix(t0, calls, n, k - 1);
      }
      GrowthIsCounted(t0, calls[..n]);
      ReturnedInPrefix(t0, calls, n, n - 1);
    }
  }

  lemma EarlyStopProposesOne(t0: int, sla: Sla, inputs: seq<CustomInput>, calls: seq<Call>, m: nat)
    requires 0 < sla.responseTime && sla.minReplicas <= sla.maxReplicas
    requires CustomRun(sla, true, inputs, calls) && Feedback(t0, calls)
    requires m < |calls| && sla.minReplicas <= calls[0].current <= sla.maxReplicas
    ensures calls[m].verdict.Propose? ==> calls[m].verdict.replicas <= calls[m].current + 1
  {
    if 0 < m {
      CountsStayInRange(t0, sla, true, inputs, [], calls, m - 1);
    }
    ProposalsInRange(sla, inputs[m].loads, inputs[m].responseTime, true, calls[m].current);
  }

  /** With an early stop every upward change adds exactly one replica, so over
      any run the count grows by at most one per 165001 milliseconds. */
  lemma EarlyStopLimitsGrowth(t0: int, sla: Sla, inputs: seq<CustomInput>, calls: seq<Call>, k: nat)
    requires 0 < sla.responseTime && sla.minReplicas <= sla.maxReplicas
    requires CustomRun(sla, true, inputs, calls) && Feedback(t0, calls) && Monotone(t0, calls)
    requires k < |calls| && sla.minReplicas <= calls[0].current <= sla.maxReplicas
    ensures Returned(t0, calls, k) > calls[k].current ==> Returned(t0, calls, k) == calls[k].current + 1
    ensures Returned(t0, calls, |calls| - 1) - calls[0].current <= (calls[|calls| - 1].now - t0) / 165001
  {
    forall m | 0 <= m < |calls| && calls[m].verdict.Propose?
      ensures calls[m].verdict.replicas <= calls[m].current + 1
    {
      EarlyStopProposesOne(t0, sla, inputs, calls, m);
    }
    StepReturns(Fields(t0, calls[..k]), calls[k].now, calls[k].verdict, calls[k].current);
    GrowthIsCounted(t0, calls);
    ChangesTakeTime(t0, calls);
  }
}
