/** One round of the real components on one node: the recommender's loop over
    the podscales with their controllers of either kind, then the contention
    manager. Whatever is skipped or dropped on the way, it refines a round of
    the vertical loop. */
module NodeRound {
  import opened Common
  import opened Types
  import opened Allocation
  import opened Contention
  import opened Recommender
  import VL = VerticalLoop

  // ---- Controllers ---------------------------------------------------------

  /** The controller of a podscale. */
  datatype Logic = Fixed(fixed: FixedGainControlLogic) | Adaptive(adaptive: AdaptiveGainControlLogic)

  ghost function Object(logic: Logic): object
  {
    if logic.Fixed? then logic.fixed else logic.adaptive
  }

  ghost function Objects(logics: seq<Logic>): set<object>
  {
    set i | 0 <= i < |logics| :: Object(logics[i])
  }

  ghost predicate Separate(logics: seq<Logic>)
  {
    forall i, j :: 0 <= i < j < |logics| ==> Object(logics[i]) != Object(logics[j])
  }

  ghost function ControllerOf(logic: Logic): Controller
    reads Object(logic)
  {
    if logic.Fixed? then logic.fixed.State() else logic.adaptive.State()
  }

  /** What the loop sees of a podscale and its controller. */
  ghost function Abstract(scale: PodScale, logic: Logic): VL.PodLoop
    reads scale, Object(logic)
  {
    VL.PodLoop(if logic.Fixed? then VL.FixedGain else VL.AdaptiveGain,
               ControllerOf(logic), scale.desired.memory, scale.actual)
  }

  ghost function Loops(scales: seq<PodScale>, logics: seq<Logic>): (ps: seq<VL.PodLoop>)
    requires |scales| == |logics|
    reads scales, Objects(logics)
    ensures |ps| == |scales|
  {
    seq(|scales|, i requires 0 <= i < |scales| reads scales, Objects(logics) => Abstract(scales[i], logics[i]))
  }

  // ---- The recommender's loop ----------------------------------------------

  /** What the recommender sees of a pod. */
  ghost function Seen(sla: Sla, metric: Option<VL.Metric>): VL.PodInput
  {
    VL.PodInput(sla, metric, true, true)
  }

  ghost predicate Readable(sla: Sla, metric: Option<VL.Metric>)
  {
    && 0 < sla.responseTime
    && (metric.Some? ==> IsRoot(metric.value.root, AbsReal(VL.ErrorOf(Seen(sla, metric))) * 2.0))
  }

  /** The podscale recommended to a pod whose loop state was `before`. */
  ghost predicate RecommendedFrom(scale: PodScale, before: VL.PodLoop, sla: Sla, metric: Option<VL.Metric>)
    requires Readable(sla, metric) && metric.Some?
    reads scale
  {
    && scale.desired ==
       Resources(DesiredCpu(before.actual.cpu, before.controller, VL.ErrorOf(Seen(sla, metric))), before.desiredMemory)
    && scale.capped == VL.Demand(before, Seen(sla, metric)) && scale.actual == before.actual
  }

  /** A pod whose pod object, agreement or metric cannot be read is skipped. For
      a pod without its container the source drops the error and hands on nil. */
  datatype Recommendation = Skipped | NilScale | Recommended(scale: PodScale)

  /** One podscale of the node after the recommender: recommended from the loop
      state `before`, its controller moved, or neither. */
  ghost predicate Handled(entry: Option<PodScale>, pod: Pod, scale: PodScale, logic: Logic, before: VL.PodLoop,
                          sla: Sla, metric: Option<VL.Metric>)
    requires Readable(sla, metric)
    reads scale, (if entry.Some? then {entry.value} else {}), Object(logic)
  {
    && (entry.Some? <==> metric.Some? && HasContainer(pod.containers, sla.container))
    && (entry.Some? ==> entry.value.spec == scale.spec && RecommendedFrom(entry.value, before, sla, metric))
    && Abstract(scale, logic) ==
       if entry.Some? then before.(controller := VL.NextController(before, Seen(sla, metric))) else before
  }

  method RecommendContainer(pod: Pod, scale: PodScale, logic: Logic, sla: Sla, metric: Option<VL.Metric>)
    returns (result: Recommendation, ghost entry: Option<PodScale>)
    requires Readable(sla, metric)
    modifies Object(logic)
    ensures result.Skipped? <==> metric.None?
    ensures result.NilScale? <==> metric.Some? && !HasContainer(pod.containers, sla.container)
    ensures entry == if result.Recommended? then Some(result.scale) else None
    ensures entry.Some? ==> fresh(entry.value)
    ensures Handled(entry, pod, scale, logic, old(Abstract(scale, logic)), sla, metric)
  {
    hide DesiredCpu, Error, Capped;
    if metric.None? {
      return Skipped, None;
    }
    var recommended;
    match logic {
      case Fixed(fixed) =>
        recommended := fixed.ComputePodScale(pod, scale, sla, metric.value.responseTime);
      case Adaptive(adaptive) =>
        recommended := adaptive.ComputePodScale(pod, scale, sla, metric.value.responseTime, metric.value.root);
    }
    result, entry := if recommended.None? then NilScale else Recommended(recommended.value), recommended;
  }

  /** The values that are there, in order. */
  ghost function Somes<T>(xs: seq<Option<T>>): seq<T>
  {
    if |xs| == 0 then []
    else if xs[0].Some? then [xs[0].value] + Somes(xs[1..])
    else Somes(xs[1..])
  }

  lemma {:induction false} SomesAppend<T>(xs: seq<Option<T>>, x: Option<T>)
    ensures Somes(xs + [x]) == Somes(xs) + (if x.Some? then [x.value] else [])
  {
    if |xs| == 0 {
      assert xs + [x] == [x];
    } else {
      SomesAppend(xs[1..], x);
      assert (xs + [x])[1..] == xs[1..] + [x];
    }
  }

  /** No nil in the source's list so far: every pod that is not skipped has its
      container. */
  ghost predicate NoNil(pods: seq<Pod>, slas: seq<Sla>, metrics: seq<Option<VL.Metric>>, k: nat)
    requires |pods| == |slas| == |metrics| && k <= |pods|
  {
    forall i :: 0 <= i < k && metrics[i].Some? ==> HasContainer(pods[i].containers, slas[i].container)
  }

  lemma NoNilStep(pods: seq<Pod>, slas: seq<Sla>, metrics: seq<Option<VL.Metric>>, k: nat)
    requires |pods| == |slas| == |metrics| && k <= |pods|
    ensures k == 0 ==> NoNil(pods, slas, metrics, k)
    ensures k < |pods| ==>
              (NoNil(pods, slas, metrics, k + 1) <==>
                 && NoNil(pods, slas, metrics, k)
                 && (metrics[k].Some? ==> HasContainer(pods[k].containers, slas[k].container)))
  {
  }

  method NewNodeScales(node: string, list: seq<PodScale>) returns (info: NodeScales)
    ensures fresh(info) && fresh(info.data) && info.Valid() && info.PodScales() == list
  {
    var data := new PodScale[|list|](i requires 0 <= i < |list| => list[i]);
    info := new NodeScales(node, data, |list|);
  }

  /** The recommender's step on podscale `k`: it handles this one and leaves the
      others, handled or not, as they are. */
  method RecommendNext(k: nat, pods: seq<Pod>, scales: seq<PodScale>, logics: seq<Logic>, slas: seq<Sla>,
                       metrics: seq<Option<VL.Metric>>, ghost before: seq<VL.PodLoop>,
                       ghost sent: seq<Option<PodScale>>)
    returns (recommended: Recommendation, ghost entry: Option<PodScale>)
    requires |scales| == |logics| == |pods| == |slas| == |metrics| == |before| && Separate(logics)
    requires k == |sent| < |scales| && forall i :: 0 <= i < |slas| ==> Readable(slas[i], metrics[i])
    requires forall i :: 0 <= i < k ==>
               Handled(sent[i], pods[i], scales[i], logics[i], before[i], slas[i], metrics[i])
    requires forall i :: k <= i < |scales| ==> Abstract(scales[i], logics[i]) == before[i]
    modifies Object(logics[k])
    ensures recommended.Skipped? <==> metrics[k].None?
    ensures recommended.NilScale? <==> metrics[k].Some? && !HasContainer(pods[k].containers, slas[k].container)
    ensures entry == if recommended.Recommended? then Some(recommended.scale) else None
    ensures entry.Some? ==> fresh(entry.value)
    ensures forall i :: 0 <= i <= k ==>
              Handled((sent + [entry])[i], pods[i], scales[i], logics[i], before[i], slas[i], metrics[i])
    ensures forall i :: k < i < |scales| ==> Abstract(scales[i], logics[i]) == before[i]
  {
    hide Handled, RecommendedFrom, Readable, Abstract, HasContainer;
    recommended, entry := RecommendContainer(pods[k], scales[k], logics[k], slas[k], metrics[k]);
    forall i | 0 <= i < k
      ensures Handled(sent[i], pods[i], scales[i], logics[i], before[i], slas[i], metrics[i])
    {
      assert old(Handled(sent[i], pods[i], scales[i], logics[i], before[i], slas[i], metrics[i]));
      assert Object(logics[i]) != Object(logics[k]);
    }
  }

  /** The list sent to the contention manager, also by position: None where a
      pod was skipped. `whole` is false when the source's list holds a nil. */
  method RecommendNode(node: string, scales: seq<PodScale>, logics: seq<Logic>, pods: seq<Pod>, slas: seq<Sla>,
                       metrics: seq<Option<VL.Metric>>)
    returns (info: NodeScales, whole: bool, ghost sent: seq<Option<PodScale>>)
    requires |scales| == |logics| == |pods| == |slas| == |metrics| && Separate(logics)
    requires forall i :: 0 <= i < |slas| ==> Readable(slas[i], metrics[i])
    modifies Objects(logics)
    ensures fresh(info) && fresh(info.data) && info.Valid() && info.PodScales() == Somes(sent)
    ensures |sent| == |scales| && forall i :: 0 <= i < |scales| && sent[i].Some? ==> fresh(sent[i].value)
    ensures forall i :: 0 <= i < info.len ==> fresh(info.data[i])
    ensures whole <==> NoNil(pods, slas, metrics, |scales|)
    ensures forall i :: 0 <= i < |scales| ==>
              Handled(sent[i], pods[i], scales[i], logics[i], old(Loops(scales, logics))[i], slas[i], metrics[i])
  {
    hide Handled, RecommendedFrom, Readable, Abstract, HasContainer, NoNil;
    ghost var before := Loops(scales, logics);
    var newPodScales: seq<PodScale> := [];
    whole, sent := true, [];
    NoNilStep(pods, slas, metrics, 0);
    for k := 0 to |scales|
      invariant |sent| == k && newPodScales == Somes(sent)
      invariant whole <==> NoNil(pods, slas, metrics, k)
      invariant forall i :: 0 <= i < k && sent[i].Some? ==> fresh(sent[i].value)
      invariant forall i :: 0 <= i < |newPodScales| ==> fresh(newPodScales[i])
      invariant forall i :: 0 <= i < k ==>
                  Handled(sent[i], pods[i], scales[i], logics[i], before[i], slas[i], metrics[i])
      invariant forall i :: k <= i < |scales| ==> Abstract(scales[i], logics[i]) == before[i]
    {
      var recommended, entry := RecommendNext(k, pods, scales, logics, slas, metrics, before, sent);
      NoNilStep(pods, slas, metrics, k);
      SomesAppend(sent, entry);
      sent := sent + [entry];
      match recommended {
        case Skipped =>
        case NilScale => whole := false;
        case Recommended(scale) => newPodScales := newPodScales + [scale];
      }
    }
    info := NewNodeScales(node, newPodScales);
  }

  // ---- What the contention manager keeps -----------------------------------

  /** Podscales of pods that are not Guaranteed fall out of the list. */
  ghost function Undemoted(sent: seq<Option<PodScale>>, nodePods: seq<Pod>): (kept: seq<Option<PodScale>>)
    ensures |kept| == |sent|
  {
    seq(|sent|, i requires 0 <= i < |sent| =>
      if sent[i].Some? && Demoted(sent[i].value.spec.key, nodePods) then None else sent[i])
  }

  lemma {:induction false} SurvivorsOfSomes(sent: seq<Option<PodScale>>, nodePods: seq<Pod>)
    ensures Survivors(Somes(sent), nodePods) == Somes(Undemoted(sent, nodePods))
  {
    if |sent| == 0 {
    } else {
      SurvivorsOfSomes(sent[1..], nodePods);
      assert Undemoted(sent, nodePods)[1..] == Undemoted(sent[1..], nodePods);
      assert sent[0].Some? ==> Somes(sent)[1..] == Somes(sent[1..]);
    }
  }

  lemma {:induction false} SomeOf<T>(xs: seq<Option<T>>, j: nat) returns (i: nat)
    requires j < |Somes(xs)|
    ensures i < |xs| && xs[i] == Some(Somes(xs)[j])
  {
    if xs[0].Some? && j == 0 {
      i := 0;
    } else {
      i := SomeOf(xs[1..], if xs[0].Some? then j - 1 else j);
      i := i + 1;
    }
  }

  /** A value that is there is in the list. */
  lemma {:induction false} InSomes<T>(xs: seq<Option<T>>, i: nat)
    requires i < |xs| && xs[i].Some?
    ensures xs[i].value in Somes(xs)
  {
    if i == 0 {
    } else {
      InSomes(xs[1..], i - 1);
    }
  }

  ghost predicate SpecsOf(sent: seq<Option<PodScale>>, scales: seq<PodScale>)
  {
    |sent| == |scales| && forall i :: 0 <= i < |sent| && sent[i].Some? ==> sent[i].value.spec == scales[i].spec
  }

  lemma {:induction false} SentAreDistinct(sent: seq<Option<PodScale>>, scales: seq<PodScale>)
    requires SpecsOf(sent, scales) && OnePodScalePerPod(scales)
    ensures OnePodScalePerPod(Somes(sent))
  {
    if |sent| == 0 {
    } else {
      assert forall i :: 0 <= i < |scales[1..]| ==> scales[1..][i] == scales[i + 1];
      SentAreDistinct(sent[1..], scales[1..]);
      var rest := Somes(sent[1..]);
      forall j | 0 <= j < |rest| && sent[0].Some? ensures rest[j].spec.key != sent[0].value.spec.key {
        var i := SomeOf(sent[1..], j);
        assert sent[i + 1] == Some(rest[j]);
      }
    }
  }

  ghost predicate SameSome<T, U>(xs: seq<Option<T>>, ys: seq<Option<U>>)
  {
    |xs| == |ys| && forall i :: 0 <= i < |xs| ==> (xs[i].Some? <==> ys[i].Some?)
  }

  ghost predicate SameSpecs(a: seq<PodScale>, b: seq<PodScale>)
  {
    |a| == |b| && forall i :: 0 <= i < |a| ==> a[i].spec == b[i].spec
  }

  lemma {:induction false} OutsideDependsOnSpecs(pods: seq<Pod>, a: seq<PodScale>, b: seq<PodScale>)
    requires SameSpecs(a, b)
    ensures RequestsOutside(pods, a) == RequestsOutside(pods, b)
    ensures forall key :: Listed(a, key) == Listed(b, key)
  {
    if |pods| == 0 {
    } else {
      OutsideDependsOnSpecs(pods[..|pods| - 1], a, b);
    }
  }

  lemma {:induction false} SomesSameSpecs(a: seq<Option<PodScale>>, b: seq<Option<PodScale>>)
    requires |a| == |b|
    requires forall i :: 0 <= i < |a| ==>
               (a[i].Some? <==> b[i].Some?) && (a[i].Some? ==> a[i].value.spec == b[i].value.spec)
    ensures SameSpecs(Somes(a), Somes(b))
  {
    if |a| == 0 {
    } else {
      SomesSameSpecs(a[1..], b[1..]);
    }
  }

  // ---- The round's input ---------------------------------------------------

  /** What the loop is told about each pod. */
  ghost function PodInputs(scales: seq<PodScale>, nodePods: seq<Pod>, slas: seq<Sla>, metrics: seq<Option<VL.Metric>>,
                           reached: seq<bool>): (pods: seq<VL.PodInput>)
    requires |scales| == |slas| == |metrics| == |reached|
    ensures |pods| == |scales|
  {
    seq(|scales|, i requires 0 <= i < |scales| =>
      VL.PodInput(slas[i], metrics[i], !Demoted(scales[i].spec.key, nodePods), reached[i]))
  }

  /** The podscales of pods that take part in the round, by position. */
  ghost function Present(scales: seq<PodScale>, nodePods: seq<Pod>, metrics: seq<Option<VL.Metric>>)
    : (present: seq<Option<PodScale>>)
    requires |scales| == |metrics|
    ensures |present| == |scales|
  {
    seq(|scales|, i requires 0 <= i < |scales| =>
      if metrics[i].None? || Demoted(scales[i].spec.key, nodePods) then None else Some(scales[i]))
  }

  /** What is left of the node beside the pods that take part. */
  ghost function Room(capacity: Resources, scales: seq<PodScale>, nodePods: seq<Pod>, metrics: seq<Option<VL.Metric>>)
    : Resources
    requires |scales| == |metrics|
  {
    Minus(capacity, RequestsOutside(nodePods, Somes(Present(scales, nodePods, metrics))))
  }

  /** What the podscales of absent pods record. */
  ghost function AbsentActual(before: seq<VL.PodLoop>, present: seq<Option<PodScale>>): (rs: seq<Resources>)
    requires |before| == |present|
    ensures |rs| == |before|
  {
    seq(|before|, i requires 0 <= i < |before| =>
      if present[i].None? then before[i].actual else Resources(0, 0))
  }

  /** The capacity the loop works with is the room of the round and what the
      podscales of absent pods record. */
  ghost function InputOf(capacity: Resources, scales: seq<PodScale>, before: seq<VL.PodLoop>, nodePods: seq<Pod>,
                         slas: seq<Sla>, metrics: seq<Option<VL.Metric>>, reached: seq<bool>): (input: VL.RoundInput)
    requires |scales| == |before| == |slas| == |metrics| == |reached|
    ensures |input.pods| == |scales|
  {
    VL.RoundInput(Plus(Room(capacity, scales, nodePods, metrics),
                       Total(AbsentActual(before, Present(scales, nodePods, metrics)))),
                  PodInputs(scales, nodePods, slas, metrics, reached))
  }

  ghost predicate ValidAgreements(slas: seq<Sla>, metrics: seq<Option<VL.Metric>>)
    requires |slas| == |metrics|
  {
    forall i :: 0 <= i < |slas| ==> VL.ValidPodInput(Seen(slas[i], metrics[i]))
  }

  lemma InputIsValid(capacity: Resources, scales: seq<PodScale>, before: seq<VL.PodLoop>, nodePods: seq<Pod>,
                     slas: seq<Sla>, metrics: seq<Option<VL.Metric>>, reached: seq<bool>)
    requires |scales| == |before| == |slas| == |metrics| == |reached| && ValidAgreements(slas, metrics)
    ensures VL.ValidInput(InputOf(capacity, scales, before, nodePods, slas, metrics, reached), |before|)
  {
    var input := InputOf(capacity, scales, before, nodePods, slas, metrics, reached);
    forall i | 0 <= i < |scales| ensures VL.ValidPodInput(input.pods[i]) {
      assert VL.ValidPodInput(Seen(slas[i], metrics[i]));
    }
  }

  lemma AllocatableIsRoom(capacity: Resources, scales: seq<PodScale>, before: seq<VL.PodLoop>, nodePods: seq<Pod>,
                          slas: seq<Sla>, metrics: seq<Option<VL.Metric>>, reached: seq<bool>)
    requires |scales| == |before| == |slas| == |metrics| == |reached| && ValidAgreements(slas, metrics)
    ensures var input := InputOf(capacity, scales, before, nodePods, slas, metrics, reached);
            VL.ValidInput(input, |before|) && VL.Allocatable(before, input) == Room(capacity, scales, nodePods, metrics)
  {
    var input := InputOf(capacity, scales, before, nodePods, slas, metrics, reached);
    InputIsValid(capacity, scales, before, nodePods, slas, metrics, reached);
    TotalComponents(AbsentActual(before, Present(scales, nodePods, metrics)),
                    VL.CpuReserved(before, input), VL.MemoryReserved(before, input));
  }

  // ---- Refinement ----------------------------------------------------------

  ghost function ScalesOf(sent: seq<Option<PodScale>>): set<object>
  {
    set i | 0 <= i < |sent| && sent[i].Some? :: sent[i].value
  }

  /** The stored podscales and the controllers after the feedback of a round. */
  ghost function Fed(scales: seq<PodScale>, sent: seq<Option<PodScale>>, logics: seq<Logic>, reached: seq<bool>)
    : (ps: seq<VL.PodLoop>)
    requires |scales| == |sent| == |logics| == |reached|
    reads scales, ScalesOf(sent), Objects(logics)
    ensures |ps| == |scales|
  {
    seq(|scales|, i requires 0 <= i < |scales|
                  reads scales, ScalesOf(sent), Objects(logics) =>
      Abstract(if sent[i].Some? && reached[i] then sent[i].value else scales[i], logics[i]))
  }

  /** A podscale as the loop expects it when the round is solved. */
  ghost predicate Prepared(scale: PodScale, sent: Option<PodScale>, logic: Logic, before: VL.PodLoop,
                           input: VL.PodInput)
    requires 0 < input.sla.responseTime
    reads scale, (if sent.Some? then {sent.value} else {}), Object(logic)
  {
    && (sent.Some? <==> !VL.Absent(input))
    && Abstract(scale, logic) == before.(controller := VL.NextController(before, input))
    && (sent.Some? ==>
          sent.value.capped == VL.Demand(before, input) && sent.value.desired.memory == before.desiredMemory)
  }

  lemma DemandsHead(list: seq<PodScale>)
    requires 0 < |list|
    ensures Sum(CpuDemands(list)) == list[0].capped.cpu + Sum(CpuDemands(list[1..]))
    ensures Sum(MemoryDemands(list)) == list[0].capped.memory + Sum(MemoryDemands(list[1..]))
  {
    SumHead(CpuDemands(list));
    SumHead(MemoryDemands(list));
    assert CpuDemands(list)[1..] == CpuDemands(list[1..]);
    assert MemoryDemands(list)[1..] == MemoryDemands(list[1..]);
  }

  lemma {:induction false} SomesSum(sent: seq<Option<PodScale>>, cpu: seq<int>, memory: seq<int>)
    requires |sent| == |cpu| == |memory|
    requires forall i :: 0 <= i < |sent| ==>
               Resources(cpu[i], memory[i]) == if sent[i].Some? then sent[i].value.capped else Resources(0, 0)
    ensures Sum(CpuDemands(Somes(sent))) == Sum(cpu) && Sum(MemoryDemands(Somes(sent))) == Sum(memory)
  {
    hide CpuDemands, MemoryDemands;
    if |sent| == 0 {
      assert Sum(CpuDemands(Somes(sent))) == 0 && Sum(MemoryDemands(Somes(sent))) == 0;
    } else {
      SomesSum(sent[1..], cpu[1..], memory[1..]);
      SumHead(cpu);
      SumHead(memory);
      if sent[0].Some? {
        assert Somes(sent)[1..] == Somes(sent[1..]);
        DemandsHead(Somes(sent));
      }
    }
  }

  lemma DemandOf(before: VL.PodLoop, input: VL.PodInput)
    requires 0 < input.sla.responseTime
    ensures VL.Absent(input) ==> VL.Demand(before, input) == Resources(0, 0)
  {
  }

  lemma SolvedMember(list: seq<PodScale>, room: Resources, scale: PodScale)
    requires 0 <= room.cpu && 0 <= room.memory && Solved(list, room) && scale in list
    ensures scale.actual == Resources(Share(scale.capped.cpu, Sum(CpuDemands(list)), room.cpu),
                                      Share(scale.capped.memory, Sum(MemoryDemands(list)), room.memory))
  {
    var i :| 0 <= i < |list| && list[i] == scale;
  }

  /** Every solved podscale has the share that the loop gives to its pod. */
  lemma SolvedShares(sent: seq<Option<PodScale>>, before: seq<VL.PodLoop>, input: VL.RoundInput)
    requires |sent| == |before| && VL.ValidInput(input, |before|) && VL.Admissible(before, input)
    requires forall i :: 0 <= i < |before| ==>
               VL.Demand(before[i], input.pods[i]) == if sent[i].Some? then sent[i].value.capped else Resources(0, 0)
    requires Solved(Somes(sent), VL.Allocatable(before, input))
    ensures forall i :: 0 <= i < |sent| && sent[i].Some? ==>
              sent[i].value.actual == Resources(VL.CpuShares(before, input)[i], VL.MemoryShares(before, input)[i])
  {
    hide Proportional, VL.Demand;
    SomesSum(sent, VL.CpuDemands(before, input), VL.MemoryDemands(before, input));
    forall i | 0 <= i < |sent| && sent[i].Some?
      ensures sent[i].value.actual == Resources(VL.CpuShares(before, input)[i], VL.MemoryShares(before, input)[i])
    {
      InSomes(sent, i);
      SolvedMember(Somes(sent), VL.Allocatable(before, input), sent[i].value);
    }
  }

  /** A solved list of recommendations is the loop's next state, once fed back. */
  lemma SolvedIsRound(scales: seq<PodScale>, sent: seq<Option<PodScale>>, logics: seq<Logic>,
                      before: seq<VL.PodLoop>, input: VL.RoundInput, reached: seq<bool>)
    requires |scales| == |sent| == |logics| == |before| == |reached| && VL.ValidInput(input, |before|)
    requires forall i :: 0 <= i < |before| ==>
               Prepared(scales[i], sent[i], logics[i], before[i], input.pods[i]) && input.pods[i].reached == reached[i]
    requires VL.Admissible(before, input) ==> Solved(Somes(sent), VL.Allocatable(before, input))
    ensures Fed(scales, if VL.Admissible(before, input) then sent else seq(|sent|, i => None), logics, reached) ==
            VL.Round(before, input)
  {
    hide Solved, VL.Demand, VL.NextController, VL.CpuShares, VL.MemoryShares, ScalesOf, Objects, Somes;
    forall i | 0 <= i < |sent|
      ensures VL.Demand(before[i], input.pods[i]) == if sent[i].Some? then sent[i].value.capped else Resources(0, 0)
    {
      assert Prepared(scales[i], sent[i], logics[i], before[i], input.pods[i]);
      DemandOf(before[i], input.pods[i]);
    }
    if VL.Admissible(before, input) {
      SolvedShares(sent, before, input);
    }
  }

  /** What the recommender handled is what the loop expects, less the podscales
      that the contention manager drops. */
  lemma HandledIsPrepared(entry: Option<PodScale>, kept: Option<PodScale>, pod: Pod, scale: PodScale, logic: Logic,
                          before: VL.PodLoop, input: VL.PodInput)
    requires Readable(input.sla, input.metric)
    requires Handled(entry, pod, scale, logic, before, input.sla, input.metric)
    requires input.metric.Some? ==> HasContainer(pod.containers, input.sla.container)
    requires kept == if input.guaranteed then entry else None
    ensures Prepared(scale, kept, logic, before, input)
  {
    hide DesiredCpu, Error, Capped;
  }

  /** The list the contention manager solves is the present podscales. */
  lemma KeptArePresent(sent: seq<Option<PodScale>>, scales: seq<PodScale>, nodePods: seq<Pod>,
                       metrics: seq<Option<VL.Metric>>)
    requires SpecsOf(sent, scales) && OnePodScalePerPod(scales) && DistinctPods(nodePods) && |metrics| == |scales|
    requires forall i :: 0 <= i < |scales| ==> (sent[i].Some? <==> metrics[i].Some?)
    ensures Kept(Somes(sent), nodePods) == Somes(Undemoted(sent, nodePods))
    ensures Untracked(Somes(sent), nodePods) == RequestsOutside(nodePods, Somes(Present(scales, nodePods, metrics)))
  {
    SentAreDistinct(sent, scales);
    KeptIsFilter(Somes(sent), nodePods);
    SurvivorsOfSomes(sent, nodePods);
    UntrackedIsOutside(Somes(sent), nodePods, nodePods);
    var kept, present := Undemoted(sent, nodePods), Present(scales, nodePods, metrics);
    SomesSameSpecs(kept, present);
    OutsideDependsOnSpecs(nodePods, Somes(kept), Somes(present));
  }

  /** Every podscale of the node as the loop expects it, whoever is reached. */
  ghost predicate AllPrepared(scales: seq<PodScale>, kept: seq<Option<PodScale>>, logics: seq<Logic>,
                              before: seq<VL.PodLoop>, pods: seq<VL.PodInput>)
    requires |scales| == |kept| == |logics| == |before| == |pods|
    reads scales, ScalesOf(kept), Objects(logics)
  {
    forall i :: 0 <= i < |scales| ==>
      0 < pods[i].sla.responseTime && Prepared(scales[i], kept[i], logics[i], before[i], pods[i])
  }

  /** After the recommender: what every podscale and controller of the node is
      to the loop, and what the contention manager will make of the list. */
  lemma HandledNode(sent: seq<Option<PodScale>>, pods: seq<Pod>, scales: seq<PodScale>, logics: seq<Logic>,
                    before: seq<VL.PodLoop>, nodePods: seq<Pod>, slas: seq<Sla>, metrics: seq<Option<VL.Metric>>,
                    reached: seq<bool>)
    requires |sent| == |pods| == |scales| == |logics| == |before| == |slas| == |metrics| == |reached|
    requires OnePodScalePerPod(scales) && DistinctPods(nodePods) && NoNil(pods, slas, metrics, |scales|)
    requires forall i :: 0 <= i < |slas| ==> Readable(slas[i], metrics[i])
    requires forall i :: 0 <= i < |scales| ==>
               Handled(sent[i], pods[i], scales[i], logics[i], before[i], slas[i], metrics[i])
    ensures AllPrepared(scales, Undemoted(sent, nodePods), logics, before,
                        PodInputs(scales, nodePods, slas, metrics, reached))
    ensures SpecsOf(Undemoted(sent, nodePods), scales)
    ensures SameSome(Undemoted(sent, nodePods), Present(scales, nodePods, metrics))
    ensures Kept(Somes(sent), nodePods) == Somes(Undemoted(sent, nodePods))
    ensures Untracked(Somes(sent), nodePods) == RequestsOutside(nodePods, Somes(Present(scales, nodePods, metrics)))
  {
    hide RecommendedFrom, VL.NextController, VL.Demand, HasContainer, Abstract, Demoted, Prepared;
    KeptArePresent(sent, scales, nodePods, metrics);
    var inputs := PodInputs(scales, nodePods, slas, metrics, reached);
    forall i | 0 <= i < |scales|
      ensures 0 < inputs[i].sla.responseTime
              && Prepared(scales[i], Undemoted(sent, nodePods)[i], logics[i], before[i], inputs[i])
    {
      HandledIsPrepared(sent[i], Undemoted(sent, nodePods)[i], pods[i], scales[i], logics[i], before[i], inputs[i]);
    }
  }

  lemma NotSent(sent: seq<Option<PodScale>>, scale: PodScale)
    requires forall j :: 0 <= j < |sent| && sent[j].Some? ==> scale != sent[j].value
    ensures scale !in Somes(sent)
  {
    if scale in Somes(sent) {
      var j :| 0 <= j < |Somes(sent)| && Somes(sent)[j] == scale;
      var i := SomeOf(sent, j);
    }
  }

  /** The contention manager's half of the round. */
  method SolveNode(capacity: Resources, nodePods: seq<Pod>, info: NodeScales, ghost sent: seq<Option<PodScale>>,
                   ghost scales: seq<PodScale>, ghost logics: seq<Logic>, ghost before: seq<VL.PodLoop>,
                   ghost pods: seq<VL.PodInput>) returns (ok: bool)
    requires |scales| == |sent| == |logics| == |before| == |pods|
    requires info.Valid() && info.PodScales() == Somes(sent)
    requires forall i, j :: 0 <= i < |scales| && 0 <= j < |sent| && sent[j].Some? ==> scales[i] != sent[j].value
    requires AllPrepared(scales, Undemoted(sent, nodePods), logics, before, pods)
    requires Kept(Somes(sent), nodePods) == Somes(Undemoted(sent, nodePods))
    modifies info`len, info.data, (set i | 0 <= i < info.len :: info.data[i])`actual
    ensures var room := Minus(capacity, Untracked(Somes(sent), nodePods));
            && (ok <==> 0 <= room.cpu && 0 <= room.memory)
            && (ok ==> && info.Valid() && info.PodScales() == Somes(Undemoted(sent, nodePods))
                       && Solved(info.PodScales(), room))
    ensures info.Valid() && AllPrepared(scales, Undemoted(sent, nodePods), logics, before, pods)
  {
    hide VL.Demand, VL.NextController, Solved, Kept, Untracked, Somes;
    ghost var kept, list := Undemoted(sent, nodePods), info.PodScales();
    ok := ProcessNode(capacity, info, nodePods);
    forall i | 0 <= i < |scales|
      ensures 0 < pods[i].sla.responseTime && Prepared(scales[i], kept[i], logics[i], before[i], pods[i])
    {
      assert old(Prepared(scales[i], kept[i], logics[i], before[i], pods[i]));
      assert scales[i] !in list by { NotSent(sent, scales[i]); }
    }
  }

  /** Whoever the updater reaches, the solved round is the loop's. */
  lemma RoundForReached(capacity: Resources, scales: seq<PodScale>, kept: seq<Option<PodScale>>, logics: seq<Logic>,
                        before: seq<VL.PodLoop>, nodePods: seq<Pod>, slas: seq<Sla>, metrics: seq<Option<VL.Metric>>,
                        some: seq<bool>, reached: seq<bool>, ok: bool)
    requires |scales| == |kept| == |logics| == |before| == |slas| == |metrics| == |some| == |reached|
    requires ValidAgreements(slas, metrics)
    requires AllPrepared(scales, kept, logics, before, PodInputs(scales, nodePods, slas, metrics, some))
    requires var room := Room(capacity, scales, nodePods, metrics);
             && (ok <==> 0 <= room.cpu && 0 <= room.memory)
             && (ok ==> Solved(Somes(kept), room))
    ensures var input := InputOf(capacity, scales, before, nodePods, slas, metrics, reached);
            && VL.ValidInput(input, |before|) && (ok <==> VL.Admissible(before, input))
            && Fed(scales, if ok then kept else seq(|kept|, i => None), logics, reached) == VL.Round(before, input)
  {
    hide Solved, Room, VL.Allocatable;
    var input := InputOf(capacity, scales, before, nodePods, slas, metrics, reached);
    AllocatableIsRoom(capacity, scales, before, nodePods, slas, metrics, reached);
    forall i | 0 <= i < |scales|
      ensures Prepared(scales[i], kept[i], logics[i], before[i], input.pods[i])
    {
      var seen := PodInputs(scales, nodePods, slas, metrics, some)[i];
      assert Prepared(scales[i], kept[i], logics[i], before[i], seen);
      assert input.pods[i] == seen.(reached := reached[i]);
    }
    SolvedIsRound(scales, kept, logics, before, input, reached);
  }

  /** Recommend and solve. `ok` is false when the source would stop on a nil: in
      its list of podscales, or in place of a contention manager. Otherwise,
      whichever of the solved podscales the updater then stores, the stored
      podscales and the controllers are the loop's next state. */
  method Round(node: string, capacity: Resources, nodePods: seq<Pod>, scales: seq<PodScale>, logics: seq<Logic>,
               pods: seq<Pod>, slas: seq<Sla>, metrics: seq<Option<VL.Metric>>)
    returns (info: NodeScales, ok: bool, ghost sent: seq<Option<PodScale>>)
    requires |scales| == |logics| == |pods| == |slas| == |metrics|
    requires Separate(logics) && OnePodScalePerPod(scales) && DistinctPods(nodePods) && ValidAgreements(slas, metrics)
    modifies Objects(logics)
    ensures fresh(info) && info.Valid() && SpecsOf(sent, scales)
    ensures ok ==> info.PodScales() == Somes(sent) && SameSome(sent, Present(scales, nodePods, metrics))
    ensures var room := Room(capacity, scales, nodePods, metrics);
            ok <==> NoNil(pods, slas, metrics, |scales|) && 0 <= room.cpu && 0 <= room.memory
    ensures NoNil(pods, slas, metrics, |scales|) ==>
              forall reached: seq<bool> | |reached| == |scales| ::
                var before := old(Loops(scales, logics));
                var input := InputOf(capacity, scales, before, nodePods, slas, metrics, reached);
                VL.ValidInput(input, |scales|) && Fed(scales, sent, logics, reached) == VL.Round(before, input)
  {
    hide Handled, Prepared, AllPrepared, VL.ValidPodInput, VL.Round, VL.Admissible, Fed, Kept, Untracked, Present,
      HasContainer, Demoted, NoNil, Somes, Solved;
    ghost var before := Loops(scales, logics);
    forall i | 0 <= i < |slas| ensures Readable(slas[i], metrics[i]) {
      ValidIsReadable(Seen(slas[i], metrics[i]));
    }
    var whole;
    info, whole, sent := RecommendNode(node, scales, logics, pods, slas, metrics);
    if !whole {
      return info, false, seq(|scales|, i => None);
    }
    ghost var some := seq(|scales|, i => true);
    HandledNode(sent, pods, scales, logics, before, nodePods, slas, metrics, some);
    ok := SolveNode(capacity, nodePods, info, sent, scales, logics, before,
                    PodInputs(scales, nodePods, slas, metrics, some));
    ghost var kept := Undemoted(sent, nodePods);
    forall reached: seq<bool> | |reached| == |scales|
      ensures var input := InputOf(capacity, scales, before, nodePods, slas, metrics, reached);
              && VL.ValidInput(input, |scales|)
              && Fed(scales, if ok then kept else seq(|kept|, i => None), logics, reached) == VL.Round(before, input)
    {
      RoundForReached(capacity, scales, kept, logics, before, nodePods, slas, metrics, some, reached, ok);
    }
    sent := if ok then kept else seq(|kept|, i => None);
  }

  lemma ValidIsReadable(input: VL.PodInput)
    requires VL.ValidPodInput(input)
    ensures Readable(input.sla, input.metric)
  {
  }
}
