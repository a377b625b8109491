/** The loop closed over the stores: recommend, solve and write back on the real
    objects is one round of the vertical loop on the stored podscales, and leaves
    the pods of the node within its budget. */
module ClosedLoop {
  import opened Common
  import opened Types
  import opened Allocation
  import opened Contention
  import opened UpdateWorker
  import opened Feedback
  import opened NodeRound
  import opened NodeBudget
  import VL = VerticalLoop

  // ---- The stored podscales ------------------------------------------------

  ghost function ValueOf(scale: PodScale): ScaleValue
    reads scale
  {
    ScaleValue(scale.spec, scale.desired, scale.capped, scale.actual)
  }

  /** The listed podscales are the stored ones. */
  ghost predicate Mirrors(stored: map<Key, StoredScale>, scales: seq<PodScale>)
    reads scales
  {
    forall i :: 0 <= i < |scales| ==>
      scales[i].spec.key in stored && stored[scales[i].spec.key].scale == ValueOf(scales[i])
  }

  /** What the loop sees of the stored podscales and their controllers. */
  ghost function StoredLoops(stored: map<Key, StoredScale>, scales: seq<PodScale>, logics: seq<Logic>)
    : (ps: seq<VL.PodLoop>)
    requires |scales| == |logics| && forall i :: 0 <= i < |scales| ==> scales[i].spec.key in stored
    reads Objects(logics)
    ensures |ps| == |scales|
  {
    seq(|scales|, i requires 0 <= i < |scales| reads Objects(logics) =>
      var value := stored[scales[i].spec.key].scale;
      VL.PodLoop(if logics[i].Fixed? then VL.FixedGain else VL.AdaptiveGain,
                 ControllerOf(logics[i]), value.desired.memory, value.actual))
  }

  ghost predicate StoredAs(stored: map<Key, StoredScale>, scales: seq<PodScale>, sent: seq<Option<PodScale>>,
                           reached: seq<bool>)
    requires |scales| == |sent| == |reached|
    reads scales, ScalesOf(sent)
  {
    forall i :: 0 <= i < |scales| ==>
      && scales[i].spec.key in stored
      && stored[scales[i].spec.key].scale == ValueOf(if sent[i].Some? && reached[i] then sent[i].value else scales[i])
  }

  lemma {:induction false} SomesAreFewer<T>(xs: seq<Option<T>>)
    ensures |Somes(xs)| <= |xs|
  {
    if |xs| == 0 {
    } else {
      SomesAreFewer(xs[1..]);
    }
  }

  lemma SentItems(scales: seq<PodScale>, sent: seq<Option<PodScale>>, versions: seq<nat>)
    requires SpecsOf(sent, scales) && OnePodScalePerPod(scales) && |versions| == |Somes(sent)|
    ensures DistinctItems(Snapshot(Somes(sent), versions))
    ensures forall i, j ::
              0 <= i < |scales| && 0 <= j < |Somes(sent)| && Somes(sent)[j].spec.key == scales[i].spec.key ==>
                sent[i] == Some(Somes(sent)[j])
  {
    SentAreDistinct(sent, scales);
    forall i, j | 0 <= i < |scales| && 0 <= j < |Somes(sent)| && Somes(sent)[j].spec.key == scales[i].spec.key
      ensures sent[i] == Some(Somes(sent)[j])
    {
      var k := SomeOf(sent, j);
      assert scales[k].spec.key == scales[i].spec.key;
    }
  }

  /** Each stored podscale is, after the worker, the one sent or the old one. */
  lemma FedByWorker(st: Stores, cache: map<Key, StoredPod>, scales: seq<PodScale>, sent: seq<Option<PodScale>>,
                    versions: seq<nat>, nets: seq<Net>) returns (reached: seq<bool>)
    requires SpecsOf(sent, scales) && OnePodScalePerPod(scales) && |versions| == |nets| == |Somes(sent)|
    requires Traceable(st, cache) && Mirrors(st.scales, scales)
    ensures |reached| == |scales|
    ensures StoredAs(Work(st, cache, Snapshot(Somes(sent), versions), nets).0.scales, scales, sent, reached)
  {
    hide Work, Traceable, Clear, OnePodScalePerPod, Left, Somes;
    var items := Snapshot(Somes(sent), versions);
    var stored := Work(st, cache, items, nets).0.scales;
    SentItems(scales, sent, versions);
    var k, torn := WorkLeavesPrefix(st, cache, items, nets);
    reached := seq(|scales|, i requires 0 <= i < |scales| reads ScalesOf(sent) =>
      sent[i].Some? && scales[i].spec.key in stored && stored[scales[i].spec.key].scale == ValueOf(sent[i].value));
    forall i | 0 <= i < |scales|
      ensures scales[i].spec.key in stored
      ensures stored[scales[i].spec.key].scale ==
              ValueOf(if sent[i].Some? && reached[i] then sent[i].value else scales[i])
    {
      if sent[i].Some? {
        InSomes(sent, i);
        var j :| 0 <= j < |Somes(sent)| && Somes(sent)[j] == sent[i].value;
        assert Done(st, Work(st, cache, items, nets).0, cache, items[j], j < k, torn && j == k - 1);
      } else {
        assert forall j :: 0 <= j < |items| ==> items[j].scale.spec.key != scales[i].spec.key;
        assert Same(st, Work(st, cache, items, nets).0, scales[i].spec.key);
      }
    }
  }

  lemma StoredIsFed(stored: map<Key, StoredScale>, scales: seq<PodScale>, sent: seq<Option<PodScale>>,
                    logics: seq<Logic>, reached: seq<bool>)
    requires |scales| == |sent| == |logics| == |reached| && StoredAs(stored, scales, sent, reached)
    ensures forall i :: 0 <= i < |scales| ==> scales[i].spec.key in stored
    ensures SpecsOf(sent, scales) ==>
              forall i :: 0 <= i < |scales| ==> stored[scales[i].spec.key].scale.spec == scales[i].spec
    ensures StoredLoops(stored, scales, logics) == Fed(scales, sent, logics, reached)
  {
  }

  lemma MirroredLoops(stored: map<Key, StoredScale>, scales: seq<PodScale>, logics: seq<Logic>)
    requires |scales| == |logics| && Mirrors(stored, scales)
    ensures Loops(scales, logics) == StoredLoops(stored, scales, logics)
  {
  }

  lemma MirroredUnreached(stored: map<Key, StoredScale>, scales: seq<PodScale>, sent: seq<Option<PodScale>>,
                          reached: seq<bool>)
    requires |scales| == |sent| == |reached| && Mirrors(stored, scales)
    requires forall i :: 0 <= i < |reached| ==> !reached[i]
    ensures StoredAs(stored, scales, sent, reached)
  {
  }

  /** The versions at which the podscales of a list were read. */
  method VersionsOf(list: seq<PodScale>, versions: map<Key, nat>) returns (vs: seq<nat>)
    requires forall j :: 0 <= j < |list| ==> list[j].spec.key in versions
    ensures |vs| == |list|
  {
    vs := seq(|list|, j requires 0 <= j < |list| => versions[list[j].spec.key]);
  }

  /** The updater's half of the round, and what it does to the pods of the node. */
  method WriteBack(server: ApiServer, cache: map<Key, StoredPod>, versions: map<Key, nat>, nets: seq<Net>,
                   info: NodeScales, ghost hosted: seq<Key>, ghost scales: seq<PodScale>,
                   ghost sent: seq<Option<PodScale>>, ghost shares: seq<Resources>)
    returns (ghost reached: seq<bool>)
    requires |scales| == |nets| == |shares| && SpecsOf(sent, scales) && OnePodScalePerPod(scales)
    requires forall i :: 0 <= i < |scales| ==> scales[i].spec.key in versions
    requires info.Valid() && info.PodScales() == Somes(sent)
    requires Traceable(server.State(), cache) && Mirrors(server.scales, scales) && Hosts(server.State(), hosted)
    requires forall i :: 0 <= i < |scales| && sent[i].Some? ==> sent[i].value.actual == shares[i]
    modifies server
    ensures |reached| == |scales| && StoredAs(server.scales, scales, sent, reached)
    ensures forall other :: Preserves(old(server.State()), server.State(), cache, other)
    ensures Hosts(server.State(), hosted)
    ensures var before, after := old(PodsAt(server.pods, hosted)), PodsAt(server.pods, hosted);
            && (forall i :: 0 <= i < |scales| ==>
                  Settled(before, after, scales[i].spec, sent[i].Some?, shares[i]))
            && RequestsOutside(before, scales) == RequestsOutside(after, scales)
  {
    hide Work, Traceable, OnePodScalePerPod, StoredAs, Somes, Settled, Preserves, RequestsOutside, Hosts, PodsAt;
    ghost var st := server.State();
    SomesAreFewer(sent);
    var n := info.len;
    var list := info.data[..n];
    forall j | 0 <= j < n ensures list[j].spec.key in versions {
      var i := SomeOf(sent, j);
    }
    var vs := VersionsOf(list, versions);
    ghost var items := Snapshot(Somes(sent), vs);
    var outcome := server.RunNodeScaleWorker(cache, list, vs, nets[..n]);
    reached := FedByWorker(st, cache, scales, sent, vs, nets[..n]);
    forall other ensures Preserves(st, server.State(), cache, other) {
      WorkPreserves(st, cache, items, nets[..n], other);
    }
    WorkSettles(st, cache, hosted, scales, sent, items, nets[..n], shares);
  }

  // ---- The shares of a round -----------------------------------------------

  /** What the round gives to each pod; nothing to an absent one. */
  ghost function RoundShares(before: seq<VL.PodLoop>, input: VL.RoundInput): (shares: seq<Resources>)
    requires VL.ValidInput(input, |before|) && VL.Admissible(before, input)
    ensures |shares| == |before|
  {
    seq(|before|, i requires 0 <= i < |before| =>
      Resources(VL.CpuShares(before, input)[i], VL.MemoryShares(before, input)[i]))
  }

  lemma SharesFit(before: seq<VL.PodLoop>, input: VL.RoundInput)
    requires VL.ValidPods(before) && VL.ValidInput(input, |before|) && VL.Admissible(before, input)
    ensures AtMost(Total(RoundShares(before, input)), VL.Allocatable(before, input))
    ensures forall i :: 0 <= i < |before| ==> AtMost(Resources(0, 0), RoundShares(before, input)[i])
  {
    hide VL.CpuShares, VL.MemoryShares, VL.Allocatable, VL.Demand, VL.Admissible, VL.ValidPods, VL.ValidInput;
    VL.SharesInRange(before, input);
    TotalComponents(RoundShares(before, input), VL.CpuShares(before, input), VL.MemoryShares(before, input));
  }

  /** Whom the updater reaches does not change the shares. */
  lemma SharesIgnoreReached(capacity: Resources, scales: seq<PodScale>, before: seq<VL.PodLoop>, nodePods: seq<Pod>,
                            slas: seq<Sla>, metrics: seq<Option<VL.Metric>>, r1: seq<bool>, r2: seq<bool>)
    requires |scales| == |before| == |slas| == |metrics| == |r1| == |r2| && ValidAgreements(slas, metrics)
    ensures var a := InputOf(capacity, scales, before, nodePods, slas, metrics, r1);
            var b := InputOf(capacity, scales, before, nodePods, slas, metrics, r2);
            && VL.ValidInput(a, |before|) && VL.ValidInput(b, |before|)
            && (VL.Admissible(before, a) <==> VL.Admissible(before, b))
            && (VL.Admissible(before, a) ==> RoundShares(before, a) == RoundShares(before, b))
  {
    hide VL.Allocatable, Room, Allocate, Demoted;
    var a := InputOf(capacity, scales, before, nodePods, slas, metrics, r1);
    var b := InputOf(capacity, scales, before, nodePods, slas, metrics, r2);
    AllocatableIsRoom(capacity, scales, before, nodePods, slas, metrics, r1);
    AllocatableIsRoom(capacity, scales, before, nodePods, slas, metrics, r2);
    forall i | 0 <= i < |before| ensures VL.Demand(before[i], a.pods[i]) == VL.Demand(before[i], b.pods[i]) {
      assert a.pods[i] == b.pods[i].(reached := r1[i]);
    }
    assert VL.CpuDemands(before, a) == VL.CpuDemands(before, b);
    assert VL.MemoryDemands(before, a) == VL.MemoryDemands(before, b);
    if VL.Admissible(before, a) {
      assert VL.CpuShares(before, a) == VL.CpuShares(before, b);
      assert VL.MemoryShares(before, a) == VL.MemoryShares(before, b);
    }
  }

  /** The podscales sent to the updater carry those shares. */
  lemma SharesSent(scales: seq<PodScale>, sent: seq<Option<PodScale>>, logics: seq<Logic>, before: seq<VL.PodLoop>,
                   input: VL.RoundInput, everyone: seq<bool>)
    requires |scales| == |sent| == |logics| == |before| == |everyone|
    requires VL.ValidInput(input, |before|) && VL.Admissible(before, input)
    requires forall i :: 0 <= i < |before| ==>
               && everyone[i] && input.pods[i].reached && (sent[i].Some? ==> !VL.Absent(input.pods[i]))
    requires Fed(scales, sent, logics, everyone) == VL.Round(before, input)
    ensures forall i :: 0 <= i < |before| && sent[i].Some? ==> sent[i].value.actual == RoundShares(before, input)[i]
  {
    hide VL.CpuShares, VL.MemoryShares, VL.NextController, VL.Admissible;
    forall i | 0 <= i < |before| && sent[i].Some?
      ensures sent[i].value.actual == RoundShares(before, input)[i]
    {
      assert Fed(scales, sent, logics, everyone)[i] == VL.Round(before, input)[i];
    }
  }

  // ---- A whole round -------------------------------------------------------

  /** What a round needs: the listed podscales, one per pod, are the stored ones,
      and the store knows the pods of the node. */
  ghost predicate Ready(server: ApiServer, cache: map<Key, StoredPod>, hosted: seq<Key>, scales: seq<PodScale>)
    reads server, scales
  {
    && Traceable(server.State(), cache) && Hosts(server.State(), hosted)
    && OnePodScalePerPod(scales) && Mirrors(server.scales, scales)
  }

  lemma HostedAreDistinct(st: Stores, hosted: seq<Key>)
    requires Hosts(st, hosted)
    ensures forall p :: 0 <= p < |hosted| ==> hosted[p] in st.pods
    ensures DistinctPods(PodsAt(st.pods, hosted))
  {
  }

  /** What the solved round sends to the updater. */
  lemma RoundDeals(capacity: Resources, scales: seq<PodScale>, sent: seq<Option<PodScale>>, logics: seq<Logic>,
                   before: seq<VL.PodLoop>, nodePods: seq<Pod>, slas: seq<Sla>, metrics: seq<Option<VL.Metric>>,
                   everyone: seq<bool>)
    requires |scales| == |sent| == |logics| == |before| == |slas| == |metrics| == |everyone|
    requires ValidAgreements(slas, metrics) && SameSome(sent, Present(scales, nodePods, metrics))
    requires forall i :: 0 <= i < |everyone| ==> everyone[i]
    requires var room := Room(capacity, scales, nodePods, metrics); 0 <= room.cpu && 0 <= room.memory
    requires var input := InputOf(capacity, scales, before, nodePods, slas, metrics, everyone);
             VL.ValidInput(input, |scales|) && Fed(scales, sent, logics, everyone) == VL.Round(before, input)
    ensures var input := InputOf(capacity, scales, before, nodePods, slas, metrics, everyone);
            && VL.Admissible(before, input)
            && forall i :: 0 <= i < |scales| && sent[i].Some? ==> sent[i].value.actual == RoundShares(before, input)[i]
  {
    hide Room, Fed, VL.Round, RoundShares, VL.Allocatable, Demoted;
    var input := InputOf(capacity, scales, before, nodePods, slas, metrics, everyone);
    AllocatableIsRoom(capacity, scales, before, nodePods, slas, metrics, everyone);
    assert forall i :: 0 <= i < |scales| && sent[i].Some? ==> Present(scales, nodePods, metrics)[i].Some?;
    SharesSent(scales, sent, logics, before, input, everyone);
  }

  /** What the updater leaves of it is within the budget of the node. */
  lemma RoundBudget(capacity: Resources, scales: seq<PodScale>, sent: seq<Option<PodScale>>, before: seq<VL.PodLoop>,
                    nodePods: seq<Pod>, after: seq<Pod>, slas: seq<Sla>, metrics: seq<Option<VL.Metric>>,
                    everyone: seq<bool>, reached: seq<bool>)
    requires |scales| == |sent| == |before| == |slas| == |metrics| == |everyone| == |reached|
    requires ValidAgreements(slas, metrics) && OnePodScalePerPod(scales)
    requires SameSome(sent, Present(scales, nodePods, metrics))
    requires var input := InputOf(capacity, scales, before, nodePods, slas, metrics, everyone);
             && VL.ValidInput(input, |before|) && VL.Admissible(before, input)
             && forall i :: 0 <= i < |scales| ==>
                  Settled(nodePods, after, scales[i].spec, sent[i].Some?, RoundShares(before, input)[i])
    requires RequestsOutside(nodePods, scales) == RequestsOutside(after, scales)
    ensures var input := InputOf(capacity, scales, before, nodePods, slas, metrics, reached);
            && VL.ValidInput(input, |before|) && VL.Admissible(before, input)
            && (VL.ValidPods(before) ==>
                  WithinBudget(nodePods, after, scales, Present(scales, nodePods, metrics),
                               RoundShares(before, input), capacity))
  {
    hide VL.Admissible, VL.ValidInput, VL.ValidPods, VL.Allocatable, RoundShares, Settled, WithinBudget,
      RequestsOutside, Total, Demoted, OnePodScalePerPod, Somes;
    var input := InputOf(capacity, scales, before, nodePods, slas, metrics, everyone);
    SharesIgnoreReached(capacity, scales, before, nodePods, slas, metrics, everyone, reached);
    if VL.ValidPods(before) {
      SharesFit(before, input);
      AllocatableIsRoom(capacity, scales, before, nodePods, slas, metrics, everyone);
      BudgetHolds(nodePods, after, scales, Present(scales, nodePods, metrics), RoundShares(before, input), capacity);
    }
  }

  /** Recommend, solve, write back. Whatever is skipped, dropped, refused or
      lost, the stored podscales and the controllers make one round of the
      vertical loop; `reached` says whose podscale was stored. The pods of the
      node, as the store holds them afterwards, are within its budget. A round
      that stops before the updater (`ok` is false) leaves the stores alone. */
  method ClosedRound(server: ApiServer, cache: map<Key, StoredPod>, versions: map<Key, nat>, nets: seq<Net>,
                     node: string, capacity: Resources, hosted: seq<Key>, scales: seq<PodScale>, logics: seq<Logic>,
                     pods: seq<Pod>, slas: seq<Sla>, metrics: seq<Option<VL.Metric>>)
    returns (ok: bool, ghost reached: seq<bool>)
    requires |scales| == |logics| == |pods| == |slas| == |metrics| == |nets|
    requires Separate(logics) && ValidAgreements(slas, metrics) && Ready(server, cache, hosted, scales)
    requires forall i :: 0 <= i < |scales| ==> scales[i].spec.key in versions
    modifies server, Objects(logics)
    ensures |reached| == |scales|
    ensures forall i :: 0 <= i < |scales| ==>
              scales[i].spec.key in server.scales && server.scales[scales[i].spec.key].scale.spec == scales[i].spec
    ensures Hosts(server.State(), hosted)
    ensures forall other :: Preserves(old(server.State()), server.State(), cache, other)
    ensures var room := Room(capacity, scales, old(PodsAt(server.pods, hosted)), metrics);
            ok <==> NoNil(pods, slas, metrics, |scales|) && 0 <= room.cpu && 0 <= room.memory
    ensures !ok ==> server.State() == old(server.State())
    ensures NoNil(pods, slas, metrics, |scales|) ==>
              var before, nodePods := old(StoredLoops(server.scales, scales, logics)), old(PodsAt(server.pods, hosted));
              var input := InputOf(capacity, scales, before, nodePods, slas, metrics, reached);
              && VL.ValidInput(input, |scales|) && (ok <==> VL.Admissible(before, input))
              && StoredLoops(server.scales, scales, logics) == VL.Round(before, input)
              && (ok && VL.ValidPods(before) ==>
                    WithinBudget(nodePods, PodsAt(server.pods, hosted), scales, Present(scales, nodePods, metrics),
                                 RoundShares(before, input), capacity))
  {
    hide VL.Round, VL.ValidInput, VL.Allocatable, InputOf, Fed, Work, Traceable, NoNil, Room, Somes, OnePodScalePerPod,
      WellKeyed, DistinctPods, StoredAs, Loops, Separate, Hosts, Mirrors, Settled, Preserves, RequestsOutside,
      WithinBudget, RoundShares, Present, ValidAgreements, PodsAt;
    ghost var before, st := Loops(scales, logics), server.State();
    MirroredLoops(server.scales, scales, logics);
    HostedAreDistinct(st, hosted);
    var nodePods := PodsAt(server.pods, hosted);
    var info;
    ghost var sent;
    info, ok, sent := Round(node, capacity, nodePods, scales, logics, pods, slas, metrics);
    ghost var everyone := seq(|scales|, i => true);
    label Solved:
    if ok {
      RoundDeals(capacity, scales, sent, logics, before, nodePods, slas, metrics, everyone);
      ghost var shares := RoundShares(before, InputOf(capacity, scales, before, nodePods, slas, metrics, everyone));
      reached := WriteBack(server, cache, versions, nets, info, hosted, scales, sent, shares);
      HostedAreDistinct(server.State(), hosted);
      RoundBudget(capacity, scales, sent, before, nodePods, PodsAt(server.pods, hosted), slas, metrics,
                  everyone, reached);
    } else {
      reached := seq(|scales|, i => false);
      MirroredUnreached(server.scales, scales, sent, reached);
      SharesIgnoreReached(capacity, scales, before, nodePods, slas, metrics, everyone, reached);
      forall other ensures Preserves(st, server.State(), cache, other) {
        PreservesNothing(st, cache, other);
      }
    }
    AllocatableIsRoom(capacity, scales, before, nodePods, slas, metrics, reached);
    assert server !in ScalesOf(sent) && server !in Objects(logics);
    assert Fed(scales, sent, logics, reached) == old@Solved(Fed(scales, sent, logics, reached));
    StoredIsFed(server.scales, scales, sent, logics, reached);
  }

  lemma PreservesNothing(st: Stores, cache: map<Key, StoredPod>, other: map<Key, StoredPod>)
    requires Traceable(st, cache)
    ensures Preserves(st, st, cache, other)
  {
  }
}
