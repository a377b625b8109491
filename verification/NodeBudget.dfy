/** What all the pods of a node request: how it splits into scaled containers and
    the rest, what capacity a round works with, and what a round leaves. */
module NodeBudget {
  import opened Common
  import opened Types
  import opened Contention
  import opened ResourceUpdater
  import opened UpdateWorker
  import opened Feedback
  import opened NodeRound
  import VL = VerticalLoop

  // ---- What the capacity of a round is -------------------------------------

  /** What the pods of that key on the node request. */
  function RequestsFor(nodePods: seq<Pod>, key: Key): Resources
  {
    if |nodePods| == 0 then Resources(0, 0)
    else
      var pod, rest := nodePods[|nodePods| - 1], RequestsFor(nodePods[..|nodePods| - 1], key);
      if pod.key == key then Plus(rest, Requests(pod.containers)) else rest
  }

  lemma {:induction false} NoRequestsFor(nodePods: seq<Pod>, key: Key)
    requires forall i :: 0 <= i < |nodePods| ==> nodePods[i].key != key
    ensures RequestsFor(nodePods, key) == Resources(0, 0)
  {
    if |nodePods| == 0 {
    } else {
      NoRequestsFor(nodePods[..|nodePods| - 1], key);
    }
  }

  lemma {:induction false} RequestsForPod(nodePods: seq<Pod>, i: nat)
    requires DistinctPods(nodePods) && i < |nodePods|
    ensures RequestsFor(nodePods, nodePods[i].key) == Requests(nodePods[i].containers)
  {
    var n := |nodePods| - 1;
    if i == n {
      NoRequestsFor(nodePods[..n], nodePods[n].key);
    } else {
      RequestsForPod(nodePods[..n], i);
    }
  }

  lemma {:induction false} TotalOfOne(rs: seq<Resources>, i: nat, value: Resources)
    requires forall j :: 0 <= j < |rs| ==> rs[j] == if j == i then value else Resources(0, 0)
    ensures Total(rs) == if i < |rs| then value else Resources(0, 0)
  {
    if |rs| == 0 {
    } else {
      TotalOfOne(rs[..|rs| - 1], i, value);
    }
  }

  /** `present` keeps some podscales of the list in their positions. */
  ghost predicate Selects(present: seq<Option<PodScale>>, scales: seq<PodScale>)
  {
    |present| == |scales| && forall i :: 0 <= i < |scales| && present[i].Some? ==> present[i].value == scales[i]
  }

  /** A pod that left the list counts once among the absent podscales. */
  lemma LeavingCountsOnce(scales: seq<PodScale>, present: seq<Option<PodScale>>, key: Key, value: Resources,
                          hits: seq<Resources>)
    requires Selects(present, scales) && OnePodScalePerPod(scales) && |hits| == |scales|
    requires forall i :: 0 <= i < |scales| ==>
               hits[i] == if present[i].None? && scales[i].spec.key == key then value else Resources(0, 0)
    ensures Listed(Somes(present), key) ==> Listed(scales, key)
    ensures Total(hits) == if Listed(scales, key) && !Listed(Somes(present), key) then value else Resources(0, 0)
  {
    if Listed(Somes(present), key) {
      var j :| 0 <= j < |Somes(present)| && Somes(present)[j].spec.key == key;
      var i := SomeOf(present, j);
      assert scales[i].spec.key == key;
      TotalOfOne(hits, |hits|, value);
    } else if Listed(scales, key) {
      var i :| 0 <= i < |scales| && scales[i].spec.key == key;
      if present[i].Some? {
        InSomes(present, i);
      }
      TotalOfOne(hits, i, value);
    } else {
      TotalOfOne(hits, |hits|, value);
    }
  }

  /** What the pods of absent podscales request. */
  ghost function AbsentRequests(nodePods: seq<Pod>, scales: seq<PodScale>, present: seq<Option<PodScale>>)
    : (rs: seq<Resources>)
    requires |present| == |scales|
    ensures |rs| == |scales|
  {
    seq(|scales|, i requires 0 <= i < |scales| =>
      if present[i].None? then RequestsFor(nodePods, scales[i].spec.key) else Resources(0, 0))
  }

  /** One more pod on the node, in both sums. */
  lemma OnePodMore(nodePods: seq<Pod>, scales: seq<PodScale>, present: seq<Option<PodScale>>)
    requires 0 < |nodePods| && Selects(present, scales) && OnePodScalePerPod(scales)
    ensures var pod, rest := nodePods[|nodePods| - 1], nodePods[..|nodePods| - 1];
            var left := Listed(scales, pod.key) && !Listed(Somes(present), pod.key);
            && (Listed(Somes(present), pod.key) ==> Listed(scales, pod.key))
            && Total(AbsentRequests(nodePods, scales, present)) ==
               Plus(Total(AbsentRequests(rest, scales, present)),
                    if left then Requests(pod.containers) else Resources(0, 0))
  {
    hide Listed, OnePodScalePerPod, Requests, Somes, Total;
    var pod, rest := nodePods[|nodePods| - 1], nodePods[..|nodePods| - 1];
    var hits := seq(|scales|, i requires 0 <= i < |scales| =>
      if present[i].None? && scales[i].spec.key == pod.key then Requests(pod.containers) else Resources(0, 0));
    LeavingCountsOnce(scales, present, pod.key, Requests(pod.containers), hits);
    var all, earlier := AbsentRequests(nodePods, scales, present), AbsentRequests(rest, scales, present);
    forall i | 0 <= i < |scales| ensures all[i] == Plus(earlier[i], hits[i]) {
      assert RequestsFor(nodePods, scales[i].spec.key) ==
             if pod.key == scales[i].spec.key
             then Plus(RequestsFor(rest, scales[i].spec.key), Requests(pod.containers))
             else RequestsFor(rest, scales[i].spec.key);
    }
    TotalPlus(earlier, hits, all);
  }

  lemma OutsideStep(pods: seq<Pod>, scales: seq<PodScale>)
    ensures RequestsOutside(pods, scales) ==
            if |pods| == 0 then Resources(0, 0)
            else if Listed(scales, pods[|pods| - 1].key) then RequestsOutside(pods[..|pods| - 1], scales)
            else Plus(RequestsOutside(pods[..|pods| - 1], scales), Requests(pods[|pods| - 1].containers))
  {
  }

  /** The pods outside the present podscales are those without a podscale and
      those of absent ones. */
  ghost predicate Splits(nodePods: seq<Pod>, scales: seq<PodScale>, present: seq<Option<PodScale>>)
    requires |present| == |scales|
  {
    RequestsOutside(nodePods, Somes(present)) ==
    Plus(RequestsOutside(nodePods, scales), Total(AbsentRequests(nodePods, scales, present)))
  }

  lemma SplitsNothing(nodePods: seq<Pod>, scales: seq<PodScale>, present: seq<Option<PodScale>>)
    requires |present| == |scales| && |nodePods| == 0
    ensures Splits(nodePods, scales, present)
  {
    hide Somes, Listed;
    TotalOfOne(AbsentRequests(nodePods, scales, present), |scales|, Resources(0, 0));
  }

  lemma SplitsStep(nodePods: seq<Pod>, scales: seq<PodScale>, present: seq<Option<PodScale>>)
    requires 0 < |nodePods| && Selects(present, scales) && OnePodScalePerPod(scales)
    requires Splits(nodePods[..|nodePods| - 1], scales, present)
    ensures Splits(nodePods, scales, present)
  {
    hide Listed, OnePodScalePerPod, Requests, Somes, Total, AbsentRequests, RequestsOutside;
    OutsideStep(nodePods, scales);
    OutsideStep(nodePods, Somes(present));
    OnePodMore(nodePods, scales, present);
  }

  lemma {:induction false} OutsideSplits(nodePods: seq<Pod>, scales: seq<PodScale>, present: seq<Option<PodScale>>)
    requires Selects(present, scales) && OnePodScalePerPod(scales)
    ensures Splits(nodePods, scales, present)
  {
    hide Splits, OnePodScalePerPod;
    if |nodePods| == 0 {
      SplitsNothing(nodePods, scales, present);
    } else {
      OutsideSplits(nodePods[..|nodePods| - 1], scales, present);
      SplitsStep(nodePods, scales, present);
    }
  }

  /** The pod of an absent podscale is on the node, and the scaled container
      requests what the podscale records. */
  ghost predicate Accounted(scale: PodScale, before: VL.PodLoop, nodePods: seq<Pod>)
  {
    exists i :: 0 <= i < |nodePods| && nodePods[i].key == scale.spec.key
                && RequestOf(nodePods[i], scale.spec.container) == before.actual
  }

  /** What an absent pod requests beside its scaled container. */
  ghost function AbsentSidecars(scales: seq<PodScale>, before: seq<VL.PodLoop>, present: seq<Option<PodScale>>,
                                nodePods: seq<Pod>): (rs: seq<Resources>)
    requires |scales| == |before| == |present|
    ensures |rs| == |scales|
  {
    seq(|scales|, i requires 0 <= i < |scales| =>
      if present[i].None? then Minus(RequestsFor(nodePods, scales[i].spec.key), before[i].actual) else Resources(0, 0))
  }

  lemma InputCapacity(capacity: Resources, scales: seq<PodScale>, before: seq<VL.PodLoop>, nodePods: seq<Pod>,
                      slas: seq<Sla>, metrics: seq<Option<VL.Metric>>, reached: seq<bool>)
    requires |scales| == |before| == |slas| == |metrics| == |reached| && OnePodScalePerPod(scales)
    ensures InputOf(capacity, scales, before, nodePods, slas, metrics, reached).capacity ==
            Minus(Minus(capacity, RequestsOutside(nodePods, scales)),
                  Total(AbsentSidecars(scales, before, Present(scales, nodePods, metrics), nodePods)))
  {
    hide OnePodScalePerPod, RequestsFor, RequestsOutside, Demoted, Somes, Total;
    var present := Present(scales, nodePods, metrics);
    var sidecars, actual := AbsentSidecars(scales, before, present, nodePods), AbsentActual(before, present);
    var absent := AbsentRequests(nodePods, scales, present);
    OutsideSplits(nodePods, scales, present);
    forall i | 0 <= i < |scales| ensures absent[i] == Plus(sidecars[i], actual[i]) {
    }
    TotalPlus(sidecars, actual, absent);
  }

  /** With stores that agree, the capacity of a round is the capacity of the node
      less all pods without a podscale and less the sidecars of absent pods. */
  lemma CapacityOfRound(capacity: Resources, scales: seq<PodScale>, before: seq<VL.PodLoop>, nodePods: seq<Pod>,
                        slas: seq<Sla>, metrics: seq<Option<VL.Metric>>, reached: seq<bool>)
    requires |scales| == |before| == |slas| == |metrics| == |reached|
    requires OnePodScalePerPod(scales) && DistinctPods(nodePods)
    requires var present := Present(scales, nodePods, metrics);
             forall i :: 0 <= i < |scales| && present[i].None? ==> Accounted(scales[i], before[i], nodePods)
    ensures var present := Present(scales, nodePods, metrics);
            var sidecars := AbsentSidecars(scales, before, present, nodePods);
            && InputOf(capacity, scales, before, nodePods, slas, metrics, reached).capacity ==
               Minus(Minus(capacity, RequestsOutside(nodePods, scales)), Total(sidecars))
            && forall i :: 0 <= i < |scales| && present[i].None? ==> IsSidecarRequest(sidecars[i], scales[i], nodePods)
  {
    hide InputOf, Present, RequestsOutside;
    InputCapacity(capacity, scales, before, nodePods, slas, metrics, reached);
    var present := Present(scales, nodePods, metrics);
    forall i | 0 <= i < |scales| && present[i].None?
      ensures IsSidecarRequest(AbsentSidecars(scales, before, present, nodePods)[i], scales[i], nodePods)
    {
      assert Accounted(scales[i], before[i], nodePods);
      var j :| 0 <= j < |nodePods| && nodePods[j].key == scales[i].spec.key
               && RequestOf(nodePods[j], scales[i].spec.container) == before[i].actual;
      RequestsForPod(nodePods, j);
    }
  }

  /** What the pod of that podscale requests beside the scaled container. */
  ghost predicate IsSidecarRequest(request: Resources, scale: PodScale, nodePods: seq<Pod>)
  {
    exists j :: 0 <= j < |nodePods| && nodePods[j].key == scale.spec.key
                && request == SidecarRequests(nodePods[j], scale.spec.container)
  }

  // ---- The total of a node -------------------------------------------------

  /** What the pods of a node request together. */
  function NodeRequests(nodePods: seq<Pod>): Resources
  {
    if |nodePods| == 0 then Resources(0, 0)
    else Plus(NodeRequests(nodePods[..|nodePods| - 1]), Requests(nodePods[|nodePods| - 1].containers))
  }

  lemma {:induction false} NodeRequestsOutside(nodePods: seq<Pod>)
    ensures NodeRequests(nodePods) == RequestsOutside(nodePods, [])
  {
    if |nodePods| == 0 {
    } else {
      NodeRequestsOutside(nodePods[..|nodePods| - 1]);
    }
  }

  /** What the pod of each podscale requests. */
  ghost function ListedRequests(nodePods: seq<Pod>, scales: seq<PodScale>): (rs: seq<Resources>)
    ensures |rs| == |scales|
  {
    seq(|scales|, i requires 0 <= i < |scales| => RequestsFor(nodePods, scales[i].spec.key))
  }

  lemma {:induction false} SomesOfNone<T>(xs: seq<Option<T>>)
    requires forall i :: 0 <= i < |xs| ==> xs[i].None?
    ensures Somes(xs) == []
  {
    if |xs| == 0 {
    } else {
      SomesOfNone(xs[1..]);
    }
  }

  lemma NodeSplits(nodePods: seq<Pod>, scales: seq<PodScale>)
    requires OnePodScalePerPod(scales)
    ensures NodeRequests(nodePods) == Plus(RequestsOutside(nodePods, scales), Total(ListedRequests(nodePods, scales)))
  {
    hide RequestsOutside, OnePodScalePerPod, Total, RequestsFor, NodeRequests, Somes;
    var none: seq<Option<PodScale>> := seq(|scales|, i => None);
    OutsideSplits(nodePods, scales, none);
    SomesOfNone(none);
    NodeRequestsOutside(nodePods);
    assert AbsentRequests(nodePods, scales, none) == ListedRequests(nodePods, scales);
  }

  /** What the pod of that key requests for the container. */
  function Held(nodePods: seq<Pod>, key: Key, container: string): Resources
  {
    if |nodePods| == 0 then Resources(0, 0)
    else if nodePods[|nodePods| - 1].key == key then RequestOf(nodePods[|nodePods| - 1], container)
    else Held(nodePods[..|nodePods| - 1], key, container)
  }

  lemma {:induction false} HeldBy(nodePods: seq<Pod>, p: nat, container: string)
    requires DistinctPods(nodePods) && p < |nodePods|
    ensures Held(nodePods, nodePods[p].key, container) == RequestOf(nodePods[p], container)
  {
    var n := |nodePods| - 1;
    if p == n {
    } else {
      HeldBy(nodePods[..n], p, container);
    }
  }

  lemma {:induction false} HeldByNobody(nodePods: seq<Pod>, key: Key, container: string)
    requires forall p :: 0 <= p < |nodePods| ==> nodePods[p].key != key
    ensures Held(nodePods, key, container) == Resources(0, 0)
  {
    if |nodePods| == 0 {
    } else {
      HeldByNobody(nodePods[..|nodePods| - 1], key, container);
    }
  }

  /** What the pod of a podscale requests beside the scaled container. */
  function Beside(nodePods: seq<Pod>, spec: PodScaleSpec): Resources
  {
    Minus(RequestsFor(nodePods, spec.key), Held(nodePods, spec.key, spec.container))
  }

  // ---- A worker on the node ------------------------------------------------

  /** The pods the store holds under these keys, in order. */
  function PodsAt(pods: map<Key, StoredPod>, hosted: seq<Key>): (nodePods: seq<Pod>)
    requires forall p :: 0 <= p < |hosted| ==> hosted[p] in pods
    ensures |nodePods| == |hosted|
  {
    seq(|hosted|, p requires 0 <= p < |hosted| => pods[hosted[p]].pod)
  }

  ghost predicate Hosts(st: Stores, hosted: seq<Key>)
  {
    && DistinctKeys(hosted) && WellKeyed(st)
    && forall p :: 0 <= p < |hosted| ==> hosted[p] in st.pods
  }

  /** The pod of that podscale is on this node, if it is anywhere. */
  ghost predicate OnNode(st: Stores, hosted: seq<Key>, spec: PodScaleSpec)
  {
    spec.key in hosted || spec.key !in st.pods
  }

  lemma HeldIsRequested(st: Stores, hosted: seq<Key>, item: StoredScale)
    requires Hosts(st, hosted) && OnNode(st, hosted, item.scale.spec)
    ensures Held(PodsAt(st.pods, hosted), item.scale.spec.key, item.scale.spec.container) == Requested(st, item)
    ensures item.scale.spec.key in hosted ==>
              Beside(PodsAt(st.pods, hosted), item.scale.spec) ==
              SidecarRequests(st.pods[item.scale.spec.key].pod, item.scale.spec.container)
    ensures item.scale.spec.key !in hosted ==>
              Beside(PodsAt(st.pods, hosted), item.scale.spec) == Resources(0, 0)
  {
    var nodePods, spec := PodsAt(st.pods, hosted), item.scale.spec;
    if p :| 0 <= p < |hosted| && hosted[p] == spec.key {
      HeldBy(nodePods, p, spec.container);
      RequestsForPod(nodePods, p);
    } else {
      HeldByNobody(nodePods, spec.key, spec.container);
      NoRequestsFor(nodePods, spec.key);
    }
  }

  /** Pods of no podscale are the same before and after. */
  lemma {:induction false} OutsideUnchanged(before: seq<Pod>, after: seq<Pod>, scales: seq<PodScale>)
    requires |before| == |after|
    requires forall p :: 0 <= p < |before| ==>
               before[p].key == after[p].key && (!Listed(scales, before[p].key) ==> before[p] == after[p])
    ensures RequestsOutside(before, scales) == RequestsOutside(after, scales)
  {
    if |before| == 0 {
    } else {
      OutsideUnchanged(before[..|before| - 1], after[..|after| - 1], scales);
    }
  }

  // ---- When the whole node fits --------------------------------------------

  ghost function AllBeside(nodePods: seq<Pod>, list: seq<PodScale>): (rs: seq<Resources>)
    ensures |rs| == |list|
  {
    seq(|list|, i requires 0 <= i < |list| => Beside(nodePods, list[i].spec))
  }

  ghost function AllHeld(nodePods: seq<Pod>, list: seq<PodScale>): (rs: seq<Resources>)
    ensures |rs| == |list|
  {
    seq(|list|, i requires 0 <= i < |list| => Held(nodePods, list[i].spec.key, list[i].spec.container))
  }

  /** Three parts: the pods without a podscale, the scaled containers, and what
      their pods request beside them. */
  lemma NodeInThree(nodePods: seq<Pod>, list: seq<PodScale>)
    requires OnePodScalePerPod(list)
    ensures NodeRequests(nodePods) == Plus(Plus(RequestsOutside(nodePods, list), Total(AllBeside(nodePods, list))),
                                           Total(AllHeld(nodePods, list)))
  {
    hide RequestsOutside, OnePodScalePerPod, Total, RequestsFor, NodeRequests, Held;
    NodeSplits(nodePods, list);
    TotalPlus(AllBeside(nodePods, list), AllHeld(nodePods, list), ListedRequests(nodePods, list));
  }

  lemma WorkOutside(st: Stores, st': Stores, hosted: seq<Key>, list: seq<PodScale>, items: seq<StoredScale>)
    requires Hosts(st, hosted) && Hosts(st', hosted) && |items| == |list| && OthersSame(st, st', items)
    requires forall i :: 0 <= i < |list| ==> items[i].scale.spec == list[i].spec
    ensures RequestsOutside(PodsAt(st.pods, hosted), list) == RequestsOutside(PodsAt(st'.pods, hosted), list)
  {
    var before, after := PodsAt(st.pods, hosted), PodsAt(st'.pods, hosted);
    forall p | 0 <= p < |hosted|
      ensures before[p].key == after[p].key && (!Listed(list, before[p].key) ==> before[p] == after[p])
    {
      if !Listed(list, hosted[p]) {
        assert forall i :: 0 <= i < |items| ==> items[i].scale.spec.key != hosted[p];
        assert Same(st, st', hosted[p]);
      }
    }
    OutsideUnchanged(before, after, list);
  }

  /** Neither store gains or loses a key, and caches stay past or present. */
  ghost predicate Preserves(st: Stores, st': Stores, cache: map<Key, StoredPod>, other: map<Key, StoredPod>)
  {
    && Traceable(st', cache) && st'.pods.Keys == st.pods.Keys && st'.scales.Keys == st.scales.Keys
    && (Coherent(st.pods, other) ==> Coherent(st'.pods, other))
  }

  lemma UpdatePreserves(st: Stores, cache: map<Key, StoredPod>, item: StoredScale, net: Net,
                        other: map<Key, StoredPod>)
    requires Traceable(st, cache) && Passable(st, cache, item)
    ensures Preserves(st, AfterUpdate(st, UpdateOf(cache, item), item, net), cache, other)
  {
    WorkStep(st, cache, item, net);
    UpdateIsLocal(st, UpdateOf(cache, item), item, net);
  }

  lemma PreservesTwice(st: Stores, st1: Stores, st': Stores, cache: map<Key, StoredPod>, other: map<Key, StoredPod>)
    requires Preserves(st, st1, cache, other) && Preserves(st1, st', cache, other)
    ensures Preserves(st, st', cache, other)
  {
  }

  lemma {:induction false} WorkPreserves(st: Stores, cache: map<Key, StoredPod>, items: seq<StoredScale>,
                                         nets: seq<Net>, other: map<Key, StoredPod>)
    requires |nets| == |items| && Traceable(st, cache)
    ensures Preserves(st, Work(st, cache, items, nets).0, cache, other)
    decreases |items|
  {
    if |items| == 0 {
    } else {
      WorkStops(st, cache, items, nets);
      hide Work, Coherent, WellKeyed, CacheWellKeyed, Passable, Lands, AfterUpdate, Writable;
      if Passable(st, cache, items[0]) {
        if !Writable(cache, items[0]) {
          WorkPreserves(st, cache, items[1..], nets[1..], other);
        } else {
          var st1 := AfterUpdate(st, UpdateOf(cache, items[0]), items[0], nets[0]);
          UpdatePreserves(st, cache, items[0], nets[0], other);
          WorkPreserves(st1, cache, items[1..], nets[1..], other);
          PreservesTwice(st, st1, Work(st1, cache, items[1..], nets[1..]).0, cache, other);
        }
      }
    }
  }

  /** A worker changes the total of the node by what it changes of the requests
      of the scaled containers. */
  lemma WorkOnTotal(st: Stores, cache: map<Key, StoredPod>, hosted: seq<Key>, list: seq<PodScale>,
                    items: seq<StoredScale>, nets: seq<Net>)
    requires |nets| == |items| == |list| && Traceable(st, cache) && Hosts(st, hosted) && OnePodScalePerPod(list)
    requires forall i :: 0 <= i < |list| ==>
               items[i].scale.spec == list[i].spec && OnNode(st, hosted, list[i].spec)
    ensures var st' := Work(st, cache, items, nets).0;
            && Hosts(st', hosted)
            && Minus(NodeRequests(PodsAt(st'.pods, hosted)), Total(AllRequested(st', items))) ==
               Minus(NodeRequests(PodsAt(st.pods, hosted)), Total(AllRequested(st, items)))
  {
    hide Work, NodeRequests, RequestsOutside, Total, Held, RequestsFor, PodsAt;
    var st' := Work(st, cache, items, nets).0;
    assert DistinctItems(items);
    WorkPreserves(st, cache, items, nets, cache);
    var k, torn := WorkLeavesPrefix(st, cache, items, nets);
    var before, after := PodsAt(st.pods, hosted), PodsAt(st'.pods, hosted);
    WorkOutside(st, st', hosted, list, items);
    NodeInThree(before, list);
    NodeInThree(after, list);
    forall i | 0 <= i < |list|
      ensures AllHeld(before, list)[i] == AllRequested(st, items)[i]
      ensures AllHeld(after, list)[i] == AllRequested(st', items)[i]
      ensures AllBeside(before, list)[i] == AllBeside(after, list)[i]
    {
      HeldIsRequested(st, hosted, items[i]);
      HeldIsRequested(st', hosted, items[i]);
      assert Done(st, st', cache, items[i], i < k, torn && i == k - 1);
    }
    assert AllHeld(before, list) == AllRequested(st, items);
    assert AllHeld(after, list) == AllRequested(st', items);
    assert AllBeside(before, list) == AllBeside(after, list);
  }

  /** The whole node fits whatever happens to the network if and only if every
      mix of targets and old requests fits into what the capacity leaves beside
      everything else the node requests. */
  lemma NodeFitsWhateverIsLost(st: Stores, cache: map<Key, StoredPod>, hosted: seq<Key>, list: seq<PodScale>,
                               items: seq<StoredScale>, capacity: Resources)
    requires |items| == |list| && Traceable(st, cache) && Hosts(st, hosted) && OnePodScalePerPod(list)
    requires forall i :: 0 <= i < |list| ==>
               items[i].scale.spec == list[i].spec && OnNode(st, hosted, list[i].spec)
    ensures var rest := Minus(NodeRequests(PodsAt(st.pods, hosted)), Total(AllRequested(st, items)));
            (forall nets: seq<Net> | |nets| == |items| ::
               Hosts(Work(st, cache, items, nets).0, hosted)
               && AtMost(NodeRequests(PodsAt(Work(st, cache, items, nets).0.pods, hosted)), capacity)) <==>
            forall k: nat :: k <= Clear(st, cache, items) ==>
              FitsIn(Mixed(st, cache, items, k), Minus(capacity, rest))
  {
    hide Work, NodeRequests, Total, PodsAt, Mixed, Clear, AllRequested, OnNode;
    var rest := Minus(NodeRequests(PodsAt(st.pods, hosted)), Total(AllRequested(st, items)));
    assert DistinctItems(items);
    FitsWhateverIsLost(st, cache, items, Minus(capacity, rest));
    forall nets: seq<Net> | |nets| == |items|
      ensures var st' := Work(st, cache, items, nets).0;
              Hosts(st', hosted) &&
              (AtMost(NodeRequests(PodsAt(st'.pods, hosted)), capacity) <==>
               FitsIn(AllRequested(st', items), Minus(capacity, rest)))
    {
      WorkOnTotal(st, cache, hosted, list, items, nets);
    }
  }

  // ---- The budget of a round -----------------------------------------------

  /** What a container keeps beyond its share: nothing once it requests it. */
  function KeptBeyond(before: Resources, after: Resources, share: Resources): Resources
  {
    if after == share then Resources(0, 0)
    else Resources(Max(0, before.cpu - share.cpu), Max(0, before.memory - share.memory))
  }

  /** What the pods that take part in a round request beyond their shares: their
      sidecars, and what containers without their share keep of the old request. */
  ghost function Extras(before: seq<Pod>, after: seq<Pod>, scales: seq<PodScale>, present: seq<Option<PodScale>>,
                        shares: seq<Resources>): (rs: seq<Resources>)
    requires |scales| == |present| == |shares|
    ensures |rs| == |scales|
  {
    seq(|scales|, i requires 0 <= i < |scales| =>
      var spec := scales[i].spec;
      if present[i].None? then Resources(0, 0)
      else Plus(Beside(before, spec), KeptBeyond(Held(before, spec.key, spec.container),
                                                 Held(after, spec.key, spec.container), shares[i])))
  }

  /** All pods of the node together request at most its capacity, and what those
      that take part in the round request beyond their shares. */
  ghost predicate WithinBudget(before: seq<Pod>, after: seq<Pod>, scales: seq<PodScale>,
                               present: seq<Option<PodScale>>, shares: seq<Resources>, capacity: Resources)
    requires |scales| == |present| == |shares|
  {
    AtMost(NodeRequests(after), Plus(capacity, Total(Extras(before, after, scales, present, shares))))
  }

  /** The pod of a podscale after the round: untouched when it is absent, else
      its container requests its share or what it did, and nothing else changed. */
  ghost predicate Settled(before: seq<Pod>, after: seq<Pod>, spec: PodScaleSpec, present: bool, share: Resources)
  {
    if !present then RequestsFor(after, spec.key) == RequestsFor(before, spec.key)
    else
      && Beside(after, spec) == Beside(before, spec)
      && (Held(after, spec.key, spec.container) == share
          || Held(after, spec.key, spec.container) == Held(before, spec.key, spec.container))
  }

  lemma BudgetHolds(before: seq<Pod>, after: seq<Pod>, scales: seq<PodScale>, present: seq<Option<PodScale>>,
                    shares: seq<Resources>, capacity: Resources)
    requires Selects(present, scales) && OnePodScalePerPod(scales) && |shares| == |scales|
    requires RequestsOutside(before, scales) == RequestsOutside(after, scales)
    requires forall i :: 0 <= i < |scales| ==>
               Settled(before, after, scales[i].spec, present[i].Some?, shares[i]) && AtMost(Resources(0, 0), shares[i])
    requires AtMost(Total(shares), Minus(capacity, RequestsOutside(before, Somes(present))))
    ensures WithinBudget(before, after, scales, present, shares, capacity)
  {
    hide RequestsOutside, OnePodScalePerPod, Total, RequestsFor, NodeRequests, Held, Somes, Listed;
    var extras, absent := Extras(before, after, scales, present, shares), AbsentRequests(before, scales, present);
    var two := seq(|scales|, i requires 0 <= i < |scales| => Plus(shares[i], absent[i]));
    var three := seq(|scales|, i requires 0 <= i < |scales| => Plus(two[i], extras[i]));
    NodeSplits(after, scales);
    OutsideSplits(before, scales, present);
    forall i | 0 <= i < |scales| ensures AtMost(ListedRequests(after, scales)[i], three[i]) {
      assert Settled(before, after, scales[i].spec, present[i].Some?, shares[i]);
    }
    TotalMonotone(ListedRequests(after, scales), three);
    TotalPlus(shares, absent, two);
    TotalPlus(two, extras, three);
  }

  /** What a worker does to the pods of a node, podscale by podscale. */
  lemma WorkSettles(st: Stores, cache: map<Key, StoredPod>, hosted: seq<Key>, scales: seq<PodScale>,
                    sent: seq<Option<PodScale>>, items: seq<StoredScale>, nets: seq<Net>, shares: seq<Resources>)
    requires |nets| == |items| == |Somes(sent)| && |shares| == |scales|
    requires Traceable(st, cache) && Hosts(st, hosted) && OnePodScalePerPod(scales) && SpecsOf(sent, scales)
    requires forall j :: 0 <= j < |items| ==>
               && items[j].scale.spec == Somes(sent)[j].spec && items[j].scale.actual == Somes(sent)[j].actual
    requires forall i :: 0 <= i < |scales| && sent[i].Some? ==> sent[i].value.actual == shares[i]
    ensures var st' := Work(st, cache, items, nets).0;
            && Hosts(st', hosted)
            && (forall i :: 0 <= i < |scales| ==>
                  Settled(PodsAt(st.pods, hosted), PodsAt(st'.pods, hosted), scales[i].spec, sent[i].Some?, shares[i]))
            && RequestsOutside(PodsAt(st.pods, hosted), scales) == RequestsOutside(PodsAt(st'.pods, hosted), scales)
  {
    hide Work, Settled, PodsAt, RequestsOutside, Somes, OnePodScalePerPod, Left;
    var st' := Work(st, cache, items, nets).0;
    SentAreDistinct(sent, scales);
    assert DistinctItems(items) by { DistinctSpecs(Somes(sent), items); }
    WorkPreserves(st, cache, items, nets, cache);
    var k, torn := WorkLeavesPrefix(st, cache, items, nets);
    forall i | 0 <= i < |scales|
      ensures Settled(PodsAt(st.pods, hosted), PodsAt(st'.pods, hosted), scales[i].spec, sent[i].Some?, shares[i])
    {
      if sent[i].Some? {
        InSomes(sent, i);
        var j :| 0 <= j < |items| && Somes(sent)[j] == sent[i].value;
        assert Done(st, st', cache, items[j], j < k, torn && j == k - 1);
        DoneSettles(st, st', cache, hosted, items[j], j < k, torn && j == k - 1);
      } else {
        NotAnItem(sent, scales, items, i);
        assert Same(st, st', scales[i].spec.key);
        SameSettles(st, st', hosted, scales[i].spec, shares[i]);
      }
    }
    ScalesOutside(st, st', hosted, scales, sent, items);
  }

  lemma DistinctSpecs(list: seq<PodScale>, items: seq<StoredScale>)
    requires OnePodScalePerPod(list) && |items| == |list|
    requires forall j :: 0 <= j < |items| ==> items[j].scale.spec == list[j].spec
    ensures DistinctItems(items)
  {
  }

  lemma NotAnItem(sent: seq<Option<PodScale>>, scales: seq<PodScale>, items: seq<StoredScale>, i: nat)
    requires SpecsOf(sent, scales) && OnePodScalePerPod(scales) && |items| == |Somes(sent)|
    requires forall j :: 0 <= j < |items| ==> items[j].scale.spec == Somes(sent)[j].spec
    requires i < |scales| && sent[i].None?
    ensures forall j :: 0 <= j < |items| ==> items[j].scale.spec.key != scales[i].spec.key
  {
    forall j | 0 <= j < |items| ensures items[j].scale.spec.key != scales[i].spec.key {
      var k := SomeOf(sent, j);
    }
  }

  lemma DoneSettles(st: Stores, st': Stores, cache: map<Key, StoredPod>, hosted: seq<Key>, item: StoredScale,
                    passed: bool, torn: bool)
    requires Hosts(st, hosted) && Hosts(st', hosted) && Done(st, st', cache, item, passed, torn)
    ensures Settled(PodsAt(st.pods, hosted), PodsAt(st'.pods, hosted), item.scale.spec, true, item.scale.actual)
  {
    hide PodsAt, RequestsFor, Held;
    if item.scale.spec.key in hosted {
      HeldIsRequested(st, hosted, item);
      HeldIsRequested(st', hosted, item);
    } else {
      NobodyThere(st, hosted, item.scale.spec);
      NobodyThere(st', hosted, item.scale.spec);
    }
  }

  lemma NobodyThere(st: Stores, hosted: seq<Key>, spec: PodScaleSpec)
    requires Hosts(st, hosted) && spec.key !in hosted
    ensures Held(PodsAt(st.pods, hosted), spec.key, spec.container) == Resources(0, 0)
    ensures RequestsFor(PodsAt(st.pods, hosted), spec.key) == Resources(0, 0)
  {
    HeldByNobody(PodsAt(st.pods, hosted), spec.key, spec.container);
    NoRequestsFor(PodsAt(st.pods, hosted), spec.key);
  }

  lemma SameSettles(st: Stores, st': Stores, hosted: seq<Key>, spec: PodScaleSpec, share: Resources)
    requires Hosts(st, hosted) && Hosts(st', hosted) && Same(st, st', spec.key)
    ensures Settled(PodsAt(st.pods, hosted), PodsAt(st'.pods, hosted), spec, false, share)
  {
    hide RequestsFor, Held;
    if p :| 0 <= p < |hosted| && hosted[p] == spec.key {
      RequestsForPod(PodsAt(st.pods, hosted), p);
      RequestsForPod(PodsAt(st'.pods, hosted), p);
    } else {
      NobodyThere(st, hosted, spec);
      NobodyThere(st', hosted, spec);
    }
  }

  lemma ScalesOutside(st: Stores, st': Stores, hosted: seq<Key>, scales: seq<PodScale>,
                      sent: seq<Option<PodScale>>, items: seq<StoredScale>)
    requires Hosts(st, hosted) && Hosts(st', hosted) && SpecsOf(sent, scales) && |items| == |Somes(sent)|
    requires forall j :: 0 <= j < |items| ==> items[j].scale.spec == Somes(sent)[j].spec
    requires OthersSame(st, st', items)
    ensures RequestsOutside(PodsAt(st.pods, hosted), scales) == RequestsOutside(PodsAt(st'.pods, hosted), scales)
  {
    hide Somes;
    var before, after := PodsAt(st.pods, hosted), PodsAt(st'.pods, hosted);
    forall p | 0 <= p < |hosted|
      ensures before[p].key == after[p].key && (!Listed(scales, before[p].key) ==> before[p] == after[p])
    {
      if !Listed(scales, hosted[p]) {
        forall j | 0 <= j < |items| ensures items[j].scale.spec.key != hosted[p] {
          var i := SomeOf(sent, j);
          assert scales[i].spec.key != hosted[p];
        }
        assert Same(st, st', hosted[p]);
      }
    }
    OutsideUnchanged(before, after, scales);
  }
}
