/** The pod resource updater: writing an allocation into one container, and
    keeping the pod store and the podscale store in step. */
module ResourceUpdater {
  import opened Common
  import opened Types
  import opened Allocation
  import opened Contention

  // ---- Writing one container -----------------------------------------------

  datatype SyncResult = Synced(pod: Pod) | NotGuaranteed | NonPositiveCpu | NonPositiveMemory

  function WithActual(pod: Pod, name: string, actual: Resources): Pod
  {
    var i := FirstNamed(pod.containers, name);
    if i == |pod.containers| then pod
    else pod.(containers := pod.containers[i := Container(pod.containers[i].name, actual, actual)])
  }

  function SyncOf(pod: Pod, name: string, actual: Resources): SyncResult
  {
    if pod.qos != Guaranteed then NotGuaranteed
    else if actual.cpu <= 0 then NonPositiveCpu
    else if actual.memory <= 0 then NonPositiveMemory
    else Synced(WithActual(pod, name, actual))
  }

  method SyncPod(pod: Pod, podScale: PodScale) returns (result: SyncResult)
    ensures result == SyncOf(pod, podScale.spec.container, podScale.actual)
  {
    var newPod := pod;
    if newPod.qos != Guaranteed {
      return NotGuaranteed;
    }
    if podScale.actual.cpu <= 0 {
      return NonPositiveCpu;
    }
    if podScale.actual.memory <= 0 {
      return NonPositiveMemory;
    }
    for i := 0 to |pod.containers|
      invariant newPod == pod
      invariant forall j :: 0 <= j < i ==> pod.containers[j].name != podScale.spec.container
    {
      var container := newPod.containers[i];
      if container.name == podScale.spec.container {
        container := container.(requests := podScale.actual);
        container := container.(limits := podScale.actual);
        newPod := newPod.(containers := newPod.containers[i := container]);
        break;
      }
    }
    result := Synced(newPod);
  }

  /** A share is taken only by a Guaranteed pod and only when both resources of it
      are positive; a refusal names the first reason. */
  lemma SyncRefusals(pod: Pod, name: string, actual: Resources)
    ensures var r := SyncOf(pod, name, actual);
            && (r.NotGuaranteed? <==> pod.qos == Burstable || pod.qos == BestEffort)
            && (r.NonPositiveCpu? <==> pod.qos == Guaranteed && actual.cpu < 1)
            && (r.NonPositiveMemory? <==> pod.qos == Guaranteed && 1 <= actual.cpu && actual.memory < 1)
  {
  }

  /** What a pod requests for the container of that name. */
  function RequestOf(pod: Pod, name: string): Resources
  {
    var i := FirstNamed(pod.containers, name);
    if i == |pod.containers| then Resources(0, 0) else pod.containers[i].requests
  }

  /** What the other containers of the pod request. */
  function SidecarRequests(pod: Pod, name: string): Resources
  {
    Minus(Requests(pod.containers), RequestOf(pod, name))
  }

  /** A sync writes exactly one container, requests and limits alike, and the
      sidecars of the pod request what they did before. */
  lemma SyncWritesOneContainer(pod: Pod, name: string, actual: Resources)
    requires SyncOf(pod, name, actual).Synced? && HasContainer(pod.containers, name)
    ensures var pod', i := SyncOf(pod, name, actual).pod, FirstNamed(pod.containers, name);
            && pod'.(containers := []) == pod.(containers := [])
            && |pod'.containers| == |pod.containers|
            && pod'.containers[i] == Container(name, actual, actual)
            && (forall j :: 0 <= j < |pod.containers| && j != i ==> pod'.containers[j] == pod.containers[j])
            && RequestOf(pod', name) == actual
            && SidecarRequests(pod', name) == SidecarRequests(pod, name)
  {
    var pod', i := SyncOf(pod, name, actual).pod, FirstNamed(pod.containers, name);
    var i' := FirstNamed(pod'.containers, name);
    assert pod'.containers[i].name == name;
    assert forall j :: 0 <= j < i ==> pod'.containers[j] == pod.containers[j];
    assert i' == i;
    SumUpdate(CpuRequests(pod.containers), i, actual.cpu);
    SumUpdate(MemoryRequests(pod.containers), i, actual.memory);
    assert CpuRequests(pod'.containers) == CpuRequests(pod.containers)[i := actual.cpu];
    assert MemoryRequests(pod'.containers) == MemoryRequests(pod.containers)[i := actual.memory];
  }

  // ---- No overcommit on the node -------------------------------------------

  ghost function FirstFor(scales: seq<PodScale>, key: Key): PodScale
    requires Listed(scales, key)
    ensures FirstFor(scales, key) in scales && FirstFor(scales, key).spec.key == key
  {
    if scales[0].spec.key == key then scales[0] else FirstFor(scales[1..], key)
  }

  /** Every pod with a podscale accepts its allocation and has the container. */
  ghost predicate AllApplied(pods: seq<Pod>, scales: seq<PodScale>)
    reads scales
  {
    forall i :: 0 <= i < |pods| && Listed(scales, pods[i].key) ==>
      var s := FirstFor(scales, pods[i].key);
      && SyncOf(pods[i], s.spec.container, s.actual).Synced?
      && HasContainer(pods[i].containers, s.spec.container)
  }

  ghost function Applied(pod: Pod, scales: seq<PodScale>): Pod
    reads scales
  {
    if !Listed(scales, pod.key) then pod
    else
      var s := FirstFor(scales, pod.key);
      var r := SyncOf(pod, s.spec.container, s.actual);
      if r.Synced? then r.pod else pod
  }

  // The requests of a pod fall into three parts, all of them once the updater
  // has run: a pod outside the list, a scaled container, and its sidecars.

  ghost function OutsideRequest(pod: Pod, scales: seq<PodScale>): Resources
  {
    if Listed(scales, pod.key) then Resources(0, 0) else Requests(pod.containers)
  }

  ghost function ScaledRequest(pod: Pod, scales: seq<PodScale>): Resources
    reads scales
  {
    if !Listed(scales, pod.key) then Resources(0, 0)
    else RequestOf(Applied(pod, scales), FirstFor(scales, pod.key).spec.container)
  }

  ghost function SidecarRequest(pod: Pod, scales: seq<PodScale>): Resources
  {
    if !Listed(scales, pod.key) then Resources(0, 0)
    else SidecarRequests(pod, FirstFor(scales, pod.key).spec.container)
  }

  ghost function TotalAfter(pods: seq<Pod>, scales: seq<PodScale>): Resources
    reads scales
  {
    Total(seq(|pods|, i requires 0 <= i < |pods| reads scales =>
      Requests(Applied(pods[i], scales).containers)))
  }

  ghost function ScaledAfter(pods: seq<Pod>, scales: seq<PodScale>): Resources
    reads scales
  {
    Total(seq(|pods|, i requires 0 <= i < |pods| reads scales => ScaledRequest(pods[i], scales)))
  }

  ghost function Sidecars(pods: seq<Pod>, scales: seq<PodScale>): Resources
  {
    Total(seq(|pods|, i requires 0 <= i < |pods| => SidecarRequest(pods[i], scales)))
  }

  lemma {:induction false} OutsideIsTotal(pods: seq<Pod>, scales: seq<PodScale>, outside: seq<Resources>)
    requires |outside| == |pods|
    requires forall i :: 0 <= i < |pods| ==> outside[i] == OutsideRequest(pods[i], scales)
    ensures RequestsOutside(pods, scales) == Total(outside)
  {
    if |pods| == 0 {
    } else {
      OutsideIsTotal(pods[..|pods| - 1], scales, outside[..|pods| - 1]);
    }
  }

  lemma PodSplits(pods: seq<Pod>, scales: seq<PodScale>, i: nat)
    requires AllApplied(pods, scales) && i < |pods|
    ensures Requests(Applied(pods[i], scales).containers) ==
            Plus(Plus(OutsideRequest(pods[i], scales), ScaledRequest(pods[i], scales)),
                 SidecarRequest(pods[i], scales))
    ensures Listed(scales, pods[i].key) ==>
              ScaledRequest(pods[i], scales) == FirstFor(scales, pods[i].key).actual
  {
    if Listed(scales, pods[i].key) {
      var s := FirstFor(scales, pods[i].key);
      SyncWritesOneContainer(pods[i], s.spec.container, s.actual);
    }
  }

  lemma TotalSplits(pods: seq<Pod>, scales: seq<PodScale>)
    requires AllApplied(pods, scales)
    ensures TotalAfter(pods, scales) ==
            Plus(Plus(RequestsOutside(pods, scales), ScaledAfter(pods, scales)), Sidecars(pods, scales))
  {
    hide Requests, Applied, AllApplied, OutsideRequest, ScaledRequest, SidecarRequest, SyncOf, Listed;
    var n := |pods|;
    var all := seq(n, i requires 0 <= i < n reads scales => Requests(Applied(pods[i], scales).containers));
    var outside := seq(n, i requires 0 <= i < n => OutsideRequest(pods[i], scales));
    var scaled := seq(n, i requires 0 <= i < n reads scales => ScaledRequest(pods[i], scales));
    var sidecars := seq(n, i requires 0 <= i < n => SidecarRequest(pods[i], scales));
    var two := seq(n, i requires 0 <= i < n => Plus(outside[i], scaled[i]));
    forall i | 0 <= i < n ensures all[i] == Plus(two[i], sidecars[i]) {
      PodSplits(pods, scales, i);
    }
    TotalPlus(two, sidecars, all);
    TotalPlus(outside, scaled, two);
    OutsideIsTotal(pods, scales, outside);
  }

  // ---- Scaled containers never exceed what the solver assigned --------------

  datatype Entry = Entry(key: Key, value: int)

  /** The value of the first entry of that key, or zero. */
  function ValueFor(entries: seq<Entry>, key: Key): int
  {
    if |entries| == 0 then 0
    else if entries[0].key == key then entries[0].value
    else ValueFor(entries[1..], key)
  }

  function Values(entries: seq<Entry>): seq<int>
  {
    seq(|entries|, i requires 0 <= i < |entries| => entries[i].value)
  }

  ghost predicate DistinctKeys(keys: seq<Key>)
  {
    forall i, j :: 0 <= i < j < |keys| ==> keys[i] != keys[j]
  }

  /** Summing an entry at every key it occurs at, for distinct keys, counts the
      entry at most once. */
  lemma {:induction false} OnceEach(keys: seq<Key>, key: Key, value: int, hits: seq<int>)
    requires DistinctKeys(keys) && 0 <= value && |hits| == |keys|
    requires forall i :: 0 <= i < |keys| ==> hits[i] == if keys[i] == key then value else 0
    ensures Sum(hits) == if key in keys then value else 0
  {
    if |keys| == 0 {
    } else {
      var n := |keys| - 1;
      OnceEach(keys[..n], key, value, hits[..n]);
      assert keys == keys[..n] + [keys[n]];
    }
  }

  lemma {:induction false} LookupSum(keys: seq<Key>, entries: seq<Entry>, found: seq<int>)
    requires DistinctKeys(keys) && |found| == |keys|
    requires forall i :: 0 <= i < |entries| ==> 0 <= entries[i].value
    requires forall i :: 0 <= i < |keys| ==> found[i] == ValueFor(entries, keys[i])
    ensures Sum(found) <= Sum(Values(entries))
  {
    if |entries| == 0 {
      SumOfZeros(found);
    } else {
      var head, tail, n := entries[0], entries[1..], |keys|;
      var hits := seq(n, i requires 0 <= i < n => if keys[i] == head.key then head.value else 0);
      var rest := seq(n, i requires 0 <= i < n => ValueFor(tail, keys[i]));
      LookupSum(keys, tail, rest);
      OnceEach(keys, head.key, head.value, hits);
      ValuesNonNegative(tail);
      SumSplit(hits, rest, found);
      SumHead(Values(entries));
      assert Values(entries)[1..] == Values(tail);
    }
  }

  lemma {:induction false} ValuesNonNegative(entries: seq<Entry>)
    requires forall i :: 0 <= i < |entries| ==> 0 <= entries[i].value
    ensures forall key :: 0 <= ValueFor(entries, key)
  {
    if |entries| == 0 {
    } else {
      ValuesNonNegative(entries[1..]);
    }
  }

  ghost function CpuEntries(scales: seq<PodScale>): (r: seq<Entry>)
    reads scales
    ensures |r| == |scales|
  {
    seq(|scales|, i requires 0 <= i < |scales| reads scales =>
      Entry(scales[i].spec.key, scales[i].actual.cpu))
  }

  ghost function MemoryEntries(scales: seq<PodScale>): (r: seq<Entry>)
    reads scales
    ensures |r| == |scales|
  {
    seq(|scales|, i requires 0 <= i < |scales| reads scales =>
      Entry(scales[i].spec.key, scales[i].actual.memory))
  }

  lemma {:induction false} EntryOf(scales: seq<PodScale>, key: Key)
    ensures Listed(scales, key) ==>
              && ValueFor(CpuEntries(scales), key) == FirstFor(scales, key).actual.cpu
              && ValueFor(MemoryEntries(scales), key) == FirstFor(scales, key).actual.memory
    ensures !Listed(scales, key) ==>
              ValueFor(CpuEntries(scales), key) == 0 && ValueFor(MemoryEntries(scales), key) == 0
  {
    if |scales| == 0 {
    } else {
      EntryOf(scales[1..], key);
      ListedHead(scales, key);
      assert CpuEntries(scales)[1..] == CpuEntries(scales[1..]);
      assert MemoryEntries(scales)[1..] == MemoryEntries(scales[1..]);
    }
  }

  ghost predicate NoNegativeActual(scales: seq<PodScale>)
    reads scales
  {
    forall i :: 0 <= i < |scales| ==> 0 <= scales[i].actual.cpu && 0 <= scales[i].actual.memory
  }

  lemma ScaledAtMostActual(pods: seq<Pod>, scales: seq<PodScale>)
    requires DistinctPods(pods) && AllApplied(pods, scales) && NoNegativeActual(scales)
    ensures ScaledAfter(pods, scales).cpu <= Sum(Values(CpuEntries(scales)))
    ensures ScaledAfter(pods, scales).memory <= Sum(Values(MemoryEntries(scales)))
  {
    var n := |pods|;
    var keys := seq(n, i requires 0 <= i < n => pods[i].key);
    var scaled := seq(n, i requires 0 <= i < n reads scales => ScaledRequest(pods[i], scales));
    var cpu := seq(n, i requires 0 <= i < n reads scales => ValueFor(CpuEntries(scales), keys[i]));
    var memory := seq(n, i requires 0 <= i < n reads scales => ValueFor(MemoryEntries(scales), keys[i]));
    forall i | 0 <= i < n ensures scaled[i] == Resources(cpu[i], memory[i]) {
      PodSplits(pods, scales, i);
      EntryOf(scales, keys[i]);
    }
    TotalComponents(scaled, cpu, memory);
    LookupSum(keys, CpuEntries(scales), cpu);
    LookupSum(keys, MemoryEntries(scales), memory);
  }

  /** Node-level safety: once the updater has applied everything the solver
      returned, the pods outside the list and the scaled containers together
      request at most the capacity, and the whole node requests at most the
      capacity plus the sidecars of scaled pods, which nobody subtracts. */
  lemma NodeNotOvercommitted(capacity: Resources, scales: seq<PodScale>, pods: seq<Pod>)
    requires OnePodScalePerPod(scales) && DistinctPods(pods)
    requires var room := Minus(capacity, Untracked(scales, pods));
             && 0 <= room.cpu && 0 <= room.memory
             && Solved(Kept(scales, pods), room)
             && NonNegative(CpuDemands(Kept(scales, pods)))
             && NonNegative(MemoryDemands(Kept(scales, pods)))
    requires AllApplied(pods, Kept(scales, pods))
    ensures var kept := Kept(scales, pods);
            var bound := Plus(RequestsOutside(pods, kept), ScaledAfter(pods, kept));
            && bound.cpu <= capacity.cpu && bound.memory <= capacity.memory
            && TotalAfter(pods, kept) == Plus(bound, Sidecars(pods, kept))
  {
    var kept := Kept(scales, pods);
    var room := Minus(capacity, Untracked(scales, pods));
    var cpu, memory := CpuDemands(kept), MemoryDemands(kept);
    AllocatableConserved(capacity, scales, pods);
    TightSplit(cpu, room.cpu);
    TightSplit(memory, room.memory);
    assert Values(CpuEntries(kept)) == Allocate(cpu, room.cpu);
    assert Values(MemoryEntries(kept)) == Allocate(memory, room.memory);
    ScaledAtMostActual(pods, kept);
    TotalSplits(pods, kept);
  }
}
