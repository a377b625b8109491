/** The contention manager of one node: what it subtracts from the capacity,
    which podscales it keeps, and what it assigns to them. */
module Contention {
  import opened Common
  import opened Types
  import opened Allocation

  // ---- Specification of the bookkeeping ------------------------------------

  function CpuRequests(containers: seq<Container>): seq<int>
  {
    seq(|containers|, i requires 0 <= i < |containers| => containers[i].requests.cpu)
  }

  function MemoryRequests(containers: seq<Container>): seq<int>
  {
    seq(|containers|, i requires 0 <= i < |containers| => containers[i].requests.memory)
  }

  function Requests(containers: seq<Container>): Resources
  {
    Resources(Sum(CpuRequests(containers)), Sum(MemoryRequests(containers)))
  }

  /** The list after the pods have been processed in order. */
  ghost function Kept(scales: seq<PodScale>, pods: seq<Pod>): seq<PodScale>
  {
    if |pods| == 0 then scales
    else
      var kept, pod := Kept(scales, pods[..|pods| - 1]), pods[|pods| - 1];
      if Listed(kept, pod.key) && pod.qos != Guaranteed then WithoutFirst(kept, pod.key) else kept
  }

  /** The resources subtracted from the node while the pods are processed. */
  ghost function Untracked(scales: seq<PodScale>, pods: seq<Pod>): Resources
  {
    if |pods| == 0 then Resources(0, 0)
    else
      var rest, pod := pods[..|pods| - 1], pods[|pods| - 1];
      var sum := Untracked(scales, rest);
      if Listed(Kept(scales, rest), pod.key) && pod.qos == Guaranteed then sum
      else Plus(sum, Requests(pod.containers))
  }

  // ---- What the bookkeeping means ------------------------------------------

  ghost predicate OnePodScalePerPod(scales: seq<PodScale>)
  {
    forall i, j :: 0 <= i < j < |scales| ==> scales[i].spec.key != scales[j].spec.key
  }

  ghost predicate DistinctPods(pods: seq<Pod>)
  {
    forall i, j :: 0 <= i < j < |pods| ==> pods[i].key != pods[j].key
  }

  ghost predicate Demoted(key: Key, pods: seq<Pod>)
  {
    exists i :: 0 <= i < |pods| && pods[i].key == key && pods[i].qos != Guaranteed
  }

  /** The order-preserving filter: podscales whose pod is not demoted. */
  ghost function Survivors(scales: seq<PodScale>, pods: seq<Pod>): seq<PodScale>
  {
    if |scales| == 0 then []
    else if Demoted(scales[0].spec.key, pods) then Survivors(scales[1..], pods)
    else [scales[0]] + Survivors(scales[1..], pods)
  }

  /** The requests of the pods that have no podscale in the list. */
  ghost function RequestsOutside(pods: seq<Pod>, scales: seq<PodScale>): Resources
  {
    if |pods| == 0 then Resources(0, 0)
    else
      var rest, pod := pods[..|pods| - 1], pods[|pods| - 1];
      var sum := RequestsOutside(rest, scales);
      if Listed(scales, pod.key) then sum else Plus(sum, Requests(pod.containers))
  }

  lemma DemotedStep(key: Key, pods: seq<Pod>)
    requires 0 < |pods|
    ensures var rest, pod := pods[..|pods| - 1], pods[|pods| - 1];
            Demoted(key, pods) == (Demoted(key, rest) || (pod.key == key && pod.qos != Guaranteed))
  {
    var rest, pod := pods[..|pods| - 1], pods[|pods| - 1];
    if Demoted(key, rest) {
      var i :| 0 <= i < |rest| && rest[i].key == key && rest[i].qos != Guaranteed;
      assert pods[i] == rest[i];
    }
    if Demoted(key, pods) {
      var i :| 0 <= i < |pods| && pods[i].key == key && pods[i].qos != Guaranteed;
      assert i < |rest| ==> rest[i] == pods[i];
    }
  }

  lemma {:induction false} ListedInSurvivors(scales: seq<PodScale>, pods: seq<Pod>, key: Key)
    ensures Listed(Survivors(scales, pods), key) == (Listed(scales, key) && !Demoted(key, pods))
  {
    if |scales| == 0 {
    } else {
      var s, rest := scales[0], scales[1..];
      ListedInSurvivors(rest, pods, key);
      ListedHead(scales, key);
      if !Demoted(s.spec.key, pods) {
        ListedHead([s] + Survivors(rest, pods), key);
        assert ([s] + Survivors(rest, pods))[1..] == Survivors(rest, pods);
      }
    }
  }

  lemma ListedHead(scales: seq<PodScale>, key: Key)
    requires 0 < |scales|
    ensures Listed(scales, key) == (scales[0].spec.key == key || Listed(scales[1..], key))
  {
    if Listed(scales[1..], key) {
      var i :| 0 <= i < |scales[1..]| && scales[1..][i].spec.key == key;
      assert scales[i + 1].spec.key == key;
    }
    if Listed(scales, key) {
      var i :| 0 <= i < |scales| && scales[i].spec.key == key;
      assert i != 0 ==> scales[1..][i - 1].spec.key == key;
    }
  }

  /** One pod more: filtering by it is what one in-place deletion does. */
  lemma {:induction false} SurvivorsStep(scales: seq<PodScale>, pods: seq<Pod>)
    requires 0 < |pods| && OnePodScalePerPod(scales)
    ensures var rest, pod := pods[..|pods| - 1], pods[|pods| - 1];
            Survivors(scales, pods) ==
            if pod.qos != Guaranteed then WithoutFirst(Survivors(scales, rest), pod.key)
            else Survivors(scales, rest)
  {
    var rest, pod := pods[..|pods| - 1], pods[|pods| - 1];
    if |scales| == 0 {
    } else {
      var s, tail := scales[0], scales[1..];
      SurvivorsStep(tail, pods);
      DemotedStep(s.spec.key, pods);
      if pod.qos != Guaranteed && s.spec.key == pod.key {
        assert !Listed(tail, pod.key);
        ListedInSurvivors(tail, rest, pod.key);
        WithoutUnlisted(Survivors(tail, rest), pod.key);
      }
      if !Demoted(s.spec.key, rest) {
        assert ([s] + Survivors(tail, rest))[1..] == Survivors(tail, rest);
      }
    }
  }

  lemma {:induction false} WithoutUnlisted(scales: seq<PodScale>, key: Key)
    requires !Listed(scales, key)
    ensures WithoutFirst(scales, key) == scales
  {
    if |scales| == 0 {
    } else {
      ListedHead(scales, key);
      WithoutUnlisted(scales[1..], key);
    }
  }

  /** With at most one podscale per pod, what is left after all deletions is
      exactly the order-preserving filter of the list. */
  lemma {:induction false} KeptIsFilter(scales: seq<PodScale>, pods: seq<Pod>)
    requires OnePodScalePerPod(scales)
    ensures Kept(scales, pods) == Survivors(scales, pods)
  {
    if |pods| == 0 {
      NothingDemoted(scales);
    } else {
      var rest, pod := pods[..|pods| - 1], pods[|pods| - 1];
      KeptIsFilter(scales, rest);
      SurvivorsStep(scales, pods);
      if !Listed(Kept(scales, rest), pod.key) {
        WithoutUnlisted(Kept(scales, rest), pod.key);
      }
    }
  }

  lemma {:induction false} NothingDemoted(scales: seq<PodScale>)
    ensures Survivors(scales, []) == scales
  {
    if |scales| == 0 {
    } else {
      NothingDemoted(scales[1..]);
    }
  }

  /** The subtracted requests are those of the pods outside the final list. */
  lemma {:induction false} UntrackedIsOutside(scales: seq<PodScale>, pods: seq<Pod>, all: seq<Pod>)
    requires OnePodScalePerPod(scales) && DistinctPods(all) && pods <= all
    ensures Untracked(scales, pods) == RequestsOutside(pods, Survivors(scales, all))
  {
    if |pods| == 0 {
    } else {
      var n := |pods| - 1;
      var rest, pod := pods[..n], pods[n];
      UntrackedIsOutside(scales, rest, all);
      KeptIsFilter(scales, rest);
      ListedInSurvivors(scales, rest, pod.key);
      ListedInSurvivors(scales, all, pod.key);
      assert all[n] == pod;
      assert pod.qos == Guaranteed ==> !Demoted(pod.key, all);
      assert !Demoted(pod.key, rest);
    }
  }

  /** Conservation: what the manager may hand out plus the requests of all pods
      outside its list is the capacity of the node, each pod counted once. */
  lemma AllocatableConserved(capacity: Resources, scales: seq<PodScale>, pods: seq<Pod>)
    requires OnePodScalePerPod(scales) && DistinctPods(pods)
    ensures Plus(Minus(capacity, Untracked(scales, pods)),
                 RequestsOutside(pods, Kept(scales, pods))) == capacity
  {
    KeptIsFilter(scales, pods);
    UntrackedIsOutside(scales, pods, pods);
  }

  // ---- The manager ---------------------------------------------------------

  ghost function CpuDemands(scales: seq<PodScale>): (d: seq<int>)
    reads scales
    ensures |d| == |scales|
  {
    seq(|scales|, i requires 0 <= i < |scales| reads scales => scales[i].capped.cpu)
  }

  ghost function MemoryDemands(scales: seq<PodScale>): (d: seq<int>)
    reads scales
    ensures |d| == |scales|
  {
    seq(|scales|, i requires 0 <= i < |scales| reads scales => scales[i].capped.memory)
  }

  /** What one solve assigns: the proportional allocation of both resources. */
  ghost predicate Solved(scales: seq<PodScale>, capacity: Resources)
    requires 0 <= capacity.cpu && 0 <= capacity.memory
    reads scales
  {
    forall i :: 0 <= i < |scales| ==>
      scales[i].actual == Resources(Allocate(CpuDemands(scales), capacity.cpu)[i],
                                    Allocate(MemoryDemands(scales), capacity.memory)[i])
  }

  class ContentionManager {
    const capacity: Resources
    const data: array<PodScale>
    const len: nat

    ghost predicate Valid()
    {
      len <= data.Length && 0 <= capacity.cpu && 0 <= capacity.memory
    }

    ghost function PodScales(): seq<PodScale>
      requires Valid()
      reads data
    {
      data[..len]
    }

    constructor (capacity: Resources, data: array<PodScale>, len: nat)
      requires len <= data.Length && 0 <= capacity.cpu && 0 <= capacity.memory
      ensures Valid() && this.capacity == capacity && this.data == data && this.len == len
    {
      this.capacity, this.data, this.len := capacity, data, len;
    }

    method TotalDemand() returns (cpu: int, memory: int)
      requires Valid()
      ensures cpu == Sum(CpuDemands(PodScales())) && memory == Sum(MemoryDemands(PodScales()))
    {
      cpu, memory := 0, 0;
      ghost var cpus, memories := CpuDemands(PodScales()), MemoryDemands(PodScales());
      for i := 0 to len
        invariant cpu == Sum(cpus[..i]) && memory == Sum(memories[..i])
      {
        SumStep(cpus, i);
        SumStep(memories, i);
        cpu := cpu + data[i].capped.cpu;
        memory := memory + data[i].capped.memory;
      }
      assert cpus[..len] == cpus && memories[..len] == memories;
    }

    method Assign(cs: PodScale, desiredCpu: int, desiredMemory: int)
      requires Valid()
      modifies cs`actual
      ensures cs.actual == Resources(Share(cs.capped.cpu, desiredCpu, capacity.cpu),
                                     Share(cs.capped.memory, desiredMemory, capacity.memory))
    {
      var actualCpu, actualMemory;
      if desiredCpu > capacity.cpu {
        actualCpu := Proportional(cs.capped.cpu, desiredCpu, capacity.cpu);
      } else {
        actualCpu := cs.capped.cpu;
      }
      if desiredMemory > capacity.memory {
        actualMemory := Proportional(cs.capped.memory, desiredMemory, capacity.memory);
      } else {
        actualMemory := cs.capped.memory;
      }
      cs.actual := Resources(actualCpu, actualMemory);
    }

    /** Overwrites the actual resources of every podscale of the node. */
    method Solve()
      requires Valid()
      modifies (set i | 0 <= i < len :: data[i])`actual
      ensures Solved(PodScales(), capacity)
    {
      var desiredCpu, desiredMemory := TotalDemand();
      for i := 0 to len
        invariant forall j :: 0 <= j < i ==>
                    data[j].actual == Resources(Share(data[j].capped.cpu, desiredCpu, capacity.cpu),
                                                Share(data[j].capped.memory, desiredMemory, capacity.memory))
      {
        Assign(data[i], desiredCpu, desiredMemory);
      }
      assert CpuDemands(PodScales()) == old(CpuDemands(PodScales()));
      assert MemoryDemands(PodScales()) == old(MemoryDemands(PodScales()));
    }
  }

  /** Builds the manager. The struct argument is a copy of the caller's header,
      so deletions shorten only the copy while shifting the shared array. */
  method NewContentionManager(capacity: Resources, info: NodeScales, pods: seq<Pod>)
    returns (manager: ContentionManager?)
    requires info.Valid()
    modifies info.data
    ensures var allocatable := Minus(capacity, Untracked(old(info.PodScales()), pods));
            && ((manager == null) <==> (allocatable.cpu < 0 || allocatable.memory < 0))
            && (manager != null ==>
                  && fresh(manager) && manager.Valid() && manager.data == info.data
                  && manager.capacity == allocatable
                  && manager.PodScales() == Kept(old(info.PodScales()), pods))
  {
    var ns := new NodeScales(info.node, info.data, info.len);
    var untracked := Resources(0, 0);
    ghost var scales := info.PodScales();
    for p := 0 to |pods|
      invariant ns.Valid() && ns.data == info.data && fresh(ns)
      invariant ns.PodScales() == Kept(scales, pods[..p])
      invariant untracked == Untracked(scales, pods[..p])
    {
      assert pods[..p + 1][..p] == pods[..p];
      var pod := pods[p];
      var listed := ns.Contains(pod.key);
      if !listed {
        untracked := AddRequests(untracked, pod.containers);
      }
      listed := ns.Contains(pod.key);
      if listed && pod.qos != Guaranteed {
        var removed := ns.Remove(pod.key);
        untracked := AddRequests(untracked, pod.containers);
      }
    }
    assert pods[..|pods|] == pods;
    var allocatable := Minus(capacity, untracked);
    if allocatable.cpu < 0 || allocatable.memory < 0 {
      return null;
    }
    manager := new ContentionManager(allocatable, ns.data, ns.len);
  }

  method AddRequests(start: Resources, containers: seq<Container>) returns (total: Resources)
    ensures total == Plus(start, Requests(containers))
  {
    total := start;
    var cpu, memory := CpuRequests(containers), MemoryRequests(containers);
    for i := 0 to |containers|
      invariant total == Resources(start.cpu + Sum(cpu[..i]), start.memory + Sum(memory[..i]))
    {
      SumStep(cpu, i);
      SumStep(memory, i);
      total := Resources(total.cpu + containers[i].requests.cpu,
                         total.memory + containers[i].requests.memory);
    }
    assert cpu[..|containers|] == cpu && memory[..|containers|] == memory;
  }

  /** One hand-over: the header that travels on is the manager's, so a stale
      view of the shifted array never leaves the contention manager. With
      negative allocatable resources there is no manager and the source stops
      on a nil dereference, reported here as `ok == false`. */
  method ProcessNode(capacity: Resources, info: NodeScales, pods: seq<Pod>)
    returns (ok: bool)
    requires info.Valid()
    modifies info`len, info.data, (set i | 0 <= i < info.len :: info.data[i])`actual
    ensures info.Valid()
    ensures var allocatable := Minus(capacity, Untracked(old(info.PodScales()), pods));
            && (ok <==> 0 <= allocatable.cpu && 0 <= allocatable.memory)
            && (ok ==> && info.PodScales() == Kept(old(info.PodScales()), pods)
                       && Solved(info.PodScales(), allocatable))
  {
    ghost var scales := info.PodScales();
    var manager := NewContentionManager(capacity, info, pods);
    if manager == null {
      return false;
    }
    KeptAreListed(scales, pods);
    forall i | 0 <= i < manager.len ensures manager.data[i] in scales {
      assert manager.data[i] == manager.PodScales()[i];
    }
    manager.Solve();
    info.len := manager.len;
    return true;
  }

  lemma {:induction false} KeptAreListed(scales: seq<PodScale>, pods: seq<Pod>)
    ensures |Kept(scales, pods)| <= |scales|
    ensures forall s :: s in Kept(scales, pods) ==> s in scales
  {
    if |pods| == 0 {
    } else {
      var rest, pod := pods[..|pods| - 1], pods[|pods| - 1];
      KeptAreListed(scales, rest);
      WithoutFirstShrinks(Kept(scales, rest), pod.key);
    }
  }

  lemma {:induction false} WithoutFirstShrinks(scales: seq<PodScale>, key: Key)
    ensures |WithoutFirst(scales, key)| <= |scales|
    ensures forall s :: s in WithoutFirst(scales, key) ==> s in scales
  {
    if |scales| == 0 {
    } else {
      WithoutFirstShrinks(scales[1..], key);
    }
  }
}
