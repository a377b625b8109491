/** Reconciliation of the podscales of one service with its pods. One
    namespace; the store maps the names of podscales to the podscales. */
module Reconciliation {
  import opened Types

  const NODE_LABEL := "system.autoscaler/node"

  datatype PodScaleObject = PodScaleObject(name: string, labels: map<string, string>, value: ScaleValue)

  type Store = map<string, PodScaleObject>

  datatype Service = Service(name: string, selector: map<string, string>)

  ghost predicate Matches(selector: map<string, string>, labels: map<string, string>)
  {
    forall k :: k in selector ==> k in labels && labels[k] == selector[k]
  }

  function TrackedPod(scale: PodScaleObject): string
  {
    scale.value.spec.key.name
  }

  // ---- DiffPods ------------------------------------------------------------

  datatype StateDiff = StateDiff(addList: seq<Pod>, deleteList: seq<PodScaleObject>)

  ghost predicate Named(pods: seq<Pod>, name: string)
  {
    exists i :: 0 <= i < |pods| && pods[i].key.name == name
  }

  ghost predicate Tracked(scales: seq<PodScaleObject>, name: string)
  {
    exists i :: 0 <= i < |scales| && TrackedPod(scales[i]) == name
  }

  /** The pods without a podscale, in order. */
  ghost function Untracked(pods: seq<Pod>, scales: seq<PodScaleObject>): seq<Pod>
  {
    if |pods| == 0 then []
    else
      var rest, pod := Untracked(pods[..|pods| - 1], scales), pods[|pods| - 1];
      if Tracked(scales, pod.key.name) then rest else rest + [pod]
  }

  /** The podscales without a pod, in order. */
  ghost function Orphans(scales: seq<PodScaleObject>, pods: seq<Pod>): seq<PodScaleObject>
  {
    if |scales| == 0 then []
    else
      var rest, scale := Orphans(scales[..|scales| - 1], pods), scales[|scales| - 1];
      if Named(pods, TrackedPod(scale)) then rest else rest + [scale]
  }

  method DiffPods(pods: seq<Pod>, scales: seq<PodScaleObject>) returns (result: StateDiff)
    ensures result == StateDiff(Untracked(pods, scales), Orphans(scales, pods))
  {
    var blueprint: map<string, bool> := map[];
    var addList: seq<Pod> := [];
    var deleteList: seq<PodScaleObject> := [];
    for i := 0 to |scales|
      invariant forall name :: name in blueprint <==> Tracked(scales[..i], name)
    {
      forall name
        ensures Tracked(scales[..i + 1], name) <==> Tracked(scales[..i], name) || TrackedPod(scales[i]) == name
      {
        TrackedStep(scales, i, name);
      }
      blueprint := blueprint[TrackedPod(scales[i]) := true];
    }
    assert scales[..|scales|] == scales;
    for i := 0 to |pods|
      invariant addList == Untracked(pods[..i], scales)
    {
      assert pods[..i + 1][..i] == pods[..i];
      if pods[i].key.name !in blueprint {
        addList := addList + [pods[i]];
      }
    }
    assert pods[..|pods|] == pods;
    blueprint := map[];
    for i := 0 to |pods|
      invariant forall name :: name in blueprint <==> Named(pods[..i], name)
    {
      forall name ensures Named(pods[..i + 1], name) <==> Named(pods[..i], name) || pods[i].key.name == name {
        NamedStep(pods, i, name);
      }
      blueprint := blueprint[pods[i].key.name := true];
    }
    for i := 0 to |scales|
      invariant deleteList == Orphans(scales[..i], pods)
    {
      assert scales[..i + 1][..i] == scales[..i];
      if TrackedPod(scales[i]) !in blueprint {
        deleteList := deleteList + [scales[i]];
      }
    }
    result := StateDiff(addList, deleteList);
  }

  lemma TrackedStep(scales: seq<PodScaleObject>, i: nat, name: string)
    requires i < |scales|
    ensures Tracked(scales[..i + 1], name) <==> Tracked(scales[..i], name) || TrackedPod(scales[i]) == name
  {
    if Tracked(scales[..i], name) {
      var j :| 0 <= j < i && TrackedPod(scales[..i][j]) == name;
      assert TrackedPod(scales[..i + 1][j]) == name;
    }
    if TrackedPod(scales[i]) == name {
      assert TrackedPod(scales[..i + 1][i]) == name;
    }
    if Tracked(scales[..i + 1], name) {
      var j :| 0 <= j <= i && TrackedPod(scales[..i + 1][j]) == name;
      assert j < i ==> TrackedPod(scales[..i][j]) == name;
    }
  }

  lemma NamedStep(pods: seq<Pod>, i: nat, name: string)
    requires i < |pods|
    ensures Named(pods[..i + 1], name) <==> Named(pods[..i], name) || pods[i].key.name == name
  {
    if Named(pods[..i], name) {
      var j :| 0 <= j < i && pods[..i][j].key.name == name;
      assert pods[..i + 1][j].key.name == name;
    }
    if pods[i].key.name == name {
      assert pods[..i + 1][i].key.name == name;
    }
    if Named(pods[..i + 1], name) {
      var j :| 0 <= j <= i && pods[..i + 1][j].key.name == name;
      assert j < i ==> pods[..i][j].key.name == name;
    }
  }

  // ---- SyncService ---------------------------------------------------------

  function ScaleName(pod: string): string
  {
    "pod-" + pod
  }

  function NewPodScale(pod: Pod, sla: Sla, namespace: string, service: Service): PodScaleObject
  {
    var spec := PodScaleSpec(Key(namespace, pod.key.name), sla.name, service.name, sla.container);
    PodScaleObject(ScaleName(pod.key.name), service.selector[NODE_LABEL := pod.node],
                   ScaleValue(spec, sla.defaultResources, sla.defaultResources, sla.defaultResources))
  }

  ghost predicate Eligible(pod: Pod, sla: Sla)
  {
    pod.qos == Guaranteed && HasContainer(pod.containers, sla.container)
  }

  /** The store after creating podscales for these pods; a name that is already
      taken is left alone. */
  ghost function Created(store: Store, pods: seq<Pod>, sla: Sla, namespace: string, service: Service): Store
  {
    if |pods| == 0 then store
    else
      var rest, pod := Created(store, pods[..|pods| - 1], sla, namespace, service), pods[|pods| - 1];
      var scale := NewPodScale(pod, sla, namespace, service);
      if !Eligible(pod, sla) || scale.name in rest then rest else rest[scale.name := scale]
  }

  ghost function NamesOf(scales: seq<PodScaleObject>): set<string>
  {
    set i | 0 <= i < |scales| :: scales[i].name
  }

  ghost function Reconciled(store: Store, pods: seq<Pod>, scales: seq<PodScaleObject>,
                            sla: Sla, namespace: string, service: Service): Store
  {
    Created(store, Untracked(pods, scales), sla, namespace, service) - NamesOf(Orphans(scales, pods))
  }

  ghost predicate UniqueNames(scales: seq<PodScaleObject>)
  {
    forall i, j :: 0 <= i < j < |scales| ==> scales[i].name != scales[j].name
  }

  /** `scales` lists the podscales of the store that the selector matches. */
  ghost predicate Lists(scales: seq<PodScaleObject>, store: Store, selector: map<string, string>)
  {
    && (forall i :: 0 <= i < |scales| ==>
          scales[i].name in store && store[scales[i].name] == scales[i] && Matches(selector, scales[i].labels))
    && (forall n :: n in store && Matches(selector, store[n].labels) ==> store[n] in scales)
    && UniqueNames(scales)
  }

  method FindContainer(list: seq<Container>, element: string) returns (found: bool)
    ensures found == HasContainer(list, element)
  {
    for i := 0 to |list|
      invariant forall j :: 0 <= j < i ==> list[j].name != element
    {
      if list[i].name == element {
        return true;
      }
    }
    return false;
  }

  class PodScaleStore {
    var scales: Store

    method Create(scale: PodScaleObject) returns (alreadyExists: bool)
      modifies this
      ensures alreadyExists == (scale.name in old(scales))
      ensures scales == if alreadyExists then old(scales) else old(scales)[scale.name := scale]
    {
      alreadyExists := scale.name in scales;
      if !alreadyExists {
        scales := scales[scale.name := scale];
      }
    }

    method Delete(name: string) returns (found: bool)
      modifies this
      ensures found == (name in old(scales)) && scales == old(scales) - {name}
    {
      found := name in scales;
      scales := scales - {name};
    }

    method CreateMissing(namespace: string, service: Service, sla: Sla, adds: seq<Pod>, failing: set<string>)
      returns (ok: bool, done: nat)
      modifies this
      ensures done <= |adds| && scales == Created(old(scales), adds[..done], sla, namespace, service)
      ensures ok ==> done == |adds|
      ensures failing == {} ==> ok
    {
      for i := 0 to |adds|
        invariant scales == Created(old(scales), adds[..i], sla, namespace, service)
      {
        assert adds[..i + 1][..i] == adds[..i];
        var pod := adds[i];
        if pod.qos != Guaranteed {
          continue;
        }
        var found := FindContainer(pod.containers, sla.container);
        if !found {
          continue;
        }
        var podscale := NewPodScale(pod, sla, namespace, service);
        if podscale.name in failing {
          return false, i;
        }
        var _ := Create(podscale);
      }
      return true, |adds|;
    }

    /** Stops at the first request that fails, which it also does when the
        podscale is not in the store any more. */
    method DeleteOrphans(deletes: seq<PodScaleObject>, failing: set<string>) returns (ok: bool, done: nat)
      modifies this
      ensures done <= |deletes| && scales == old(scales) - NamesOf(deletes[..done])
      ensures ok ==> done == |deletes|
      ensures !ok ==> done < |deletes| && (deletes[done].name in failing || deletes[done].name !in scales)
    {
      assert scales - NamesOf(deletes[..0]) == scales;
      for i := 0 to |deletes|
        invariant scales == old(scales) - NamesOf(deletes[..i])
      {
        NamesStep(deletes, i);
        if deletes[i].name in failing {
          return false, i;
        }
        var found := Delete(deletes[i].name);
        if !found {
          return false, i;
        }
      }
      return true, |deletes|;
    }

    /** `failing` names the podscales whose create or delete request fails; the
        first failure stops the sync with the store part of the way. The lister
        may be stale: `listed` need not be what the store holds. */
    method SyncService(namespace: string, service: Service, sla: Sla, pods: seq<Pod>,
                       listed: seq<PodScaleObject>, failing: set<string>)
      returns (ok: bool, created: nat, deleted: nat)
      modifies this
      ensures created <= |Untracked(pods, listed)| && deleted <= |Orphans(listed, pods)|
      ensures scales == Created(old(scales), Untracked(pods, listed)[..created], sla, namespace, service)
                        - NamesOf(Orphans(listed, pods)[..deleted])
      ensures ok ==> scales == Reconciled(old(scales), pods, listed, sla, namespace, service)
      ensures 0 < deleted ==> created == |Untracked(pods, listed)|
      ensures failing == {} && Lists(listed, old(scales), service.selector) ==> ok
    {
      ghost var before := scales;
      var diff := DiffPods(pods, listed);
      deleted := 0;
      ok, created := CreateMissing(namespace, service, sla, diff.addList, failing);
      assert scales - NamesOf(diff.deleteList[..0]) == scales;
      if !ok {
        return;
      }
      assert diff.addList[..created] == diff.addList;
      CreatedKeeps(before, diff.addList, sla, namespace, service);
      ok, deleted := DeleteOrphans(diff.deleteList, failing);
      assert diff.deleteList[..|diff.deleteList|] == diff.deleteList;
      if !ok && Lists(listed, before, service.selector) {
        OrphansListed(listed, pods);
        DistinctNames(diff.deleteList, deleted);
        assert diff.deleteList[deleted] in listed;
      }
    }
  }

  lemma NamesStep(scales: seq<PodScaleObject>, i: nat)
    requires i < |scales|
    ensures NamesOf(scales[..i + 1]) == NamesOf(scales[..i]) + {scales[i].name}
  {
    var shorter, longer := scales[..i], scales[..i + 1];
    forall n ensures n in NamesOf(longer) <==> n in NamesOf(shorter) || n == scales[i].name {
      if n in NamesOf(shorter) {
        var j :| 0 <= j < i && shorter[j].name == n;
        assert longer[j].name == n;
      }
      if n == scales[i].name {
        assert longer[i].name == n;
      }
      if n in NamesOf(longer) {
        var j :| 0 <= j <= i && longer[j].name == n;
        assert j < i ==> shorter[j].name == n;
      }
    }
  }

  lemma DistinctNames(scales: seq<PodScaleObject>, i: nat)
    requires UniqueNames(scales)
    requires i < |scales|
    ensures scales[i].name !in NamesOf(scales[..i])
  {
  }

  /** Orphans are listed podscales, in the order of the list. */
  lemma {:induction false} OrphansListed(scales: seq<PodScaleObject>, pods: seq<Pod>)
    requires UniqueNames(scales)
    ensures forall s :: s in Orphans(scales, pods) <==> s in scales && !Named(pods, TrackedPod(s))
    ensures UniqueNames(Orphans(scales, pods))
  {
    if |scales| == 0 {
    } else {
      var n := |scales| - 1;
      OrphansListed(scales[..n], pods);
      assert scales == scales[..n] + [scales[n]];
      var rest := Orphans(scales[..n], pods);
      assert UniqueNames(scales[..n]);
      forall i | 0 <= i < |rest| ensures rest[i].name != scales[n].name {
        assert rest[i] in scales[..n];
        var j :| 0 <= j < n && scales[j] == rest[i];
      }
      UniqueAppend(rest, scales[n]);
    }
  }

  lemma UniqueAppend(scales: seq<PodScaleObject>, s: PodScaleObject)
    requires UniqueNames(scales) && forall i :: 0 <= i < |scales| ==> scales[i].name != s.name
    ensures UniqueNames(scales + [s])
  {
  }

  lemma {:induction false} UntrackedListed(pods: seq<Pod>, scales: seq<PodScaleObject>)
    ensures forall p :: p in Untracked(pods, scales) <==> p in pods && !Tracked(scales, p.key.name)
  {
    if |pods| == 0 {
    } else {
      var n := |pods| - 1;
      UntrackedListed(pods[..n], scales);
      assert pods == pods[..n] + [pods[n]];
    }
  }

  ghost predicate DistinctPodNames(pods: seq<Pod>)
  {
    forall i, j :: 0 <= i < j < |pods| ==> pods[i].key.name != pods[j].key.name
  }

  lemma {:induction false} CreatedKeeps(store: Store, pods: seq<Pod>, sla: Sla, namespace: string, service: Service)
    ensures var store' := Created(store, pods, sla, namespace, service);
            && (forall n :: n in store ==> n in store' && store'[n] == store[n])
            && (forall n :: n in store' && n !in store ==>
                  exists p :: p in pods && Eligible(p, sla) && store'[n] == NewPodScale(p, sla, namespace, service)
                              && n == store'[n].name)
            && (forall p :: p in pods && Eligible(p, sla) ==> ScaleName(p.key.name) in store')
  {
    if |pods| == 0 {
    } else {
      var n := |pods| - 1;
      CreatedKeeps(store, pods[..n], sla, namespace, service);
      assert pods == pods[..n] + [pods[n]];
    }
  }

  // ---- What one sync achieves ----------------------------------------------

  /** Podscales are stored under their names, which are derived from pods. */
  ghost predicate WellNamed(store: Store)
  {
    forall n :: n in store ==> store[n].name == n && n == ScaleName(TrackedPod(store[n]))
  }

  /** The service tracks the pod: a podscale for it matches the selector. */
  ghost predicate IsTracked(store: Store, selector: map<string, string>, pod: string)
  {
    && ScaleName(pod) in store && TrackedPod(store[ScaleName(pod)]) == pod
    && Matches(selector, store[ScaleName(pod)].labels)
  }

  /** The labels of a new podscale match the selector that lists it again,
      except when the selector itself asks for another node. */
  lemma NewPodScaleMatches(pod: Pod, sla: Sla, namespace: string, service: Service)
    ensures Matches(service.selector, NewPodScale(pod, sla, namespace, service).labels) <==>
            (NODE_LABEL in service.selector ==> service.selector[NODE_LABEL] == pod.node)
  {
    var labels := NewPodScale(pod, sla, namespace, service).labels;
    if NODE_LABEL in service.selector && service.selector[NODE_LABEL] != pod.node {
      assert labels[NODE_LABEL] != service.selector[NODE_LABEL];
    }
  }

  lemma ScaleNameInjective(a: string, b: string)
    ensures ScaleName(a) == ScaleName(b) ==> a == b
  {
    assert ScaleName(a)[4..] == a && ScaleName(b)[4..] == b;
  }

  lemma ListedIffTracked(scales: seq<PodScaleObject>, store: Store, selector: map<string, string>, pod: string)
    requires WellNamed(store) && Lists(scales, store, selector)
    ensures Tracked(scales, pod) <==> IsTracked(store, selector, pod)
  {
    if IsTracked(store, selector, pod) {
      var s := store[ScaleName(pod)];
      assert s in scales;
      var i :| 0 <= i < |scales| && scales[i] == s;
      assert TrackedPod(scales[i]) == pod;
    }
    if Tracked(scales, pod) {
      var i :| 0 <= i < |scales| && TrackedPod(scales[i]) == pod;
      assert store[scales[i].name] == scales[i];
    }
  }

  /** A pod that the sync starts to track: an eligible one without a podscale,
      whose podscale name is free and whose node the selector allows. */
  ghost predicate BecomesTracked(store: Store, pods: seq<Pod>, sla: Sla, service: Service, pod: Pod)
  {
    && pod in pods && Eligible(pod, sla)
    && !IsTracked(store, service.selector, pod.key.name) && ScaleName(pod.key.name) !in store
    && (NODE_LABEL in service.selector ==> service.selector[NODE_LABEL] == pod.node)
  }

  /** What happens to each name of the store. */
  lemma ReconciledAt(store: Store, pods: seq<Pod>, scales: seq<PodScaleObject>,
                     sla: Sla, namespace: string, service: Service, n: string)
    requires WellNamed(store) && Lists(scales, store, service.selector) && DistinctPodNames(pods)
    ensures var store' := Reconciled(store, pods, scales, sla, namespace, service);
            if n in store then
              if Matches(service.selector, store[n].labels) && !Named(pods, TrackedPod(store[n]))
              then n !in store' else n in store' && store'[n] == store[n]
            else
              n in store' <==> exists p :: p in pods && Eligible(p, sla) && n == ScaleName(p.key.name)
    ensures var store' := Reconciled(store, pods, scales, sla, namespace, service);
            n in store' && n !in store ==>
              exists p :: p in pods && Eligible(p, sla) && n == ScaleName(p.key.name)
                          && store'[n] == NewPodScale(p, sla, namespace, service)
  {
    var adds, orphans := Untracked(pods, scales), Orphans(scales, pods);
    var created := Created(store, adds, sla, namespace, service);
    UntrackedListed(pods, scales);
    OrphansListed(scales, pods);
    CreatedKeeps(store, adds, sla, namespace, service);
    assert n in NamesOf(orphans) <==>
             n in store && Matches(service.selector, store[n].labels) && !Named(pods, TrackedPod(store[n])) by {
      if n in NamesOf(orphans) {
        var i :| 0 <= i < |orphans| && orphans[i].name == n;
        assert orphans[i] in orphans;
      }
      if n in store && Matches(service.selector, store[n].labels) && !Named(pods, TrackedPod(store[n])) {
        assert store[n] in orphans;
      }
    }
    if n !in store {
      forall p | p in pods && Eligible(p, sla) && n == ScaleName(p.key.name)
        ensures n in created
      {
        ListedIffTracked(scales, store, service.selector, p.key.name);
        assert p in adds;
      }
    }
  }

  /** One sync: the pods tracked afterwards are exactly the tracked ones that
      still exist and those that became eligible, and podscales that the
      selector does not match are untouched. */
  lemma SyncTracksExactly(store: Store, pods: seq<Pod>, scales: seq<PodScaleObject>,
                          sla: Sla, namespace: string, service: Service)
    requires WellNamed(store) && Lists(scales, store, service.selector) && DistinctPodNames(pods)
    ensures var store' := Reconciled(store, pods, scales, sla, namespace, service);
            && WellNamed(store')
            && (forall name :: IsTracked(store', service.selector, name) <==>
                  || (IsTracked(store, service.selector, name) && Named(pods, name))
                  || exists p: Pod :: p.key.name == name && BecomesTracked(store, pods, sla, service, p))
            && (forall n :: n in store && !Matches(service.selector, store[n].labels) ==>
                  n in store' && store'[n] == store[n])
  {
    var store' := Reconciled(store, pods, scales, sla, namespace, service);
    forall n ensures n in store' ==> store'[n].name == n && n == ScaleName(TrackedPod(store'[n]))
      ensures n in store && !Matches(service.selector, store[n].labels) ==> n in store' && store'[n] == store[n]
    {
      ReconciledAt(store, pods, scales, sla, namespace, service, n);
    }
    forall name
      ensures IsTracked(store', service.selector, name) <==>
                || (IsTracked(store, service.selector, name) && Named(pods, name))
                || exists p: Pod :: p.key.name == name && BecomesTracked(store, pods, sla, service, p)
    {
      TrackedAfter(store, pods, scales, sla, namespace, service, name);
    }
  }

  lemma TrackedAfter(store: Store, pods: seq<Pod>, scales: seq<PodScaleObject>,
                     sla: Sla, namespace: string, service: Service, name: string)
    requires WellNamed(store) && Lists(scales, store, service.selector) && DistinctPodNames(pods)
    ensures var store' := Reconciled(store, pods, scales, sla, namespace, service);
            IsTracked(store', service.selector, name) <==>
              || (IsTracked(store, service.selector, name) && Named(pods, name))
              || exists p: Pod :: p.key.name == name && BecomesTracked(store, pods, sla, service, p)
  {
    var n := ScaleName(name);
    var store' := Reconciled(store, pods, scales, sla, namespace, service);
    ReconciledAt(store, pods, scales, sla, namespace, service, n);
    if n in store {
      ScaleNameInjective(name, TrackedPod(store[n]));
      assert TrackedPod(store[n]) == name;
    } else {
      if n in store' {
        var p :| p in pods && Eligible(p, sla) && n == ScaleName(p.key.name)
                 && store'[n] == NewPodScale(p, sla, namespace, service);
        ScaleNameInjective(name, p.key.name);
        NewPodScaleMatches(p, sla, namespace, service);
        if IsTracked(store', service.selector, name) {
          assert BecomesTracked(store, pods, sla, service, p);
        }
      }
      forall p: Pod | p.key.name == name && BecomesTracked(store, pods, sla, service, p)
        ensures IsTracked(store', service.selector, name)
      {
        assert n in store';
        var q :| q in pods && Eligible(q, sla) && n == ScaleName(q.key.name)
                 && store'[n] == NewPodScale(q, sla, namespace, service);
        ScaleNameInjective(name, q.key.name);
        SamePod(pods, p, q);
        NewPodScaleMatches(p, sla, namespace, service);
      }
    }
  }

  /** A podscale made for that pod, field by field. */
  ghost predicate MadeFor(scale: PodScaleObject, pod: Pod, sla: Sla, namespace: string, service: Service)
  {
    && scale.name == "pod-" + pod.key.name
    && scale.labels.Keys == service.selector.Keys + {"system.autoscaler/node"}
    && scale.labels["system.autoscaler/node"] == pod.node
    && (forall k :: k in service.selector && k != "system.autoscaler/node" ==> scale.labels[k] == service.selector[k])
    && scale.value.spec.key.namespace == namespace && scale.value.spec.key.name == pod.key.name
    && scale.value.spec.sla == sla.name && scale.value.spec.service == service.name
    && scale.value.spec.container == sla.container
    && scale.value.desired == sla.defaultResources && scale.value.capped == sla.defaultResources
    && scale.value.actual == sla.defaultResources
  }

  /** The pod may get a podscale: it is Guaranteed and has the container that the
      agreement names. */
  ghost predicate MayBeScaled(pod: Pod, sla: Sla)
  {
    pod.qos == Guaranteed && exists j :: 0 <= j < |pod.containers| && pod.containers[j].name == sla.container
  }

  lemma EligibleMeansScalable(pod: Pod, sla: Sla)
    ensures Eligible(pod, sla) <==> MayBeScaled(pod, sla)
  {
    var i := FirstNamed(pod.containers, sla.container);
    if i < |pod.containers| {
      assert pod.containers[i].name == sla.container;
    }
  }

  lemma NewIsMadeFor(pod: Pod, sla: Sla, namespace: string, service: Service)
    ensures MadeFor(NewPodScale(pod, sla, namespace, service), pod, sla, namespace, service)
  {
  }

  /** What one sync creates: a pod that may be scaled and whose podscale name is
      free gets a podscale made for it, and nothing else gets into the store. */
  lemma SyncCreatesExactly(store: Store, pods: seq<Pod>, scales: seq<PodScaleObject>,
                           sla: Sla, namespace: string, service: Service, name: string)
    requires WellNamed(store) && Lists(scales, store, service.selector) && DistinctPodNames(pods)
    requires "pod-" + name !in store
    ensures var store' := Reconciled(store, pods, scales, sla, namespace, service);
            && ("pod-" + name in store' <==> exists p :: p in pods && p.key.name == name && MayBeScaled(p, sla))
            && forall p :: p in pods && p.key.name == name && MayBeScaled(p, sla) ==>
                 "pod-" + name in store' && MadeFor(store'["pod-" + name], p, sla, namespace, service)
  {
    var n := "pod-" + name;
    assert n == ScaleName(name);
    ReconciledAt(store, pods, scales, sla, namespace, service, n);
    var store' := Reconciled(store, pods, scales, sla, namespace, service);
    if n in store' {
      var p :| p in pods && Eligible(p, sla) && n == ScaleName(p.key.name)
               && store'[n] == NewPodScale(p, sla, namespace, service);
      ScaleNameInjective(name, p.key.name);
      EligibleMeansScalable(p, sla);
      NewIsMadeFor(p, sla, namespace, service);
      forall q | q in pods && q.key.name == name && MayBeScaled(q, sla)
        ensures MadeFor(store'[n], q, sla, namespace, service)
      {
        SamePod(pods, p, q);
      }
    }
    forall p | p in pods && p.key.name == name && MayBeScaled(p, sla) ensures n in store' {
      EligibleMeansScalable(p, sla);
      assert n == ScaleName(p.key.name);
    }
  }

  /** Every newly tracked pod has a podscale made for it by this sync. */
  lemma NewlyTrackedAreMade(store: Store, pods: seq<Pod>, scales: seq<PodScaleObject>,
                            sla: Sla, namespace: string, service: Service, name: string)
    requires WellNamed(store) && Lists(scales, store, service.selector) && DistinctPodNames(pods)
    requires !IsTracked(store, service.selector, name)
    requires IsTracked(Reconciled(store, pods, scales, sla, namespace, service), service.selector, name)
    ensures exists p :: p in pods && p.key.name == name && MayBeScaled(p, sla)
                        && MadeFor(Reconciled(store, pods, scales, sla, namespace, service)["pod-" + name],
                                   p, sla, namespace, service)
  {
    var n := "pod-" + name;
    assert n == ScaleName(name);
    ReconciledAt(store, pods, scales, sla, namespace, service, n);
    if n !in store {
      SyncCreatesExactly(store, pods, scales, sla, namespace, service, name);
    }
  }

  lemma NamedMember(pods: seq<Pod>, p: Pod)
    requires p in pods
    ensures Named(pods, p.key.name)
  {
    var i :| 0 <= i < |pods| && pods[i] == p;
    assert pods[i].key.name == p.key.name;
  }

  lemma SamePod(pods: seq<Pod>, p: Pod, q: Pod)
    requires DistinctPodNames(pods) && p in pods && q in pods && p.key.name == q.key.name
    ensures p == q
  {
  }

  /** Reconciliation converges in one step: a second sync from any listing of
      the new store creates nothing and deletes nothing. */
  lemma SecondSyncChangesNothing(store: Store, pods: seq<Pod>, scales: seq<PodScaleObject>,
                                 scales': seq<PodScaleObject>, sla: Sla, namespace: string, service: Service)
    requires WellNamed(store) && Lists(scales, store, service.selector) && DistinctPodNames(pods)
    requires Lists(scales', Reconciled(store, pods, scales, sla, namespace, service), service.selector)
    ensures var store' := Reconciled(store, pods, scales, sla, namespace, service);
            Reconciled(store', pods, scales', sla, namespace, service) == store'
  {
    var store' := Reconciled(store, pods, scales, sla, namespace, service);
    var store'' := Reconciled(store', pods, scales', sla, namespace, service);
    SyncTracksExactly(store, pods, scales, sla, namespace, service);
    forall n
      ensures n in store' ==> n in store'' && store''[n] == store'[n]
      ensures n !in store' ==> n !in store''
    {
      ReconciledAt(store', pods, scales', sla, namespace, service, n);
      ReconciledAt(store, pods, scales, sla, namespace, service, n);
      if n in store' && n !in store {
        var p :| p in pods && Eligible(p, sla) && n == ScaleName(p.key.name)
                 && store'[n] == NewPodScale(p, sla, namespace, service);
        assert Named(pods, TrackedPod(store'[n]));
      }
      if n !in store' && n in store {
        forall p | p in pods && Eligible(p, sla) && n == ScaleName(p.key.name) ensures false {
          NamedMember(pods, p);
          ScaleNameInjective(p.key.name, TrackedPod(store[n]));
        }
      }
    }
  }
}
