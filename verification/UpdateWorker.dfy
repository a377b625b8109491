/** The update worker over the two versioned stores: a dry run of both updates,
    then the real ones, one podscale after the other. */
module UpdateWorker {
  import opened Common
  import opened Types
  import opened ResourceUpdater
  import H = Handoff

  datatype StoredPod = StoredPod(version: nat, pod: Pod)

  /** A podscale together with the version it was read at. */
  datatype StoredScale = StoredScale(version: nat, scale: ScaleValue)

  datatype Stores = Stores(pods: map<Key, StoredPod>, scales: map<Key, StoredScale>)

  /** Which of the four requests of an atomic update reach the server. */
  datatype Net = Net(dryPod: bool, dryScale: bool, realPod: bool, realScale: bool)

  // ---- Specification -------------------------------------------------------

  predicate PodAccepted(pods: map<Key, StoredPod>, update: StoredPod)
  {
    update.pod.key in pods && pods[update.pod.key].version == update.version
  }

  predicate ScaleAccepted(scales: map<Key, StoredScale>, update: StoredScale)
  {
    update.scale.spec.key in scales && scales[update.scale.spec.key].version == update.version
  }

  function PutPod(pods: map<Key, StoredPod>, update: StoredPod): map<Key, StoredPod>
  {
    pods[update.pod.key := StoredPod(update.version + 1, update.pod)]
  }

  function PutScale(scales: map<Key, StoredScale>, update: StoredScale): map<Key, StoredScale>
  {
    scales[update.scale.spec.key := StoredScale(update.version + 1, update.scale)]
  }

  /** The requests that would be tried before the real podscale update got through. */
  predicate PodLands(st: Stores, pod: StoredPod, scale: StoredScale, net: Net)
  {
    PodAccepted(st.pods, pod) && ScaleAccepted(st.scales, scale) && net.dryPod && net.dryScale && net.realPod
  }

  /** All-or-nothing, except when the very last request is lost. */
  function AfterUpdate(st: Stores, pod: StoredPod, scale: StoredScale, net: Net): Stores
  {
    if !PodLands(st, pod, scale, net) then st
    else Stores(PutPod(st.pods, pod), if net.realScale then PutScale(st.scales, scale) else st.scales)
  }

  datatype Outcome = Finished | Abandoned | Requeued

  const KOSMOS := "Kosmos"

  predicate MayScale(pod: Pod)
  {
    "autoscaling" in pod.labels && pod.labels["autoscaling"] == KOSMOS
  }

  function Work(st: Stores, cache: map<Key, StoredPod>, items: seq<StoredScale>, nets: seq<Net>)
    : (Stores, Outcome)
    requires |nets| == |items|
    decreases |items|
  {
    if |items| == 0 then (st, Finished)
    else
      var item := items[0];
      if item.scale.spec.key !in cache then (st, Abandoned)
      else
        var cached := cache[item.scale.spec.key];
        var sync := SyncOf(cached.pod, item.scale.spec.container, item.scale.actual);
        if !sync.Synced? then (st, Abandoned)
        else if !MayScale(sync.pod) then Work(st, cache, items[1..], nets[1..])
        else
          var pod := StoredPod(cached.version, sync.pod);
          var st' := AfterUpdate(st, pod, item, nets[0]);
          if PodLands(st, pod, item, nets[0]) && nets[0].realScale
          then Work(st', cache, items[1..], nets[1..])
          else (st', Requeued)
  }

  // ---- The worker ----------------------------------------------------------

  class ApiServer {
    var pods: map<Key, StoredPod>
    var scales: map<Key, StoredScale>

    ghost function State(): Stores
      reads this
    {
      Stores(pods, scales)
    }

    method UpdatePod(pod: StoredPod, dryRun: bool, reached: bool) returns (ok: bool)
      modifies this`pods
      ensures ok == (reached && PodAccepted(old(pods), pod))
      ensures pods == if ok && !dryRun then PutPod(old(pods), pod) else old(pods)
    {
      ok := reached && PodAccepted(pods, pod);
      if ok && !dryRun {
        pods := PutPod(pods, pod);
      }
    }

    method UpdateScale(scale: StoredScale, dryRun: bool, reached: bool) returns (ok: bool)
      modifies this`scales
      ensures ok == (reached && ScaleAccepted(old(scales), scale))
      ensures scales == if ok && !dryRun then PutScale(old(scales), scale) else old(scales)
    {
      ok := reached && ScaleAccepted(scales, scale);
      if ok && !dryRun {
        scales := PutScale(scales, scale);
      }
    }

    method UpdateResources(pod: StoredPod, scale: StoredScale, dryRun: bool, podReached: bool, scaleReached: bool)
      returns (ok: bool)
      modifies this
      ensures var podOk := podReached && PodAccepted(old(pods), pod);
              && ok == (podOk && scaleReached && ScaleAccepted(old(scales), scale))
              && pods == (if podOk && !dryRun then PutPod(old(pods), pod) else old(pods))
              && scales == (if ok && !dryRun then PutScale(old(scales), scale) else old(scales))
    {
      ok := UpdatePod(pod, dryRun, podReached);
      if !ok {
        return false;
      }
      ok := UpdateScale(scale, dryRun, scaleReached);
    }

    /** Dry run first, so that a rejected update changes neither store. */
    method AtomicResourceUpdate(pod: StoredPod, scale: StoredScale, net: Net) returns (ok: bool)
      modifies this
      ensures ok == (PodLands(old(State()), pod, scale, net) && net.realScale)
      ensures State() == AfterUpdate(old(State()), pod, scale, net)
    {
      ok := UpdateResources(pod, scale, true, net.dryPod, net.dryScale);
      if !ok {
        return false;
      }
      ok := UpdateResources(pod, scale, false, net.realPod, net.realScale);
    }

    /** One node of the queue; the cache is the informer's view of the pods. */
    method RunNodeScaleWorker(cache: map<Key, StoredPod>, list: seq<PodScale>, versions: seq<nat>, nets: seq<Net>)
      returns (outcome: Outcome)
      requires |nets| == |list| == |versions|
      modifies this
      ensures (State(), outcome) == Work(old(State()), cache, Snapshot(list, versions), nets)
    {
      ghost var items := Snapshot(list, versions);
      for i := 0 to |list|
        invariant Work(State(), cache, items[i..], nets[i..]) == Work(old(State()), cache, items, nets)
      {
        assert items[i..][1..] == items[i + 1..] && nets[i..][1..] == nets[i + 1..];
        var podScale := list[i];
        if podScale.spec.key !in cache {
          return Abandoned;
        }
        var cached := cache[podScale.spec.key];
        var sync := SyncPod(cached.pod, podScale);
        if !sync.Synced? {
          return Abandoned;
        }
        if MayScale(sync.pod) {
          var update := StoredScale(versions[i], ScaleValue(podScale.spec, podScale.desired,
                                                           podScale.capped, podScale.actual));
          var ok := AtomicResourceUpdate(StoredPod(cached.version, sync.pod), update, nets[i]);
          if !ok {
            return Requeued;
          }
        }
      }
      return Finished;
    }
  }

  ghost function Snapshot(scales: seq<PodScale>, versions: seq<nat>): (items: seq<StoredScale>)
    requires |scales| == |versions|
    reads scales
    ensures |items| == |scales|
  {
    seq(|scales|, i requires 0 <= i < |scales| reads scales =>
      StoredScale(versions[i], ScaleValue(scales[i].spec, scales[i].desired, scales[i].capped, scales[i].actual)))
  }

  // ---- What the worker guarantees ------------------------------------------

  /** Cached pods are past or present versions of the stored ones. */
  ghost predicate Coherent(pods: map<Key, StoredPod>, cache: map<Key, StoredPod>)
  {
    forall k :: k in cache && k in pods ==>
      && cache[k].version <= pods[k].version
      && (cache[k].version == pods[k].version ==> cache[k] == pods[k])
  }

  ghost predicate WellKeyed(st: Stores)
  {
    && (forall k :: k in st.pods ==> st.pods[k].pod.key == k)
    && (forall k :: k in st.scales ==> st.scales[k].scale.spec.key == k)
  }

  ghost predicate CacheWellKeyed(cache: map<Key, StoredPod>)
  {
    forall k :: k in cache ==> cache[k].pod.key == k
  }

  /** The pod requests for the scaled container what its podscale records. */
  ghost predicate Agrees(st: Stores, key: Key)
  {
    key in st.pods && key in st.scales ==>
      RequestOf(st.pods[key].pod, st.scales[key].scale.spec.container) == st.scales[key].scale.actual
  }

  /** An update that lost only its last request. */
  predicate Torn(net: Net)
  {
    net.dryPod && net.dryScale && net.realPod && !net.realScale
  }

  /** The stored objects lie under their keys, and so do cached pods, which are
      past or present versions. */
  ghost predicate Traceable(st: Stores, cache: map<Key, StoredPod>)
  {
    WellKeyed(st) && CacheWellKeyed(cache) && Coherent(st.pods, cache)
  }

  /** The update that one item of work tries to make. */
  function UpdateOf(cache: map<Key, StoredPod>, item: StoredScale): StoredPod
    requires item.scale.spec.key in cache
    requires SyncOf(cache[item.scale.spec.key].pod, item.scale.spec.container, item.scale.actual).Synced?
  {
    var cached := cache[item.scale.spec.key];
    StoredPod(cached.version, SyncOf(cached.pod, item.scale.spec.container, item.scale.actual).pod)
  }

  /** What a sync does to the requests of a pod, also without the container. */
  lemma SyncWrites(pod: Pod, name: string, actual: Resources)
    requires SyncOf(pod, name, actual).Synced?
    ensures var pod' := SyncOf(pod, name, actual).pod;
            && pod'.(containers := []) == pod.(containers := [])
            && RequestOf(pod', name) == (if HasContainer(pod.containers, name) then actual else Resources(0, 0))
            && SidecarRequests(pod', name) == SidecarRequests(pod, name)
  {
    if HasContainer(pod.containers, name) {
      SyncWritesOneContainer(pod, name, actual);
    }
  }

  /** An atomic update leaves the two stores in agreement on its pod exactly
      when its pod is not written, or podscale and container are both written,
      or it is torn and was going to write what is there. */
  lemma UpdateAgrees(st: Stores, cache: map<Key, StoredPod>, item: StoredScale, net: Net)
    requires var scale := item.scale;
             && Traceable(st, cache) && Agrees(st, scale.spec.key) && scale.spec.key in cache
             && SyncOf(cache[scale.spec.key].pod, scale.spec.container, scale.actual).Synced?
             && (scale.spec.key in st.scales ==> st.scales[scale.spec.key].scale.spec == scale.spec)
    ensures var scale, update := item.scale, UpdateOf(cache, item);
            var st' := AfterUpdate(st, update, item, net);
            var has := HasContainer(cache[scale.spec.key].pod.containers, scale.spec.container);
            Agrees(st', scale.spec.key) <==>
              || !PodLands(st, update, item, net)
              || (net.realScale && has)
              || (Torn(net) && (!has || st.scales[scale.spec.key].scale.actual == scale.actual))
  {
    SyncWrites(cache[item.scale.spec.key].pod, item.scale.spec.container, item.scale.actual);
  }

  /** A pod and a podscale that agree, and an update of the podscale. */
  function ExampleUpdate(): (Stores, StoredScale)
  {
    var key, before, after := Key("ns", "web"), Resources(100, 64), Resources(150, 64);
    var spec := PodScaleSpec(key, "sla", "service", "app");
    var pod := Pod(key, map["autoscaling" := KOSMOS], "node", Guaranteed, [Container("app", before, before)]);
    (Stores(map[key := StoredPod(3, pod)], map[key := StoredScale(5, ScaleValue(spec, before, before, before))]),
     StoredScale(5, ScaleValue(spec, after, after, after)))
  }

  /** A worker that loses its last request on stores that agree: afterwards they
      do not. */
  lemma TornUpdateDisagrees()
    ensures var (st, item) := ExampleUpdate();
            var (st', outcome) := Work(st, st.pods, [item], [Net(true, true, true, false)]);
            Agrees(st, item.scale.spec.key) && outcome == Requeued && !Agrees(st', item.scale.spec.key)
  {
  }

  /** Specs of podscales never change, and every pod that may be written has its
      container. */
  ghost predicate FixedSpecs(st: Stores, cache: map<Key, StoredPod>, items: seq<StoredScale>)
  {
    forall i :: 0 <= i < |items| ==>
      var spec := items[i].scale.spec;
      && (spec.key in st.scales ==> st.scales[spec.key].scale.spec == spec)
      && (spec.key in cache && MayScale(cache[spec.key].pod) ==>
            HasContainer(cache[spec.key].pod.containers, spec.container))
  }

  lemma UpdateIsLocal(st: Stores, update: StoredPod, item: StoredScale, net: Net)
    requires WellKeyed(st) && update.pod.key == item.scale.spec.key
    ensures var st', key := AfterUpdate(st, update, item, net), item.scale.spec.key;
            && WellKeyed(st') && st'.pods.Keys == st.pods.Keys && st'.scales.Keys == st.scales.Keys
            && (forall k :: k in st.pods && k != key ==> st'.pods[k] == st.pods[k])
            && (forall k :: k in st.scales && k != key ==> st'.scales[k] == st.scales[k])
            && (st' != st ==> key in st.pods && st.pods[key].version == update.version
                              && st'.pods[key] == StoredPod(update.version + 1, update.pod))
            && (key in st.scales && st'.scales[key] != st.scales[key] ==> st'.scales[key].scale == item.scale)
  {
  }

  lemma WorkStep(st: Stores, cache: map<Key, StoredPod>, item: StoredScale, net: Net)
    requires Traceable(st, cache) && item.scale.spec.key in cache
    requires SyncOf(cache[item.scale.spec.key].pod, item.scale.spec.container, item.scale.actual).Synced?
    ensures var update, key := UpdateOf(cache, item), item.scale.spec.key;
            var st' := AfterUpdate(st, update, item, net);
            && Traceable(st', cache)
            && st'.pods.Keys == st.pods.Keys && st'.scales.Keys == st.scales.Keys
            && (forall k :: k in st.pods && k != key ==> st'.pods[k] == st.pods[k])
            && (forall k :: k in st.scales && k != key ==> st'.scales[k] == st.scales[k])
            && (key in st.scales && st'.scales[key] != st.scales[key] ==> st'.scales[key].scale == item.scale)
            && MayScale(update.pod) == MayScale(cache[key].pod)
            && (st' != st ==> st.pods[key] == cache[key])
  {
    UpdateIsLocal(st, UpdateOf(cache, item), item, net);
  }

  /** The worker must not write this stored pod for this item: the cache holds
      another version, the label is not literally this autoscaler's, the QoS class
      is another, or the share is not positive. */
  ghost predicate Forbidden(stored: StoredPod, cache: map<Key, StoredPod>, item: StoredScale)
  {
    || item.scale.spec.key !in cache || cache[item.scale.spec.key] != stored
    || "autoscaling" !in stored.pod.labels || stored.pod.labels["autoscaling"] != "Kosmos"
    || stored.pod.qos != Guaranteed
    || item.scale.actual.cpu <= 0 || item.scale.actual.memory <= 0
  }

  /** A pod that no item may write is not written, on any network. */
  lemma {:induction false} ForbiddenIsUntouched(
    st: Stores, cache: map<Key, StoredPod>, items: seq<StoredScale>, nets: seq<Net>, key: Key)
    requires |nets| == |items| && Traceable(st, cache) && key in st.pods
    requires forall i :: 0 <= i < |items| && items[i].scale.spec.key == key ==>
               Forbidden(st.pods[key], cache, items[i])
    ensures var st' := Work(st, cache, items, nets).0;
            key in st'.pods && st'.pods[key] == st.pods[key]
    decreases |items|
  {
    if |items| == 0 {
    } else if items[0].scale.spec.key in cache {
      var item, cached := items[0], cache[items[0].scale.spec.key];
      var sync := SyncOf(cached.pod, item.scale.spec.container, item.scale.actual);
      assert forall i :: 0 <= i < |items[1..]| ==> items[1..][i] == items[i + 1];
      if sync.Synced? {
        WorkStep(st, cache, item, nets[0]);
        if !MayScale(sync.pod) {
          ForbiddenIsUntouched(st, cache, items[1..], nets[1..], key);
        } else {
          var st' := AfterUpdate(st, StoredPod(cached.version, sync.pod), item, nets[0]);
          ForbiddenIsUntouched(st', cache, items[1..], nets[1..], key);
        }
      }
    }
  }

  /** A pod that is not labelled for this autoscaler, with no label or any other
      value than "Kosmos", is never written, whatever the cache says: a stale
      cache fails the version check. */
  lemma WorkerRespectsLabel(
    st: Stores, cache: map<Key, StoredPod>, items: seq<StoredScale>, nets: seq<Net>, key: Key)
    requires |nets| == |items| && Traceable(st, cache) && key in st.pods
    requires !("autoscaling" in st.pods[key].pod.labels && st.pods[key].pod.labels["autoscaling"] == "Kosmos")
    ensures var st' := Work(st, cache, items, nets).0;
            key in st'.pods && st'.pods[key] == st.pods[key]
  {
    ForbiddenIsUntouched(st, cache, items, nets, key);
  }

  /** The scaler of the hand-off protocol that a stored label stands for. */
  function ScalerOf(pod: Pod): H.Scaler
  {
    if "autoscaling" in pod.labels && pod.labels["autoscaling"] == "Kosmos" then H.Kosmos else H.VerSca20
  }

  /** Two stores that agree on every pod still do after the worker, provided no
      update is torn; outages before the last request do no harm. */
  lemma {:induction false} WorkerKeepsAgreement(
    st: Stores, cache: map<Key, StoredPod>, items: seq<StoredScale>, nets: seq<Net>)
    requires |nets| == |items| && Traceable(st, cache) && FixedSpecs(st, cache, items)
    requires forall k :: Agrees(st, k)
    requires forall i :: 0 <= i < |nets| ==> !Torn(nets[i])
    ensures forall k :: Agrees(Work(st, cache, items, nets).0, k)
    decreases |items|
  {
    if |items| == 0 {
    } else if items[0].scale.spec.key in cache {
      var item, cached := items[0], cache[items[0].scale.spec.key];
      var sync := SyncOf(cached.pod, item.scale.spec.container, item.scale.actual);
      if sync.Synced? {
        assert forall i :: 0 <= i < |items[1..]| ==> items[1..][i] == items[i + 1];
        if !MayScale(sync.pod) {
          WorkerKeepsAgreement(st, cache, items[1..], nets[1..]);
        } else {
          var st' := AfterUpdate(st, StoredPod(cached.version, sync.pod), item, nets[0]);
          WorkStep(st, cache, item, nets[0]);
          UpdateAgrees(st, cache, item, nets[0]);
          forall k ensures Agrees(st', k) {
            assert Agrees(st, k);
          }
          WorkerKeepsAgreement(st', cache, items[1..], nets[1..]);
        }
      }
    }
  }
}
