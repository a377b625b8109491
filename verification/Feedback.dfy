/** What an update worker leaves on a node when it may stop at any podscale:
    the requests of the scaled containers in the pod store, and when they fit. */
module Feedback {
  import opened Common
  import opened Types
  import opened Allocation
  import opened ResourceUpdater
  import opened UpdateWorker
  import H = Handoff

  // ---- Requests before and after -------------------------------------------

  /** What the stored pod requests for the container its podscale scales. */
  function Requested(st: Stores, item: StoredScale): Resources
  {
    var spec := item.scale.spec;
    if spec.key in st.pods then RequestOf(st.pods[spec.key].pod, spec.container) else Resources(0, 0)
  }

  /** The label of the cached pod lets the worker update this podscale. */
  predicate Writable(cache: map<Key, StoredPod>, item: StoredScale)
  {
    item.scale.spec.key in cache && MayScale(cache[item.scale.spec.key].pod)
  }

  /** The worker writes the share of this podscale into a container. */
  predicate Scales(cache: map<Key, StoredPod>, item: StoredScale)
  {
    var spec := item.scale.spec;
    Writable(cache, item) && HasContainer(cache[spec.key].pod.containers, spec.container)
  }

  /** What the container requests once the worker is past its podscale: the
      share, or what it did under another label or without the container. */
  function Target(st: Stores, cache: map<Key, StoredPod>, item: StoredScale): Resources
  {
    if Scales(cache, item) then item.scale.actual else Requested(st, item)
  }

  ghost function AllRequested(st: Stores, items: seq<StoredScale>): (rs: seq<Resources>)
    ensures |rs| == |items|
  {
    seq(|items|, i requires 0 <= i < |items| => Requested(st, items[i]))
  }

  /** The requests when the worker got past the first `k` podscales. */
  ghost function Mixed(st: Stores, cache: map<Key, StoredPod>, items: seq<StoredScale>, k: nat): (rs: seq<Resources>)
    ensures |rs| == |items|
  {
    seq(|items|, i requires 0 <= i < |items| =>
      if i < k then Target(st, cache, items[i]) else Requested(st, items[i]))
  }

  /** Nothing in the stores, the cache or the share stops the worker here; only
      the network could. */
  predicate Passable(st: Stores, cache: map<Key, StoredPod>, item: StoredScale)
  {
    var spec := item.scale.spec;
    && spec.key in cache
    && SyncOf(cache[spec.key].pod, spec.container, item.scale.actual).Synced?
    && (Writable(cache, item) ==>
          PodAccepted(st.pods, UpdateOf(cache, item)) && ScaleAccepted(st.scales, item))
  }

  /** How many podscales the worker gets past on a perfect network. */
  function Clear(st: Stores, cache: map<Key, StoredPod>, items: seq<StoredScale>): (k: nat)
    ensures k <= |items|
    ensures forall i :: 0 <= i < k ==> Passable(st, cache, items[i])
    ensures k < |items| ==> !Passable(st, cache, items[k])
  {
    if |items| == 0 || !Passable(st, cache, items[0]) then 0 else 1 + Clear(st, cache, items[1..])
  }

  ghost predicate DistinctItems(items: seq<StoredScale>)
  {
    forall i, j :: 0 <= i < j < |items| ==> items[i].scale.spec.key != items[j].scale.spec.key
  }

  /** All requests up to the real update of the pod get through. */
  predicate Lands(net: Net)
  {
    net.dryPod && net.dryScale && net.realPod
  }

  // ---- What the worker leaves behind ---------------------------------------

  /** The objects of that key are untouched. */
  ghost predicate Same(st: Stores, st': Stores, key: Key)
  {
    && (key in st'.pods <==> key in st.pods) && (key in st.pods ==> st'.pods[key] == st.pods[key])
    && (key in st'.scales <==> key in st.scales) && (key in st.scales ==> st'.scales[key] == st.scales[key])
  }

  /** The podscale stored for an item the worker got past or not. */
  ghost predicate Recorded(st: Stores, st': Stores, item: StoredScale, written: bool)
  {
    var key := item.scale.spec.key;
    && (key in st'.scales <==> key in st.scales)
    && (key in st.scales ==>
          st'.scales[key] == if written then StoredScale(item.version + 1, item.scale) else st.scales[key])
  }

  /** The pod stored for an item that was written or not. */
  ghost predicate Written(st: Stores, st': Stores, item: StoredScale, written: bool)
  {
    var spec := item.scale.spec;
    spec.key in st.pods ==>
      && spec.key in st'.pods
      && st'.pods[spec.key] ==
         if written then StoredPod(st.pods[spec.key].version + 1,
                                   WithActual(st.pods[spec.key].pod, spec.container, item.scale.actual))
         else st.pods[spec.key]
  }

  /** Requests of the container and of its sidecars after the worker. */
  ghost predicate Left(st: Stores, st': Stores, item: StoredScale, request: Resources)
  {
    var spec := item.scale.spec;
    && (spec.key in st'.pods <==> spec.key in st.pods)
    && Requested(st', item) == request
    && (spec.key in st.pods ==>
          SidecarRequests(st'.pods[spec.key].pod, spec.container) ==
          SidecarRequests(st.pods[spec.key].pod, spec.container))
  }

  /** The update of one passable podscale. */
  lemma PassItem(st: Stores, cache: map<Key, StoredPod>, item: StoredScale, net: Net)
    requires Traceable(st, cache) && Passable(st, cache, item) && Writable(cache, item)
    ensures var st', key := AfterUpdate(st, UpdateOf(cache, item), item, net), item.scale.spec.key;
            && Traceable(st', cache) && (forall k :: k != key ==> Same(st, st', k))
            && (Lands(net) ==> Left(st, st', item, Target(st, cache, item)) && Written(st, st', item, true))
            && (!Lands(net) ==> st' == st)
            && Recorded(st, st', item, Lands(net) && net.realScale)
  {
    var key, update := item.scale.spec.key, UpdateOf(cache, item);
    var st' := AfterUpdate(st, update, item, net);
    WorkStep(st, cache, item, net);
    SyncWrites(cache[key].pod, item.scale.spec.container, item.scale.actual);
    assert st.pods[key] == cache[key];
    if Lands(net) {
      assert st'.pods[key].pod == update.pod;
    }
  }

  /** `net` got the update of this podscale through, torn or not. */
  predicate Carried(cache: map<Key, StoredPod>, item: StoredScale, net: Net, torn: bool)
  {
    Writable(cache, item) ==> Lands(net) && net.realScale != torn
  }

  /** One podscale after the worker, which got past it or not. */
  ghost predicate Done(st: Stores, st': Stores, cache: map<Key, StoredPod>, item: StoredScale, passed: bool, torn: bool)
  {
    && Left(st, st', item, if passed then Target(st, cache, item) else Requested(st, item))
    && Written(st, st', item, passed && Writable(cache, item))
    && Recorded(st, st', item, passed && !torn && Writable(cache, item))
  }

  /** The stores after a worker that got past the first `k` podscales, the last
      of them torn or not; pods of no podscale are untouched. */
  ghost predicate LeavesPrefix(st: Stores, st': Stores, cache: map<Key, StoredPod>, items: seq<StoredScale>,
                               k: nat, torn: bool)
  {
    && k <= Clear(st, cache, items) && (torn ==> 0 < k)
    && (forall i :: 0 <= i < |items| ==> Done(st, st', cache, items[i], i < k, torn && i == k - 1))
    && OthersSame(st, st', items)
  }

  ghost predicate OthersSame(st: Stores, st': Stores, items: seq<StoredScale>)
  {
    forall key :: (forall i :: 0 <= i < |items| ==> items[i].scale.spec.key != key) ==> Same(st, st', key)
  }

  /** The network let a worker get exactly that far. */
  ghost predicate CarriesPrefix(cache: map<Key, StoredPod>, items: seq<StoredScale>, nets: seq<Net>,
                                clear: nat, k: nat, torn: bool)
    requires |nets| == |items| && k <= |items| && clear <= |items|
  {
    && (forall i :: 0 <= i < k ==> Carried(cache, items[i], nets[i], torn && i == k - 1))
    && (torn ==> 0 < k && Writable(cache, items[k - 1]))
    && (k < clear && !torn ==> Writable(cache, items[k]) && !Lands(nets[k]))
  }

  lemma SamePassable(st: Stores, st1: Stores, cache: map<Key, StoredPod>, item: StoredScale)
    requires CacheWellKeyed(cache) && Same(st, st1, item.scale.spec.key)
    ensures Passable(st1, cache, item) == Passable(st, cache, item)
  {
  }

  lemma {:induction false} SameClear(st: Stores, st1: Stores, cache: map<Key, StoredPod>, items: seq<StoredScale>)
    requires CacheWellKeyed(cache)
    requires forall i :: 0 <= i < |items| ==> Same(st, st1, items[i].scale.spec.key)
    ensures Clear(st1, cache, items) == Clear(st, cache, items)
  {
    hide Passable, Same;
    if |items| == 0 {
    } else {
      assert forall i :: 0 <= i < |items[1..]| ==> items[1..][i] == items[i + 1];
      SameClear(st, st1, cache, items[1..]);
      SamePassable(st, st1, cache, items[0]);
    }
  }

  lemma DoneLater(st: Stores, st1: Stores, st': Stores, cache: map<Key, StoredPod>, item: StoredScale,
                  passed: bool, torn: bool)
    requires Same(st, st1, item.scale.spec.key) && Done(st1, st', cache, item, passed, torn)
    ensures Done(st, st', cache, item, passed, torn)
  {
  }

  lemma DoneEarlier(st: Stores, st1: Stores, st': Stores, cache: map<Key, StoredPod>, item: StoredScale,
                    passed: bool, torn: bool)
    requires Done(st, st1, cache, item, passed, torn) && Same(st1, st', item.scale.spec.key)
    ensures Done(st, st', cache, item, passed, torn)
  {
  }

  lemma SameTwice(st: Stores, st1: Stores, st': Stores, key: Key)
    requires Same(st, st1, key) && Same(st1, st', key)
    ensures Same(st, st', key)
  {
  }

  lemma OthersStep(st: Stores, st1: Stores, st': Stores, items: seq<StoredScale>)
    requires 0 < |items| && OthersSame(st1, st', items[1..])
    requires forall key :: key != items[0].scale.spec.key ==> Same(st, st1, key)
    ensures OthersSame(st, st', items)
  {
    hide Same;
    forall key | forall i :: 0 <= i < |items| ==> items[i].scale.spec.key != key
      ensures Same(st, st', key)
    {
      assert items[0].scale.spec.key != key;
      assert forall i :: 0 <= i < |items[1..]| ==> items[1..][i] == items[i + 1];
      SameTwice(st, st1, st', key);
    }
  }

  lemma FirstIsOther(st: Stores, st': Stores, items: seq<StoredScale>)
    requires 0 < |items| && DistinctItems(items) && OthersSame(st, st', items[1..])
    ensures Same(st, st', items[0].scale.spec.key)
  {
    hide Same;
    assert forall i :: 0 <= i < |items[1..]| ==> items[1..][i] == items[i + 1];
  }

  /** From what the worker leaves of the rest to what it leaves of all. */
  lemma PrefixStep(st: Stores, st1: Stores, st': Stores, cache: map<Key, StoredPod>, items: seq<StoredScale>,
                   k: nat, torn: bool)
    requires 0 < |items| && DistinctItems(items) && CacheWellKeyed(cache) && Passable(st, cache, items[0])
    requires forall key :: key != items[0].scale.spec.key ==> Same(st, st1, key)
    requires Done(st, st1, cache, items[0], true, false)
    requires LeavesPrefix(st1, st', cache, items[1..], k, torn)
    ensures LeavesPrefix(st, st', cache, items, k + 1, torn)
  {
    hide Done, Same, Passable, CacheWellKeyed, OthersSame;
    var rest := items[1..];
    assert forall i :: 0 <= i < |rest| ==> rest[i] == items[i + 1];
    SameClear(st, st1, cache, rest);
    OthersStep(st, st1, st', items);
    FirstIsOther(st1, st', items);
    DoneEarlier(st, st1, st', cache, items[0], true, false);
    forall i | 0 < i < |items|
      ensures Done(st, st', cache, items[i], i < k + 1, torn && i == k)
    {
      assert rest[i - 1] == items[i];
      DoneLater(st, st1, st', cache, items[i], i < k + 1, torn && i == k);
    }
  }

  /** The first podscale, when the worker gets past it or is torn on it. */
  lemma FirstItem(st: Stores, cache: map<Key, StoredPod>, items: seq<StoredScale>, net: Net) returns (st1: Stores)
    requires 0 < |items| && Traceable(st, cache) && Passable(st, cache, items[0])
    requires Writable(cache, items[0]) ==> Lands(net)
    ensures st1 == if Writable(cache, items[0]) then AfterUpdate(st, UpdateOf(cache, items[0]), items[0], net) else st
    ensures Traceable(st1, cache) && forall key :: key != items[0].scale.spec.key ==> Same(st, st1, key)
    ensures Done(st, st1, cache, items[0], true, Writable(cache, items[0]) && !net.realScale)
  {
    st1 := st;
    if Writable(cache, items[0]) {
      PassItem(st, cache, items[0], net);
      st1 := AfterUpdate(st, UpdateOf(cache, items[0]), items[0], net);
    }
  }

  /** The pod cannot be read or does not take the share: not in the cache, of
      another QoS class, or with a share that is not positive. */
  ghost predicate Unusable(cache: map<Key, StoredPod>, item: StoredScale)
  {
    || item.scale.spec.key !in cache || cache[item.scale.spec.key].pod.qos != Guaranteed
    || item.scale.actual.cpu <= 0 || item.scale.actual.memory <= 0
  }

  /** Why a worker ended where it did: all podscales done, an unusable one, which
      drops the list, or a failed update, which requeues it. */
  ghost predicate EndsWith(cache: map<Key, StoredPod>, items: seq<StoredScale>, k: nat, torn: bool, outcome: Outcome)
  {
    outcome == if torn then Requeued else if |items| <= k then Finished
               else if Unusable(cache, items[k]) then Abandoned else Requeued
  }

  /** The worker's step in terms of what can stop it. */
  lemma WorkStops(st: Stores, cache: map<Key, StoredPod>, items: seq<StoredScale>, nets: seq<Net>)
    requires |nets| == |items| && 0 < |items| && Traceable(st, cache)
    ensures Passable(st, cache, items[0]) ==> !Unusable(cache, items[0])
    ensures var item, work, later := items[0], Work(st, cache, items, nets), Work(st, cache, items[1..], nets[1..]);
            if !Passable(st, cache, item) then
              work == (st, if Unusable(cache, item) then Abandoned else Requeued)
            else if !Writable(cache, item) then work == later
            else
              var st1 := AfterUpdate(st, UpdateOf(cache, item), item, nets[0]);
              if Lands(nets[0]) && nets[0].realScale then work == Work(st1, cache, items[1..], nets[1..])
              else work == (st1, Requeued) && (!Lands(nets[0]) ==> st1 == st)
  {
  }

  lemma CarriesStep(cache: map<Key, StoredPod>, items: seq<StoredScale>, nets: seq<Net>, clear: nat, k: nat, torn: bool)
    requires |nets| == |items| && 0 < |items| && k < |items| && clear < |items|
    requires CarriesPrefix(cache, items[1..], nets[1..], clear, k, torn)
    requires Carried(cache, items[0], nets[0], false)
    ensures CarriesPrefix(cache, items, nets, clear + 1, k + 1, torn)
  {
    forall i | 0 < i < k + 1
      ensures Carried(cache, items[i], nets[i], torn && i == k)
    {
      assert Carried(cache, items[1..][i - 1], nets[1..][i - 1], torn && i - 1 == k - 1);
    }
  }

  lemma NothingDone(st: Stores, cache: map<Key, StoredPod>, items: seq<StoredScale>, nets: seq<Net>)
    requires |nets| == |items|
    requires |items| == 0 || !Passable(st, cache, items[0]) || (Writable(cache, items[0]) && !Lands(nets[0]))
    ensures LeavesPrefix(st, st, cache, items, 0, false)
    ensures CarriesPrefix(cache, items, nets, Clear(st, cache, items), 0, false)
  {
  }

  lemma FirstTorn(st: Stores, st1: Stores, cache: map<Key, StoredPod>, items: seq<StoredScale>, nets: seq<Net>)
    requires |nets| == |items| && 0 < |items| && DistinctItems(items) && CacheWellKeyed(cache)
    requires Passable(st, cache, items[0]) && Writable(cache, items[0]) && Lands(nets[0]) && !nets[0].realScale
    requires forall key :: key != items[0].scale.spec.key ==> Same(st, st1, key)
    requires Done(st, st1, cache, items[0], true, true)
    ensures LeavesPrefix(st, st1, cache, items, 1, true)
    ensures CarriesPrefix(cache, items, nets, Clear(st, cache, items), 1, true)
  {
    hide Passable;
    forall i | 0 < i < |items|
      ensures Done(st, st1, cache, items[i], false, false)
    {
      assert Same(st, st1, items[i].scale.spec.key);
    }
  }

  lemma ClearStep(st: Stores, cache: map<Key, StoredPod>, items: seq<StoredScale>)
    requires 0 < |items| && Passable(st, cache, items[0])
    ensures Clear(st, cache, items) == 1 + Clear(st, cache, items[1..])
  {
  }

  /** A worker leaves a prefix of its podscales done: it got past `k` of them,
      as many as the network carried up to the first one that stopped it. */
  lemma {:induction false} WorkLeavesPrefix(st: Stores, cache: map<Key, StoredPod>, items: seq<StoredScale>,
                                            nets: seq<Net>) returns (k: nat, torn: bool)
    requires |nets| == |items| && Traceable(st, cache) && DistinctItems(items)
    ensures k <= Clear(st, cache, items)
    ensures LeavesPrefix(st, Work(st, cache, items, nets).0, cache, items, k, torn)
    ensures CarriesPrefix(cache, items, nets, Clear(st, cache, items), k, torn)
    ensures EndsWith(cache, items, k, torn, Work(st, cache, items, nets).1)
    decreases |items|
  {
    hide Work, Passable, Done, Same, LeavesPrefix, CarriesPrefix, Clear, Coherent, WellKeyed, AfterUpdate, MayScale;
    k, torn := 0, false;
    if |items| == 0 {
      assert Work(st, cache, items, nets) == (st, Finished) by { WorkOfNothing(st, cache); }
      NothingDone(st, cache, items, nets);
    } else {
      WorkStops(st, cache, items, nets);
      if !Passable(st, cache, items[0]) || (Writable(cache, items[0]) && !Lands(nets[0])) {
        NothingDone(st, cache, items, nets);
      } else {
        var rest := items[1..];
        var st1 := FirstItem(st, cache, items, nets[0]);
        if Writable(cache, items[0]) && !nets[0].realScale {
          ClearStep(st, cache, items);
          FirstTorn(st, st1, cache, items, nets);
          k, torn := 1, true;
        } else {
          assert forall i :: 0 <= i < |rest| ==> rest[i] == items[i + 1];
          k, torn := WorkLeavesPrefix(st1, cache, rest, nets[1..]);
          SameClear(st, st1, cache, rest);
          ClearStep(st, cache, items);
          CarriesStep(cache, items, nets, Clear(st, cache, rest), k, torn);
          PrefixStep(st, st1, Work(st1, cache, rest, nets[1..]).0, cache, items, k, torn);
          k := k + 1;
        }
      }
    }
  }

  lemma WorkOfNothing(st: Stores, cache: map<Key, StoredPod>)
    ensures Work(st, cache, [], []) == (st, Finished)
  {
  }

  /** The store holds a later version of the podscale than the list. */
  ghost predicate Outdated(st: Stores, item: StoredScale)
  {
    item.scale.spec.key in st.scales && item.version < st.scales[item.scale.spec.key].version
  }

  /** A worker that records a podscale outdates it in its own list. */
  lemma RecordingOutdates(st: Stores, cache: map<Key, StoredPod>, items: seq<StoredScale>, nets: seq<Net>, i: nat)
    requires |nets| == |items| && i < |items| && Traceable(st, cache) && DistinctItems(items)
    requires var st', key := Work(st, cache, items, nets).0, items[i].scale.spec.key;
             key in st.scales && key in st'.scales && st'.scales[key] != st.scales[key]
    ensures Outdated(Work(st, cache, items, nets).0, items[i])
  {
    hide Work, Traceable, Left, Same;
    var k, torn := WorkLeavesPrefix(st, cache, items, nets);
    assert Done(st, Work(st, cache, items, nets).0, cache, items[i], i < k, torn && i == k - 1);
  }

  /** No worker gets past an outdated podscale while the label lets it write the
      pod: it does not finish and writes no container from there on. Under any
      label the podscale stays outdated. */
  lemma OutdatedStops(st: Stores, cache: map<Key, StoredPod>, items: seq<StoredScale>, nets: seq<Net>, i: nat)
    requires |nets| == |items| && i < |items| && Traceable(st, cache) && DistinctItems(items)
    requires Outdated(st, items[i])
    ensures Outdated(Work(st, cache, items, nets).0, items[i])
    ensures Writable(cache, items[i]) ==> Stopped(st, cache, items, nets, i)
  {
    hide Work, Traceable, Left, Same;
    var st' := Work(st, cache, items, nets).0;
    var k, torn := WorkLeavesPrefix(st, cache, items, nets);
    assert Done(st, st', cache, items[i], i < k, torn && i == k - 1);
    if Writable(cache, items[i]) {
      assert !Passable(st, cache, items[i]);
      forall j | i <= j < |items|
        ensures Requested(st', items[j]) == Requested(st, items[j])
      {
        assert Done(st, st', cache, items[j], j < k, torn && j == k - 1);
        LeftRequests(st, st', items[j], Requested(st, items[j]));
      }
    }
  }

  /** The worker does not get past podscale `i`. */
  ghost predicate Stopped(st: Stores, cache: map<Key, StoredPod>, items: seq<StoredScale>, nets: seq<Net>, i: nat)
    requires |nets| == |items|
  {
    var (st', outcome) := Work(st, cache, items, nets);
    outcome != Finished && forall j :: i <= j < |items| ==> Requested(st', items[j]) == Requested(st, items[j])
  }

  /** One time the list is taken from the queue. */
  datatype Turn = Turn(start: Stores, cache: map<Key, StoredPod>, nets: seq<Net>)

  ghost function After(turn: Turn, items: seq<StoredScale>): Stores
    requires |turn.nets| == |items|
  {
    Work(turn.start, turn.cache, items, turn.nets).0
  }

  /** Other writers of podscales put only later versions. */
  ghost predicate LaterVersions(before: Stores, after: Stores)
  {
    forall key :: key in before.scales ==>
      key in after.scales && before.scales[key].version <= after.scales[key].version
  }

  /** The list taken again and again, on whatever others made of the stores. */
  ghost predicate IsRequeueing(items: seq<StoredScale>, turns: seq<Turn>)
  {
    && (forall r :: 0 <= r < |turns| ==>
          |turns[r].nets| == |items| && Traceable(turns[r].start, turns[r].cache))
    && forall r :: 0 < r < |turns| ==> LaterVersions(After(turns[r - 1], items), turns[r].start)
  }

  lemma StaysOutdated(before: Stores, after: Stores, item: StoredScale)
    requires Outdated(before, item) && LaterVersions(before, after)
    ensures Outdated(after, item)
  {
  }

  /** The versions of a list are those it was read at, also when it is requeued.
      Once turn `r` has recorded podscale `i`, no later turn gets past it while
      the label lets the worker write its pod, whatever the network, the cache
      and other writers do. */
  lemma {:induction false} RequeueIsFutile(items: seq<StoredScale>, turns: seq<Turn>, i: nat, r: nat, t: nat)
    requires IsRequeueing(items, turns) && DistinctItems(items) && i < |items| && r < t < |turns|
    requires var key := items[i].scale.spec.key;
             && key in turns[r].start.scales && key in After(turns[r], items).scales
             && After(turns[r], items).scales[key] != turns[r].start.scales[key]
    ensures Outdated(turns[t].start, items[i])
    ensures Writable(turns[t].cache, items[i]) ==>
              Stopped(turns[t].start, turns[t].cache, items, turns[t].nets, i)
    decreases t
  {
    hide Work, Outdated, LaterVersions, Traceable, DistinctItems, Stopped;
    var last := turns[t - 1];
    if t == r + 1 {
      RecordingOutdates(last.start, last.cache, items, last.nets, i);
    } else {
      RequeueIsFutile(items, turns, i, r, t - 1);
      OutdatedStops(last.start, last.cache, items, last.nets, i);
    }
    StaysOutdated(After(last, items), turns[t].start, items[i]);
    OutdatedStops(turns[t].start, turns[t].cache, items, turns[t].nets, i);
  }

  lemma LeftRequests(st: Stores, st': Stores, item: StoredScale, request: Resources)
    requires Left(st, st', item, request)
    ensures Requested(st', item) == request
  {
  }

  /** A network that fails from podscale `k` on. */
  function OutageAt(n: nat, k: nat): (nets: seq<Net>)
    ensures |nets| == n
  {
    seq(n, i => if i < k then Net(true, true, true, true) else Net(false, false, false, false))
  }

  // ---- What exactly the worker writes --------------------------------------

  /** `after` is `before` with the first container of that name requesting and
      limited to `actual`; every other part of the pod is the same. */
  ghost predicate ContainerWritten(before: Pod, after: Pod, name: string, actual: Resources)
  {
    && after.(containers := []) == before.(containers := []) && |after.containers| == |before.containers|
    && forall j :: 0 <= j < |before.containers| ==>
         after.containers[j] ==
         if before.containers[j].name == name && (forall k :: 0 <= k < j ==> before.containers[k].name != name)
         then Container(name, actual, actual) else before.containers[j]
  }

  lemma WithActualWrites(pod: Pod, name: string, actual: Resources)
    ensures ContainerWritten(pod, WithActual(pod, name, actual), name, actual)
  {
  }

  /** Everything the worker needs for a podscale: the cache and the list are up to
      date, the pod is Guaranteed and its share positive. */
  ghost predicate UpToDate(st: Stores, cache: map<Key, StoredPod>, item: StoredScale)
  {
    var key := item.scale.spec.key;
    && key in cache && key in st.pods && cache[key] == st.pods[key]
    && key in st.scales && st.scales[key].version == item.version
    && st.pods[key].pod.qos == Guaranteed && 0 < item.scale.actual.cpu && 0 < item.scale.actual.memory
  }

  /** The pod and the podscale of one item after a worker that did all it may:
      both written for a pod labelled "Kosmos", neither for any other pod. */
  ghost predicate Handled(st: Stores, st': Stores, item: StoredScale)
  {
    var key := item.scale.spec.key;
    && key in st.pods && key in st'.pods && key in st.scales && key in st'.scales
    && var before, after := st.pods[key], st'.pods[key];
       if "autoscaling" in before.pod.labels && before.pod.labels["autoscaling"] == "Kosmos" then
         && after.version == before.version + 1
         && ContainerWritten(before.pod, after.pod, item.scale.spec.container, item.scale.actual)
         && st'.scales[key] == StoredScale(item.version + 1, item.scale)
       else
         after == before && st'.scales[key] == st.scales[key]
  }

  lemma {:induction false} UpToDateIsClear(st: Stores, cache: map<Key, StoredPod>, items: seq<StoredScale>)
    requires CacheWellKeyed(cache) && forall i :: 0 <= i < |items| ==> UpToDate(st, cache, items[i])
    ensures Clear(st, cache, items) == |items|
  {
    if |items| == 0 {
    } else {
      assert forall i :: 0 <= i < |items[1..]| ==> items[1..][i] == items[i + 1];
      UpToDateIsClear(st, cache, items[1..]);
    }
  }

  lemma DoneIsHandled(st: Stores, st': Stores, cache: map<Key, StoredPod>, item: StoredScale)
    requires UpToDate(st, cache, item) && Done(st, st', cache, item, true, false)
    ensures Handled(st, st', item)
  {
    WithActualWrites(st.pods[item.scale.spec.key].pod, item.scale.spec.container, item.scale.actual);
  }

  /** On a network that loses nothing, a worker with an up-to-date list and cache
      finishes and handles every podscale: it writes exactly the share into
      exactly the containers of pods labelled "Kosmos". */
  lemma WorkerHandlesAll(st: Stores, cache: map<Key, StoredPod>, items: seq<StoredScale>)
    requires Traceable(st, cache) && DistinctItems(items)
    requires forall i :: 0 <= i < |items| ==> UpToDate(st, cache, items[i])
    ensures var (st', outcome) := Work(st, cache, items, OutageAt(|items|, |items|));
            outcome == Finished && forall i :: 0 <= i < |items| ==> Handled(st, st', items[i])
  {
    hide Work, Traceable, Done, Handled, UpToDate, Same;
    assert CacheWellKeyed(cache) by { TraceableCache(st, cache); }
    UpToDateIsClear(st, cache, items);
    var nets := OutageAt(|items|, |items|);
    var st' := Work(st, cache, items, nets).0;
    var k, torn := WorkLeavesPrefix(st, cache, items, nets);
    assert k == |items| && !torn;
    forall i | 0 <= i < |items| ensures Handled(st, st', items[i]) {
      assert Done(st, st', cache, items[i], true, false);
      DoneIsHandled(st, st', cache, items[i]);
    }
  }

  lemma TraceableCache(st: Stores, cache: map<Key, StoredPod>)
    requires Traceable(st, cache)
    ensures CacheWellKeyed(cache)
  {
  }

  /** In the terms of the hand-off: whatever list, cache and network, a pod that a
      worker changes was Kosmos's, was written from its stored version, and stays
      Kosmos's; only its version and one container are new. */
  lemma WritesOnlyUnderKosmos(st: Stores, cache: map<Key, StoredPod>, items: seq<StoredScale>, nets: seq<Net>, i: nat)
    requires |nets| == |items| && Traceable(st, cache) && DistinctItems(items) && i < |items|
    requires items[i].scale.spec.key in st.pods
    ensures var key, st' := items[i].scale.spec.key, Work(st, cache, items, nets).0;
            && key in st'.pods
            && (st'.pods[key] != st.pods[key] ==>
                  && ScalerOf(st.pods[key].pod) == H.Kosmos && ScalerOf(st'.pods[key].pod) == H.Kosmos
                  && key in cache && cache[key] == st.pods[key]
                  && st'.pods[key].version == st.pods[key].version + 1
                  && ContainerWritten(st.pods[key].pod, st'.pods[key].pod, items[i].scale.spec.container,
                                      items[i].scale.actual))
  {
    var key, st' := items[i].scale.spec.key, Work(st, cache, items, nets).0;
    hide Work, Traceable, Left, Recorded, Same;
    var k, torn := WorkLeavesPrefix(st, cache, items, nets);
    assert Done(st, st', cache, items[i], i < k, torn && i == k - 1);
    if st'.pods[key] != st.pods[key] {
      assert Passable(st, cache, items[i]);
      PassableIsCurrent(st, cache, items[i]);
      WithActualWrites(st.pods[key].pod, items[i].scale.spec.container, items[i].scale.actual);
    }
  }

  lemma PassableIsCurrent(st: Stores, cache: map<Key, StoredPod>, item: StoredScale)
    requires Traceable(st, cache) && Passable(st, cache, item) && Writable(cache, item)
    ensures var key := item.scale.spec.key; key in st.pods && cache[key] == st.pods[key]
  {
  }

  // ---- When the stores stay in agreement -----------------------------------

  ghost predicate AllAgree(st: Stores)
  {
    forall key :: Agrees(st, key)
  }

  ghost predicate NoneTorn(nets: seq<Net>)
  {
    forall i :: 0 <= i < |nets| ==> !Torn(nets[i])
  }

  /** The worker writes a share for which the pod has no container. */
  ghost predicate Homeless(cache: map<Key, StoredPod>, item: StoredScale)
  {
    Writable(cache, item) && !Scales(cache, item)
  }

  ghost predicate KnownSpec(st: Stores, item: StoredScale)
  {
    var spec := item.scale.spec;
    spec.key in st.scales ==> st.scales[spec.key].scale.spec == spec
  }

  lemma DoneAgrees(st: Stores, st': Stores, cache: map<Key, StoredPod>, item: StoredScale, passed: bool)
    requires Traceable(st, cache) && KnownSpec(st, item) && Agrees(st, item.scale.spec.key)
    requires Done(st, st', cache, item, passed, false) && (passed ==> Passable(st, cache, item))
    ensures Agrees(st', item.scale.spec.key) <==> !(passed && Homeless(cache, item))
  {
    var key := item.scale.spec.key;
    if passed && Writable(cache, item) {
      assert st.pods[key] == cache[key];
    }
  }

  /** Two stores that agree on every pod still do after the worker on every
      network that tears no update, if and only if no podscale that it can get
      to is written for a pod without its container. */
  lemma AgreementSurvives(st: Stores, cache: map<Key, StoredPod>, items: seq<StoredScale>)
    requires Traceable(st, cache) && DistinctItems(items) && AllAgree(st)
    requires forall i :: 0 <= i < |items| ==> KnownSpec(st, items[i])
    ensures (forall nets: seq<Net> | |nets| == |items| && NoneTorn(nets) ::
               AllAgree(Work(st, cache, items, nets).0)) <==>
            forall i :: 0 <= i < Clear(st, cache, items) ==> !Homeless(cache, items[i])
  {
    hide Work, Traceable, Done, Same, Homeless, KnownSpec, Agrees;
    if forall nets: seq<Net> | |nets| == |items| && NoneTorn(nets) :: AllAgree(Work(st, cache, items, nets).0) {
      var nets := OutageAt(|items|, |items|);
      var st' := Work(st, cache, items, nets).0;
      assert NoneTorn(nets);
      assert AllAgree(st');
      var k, torn := WorkLeavesPrefix(st, cache, items, nets);
      forall i | 0 <= i < Clear(st, cache, items) ensures !Homeless(cache, items[i]) {
        assert Done(st, st', cache, items[i], i < k, torn && i == k - 1);
        DoneAgrees(st, st', cache, items[i], true);
      }
    }
    if forall i :: 0 <= i < Clear(st, cache, items) ==> !Homeless(cache, items[i]) {
      forall nets: seq<Net>, key | |nets| == |items| && NoneTorn(nets)
        ensures Agrees(Work(st, cache, items, nets).0, key)
      {
        WorkAgrees(st, cache, items, nets, key);
      }
    }
  }

  lemma WorkAgrees(st: Stores, cache: map<Key, StoredPod>, items: seq<StoredScale>, nets: seq<Net>, key: Key)
    requires |nets| == |items| && NoneTorn(nets)
    requires Traceable(st, cache) && DistinctItems(items) && AllAgree(st)
    requires forall i :: 0 <= i < |items| ==> KnownSpec(st, items[i])
    requires forall i :: 0 <= i < Clear(st, cache, items) ==> !Homeless(cache, items[i])
    ensures Agrees(Work(st, cache, items, nets).0, key)
  {
    hide Work, Traceable, Done, Same, Homeless, KnownSpec, Agrees;
    var st' := Work(st, cache, items, nets).0;
    var k, torn := WorkLeavesPrefix(st, cache, items, nets);
    assert Agrees(st, key);
    if i :| 0 <= i < |items| && items[i].scale.spec.key == key {
      assert Done(st, st', cache, items[i], i < k, torn && i == k - 1);
      DoneAgrees(st, st', cache, items[i], i < k);
    } else {
      SameAgrees(st, st', key);
    }
  }

  lemma SameAgrees(st: Stores, st': Stores, key: Key)
    requires Same(st, st', key)
    ensures Agrees(st', key) <==> Agrees(st, key)
  {
  }

  // ---- When the node fits --------------------------------------------------

  ghost predicate FitsIn(requests: seq<Resources>, room: Resources)
  {
    Total(requests).cpu <= room.cpu && Total(requests).memory <= room.memory
  }

  /** Whatever requests are lost, the scaled containers of the node fit the room
      left beside everything else. */
  ghost predicate AlwaysFits(st: Stores, cache: map<Key, StoredPod>, items: seq<StoredScale>, room: Resources)
  {
    forall nets: seq<Net> | |nets| == |items| ::
      FitsIn(AllRequested(Work(st, cache, items, nets).0, items), room)
  }

  lemma PrefixIsMixed(st: Stores, st': Stores, cache: map<Key, StoredPod>, items: seq<StoredScale>, k: nat, torn: bool)
    requires LeavesPrefix(st, st', cache, items, k, torn)
    ensures AllRequested(st', items) == Mixed(st, cache, items, k)
  {
    forall i | 0 <= i < |items|
      ensures Requested(st', items[i]) == Mixed(st, cache, items, k)[i]
    {
      assert Done(st, st', cache, items[i], i < k, torn && i == k - 1);
    }
  }

  /** Every prefix the stores allow is reached by some outage. */
  lemma OutageLeavesPrefix(st: Stores, cache: map<Key, StoredPod>, items: seq<StoredScale>, k: nat)
    requires Traceable(st, cache) && DistinctItems(items) && k <= Clear(st, cache, items)
    ensures AllRequested(Work(st, cache, items, OutageAt(|items|, k)).0, items) == Mixed(st, cache, items, k)
  {
    hide Work, Traceable, LeavesPrefix;
    var nets := OutageAt(|items|, k);
    var got, torn := WorkLeavesPrefix(st, cache, items, nets);
    PrefixIsMixed(st, Work(st, cache, items, nets).0, cache, items, got, torn);
    assert k <= got;
    forall i | k <= i < got
      ensures !Writable(cache, items[i])
    {
      assert Carried(cache, items[i], nets[i], torn && i == got - 1);
    }
    assert Mixed(st, cache, items, got) == Mixed(st, cache, items, k);
  }

  /** Partial feedback: the node fits whatever happens to the network if and only
      if every mix of new requests on a prefix of the podscales and old ones on
      the rest fits, up to the first podscale the worker cannot get past. */
  lemma FitsWhateverIsLost(st: Stores, cache: map<Key, StoredPod>, items: seq<StoredScale>, room: Resources)
    requires Traceable(st, cache) && DistinctItems(items)
    ensures AlwaysFits(st, cache, items, room) <==>
              forall k: nat :: k <= Clear(st, cache, items) ==> FitsIn(Mixed(st, cache, items, k), room)
  {
    hide Work, Traceable, LeavesPrefix, CarriesPrefix, DistinctItems, Mixed, AllRequested, FitsIn;
    if AlwaysFits(st, cache, items, room) {
      forall k: nat | k <= Clear(st, cache, items)
        ensures FitsIn(Mixed(st, cache, items, k), room)
      {
        OutageLeavesPrefix(st, cache, items, k);
        assert |OutageAt(|items|, k)| == |items|;
      }
    }
    if forall k: nat :: k <= Clear(st, cache, items) ==> FitsIn(Mixed(st, cache, items, k), room) {
      forall nets: seq<Net> | |nets| == |items|
        ensures FitsIn(AllRequested(Work(st, cache, items, nets).0, items), room)
      {
        var k, torn := WorkLeavesPrefix(st, cache, items, nets);
        PrefixIsMixed(st, Work(st, cache, items, nets).0, cache, items, k, torn);
      }
    }
  }

  lemma {:induction false} TotalMonotone(xs: seq<Resources>, ys: seq<Resources>)
    requires |xs| == |ys|
    requires forall i :: 0 <= i < |xs| ==> xs[i].cpu <= ys[i].cpu && xs[i].memory <= ys[i].memory
    ensures Total(xs).cpu <= Total(ys).cpu && Total(xs).memory <= Total(ys).memory
  {
    if |xs| == 0 {
    } else {
      TotalMonotone(xs[..|xs| - 1], ys[..|ys| - 1]);
    }
  }

  ghost predicate AtMost(a: Resources, b: Resources)
  {
    a.cpu <= b.cpu && a.memory <= b.memory
  }

  /** An order that is always safe: podscales that give up resources first. */
  lemma ShrinkingFirstFits(st: Stores, cache: map<Key, StoredPod>, items: seq<StoredScale>, room: Resources, split: nat)
    requires Traceable(st, cache) && DistinctItems(items) && split <= |items|
    requires forall i :: 0 <= i < split ==> AtMost(Target(st, cache, items[i]), Requested(st, items[i]))
    requires forall i :: split <= i < |items| ==> AtMost(Requested(st, items[i]), Target(st, cache, items[i]))
    requires FitsIn(Mixed(st, cache, items, 0), room) && FitsIn(Mixed(st, cache, items, |items|), room)
    ensures AlwaysFits(st, cache, items, room)
  {
    hide Work, Traceable, DistinctItems, Target, Requested, AlwaysFits;
    forall k: nat | k <= Clear(st, cache, items)
      ensures FitsIn(Mixed(st, cache, items, k), room)
    {
      TotalMonotone(Mixed(st, cache, items, k), Mixed(st, cache, items, if k <= split then 0 else |items|));
    }
    FitsWhateverIsLost(st, cache, items, room);
  }

  // ---- A node that does not fit --------------------------------------------

  function ExamplePod(name: string, cpu: int): Pod
  {
    var requests := Resources(cpu, 10);
    Pod(Key("ns", name), map["autoscaling" := KOSMOS], "node", Guaranteed, [Container("app", requests, requests)])
  }

  function ExampleScale(name: string, cpu: int): ScaleValue
  {
    var r := Resources(cpu, 10);
    ScaleValue(PodScaleSpec(Key("ns", name), "sla", "service", "app"), r, r, r)
  }

  /** Two pods of 10 and 90 milli-cores under current podscales. */
  function ExampleStores(): Stores
  {
    Stores(map[Key("ns", "a") := StoredPod(1, ExamplePod("a", 10)),
               Key("ns", "b") := StoredPod(1, ExamplePod("b", 90))],
           map[Key("ns", "a") := StoredScale(1, ExampleScale("a", 10)),
               Key("ns", "b") := StoredScale(1, ExampleScale("b", 90))])
  }

  /** The solver's shares of 100 for demands of 60 and 40. */
  function ExampleItems(): seq<StoredScale>
  {
    [StoredScale(1, ExampleScale("a", 60)), StoredScale(1, ExampleScale("b", 40))]
  }

  lemma TotalOfPair(a: Resources, b: Resources)
    ensures Total([a, b]) == Plus(a, b)
  {
    assert [a, b][..1] == [a] && [a][..0] == [];
    assert Total([a]) == a;
  }

  lemma ExampleRequests()
    ensures var st, items := ExampleStores(), ExampleItems();
            && Requested(st, items[0]) == Resources(10, 10) && Requested(st, items[1]) == Resources(90, 10)
            && Target(st, st.pods, items[0]) == Resources(60, 10) && Target(st, st.pods, items[1]) == Resources(40, 10)
  {
  }

  lemma ExampleIsClear()
    ensures var st, items := ExampleStores(), ExampleItems();
            Traceable(st, st.pods) && Clear(st, st.pods, items) == 2
  {
    var st, items := ExampleStores(), ExampleItems();
    assert Passable(st, st.pods, items[0]) && Passable(st, st.pods, items[1]);
    assert Clear(st, st.pods, items[1..][1..]) == 0;
    assert Clear(st, st.pods, items[1..]) == 1;
  }

  /** The pod that grows is written, the request for the one that shrinks is
      lost: from a node that fits, and shares that fit, to one that does not. */
  lemma LostRequestOvercommits()
    ensures var st, items, room := ExampleStores(), ExampleItems(), Resources(100, 20);
            var shares := Allocate([60, 40], 100);
            && items[0].scale.actual.cpu == shares[0] && items[1].scale.actual.cpu == shares[1]
            && Traceable(st, st.pods) && Clear(st, st.pods, items) == 2
            && FitsIn(AllRequested(st, items), room) && FitsIn(Mixed(st, st.pods, items, 2), room)
            && !FitsIn(AllRequested(Work(st, st.pods, items, OutageAt(2, 1)).0, items), room)
  {
    var st, items := ExampleStores(), ExampleItems();
    hide Requested, Target, Work, Traceable, Clear;
    SumOfPair(60, 40);
    ExampleRequests();
    ExampleIsClear();
    OutageLeavesPrefix(st, st.pods, items, 1);
    TotalOfPair(Resources(10, 10), Resources(90, 10));
    TotalOfPair(Resources(60, 10), Resources(90, 10));
    TotalOfPair(Resources(60, 10), Resources(40, 10));
    assert AllRequested(st, items) == [Resources(10, 10), Resources(90, 10)];
    assert Mixed(st, st.pods, items, 1) == [Resources(60, 10), Resources(90, 10)];
    assert Mixed(st, st.pods, items, 2) == [Resources(60, 10), Resources(40, 10)];
  }
}
