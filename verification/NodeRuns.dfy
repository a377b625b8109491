/** Any number of rounds on one node: other writers change pods, the podscales
    are listed afresh, a cache may lag behind, and a whole round is made. */
module NodeRuns {
  import opened Common
  import opened Types
  import opened Contention
  import opened UpdateWorker
  import opened NodeRound
  import opened NodeBudget
  import opened ClosedLoop
  import VL = VerticalLoop

  /** What the surroundings decide about a round: the writes of others before
      it, how far the informer's view of the pods lags behind, which requests get
      through, and what the recommender reads. */
  datatype Surroundings = Surroundings(
    node: string, capacity: Resources, writes: seq<StoredPod>, lag: nat, nets: seq<Net>,
    pods: seq<Pod>, slas: seq<Sla>, metrics: seq<Option<VL.Metric>>)

  ghost predicate Fitting(env: Surroundings, n: nat)
  {
    |env.nets| == |env.pods| == |env.slas| == |env.metrics| == n && ValidAgreements(env.slas, env.metrics)
  }

  // ---- Other writers -------------------------------------------------------

  ghost predicate Unharmed(st: Stores, st': Stores)
  {
    && st'.scales == st.scales && st'.pods.Keys == st.pods.Keys && (WellKeyed(st) ==> WellKeyed(st'))
    && forall other :: Coherent(st.pods, other) ==> Coherent(st'.pods, other)
  }

  lemma PutIsUnharmful(st: Stores, update: StoredPod)
    requires PodAccepted(st.pods, update)
    ensures Unharmed(st, Stores(PutPod(st.pods, update), st.scales))
  {
  }

  /** Updates of pods by anybody else, of whatever content, through the same
      server: a stale one is refused. */
  method OthersWrite(server: ApiServer, writes: seq<StoredPod>)
    modifies server
    ensures Unharmed(old(server.State()), server.State())
  {
    hide Coherent, WellKeyed;
    for i := 0 to |writes|
      invariant Unharmed(old(server.State()), server.State())
    {
      ghost var st := server.State();
      if PodAccepted(server.pods, writes[i]) {
        PutIsUnharmful(st, writes[i]);
      }
      var _ := server.UpdatePod(writes[i], false, true);
    }
  }

  // ---- Listing the podscales -----------------------------------------------

  /** The podscales of the node are in the store, one per pod. */
  ghost predicate Stored(stored: map<Key, StoredScale>, specs: seq<PodScaleSpec>)
  {
    && (forall i :: 0 <= i < |specs| ==> specs[i].key in stored && stored[specs[i].key].scale.spec == specs[i])
    && forall i, j :: 0 <= i < j < |specs| ==> specs[i].key != specs[j].key
  }

  ghost predicate HasSpecs(scales: seq<PodScale>, specs: seq<PodScaleSpec>)
  {
    |scales| == |specs| && forall i :: 0 <= i < |scales| ==> scales[i].spec == specs[i]
  }

  method ListScales(server: ApiServer, specs: seq<PodScaleSpec>)
    returns (scales: seq<PodScale>, versions: map<Key, nat>)
    requires Stored(server.scales, specs)
    ensures HasSpecs(scales, specs) && OnePodScalePerPod(scales) && Mirrors(server.scales, scales)
    ensures forall i :: 0 <= i < |scales| ==>
              && scales[i].spec.key in versions
              && versions[scales[i].spec.key] == server.scales[scales[i].spec.key].version
  {
    scales, versions := [], map[];
    for i := 0 to |specs|
      invariant HasSpecs(scales, specs[..i]) && Mirrors(server.scales, scales)
      invariant forall j :: 0 <= j < i ==>
                  specs[j].key in versions && versions[specs[j].key] == server.scales[specs[j].key].version
    {
      var stored := server.scales[specs[i].key];
      var scale := new PodScale(stored.scale.spec, stored.scale.desired, stored.scale.capped, stored.scale.actual);
      scales := scales + [scale];
      versions := versions[specs[i].key := stored.version];
    }
    assert specs[..|specs|] == specs;
  }

  /** What the loop sees of the podscales of the node and their controllers. */
  ghost function LoopsAt(stored: map<Key, StoredScale>, specs: seq<PodScaleSpec>, logics: seq<Logic>)
    : (ps: seq<VL.PodLoop>)
    requires |specs| == |logics| && Stored(stored, specs)
    reads Objects(logics)
    ensures |ps| == |specs|
  {
    seq(|specs|, i requires 0 <= i < |specs| reads Objects(logics) =>
      var value := stored[specs[i].key].scale;
      VL.PodLoop(if logics[i].Fixed? then VL.FixedGain else VL.AdaptiveGain,
                 ControllerOf(logics[i]), value.desired.memory, value.actual))
  }

  // ---- One round of a run --------------------------------------------------

  /** What a round saw and left: the stores it began and ended on, the
      podscales it listed, the loop's state before it, and its input. */
  datatype Record = Record(begun: Stores, ended: Stores, scales: seq<PodScale>, loops: seq<VL.PodLoop>,
                           reached: seq<bool>, input: VL.RoundInput)

  /** The stored actual resources are those of the loop. */
  ghost predicate ActualsAre(stored: map<Key, StoredScale>, specs: seq<PodScaleSpec>, loops: seq<VL.PodLoop>)
  {
    && Stored(stored, specs) && |loops| == |specs|
    && forall i :: 0 <= i < |specs| ==> stored[specs[i].key].scale.actual == loops[i].actual
  }

  /** A completed round: its input is what stores and surroundings decide, the
      stored podscales go one step of the loop, and all pods of the node are
      within the budget of the round. */
  ghost predicate GoodRound(record: Record, env: Surroundings, hosted: seq<Key>, specs: seq<PodScaleSpec>)
  {
    && Fitting(env, |specs|) && HasSpecs(record.scales, specs)
    && |record.loops| == |record.reached| == |specs| && VL.ValidPods(record.loops)
    && Hosts(record.begun, hosted) && Hosts(record.ended, hosted)
    && var before, after := PodsAt(record.begun.pods, hosted), PodsAt(record.ended.pods, hosted);
       && record.input == InputOf(env.capacity, record.scales, record.loops, before, env.slas, env.metrics,
                                  record.reached)
       && VL.ValidInput(record.input, |specs|) && VL.Admissible(record.loops, record.input)
       && ActualsAre(record.begun.scales, specs, record.loops)
       && ActualsAre(record.ended.scales, specs, VL.Round(record.loops, record.input))
       && WithinBudget(before, after, record.scales, Present(record.scales, before, env.metrics),
                       RoundShares(record.loops, record.input), env.capacity)
  }

  /** The source stops in this round: on a podscale of a pod without its
      container, or for want of a contention manager. */
  ghost predicate Stops(env: Surroundings, scales: seq<PodScale>, nodePods: seq<Pod>)
    requires Fitting(env, |scales|)
  {
    var room := Room(env.capacity, scales, nodePods, env.metrics);
    !(NoNil(env.pods, env.slas, env.metrics, |scales|) && 0 <= room.cpu && 0 <= room.memory)
  }

  /** The stores between rounds; `history` are the informer's past views. */
  ghost predicate Between(st: Stores, history: seq<map<Key, StoredPod>>, hosted: seq<Key>, specs: seq<PodScaleSpec>)
  {
    && Hosts(st, hosted) && Stored(st.scales, specs)
    && forall h :: 0 <= h < |history| ==> CacheWellKeyed(history[h]) && Coherent(st.pods, history[h])
  }

  lemma OthersLeaveBetween(st: Stores, st': Stores, history: seq<map<Key, StoredPod>>, hosted: seq<Key>,
                           specs: seq<PodScaleSpec>)
    requires Between(st, history, hosted, specs) && Unharmed(st, st')
    ensures Between(st', history + [st'.pods], hosted, specs) && st'.scales == st.scales
  {
  }

  lemma RoundLeavesBetween(st: Stores, st': Stores, cache: map<Key, StoredPod>, history: seq<map<Key, StoredPod>>,
                           hosted: seq<Key>, specs: seq<PodScaleSpec>)
    requires Between(st, history, hosted, specs) && Hosts(st', hosted) && Stored(st'.scales, specs)
    requires forall other :: Preserves(st, st', cache, other)
    ensures Between(st', history, hosted, specs)
  {
    hide Hosts, Stored, Traceable, Coherent;
    forall h | 0 <= h < |history| ensures Coherent(st'.pods, history[h]) {
      assert Preserves(st, st', cache, history[h]);
    }
  }

  lemma LoopsAreStored(stored: map<Key, StoredScale>, specs: seq<PodScaleSpec>, scales: seq<PodScale>,
                       logics: seq<Logic>)
    requires |specs| == |logics| && Stored(stored, specs) && HasSpecs(scales, specs)
    ensures LoopsAt(stored, specs, logics) == StoredLoops(stored, scales, logics)
  {
  }

  lemma StillStored(before: map<Key, StoredScale>, stored: map<Key, StoredScale>, specs: seq<PodScaleSpec>,
                    scales: seq<PodScale>)
    requires Stored(before, specs) && HasSpecs(scales, specs)
    requires forall i :: 0 <= i < |scales| ==>
               scales[i].spec.key in stored && stored[scales[i].spec.key].scale.spec == scales[i].spec
    ensures Stored(stored, specs)
  {
  }

  lemma LoopsAreActual(stored: map<Key, StoredScale>, specs: seq<PodScaleSpec>, logics: seq<Logic>)
    requires |specs| == |logics| && Stored(stored, specs)
    ensures ActualsAre(stored, specs, LoopsAt(stored, specs, logics))
  {
  }

  method NextRound(server: ApiServer, history: seq<map<Key, StoredPod>>, env: Surroundings, hosted: seq<Key>,
                   specs: seq<PodScaleSpec>, logics: seq<Logic>)
    returns (ok: bool, history': seq<map<Key, StoredPod>>, ghost record: Record)
    requires |specs| == |logics| && Separate(logics) && Fitting(env, |specs|)
    requires Between(server.State(), history, hosted, specs) && VL.ValidPods(LoopsAt(server.scales, specs, logics))
    modifies server, Objects(logics)
    ensures Between(server.State(), history', hosted, specs)
    ensures Unharmed(old(server.State()), record.begun) && server.State() == record.ended
    ensures ok ==>
              && GoodRound(record, env, hosted, specs)
              && record.loops == old(LoopsAt(server.scales, specs, logics))
              && LoopsAt(server.scales, specs, logics) == VL.Round(record.loops, record.input)
    ensures !ok ==>
              && record.ended == record.begun && HasSpecs(record.scales, specs)
              && Stops(env, record.scales, PodsAt(record.begun.pods, hosted))
  {
    hide VL.Round, VL.ValidPods, VL.ValidInput, VL.Admissible, Coherent, WellKeyed, Preserves, Hosts, Stored, LoopsAt,
      StoredLoops, WithinBudget, RoundShares, Separate, ValidAgreements, NoNil, InputOf, Unharmed, OnePodScalePerPod,
      Mirrors, Between, PodsAt, ActualsAre, Room;
    ghost var st0 := server.State();
    OthersWrite(server, env.writes);
    ghost var st := server.State();
    OthersLeaveBetween(st0, st, history, hosted, specs);
    assert server !in Objects(logics);
    assert LoopsAt(server.scales, specs, logics) == old(LoopsAt(server.scales, specs, logics));
    history' := history + [server.pods];
    var cache := history'[if env.lag <= |history| then |history| - env.lag else 0];
    BetweenMeans(st, history', hosted, specs, cache);
    var scales, versions := ListScales(server, specs);
    LoopsAreStored(server.scales, specs, scales, logics);
    LoopsAreActual(server.scales, specs, logics);
    ghost var before, loops := PodsAt(server.pods, hosted), LoopsAt(server.scales, specs, logics);
    ghost var reached;
    ok, reached := ClosedRound(server, cache, versions, env.nets, env.node, env.capacity, hosted, scales, logics,
                               env.pods, env.slas, env.metrics);
    StillStored(st.scales, server.scales, specs, scales);
    RoundLeavesBetween(st, server.State(), cache, history', hosted, specs);
    LoopsAreStored(server.scales, specs, scales, logics);
    LoopsAreActual(server.scales, specs, logics);
    HostedAreDistinct(server.State(), hosted);
    record := Record(st, server.State(), scales, loops, reached,
                     InputOf(env.capacity, scales, loops, before, env.slas, env.metrics, reached));
  }

  lemma BetweenMeans(st: Stores, history: seq<map<Key, StoredPod>>, hosted: seq<Key>, specs: seq<PodScaleSpec>,
                     cache: map<Key, StoredPod>)
    requires Between(st, history, hosted, specs) && cache in history
    ensures Traceable(st, cache) && Hosts(st, hosted) && Stored(st.scales, specs)
    ensures forall p :: 0 <= p < |hosted| ==> hosted[p] in st.pods
  {
  }

  // ---- Any number of rounds ------------------------------------------------

  ghost function Inputs(records: seq<Record>): (inputs: seq<VL.RoundInput>)
    ensures |inputs| == |records|
  {
    seq(|records|, r requires 0 <= r < |records| => records[r].input)
  }

  /** The stores after the recorded rounds. */
  ghost function Now(start: Stores, records: seq<Record>): Stores
  {
    if |records| == 0 then start else records[|records| - 1].ended
  }

  /** Every recorded round is good and starts from where the vertical loop is
      after the inputs of the earlier ones; only writes of others to pods come
      between rounds. */
  ghost predicate IsRunOf(start: Stores, initial: seq<VL.PodLoop>, records: seq<Record>, envs: seq<Surroundings>,
                          hosted: seq<Key>, specs: seq<PodScaleSpec>)
  {
    && |records| <= |envs| && |initial| == |specs| && VL.ValidInputs(Inputs(records), |specs|)
    && (|records| == 0 ||
        var n := |records| - 1;
        var earlier, last := records[..n], records[n];
        && IsRunOf(start, initial, earlier, envs, hosted, specs)
        && GoodRound(last, envs[n], hosted, specs) && Unharmed(Now(start, earlier), last.begun)
        && last.loops == VL.Run(initial, Inputs(earlier)))
  }

  lemma OneMoreRound(start: Stores, initial: seq<VL.PodLoop>, records: seq<Record>, record: Record,
                     envs: seq<Surroundings>, hosted: seq<Key>, specs: seq<PodScaleSpec>)
    requires IsRunOf(start, initial, records, envs, hosted, specs) && |records| < |envs|
    requires GoodRound(record, envs[|records|], hosted, specs) && record.loops == VL.Run(initial, Inputs(records))
    requires Unharmed(Now(start, records), record.begun)
    ensures IsRunOf(start, initial, records + [record], envs, hosted, specs)
    ensures VL.Run(initial, Inputs(records + [record])) == VL.Round(record.loops, record.input)
    ensures VL.ValidPods(VL.Round(record.loops, record.input))
  {
    hide GoodRound, VL.Round, VL.ValidInput, VL.ValidPods, Unharmed, Now;
    var longer, n := records + [record], |records|;
    GoodRoundMeans(record, envs[n], hosted, specs);
    assert longer[..n] == records && Inputs(longer)[..n] == Inputs(records);
    forall r | 0 <= r < |longer| ensures VL.ValidInput(Inputs(longer)[r], |specs|) {
      assert r < n ==> Inputs(longer)[r] == Inputs(records)[r];
    }
    VL.RoundIsSafe(record.loops, record.input);
  }

  lemma GoodRoundMeans(record: Record, env: Surroundings, hosted: seq<Key>, specs: seq<PodScaleSpec>)
    requires GoodRound(record, env, hosted, specs)
    ensures |record.loops| == |specs| && VL.ValidPods(record.loops) && VL.ValidInput(record.input, |specs|)
  {
  }

  /** Rounds on one node, each from a fresh listing after arbitrary writes of
      others to pods, with caches that lag, lost requests, torn updates, skipped
      and dropped pods: the podscales and controllers make a run of the vertical
      loop, and after every round the pods of the node, as their store holds
      them, are within the budget of that round. The run is cut short only by a
      round in which the source stops; `listed` are its podscales. */
  method RunRounds(server: ApiServer, hosted: seq<Key>, specs: seq<PodScaleSpec>, logics: seq<Logic>,
                   envs: seq<Surroundings>)
    returns (completed: nat, ghost records: seq<Record>, ghost listed: seq<PodScale>)
    requires |specs| == |logics| && Separate(logics) && forall r :: 0 <= r < |envs| ==> Fitting(envs[r], |specs|)
    requires Hosts(server.State(), hosted) && Stored(server.scales, specs)
    requires VL.ValidPods(LoopsAt(server.scales, specs, logics))
    modifies server, Objects(logics)
    ensures |records| == completed <= |envs| && Hosts(server.State(), hosted) && Stored(server.scales, specs)
    ensures IsRunOf(old(server.State()), old(LoopsAt(server.scales, specs, logics)), records, envs, hosted, specs)
    ensures completed == |envs| ==>
              && server.State() == Now(old(server.State()), records)
              && LoopsAt(server.scales, specs, logics) ==
                 VL.Run(old(LoopsAt(server.scales, specs, logics)), Inputs(records))
    ensures completed < |envs| ==>
              && Unharmed(Now(old(server.State()), records), server.State())
              && HasSpecs(listed, specs) && Stops(envs[completed], listed, PodsAt(server.pods, hosted))
  {
    hide VL.Round, VL.ValidPods, VL.ValidInput, LoopsAt, Stored, Hosts, Between, GoodRound, Separate, Inputs,
      Unharmed, Stops, ValidAgreements;
    ghost var start, initial := server.State(), LoopsAt(server.scales, specs, logics);
    var history: seq<map<Key, StoredPod>> := [];
    completed, records, listed := 0, [], [];
    BetweenAtStart(start, hosted, specs);
    NothingYet(start, initial, envs, hosted, specs);
    while completed < |envs|
      invariant completed <= |envs| && |records| == completed
      invariant Between(server.State(), history, hosted, specs)
      invariant Hosts(server.State(), hosted) && Stored(server.scales, specs)
      invariant IsRunOf(start, initial, records, envs, hosted, specs) && server.State() == Now(start, records)
      invariant LoopsAt(server.scales, specs, logics) == VL.Run(initial, Inputs(records))
      invariant VL.ValidPods(LoopsAt(server.scales, specs, logics))
    {
      var ok;
      ghost var record;
      ok, history, record := NextRound(server, history, envs[completed], hosted, specs, logics);
      StoredBetween(server.State(), history, hosted, specs);
      if !ok {
        listed := record.scales;
        return;
      }
      OneMoreRound(start, initial, records, record, envs, hosted, specs);
      records := records + [record];
      completed := completed + 1;
    }
  }

  lemma BetweenAtStart(st: Stores, hosted: seq<Key>, specs: seq<PodScaleSpec>)
    requires Hosts(st, hosted) && Stored(st.scales, specs)
    ensures Between(st, [], hosted, specs)
  {
  }

  lemma StoredBetween(st: Stores, history: seq<map<Key, StoredPod>>, hosted: seq<Key>, specs: seq<PodScaleSpec>)
    requires Between(st, history, hosted, specs)
    ensures Stored(st.scales, specs) && Hosts(st, hosted)
  {
  }

  lemma NothingYet(start: Stores, initial: seq<VL.PodLoop>, envs: seq<Surroundings>, hosted: seq<Key>,
                   specs: seq<PodScaleSpec>)
    requires |initial| == |specs|
    ensures IsRunOf(start, initial, [], envs, hosted, specs) && VL.Run(initial, Inputs([])) == initial
  {
  }
}
