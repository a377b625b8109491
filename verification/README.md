# Verified model of KOSMOS

KOSMOS scales pods on three levels. This project models the decision logic of
each level in Dafny and proves what it guarantees over whole runs.

- **Vertical scaling on a node.** A PI controller per pod recommends CPU
  (`Recommender.dfy`); the contention manager subtracts what it does not track
  and splits the rest proportionally (`Types.dfy`, `Allocation.dfy`,
  `Contention.dfy`); the updater writes each share into one container and keeps
  the pod store and the podscale store in step (`ResourceUpdater.dfy`,
  `UpdateWorker.dfy`), and may stop at any podscale (`Feedback.dfy`).
  `VerticalLoop.dfy` closes the loop over any number of rounds, with skipped
  pods, pods that are not Guaranteed, missed feedback and both kinds of
  controller; `Convergence.dfy` says where it goes. `NodeRound.dfy` proves that
  the recommender and the contention manager refine a round of it, and
  `ClosedLoop.dfy` adds the updater and the stores; `NodeBudget.dfy` counts what
  all pods of the node request, and `NodeRuns.dfy` makes any number of rounds
  among other writers.
- **Replicas.** Two logics propose a count and share a timed three-state
  machine (`ReplicaUpdater.dfy`, runs in `ReplicaRuns.dfy`).
- **Scale to and from zero.** The KVerSca20 sidecar proxy
  (`Proxy.dfy`, runs in `ProxyRuns.dfy`), and its hand-off of the pod with the
  update workers over a versioned store (`Handoff.dfy`).
- **Reconciliation** of podscales with the pods of a service
  (`Reconciliation.dfy`).

Objects the source updates in place are classes; each of their methods is
proved against a function of the old state, and the guarantees are lemmas about
those functions and about runs of them. Quantities are integers in milli-units,
times are integers in milliseconds, floating point is modelled by exact reals
with every conversion to an integer kept. The square root of the adaptive gain
is a parameter that squares to its argument.

Where a promise does not hold on every input, a lemma says exactly when it
does, and another gives a start and a run of the code in which it fails:

- the writers stay apart if and only if a proxy that starts at zero finds its
  own label on the pod (the failing run is inside `WritersNeverOverlap`);
- closing a connection keeps the request accounts if and only if its client has
  at most one open request (`HangUpLosesAccounts`);
- an atomic update leaves the two stores in agreement unless only its last
  request is lost (`TornUpdateDisagrees`) or the pod has no container for the
  share it records; a worker that tears no update keeps all agreement if and only
  if it never gets to such a pod (`AgreementSurvives`);
- a pod stays awake and idle without a timer exactly from an accept that woke it
  while none was alive to the next chunk (`AcceptLosesTimer`);
- a node fits whatever requests of the updater are lost if and only if every mix
  of new shares on a prefix of the podscales and old requests on the rest fits
  (`LostRequestOvercommits`); a list that is requeued after one of its podscales
  was recorded is stopped there each time it is taken up again, as long as the
  label of that pod is Kosmos (`RequeueIsFutile`);
- the tolerance of the HPA logic, which compares replicas with milliseconds, can
  hold a proposal back for some agreements only (`ToleranceCanHold`).

Assumptions on the environment, all stated as preconditions: sockets handed out
by the operating system do not share a descriptor with an open one; an update
of a stale version is rejected by the store (section "Concurrency Control and
Consistency" of the Kubernetes API Conventions); the proxy's own two sequences
do not overlap each other; set points are positive and lower bounds do not
exceed upper bounds; allocatable resources are non-negative where a contention
manager is used.

## Model

| member | source | states |
|---|---|---|
| Allocation.ProportionalIsFloor | pkg/pod-autoscaler/pkg/contention-manager/logic.go:24-27 | the truncated floating quotient is the floor of demand times capacity over total demand |
| Allocation.TightSplit | pkg/pod-autoscaler/pkg/contention-manager/logic.go:91-142 | the allocations never exceed the capacity nor any demand; without contention everyone gets the demand, with it less than one unit per pod is lost |
| Allocation.FairSplit | pkg/pod-autoscaler/pkg/contention-manager/logic.go:91-142 | under contention any two pods are served in proportion to their demands up to rounding |
| Allocation.AllocateMonotoneInCapacity | pkg/pod-autoscaler/pkg/contention-manager/logic.go:91-142 | more capacity never lowers an allocation, also across the contention switch |
| Allocation.AllocateAntitoneInOthers | pkg/pod-autoscaler/pkg/contention-manager/logic.go:91-142 | larger demands of other pods never raise mine |
| Allocation.AllocateMonotoneInDemand | pkg/pod-autoscaler/pkg/contention-manager/logic.go:91-142 | raising my own demand never loses, and the larger demand in one split gets no smaller allocation |
| Allocation.AllocateIdempotent | pkg/pod-autoscaler/pkg/contention-manager/logic.go:91-142 | solving again from the allocations changes nothing |
| Types.NodeScales.Contains | pkg/podscale-controller/pkg/types/types.go:15-23 | true exactly when some podscale of the list has that pod and namespace |
| Types.NodeScales.Remove | pkg/podscale-controller/pkg/types/types.go:25-34 | deletes the first match in place: the list shifts, the stale tail of the shared backing array is determined, an absent pod changes nothing |
| Contention.ContentionManager.Solve | pkg/pod-autoscaler/pkg/contention-manager/logic.go:91-142 | every podscale's actual resources become the proportional allocation of both resources |
| Contention.NewContentionManager | pkg/pod-autoscaler/pkg/contention-manager/logic.go:38-88 | no manager exactly when something allocatable is negative; otherwise it keeps the list left by the deletions and the capacity left by the untracked requests |
| Contention.ProcessNode | pkg/pod-autoscaler/pkg/contention-manager/logic.go:147-179 | what travels on is the manager's shortened and solved list, not the caller's stale view of the shifted array |
| Contention.KeptIsFilter | pkg/pod-autoscaler/pkg/contention-manager/logic.go:44-67 | with one podscale per pod the surviving list is the order-preserving filter without listed pods that are not Guaranteed |
| Contention.AllocatableConserved | pkg/pod-autoscaler/pkg/contention-manager/logic.go:38-88 | allocatable plus the requests of all pods outside the surviving list is the node capacity, each pod counted once |
| Recommender.ErrorOrder | pkg/pod-autoscaler/pkg/recommender/logic.go:107-111 | the error is positive exactly for pods slower than the set point, zero exactly on it, and monotone in the response time |
| Recommender.ErrorInMilliseconds | pkg/pod-autoscaler/pkg/recommender/logic.go:107-111 | in milliseconds, the error times set point times response time is 1000 times their difference, unless that leaves [-10, 10]: then the error is the bound on that side |
| Recommender.FixedGainControlLogic.ComputeCpuResource | pkg/pod-autoscaler/pkg/recommender/logic.go:101-128 | the desired CPU and every field follow the clamped velocity law |
| Recommender.FixedGainControlLogic.ComputePodScale | pkg/pod-autoscaler/pkg/recommender/logic.go:52-98 | a new podscale with desired and bounded resources, desired memory and actual resources unchanged; without the container nothing changes |
| Recommender.AdaptiveGainControlLogic.ComputeCpuResource | pkg/pod-autoscaler/pkg/recommender/logic.go:222-246 | the same law with the gains of the controller, which are then adapted to the error |
| Recommender.AdaptiveGainControlLogic.ComputePodScale | pkg/pod-autoscaler/pkg/recommender/logic.go:173-219 | the adaptive counterpart of the fixed-gain recommendation |
| Recommender.DesiredCpuRange | pkg/pod-autoscaler/pkg/recommender/logic.go:103-117 | output between min(5, 1.5 old) and 1.5 old before truncation, between 0 and floor(1.5 old) after it |
| Recommender.DesiredCpuExactly | pkg/pod-autoscaler/pkg/recommender/logic.go:103-117 | the CPU plus the gains' reaction, raised to 5 and then cut at one and a half times the CPU, loses less than one unit to truncation |
| Recommender.ApplyBoundsClamps | pkg/pod-autoscaler/pkg/recommender/logic.go:141-149 | with ordered bounds the result is the nearest value inside them, and bounding twice changes nothing |
| Recommender.CappedIsNearest | pkg/pod-autoscaler/pkg/recommender/logic.go:141-149 | for CPU and memory alike: inside the bounds of the agreement that are present, and no number inside them is nearer to what was desired |
| Recommender.AdaptiveGainsOverRuns | pkg/pod-autoscaler/pkg/recommender/logic.go:222-246 | over every run 10 <= bc <= 100 and dc = min(2 bc, 150) >= 20; bc does not rise while the error is at most one half in size and does not fall while it is at least that |
| Recommender.AdaptedGainsExactly | pkg/pod-autoscaler/pkg/recommender/logic.go:222-246 | one step multiplies the square of the gain by twice the size of the error, within 10 and 100; the second gain is its double up to 150; below half a unit of error the gain falls, above it rises, strictly, unless at its bound |
| VerticalLoop.LoopIsSafe | pkg/pod-autoscaler/pkg/recommender/logic.go:84-149 | over any rounds, metrics, agreements, capacities, absent pods and missed feedback: actual resources total at most the capacity plus what unreached pods keep beyond their shares; those of a reached pod lie between 0 and the upper bound and CPU grows at most to max(min, floor(1.5 old)); a pod that is absent or not reached keeps its resources |
| VerticalLoop.FittingIsInvariant | pkg/pod-autoscaler/pkg/contention-manager/logic.go:69-88 | with a capacity that never shrinks, and no pod that misses a smaller share, a fitting node fits after every round, and the contention manager always exists |
| VerticalLoop.MemoryFixedPoint | pkg/pod-autoscaler/pkg/recommender/logic.go:84-98 | with fixed agreements, membership and capacity the memory of a pod is, from the first round that reaches it, what the first round assigned; until then, for a pod that is always absent, or without a contention manager, it is the initial one |
| Convergence.VelocityFormTelescopes | pkg/pod-autoscaler/pkg/recommender/logic.go:101-128 | n unclamped steps equal the positional PI law minus a truncation loss in [0, n) |
| Convergence.ResponseTimesTelescope | pkg/pod-autoscaler/pkg/recommender/logic.go:101-128 | the same from set point and response times in milliseconds, with the error written out |
| Convergence.AdaptiveFormTelescopes | pkg/pod-autoscaler/pkg/recommender/logic.go:219-246 | the same for the adaptive logic: an unclamped run sits below the law that sums each round's two gain terms by less than one unit per round |
| Convergence.SteadyErrorClimbs | pkg/pod-autoscaler/pkg/recommender/logic.go:103-117 | under a positive steady error and demands that fit in every round CPU rises every round until it equals the upper bound, in at most max - start rounds, and stays there, for both logics; without a bound it rises on |
| Convergence.SteadyErrorFalls | pkg/pod-autoscaler/pkg/recommender/logic.go:103-117 | under a negative steady error and demands that fit in every round CPU falls every round until it equals the bounded minimum CPU, and stays there |
| Convergence.SlowServiceClimbs | pkg/pod-autoscaler/pkg/recommender/logic.go:103-117 | the climb from a steady response time in milliseconds above the set point by as much as the smallest gain needs for one unit a round, when the error was no larger before |
| Convergence.FastServiceFalls | pkg/pod-autoscaler/pkg/recommender/logic.go:103-117 | the fall from a steady response time in milliseconds below the set point by as much as the smallest gain needs for one unit a round, when the error was no smaller before |
| Convergence.FittingBoundsNeverContend | pkg/pod-autoscaler/pkg/contention-manager/logic.go:91-142 | upper bounds and absent pods that fit the node together keep demands from ever exceeding what is allocatable |
| Convergence.UncontendedRespectsAgreement | pkg/pod-autoscaler/pkg/recommender/logic.go:141-149 | without contention a present pod that is reached ends every round within the bounds of its agreement that are present, in CPU and memory |
| NodeRound.RecommendNode | pkg/pod-autoscaler/pkg/recommender/controller.go:168-255 | one fresh recommended podscale per listed one with a metric, in order, by its own kind of controller, which moves once; others are skipped with their controller unmoved; a nil enters the list exactly when a pod with a metric lacks its container |
| NodeRound.Round | pkg/pod-autoscaler/pkg/contention-manager/logic.go:147-179 | recommending and solving on the real objects, whatever is skipped or dropped, yields the next state of the vertical loop for every choice of podscales that are then stored; it fails exactly on a nil podscale or a nil manager |
| NodeRound.SolvedIsRound | pkg/pod-autoscaler/pkg/contention-manager/logic.go:91-142 | solved shares of the present podscales are the shares of the loop, and storing some of them gives its next state |
| ClosedLoop.ClosedRound | pkg/pod-autoscaler/pkg/pod-resource-updater/controller.go:126-166 | recommend, solve and write back: whatever is skipped, dropped, refused or lost, stored podscales and controllers make one round of the vertical loop, and all pods of the node, as stored, request at most its capacity plus sidecars of present pods and what containers without their share keep |
| NodeRuns.RunRounds | pkg/pod-autoscaler/pkg/pod-resource-updater/controller.go:126-206 | any number of such rounds, each from a fresh listing after arbitrary versioned writes of others to pods, with lagging caches, lost requests and torn updates: the stored podscales and controllers make a run of the vertical loop, every round leaves the node within that budget, and only a nil podscale or manager cuts the run short |
| NodeBudget.CapacityOfRound | pkg/pod-autoscaler/pkg/contention-manager/logic.go:44-74 | with stores that agree, the capacity of a round is the node's less all pods without a podscale and less the sidecars of skipped and dropped pods |
| ResourceUpdater.SyncPod | pkg/pod-autoscaler/pkg/pod-resource-updater/utils.go:11-38 | refuses other QoS classes and non-positive shares, otherwise the pod with the share in its container |
| ResourceUpdater.SyncRefusals | pkg/pod-autoscaler/pkg/pod-resource-updater/utils.go:15-25 | which of the three refusals comes when: Burstable or BestEffort, then less than one unit of CPU, then less than one of memory |
| ResourceUpdater.SyncWritesOneContainer | pkg/pod-autoscaler/pkg/pod-resource-updater/utils.go:27-34 | exactly the first container of that name changes, requests and limits alike; sidecar requests are unchanged |
| ResourceUpdater.NodeNotOvercommitted | pkg/pod-autoscaler/pkg/contention-manager/logic.go:69-142 | once all shares are applied, untracked pods plus scaled containers request at most the node capacity, and the whole node that plus the sidecars of scaled pods |
| Feedback.WorkLeavesPrefix | pkg/pod-autoscaler/pkg/pod-resource-updater/controller.go:126-166 | a worker leaves a prefix of its podscales done, as far as stores, cache, shares and network let it: those containers request their shares unless the label forbids it, all other requests, sidecars and foreign pods are as before, every podscale passed is recorded except a torn last one, and the outcome says why it stopped: finished, abandoned at one it cannot use, requeued at a failed update |
| Feedback.WorkerHandlesAll | pkg/pod-autoscaler/pkg/pod-resource-updater/controller.go:126-166 | with a fresh cache and listing, Guaranteed pods, positive shares and no lost request the worker finishes: every podscale whose stored pod is labelled "Kosmos" has its share in the container and is recorded, every other pod and podscale is as before |
| Feedback.WritesOnlyUnderKosmos | pkg/pod-autoscaler/pkg/pod-resource-updater/controller.go:143-164 | on every network and cache, a pod that changes was labelled Kosmos in the sense of the hand-off and still is, was cached as stored, and differs by one version and its share in the container |
| Feedback.FitsWhateverIsLost | pkg/pod-autoscaler/pkg/pod-resource-updater/controller.go:129-164 | the scaled containers fit a given room after the worker on every network if and only if every mix of targets on a prefix and old requests on the rest does, for prefixes up to the first podscale that stores, cache or share stop |
| NodeBudget.NodeFitsWhateverIsLost | pkg/pod-autoscaler/pkg/pod-resource-updater/controller.go:129-164 | all stored pods of the node together request at most its capacity after the worker on every network if and only if every such mix fits what the capacity leaves beside everything else |
| Feedback.ShrinkingFirstFits | pkg/pod-autoscaler/pkg/pod-resource-updater/controller.go:129-164 | with the podscales that give up resources first, a node that fits before and after fits at every stop between |
| Feedback.RequeueIsFutile | pkg/pod-autoscaler/pkg/pod-resource-updater/controller.go:149-154 | over any number of turns of a requeued list, among writers who only put later versions: once one turn has recorded a podscale it stays outdated in the list, and every later turn that may write its pod does not finish and writes no container from there on |
| Feedback.LostRequestOvercommits | pkg/pod-autoscaler/pkg/pod-resource-updater/controller.go:149-154 | two stored pods, the solver's shares, one lost request: the worker turns a node that fits into one that does not |
| UpdateWorker.ApiServer.AtomicResourceUpdate | pkg/pod-autoscaler/pkg/pod-resource-updater/controller.go:170-206 | succeeds exactly when both versions are current and all four requests get through; otherwise neither store changes, except that losing only the last request leaves the pod written |
| UpdateWorker.ApiServer.RunNodeScaleWorker | pkg/pod-autoscaler/pkg/pod-resource-updater/controller.go:126-166 | the stores and the outcome follow the items in order up to the first failure |
| UpdateWorker.UpdateAgrees | pkg/pod-autoscaler/pkg/pod-resource-updater/controller.go:168-180 | pod and podscale agree after an update exactly when the pod is not written, both are written and the pod has the container, or it is torn and changes nothing |
| UpdateWorker.TornUpdateDisagrees | pkg/pod-autoscaler/pkg/pod-resource-updater/controller.go:183-206 | stores that agree and a worker that loses only its last request: they disagree afterwards |
| UpdateWorker.WorkerRespectsLabel | pkg/pod-autoscaler/pkg/pod-resource-updater/controller.go:143-164 | a stored pod without a label "autoscaling", or with any value of it other than "Kosmos", is never written, on any network and however stale the cache |
| UpdateWorker.ForbiddenIsUntouched | pkg/pod-autoscaler/pkg/pod-resource-updater/controller.go:126-166 | a stored pod is left as it is when each of its podscales meets one of: no "Kosmos" under "autoscaling", a cached pod that is not the stored version, another QoS class, a share that is not positive |
| UpdateWorker.WorkerKeepsAgreement | pkg/pod-autoscaler/pkg/pod-resource-updater/controller.go:126-166 | stores that agree on every pod still do after the worker when no update is torn and no pod it may write lacks the container |
| Feedback.AgreementSurvives | pkg/pod-autoscaler/pkg/pod-resource-updater/controller.go:126-166 | stores that agree still do after the worker on every network without a torn update if and only if it gets to no podscale whose writable pod lacks the container |
| Handoff.WritersNeverOverlap | pkg/pod-autoscaler/pkg/pod-resource-updater/controller.go:126-206 | in every interleaving the proxy patches CPU only under VerSca20 and workers write only under Kosmos, if and only if a start in the zero state carries the label VerSca20 |
| Handoff.CurrentWorkerWrites | pkg/pod-autoscaler/pkg/pod-resource-updater/controller.go:170-206 | a worker that read the latest version under Kosmos and is not interrupted writes its CPU and memory and nothing else |
| Handoff.StaleWorkerGivesUp | pkg/pod-autoscaler/pkg/pod-resource-updater/controller.go:170-206 | a worker whose version is no longer the stored one gives up without writing |
| Handoff.ZeroedStaysZeroed | pkg/kversca20/KVerSca20.py:111-137 | a zeroed pod keeps its CPU, label and memory until the proxy begins to scale it from zero |
| Handoff.ToZeroCompletes | pkg/kversca20/KVerSca20.py:111-119 | a scale to zero that ends has zeroed the pod, whatever others did in between |
| Handoff.FromZeroCompletes | pkg/kversca20/KVerSca20.py:121-137 | from its begin, whatever others do between its steps, a scale from zero ends with the default CPU in place, the memory of the start and the label back at Kosmos |
| ReplicaUpdater.HpaLogic.ComputeReplica | pkg/pod-replicas-updater/pkg/logic.go:58-127 | fields and result are one step of the timed machine on the HPA verdict |
| ReplicaUpdater.CustomLogic.ComputeReplica | pkg/pod-replicas-updater/pkg/logic.go:153-233 | fields and result are one step of the timed machine on the custom verdict |
| ReplicaUpdater.CustomLogic.IsSaturated | pkg/pod-replicas-updater/pkg/logic.go:235-264 | compares the summed requests with eight tenths of the allocatable CPU, with the outcomes of dividing by zero |
| ReplicaUpdater.CustomLogic.ScanNodes | pkg/pod-replicas-updater/pkg/logic.go:164-180 | the count plus all saturated nodes, and with an early stop the smaller of that and the count plus one |
| ReplicaUpdater.SaturatedMeansAbove | pkg/pod-replicas-updater/pkg/logic.go:235-264 | in integers: ten times the CPU requests of all containers of all pods exceed eight times the allocatable CPU |
| ReplicaUpdater.SaturationsAreHot | pkg/pod-replicas-updater/pkg/logic.go:164-180 | the number of replicas asked for is that of the podscales whose node can be read and is above eight tenths |
| ReplicaUpdater.CustomProposes | pkg/pod-replicas-updater/pkg/logic.go:164-199 | for a count in range: with podscales on saturated nodes the count plus their number, or plus one with an early stop, up to the maximum; otherwise nothing without a metric and the response-time target, never above the count, with one |
| ReplicaUpdater.HpaProposes | pkg/pod-replicas-updater/pkg/logic.go:75-94 | nothing without a metric; the response-time target, unless it lies strictly between eight and twelve tenths of the set point in milliseconds |
| ReplicaUpdater.ProposalsInRange | pkg/pod-replicas-updater/pkg/logic.go:83-94 | proposals of both logics lie in the range of the agreement, with an early stop at most one above the count |
| ReplicaUpdater.TargetMovesTheRightWay | pkg/pod-replicas-updater/pkg/logic.go:182-196 | the response-time target never asks for more replicas when the service is within it, nor for fewer when it is beyond |
| ReplicaUpdater.TargetIsRatio | pkg/pod-replicas-updater/pkg/logic.go:182-192 | in integers: the count times response time over set point, rounded half up and clamped to the range of the agreement |
| ReplicaUpdater.ToleranceCanHold | pkg/pod-replicas-updater/pkg/logic.go:86-94 | some response time and count are held back by the tolerance if and only if some allowed number of replicas lies strictly between eight and twelve tenths of the target in milliseconds |
| ReplicaRuns.ChangesAreSpaced | pkg/pod-replicas-updater/pkg/logic.go:58-127 | an upward (downward) change comes more than 165 (180) seconds after every earlier change and the construction |
| ReplicaRuns.ChangesTakeTime | pkg/pod-replicas-updater/pkg/logic.go:153-233 | k changes take at least k times 165001 ms |
| ReplicaRuns.ChangesAreSustained | pkg/pod-replicas-updater/pkg/logic.go:201-231 | every change has an entry into its phase more than 15 (30) seconds before, and every call since wanted that direction or could not read its metric |
| ReplicaRuns.SustainedDemandIsMet | pkg/pod-replicas-updater/pkg/logic.go:58-127 | the converse: when construction and all changes are 150 seconds ago, a call proposes a direction, all calls since want it or cannot read their metric and none changes the count, the first proposal more than 15 (30) seconds later is returned |
| ReplicaRuns.CountsStayInRange | pkg/pod-replicas-updater/pkg/logic.go:153-233 | started in range, every returned count of either logic is in range |
| ReplicaRuns.EarlyStopLimitsGrowth | pkg/pod-replicas-updater/pkg/controller.go:214-229 | with an early stop every upward change adds exactly one replica, so growth is at most one per 165001 ms |
| Proxy.TheServer.OnAccept | pkg/kversca20/KVerSca20.py:161-199 | wakes the pod if needed and opens the pair of sockets when the application answers |
| Proxy.TheServer.OnClose | pkg/kversca20/KVerSca20.py:201-246 | forgets the client's requests and both sockets; the two ways to find the client's address agree; fails exactly on the missing key |
| Proxy.TheServer.OnRecv | pkg/kversca20/KVerSca20.py:248-290 | wakes, accounts, controls the timer, then forwards, or closes when the send fails |
| Proxy.TheServer.TimerControlledByReqs | pkg/kversca20/KVerSca20.py:292-297 | starts a dead timer when nothing is pending, cancels a live one when something is |
| ProxyRuns.ChunkAccounts | pkg/kversca20/KVerSca20.py:248-297 | on sound accounts a chunk sent on adds one request of its client if it comes from it with an HTTP method, takes one off if it comes from the application while one is open, and else none; other clients are as before; with nothing open a timer is alive or armed for 30 seconds, otherwise none; sockets stay, and a pod at zero is woken before the chunk goes to the other end |
| ProxyRuns.FailedChunkAccounts | pkg/kversca20/KVerSca20.py:284-290 | a chunk that cannot be sent on closes exactly its pair of sockets, and all requests of its client are off the books |
| ProxyRuns.HangUpAccounts | pkg/kversca20/KVerSca20.py:201-246 | a hang-up closes exactly its pair of sockets and takes exactly the requests of its client off the counter and the counts |
| ProxyRuns.AcceptOpens | pkg/kversca20/KVerSca20.py:161-199 | an accept adds exactly one pair when the application answers and none otherwise, wakes the pod, and touches neither accounts nor timer |
| ProxyRuns.SocketMapInvariant | pkg/kversca20/KVerSca20.py:183-246 | in every state of every run the channel is a fixed-point-free involution, the input list is its domain and the server without duplicates, and exactly one end of each pair is in the descriptor dictionary |
| ProxyRuns.CounterIsAlwaysSum | pkg/kversca20/KVerSca20.py:220-225 | without any proviso the counter equals the sum of the per-client counts after every step that does not raise |
| ProxyRuns.EventKeepsAccounts | pkg/kversca20/KVerSca20.py:220-225 | on sound accounts no event raises, and it keeps them sound if and only if no connection closes with two or more open requests |
| ProxyRuns.HangUpLosesAccounts | pkg/kversca20/KVerSca20.py:220-225 | a run from the start of the main loop: one client, two requests, a hang-up, and the pending list disagrees with the counter |
| ProxyRuns.AccountsAgree | pkg/kversca20/KVerSca20.py:268-281 | under that proviso counter, per-client counts and pending list describe the same multiset in every state of every run, never negative |
| ProxyRuns.CounterIsLedger | pkg/kversca20/KVerSca20.py:268-281 | over runs under that proviso: the counter is requests less responses less those forgotten with their client |
| ProxyRuns.ZeroMeansIdle | pkg/kversca20/KVerSca20.py:111-145 | under the proviso the zero flag implies that no request is pending in any structure |
| ProxyRuns.TimerFiresAfterIdleness | pkg/kversca20/KVerSca20.py:292-295 | the idle timer fires only after 30 seconds throughout which the counter of pending requests was zero, also in runs whose accounts are broken |
| ProxyRuns.IdlePodGoesToZero | pkg/kversca20/KVerSca20.py:111-145 | the converse: while the counter stays zero and no chunk fails, a live timer keeps its deadline, may fire from then on, and then scales the pod to zero and touches nothing else |
| ProxyRuns.NothingForwardedAtZero | pkg/kversca20/KVerSca20.py:250-290 | no chunk is ever forwarded to a pod at zero |
| ProxyRuns.OnlyAcceptLeavesIdleUntimed | pkg/kversca20/KVerSca20.py:161-166 | over every run: a state is awake and idle without a timer if and only if some accept woke the pod while no timer was alive and no event controlled the timer since |
| ProxyRuns.UntimedUntilChunk | pkg/kversca20/KVerSca20.py:161-166 | on sound accounts that is: if and only if no chunk came since such an accept |
| ProxyRuns.AcceptLosesTimer | pkg/kversca20/KVerSca20.py:161-166 | a run from the start of the main loop: the timer fires, a client connects, and the pod is awake and idle without a timer |
| Reconciliation.DiffPods | pkg/podscale-controller/pkg/utils/utils.go:17-43 | the two lists are the order-preserving filters: pods without a podscale, podscales without a pod |
| Reconciliation.PodScaleStore.SyncService | pkg/podscale-controller/pkg/controller/sync.go:134-187 | creates and deletes along the two lists, also from a stale listing: all of them, or a prefix up to the first request that fails |
| Reconciliation.NewPodScaleMatches | pkg/podscale-controller/pkg/controller/sync.go:191-231 | the labels of a new podscale match the listing selector unless the selector asks for another node |
| Reconciliation.SyncTracksExactly | pkg/podscale-controller/pkg/controller/sync.go:134-187 | afterwards exactly the tracked pods that still exist and the eligible untracked ones with a free name are tracked; podscales outside the selector are untouched |
| Reconciliation.SyncCreatesExactly | pkg/podscale-controller/pkg/controller/sync.go:134-231 | for a free name: afterwards there is a podscale of that name if and only if a listed Guaranteed pod of it has the container of the agreement, and it names that pod, the namespace, the agreement, the service and that container, carries the selector and the node as labels, and has the defaults as desired, capped and actual resources |
| Reconciliation.NewlyTrackedAreMade | pkg/podscale-controller/pkg/controller/sync.go:134-231 | a pod tracked only since this sync is a listed one that may be scaled, and its stored podscale is such a one, field by field |
| Reconciliation.SecondSyncChangesNothing | pkg/podscale-controller/pkg/controller/sync.go:134-187 | a second sync from any listing creates and deletes nothing |

## Left out

- Kubernetes clients, informers, caches of other objects, event recorders, the rate-limited queue, the file logger and klog output: replaced by parameters, versions and failing requests.
- Rounding, NaN and overflow of float64, and the width of int64 and int32: reals and unbounded integers are used; conversions to integers are kept.
- Socket input and output, `select`, byte decoding, stale entries of its result, and exceptions of `recv` and of `getpeername` in `on_recv`: a chunk is an event that says whether it names an HTTP method.
- The interval in which a cancelled timer thread is still alive, and the interleaving of the timer thread with the main loop inside one step: each event is one atomic step in `ProxyRuns.dfy`; `Handoff.dfy` splits the two scaling sequences into their requests.
- `thread_to_zero` of the proxy, whose flag is read before it is ever set, and a failing request in the middle of a scaling sequence.
- The threaded, operator-only and deprecated variants of the proxy, the locust workloads, the HTTP reverse proxy and the deployment files.
- `syncServiceLevelAgreement` and `handleServiceSelectorChange`, which loop over services around `syncService`, and pods or podscales of other namespaces in one listing.
- The weighted averages of the metrics exposer (`updateMetrics`).
- Absent CPU or memory keys inside present resource lists: both are there.
- A metric of a pod that disappears inside a round.
- NodeRound.Round: a list with a nil entry ends the round with `ok == false`; in the source it stops the process in the contention manager.
- VerticalLoop.LoopIsSafe: about the resources that podscales record; what the pods themselves request is bounded by NodeRuns.RunRounds, also after torn updates.
- NodeRuns.RunRounds: the podscales and pods of the node keep their keys during a run, podscales are written by this updater only, and their listing is fresh; pods are written by anybody.
- Feedback.FitsWhateverIsLost: about one worker; several workers on one node meet only through the versions of the stores.
- Handoff.WritersNeverOverlap: keeps of a pod only its label, CPU, memory and one field for everything else.
