/** The writer hand-off between the sidecar proxy and the update workers. The
    proxy patches the pod unconditionally; a worker updates a copy it read from
    a cache, and the store refuses the update when the copy is stale. The
    `autoscaling` label says who may write the CPU. */
module Handoff {
  import opened Common

  datatype Scaler = Kosmos | VerSca20

  /** The stored pod; `rest` is everything third parties change. */
  datatype PodObject = PodObject(scaler: Scaler, cpu: int, memory: int, rest: int)

  const ZERO_CPU := 10

  /** Where the proxy stands in its two sequences. A CPU patch first reads the
      pod for the memory value it writes back. */
  datatype Proxy =
    | Idle
    | ToZeroLabel | ToZeroRead | ToZeroPatch(seen: int)
    | FromZeroRead | FromZeroPatch(seen: int) | FromZeroLabel

  /** A worker that holds an update of the version it read. */
  datatype Worker =
    | Free
    | Checked(version: nat, update: PodObject)
    | DryRunPassed(version: nat, update: PodObject)

  /** `history` holds every version of the pod, the last one is stored now. */
  datatype State = State(history: seq<PodObject>, flag: bool, proxy: Proxy, workers: seq<Worker>)

  /** A worker may give up at any time: its podscale update was refused, or a
      request was lost. */
  datatype Action =
    | BeginToZero
    | BeginFromZero
    | ProxyStep(defaultCpu: int)
    | CachedRead(w: nat, version: nat, cpu: int, memory: int)
    | WorkerStep(w: nat)
    | GiveUp(w: nat)
    | ThirdParty(rest: int)

  ghost predicate WellFormed(s: State)
  {
    && 0 < |s.history|
    && forall w :: 0 <= w < |s.workers| && !s.workers[w].Free? ==> s.workers[w].version < |s.history|
  }

  ghost function Latest(s: State): PodObject
    requires WellFormed(s)
  {
    s.history[|s.history| - 1]
  }

  ghost function Put(s: State, pod: PodObject): State
  {
    s.(history := s.history + [pod])
  }

  /** The worker's version is the stored one, so the store accepts it. */
  ghost predicate Current(s: State, w: nat)
    requires w < |s.workers| && !s.workers[w].Free?
  {
    s.workers[w].version == |s.history| - 1
  }

  ghost predicate Enabled(s: State, a: Action)
    requires WellFormed(s)
  {
    match a
    case BeginToZero => s.proxy == Idle
    case BeginFromZero => s.proxy == Idle && s.flag
    case ProxyStep(_) => s.proxy != Idle
    case CachedRead(w, version, _, _) =>
      w < |s.workers| && s.workers[w].Free? && version < |s.history| && s.history[version].scaler == Kosmos
    case WorkerStep(w) => w < |s.workers| && !s.workers[w].Free?
    case GiveUp(w) => w < |s.workers| && !s.workers[w].Free?
    case ThirdParty(_) => true
  }

  ghost function ProxyNext(s: State, defaultCpu: int): State
    requires WellFormed(s)
  {
    var pod := Latest(s);
    match s.proxy
    case Idle => s
    case ToZeroLabel => Put(s, pod.(scaler := VerSca20)).(proxy := ToZeroRead)
    case ToZeroRead => s.(proxy := ToZeroPatch(pod.memory))
    case ToZeroPatch(seen) => Put(s, pod.(cpu := ZERO_CPU, memory := seen)).(proxy := Idle)
    case FromZeroRead => s.(proxy := FromZeroPatch(pod.memory))
    case FromZeroPatch(seen) => Put(s, pod.(cpu := defaultCpu, memory := seen)).(proxy := FromZeroLabel)
    case FromZeroLabel => Put(s, pod.(scaler := Kosmos)).(proxy := Idle)
  }

  ghost function WorkerNext(s: State, w: nat): State
    requires w < |s.workers| && !s.workers[w].Free?
  {
    var worker := s.workers[w];
    if !Current(s, w) then s.(workers := s.workers[w := Free])
    else if worker.Checked? then
      s.(workers := s.workers[w := DryRunPassed(worker.version, worker.update)])
    else Put(s, worker.update).(workers := s.workers[w := Free])
  }

  ghost function Next(s: State, a: Action): (s': State)
    requires WellFormed(s) && Enabled(s, a)
    ensures WellFormed(s') && |s'.workers| == |s.workers| && s.history <= s'.history
  {
    match a
    case BeginToZero => s.(flag := true, proxy := ToZeroLabel)
    case BeginFromZero => s.(flag := false, proxy := FromZeroRead)
    case ProxyStep(defaultCpu) => ProxyNext(s, defaultCpu)
    case CachedRead(w, version, cpu, memory) =>
      var update := s.history[version].(cpu := cpu, memory := memory);
      s.(workers := s.workers[w := Checked(version, update)])
    case WorkerStep(w) => WorkerNext(s, w)
    case GiveUp(w) => s.(workers := s.workers[w := Free])
    case ThirdParty(rest) => Put(s, Latest(s).(rest := rest))
  }

  /** The state after a run, or None when some step was not enabled. */
  ghost function Exec(s: State, actions: seq<Action>): (r: Option<State>)
    requires WellFormed(s)
    ensures r.Some? ==> WellFormed(r.value)
  {
    if |actions| == 0 then Some(s)
    else
      var before := Exec(s, actions[..|actions| - 1]);
      var a := actions[|actions| - 1];
      if before.Some? && Enabled(before.value, a) then Some(Next(before.value, a)) else None
  }

  // ---- Who may write -------------------------------------------------------

  ghost predicate ProxyWritesCpu(s: State, a: Action)
  {
    a.ProxyStep? && (s.proxy.ToZeroPatch? || s.proxy.FromZeroPatch?)
  }

  ghost predicate WorkerWrites(s: State, a: Action)
  {
    a.WorkerStep? && a.w < |s.workers| && s.workers[a.w].DryRunPassed? && Current(s, a.w)
  }

  /** Each writer writes only while the label gives the pod to it, and a CPU
      patch of the proxy writes back the memory that is stored. */
  ghost predicate SafeStep(s: State, a: Action)
    requires WellFormed(s)
  {
    && (ProxyWritesCpu(s, a) ==> Latest(s).scaler == VerSca20 && Latest(s).memory == s.proxy.seen)
    && (WorkerWrites(s, a) ==> Latest(s).scaler == Kosmos)
  }

  ghost predicate AlwaysSafe(s: State)
    requires WellFormed(s)
  {
    forall actions, a ::
      Exec(s, actions).Some? && Enabled(Exec(s, actions).value, a) ==> SafeStep(Exec(s, actions).value, a)
  }

  ghost predicate Start(s: State)
  {
    && WellFormed(s) && s.proxy == Idle
    && forall w :: 0 <= w < |s.workers| ==> s.workers[w].Free?
  }

  lemma ExecThree(s: State, a1: Action, a2: Action, a3: Action)
    requires WellFormed(s) && Enabled(s, a1) && Enabled(Next(s, a1), a2) && Enabled(Next(Next(s, a1), a2), a3)
    ensures Exec(s, [a1, a2, a3]) == Some(Next(Next(Next(s, a1), a2), a3))
  {
    hide Next, Enabled;
    assert [a1][..0] == [] && [a1, a2][..1] == [a1] && [a1, a2, a3][..2] == [a1, a2];
    assert Exec(s, []) == Some(s);
    assert Exec(s, [a1]) == Some(Next(s, a1));
    assert Exec(s, [a1, a2]) == Some(Next(Next(s, a1), a2));
  }

  /** A worker whose read is of the stored version does write: its CPU and memory
      and nothing else, after its dry run. */
  lemma CurrentWorkerWrites(s: State, w: nat, cpu: int, memory: int)
    requires WellFormed(s) && w < |s.workers| && s.workers[w].Free? && Latest(s).scaler == Kosmos
    ensures Exec(s, [CachedRead(w, |s.history| - 1, cpu, memory), WorkerStep(w), WorkerStep(w)]) ==
            Some(s.(history := s.history + [Latest(s).(cpu := cpu, memory := memory)]))
  {
    hide Exec;
    var v, update := |s.history| - 1, Latest(s).(cpu := cpu, memory := memory);
    var s1 := s.(workers := s.workers[w := Checked(v, update)]);
    var s2 := s.(workers := s.workers[w := DryRunPassed(v, update)]);
    assert Next(s, CachedRead(w, v, cpu, memory)) == s1;
    assert s1.workers[w := DryRunPassed(v, update)] == s2.workers;
    assert Next(s1, WorkerStep(w)) == s2;
    assert s2.workers[w := Free] == s.workers;
    assert Next(s2, WorkerStep(w)) == s.(history := s.history + [update]);
    ExecThree(s, CachedRead(w, v, cpu, memory), WorkerStep(w), WorkerStep(w));
  }

  /** One whose read is of an older version writes nothing and gives up. */
  lemma StaleWorkerGivesUp(s: State, w: nat)
    requires WellFormed(s) && w < |s.workers| && !s.workers[w].Free? && s.workers[w].version != |s.history| - 1
    ensures Enabled(s, WorkerStep(w)) && Next(s, WorkerStep(w)) == s.(workers := s.workers[w := Free])
  {
  }

  // ---- The invariant -------------------------------------------------------

  ghost predicate ProxyInv(s: State)
    requires WellFormed(s)
  {
    var pod := Latest(s);
    match s.proxy
    case Idle => s.flag ==> pod.scaler == VerSca20
    case ToZeroLabel => s.flag
    case ToZeroRead => s.flag && pod.scaler == VerSca20
    case ToZeroPatch(seen) => s.flag && pod.scaler == VerSca20 && pod.memory == seen
    case FromZeroRead => !s.flag && pod.scaler == VerSca20
    case FromZeroPatch(seen) => !s.flag && pod.scaler == VerSca20 && pod.memory == seen
    case FromZeroLabel => !s.flag && pod.scaler == VerSca20
  }

  ghost predicate WorkersInv(s: State)
    requires WellFormed(s)
  {
    forall w :: 0 <= w < |s.workers| && !s.workers[w].Free? ==>
      s.history[s.workers[w].version].scaler == Kosmos && s.workers[w].update.scaler == Kosmos
  }

  ghost predicate Inv(s: State)
  {
    WellFormed(s) && ProxyInv(s) && WorkersInv(s)
  }

  lemma WorkersInvStep(s: State, a: Action)
    requires WellFormed(s) && WorkersInv(s) && Enabled(s, a)
    ensures WorkersInv(Next(s, a))
  {
    var s' := Next(s, a);
    forall w | 0 <= w < |s'.workers| && !s'.workers[w].Free?
      ensures s'.history[s'.workers[w].version].scaler == Kosmos && s'.workers[w].update.scaler == Kosmos
    {
      if s.workers[w].Free? {
        assert a.CachedRead?;
      } else {
        assert s'.history[s.workers[w].version] == s.history[s.workers[w].version];
      }
    }
  }

  lemma InvStep(s: State, a: Action)
    requires Inv(s) && Enabled(s, a)
    ensures Inv(Next(s, a)) && SafeStep(s, a)
  {
    WorkersInvStep(s, a);
  }

  lemma {:induction false} InvHolds(s: State, actions: seq<Action>)
    requires Inv(s) && Exec(s, actions).Some?
    ensures Inv(Exec(s, actions).value)
  {
    if |actions| == 0 {
    } else {
      InvHolds(s, actions[..|actions| - 1]);
      InvStep(Exec(s, actions[..|actions| - 1]).value, actions[|actions| - 1]);
    }
  }

  /** The hand-off: from an idle start, every interleaving of the proxy, any
      number of workers with arbitrarily stale caches, and third parties keeps
      the writers apart, if and only if a proxy that starts in the zero state
      finds the label already set to its own value. */
  lemma WritersNeverOverlap(s: State)
    requires Start(s)
    ensures AlwaysSafe(s) <==> (s.flag ==> Latest(s).scaler == VerSca20)
  {
    if s.flag ==> Latest(s).scaler == VerSca20 {
      forall actions, a | Exec(s, actions).Some? && Enabled(Exec(s, actions).value, a)
        ensures SafeStep(Exec(s, actions).value, a)
      {
        InvHolds(s, actions);
        InvStep(Exec(s, actions).value, a);
      }
    } else {
      var a1, a2 := BeginFromZero, ProxyStep(0);
      var s1 := Next(s, a1);
      var s2 := Next(s1, a2);
      assert Exec(s, []) == Some(s);
      assert [a1][..0] == [] && [a1, a2][..1] == [a1];
      assert Exec(s, [a1]) == Some(s1);
      assert Exec(s, [a1, a2]) == Some(s2);
      assert Enabled(s2, a2) && !SafeStep(s2, a2);
    }
  }

  /** At rest in the zero state. */
  ghost predicate Zeroed(s: State)
  {
    WellFormed(s) && s.proxy == Idle && s.flag && Latest(s).scaler == VerSca20 && Latest(s).cpu == 10
  }

  ghost predicate HeldAtZero(s: State)
  {
    && Inv(s) && s.flag && Latest(s).scaler == VerSca20 && Latest(s).cpu == 10
    && !s.proxy.FromZeroRead? && !s.proxy.FromZeroPatch? && !s.proxy.FromZeroLabel?
  }

  lemma HeldStep(s: State, a: Action)
    requires HeldAtZero(s) && Enabled(s, a) && a != BeginFromZero
    ensures HeldAtZero(Next(s, a)) && Latest(Next(s, a)).memory == Latest(s).memory
  {
    InvStep(s, a);
  }

  /** A zeroed pod stays zeroed until the proxy itself begins to scale it from
      zero: no worker and no repeated idle timer changes its CPU or its label,
      and its memory changes no more than its CPU does. */
  lemma {:induction false} ZeroedStaysZeroed(s: State, actions: seq<Action>)
    requires Inv(s) && Zeroed(s) && Exec(s, actions).Some?
    requires forall i :: 0 <= i < |actions| ==> actions[i] != BeginFromZero
    ensures HeldAtZero(Exec(s, actions).value)
    ensures Latest(Exec(s, actions).value).memory == Latest(s).memory
  {
    hide Next, Enabled;
    if |actions| == 0 {
    } else {
      var rest, a := actions[..|actions| - 1], actions[|actions| - 1];
      ZeroedStaysZeroed(s, rest);
      HeldStep(Exec(s, rest).value, a);
    }
  }

  /** On the way to zero, or arrived there and held. */
  ghost predicate HeadingToZero(s: State)
  {
    && Inv(s) && s.flag
    && (s.proxy.ToZeroLabel? || s.proxy.ToZeroRead? || s.proxy.ToZeroPatch? || Zeroed(s))
  }

  /** A scale to zero that comes to its end has zeroed the pod, whatever other
      parties do between its steps. */
  lemma {:induction false} ToZeroCompletes(s: State, actions: seq<Action>)
    requires Inv(s) && s.proxy == ToZeroLabel && Exec(s, actions).Some?
    requires forall i :: 0 <= i < |actions| ==> !actions[i].BeginToZero? && !actions[i].BeginFromZero?
    ensures HeadingToZero(Exec(s, actions).value)
    ensures Exec(s, actions).value.proxy == Idle ==> Zeroed(Exec(s, actions).value)
  {
    if |actions| == 0 {
    } else {
      var rest, a := actions[..|actions| - 1], actions[|actions| - 1];
      ToZeroCompletes(s, rest);
      InvStep(Exec(s, rest).value, a);
    }
  }

  /** Between the begin of a scale from zero and its last step: the proxy owns
      the pod, its memory is that of the start, and a patched CPU stays. */
  ghost predicate LeavingZero(s: State, memory: int, cpu: int)
  {
    && Inv(s) && !s.flag && Latest(s).scaler == VerSca20 && Latest(s).memory == memory
    && (s.proxy.FromZeroRead? || s.proxy.FromZeroPatch? || (s.proxy.FromZeroLabel? && Latest(s).cpu == cpu))
  }

  lemma LeavingZeroStep(s: State, a: Action, memory: int, cpu: int)
    requires LeavingZero(s, memory, cpu) && Enabled(s, a) && !a.BeginToZero? && !a.BeginFromZero?
    requires a.ProxyStep? ==> a.defaultCpu == cpu
    ensures Inv(Next(s, a)) && (Next(s, a).proxy == Idle || LeavingZero(Next(s, a), memory, cpu))
  {
    InvStep(s, a);
  }

  lemma StaysIdle(s: State, a: Action)
    requires Inv(s) && s.proxy == Idle && Enabled(s, a) && !a.BeginToZero? && !a.BeginFromZero?
    ensures Inv(Next(s, a)) && Next(s, a).proxy == Idle
  {
    InvStep(s, a);
  }

  lemma {:induction false} LeavingZeroHolds(s: State, actions: seq<Action>, cpu: int)
    requires Inv(s) && Enabled(s, BeginFromZero)
    requires Exec(Next(s, BeginFromZero), actions).Some?
    requires forall i :: 0 <= i < |actions| ==>
               && !actions[i].BeginToZero? && !actions[i].BeginFromZero?
               && (actions[i].ProxyStep? ==> actions[i].defaultCpu == cpu)
    ensures var t := Exec(Next(s, BeginFromZero), actions).value;
            Inv(t) && (t.proxy == Idle || LeavingZero(t, Latest(s).memory, cpu))
  {
    if |actions| == 0 {
      InvStep(s, BeginFromZero);
    } else {
      hide Next, Enabled, LeavingZero, ProxyInv, WorkersInv;
      var rest, a := actions[..|actions| - 1], actions[|actions| - 1];
      LeavingZeroHolds(s, rest, cpu);
      var before := Exec(Next(s, BeginFromZero), rest).value;
      if before.proxy == Idle {
        StaysIdle(before, a);
      } else {
        LeavingZeroStep(before, a, Latest(s).memory, cpu);
      }
    }
  }

  lemma LastStepFromZero(s: State, a: Action, memory: int, cpu: int)
    requires LeavingZero(s, memory, cpu) && Enabled(s, a) && Next(s, a).proxy == Idle
    ensures var t := Next(s, a);
            !t.flag && Latest(t).scaler == Kosmos && Latest(t).cpu == cpu && Latest(t).memory == memory
  {
  }

  /** A scale from zero that comes to its end has handed the pod back: whatever
      other parties do between its steps, the step that ends it leaves the pod
      with the default CPU, the memory of the start, and the label Kosmos. */
  lemma FromZeroCompletes(s: State, actions: seq<Action>, last: Action, cpu: int)
    requires Inv(s) && Enabled(s, BeginFromZero) && Exec(Next(s, BeginFromZero), actions).Some?
    requires forall i :: 0 <= i < |actions| ==>
               && !actions[i].BeginToZero? && !actions[i].BeginFromZero?
               && (actions[i].ProxyStep? ==> actions[i].defaultCpu == cpu)
    requires var before := Exec(Next(s, BeginFromZero), actions).value;
             before.proxy != Idle && Enabled(before, last) && Next(before, last).proxy == Idle
    ensures var after := Next(Exec(Next(s, BeginFromZero), actions).value, last);
            && !after.flag && Latest(after).scaler == Kosmos
            && Latest(after).cpu == cpu && Latest(after).memory == Latest(s).memory
  {
    hide Next, LeavingZero, ProxyInv, WorkersInv, Enabled;
    LeavingZeroHolds(s, actions, cpu);
    LastStepFromZero(Exec(Next(s, BeginFromZero), actions).value, last, Latest(s).memory, cpu);
  }
}
