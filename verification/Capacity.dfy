/** How each event changes live capacity, and the ceiling that follows for whole runs. */
module Capacity {
  import opened GoInt
  import opened ControllerTypes
  import opened Reconciler
  import opened Invariant

  predicate Failed(s: State, e: Event, kind: OperationKind) {
    && e.Applied? && e.result.operation.id in s.operations
    && s.operations[e.result.operation.id].kind == kind
    && !Succeeds(s.operations[e.result.operation.id], e.result)
  }

  predicate Succeeded(s: State, e: Event, kind: OperationKind) {
    && e.Applied? && e.result.operation.id in s.operations
    && s.operations[e.result.operation.id].kind == kind
    && Succeeds(s.operations[e.result.operation.id], e.result)
  }

  /** The exact effect of every event but a successful list, which recomputes capacity from scratch. */
  function LiveChange(s: State, e: Event): int {
    if e.Scheduled? && e.op.kind.Create? then 1
    else if e.Scheduled? && e.op.kind.Fence? then -1
    else if Failed(s, e, Create) then -1
    else if Succeeded(s, e, Create) && e.result.runner.state.Terminal? then -1
    else if Failed(s, e, Fence) then 1
    else 0
  }

  lemma RecordChangesCreates(s: State, op: Operation)
    requires OperationsNumbered(s) && op.id == s.nextID + 1
    ensures |CreateOps(Record(s, op))| == |CreateOps(s)| + (if op.kind.Create? then 1 else 0)
  {
    var s' := Record(s, op);
    if op.kind.Create? {
      assert CreateOps(s') == CreateOps(s) + {op.id};
    } else {
      assert CreateOps(s') == CreateOps(s);
    }
  }

  lemma RecordChangesLiveRunners(s: State, op: Operation)
    requires InventoryValid(s.runners) && Wanted(s, op)
    requires op.runnerID != "" ==> op.runnerID !in s.runnerOps
    ensures |LiveRunners(Record(s, op))| == |LiveRunners(s)| - (if op.kind.Fence? then 1 else 0)
  {
    var s' := Record(s, op);
    if op.kind.Fence? {
      assert LiveRunners(s) == LiveRunners(s') + {op.runnerID};
    } else {
      assert LiveRunners(s') == LiveRunners(s);
    }
  }

  lemma ScheduleChangesLive(s: State, op: Operation)
    requires Valid(s) && Wanted(s, op) && op.id == s.nextID + 1
    requires op.runnerID != "" ==> op.runnerID !in s.runnerOps
    ensures LiveCapacity(Record(s, op)) == LiveCapacity(s) + LiveChange(s, Scheduled(op, 0))
  {
    RecordChangesCreates(s, op);
    RecordChangesLiveRunners(s, op);
  }

  lemma ReleaseChangesCreates(s: State, k: nat)
    requires Valid(s) && k in s.operations
    ensures |CreateOps(Release(s, s.operations[k]))| == |CreateOps(s)| - (if s.operations[k].kind.Create? then 1 else 0)
  {
    var t := Release(s, s.operations[k]);
    if s.operations[k].kind.Create? {
      assert CreateOps(s) == CreateOps(t) + {k};
    } else {
      assert CreateOps(s) == CreateOps(t);
    }
  }

  /** Unlocking the target of a failed operation: a fenced-for runner counts again, a terminal one never did. */
  lemma ReleaseChangesLiveRunners(s: State, k: nat)
    requires Valid(s) && TargetsObserved(s) && k in s.operations
    ensures |LiveRunners(Release(s, s.operations[k]))| == |LiveRunners(s)| + (if s.operations[k].kind.Fence? then 1 else 0)
  {
    var op := s.operations[k];
    var t := Release(s, op);
    if op.kind.Fence? {
      assert LiveRunners(t) == LiveRunners(s) + {op.runnerID};
    } else {
      assert LiveRunners(t) == LiveRunners(s);
    }
  }

  lemma CreatedRunnerIsLive(t: State, runner: Runner, generation: nat)
    requires LocksHeld(t) && KnowledgeNested(t) && runner.id !in t.runners
    ensures var s' := t.(runners := t.runners[runner.id := runner], created := t.created[runner.id := generation]);
            |LiveRunners(s')| == |LiveRunners(t)| + (if runner.state.Terminal? then 0 else 1)
  {
    var s' := t.(runners := t.runners[runner.id := runner], created := t.created[runner.id := generation]);
    if runner.state.Terminal? {
      assert LiveRunners(s') == LiveRunners(t);
    } else {
      assert LiveRunners(s') == LiveRunners(t) + {runner.id};
    }
  }

  lemma ObserveChangesLiveRunners(t: State, op: Operation, r: OperationResult)
    requires LocksHeld(t) && KnowledgeNested(t) && !op.kind.List?
    requires op.kind.Create? ==> r.runner.id !in t.runners
    requires op.kind.Fence? ==> op.runnerID in LiveRunners(t)
    requires op.kind.Delete? ==> op.runnerID !in LiveRunners(t)
    ensures |LiveRunners(Observe(t, op, r))| == |LiveRunners(t)| +
              (if op.kind.Create? && !r.runner.state.Terminal? then 1 else if op.kind.Fence? then -1 else 0)
  {
    var s' := Observe(t, op, r);
    match op.kind
    case Create => CreatedRunnerIsLive(t, r.runner, op.generation);
    case Fence => assert LiveRunners(t) == LiveRunners(s') + {op.runnerID};
    case Delete => assert LiveRunners(s') == LiveRunners(t);
  }

  /** The target of an operation in flight, once released, is live exactly if it was to be fenced. */
  lemma ReleasedTarget(s: State, k: nat)
    requires Valid(s) && TargetsObserved(s) && k in s.operations && TargetsRunner(s.operations[k].kind)
    ensures s.operations[k].runnerID in LiveRunners(Release(s, s.operations[k])) <==> s.operations[k].kind.Fence?
  {
  }

  lemma FailuresDoNotCount(s: State, failures: map<FailureKey, Cooldown>, stale: bool)
    ensures LiveCapacity(s.(failures := failures, stale := stale)) == LiveCapacity(s)
  {
    var s' := s.(failures := failures, stale := stale);
    assert LiveRunners(s') == LiveRunners(s);
    assert CreateOps(s') == CreateOps(s);
  }

  lemma ObserveKeepsCreates(t: State, op: Operation, r: OperationResult)
    ensures CreateOps(Observe(t, op, r)) == CreateOps(t)
  {
  }

  lemma SettleChangesLive(o: Options, s: State, r: OperationResult, now: int)
    requires ValidOptions(o) && Valid(s) && TargetsObserved(s)
    requires r.operation.id in s.operations && FreshResult(s, Applied(r, now))
    requires !Succeeded(s, Applied(r, now), List)
    ensures LiveCapacity(Settle(o, s, r, now)) == LiveCapacity(s) + LiveChange(s, Applied(r, now))
  {
    var k := r.operation.id;
    var op, s' := s.operations[k], Settle(o, s, r, now);
    var t := Release(s, op);
    ReleaseChangesCreates(s, k);
    ReleaseChangesLiveRunners(s, k);
    if Succeeds(op, r) {
      ReleaseKeepsValid(s, k);
      if TargetsRunner(op.kind) {
        ReleasedTarget(s, k);
      }
      var observed := Observe(t, op, r);
      ObserveKeepsCreates(t, op, r);
      ObserveChangesLiveRunners(t, op, r);
      FailuresDoNotCount(observed, s'.failures, observed.stale);
    } else {
      FailuresDoNotCount(t, s'.failures, true);
    }
  }

  /** Live capacity changes by exactly LiveChange on every step. */
  lemma StepChangesLive(o: Options, s: State, e: Event, s': State)
    requires ValidOptions(o) && Valid(s) && TargetsObserved(s) && Step(o, s, e, s') && FreshResult(s, e)
    requires !Succeeded(s, e, List)
    ensures LiveCapacity(s') == LiveCapacity(s) + LiveChange(s, e)
  {
    match e
    case DemandUpdate(d) =>
      assert LiveRunners(s') == LiveRunners(s);
    case Scheduled(op, now) =>
      ScheduleChangesLive(s, op);
    case Refused(op, now) =>
      assert LiveRunners(s') == LiveRunners(s);
    case Applied(r, now) =>
      SettleChangesLive(o, s, r, now);
    case Stutter =>
  }

  // ---- The ceiling --------------------------------------------------------------------------------

  /** Live capacity just after the last successful list at or before position n (or at the start). */
  ghost function LiveAtInventory(states: seq<State>, events: seq<Event>, n: nat): nat
    requires n < |states| == |events| + 1
  {
    if n == 0 || Succeeded(states[n - 1], events[n - 1], List) then LiveCapacity(states[n])
    else LiveAtInventory(states, events, n - 1)
  }

  /** Failed fences applied since that inventory. */
  ghost function FenceFailures(states: seq<State>, events: seq<Event>, n: nat): nat
    requires n < |states| == |events| + 1
  {
    if n == 0 || Succeeded(states[n - 1], events[n - 1], List) then 0
    else FenceFailures(states, events, n - 1) + (if Failed(states[n - 1], events[n - 1], Fence) then 1 else 0)
  }

  /** No demand overflows the 64-bit sum setDemand takes. */
  predicate DemandFits(o: Options, e: Event) {
    e.DemandUpdate? ==> InRange(e.demand.assignedJobs) && o.minRunners + Max(e.demand.assignedJobs, 0) <= MAX_INT64
  }

  /** The target stays at or below MaxRunners, and at or above MinRunners as long as no demand overflows. */
  lemma {:induction false} TargetStaysCapped(o: Options, states: seq<State>, events: seq<Event>, n: nat)
    requires ValidOptions(o) && IsRun(o, states, events) && n < |states|
    requires states[0].target <= o.maxRunners
    ensures states[n].target <= o.maxRunners
    ensures o.minRunners <= states[0].target && (forall i | 0 <= i < n :: DemandFits(o, events[i])) ==>
              o.minRunners <= states[n].target
  {
    hide Step;
    if n > 0 {
      TargetStaysCapped(o, states, events, n - 1);
      StepKeepsTargetCapped(o, states[n - 1], events[n - 1], states[n]);
    }
  }

  lemma StepKeepsTargetCapped(o: Options, s: State, e: Event, s': State)
    requires ValidOptions(o) && Step(o, s, e, s') && s.target <= o.maxRunners
    ensures s'.target <= o.maxRunners
    ensures o.minRunners <= s.target && DemandFits(o, e) ==> o.minRunners <= s'.target
  {
    hide Wanted, Attemptable, Wrap, Valid, Settle;
    if e.Applied? {
      SettleKeepsTarget(o, s, e.result, e.now);
    } else if e.DemandUpdate? && InRange(e.demand.assignedJobs) {
      TargetBoundedExactly(o, s, e.demand);
    }
  }

  lemma SettleKeepsTarget(o: Options, s: State, r: OperationResult, now: int)
    requires ValidOptions(o) && r.operation.id in s.operations
    ensures Settle(o, s, r, now).target == s.target
  {
    hide AllValid;
  }

  /**
   * Capacity ceiling over runs: live capacity exceeds MaxRunners only by what the last inventory already
   * showed and by the fences that have failed since.
   */
  lemma {:induction false} CapacityCeiling(o: Options, states: seq<State>, events: seq<Event>, n: nat)
    requires ValidOptions(o) && IsRun(o, states, events) && FreshRun(states, events) && n < |states|
    requires Valid(states[0]) && TargetsObserved(states[0]) && states[0].target <= o.maxRunners
    ensures LiveCapacity(states[n]) <=
            Max(LiveAtInventory(states, events, n), o.maxRunners) + FenceFailures(states, events, n)
  {
    if n > 0 && !Succeeded(states[n - 1], events[n - 1], List) {
      CapacityCeiling(o, states, events, n - 1);
      RunKeepsValid(o, states, events, n - 1);
      TargetStaysCapped(o, states, events, n - 1);
      StepChangesLive(o, states[n - 1], events[n - 1], states[n]);
    }
  }

  /** From within the ceiling, one step leaves it exactly on a failed fence at the limit or an over-full inventory. */
  lemma CeilingBrokenExactly(o: Options, s: State, e: Event, s': State)
    requires ValidOptions(o) && Valid(s) && TargetsObserved(s) && Step(o, s, e, s') && FreshResult(s, e)
    requires s.target <= o.maxRunners && LiveCapacity(s) <= o.maxRunners
    ensures LiveCapacity(s') > o.maxRunners <==>
              || (Failed(s, e, Fence) && LiveCapacity(s) == o.maxRunners)
              || (Succeeded(s, e, List) && |LiveInInventory(s, e.result.runners)| > o.maxRunners)
  {
    if Succeeded(s, e, List) {
      ListedLive(o, s, e.result, e.now);
    } else {
      StepChangesLive(o, s, e, s');
    }
  }

  /** The runners of a fresh inventory that count: not terminal, and not fenced before. */
  function LiveInInventory(s: State, runners: seq<Runner>): set<RunnerID> {
    var inventory := InventoryOf(runners);
    set id | id in inventory && id !in s.fenced && !inventory[id].state.Terminal?
  }

  lemma ListedLive(o: Options, s: State, r: OperationResult, now: int)
    requires ValidOptions(o) && Valid(s) && Succeeded(s, Applied(r, now), List)
    ensures LiveCapacity(Settle(o, s, r, now)) == |LiveInInventory(s, r.runners)|
  {
    var s' := Settle(o, s, r, now);
    ReleaseKeepsValid(s, r.operation.id);
    assert LiveRunners(s') == LiveInInventory(s, r.runners);
    assert CreateOps(s') == {};
  }
}
