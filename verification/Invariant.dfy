/** Every step of the reconciler keeps its structural invariant. */
module Invariant {
  import opened GoInt
  import opened ControllerTypes
  import opened Reconciler

  lemma {:induction false} InventoryOfValid(runners: seq<Runner>)
    requires AllValid(runners)
    ensures InventoryValid(InventoryOf(runners))
  {
    if runners != [] {
      assert runners[|runners| - 1] in runners;
      InventoryOfValid(runners[..|runners| - 1]);
    }
  }

  lemma InitialValid(o: Options, runners: seq<Runner>)
    requires AllValid(runners)
    ensures Valid(InitialState(o, runners)) && TargetsObserved(InitialState(o, runners))
  {
    InventoryOfValid(runners);
  }

  lemma ScheduleKeepsValid(s: State, op: Operation)
    requires Valid(s) && Wanted(s, op) && op.id == s.nextID + 1
    requires op.runnerID != "" ==> op.runnerID !in s.runnerOps
    ensures Valid(Record(s, op))
  {
    var s' := Record(s, op);
    assert forall k | k in s'.operations :: k == op.id || k in s.operations;
    if op.kind.List? {
      assert s'.operations.Keys == {op.id};
    }
  }

  lemma ReleaseKeepsValid(s: State, k: nat)
    requires Valid(s) && k in s.operations
    ensures Valid(Release(s, s.operations[k]))
    ensures s.operations[k].runnerID != "" ==>
              s.operations[k].runnerID in s.runners && s.operations[k].runnerID !in Release(s, s.operations[k]).runnerOps
    ensures s.operations[k].kind.List? ==>
              Release(s, s.operations[k]).operations == map[] && Release(s, s.operations[k]).runnerOps == map[]
  {
    var op := s.operations[k];
    var t := Release(s, op);
    if op.kind.List? {
      assert s.operations.Keys == {k};
      assert t.operations.Keys == {};
      assert s.runnerOps.Keys == {};
    }
  }

  lemma ObserveKeepsValid(s: State, op: Operation, r: OperationResult)
    requires Valid(s) && Succeeds(op, r)
    requires op.kind.List? ==> s.operations == map[] && s.runnerOps == map[]
    requires op.kind.Fence? ==> op.runnerID in s.created
    requires op.runnerID !in s.runnerOps
    ensures Valid(Observe(s, op, r))
  {
    match op.kind
    case List => InventoryOfValid(r.runners);
    case Create =>
    case Fence =>
      forall k | k in s.operations && s.operations[k].kind.Fence? ensures s.operations[k].runnerID != op.runnerID {
        assert s.operations[k].runnerID in s.runnerOps;
      }
    case Delete =>
      forall k | k in s.operations && s.operations[k].kind.Fence? ensures s.operations[k].runnerID != op.runnerID {
        assert s.operations[k].runnerID in s.runnerOps;
      }
  }

  lemma SettleKeepsValid(o: Options, s: State, r: OperationResult, now: int)
    requires ValidOptions(o) && Valid(s) && r.operation.id in s.operations
    ensures Valid(Settle(o, s, r, now))
  {
    var op := s.operations[r.operation.id];
    ReleaseKeepsValid(s, r.operation.id);
    if Succeeds(op, r) {
      ObserveKeepsValid(Release(s, op), op, r);
    }
  }

  /** The structural invariant is kept by every event, whatever the backend and GitHub answer. */
  lemma StepKeepsValid(o: Options, s: State, e: Event, s': State)
    requires ValidOptions(o) && Valid(s) && Step(o, s, e, s')
    ensures Valid(s')
  {
    match e
    case DemandUpdate(d) =>
    case Scheduled(op, now) => ScheduleKeepsValid(s, op);
    case Refused(op, now) =>
    case Applied(r, now) => SettleKeepsValid(o, s, r, now);
    case Stutter =>
  }

  lemma SettleKeepsTargetsObserved(o: Options, s: State, r: OperationResult, now: int)
    requires ValidOptions(o) && Valid(s) && TargetsObserved(s) && r.operation.id in s.operations
    requires FreshResult(s, Applied(r, now))
    ensures TargetsObserved(Settle(o, s, r, now))
  {
    hide InventoryOf, AllValid, ValidRunner, InventoryValid, KnowledgeNested;
    var k, s' := r.operation.id, Settle(o, s, r, now);
    ReleaseKeepsValid(s, k);
    assert forall j | j in s'.operations :: j in s.operations && s'.operations[j] == s.operations[j];
    if !s.operations[k].kind.List? {
      forall j | j in s'.operations && s'.operations[j].runnerID in s'.runners
        ensures s.operations[j].runnerID != "" ==>
                  s'.operations[j].runnerID in s.runners
                  && s'.runners[s'.operations[j].runnerID] == s.runners[s.operations[j].runnerID]
      {
      }
    }
  }

  /** With fresh create identities, deletes in flight target terminal runners and fences idle ones. */
  lemma StepKeepsTargetsObserved(o: Options, s: State, e: Event, s': State)
    requires ValidOptions(o) && Valid(s) && TargetsObserved(s) && Step(o, s, e, s') && FreshResult(s, e)
    ensures TargetsObserved(s')
  {
    hide Valid, Settle;
    if e.Applied? {
      SettleKeepsTargetsObserved(o, s, e.result, e.now);
    }
  }

  lemma {:induction false} RunKeepsValid(o: Options, states: seq<State>, events: seq<Event>, n: nat)
    requires ValidOptions(o) && IsRun(o, states, events) && Valid(states[0]) && n < |states|
    ensures Valid(states[n])
    ensures TargetsObserved(states[0]) && FreshRun(states, events) ==> TargetsObserved(states[n])
  {
    hide Step, Valid, TargetsObserved, FreshResult;
    if n > 0 {
      RunKeepsValid(o, states, events, n - 1);
      StepKeepsValid(o, states[n - 1], events[n - 1], states[n]);
      if TargetsObserved(states[0]) && FreshRun(states, events) {
        StepKeepsTargetsObserved(o, states[n - 1], events[n - 1], states[n]);
      }
    }
  }

  /** At most one operation holds a runner. */
  lemma OneOperationPerRunner(s: State, j: nat, k: nat)
    requires Valid(s) && j in s.operations && k in s.operations
    requires s.operations[j].runnerID == s.operations[k].runnerID != ""
    ensures j == k
  {
  }

  /**
   * setDemand's target is min + jobs while that is at most max and max above that, and min for a negative count; a
   * sum past 64 bits wraps.
   */
  lemma TargetExactly(o: Options, s: State, d: Demand)
    requires ValidOptions(o) && InRange(d.assignedJobs)
    ensures var target := SetDemand(o, s, d).target;
            && (d.assignedJobs < 0 ==> target == o.minRunners)
            && (0 <= d.assignedJobs && o.minRunners + d.assignedJobs <= MAX_INT64 ==>
                  target == if o.minRunners + d.assignedJobs <= o.maxRunners then o.minRunners + d.assignedJobs
                            else o.maxRunners)
            && (o.minRunners + d.assignedJobs > MAX_INT64 ==>
                  target == o.minRunners + d.assignedJobs - 0x1_0000_0000_0000_0000)
  {
    BoundedIsTargetFor(o, d.assignedJobs);
  }

  /**
   * setDemand keeps target within the configured bounds exactly when min + jobs does not overflow int;
   * on overflow the target goes negative, so the upper bound alone always holds.
   */
  lemma TargetBoundedExactly(o: Options, s: State, d: Demand)
    requires ValidOptions(o) && InRange(d.assignedJobs)
    ensures SetDemand(o, s, d).target <= o.maxRunners
    ensures o.minRunners <= SetDemand(o, s, d).target <==> o.minRunners + Max(d.assignedJobs, 0) <= MAX_INT64
  {
    var sum := o.minRunners + Max(d.assignedJobs, 0);
    if sum > MAX_INT64 {
      WrapOverflow(sum);
    }
  }

  /** Such an overflow: one runner at least, and as many jobs as fit 64 bits. */
  lemma TargetCanBeNegative(s: State)
    ensures ValidOptions(Options(1, 1, 1, 1, 1)) && InRange(MAX_INT64)
    ensures SetDemand(Options(1, 1, 1, 1, 1), s, Demand(MAX_INT64, 1, [])).target < 0
  {
    WrapOverflow(MAX_INT64 + 1);
  }

  lemma WrapOverflow(x: int)
    requires MAX_INT64 < x <= 2 * MAX_INT64
    ensures Wrap(x) == x - 0x1_0000_0000_0000_0000 && Wrap(x) < 0
  {
  }
}
