/** With fixed demand, no failures and a frozen environment, reconciliation converges. */
module Convergence {
  import opened GoInt
  import opened ControllerTypes
  import opened Reconciler
  import opened Invariant
  import opened Capacity

  /** Demand is fixed, every operation succeeds, created runners are not terminal, and lists show no news. */
  predicate Calm(s: State, e: Event) {
    && !e.DemandUpdate?
    && (e.Applied? && e.result.operation.id in s.operations ==>
          var op := s.operations[e.result.operation.id];
          && Succeeds(op, e.result)
          && (op.kind.Create? ==> !e.result.runner.state.Terminal?)
          && (op.kind.List? ==> InventoryOf(e.result.runners) == s.runners))
  }

  /** Terminal runners no delete has been scheduled for. */
  function UnscheduledTerminals(s: State): set<RunnerID> {
    set id | id in s.runners && s.runners[id].state.Terminal? && id !in s.runnerOps
  }

  function WorkOps(s: State): set<nat> {
    set k | k in s.operations && !s.operations[k].kind.List?
  }

  /** Twice the schedules still owed, plus the operations in flight. */
  function Measure(s: State): nat {
    2 * (Abs(s.target - LiveCapacity(s)) + |UnscheduledTerminals(s)|) + |WorkOps(s)|
  }

  /** Scheduling a mutation, or applying the result of one. */
  predicate Progress(s: State, e: Event) {
    || (e.Scheduled? && !e.op.kind.List?)
    || (e.Applied? && e.result.operation.id in s.operations && !s.operations[e.result.operation.id].kind.List?)
  }

  // ---- One step -----------------------------------------------------------------------------------

  lemma ScheduleChangesTerminals(s: State, op: Operation)
    requires InventoryValid(s.runners) && Wanted(s, op)
    requires op.runnerID != "" ==> op.runnerID !in s.runnerOps
    ensures |UnscheduledTerminals(Record(s, op))| == |UnscheduledTerminals(s)| - (if op.kind.Delete? then 1 else 0)
  {
    var s' := Record(s, op);
    if op.kind.Delete? {
      assert UnscheduledTerminals(s) == UnscheduledTerminals(s') + {op.runnerID};
    } else {
      assert UnscheduledTerminals(s) == UnscheduledTerminals(s');
    }
  }

  lemma ScheduleChangesWork(s: State, op: Operation)
    requires OperationsNumbered(s) && op.id == s.nextID + 1
    ensures |WorkOps(Record(s, op))| == |WorkOps(s)| + (if op.kind.List? then 0 else 1)
  {
    var s' := Record(s, op);
    if op.kind.List? {
      assert WorkOps(s') == WorkOps(s);
    } else {
      assert WorkOps(s') == WorkOps(s) + {op.id};
    }
  }

  lemma ReleaseChangesWork(s: State, k: nat)
    requires Valid(s) && k in s.operations && !s.operations[k].kind.List?
    ensures |WorkOps(Release(s, s.operations[k]))| == |WorkOps(s)| - 1
  {
    assert s.operations[k].id == k;
    var after := WorkOps(Release(s, s.operations[k]));
    OperationReleased(s, s.operations[k], after);
  }

  lemma OperationReleased(s: State, op: Operation, after: set<nat>)
    requires op.id in WorkOps(s) && after == WorkOps(Release(s, op))
    ensures WorkOps(s) == after + {op.id} && |after| == |WorkOps(s)| - 1
  {
  }

  lemma SettleKeepsTerminals(o: Options, s: State, r: OperationResult, now: int)
    requires ValidOptions(o) && Valid(s) && TargetsObserved(s) && r.operation.id in s.operations
    requires Calm(s, Applied(r, now)) && FreshResult(s, Applied(r, now))
    requires !s.operations[r.operation.id].kind.List?
    ensures UnscheduledTerminals(Settle(o, s, r, now)) == UnscheduledTerminals(s)
  {
  }

  lemma SettleKeepsWork(o: Options, s: State, r: OperationResult, now: int)
    requires ValidOptions(o) && r.operation.id in s.operations
    ensures WorkOps(Settle(o, s, r, now)) == WorkOps(Release(s, s.operations[r.operation.id]))
  {
  }

  /** A list that shows no news changes nothing the reconciler decides from. */
  lemma IdleListChangesNothing(o: Options, s: State, r: OperationResult, now: int)
    requires ValidOptions(o) && Valid(s) && Succeeded(s, Applied(r, now), List) && Calm(s, Applied(r, now))
    ensures var s' := Settle(o, s, r, now);
            && LiveCapacity(s') == LiveCapacity(s) && s'.target == s.target
            && UnscheduledTerminals(s') == UnscheduledTerminals(s) && WorkOps(s') == WorkOps(s)
  {
    var s' := Settle(o, s, r, now);
    var k := r.operation.id;
    assert s.operations.Keys == {k};
    ReleaseKeepsValid(s, k);
    assert s.runnerOps == map[] by {
      assert Release(s, s.operations[k]).runnerOps == s.runnerOps;
    }
    assert s'.created == s.created && s'.fenced == s.fenced;
    assert LiveRunners(s') == LiveRunners(s);
    assert CreateOps(s') == CreateOps(s) == {};
    assert WorkOps(s') == WorkOps(s) == {};
  }

  /** Every mutation scheduled or applied lowers the measure by exactly one; nothing else changes it. */
  lemma CalmStep(o: Options, s: State, e: Event, s': State)
    requires ValidOptions(o) && Valid(s) && TargetsObserved(s)
    requires Step(o, s, e, s') && FreshResult(s, e) && Calm(s, e)
    ensures Measure(s') == Measure(s) - (if Progress(s, e) then 1 else 0)
    ensures s'.target == s.target
    ensures LiveCapacity(s') == LiveCapacity(s) + LiveChange(s, e)
    ensures !s.stale ==> !s'.stale
  {
    match e
    case Scheduled(op, now) =>
      ScheduleChangesLive(s, op);
      ScheduleChangesTerminals(s, op);
      ScheduleChangesWork(s, op);
    case Refused(op, now) =>
      assert LiveRunners(s') == LiveRunners(s);
      assert UnscheduledTerminals(s') == UnscheduledTerminals(s);
    case Applied(r, now) =>
      CalmSettle(o, s, r, now);
    case Stutter =>
  }

  lemma CalmSettle(o: Options, s: State, r: OperationResult, now: int)
    requires ValidOptions(o) && Valid(s) && TargetsObserved(s) && r.operation.id in s.operations
    requires Calm(s, Applied(r, now)) && FreshResult(s, Applied(r, now))
    ensures var s' := Settle(o, s, r, now);
            && Measure(s') == Measure(s) - (if Progress(s, Applied(r, now)) then 1 else 0)
            && s'.target == s.target
            && LiveCapacity(s') == LiveCapacity(s)
            && (!s.stale ==> !s'.stale)
    ensures LiveChange(s, Applied(r, now)) == 0
  {
    if s.operations[r.operation.id].kind.List? {
      IdleListChangesNothing(o, s, r, now);
    } else {
      SettleChangesLive(o, s, r, now);
      SettleKeepsTerminals(o, s, r, now);
      SettleKeepsWork(o, s, r, now);
      ReleaseChangesWork(s, r.operation.id);
    }
  }

  // ---- Whole runs ---------------------------------------------------------------------------------

  ghost predicate CalmRun(states: seq<State>, events: seq<Event>)
    requires |states| == |events| + 1
  {
    && FreshRun(states, events)
    && forall i | 0 <= i < |events| :: Calm(states[i], events[i])
  }

  ghost function ProgressCount(states: seq<State>, events: seq<Event>, n: nat): nat
    requires n < |states| == |events| + 1
  {
    if n == 0 then 0
    else ProgressCount(states, events, n - 1) + (if Progress(states[n - 1], events[n - 1]) then 1 else 0)
  }

  ghost function ScheduledCount(events: seq<Event>, kind: OperationKind, n: nat): nat
    requires n <= |events|
  {
    if n == 0 then 0
    else ScheduledCount(events, kind, n - 1) + (if Schedules(events[n - 1], kind) then 1 else 0)
  }

  /** Any calm run performs exactly as much progress as the measure falls, so at most Measure(start) of it. */
  lemma {:induction false} CalmRunsAreBounded(o: Options, states: seq<State>, events: seq<Event>, n: nat)
    requires ValidOptions(o) && IsRun(o, states, events) && CalmRun(states, events) && n < |states|
    requires Valid(states[0]) && TargetsObserved(states[0])
    ensures ProgressCount(states, events, n) + Measure(states[n]) == Measure(states[0])
    ensures states[n].target == states[0].target
    ensures !states[0].stale ==> !states[n].stale
  {
    hide Step, Measure, Progress;
    if n > 0 {
      CalmRunsAreBounded(o, states, events, n - 1);
      RunKeepsValid(o, states, events, n - 1);
      CalmStep(o, states[n - 1], events[n - 1], states[n]);
    }
  }

  predicate Schedules(e: Event, kind: OperationKind) {
    e.Scheduled? && e.op.kind == kind
  }

  /** One calm step moves live capacity toward target or leaves it, and never crosses it. */
  lemma CalmStepApproaches(o: Options, s: State, e: Event, s': State)
    requires ValidOptions(o) && Valid(s) && TargetsObserved(s)
    requires Step(o, s, e, s') && FreshResult(s, e) && Calm(s, e)
    ensures LiveCapacity(s') ==
              LiveCapacity(s) + (if Schedules(e, Create) then 1 else if Schedules(e, Fence) then -1 else 0)
    ensures Schedules(e, Create) ==> LiveCapacity(s) < s.target
    ensures Schedules(e, Fence) ==> LiveCapacity(s) > s.target
    ensures s'.target == s.target
  {
    CalmStep(o, s, e, s');
  }

  /** Below target, a calm run only creates and never overshoots: live capacity rises by one per create. */
  lemma {:induction false} ScaleUpCreatesExactly(o: Options, states: seq<State>, events: seq<Event>, n: nat)
    requires ValidOptions(o) && IsRun(o, states, events) && CalmRun(states, events) && n < |states|
    requires Valid(states[0]) && TargetsObserved(states[0])
    requires LiveCapacity(states[0]) <= states[0].target
    ensures LiveCapacity(states[n]) <= states[n].target == states[0].target
    ensures ScheduledCount(events, Create, n) == LiveCapacity(states[n]) - LiveCapacity(states[0])
    ensures ScheduledCount(events, Fence, n) == 0
  {
    hide Step, Calm, LiveCapacity, FreshResult;
    if n > 0 {
      ScaleUpCreatesExactly(o, states, events, n - 1);
      RunKeepsValid(o, states, events, n - 1);
      CalmStepApproaches(o, states[n - 1], events[n - 1], states[n]);
    }
  }

  /** Above target, a calm run only fences and never undershoots. */
  lemma {:induction false} ScaleDownFencesExactly(o: Options, states: seq<State>, events: seq<Event>, n: nat)
    requires ValidOptions(o) && IsRun(o, states, events) && CalmRun(states, events) && n < |states|
    requires Valid(states[0]) && TargetsObserved(states[0])
    requires LiveCapacity(states[0]) >= states[0].target
    ensures LiveCapacity(states[n]) >= states[n].target == states[0].target
    ensures ScheduledCount(events, Fence, n) == LiveCapacity(states[0]) - LiveCapacity(states[n])
    ensures ScheduledCount(events, Create, n) == 0
  {
    hide Step, Calm, LiveCapacity, FreshResult;
    if n > 0 {
      ScaleDownFencesExactly(o, states, events, n - 1);
      RunKeepsValid(o, states, events, n - 1);
      CalmStepApproaches(o, states[n - 1], events[n - 1], states[n]);
    }
  }

  // ---- End states ---------------------------------------------------------------------------------

  /** Every terminal runner is being deleted, and live capacity is on target or only protected runners exceed it. */
  ghost predicate Converged(s: State) {
    && UnscheduledTerminals(s) == {}
    && (LiveCapacity(s) == s.target
        || (LiveCapacity(s) > s.target && forall id :: !IdleCandidate(s, id)))
  }

  /** A mutation the reconciler would try to schedule right now. */
  predicate Schedulable(s: State, op: Operation, now: int) {
    !op.kind.List? && op.id == s.nextID + 1 && Wanted(s, op) && Attemptable(s, op, now)
  }

  predicate CooledDown(s: State, now: int) {
    forall key | key in s.failures :: s.failures[key].retryAt <= now
  }

  /** A settled, cooled-down state has nothing to schedule exactly when it has converged. */
  lemma NothingToScheduleMeansConverged(s: State, now: int)
    requires Valid(s) && Settled(s) && CooledDown(s, now)
    ensures (forall op :: !Schedulable(s, op, now)) <==> Converged(s)
  {
    if Converged(s) {
      forall op ensures !Schedulable(s, op, now) {
        ConvergedSchedulesNothing(s, op, now);
      }
    } else {
      var op := NextMutation(s, now);
    }
  }

  lemma ConvergedSchedulesNothing(s: State, op: Operation, now: int)
    requires Valid(s) && Converged(s)
    ensures !Schedulable(s, op, now)
  {
    assert op.kind.Delete? && Schedulable(s, op, now) ==> op.runnerID in UnscheduledTerminals(s);
  }

  lemma NextMutation(s: State, now: int) returns (op: Operation)
    requires Valid(s) && Settled(s) && CooledDown(s, now) && !Converged(s)
    ensures Schedulable(s, op, now)
  {
    if UnscheduledTerminals(s) != {} {
      var id :| id in UnscheduledTerminals(s);
      op := Operation(s.nextID + 1, Delete, id, 0);
    } else if LiveCapacity(s) < s.target {
      op := Operation(s.nextID + 1, Create, "", s.generation);
    } else {
      var id :| IdleCandidate(s, id);
      op := Operation(s.nextID + 1, Fence, id, 0);
    }
  }

  /** A calm run that has gone quiet below or at target issued exactly the missing creates. */
  lemma QuietRunIssuedTheDeficit(o: Options, states: seq<State>, events: seq<Event>, now: int)
    requires ValidOptions(o) && IsRun(o, states, events) && CalmRun(states, events)
    requires Valid(states[0]) && TargetsObserved(states[0]) && !states[0].stale
    requires LiveCapacity(states[0]) <= states[0].target
    requires var last := states[|events|];
             !Inventorying(last) && CooledDown(last, now) && forall op :: !Schedulable(last, op, now)
    ensures LiveCapacity(states[|events|]) == states[0].target
    ensures ScheduledCount(events, Create, |events|) == states[0].target - LiveCapacity(states[0])
  {
    var n := |events|;
    ScaleUpCreatesExactly(o, states, events, n);
    CalmRunsAreBounded(o, states, events, n);
    RunKeepsValid(o, states, events, n);
    NothingToScheduleMeansConverged(states[n], now);
  }

  /** A calm run that has gone quiet above or at target fenced exactly the excess that was eligible. */
  lemma QuietRunShedTheExcess(o: Options, states: seq<State>, events: seq<Event>, now: int)
    requires ValidOptions(o) && IsRun(o, states, events) && CalmRun(states, events)
    requires Valid(states[0]) && TargetsObserved(states[0]) && !states[0].stale
    requires LiveCapacity(states[0]) >= states[0].target
    requires var last := states[|events|];
             !Inventorying(last) && CooledDown(last, now) && forall op :: !Schedulable(last, op, now)
    ensures var last := states[|events|];
            && ScheduledCount(events, Fence, |events|) == LiveCapacity(states[0]) - LiveCapacity(last)
            && LiveCapacity(last) >= states[0].target
            && (LiveCapacity(last) > states[0].target ==> forall id :: !IdleCandidate(last, id))
    ensures ScheduledCount(events, Create, |events|) == 0
  {
    var n := |events|;
    ScaleDownFencesExactly(o, states, events, n);
    CalmRunsAreBounded(o, states, events, n);
    RunKeepsValid(o, states, events, n);
    NothingToScheduleMeansConverged(states[n], now);
  }
}
