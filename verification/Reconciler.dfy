/**
 * The reconciler's state as a value and each of its transitions as a function or relation. The class in
 * ReconcileState.dfy is proved to perform exactly these; every run-level theorem is about them.
 */
module Reconciler {
  import opened GoInt
  import opened ControllerTypes
  import opened Backoff

  datatype FailureKey = FailureKey(kind: OperationKind, runnerID: RunnerID)
  datatype Cooldown = Cooldown(delay: Duration, retryAt: int)

  datatype State = State(
    runners: map<RunnerID, Runner>,
    operations: map<nat, Operation>,
    runnerOps: map<RunnerID, nat>,
    failures: map<FailureKey, Cooldown>,
    created: map<RunnerID, nat>,
    busy: set<RunnerID>,
    fenced: set<RunnerID>,
    stale: bool,
    generation: nat,
    target: int,
    nextID: nat)

  // ---- Observations -------------------------------------------------------------------------------

  predicate Inventorying(s: State) {
    exists k | k in s.operations :: s.operations[k].kind.List?
  }

  /** reconcile may schedule mutations only in a settled state. */
  predicate Settled(s: State) {
    !s.stale && !Inventorying(s)
  }

  predicate IsLive(s: State, id: RunnerID) {
    id in s.runners && id !in s.runnerOps && id !in s.fenced && !s.runners[id].state.Terminal?
  }

  function LiveRunners(s: State): set<RunnerID> {
    set id | id in s.runners && IsLive(s, id)
  }

  function CreateOps(s: State): set<nat> {
    set k | k in s.operations && s.operations[k].kind.Create?
  }

  /** Usable capacity plus capacity being created. */
  function LiveCapacity(s: State): nat {
    |LiveRunners(s)| + |CreateOps(s)|
  }

  /** A scale-down candidate the reconciler may fence: idle under the current session's authority. */
  predicate IdleCandidate(s: State, id: RunnerID) {
    && id in s.runners
    && (s.runners[id].state.Idle? || s.runners[id].state.Ready?)
    && id !in s.busy
    && id in s.created && s.created[id] == s.generation
    && id !in s.fenced
    && id !in s.runnerOps
  }

  function KeyFor(op: Operation): FailureKey {
    FailureKey(op.kind, op.runnerID)
  }

  predicate RetryBlocked(s: State, op: Operation, now: int) {
    KeyFor(op) in s.failures && now < s.failures[KeyFor(op)].retryAt
  }

  // ---- Transitions --------------------------------------------------------------------------------

  /** min(max, min + jobs) as 64-bit Go computes it: the sum wraps before it is capped. */
  function BoundedTarget(o: Options, count: int): int {
    Min(o.maxRunners, Wrap(o.minRunners + Max(count, 0)))
  }

  /** The target for a count: min + jobs while that is at most max, then max, as long as the sum fits 64 bits. */
  predicate TargetFor(o: Options, count: int, target: int) {
    && (count < 0 ==> target == o.minRunners)
    && (0 <= count && o.minRunners + count <= o.maxRunners ==> target == o.minRunners + count)
    && (0 <= count && o.maxRunners < o.minRunners + count <= MAX_INT64 ==> target == o.maxRunners)
    && (count <= MAX_INT64 < o.minRunners + count ==> target == o.minRunners + count - 0x1_0000_0000_0000_0000)
  }

  /** What is computed for a count is its target. */
  lemma BoundedIsTargetFor(o: Options, count: int)
    requires ValidOptions(o)
    ensures TargetFor(o, count, BoundedTarget(o, count))
    ensures TargetFor(o, count, BoundedTarget(o, Max(count, 0)))
  {
    var sum := o.minRunners + count;
    if count <= MAX_INT64 < sum {
      assert Wrap(sum) == sum - 0x1_0000_0000_0000_0000;
    }
  }

  function NonEmpty(ids: seq<RunnerID>): set<RunnerID> {
    set id | id in ids && id != ""
  }

  function SetDemand(o: Options, s: State, d: Demand): State {
    s.(generation := d.generation, busy := NonEmpty(d.busyRunners), target := BoundedTarget(o, d.assignedJobs))
  }

  /** What reconcile and refresh require of an operation before they try to schedule it. */
  predicate Wanted(s: State, op: Operation) {
    match op.kind
    case List => s.operations == map[] && op.runnerID == "" && op.generation == 0
    case Create => Settled(s) && LiveCapacity(s) < s.target && op.runnerID == "" && op.generation == s.generation
    case Fence => Settled(s) && LiveCapacity(s) > s.target && IdleCandidate(s, op.runnerID) && op.generation == 0
    case Delete => Settled(s) && op.runnerID in s.runners && s.runners[op.runnerID].state.Terminal? && op.generation == 0
  }

  /** trySchedule reaches the channel: not cooling down and no other operation on the same runner. */
  predicate Attemptable(s: State, op: Operation, now: int) {
    !RetryBlocked(s, op, now) && (op.runnerID != "" ==> op.runnerID !in s.runnerOps)
  }

  function Record(s: State, op: Operation): State {
    s.(nextID := op.id,
       operations := s.operations[op.id := op],
       runnerOps := if op.runnerID != "" then s.runnerOps[op.runnerID := op.id] else s.runnerOps)
  }

  function Release(s: State, op: Operation): State {
    s.(operations := s.operations - {op.id},
       runnerOps := if op.runnerID != "" then s.runnerOps - {op.runnerID} else s.runnerOps)
  }

  function RecordFailure(o: Options, s: State, op: Operation, now: int): State
    requires ValidOptions(o)
  {
    var previous: Duration := if KeyFor(op) in s.failures then s.failures[KeyFor(op)].delay else 0;
    var delay := NextFailureDelay(previous, o.retryInitial, o.retryMaximum);
    s.(failures := s.failures[KeyFor(op) := Cooldown(delay, now + delay as int)], stale := true)
  }

  predicate AllValid(runners: seq<Runner>) {
    forall r | r in runners :: ValidRunner(r)
  }

  /** The inventory as a map; a later entry for the same ID replaces an earlier one. */
  function InventoryOf(runners: seq<Runner>): map<RunnerID, Runner>
  {
    if runners == [] then map[]
    else
      var last := runners[|runners| - 1];
      InventoryOf(runners[..|runners| - 1])[last.id := last]
  }

  predicate Succeeds(op: Operation, r: OperationResult) {
    && !r.failed
    && (op.kind.List? ==> AllValid(r.runners))
    && (op.kind.Create? ==> ValidRunner(r.runner))
  }

  /** The observed-state update of a successful operation. */
  function Observe(s: State, op: Operation, r: OperationResult): State {
    match op.kind
    case List =>
      var inventory := InventoryOf(r.runners);
      s.(runners := inventory,
         created := (map id | id in s.created && id in inventory :: s.created[id]),
         fenced := (set id | id in s.fenced && id in inventory),
         stale := false)
    case Create =>
      s.(runners := s.runners[r.runner.id := r.runner], created := s.created[r.runner.id := op.generation])
    case Fence =>
      s.(fenced := s.fenced + {op.runnerID})
    case Delete =>
      s.(runners := s.runners - {op.runnerID},
         created := s.created - {op.runnerID},
         busy := s.busy - {op.runnerID},
         fenced := s.fenced - {op.runnerID})
  }

  /** apply, for a result whose operation is recorded. */
  function Settle(o: Options, s: State, r: OperationResult, now: int): State
    requires ValidOptions(o)
    requires r.operation.id in s.operations
  {
    var op := s.operations[r.operation.id];
    var released := Release(s, op);
    if Succeeds(op, r) then
      var observed := Observe(released, op, r);
      observed.(failures := observed.failures - {KeyFor(op)})
    else
      RecordFailure(o, released, op, now)
  }

  function InitialState(o: Options, runners: seq<Runner>): State {
    State(InventoryOf(runners), map[], map[], map[], map[], {}, {}, false, 0, o.minRunners, 0)
  }

  // ---- Runs ---------------------------------------------------------------------------------------

  datatype Event =
    | DemandUpdate(demand: Demand)
    | Scheduled(op: Operation, now: int)
    | Refused(op: Operation, now: int)
    | Applied(result: OperationResult, now: int)
    | Stutter

  /** Stutter stands for a step of the workers or of the world that leaves the reconciler alone. */
  predicate Step(o: Options, s: State, e: Event, s': State)
    requires ValidOptions(o)
  {
    match e
    case DemandUpdate(d) => s' == SetDemand(o, s, d)
    case Scheduled(op, now) =>
      Wanted(s, op) && Attemptable(s, op, now) && op.id == s.nextID + 1 && s' == Record(s, op)
    case Refused(op, now) =>
      Wanted(s, op) && Attemptable(s, op, now) && op.id == s.nextID + 1 && s' == s.(nextID := op.id)
    case Applied(r, now) => r.operation.id in s.operations && s' == Settle(o, s, r, now)
    case Stutter => s' == s
  }

  /** states[i] --events[i]--> states[i + 1] for every i. */
  ghost predicate IsRun(o: Options, states: seq<State>, events: seq<Event>)
    requires ValidOptions(o)
  {
    && |states| == |events| + 1
    && forall i | 0 <= i < |events| :: Step(o, states[i], events[i], states[i + 1])
  }

  /** A create that returned the identity of a runner already in the cache would not be fresh. */
  predicate FreshResult(s: State, e: Event) {
    e.Applied? && e.result.operation.id in s.operations
      && s.operations[e.result.operation.id].kind.Create? && Succeeds(s.operations[e.result.operation.id], e.result)
    ==> e.result.runner.id !in s.runners
  }

  ghost predicate FreshRun(states: seq<State>, events: seq<Event>)
    requires |states| == |events| + 1
  {
    forall i | 0 <= i < |events| :: FreshResult(states[i], events[i])
  }

  // ---- Structural invariant -----------------------------------------------------------------------

  ghost predicate InventoryValid(runners: map<RunnerID, Runner>) {
    forall id | id in runners :: id != "" && runners[id].id == id && ValidRunner(runners[id])
  }

  ghost predicate OperationsNumbered(s: State) {
    forall k | k in s.operations :: s.operations[k].id == k && k <= s.nextID
  }

  predicate TargetsRunner(kind: OperationKind) {
    kind.Fence? || kind.Delete?
  }

  /** Every runner-targeted operation holds its runner's lock. */
  ghost predicate TargetsLocked(s: State) {
    forall k | k in s.operations ::
      && (TargetsRunner(s.operations[k].kind) <==> s.operations[k].runnerID != "")
      && (s.operations[k].runnerID != "" ==>
            s.operations[k].runnerID in s.runnerOps && s.runnerOps[s.operations[k].runnerID] == k)
  }

  /** Every lock is held by an operation on that runner, and the runner is in the cache. */
  ghost predicate LocksHeld(s: State) {
    forall id | id in s.runnerOps ::
      && id in s.runners
      && s.runnerOps[id] in s.operations
      && s.operations[s.runnerOps[id]].runnerID == id
  }

  /** A list in flight is the only operation in flight. */
  ghost predicate ListExclusive(s: State) {
    forall k | k in s.operations && s.operations[k].kind.List? :: s.operations.Keys == {k}
  }

  ghost predicate KnowledgeNested(s: State) {
    && s.fenced <= s.created.Keys <= s.runners.Keys
    && forall k | k in s.operations && s.operations[k].kind.Fence? ::
         s.operations[k].runnerID in s.created && s.operations[k].runnerID !in s.fenced
  }

  /** The part of the invariant that holds whatever the backend returns. */
  ghost predicate Valid(s: State) {
    && InventoryValid(s.runners)
    && OperationsNumbered(s)
    && TargetsLocked(s)
    && LocksHeld(s)
    && ListExclusive(s)
    && KnowledgeNested(s)
  }

  /** The part that also needs fresh create identities: what is being torn down was last seen that way. */
  ghost predicate TargetsObserved(s: State) {
    forall k | k in s.operations && s.operations[k].runnerID in s.runners ::
      && (s.operations[k].kind.Delete? ==> s.runners[s.operations[k].runnerID].state.Terminal?)
      && (s.operations[k].kind.Fence? ==>
            s.runners[s.operations[k].runnerID].state.Idle? || s.runners[s.operations[k].runnerID].state.Ready?)
  }
}
