/**
 * The concurrent system gets there: while operations succeed and nothing new is asked, it is never stuck short of
 * convergence, and every move it makes brings it closer.
 */
module Liveness {
  import opened ControllerTypes
  import opened Reconciler
  import opened Convergence
  import opened Host
  import opened MainLoop
  import opened Pool
  import opened Traces

  /** A success that brings no news: a created runner is not terminal, and a list shows what is cached. */
  predicate CalmResult(s: State, r: OperationResult) {
    && Succeeds(r.operation, r)
    && (r.operation.kind.Create? ==> !r.runner.state.Terminal?)
    && (r.operation.kind.List? ==> InventoryOf(r.runners) == s.runners)
  }

  /** Open, not stale, nothing cooling down at now, and every result on its way back is calm. */
  ghost predicate Promising(o: Options, y: System, now: int) {
    && SystemValid(o, y) && !y.closed && !y.world.state.stale && CooledDown(y.world.state, now)
    && forall k | k in y.world.returned :: CalmResult(y.world.state, y.world.returned[k])
  }

  /** Without demand, shutdown, refreshes and failures. */
  predicate CalmMove(y: System, e: SystemEvent) {
    match e
    case TakeDemand(_) => false
    case Shutdown => false
    case Handoff(_, op, _) => !op.kind.List?
    case Finish(_, r) => CalmResult(y.world.state, r)
    case _ => true
  }

  /** Refusals, idling and deleting what is gone already achieve nothing; every other step does. */
  predicate Achieves(y: System, e: SystemEvent) {
    match e
    case Refuse(_, _) => false
    case Idle => false
    case Remove(i) => i < |y.slots| && y.slots[i].Executing? && y.slots[i].op.runnerID in y.world.vms
    case _ => true
  }

  // ---- A measure of the whole system ----------------------------------------------------------------

  /** The moves one worker still owes before it waits at the channel again, and one for the result it will leave. */
  function Load(slot: Slot, made: set<nat>, vms: set<RunnerID>): nat {
    match slot
    case Executing(op) =>
      if (op.kind.Create? && op.id !in made) || (op.kind.Delete? && op.runnerID in vms) then 5 else 4
    case Sending(_) => 3
    case Arriving => 1
    case _ => 0
  }

  function Loads(slots: seq<Slot>, made: set<nat>, vms: set<RunnerID>): nat {
    if slots == [] then 0 else Load(slots[0], made, vms) + Loads(slots[1..], made, vms)
  }

  /** What workers and buffer still owe for the operations in flight. */
  function Chores(y: System): nat {
    Loads(y.slots, y.world.made.Keys, y.world.vms) + |y.buffer|
  }

  function SystemMeasure(y: System): nat {
    6 * Measure(y.world.state) + Chores(y)
  }

  lemma {:induction false} LoadUpdate(slots: seq<Slot>, i: nat, slot: Slot, made: set<nat>, vms: set<RunnerID>)
    requires i < |slots|
    ensures Loads(slots[i := slot], made, vms) + Load(slots[i], made, vms)
            == Loads(slots, made, vms) + Load(slot, made, vms)
  {
    if i == 0 {
      assert slots[i := slot][1..] == slots[1..];
    } else {
      LoadUpdate(slots[1..], i - 1, slot, made, vms);
      assert slots[i := slot][1..] == slots[1..][i - 1 := slot];
    }
  }

  /** When no worker's load grows, neither does their sum; when one shrinks, so does the sum. */
  lemma {:induction false} LoadsShrink(
    slots: seq<Slot>, made: set<nat>, vms: set<RunnerID>, made': set<nat>, vms': set<RunnerID>)
    requires forall k | 0 <= k < |slots| :: Load(slots[k], made', vms') <= Load(slots[k], made, vms)
    ensures Loads(slots, made', vms') <= Loads(slots, made, vms)
    ensures (exists k | 0 <= k < |slots| :: Load(slots[k], made', vms') < Load(slots[k], made, vms)) ==>
              Loads(slots, made', vms') < Loads(slots, made, vms)
  {
    hide Load;
    if slots != [] {
      assert forall k | 0 <= k < |slots[1..]| :: slots[1..][k] == slots[k + 1];
      LoadsShrink(slots[1..], made, vms, made', vms');
      if k :| 0 < k < |slots| && Load(slots[k], made', vms') < Load(slots[k], made, vms) {
        assert slots[1..][k - 1] == slots[k];
      }
    }
  }

  // ---- Every calm move ------------------------------------------------------------------------------

  /** The reconciler's side of a move: its own measure never grows, and what it cools or calls stale is unchanged. */
  lemma ControlStep(o: Options, w: World, e: WorldEvent, w': World, now: int)
    requires ValidOptions(o) && WorldValid(w) && WorldStep(o, w, e, w') && e.Control?
    requires Calm(w.state, e.event) && !w.state.stale && CooledDown(w.state, now)
    ensures Measure(w'.state) == Measure(w.state) - (if Progress(w.state, e.event) then 1 else 0)
    ensures !w'.state.stale && CooledDown(w'.state, now)
  {
    hide Measure, Progress;
    WorldCreatesAreFresh(o, w, e, w');
    CalmStep(o, w.state, e.event, w'.state);
    FailuresShrink(o, w.state, e.event, w'.state);
  }

  lemma FailuresShrink(o: Options, s: State, e: Event, s': State)
    requires ValidOptions(o) && Step(o, s, e, s') && Calm(s, e)
    ensures forall key | key in s'.failures :: key in s.failures && s'.failures[key] == s.failures[key]
  {
    hide Wanted, Attemptable, InventoryOf, AllValid, Settle;
    if e.Applied? {
      SettleShrinksFailures(o, s, e.result, e.now);
    }
  }

  lemma SettleShrinksFailures(o: Options, s: State, r: OperationResult, now: int)
    requires ValidOptions(o) && r.operation.id in s.operations && Succeeds(s.operations[r.operation.id], r)
    ensures var s' := Settle(o, s, r, now);
            forall key | key in s'.failures :: key in s.failures && s'.failures[key] == s.failures[key]
  {
    hide InventoryOf, AllValid, RecordFailure;
    var op := s.operations[r.operation.id];
    assert Reconciler.Observe(Release(s, op), op, r).failures == s.failures;
  }

  lemma RunnersKept(o: Options, s: State, e: Event, s': State)
    requires ValidOptions(o) && Step(o, s, e, s') && !e.Applied?
    ensures s'.runners == s.runners
  {
    hide Wanted, Attemptable, Settle;
  }

  lemma HandoffMove(o: Options, y: System, i: nat, op: Operation, t: int, y': System, now: int)
    requires ValidOptions(o) && Promising(o, y, now) && SystemStep(o, y, Handoff(i, op, t), y') && !op.kind.List?
    ensures SystemMeasure(y') < SystemMeasure(y) && Promising(o, y', now)
    ensures Measure(y'.world.state) == Measure(y.world.state) - 1 && Chores(y') <= Chores(y) + 5
  {
    hide Step, Wanted, Measure, WorldStep, WorldValid, HeldOnce, Agree, Loads, Progress, CalmResult, CooledDown;
    SystemStepKeepsValid(o, y, Handoff(i, op, t), y');
    SystemRefinesWorld(o, y, Handoff(i, op, t), y');
    assert Control(Scheduled(op, t)) == Projected(y, Handoff(i, op, t));
    ControlStep(o, y.world, Control(Scheduled(op, t)), y'.world, now);
    Scheduling(y.world.state, op, t);
    LoadUpdate(y.slots, i, Executing(op), y.world.made.Keys, y.world.vms);
    RunnersKept(o, y.world.state, Scheduled(op, t), y'.world.state);
    SameCalm(y, y');
  }

  lemma Scheduling(s: State, op: Operation, t: int)
    requires !op.kind.List?
    ensures Progress(s, Scheduled(op, t)) && Calm(s, Scheduled(op, t))
  {
  }

  /** Results stay calm while the cached runners stay. */
  lemma SameCalm(y: System, y': System)
    requires y'.world.state.runners == y.world.state.runners
    requires forall k | k in y.world.returned :: CalmResult(y.world.state, y.world.returned[k])
    requires forall k | k in y'.world.returned :: k in y.world.returned && y'.world.returned[k] == y.world.returned[k]
    ensures forall k | k in y'.world.returned :: CalmResult(y'.world.state, y'.world.returned[k])
  {
    hide InventoryOf, Succeeds;
  }

  lemma RefuseMove(o: Options, y: System, op: Operation, t: int, y': System, now: int)
    requires ValidOptions(o) && Promising(o, y, now) && SystemStep(o, y, Refuse(op, t), y')
    ensures SystemMeasure(y') == SystemMeasure(y) && Promising(o, y', now)
    ensures Measure(y'.world.state) == Measure(y.world.state) && Chores(y') == Chores(y)
  {
    hide Wanted, Measure, WorldStep, WorldValid, HeldOnce, Agree, Loads, CalmResult, CooledDown;
    SystemStepKeepsValid(o, y, Refuse(op, t), y');
    SystemRefinesWorld(o, y, Refuse(op, t), y');
    assert Control(Refused(op, t)) == Projected(y, Refuse(op, t));
    ControlStep(o, y.world, Control(Refused(op, t)), y'.world, now);
    SameCalm(y, y');
  }

  lemma MakeMove(o: Options, y: System, i: nat, name: RunnerID, y': System, now: int)
    requires ValidOptions(o) && Promising(o, y, now) && SystemStep(o, y, Make(i, name), y')
    ensures SystemMeasure(y') < SystemMeasure(y) && Promising(o, y', now)
  {
    hide Measure, WorldStep, WorldValid, HeldOnce, Loads, CalmResult, CooledDown;
    SystemStepKeepsValid(o, y, Make(i, name), y');
    var w, w' := y.world, y'.world;
    forall k | 0 <= k < |y.slots|
      ensures Load(y.slots[k], w'.made.Keys, w'.vms) <= Load(y.slots[k], w.made.Keys, w.vms)
    {
      if y.slots[k].Executing? && y.slots[k].op.kind.Delete? {
        TargetUsed(w, y.slots[k].op.id);
      }
    }
    assert Load(y.slots[i], w'.made.Keys, w'.vms) < Load(y.slots[i], w.made.Keys, w.vms);
    LoadsShrink(y.slots, w.made.Keys, w.vms, w'.made.Keys, w'.vms);
    SameCalm(y, y');
  }

  lemma TargetUsed(w: World, id: nat)
    requires WorldValid(w) && id in w.state.operations && w.state.operations[id].kind.Delete?
    ensures w.state.operations[id].runnerID in w.used
  {
    assert w.state.operations[id].runnerID in w.state.runnerOps;
  }

  lemma RemoveMove(o: Options, y: System, i: nat, y': System, now: int)
    requires ValidOptions(o) && Promising(o, y, now) && SystemStep(o, y, Remove(i), y')
    ensures SystemMeasure(y') <= SystemMeasure(y) - (if Achieves(y, Remove(i)) then 1 else 0) && Promising(o, y', now)
  {
    hide Measure, WorldStep, WorldValid, HeldOnce, Agree, Loads, CalmResult, CooledDown;
    SystemStepKeepsValid(o, y, Remove(i), y');
    var w, w' := y.world, y'.world;
    assert forall k | 0 <= k < |y.slots| ::
        Load(y.slots[k], w'.made.Keys, w'.vms) <= Load(y.slots[k], w.made.Keys, w.vms);
    assert Achieves(y, Remove(i)) ==> Load(y.slots[i], w'.made.Keys, w'.vms) < Load(y.slots[i], w.made.Keys, w.vms);
    LoadsShrink(y.slots, w.made.Keys, w.vms, w'.made.Keys, w'.vms);
    SameCalm(y, y');
  }

  /** A worker's own moves: arriving, returning and enqueueing. */
  lemma WorkerMove(o: Options, y: System, e: SystemEvent, y': System, now: int)
    requires ValidOptions(o) && Promising(o, y, now) && SystemStep(o, y, e, y') && CalmMove(y, e)
    requires e.Arrive? || e.Finish? || e.Enqueue?
    ensures SystemMeasure(y') < SystemMeasure(y) && Promising(o, y', now)
  {
    hide Measure, WorldStep, WorldValid, HeldOnce, Agree, Loads, CalmResult, CooledDown, Truthful;
    SystemStepKeepsValid(o, y, e, y');
    var made, vms := y.world.made.Keys, y.world.vms;
    match e
    case Arrive(i) =>
      LoadUpdate(y.slots, i, Waiting, made, vms);
    case Finish(i, r) =>
      LoadUpdate(y.slots, i, Sending(r), made, vms);
    case Enqueue(i) =>
      LoadUpdate(y.slots, i, Arriving, made, vms);
  }

  /** Reading a result. */
  lemma TakeMove(o: Options, y: System, t: int, y': System, now: int)
    requires ValidOptions(o) && Promising(o, y, now) && SystemStep(o, y, TakeResult(t), y')
    ensures SystemMeasure(y') < SystemMeasure(y) && Promising(o, y', now)
    ensures y.buffer[0].operation.id in y.world.state.operations && Chores(y') < Chores(y)
    ensures Measure(y'.world.state) ==
              Measure(y.world.state) - (if Progress(y.world.state, Applied(y.buffer[0], t)) then 1 else 0)
  {
    hide Measure, WorldStep, Loads, Settle, CooledDown, Progress, SystemStep, HeldOnce, Agree, WorldValid;
    SystemStepKeepsValid(o, y, TakeResult(t), y');
    SystemRefinesWorld(o, y, TakeResult(t), y');
    TakeShape(o, y, t, y');
    var r := y.buffer[0];
    ReturnedIsCalm(o, y, t, now);
    ControlStep(o, y.world, Control(Applied(r, t)), y'.world, now);
    OthersUntouched(o, y);
    LoadsShrink(y.slots, y.world.made.Keys, y.world.vms, y'.world.made.Keys, y'.world.vms);
    OthersStayCalm(o, y, t, y', now);
  }

  lemma TakeShape(o: Options, y: System, t: int, y': System)
    requires ValidOptions(o) && SystemStep(o, y, TakeResult(t), y')
    ensures y.buffer != [] && y'.slots == y.slots && |y'.buffer| == |y.buffer| - 1 && y'.closed == y.closed
    ensures y'.world.vms == y.world.vms && y'.world.made == y.world.made - {y.buffer[0].operation.id}
    ensures y'.world.returned == y.world.returned - {y.buffer[0].operation.id}
    ensures Projected(y, TakeResult(t)) == Control(Applied(y.buffer[0], t))
  {
    hide Apply;
  }

  /** What is in the buffer is recorded, and calm. */
  lemma ReturnedIsCalm(o: Options, y: System, t: int, now: int)
    requires Promising(o, y, now) && y.buffer != []
    ensures var r := y.buffer[0];
            && r.operation.id in y.world.state.operations && y.world.state.operations[r.operation.id] == r.operation
            && Calm(y.world.state, Applied(r, t))
  {
    hide HeldOnce, InventoryOf, Succeeds;
    ReturnedAreRecorded(y.world);
    assert y.buffer[0].operation.id in y.world.returned;
  }

  /** No other worker's load depends on the operation at the head of the buffer. */
  lemma OthersUntouched(o: Options, y: System)
    requires SystemValid(o, y) && y.buffer != []
    ensures var id := y.buffer[0].operation.id;
            forall k | 0 <= k < |y.slots| ::
              Load(y.slots[k], y.world.made.Keys - {id}, y.world.vms) == Load(y.slots[k], y.world.made.Keys, y.world.vms)
    ensures (y.world.made - {y.buffer[0].operation.id}).Keys == y.world.made.Keys - {y.buffer[0].operation.id}
  {
    hide HeldOnce, Agree, WorldValid;
    HeadHeldOnce(y.slots, y.buffer, y.world.state.operations.Keys);
    var id := y.buffer[0].operation.id;
    forall k | 0 <= k < |y.slots|
      ensures Load(y.slots[k], y.world.made.Keys - {id}, y.world.vms) == Load(y.slots[k], y.world.made.Keys, y.world.vms)
    {
      assert SlotID(y.slots[k])[id] == 0;
    }
  }

  /** Beside another operation there is no list, so a change of the cache spoils no result. */
  lemma OthersStayCalm(o: Options, y: System, t: int, y': System, now: int)
    requires ValidOptions(o) && Promising(o, y, now) && SystemStep(o, y, TakeResult(t), y')
    ensures forall k | k in y'.world.returned :: CalmResult(y'.world.state, y'.world.returned[k])
  {
    hide HeldOnce, Settle, Succeeds, InventoryOf, Truthful, SystemStep;
    TakeShape(o, y, t, y');
    ReturnedIsCalm(o, y, t, now);
    ReturnedAreRecorded(y.world);
    var id := y.buffer[0].operation.id;
    forall k | k in y'.world.returned ensures CalmResult(y'.world.state, y'.world.returned[k]) {
      NoListBesideAnother(y.world.state, k, id);
      assert CalmResult(y.world.state, y.world.returned[k]);
    }
  }

  lemma NoListBesideAnother(s: State, k: nat, id: nat)
    requires Reconciler.Valid(s) && k in s.operations && id in s.operations && k != id
    ensures !s.operations[k].kind.List?
  {
    assert s.operations[k].kind.List? ==> s.operations.Keys == {k};
  }

  /**
   * Without new demand, refreshes and failures, every step of the concurrent system that achieves anything lowers
   * the measure and no step raises it.
   */
  lemma CalmMoveApproaches(o: Options, y: System, e: SystemEvent, y': System, now: int)
    requires ValidOptions(o) && Promising(o, y, now) && SystemStep(o, y, e, y') && CalmMove(y, e)
    ensures SystemMeasure(y') <= SystemMeasure(y) - (if Achieves(y, e) then 1 else 0)
    ensures Promising(o, y', now)
  {
    hide SystemMeasure, Step, Settle, CalmResult, Apply, Truthful;
    match e
    case Handoff(i, op, t) => HandoffMove(o, y, i, op, t, y', now);
    case Refuse(op, t) => RefuseMove(o, y, op, t, y', now);
    case Make(i, name) => MakeMove(o, y, i, name, y', now);
    case Remove(i) => RemoveMove(o, y, i, y', now);
    case TakeResult(t) => TakeMove(o, y, t, y', now);
    case Idle =>
    case Exit(_) =>
    case Arrive(_) => WorkerMove(o, y, e, y', now);
    case Finish(_, _) => WorkerMove(o, y, e, y', now);
    case Enqueue(_) => WorkerMove(o, y, e, y', now);
  }

  // ---- What the operations in flight can do ----------------------------------------------------------

  function Name(n: nat): (s: string)
    ensures |s| == n
  {
    if n == 0 then "" else Name(n - 1) + "a"
  }

  lemma {:induction false} Longer(used: set<string>) returns (n: nat)
    ensures n > 0 && forall name | name in used :: |name| < n
  {
    if used == {} {
      n := 1;
    } else {
      var name :| name in used;
      n := Longer(used - {name});
      n := if |name| >= n then |name| + 1 else n;
    }
  }

  /** A cache can be listed. */
  lemma {:induction false} Listing(runners: map<RunnerID, Runner>) returns (list: seq<Runner>)
    requires InventoryValid(runners)
    ensures InventoryOf(list) == runners && AllValid(list)
    decreases |runners|
  {
    if runners == map[] {
      list := [];
    } else {
      var id :| id in runners;
      var rest := runners - {id};
      assert rest.Keys == runners.Keys - {id};
      var before := Listing(rest);
      list := before + [runners[id]];
      assert list[..|list| - 1] == before;
      assert rest[id := runners[id]] == runners;
    }
  }

  /** A list alone in flight finds cache and world agreeing. */
  lemma ListedCacheIsTrue(w: World, id: nat)
    requires WorldValid(w) && !w.state.stale && id in w.state.operations && w.state.operations[id].kind.List?
    ensures w.state.runners.Keys == w.vms
  {
    assert w.state.operations.Keys == {id};
    assert w.made.Keys == {};
    assert w.made.Values == {};
    assert DeleteTargets(w.state) == {};
  }

  /** Once its effect has happened, an operation can return calmly. */
  lemma CalmAnswer(o: Options, y: System, i: nat, now: int) returns (r: OperationResult)
    requires Promising(o, y, now) && i < |y.slots| && y.slots[i].Executing?
    requires Load(y.slots[i], y.world.made.Keys, y.world.vms) == 4
    ensures r.operation == y.slots[i].op && Truthful(y.world, r.operation, r) && CalmResult(y.world.state, r)
  {
    hide HeldOnce, CooledDown;
    var op, w := y.slots[i].op, y.world;
    match op.kind
    case List =>
      ListedCacheIsTrue(w, op.id);
      var list := Listing(w.state.runners);
      r := OperationResult(op, list, Runner("", Ready), false);
    case Create =>
      r := OperationResult(op, [], Runner(w.made[op.id], Ready), false);
    case Fence =>
      r := OperationResult(op, [], Runner("", Ready), false);
    case Delete =>
      r := OperationResult(op, [], Runner("", Ready), false);
  }

  lemma NextOfExecuting(o: Options, y: System, i: nat, now: int) returns (e: SystemEvent, y': System)
    requires ValidOptions(o) && Promising(o, y, now) && i < |y.slots| && y.slots[i].Executing?
    ensures SystemStep(o, y, e, y') && CalmMove(y, e) && Achieves(y, e) && IsBackground(e)
  {
    hide SystemValid, CooledDown, CalmResult, Truthful;
    var op, w := y.slots[i].op, y.world;
    if op.kind.Create? && op.id !in w.made {
      var n := Longer(w.used);
      var name := Name(n);
      e := Make(i, name);
      y' := y.(world := w.(vms := w.vms + {name}, used := w.used + {name}, made := w.made[op.id := name]));
    } else if op.kind.Delete? && op.runnerID in w.vms {
      e := Remove(i);
      y' := y.(world := w.(vms := w.vms - {op.runnerID}));
    } else {
      var r := CalmAnswer(o, y, i, now);
      e := Finish(i, r);
      y' := y.(world := w.(returned := w.returned[op.id := r]), slots := y.slots[i := Sending(r)]);
    }
  }

  // ---- Whole executions -----------------------------------------------------------------------------

  ghost predicate CalmExecution(systems: seq<System>, events: seq<SystemEvent>)
    requires |systems| == |events| + 1
  {
    forall i | 0 <= i < |events| :: CalmMove(systems[i], events[i])
  }

  ghost function Achievements(systems: seq<System>, events: seq<SystemEvent>, n: nat): nat
    requires n < |systems| == |events| + 1
  {
    if n == 0 then 0
    else Achievements(systems, events, n - 1) + (if Achieves(systems[n - 1], events[n - 1]) then 1 else 0)
  }

  /** A calm execution of any interleaving achieves at most SystemMeasure(start) moves. */
  lemma {:induction false} CalmExecutionsAreBounded(
    o: Options, systems: seq<System>, events: seq<SystemEvent>, n: nat, now: int)
    requires ValidOptions(o) && IsSystemRun(o, systems, events) && CalmExecution(systems, events)
    requires Promising(o, systems[0], now) && n < |systems|
    ensures Achievements(systems, events, n) + SystemMeasure(systems[n]) <= SystemMeasure(systems[0])
    ensures Promising(o, systems[n], now)
  {
    hide SystemStep, SystemMeasure, Promising, Achieves, CalmMove;
    if n > 0 {
      CalmExecutionsAreBounded(o, systems, events, n - 1, now);
      CalmMoveApproaches(o, systems[n - 1], events[n - 1], systems[n], now);
    }
  }

  // ---- The main loop gets there ---------------------------------------------------------------------

  ghost predicate LoopPromising(o: Options, l: Looping, now: int) {
    LoopValid(o, l) && Promising(o, l.system, now)
  }

  /** Back in its select with nothing in flight, and converged. */
  ghost predicate AtRest(l: Looping) {
    l.position.Selecting? && Converged(l.system.world.state) && l.system.world.state.operations == map[]
  }

  /** No demand and no shutdown, and operations succeed without news; refreshes are allowed. */
  predicate CalmLoopMove(l: Looping, e: LoopEvent) {
    && !e.ReceiveDemand? && !e.Stop?
    && (e.Background? ==> CalmMove(l.system, e.event))
  }

  /** With nothing in flight and work left, the loop is where it will hand something off before it selects again. */
  ghost predicate Due(l: Looping) {
    var s := l.system.world.state;
    && s.operations == map[] && !Converged(s)
    && match l.position
       case Selecting => false
       case Refreshing => true
       case Deleting(pending) => UnscheduledTerminals(s) <= pending
       case Creating => UnscheduledTerminals(s) == {}
       case Fencing => UnscheduledTerminals(s) == {} && LiveCapacity(s) > s.target
  }

  /** What a coming refresh will cost, where one is still needed to start the next pass. */
  ghost function Credit(l: Looping, r: nat): nat {
    var s := l.system.world.state;
    if Inventorying(s) || Due(l) || (Converged(s) && s.operations == map[]) then 0 else r + 20
  }

  function PositionWeight(p: Position, r: nat): nat {
    match p
    case Selecting => 0
    case Fencing => 1
    case Creating => 2
    case Deleting(pending) => 3 + |pending|
    case Refreshing => r + 12
  }

  function ListWeight(s: State, r: nat): nat {
    if Inventorying(s) then r + 6 else 0
  }

  ghost function Rank(l: Looping, r: nat): nat {
    Chores(l.system) + PositionWeight(l.position, r) + ListWeight(l.system.world.state, r) + Credit(l, r)
  }

  /** A bound on the moves from l to rest, for a cache that never holds more than r runners. */
  ghost function LoopMeasure(l: Looping, r: nat): nat {
    (2 * r + 30) * Measure(l.system.world.state) + Rank(l, r)
  }

  /** Runners cached and runners that may still be created. */
  ghost predicate Roomy(l: Looping, r: nat) {
    |l.system.world.state.runners| + Measure(l.system.world.state) <= r
  }

  /** What a move must achieve. */
  ghost predicate Better(o: Options, l: Looping, l': Looping, r: nat, now: int) {
    LoopPromising(o, l', now) && Roomy(l', r) && LoopMeasure(l', r) < LoopMeasure(l, r)
  }

  lemma SameLevel(o: Options, l: Looping, l': Looping, r: nat, now: int)
    requires LoopPromising(o, l', now) && Roomy(l', r) && Rank(l', r) < Rank(l, r)
    requires Measure(l'.system.world.state) == Measure(l.system.world.state)
    ensures Better(o, l, l', r, now)
  {
    hide Rank, Measure, LoopPromising;
  }

  lemma NextLevel(o: Options, l: Looping, l': Looping, r: nat, now: int)
    requires LoopPromising(o, l', now) && Roomy(l', r) && Rank(l', r) < Rank(l, r) + 2 * r + 30
    requires Measure(l'.system.world.state) == Measure(l.system.world.state) - 1
    ensures Better(o, l, l', r, now)
  {
    hide Rank, Measure, LoopPromising;
    var m := Measure(l.system.world.state);
    assert (2 * r + 30) * m == (2 * r + 30) * (m - 1) + (2 * r + 30);
  }

  /** A worker's move, wherever the loop stands. */
  lemma BackgroundMove(o: Options, l: Looping, e: SystemEvent, l': Looping, r: nat, now: int)
    requires ValidOptions(o) && LoopPromising(o, l, now) && Roomy(l, r) && LoopStep(o, l, Background(e), l')
    requires CalmMove(l.system, e) && Achieves(l.system, e)
    ensures Better(o, l, l', r, now)
  {
    hide Promising, LoopValid, SystemStep, CalmMove, Achieves, Chores, Measure, Converged, PositionWeight;
    LoopStepKeepsValid(o, l, Background(e), l');
    CalmMoveApproaches(o, l.system, e, l'.system, now);
    BackgroundKeepsState(o, l.system, e, l'.system);
    assert Due(l') == Due(l);
    SameLevel(o, l, l', r, now);
  }

  /** The loop moves on without touching the system. */
  lemma InnerMove(o: Options, l: Looping, e: LoopEvent, l': Looping, r: nat, now: int)
    requires ValidOptions(o) && LoopPromising(o, l, now) && Roomy(l, r) && LoopStep(o, l, e, l')
    requires e.Blocked? || e.Skip? || e.NextPhase?
    requires e.Blocked? ==> l.position.Deleting? && l.system.world.state.operations != map[]
    ensures Better(o, l, l', r, now)
  {
    hide Promising, LoopValid, Chores, Measure, Converged, Due, PositionWeight, Wanted, Attemptable;
    LoopStepKeepsValid(o, l, e, l');
    assert l'.system == l.system;
    InnerKeepsDue(o, l, e, l', r, now);
    InnerWeight(o, l, e, l', r);
    SameLevel(o, l, l', r, now);
  }

  lemma InnerWeight(o: Options, l: Looping, e: LoopEvent, l': Looping, r: nat)
    requires ValidOptions(o) && LoopStep(o, l, e, l') && Roomy(l, r)
    requires e.Blocked? || e.Skip? || e.NextPhase?
    requires e.Blocked? ==> l.position.Deleting?
    ensures PositionWeight(l'.position, r) < PositionWeight(l.position, r)
  {
    hide Measure, Wanted, Attemptable, NoCandidate, SystemStep, LiveCapacity, Entry;
    var s := l.system.world.state;
    assert |s.runners.Keys| == |s.runners| <= r;
    EntryWeight(s, r);
    match l.position
    case Selecting =>
    case Refreshing =>
    case Deleting(pending) =>
      if !e.NextPhase? {
        var id := if e.Skip? then e.id else e.op.runnerID;
        assert |pending - {id}| == |pending| - 1;
      }
    case Creating =>
    case Fencing =>
  }

  lemma EntryWeight(s: State, r: nat)
    requires |s.runners| <= r
    ensures PositionWeight(Entry(s), r) <= r + 3
  {
    hide Settled;
    assert |s.runners.Keys| == |s.runners|;
  }

  lemma InnerKeepsDue(o: Options, l: Looping, e: LoopEvent, l': Looping, r: nat, now: int)
    requires ValidOptions(o) && LoopPromising(o, l, now) && LoopStep(o, l, e, l')
    requires e.Blocked? || e.Skip? || e.NextPhase?
    requires e.Blocked? ==> l.system.world.state.operations != map[]
    ensures Credit(l', r) <= Credit(l, r)
  {
    hide Promising, LoopValid, Wanted, Attemptable, LiveCapacity;
    var s := l.system.world.state;
    assert l'.system == l.system;
    if Due(l) {
      if e.NextPhase? && l.position.Deleting? {
        assert UnscheduledTerminals(s) == {};
      }
      assert (forall id | id in s.runners :: !IdleCandidate(s, id)) <==> (forall id :: !IdleCandidate(s, id));
      assert Due(l');
    }
  }

  /** The loop ticks: a refresh is under way. */
  lemma TickMove(o: Options, l: Looping, l': Looping, r: nat, now: int)
    requires ValidOptions(o) && LoopPromising(o, l, now) && Roomy(l, r) && LoopStep(o, l, Tick, l')
    requires l.system.world.state.operations == map[] && !Converged(l.system.world.state)
    ensures Better(o, l, l', r, now)
  {
    hide Promising, LoopValid, Chores, Measure, Converged;
    LoopStepKeepsValid(o, l, Tick, l');
    assert Due(l') && !Due(l);
    SameLevel(o, l, l', r, now);
  }

  /** A refresh hands off its list. */
  lemma ListMove(o: Options, l: Looping, i: nat, op: Operation, t: int, l': Looping, r: nat, now: int)
    requires ValidOptions(o) && LoopPromising(o, l, now) && Roomy(l, r) && LoopStep(o, l, Attempt(Handoff(i, op, t)), l')
    requires op.kind.List? && l.position.Refreshing?
    ensures Better(o, l, l', r, now)
  {
    hide Measure, HeldOnce, Agree, Loads, CooledDown, LoopStep, LoopValid, Converged, WorldValid;
    LoopStepKeepsValid(o, l, Attempt(Handoff(i, op, t)), l');
    ListHandedOff(o, l, i, op, t, l');
    ListKeepsPromise(o, l.system, i, op, t, l'.system, now);
    SameLevel(o, l, l', r, now);
  }

  lemma ListHandedOff(o: Options, l: Looping, i: nat, op: Operation, t: int, l': Looping)
    requires ValidOptions(o) && LoopStep(o, l, Attempt(Handoff(i, op, t)), l') && op.kind.List? && l.position.Refreshing?
    ensures SystemStep(o, l.system, Handoff(i, op, t), l'.system)
    ensures var s, s' := l.system.world.state, l'.system.world.state;
            && s.operations == map[] && Inventorying(s') && l'.position.Selecting? && s'.runners == s.runners
    ensures !Inventorying(l.system.world.state)
  {
    hide Attemptable, Converged, Due;
    assert op.id in l'.system.world.state.operations;
  }

  lemma ListKeepsPromise(o: Options, y: System, i: nat, op: Operation, t: int, y': System, now: int)
    requires ValidOptions(o) && Promising(o, y, now) && SystemStep(o, y, Handoff(i, op, t), y') && op.kind.List?
    requires y.world.state.operations == map[]
    ensures Promising(o, y', now) && Measure(y'.world.state) == Measure(y.world.state) && Chores(y') == Chores(y) + 4
  {
    hide Step, Wanted, Measure, WorldStep, HeldOnce, Agree, Loads, CooledDown, CalmResult;
    SystemStepKeepsValid(o, y, Handoff(i, op, t), y');
    SystemRefinesWorld(o, y, Handoff(i, op, t), y');
    assert Control(Scheduled(op, t)) == Projected(y, Handoff(i, op, t));
    ControlStep(o, y.world, Control(Scheduled(op, t)), y'.world, now);
    LoadUpdate(y.slots, i, Executing(op), y.world.made.Keys, y.world.vms);
    ReturnedAreRecorded(y.world);
    assert y'.world.returned == map[];
  }

  /** A pass hands off a mutation. */
  lemma MutationMove(o: Options, l: Looping, i: nat, op: Operation, t: int, l': Looping, r: nat, now: int)
    requires ValidOptions(o) && LoopPromising(o, l, now) && Roomy(l, r) && LoopStep(o, l, Attempt(Handoff(i, op, t)), l')
    requires !op.kind.List?
    ensures Better(o, l, l', r, now)
  {
    hide Promising, LoopValid, LoopStep, SystemStep, Chores, Measure, Converged, Due, LiveCapacity;
    LoopStepKeepsValid(o, l, Attempt(Handoff(i, op, t)), l');
    MutationShape(o, l, i, op, t, l', r);
    HandoffMove(o, l.system, i, op, t, l'.system, now);
    NextLevel(o, l, l', r, now);
  }

  lemma MutationShape(o: Options, l: Looping, i: nat, op: Operation, t: int, l': Looping, r: nat)
    requires ValidOptions(o) && LoopStep(o, l, Attempt(Handoff(i, op, t)), l') && !op.kind.List?
    ensures SystemStep(o, l.system, Handoff(i, op, t), l'.system)
    ensures PositionWeight(l'.position, r) <= PositionWeight(l.position, r)
    ensures ListWeight(l'.system.world.state, r) == 0
    ensures l'.system.world.state.runners == l.system.world.state.runners
  {
    hide Attemptable, LiveCapacity;
    var s, s' := l.system.world.state, l'.system.world.state;
    assert Settled(s);
    assert forall k | k in s'.operations :: k in s.operations || s'.operations[k] == op;
  }

  /** A pass finds no worker waiting; some operation is in flight, since otherwise one would be. */
  lemma RefusedMove(o: Options, l: Looping, op: Operation, t: int, l': Looping, r: nat, now: int)
    requires ValidOptions(o) && LoopPromising(o, l, now) && Roomy(l, r) && LoopStep(o, l, Attempt(Refuse(op, t)), l')
    requires !op.kind.List? && l.system.world.state.operations != map[]
    ensures Better(o, l, l', r, now)
  {
    hide Promising, LoopValid, LoopStep, SystemStep, Chores, Measure, Converged, LiveCapacity;
    LoopStepKeepsValid(o, l, Attempt(Refuse(op, t)), l');
    RefusalShape(o, l, op, t, l', r);
    RefuseMove(o, l.system, op, t, l'.system, now);
    SameLevel(o, l, l', r, now);
  }

  lemma RefusalShape(o: Options, l: Looping, op: Operation, t: int, l': Looping, r: nat)
    requires ValidOptions(o) && LoopStep(o, l, Attempt(Refuse(op, t)), l') && !op.kind.List?
    ensures SystemStep(o, l.system, Refuse(op, t), l'.system)
    ensures PositionWeight(l'.position, r) < PositionWeight(l.position, r)
    ensures l'.system.world.state.operations == l.system.world.state.operations
    ensures l'.system.world.state.runners == l.system.world.state.runners
  {
    hide Attemptable, Wanted;
  }

  /** The loop reads a result and starts a pass. */
  lemma ReadMove(o: Options, l: Looping, t: int, l': Looping, r: nat, now: int)
    requires ValidOptions(o) && LoopPromising(o, l, now) && Roomy(l, r) && LoopStep(o, l, ReadResult(t), l')
    ensures Better(o, l, l', r, now)
  {
    hide LoopValid, LoopStep, SystemStep, Chores, Measure, Converged, LiveCapacity, SystemValid, CalmResult, CooledDown;
    LoopStepKeepsValid(o, l, ReadResult(t), l');
    ReadShape(o, l, t, l');
    TakeMove(o, l.system, t, l'.system, now);
    ReadKeepsRoom(o, l, t, l', now);
    ReadWeighs(o, l, t, l', r, now);
    if Progress(l.system.world.state, Applied(l.system.buffer[0], t)) {
      NextLevel(o, l, l', r, now);
    } else {
      SameLevel(o, l, l', r, now);
    }
  }

  lemma ReadShape(o: Options, l: Looping, t: int, l': Looping)
    requires ValidOptions(o) && LoopStep(o, l, ReadResult(t), l')
    ensures SystemStep(o, l.system, TakeResult(t), l'.system) && l.system.buffer != []
    ensures l.position.Selecting?
    ensures l'.position.Selecting? || l'.position == Deleting(l'.system.world.state.runners.Keys)
    ensures l'.position == if Applies(l.system) then Entry(l'.system.world.state) else Selecting
  {
    hide Apply, Settled, Succeeds;
  }

  /** A calm result adds a runner only for a create, which has been paid for. */
  lemma ReadKeepsRoom(o: Options, l: Looping, t: int, l': Looping, now: int)
    requires ValidOptions(o) && LoopPromising(o, l, now) && LoopStep(o, l, ReadResult(t), l')
    ensures var s, s' := l.system.world.state, l'.system.world.state;
            |s'.runners| <= |s.runners| + (if Progress(s, Applied(l.system.buffer[0], t)) then 1 else 0)
  {
    hide HeldOnce, Agree, Settle, Measure, CooledDown, Truthful, LoopStep, SystemStep, WorldValid, PositionValid;
    hide InventoryOf, Succeeds, Apply;
    ReadShape(o, l, t, l');
    var s, s', q := l.system.world.state, l'.system.world.state, l.system.buffer[0];
    ReturnedIsCalm(o, l.system, t, now);
    TakenIsSettled(o, l.system, t, l'.system);
    SettledRunners(o, s, q, t);
    RoomFor(s.operations[q.operation.id], q, s.runners, s'.runners);
  }

  lemma TakenIsSettled(o: Options, y: System, t: int, y': System)
    requires ValidOptions(o) && SystemStep(o, y, TakeResult(t), y')
    ensures y.buffer != []
    ensures y.buffer[0].operation.id in y.world.state.operations ==>
              y'.world.state == Settle(o, y.world.state, y.buffer[0], t)
  {
    hide Settle;
  }

  lemma RoomFor(op: Operation, q: OperationResult, runners: map<RunnerID, Runner>, runners': map<RunnerID, Runner>)
    requires match op.kind
             case List => runners' == runners
             case Create => runners' == runners[q.runner.id := q.runner]
             case Fence => runners' == runners
             case Delete => runners' == runners - {op.runnerID}
    ensures |runners'| <= |runners| + (if op.kind.List? then 0 else 1)
  {
    match op.kind
    case Create => OneMore(runners, q.runner.id, q.runner);
    case Delete => OneLess(runners, op.runnerID);
    case _ =>
  }

  lemma OneMore(runners: map<RunnerID, Runner>, id: RunnerID, runner: Runner)
    ensures |runners[id := runner]| <= |runners| + 1
  {
    var more := runners[id := runner];
    assert more.Keys == runners.Keys + {id};
    if id in runners {
      assert more.Keys == runners.Keys;
    }
    assert |more| == |more.Keys| && |runners| == |runners.Keys|;
  }

  lemma OneLess(runners: map<RunnerID, Runner>, id: RunnerID)
    ensures |runners - {id}| <= |runners|
  {
    var less := runners - {id};
    SmallerSet(less.Keys, runners.Keys);
    assert |less| == |less.Keys| && |runners| == |runners.Keys|;
  }

  lemma {:induction false} SmallerSet(a: set<RunnerID>, b: set<RunnerID>)
    requires a <= b
    ensures |a| <= |b|
  {
    if a != {} {
      var x :| x in a;
      SmallerSet(a - {x}, b - {x});
    }
  }

  lemma ReadWeighs(o: Options, l: Looping, t: int, l': Looping, r: nat, now: int)
    requires ValidOptions(o) && LoopPromising(o, l, now) && Roomy(l', r) && LoopStep(o, l, ReadResult(t), l')
    requires !l'.system.world.state.stale
    ensures PositionWeight(l.position, r) == 0 && PositionWeight(l'.position, r) <= r + 3
    ensures ListWeight(l'.system.world.state, r) <= ListWeight(l.system.world.state, r)
    ensures l.system.buffer != [] && !Progress(l.system.world.state, Applied(l.system.buffer[0], t)) ==>
              && ListWeight(l.system.world.state, r) == r + 6 && ListWeight(l'.system.world.state, r) == 0
              && Credit(l', r) == 0
  {
    hide HeldOnce, Agree, Measure, CooledDown, Truthful, Settle, Converged, LiveCapacity, LoopStep;
    ReadShape(o, l, t, l');
    ReturnedIsCalm(o, l.system, t, now);
    var s, s', q := l.system.world.state, l'.system.world.state, l.system.buffer[0];
    assert |s'.runners.Keys| == |s'.runners|;
    SettleFrame(o, s, q, t);
    assert forall k | k in s'.operations :: k in s.operations && s'.operations[k] == s.operations[k];
    if s.operations[q.operation.id].kind.List? {
      assert s.operations.Keys == {q.operation.id};
      assert s'.operations == map[];
      assert Applies(l.system) && Settled(s');
      assert UnscheduledTerminals(s') <= s'.runners.Keys;
    }
  }

  // ---- Never stuck ----------------------------------------------------------------------------------

  /** The pass tries op: it hands it to a waiting worker, or is refused where none waits. */
  lemma TryNow(o: Options, l: Looping, op: Operation, r: nat, now: int) returns (e: LoopEvent, l': Looping)
    requires ValidOptions(o) && LoopPromising(o, l, now) && Roomy(l, r)
    requires forall i | 0 <= i < |l.system.slots| :: !l.system.slots[i].Arriving?
    requires Matches(l.position, op) && op.id == l.system.world.state.nextID + 1
    requires Wanted(l.system.world.state, op) && Attemptable(l.system.world.state, op, now)
    ensures LoopStep(o, l, e, l') && CalmLoopMove(l, e) && Better(o, l, l', r, now)
  {
    hide LoopPromising, Wanted, Attemptable, Better, Roomy, AfterTry;
    var y, s := l.system, l.system.world.state;
    var s' := Record(s, op);
    assert !y.closed && |y.slots| == o.workers by { OpenSlots(o, l, now); }
    if i :| 0 <= i < |y.slots| && y.slots[i].Waiting? {
      e := Attempt(Handoff(i, op, now));
      l' := Looping(y.(world := y.world.(state := s'), slots := y.slots[i := Executing(op)]),
                    AfterTry(l.position, op, true, s'));
      if op.kind.List? {
        ListMove(o, l, i, op, now, l', r, now);
      } else {
        MutationMove(o, l, i, op, now, l', r, now);
      }
    } else {
      e := Attempt(Refuse(op, now));
      var spent := s.(nextID := op.id);
      l' := Looping(y.(world := y.world.(state := spent)), AfterTry(l.position, op, false, spent));
      SomethingRuns(o, l, now);
      NotForAList(l, op);
      RefusedMove(o, l, op, now, l', r, now);
    }
  }

  lemma NotForAList(l: Looping, op: Operation)
    requires Wanted(l.system.world.state, op) && l.system.world.state.operations != map[]
    ensures !op.kind.List?
  {
  }

  lemma OpenSlots(o: Options, l: Looping, now: int)
    requires LoopPromising(o, l, now)
    ensures !l.system.closed && |l.system.slots| == o.workers && |l.system.buffer| <= o.workers
    ensures forall i | 0 <= i < |l.system.slots| :: !l.system.slots[i].Exited?
  {
    hide WorldValid, HeldOnce, Agree;
  }

  /** If no worker is arriving or waiting, some operation is in flight. */
  lemma SomethingRuns(o: Options, l: Looping, now: int)
    requires ValidOptions(o) && LoopPromising(o, l, now)
    requires forall i | 0 <= i < |l.system.slots| :: !l.system.slots[i].Arriving? && !l.system.slots[i].Waiting?
    ensures l.system.world.state.operations != map[]
  {
    hide WorldValid, Agree;
    OpenSlots(o, l, now);
    HeldSizes(l.system.slots, l.system.buffer);
    OutstandingCount(l.system);
    SlotHolds(l.system.slots, 0);
    var slot := l.system.slots[0];
    assert exists id :: id in SlotID(slot) by {
      match slot
      case Executing(op) => assert op.id in SlotID(slot);
      case Sending(q) => assert q.operation.id in SlotID(slot);
    }
    var id :| id in SlotID(slot);
    assert id in HeldBySlots(l.system.slots);
    assert |HeldBySlots(l.system.slots)| >= 1;
  }

  /** Inside a pass or a refresh, with no worker arriving, the loop has a move. */
  lemma NextInside(o: Options, l: Looping, r: nat, now: int) returns (e: LoopEvent, l': Looping)
    requires ValidOptions(o) && LoopPromising(o, l, now) && Roomy(l, r) && !l.position.Selecting?
    requires forall i | 0 <= i < |l.system.slots| :: !l.system.slots[i].Arriving?
    ensures LoopStep(o, l, e, l') && CalmLoopMove(l, e) && Better(o, l, l', r, now)
  {
    hide LoopPromising, Better, Roomy, LiveCapacity, IdleCandidate;
    var s := l.system.world.state;
    StateParts(o, l, now);
    var next := s.nextID + 1;
    if PhaseOver(s, l.position) {
      e := NextPhase;
      l' := l.(position := NextPosition(s, l.position));
      InnerMove(o, l, e, l', r, now);
    } else {
      match l.position
      case Refreshing =>
        e, l' := TryNow(o, l, Operation(next, List, "", 0), r, now);
      case Deleting(pending) =>
        var id :| id in pending;
        e, l' := NextDelete(o, l, id, r, now);
      case Creating =>
        e, l' := TryNow(o, l, Operation(next, Create, "", s.generation), r, now);
      case Fencing =>
        var id :| id in s.runners && IdleCandidate(s, id);
        Unlocked(s, id);
        e, l' := TryNow(o, l, Operation(next, Fence, id, 0), r, now);
    }
  }

  lemma Unlocked(s: State, id: RunnerID)
    requires IdleCandidate(s, id)
    ensures id !in s.runnerOps
  {
  }

  lemma StateParts(o: Options, l: Looping, now: int)
    requires LoopPromising(o, l, now)
    ensures var s := l.system.world.state;
            && Reconciler.Valid(s) && CooledDown(s, now) && PositionValid(l)
            && (forall id | id in s.runnerOps :: s.operations != map[])
  {
    hide HeldOnce, Agree, CalmResult;
  }

  lemma NextDelete(o: Options, l: Looping, id: RunnerID, r: nat, now: int) returns (e: LoopEvent, l': Looping)
    requires ValidOptions(o) && LoopPromising(o, l, now) && Roomy(l, r)
    requires l.position.Deleting? && id in l.position.pending
    requires forall i | 0 <= i < |l.system.slots| :: !l.system.slots[i].Arriving?
    ensures LoopStep(o, l, e, l') && CalmLoopMove(l, e) && Better(o, l, l', r, now)
  {
    hide LoopPromising, Better, Roomy;
    var s := l.system.world.state;
    StateParts(o, l, now);
    var op := Operation(s.nextID + 1, Delete, id, 0);
    if !s.runners[id].state.Terminal? {
      e := Skip(id);
      l' := l.(position := Deleting(l.position.pending - {id}));
      InnerMove(o, l, e, l', r, now);
    } else if Attemptable(s, op, now) {
      e, l' := TryNow(o, l, op, r, now);
    } else {
      e := Blocked(op, now);
      l' := l.(position := Deleting(l.position.pending - {id}));
      InnerMove(o, l, e, l', r, now);
    }
  }

  /** In its select, short of rest, with no worker arriving. */
  lemma NextInSelect(o: Options, l: Looping, r: nat, now: int) returns (e: LoopEvent, l': Looping)
    requires ValidOptions(o) && LoopPromising(o, l, now) && Roomy(l, r) && l.position.Selecting? && !AtRest(l)
    requires forall i | 0 <= i < |l.system.slots| :: !l.system.slots[i].Arriving?
    ensures LoopStep(o, l, e, l') && CalmLoopMove(l, e) && Better(o, l, l', r, now)
  {
    hide LoopPromising, Better, Roomy, AtRest, Apply;
    OpenSlots(o, l, now);
    var y := l.system;
    if i :| 0 <= i < |y.slots| && y.slots[i].Sending? && |y.buffer| < o.workers {
      e := Background(Enqueue(i));
      l' := l.(system := y.(slots := y.slots[i := Arriving], buffer := y.buffer + [y.slots[i].result]));
      assert CalmMove(y, Enqueue(i)) && Achieves(y, Enqueue(i));
      BackgroundMove(o, l, Enqueue(i), l', r, now);
    } else if i :| 0 <= i < |y.slots| && y.slots[i].Executing? {
      e, l' := NextOperation(o, l, i, r, now);
    } else if y.buffer != [] {
      e, l' := NextRead(o, l, r, now);
    } else {
      e := Tick;
      l' := l.(position := Refreshing);
      NothingInFlight(o, l, now);
      TickMove(o, l, l', r, now);
    }
  }

  lemma NextOperation(o: Options, l: Looping, i: nat, r: nat, now: int) returns (e: LoopEvent, l': Looping)
    requires ValidOptions(o) && LoopPromising(o, l, now) && Roomy(l, r)
    requires i < |l.system.slots| && l.system.slots[i].Executing?
    ensures LoopStep(o, l, e, l') && CalmLoopMove(l, e) && Better(o, l, l', r, now)
  {
    hide Promising, LoopValid, Better, Roomy, SystemStep, CalmMove, Achieves;
    var event, y' := NextOfExecuting(o, l.system, i, now);
    e, l' := Background(event), l.(system := y');
    BackgroundMove(o, l, event, l', r, now);
  }

  lemma NextRead(o: Options, l: Looping, r: nat, now: int) returns (e: LoopEvent, l': Looping)
    requires ValidOptions(o) && LoopPromising(o, l, now) && Roomy(l, r) && l.position.Selecting? && l.system.buffer != []
    ensures LoopStep(o, l, e, l') && CalmLoopMove(l, e) && Better(o, l, l', r, now)
  {
    hide LoopPromising, Better, Roomy, Apply, Entry, Applies;
    OpenSlots(o, l, now);
    var y, q := l.system, l.system.buffer[0];
    var s' := Apply(o, y.world.state, q, now);
    e := ReadResult(now);
    l' := Looping(
      y.(buffer := y.buffer[1..],
         world := y.world.(state := s', made := y.world.made - {q.operation.id},
                           returned := y.world.returned - {q.operation.id})),
      if Applies(y) then Entry(s') else Selecting);
    ReadMove(o, l, now, l', r, now);
  }

  lemma NothingInFlight(o: Options, l: Looping, now: int)
    requires ValidOptions(o) && LoopPromising(o, l, now) && l.position.Selecting? && !AtRest(l) && l.system.buffer == []
    requires forall i | 0 <= i < |l.system.slots| :: l.system.slots[i].Waiting?
    ensures l.system.world.state.operations == map[] && !Converged(l.system.world.state)
  {
    hide WorldValid, Agree, Converged;
    NothingHeld(l.system.slots);
    OutstandingCount(l.system);
  }

  /**
   * Wherever the loop stands, until it rests converged with nothing in flight, there is a move it or a worker can
   * make that brings it closer; a pass hands off only what that pass comes to, and a list only a tick.
   */
  lemma NeverStuckShortOfConvergence(o: Options, l: Looping, r: nat, now: int) returns (e: LoopEvent, l': Looping)
    requires ValidOptions(o) && LoopPromising(o, l, now) && Roomy(l, r) && !AtRest(l)
    ensures LoopStep(o, l, e, l') && CalmLoopMove(l, e) && Better(o, l, l', r, now)
  {
    hide LoopPromising, Better, Roomy, AtRest, Apply;
    var y := l.system;
    if i :| 0 <= i < |y.slots| && y.slots[i].Arriving? {
      e := Background(Arrive(i));
      l' := l.(system := y.(slots := y.slots[i := Waiting]));
      assert CalmMove(y, Arrive(i)) && Achieves(y, Arrive(i));
      BackgroundMove(o, l, Arrive(i), l', r, now);
    } else if l.position.Selecting? {
      e, l' := NextInSelect(o, l, r, now);
    } else {
      e, l' := NextInside(o, l, r, now);
    }
  }

  ghost predicate CalmLoopExecution(loops: seq<Looping>, events: seq<LoopEvent>)
    requires |loops| == |events| + 1
  {
    forall i | 0 <= i < |events| :: CalmLoopMove(loops[i], events[i])
  }

  /** From every promising state of the loop, a calm execution of at most LoopMeasure moves comes to rest converged. */
  lemma {:induction false} ConvergesFrom(o: Options, l: Looping, r: nat, now: int)
    returns (loops: seq<Looping>, events: seq<LoopEvent>)
    requires ValidOptions(o) && LoopPromising(o, l, now) && Roomy(l, r)
    ensures IsLoopRun(o, loops, events) && CalmLoopExecution(loops, events) && loops[0] == l
    ensures |events| <= LoopMeasure(l, r) && AtRest(loops[|events|])
    decreases LoopMeasure(l, r)
  {
    hide LoopStep, LoopMeasure, LoopPromising, CalmLoopMove, AtRest, Roomy;
    if AtRest(l) {
      loops, events := [l], [];
    } else {
      var e, l' := NeverStuckShortOfConvergence(o, l, r, now);
      var later, rest := ConvergesFrom(o, l', r, now);
      loops, events := [l] + later, [e] + rest;
      assert forall i | 0 < i < |loops| :: loops[i] == later[i - 1];
      assert forall i | 0 < i < |events| :: events[i] == rest[i - 1];
      assert loops[|events|] == later[|rest|];
    }
  }

  /**
   * Every reachable state of the main loop and its workers that is open and not stale, with nothing cooling down and
   * no bad news on its way, has a continuation without demand and failures, refreshes included, in which it comes to
   * rest converged.
   */
  lemma ReachableConverges(
    o: Options, runners: seq<Runner>, loops: seq<Looping>, events: seq<LoopEvent>, now: int)
    returns (more: seq<Looping>, moves: seq<LoopEvent>)
    requires ValidOptions(o) && AllValid(runners) && IsLoopRun(o, loops, events)
    requires loops[0] == InitialLoop(o, runners)
    requires var y := loops[|events|].system;
             && !y.closed && !y.world.state.stale && CooledDown(y.world.state, now)
             && forall k | k in y.world.returned :: CalmResult(y.world.state, y.world.returned[k])
    ensures IsLoopRun(o, more, moves) && CalmLoopExecution(more, moves) && more[0] == loops[|events|]
    ensures AtRest(more[|moves|])
    ensures var l := loops[|events|];
            |moves| <= LoopMeasure(l, |l.system.world.state.runners| + Measure(l.system.world.state))
  {
    hide LoopStep, LoopMeasure, Measure, CalmLoopMove, AtRest, SystemValid, PositionValid, CalmResult, CooledDown;
    InitialLoopValid(o, runners);
    LoopRunKeepsValid(o, loops, events, |events|);
    var l := loops[|events|];
    more, moves := ConvergesFrom(o, l, |l.system.world.state.runners| + Measure(l.system.world.state), now);
  }
}
