/**
 * Run and runWorker as a concurrent protocol: the main loop owns the reconciler's state, hands operations to
 * worker goroutines over an unbuffered channel and reads their results from a buffer of capacity Workers.
 */
module Pool {
  import opened ControllerTypes
  import opened Reconciler
  import opened Traces
  import opened Host

  /**
   * One worker goroutine: on its way to the work channel, waiting there, running an operation, blocked sending its
   * result, or gone.
   */
  datatype Slot = Arriving | Waiting | Executing(op: Operation) | Sending(result: OperationResult) | Exited

  datatype System = System(world: World, slots: seq<Slot>, buffer: seq<OperationResult>, closed: bool)

  datatype SystemEvent =
    | TakeDemand(demand: Demand)
    | Handoff(slot: nat, op: Operation, now: int)
    | Refuse(op: Operation, now: int)
    | Arrive(slot: nat)
    | Make(slot: nat, name: RunnerID)
    | Remove(slot: nat)
    | Finish(slot: nat, result: OperationResult)
    | Enqueue(slot: nat)
    | TakeResult(now: int)
    | Shutdown
    | Exit(slot: nat)
    | Idle

  /** apply on any result; one whose operation is not recorded changes nothing. */
  function Apply(o: Options, s: State, r: OperationResult, now: int): State
    requires ValidOptions(o)
  {
    if r.operation.id in s.operations then Settle(o, s, r, now) else s
  }

  predicate SystemStep(o: Options, y: System, e: SystemEvent, y': System)
    requires ValidOptions(o)
  {
    var w := y.world;
    match e
    case TakeDemand(d) =>
      !y.closed && y' == y.(world := w.(state := SetDemand(o, w.state, d)))
    case Handoff(i, op, now) =>
      && !y.closed && i < |y.slots| && y.slots[i].Waiting?
      && Step(o, w.state, Scheduled(op, now), y'.world.state)
      && y' == y.(world := w.(state := y'.world.state), slots := y.slots[i := Executing(op)])
    case Refuse(op, now) =>
      && !y.closed && NoneWaiting(y.slots) && Step(o, w.state, Refused(op, now), y'.world.state)
      && y' == y.(world := w.(state := y'.world.state))
    case Arrive(i) =>
      && i < |y.slots| && y.slots[i].Arriving?
      && y' == y.(slots := y.slots[i := Waiting])
    case Make(i, name) =>
      && i < |y.slots| && y.slots[i].Executing? && y.slots[i].op.kind.Create?
      && y.slots[i].op.id !in w.made && name != "" && name !in w.used
      && y' == y.(world := w.(vms := w.vms + {name}, used := w.used + {name}, made := w.made[y.slots[i].op.id := name]))
    case Remove(i) =>
      && i < |y.slots| && y.slots[i].Executing? && y.slots[i].op.kind.Delete?
      && y' == y.(world := w.(vms := w.vms - {y.slots[i].op.runnerID}))
    case Finish(i, r) =>
      && i < |y.slots| && y.slots[i].Executing? && r.operation == y.slots[i].op && Truthful(w, r.operation, r)
      && y' == y.(world := w.(returned := w.returned[r.operation.id := r]), slots := y.slots[i := Sending(r)])
    case Enqueue(i) =>
      && i < |y.slots| && y.slots[i].Sending? && |y.buffer| < o.workers
      && y' == y.(slots := y.slots[i := Arriving], buffer := y.buffer + [y.slots[i].result])
    case TakeResult(now) =>
      && !y.closed && y.buffer != []
      && var r := y.buffer[0];
         y' == y.(buffer := y.buffer[1..],
                  world := w.(state := Apply(o, w.state, r, now),
                              made := w.made - {r.operation.id},
                              returned := w.returned - {r.operation.id}))
    case Shutdown =>
      !y.closed && y' == y.(closed := true)
    case Exit(i) =>
      && y.closed && i < |y.slots| && y.slots[i].Waiting?
      && y' == y.(slots := y.slots[i := Exited])
    case Idle => y' == y
  }

  /** No worker is blocked at the work channel, so the select of trySchedule takes its default. */
  predicate NoneWaiting(slots: seq<Slot>) {
    forall i | 0 <= i < |slots| :: !slots[i].Waiting?
  }

  function InitialSystem(o: Options, runners: seq<Runner>): System
    requires o.workers >= 0
  {
    System(InitialWorld(o, runners), seq(o.workers, i => Arriving), [], false)
  }

  ghost predicate IsSystemRun(o: Options, systems: seq<System>, events: seq<SystemEvent>)
    requires ValidOptions(o)
  {
    && |systems| == |events| + 1
    && forall i | 0 <= i < |events| :: SystemStep(o, systems[i], events[i], systems[i + 1])
  }

  // ---- Operation conservation ---------------------------------------------------------------------

  function SlotID(slot: Slot): multiset<nat> {
    match slot
    case Executing(op) => multiset{op.id}
    case Sending(r) => multiset{r.operation.id}
    case _ => multiset{}
  }

  /** The operation held by each worker, as a multiset of IDs. */
  function HeldBySlots(slots: seq<Slot>): multiset<nat> {
    if slots == [] then multiset{} else SlotID(slots[0]) + HeldBySlots(slots[1..])
  }

  function HeldByBuffer(buffer: seq<OperationResult>): multiset<nat> {
    if buffer == [] then multiset{} else multiset{buffer[0].operation.id} + HeldByBuffer(buffer[1..])
  }

  lemma {:induction false} SlotUpdate(slots: seq<Slot>, i: nat, slot: Slot)
    requires i < |slots|
    ensures forall id :: HeldBySlots(slots[i := slot])[id] + SlotID(slots[i])[id]
                         == HeldBySlots(slots)[id] + SlotID(slot)[id]
  {
    if i == 0 {
      assert slots[i := slot][1..] == slots[1..];
    } else {
      SlotUpdate(slots[1..], i - 1, slot);
      assert slots[i := slot][1..] == slots[1..][i - 1 := slot];
    }
  }

  lemma {:induction false} BufferAppend(buffer: seq<OperationResult>, r: OperationResult)
    ensures forall id :: HeldByBuffer(buffer + [r])[id] == HeldByBuffer(buffer)[id] + multiset{r.operation.id}[id]
  {
    if buffer == [] {
      assert [r][1..] == [];
    } else {
      BufferAppend(buffer[1..], r);
      assert (buffer + [r])[1..] == buffer[1..] + [r];
    }
  }

  lemma {:induction false} SlotHolds(slots: seq<Slot>, i: nat)
    requires i < |slots|
    ensures SlotID(slots[i]) <= HeldBySlots(slots)
  {
    if i > 0 {
      SlotHolds(slots[1..], i - 1);
    }
  }

  lemma {:induction false} NothingHeld(slots: seq<Slot>)
    requires forall i | 0 <= i < |slots| :: slots[i].Arriving? || slots[i].Waiting? || slots[i].Exited?
    ensures HeldBySlots(slots) == multiset{}
  {
    if slots != [] {
      NothingHeld(slots[1..]);
    }
  }

  lemma {:induction false} HeldSizes(slots: seq<Slot>, buffer: seq<OperationResult>)
    ensures |HeldBySlots(slots)| <= |slots|
    ensures |HeldByBuffer(buffer)| == |buffer|
    decreases |slots| + |buffer|
  {
    if slots != [] {
      HeldSizes(slots[1..], buffer);
    } else if buffer != [] {
      HeldSizes(slots, buffer[1..]);
    }
  }

  /** Every one of ids is in exactly one worker slot or one result-buffer cell, and nothing else is. */
  ghost predicate HeldOnce(slots: seq<Slot>, buffer: seq<OperationResult>, ids: set<nat>) {
    forall id: nat :: HeldBySlots(slots)[id] + HeldByBuffer(buffer)[id] == if id in ids then 1 else 0
  }

  /** What slots and buffer cells hold is what the reconciler recorded and the world returned. */
  ghost predicate Agree(
    slots: seq<Slot>, buffer: seq<OperationResult>,
    operations: map<nat, Operation>, returned: map<nat, OperationResult>)
  {
    && (forall i | 0 <= i < |slots| && slots[i].Executing? ::
          var op := slots[i].op;
          op.id in operations && operations[op.id] == op && op.id !in returned)
    && (forall i | 0 <= i < |slots| && slots[i].Sending? ::
          var r := slots[i].result;
          r.operation.id in returned && returned[r.operation.id] == r)
    && (forall j | 0 <= j < |buffer| ::
          var r := buffer[j];
          r.operation.id in returned && returned[r.operation.id] == r)
  }

  ghost predicate SystemValid(o: Options, y: System) {
    && WorldValid(y.world)
    && |y.slots| == o.workers && |y.buffer| <= o.workers
    && HeldOnce(y.slots, y.buffer, y.world.state.operations.Keys)
    && Agree(y.slots, y.buffer, y.world.state.operations, y.world.returned)
    && (!y.closed ==> forall i | 0 <= i < |y.slots| :: !y.slots[i].Exited?)
  }

  /** The world event a system event performs; moving a result or shutting down is none. */
  ghost function Projected(y: System, e: SystemEvent): WorldEvent {
    match e
    case TakeDemand(d) => Control(DemandUpdate(d))
    case Handoff(_, op, now) => Control(Scheduled(op, now))
    case Refuse(op, now) => Control(Refused(op, now))
    case Make(i, name) => if i < |y.slots| && y.slots[i].Executing? then MakeVM(y.slots[i].op.id, name) else Rest
    case Remove(i) => if i < |y.slots| && y.slots[i].Executing? then RemoveVM(y.slots[i].op.id) else Rest
    case Finish(i, r) => Return(r.operation.id, r)
    case TakeResult(now) => if y.buffer != [] then Control(Applied(y.buffer[0], now)) else Rest
    case _ => Rest
  }

  /** A result not yet applied always belongs to a recorded operation. */
  lemma ReturnedAreRecorded(w: World)
    requires WorldValid(w)
    ensures forall k | k in w.returned :: k in w.state.operations && w.returned[k].operation == w.state.operations[k]
  {
  }

  /** Refinement: each system step is one step of the reconciler and world, or leaves them alone. */
  lemma SystemRefinesWorld(o: Options, y: System, e: SystemEvent, y': System)
    requires ValidOptions(o) && SystemValid(o, y) && SystemStep(o, y, e, y')
    ensures WorldStep(o, y.world, Projected(y, e), y'.world)
  {
    hide Settle, WorldValid, HeldOnce;
    match e
    case TakeDemand(d) =>
    case Handoff(i, op, now) =>
    case Refuse(op, now) =>
    case Make(i, name) =>
    case Remove(i) =>
    case Finish(i, r) =>
    case TakeResult(now) => ReturnedAreRecorded(y.world);
    case _ =>
  }

  // ---- The invariant is kept ----------------------------------------------------------------------

  lemma SlotTakesWork(slots: seq<Slot>, buffer: seq<OperationResult>, ids: set<nat>, i: nat, op: Operation)
    requires HeldOnce(slots, buffer, ids) && i < |slots| && slots[i].Waiting? && op.id !in ids
    ensures HeldOnce(slots[i := Executing(op)], buffer, ids + {op.id})
  {
    SlotUpdate(slots, i, Executing(op));
  }

  lemma SlotFinishes(slots: seq<Slot>, buffer: seq<OperationResult>, ids: set<nat>, i: nat, r: OperationResult)
    requires HeldOnce(slots, buffer, ids) && i < |slots| && slots[i].Executing? && r.operation == slots[i].op
    ensures HeldOnce(slots[i := Sending(r)], buffer, ids)
  {
    SlotUpdate(slots, i, Sending(r));
  }

  lemma SlotSends(slots: seq<Slot>, buffer: seq<OperationResult>, ids: set<nat>, i: nat)
    requires HeldOnce(slots, buffer, ids) && i < |slots| && slots[i].Sending?
    ensures HeldOnce(slots[i := Arriving], buffer + [slots[i].result], ids)
  {
    SlotUpdate(slots, i, Arriving);
    BufferAppend(buffer, slots[i].result);
  }

  lemma SlotArrives(slots: seq<Slot>, buffer: seq<OperationResult>, ids: set<nat>, i: nat)
    requires HeldOnce(slots, buffer, ids) && i < |slots| && slots[i].Arriving?
    ensures HeldOnce(slots[i := Waiting], buffer, ids)
  {
    SlotUpdate(slots, i, Waiting);
  }

  lemma SlotExits(slots: seq<Slot>, buffer: seq<OperationResult>, ids: set<nat>, i: nat)
    requires HeldOnce(slots, buffer, ids) && i < |slots| && slots[i].Waiting?
    ensures HeldOnce(slots[i := Exited], buffer, ids)
  {
    SlotUpdate(slots, i, Exited);
  }

  lemma HeadTaken(slots: seq<Slot>, buffer: seq<OperationResult>, ids: set<nat>)
    requires HeldOnce(slots, buffer, ids) && buffer != []
    ensures buffer[0].operation.id in ids
    ensures HeldOnce(slots, buffer[1..], ids - {buffer[0].operation.id})
  {
    var id := buffer[0].operation.id;
    assert HeldByBuffer(buffer)[id] >= 1;
  }

  /** Two different slots never hold the same operation. */
  lemma SlotsHoldDistinct(slots: seq<Slot>, buffer: seq<OperationResult>, ids: set<nat>, i: nat, j: nat)
    requires HeldOnce(slots, buffer, ids) && i < |slots| && j < |slots| && i != j
    requires slots[i].Executing? && slots[j].Executing?
    ensures slots[i].op.id != slots[j].op.id
  {
    var id := slots[j].op.id;
    SlotUpdate(slots, i, Waiting);
    SlotHolds(slots[i := Waiting], j);
    assert SlotID(slots[j])[id] == 1;
    assert HeldBySlots(slots)[id] <= 1;
  }

  /** The operation at the head of the buffer is held nowhere else. */
  lemma HeadHeldOnce(slots: seq<Slot>, buffer: seq<OperationResult>, ids: set<nat>)
    requires HeldOnce(slots, buffer, ids) && buffer != []
    ensures forall i | 0 <= i < |slots| :: SlotID(slots[i])[buffer[0].operation.id] == 0
    ensures forall j | 1 <= j < |buffer| :: buffer[j].operation.id != buffer[0].operation.id
  {
    hide HeldBySlots, SlotID;
    var id := buffer[0].operation.id;
    assert HeldBySlots(slots)[id] + HeldByBuffer(buffer)[id] <= 1;
    assert HeldByBuffer(buffer)[id] == 1 + HeldByBuffer(buffer[1..])[id];
    HeldElsewhere(slots, buffer[1..], id);
  }

  /** What no slot and no cell holds is in none of them. */
  lemma HeldElsewhere(slots: seq<Slot>, buffer: seq<OperationResult>, id: nat)
    requires HeldBySlots(slots)[id] == 0 && HeldByBuffer(buffer)[id] == 0
    ensures forall i | 0 <= i < |slots| :: SlotID(slots[i])[id] == 0
    ensures forall j | 0 <= j < |buffer| :: buffer[j].operation.id != id
  {
    hide HeldBySlots, HeldByBuffer, SlotID;
    forall i | 0 <= i < |slots| ensures SlotID(slots[i])[id] == 0 {
      SlotHolds(slots, i);
    }
    forall j | 0 <= j < |buffer| ensures buffer[j].operation.id != id {
      BufferHolds(buffer, j);
    }
  }

  lemma {:induction false} BufferHolds(buffer: seq<OperationResult>, j: nat)
    requires j < |buffer|
    ensures buffer[j].operation.id in HeldByBuffer(buffer)
  {
    if j > 0 {
      BufferHolds(buffer[1..], j - 1);
    }
  }

  lemma FinishKeepsAgreement(
    slots: seq<Slot>, buffer: seq<OperationResult>, operations: map<nat, Operation>,
    returned: map<nat, OperationResult>, i: nat, r: OperationResult)
    requires HeldOnce(slots, buffer, operations.Keys) && Agree(slots, buffer, operations, returned)
    requires i < |slots| && slots[i].Executing? && r.operation == slots[i].op
    ensures Agree(slots[i := Sending(r)], buffer, operations, returned[r.operation.id := r])
  {
    forall j | 0 <= j < |slots| && j != i && slots[j].Executing? ensures slots[j].op.id != r.operation.id {
      SlotsHoldDistinct(slots, buffer, operations.Keys, i, j);
    }
  }

  lemma TakeKeepsAgreement(
    slots: seq<Slot>, buffer: seq<OperationResult>, operations: map<nat, Operation>, returned: map<nat, OperationResult>)
    requires HeldOnce(slots, buffer, operations.Keys) && Agree(slots, buffer, operations, returned) && buffer != []
    ensures var id := buffer[0].operation.id;
            Agree(slots, buffer[1..], operations - {id}, returned - {id})
  {
    HeadHeldOnce(slots, buffer, operations.Keys);
    var id := buffer[0].operation.id;
    forall i | 0 <= i < |slots| && slots[i].Executing? ensures slots[i].op.id != id {
      assert SlotID(slots[i])[id] == 0;
    }
    forall i | 0 <= i < |slots| && slots[i].Sending? ensures slots[i].result.operation.id != id {
      assert SlotID(slots[i])[id] == 0;
    }
  }

  lemma HandoffKeepsHeld(o: Options, y: System, i: nat, op: Operation, now: int, y': System)
    requires ValidOptions(o) && SystemValid(o, y) && SystemStep(o, y, Handoff(i, op, now), y')
    ensures HeldOnce(y'.slots, y'.buffer, y'.world.state.operations.Keys)
    ensures Agree(y'.slots, y'.buffer, y'.world.state.operations, y'.world.returned)
  {
    hide HeldOnce;
    var s, s' := y.world.state, y'.world.state;
    StepFrame(o, s, Scheduled(op, now), s');
    NewIDUnused(y.world, op.id);
    SlotTakesWork(y.slots, y.buffer, s.operations.Keys, i, op);
    assert s'.operations.Keys == s.operations.Keys + {op.id};
  }

  lemma NewIDUnused(w: World, id: nat)
    requires WorldValid(w) && id > w.state.nextID
    ensures id !in w.state.operations && id !in w.returned
  {
  }

  lemma TakeKeepsHeld(o: Options, y: System, now: int, y': System)
    requires ValidOptions(o) && SystemValid(o, y) && SystemStep(o, y, TakeResult(now), y')
    ensures HeldOnce(y'.slots, y'.buffer, y'.world.state.operations.Keys)
    ensures Agree(y'.slots, y'.buffer, y'.world.state.operations, y'.world.returned)
  {
    hide HeldOnce, Agree, Settle;
    var s, s', r := y.world.state, y'.world.state, y.buffer[0];
    HeadTaken(y.slots, y.buffer, s.operations.Keys);
    TakeKeepsAgreement(y.slots, y.buffer, s.operations, y.world.returned);
    SettleFrame(o, s, r, now);
    assert s.operations[r.operation.id].id == r.operation.id by {
      assert OperationsNumbered(s);
    }
    assert s'.operations.Keys == s.operations.Keys - {r.operation.id};
  }

  lemma SystemStepKeepsValid(o: Options, y: System, e: SystemEvent, y': System)
    requires ValidOptions(o) && SystemValid(o, y) && SystemStep(o, y, e, y')
    ensures SystemValid(o, y')
  {
    hide Step, Settle, WorldStep, WorldValid, HeldOnce, Agree, Apply;
    SystemRefinesWorld(o, y, e, y');
    WorldStepKeepsValid(o, y.world, Projected(y, e), y'.world);
    HeldStaysHeld(o, y, e, y');
  }

  lemma HeldStaysHeld(o: Options, y: System, e: SystemEvent, y': System)
    requires ValidOptions(o) && SystemValid(o, y) && SystemStep(o, y, e, y')
    ensures HeldOnce(y'.slots, y'.buffer, y'.world.state.operations.Keys)
    ensures Agree(y'.slots, y'.buffer, y'.world.state.operations, y'.world.returned)
  {
    hide Step, Settle, WorldStep, WorldValid, HeldOnce, Apply;
    match e
    case TakeDemand(d) =>
    case Handoff(i, op, now) => HandoffKeepsHeld(o, y, i, op, now, y');
    case Refuse(op, now) => StepFrame(o, y.world.state, Refused(op, now), y'.world.state);
    case Make(i, name) =>
    case Remove(i) =>
    case Finish(i, r) =>
      SlotFinishes(y.slots, y.buffer, y.world.state.operations.Keys, i, r);
      FinishKeepsAgreement(y.slots, y.buffer, y.world.state.operations, y.world.returned, i, r);
    case Enqueue(i) => SlotSends(y.slots, y.buffer, y.world.state.operations.Keys, i);
    case TakeResult(now) => TakeKeepsHeld(o, y, now, y');
    case Shutdown =>
    case Arrive(i) => SlotArrives(y.slots, y.buffer, y.world.state.operations.Keys, i);
    case Exit(i) => SlotExits(y.slots, y.buffer, y.world.state.operations.Keys, i);
    case Idle =>
  }

  lemma InitialSystemValid(o: Options, runners: seq<Runner>)
    requires ValidOptions(o) && AllValid(runners)
    ensures SystemValid(o, InitialSystem(o, runners))
  {
    var y := InitialSystem(o, runners);
    InitialWorldValid(o, runners);
    NothingHeld(y.slots);
    assert multiset(y.world.state.operations.Keys) == multiset{};
  }

  lemma {:induction false} SystemRunKeepsValid(o: Options, systems: seq<System>, events: seq<SystemEvent>, n: nat)
    requires ValidOptions(o) && IsSystemRun(o, systems, events) && SystemValid(o, systems[0]) && n < |systems|
    ensures SystemValid(o, systems[n])
  {
    hide SystemStep, SystemValid;
    if n > 0 {
      SystemRunKeepsValid(o, systems, events, n - 1);
      SystemStepKeepsValid(o, systems[n - 1], events[n - 1], systems[n]);
    }
  }

  /**
   * Operation conservation in every reachable state: each recorded operation is held exactly once across the
   * worker slots and the result buffer, nothing else is held, and at most 2 * Workers are outstanding.
   */
  lemma OperationsConserved(o: Options, runners: seq<Runner>, systems: seq<System>, events: seq<SystemEvent>, n: nat)
    requires ValidOptions(o) && AllValid(runners) && IsSystemRun(o, systems, events)
    requires systems[0] == InitialSystem(o, runners) && n < |systems|
    ensures var y := systems[n];
            && (forall id: nat :: HeldBySlots(y.slots)[id] + HeldByBuffer(y.buffer)[id]
                                  == if id in y.world.state.operations then 1 else 0)
            && |y.world.state.operations| <= 2 * o.workers
            && (y.buffer != [] ==> y.buffer[0].operation.id in y.world.state.operations)
  {
    InitialSystemValid(o, runners);
    SystemRunKeepsValid(o, systems, events, n);
    var y := systems[n];
    HeldSizes(y.slots, y.buffer);
    OutstandingCount(y);
  }

  lemma OutstandingCount(y: System)
    requires HeldOnce(y.slots, y.buffer, y.world.state.operations.Keys)
    ensures |y.world.state.operations| == |HeldBySlots(y.slots)| + |HeldByBuffer(y.buffer)|
  {
    assert HeldBySlots(y.slots) + HeldByBuffer(y.buffer) == multiset(y.world.state.operations.Keys);
    assert |HeldBySlots(y.slots) + HeldByBuffer(y.buffer)| == |HeldBySlots(y.slots)| + |HeldByBuffer(y.buffer)|;
    assert |multiset(y.world.state.operations.Keys)| == |y.world.state.operations.Keys|;
    assert |y.world.state.operations.Keys| == |y.world.state.operations|;
  }

  // ---- Every run of the system is a run of the world and of the reconciler ---------------------------

  ghost function Worlds(systems: seq<System>): seq<World> {
    seq(|systems|, i requires 0 <= i < |systems| => systems[i].world)
  }

  ghost function WorldEvents(systems: seq<System>, events: seq<SystemEvent>): seq<WorldEvent>
    requires |systems| == |events| + 1
  {
    seq(|events|, i requires 0 <= i < |events| => Projected(systems[i], events[i]))
  }

  /**
   * Whatever the worker goroutines and the world interleave, the reconciler sees one of its own runs, and the
   * names it is told of are fresh: every theorem about those runs holds of the concurrent system.
   */
  lemma SystemRunIsReconcilerRun(o: Options, runners: seq<Runner>, systems: seq<System>, events: seq<SystemEvent>)
    requires ValidOptions(o) && AllValid(runners) && IsSystemRun(o, systems, events)
    requires systems[0] == InitialSystem(o, runners)
    ensures IsWorldRun(o, Worlds(systems), WorldEvents(systems, events))
    ensures WorldValid(Worlds(systems)[0])
    ensures IsRun(o, States(Worlds(systems)), Events(WorldEvents(systems, events)))
    ensures FreshNames(States(Worlds(systems)), Events(WorldEvents(systems, events)))
    ensures FreshRun(States(Worlds(systems)), Events(WorldEvents(systems, events)))
  {
    hide SystemStep, SystemValid, WorldStep, WorldValid, IsRun, FreshNames, FreshRun;
    InitialSystemValid(o, runners);
    InitialWorldValid(o, runners);
    var worlds, evs := Worlds(systems), WorldEvents(systems, events);
    forall i | 0 <= i < |evs| ensures WorldStep(o, worlds[i], evs[i], worlds[i + 1]) {
      SystemRunKeepsValid(o, systems, events, i);
      SystemRefinesWorld(o, systems[i], events[i], systems[i + 1]);
    }
    WorldRunIsFreshRun(o, worlds, evs);
    FreshNamesGiveFreshRun(States(worlds), Events(evs));
  }

  /** In the concurrent system too, a state whose inventory is not stale refines the world. */
  lemma CacheRefinesWorldInTheSystem(
    o: Options, runners: seq<Runner>, systems: seq<System>, events: seq<SystemEvent>, n: nat)
    requires ValidOptions(o) && AllValid(runners) && IsSystemRun(o, systems, events)
    requires systems[0] == InitialSystem(o, runners) && n < |systems|
    requires !systems[n].world.state.stale
    ensures CacheRefinesWorld(systems[n].world)
  {
    InitialSystemValid(o, runners);
    SystemRunKeepsValid(o, systems, events, n);
  }

  // ---- Shutdown -----------------------------------------------------------------------------------

  /** What still happens after Done: operations return, results are enqueued while there is room, idle workers leave. */
  predicate Drains(e: SystemEvent) {
    e.Arrive? || e.Finish? || e.Enqueue? || e.Exit?
  }

  predicate AllExited(y: System) {
    forall i | 0 <= i < |y.slots| :: y.slots[i].Exited?
  }

  /** No worker can move on: none is running an operation, none may leave, and blocked senders find the buffer full. */
  predicate Stuck(o: Options, y: System) {
    forall i | 0 <= i < |y.slots| :: y.slots[i].Exited? || (y.slots[i].Sending? && |y.buffer| >= o.workers)
  }

  /** Worker moves left before every worker has exited, were the buffer unbounded. */
  function DrainMeasure(slots: seq<Slot>): nat {
    if slots == [] then 0
    else (match slots[0] case Executing(_) => 4 case Sending(_) => 3 case Arriving => 2 case Waiting => 1 case Exited => 0)
         + DrainMeasure(slots[1..])
  }

  lemma {:induction false} DrainMeasureUpdate(slots: seq<Slot>, i: nat, slot: Slot)
    requires i < |slots|
    ensures DrainMeasure(slots[i := slot]) + DrainMeasure([slots[i]]) == DrainMeasure(slots) + DrainMeasure([slot])
  {
    assert [slot][1..] == [] && [slots[i]][1..] == [];
    if i == 0 {
      assert slots[i := slot][1..] == slots[1..];
    } else {
      DrainMeasureUpdate(slots[1..], i - 1, slot);
      assert slots[i := slot][1..] == slots[1..][i - 1 := slot];
    }
  }

  /** After Done every worker move brings the workers closer to exit, and no operation is ever released. */
  lemma DrainStep(o: Options, y: System, e: SystemEvent, y': System)
    requires ValidOptions(o) && y.closed && SystemStep(o, y, e, y')
    ensures y'.closed && y'.world.state == y.world.state
    ensures Drains(e) ==> DrainMeasure(y'.slots) < DrainMeasure(y.slots)
    ensures !Drains(e) ==> y'.slots == y.slots && y'.buffer == y.buffer
  {
    match e
    case Finish(i, r) => DrainMeasureUpdate(y.slots, i, Sending(r));
    case Arrive(i) => DrainMeasureUpdate(y.slots, i, Waiting);
    case Enqueue(i) => DrainMeasureUpdate(y.slots, i, Arriving);
    case Exit(i) => DrainMeasureUpdate(y.slots, i, Exited);
    case _ =>
  }

  /** A worker that is not stuck has a move: a running operation may always return, here by failing. */
  lemma NotStuckCanDrain(o: Options, y: System) returns (e: SystemEvent, y': System)
    requires ValidOptions(o) && y.closed && !Stuck(o, y)
    ensures Drains(e) && SystemStep(o, y, e, y')
  {
    var i :| 0 <= i < |y.slots| && !y.slots[i].Exited? && !(y.slots[i].Sending? && |y.buffer| >= o.workers);
    match y.slots[i]
    case Arriving =>
      e := Arrive(i);
      y' := y.(slots := y.slots[i := Waiting]);
    case Waiting =>
      e := Exit(i);
      y' := y.(slots := y.slots[i := Exited]);
    case Executing(op) =>
      var r := OperationResult(op, [], Runner("", Unknown("")), true);
      e := Finish(i, r);
      y' := y.(world := y.world.(returned := y.world.returned[r.operation.id := r]), slots := y.slots[i := Sending(r)]);
    case Sending(r) =>
      e := Enqueue(i);
      y' := y.(slots := y.slots[i := Arriving], buffer := y.buffer + [r]);
  }

  /**
   * Where a shutdown comes to rest. Nobody reads results after Done, so once no worker can move the workers
   * have all exited exactly when at most Workers operations were outstanding.
   */
  lemma ShutdownDrainsExactly(o: Options, y: System)
    requires ValidOptions(o) && SystemValid(o, y) && y.closed && Stuck(o, y)
    ensures AllExited(y) <==> |y.world.state.operations| <= o.workers
  {
    hide WorldValid, Agree, HeldBySlots, HeldByBuffer;
    HeldSizes(y.slots, y.buffer);
    OutstandingCount(y);
    if AllExited(y) {
      NothingHeld(y.slots);
    } else {
      var i :| 0 <= i < |y.slots| && !y.slots[i].Exited?;
      SlotHolds(y.slots, i);
      assert y.slots[i].result.operation.id in SlotID(y.slots[i]);
      assert |HeldBySlots(y.slots)| >= 1 by {
        assert y.slots[i].result.operation.id in HeldBySlots(y.slots);
      }
    }
  }

  /** With more than Workers operations outstanding at Done, no worker schedule lets every worker exit. */
  lemma OverfullNeverDrains(o: Options, systems: seq<System>, events: seq<SystemEvent>, n: nat)
    requires ValidOptions(o) && IsSystemRun(o, systems, events) && n < |systems|
    requires SystemValid(o, systems[0]) && systems[0].closed
    requires |systems[0].world.state.operations| > o.workers
    ensures !AllExited(systems[n])
  {
    ClosedKeepsState(o, systems, events, n);
    SystemRunKeepsValid(o, systems, events, n);
    var y := systems[n];
    HeldSizes(y.slots, y.buffer);
    OutstandingCount(y);
    if AllExited(y) {
      NothingHeld(y.slots);
    }
  }

  lemma {:induction false} ClosedKeepsState(o: Options, systems: seq<System>, events: seq<SystemEvent>, n: nat)
    requires ValidOptions(o) && IsSystemRun(o, systems, events) && n < |systems| && systems[0].closed
    ensures systems[n].closed && systems[n].world.state == systems[0].world.state
  {
    hide SystemStep;
    if n > 0 {
      ClosedKeepsState(o, systems, events, n - 1);
      DrainStep(o, systems[n - 1], events[n - 1], systems[n]);
    }
  }
}
