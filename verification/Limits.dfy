/**
 * Three things the reconciler does not promise, each with a concrete run. The exact conditions are
 * Capacity.CeilingBrokenExactly, Pool.ShutdownDrainsExactly and Cooldowns.HeldBackExactly.
 */
module Limits {
  import opened ControllerTypes
  import opened Backoff
  import opened Reconciler
  import opened Invariant
  import opened Capacity
  import opened Host
  import opened Pool

  function OneRunner(): Options {
    Options(0, 1, 2, 1, 1)
  }

  function Failure(op: Operation): OperationResult {
    OperationResult(op, [], Runner("", Unknown("")), true)
  }

  function Success(op: Operation, runner: Runner): OperationResult {
    OperationResult(op, [], runner, false)
  }

  /** Extends a run of the concurrent system by one step, and says what that does to live capacity. */
  lemma Advance(o: Options, systems: seq<System>, events: seq<SystemEvent>, e: SystemEvent, y: System)
    requires ValidOptions(o) && IsSystemRun(o, systems, events) && systems[0] == InitialSystem(o, [])
    requires SystemStep(o, systems[|events|], e, y)
    ensures IsSystemRun(o, systems + [y], events + [e])
    ensures var s, c := systems[|events|].world.state, Reconciled(Projected(systems[|events|], e));
            !Succeeded(s, c, List) ==> LiveCapacity(y.world.state) == LiveCapacity(s) + LiveChange(s, c)
  {
    hide SystemStep, Step, WorldStep, Succeeded, LiveCapacity, LiveChange, SystemValid;
    var last := systems[|events|];
    var w := Projected(last, e);
    ExtendSystem(o, systems, events, e, y);
    InitialSystemValid(o, []);
    SystemRunKeepsValid(o, systems, events, |events|);
    ValidParts(o, last);
    SystemRefinesWorld(o, last, e, y);
    ProjectStep(o, last.world, w, y.world);
    if w.Control? {
      WorldCreatesAreFresh(o, last.world, w, y.world);
    }
    if !Succeeded(last.world.state, Reconciled(w), List) {
      StepChangesLive(o, last.world.state, Reconciled(w), y.world.state);
    }
  }

  lemma ValidParts(o: Options, y: System)
    requires SystemValid(o, y)
    ensures WorldValid(y.world) && Reconciler.Valid(y.world.state) && TargetsObserved(y.world.state)
  {
  }

  // ---- One runner too many --------------------------------------------------------------------------

  function CreateOf(id: nat): Operation {
    Operation(id, Create, "", 1)
  }

  function FenceOfA(): Operation {
    Operation(2, Fence, "a", 0)
  }

  /** Runner "a" exists and is cached; ops are in flight under these slots, and demand is for target runners. */
  function WithA(
    target: int, nextID: nat, operations: map<nat, Operation>, locks: map<RunnerID, nat>, slots: seq<Slot>): System
  {
    var s := State(map["a" := Runner("a", Ready)], operations, locks, map[], map["a" := 1],
                   {}, {}, false, 1, target, nextID);
    System(World(s, {"a"}, {"a"}, map[], map[]), slots, [], false)
  }

  /** Demand for one job creates runner "a": up to the hand-off. */
  lemma CreateHandedOff() returns (systems: seq<System>, events: seq<SystemEvent>)
    ensures var o := OneRunner();
            && ValidOptions(o) && IsSystemRun(o, systems, events) && systems[0] == InitialSystem(o, [])
            && LiveCapacity(systems[|events|].world.state) == 1
    ensures var o, y := OneRunner(), InitialSystem(OneRunner(), []);
            var recorded := Record(SetDemand(o, InitialState(o, []), Demand(1, 1, [])), CreateOf(1));
            systems[|events|] ==
              y.(slots := [Executing(CreateOf(1)), Waiting], world := InitialWorld(o, []).(state := recorded))
  {
    hide LiveCapacity;
    var o := OneRunner();
    var y0 := InitialSystem(o, []);
    NothingLiveAtFirst(o);
    systems, events := [y0], [];
    var y1 := y0.(slots := [Waiting, Arriving]);
    Advance(o, systems, events, Arrive(0), y1);
    systems, events := systems + [y1], events + [Arrive(0)];
    var y2 := y0.(slots := [Waiting, Waiting]);
    Advance(o, systems, events, Arrive(1), y2);
    systems, events := systems + [y2], events + [Arrive(1)];
    var demanded := SetDemand(o, y0.world.state, Demand(1, 1, []));
    var y3 := y2.(world := y2.world.(state := demanded));
    Advance(o, systems, events, TakeDemand(Demand(1, 1, [])), y3);
    systems, events := systems + [y3], events + [TakeDemand(Demand(1, 1, []))];
    var y4 := y3.(world := y3.world.(state := Record(demanded, CreateOf(1))), slots := [Executing(CreateOf(1)), Waiting]);
    Advance(o, systems, events, Handoff(0, CreateOf(1), 0), y4);
    systems, events := systems + [y4], events + [Handoff(0, CreateOf(1), 0)];
  }

  lemma NothingLiveAtFirst(o: Options)
    ensures LiveCapacity(InitialState(o, [])) == 0
  {
    assert LiveRunners(InitialState(o, [])) == {} && CreateOps(InitialState(o, [])) == {};
  }

  /** The create makes its VM, succeeds and is applied. */
  lemma CreateApplied() returns (systems: seq<System>, events: seq<SystemEvent>)
    ensures var o := OneRunner();
            && ValidOptions(o) && IsSystemRun(o, systems, events) && systems[0] == InitialSystem(o, [])
            && systems[|events|] == WithA(1, 1, map[], map[], [Waiting, Waiting])
            && LiveCapacity(systems[|events|].world.state) == 1
  {
    hide LiveCapacity;
    var o := OneRunner();
    systems, events := CreateHandedOff();
    var y4 := systems[|events|];
    var y5 := y4.(world := y4.world.(vms := {"a"}, used := {"a"}, made := map[1 := "a"]));
    Advance(o, systems, events, Make(0, "a"), y5);
    systems, events := systems + [y5], events + [Make(0, "a")];
    var r := Success(CreateOf(1), Runner("a", Ready));
    var y6 := y5.(world := y5.world.(returned := map[1 := r]), slots := [Sending(r), Waiting]);
    Advance(o, systems, events, Finish(0, r), y6);
    systems, events := systems + [y6], events + [Finish(0, r)];
    var y7 := y6.(slots := [Arriving, Waiting], buffer := [r]);
    Advance(o, systems, events, Enqueue(0), y7);
    systems, events := systems + [y7], events + [Enqueue(0)];
    var y8 := WithA(1, 1, map[], map[], [Arriving, Waiting]);
    Advance(o, systems, events, TakeResult(0), y8);
    systems, events := systems + [y8], events + [TakeResult(0)];
    var y9 := WithA(1, 1, map[], map[], [Waiting, Waiting]);
    Advance(o, systems, events, Arrive(0), y9);
    systems, events := systems + [y9], events + [Arrive(0)];
  }

  /** Then demand drops and "a" is being fenced; it returns, and a replacement is being created beside the fence. */
  lemma ReplacementInFlight() returns (systems: seq<System>, events: seq<SystemEvent>)
    ensures var o := OneRunner();
            && ValidOptions(o) && IsSystemRun(o, systems, events) && systems[0] == InitialSystem(o, [])
            && systems[|events|] == WithA(1, 3, map[2 := FenceOfA(), 3 := CreateOf(3)], map["a" := 2],
                                          [Executing(FenceOfA()), Executing(CreateOf(3))])
            && LiveCapacity(systems[|events|].world.state) == 1
  {
    hide LiveCapacity;
    var o := OneRunner();
    systems, events := CreateApplied();
    var y10 := WithA(0, 1, map[], map[], [Waiting, Waiting]);
    Advance(o, systems, events, TakeDemand(Demand(0, 1, [])), y10);
    systems, events := systems + [y10], events + [TakeDemand(Demand(0, 1, []))];
    var y11 := WithA(0, 2, map[2 := FenceOfA()], map["a" := 2], [Executing(FenceOfA()), Waiting]);
    Advance(o, systems, events, Handoff(0, FenceOfA(), 0), y11);
    systems, events := systems + [y11], events + [Handoff(0, FenceOfA(), 0)];
    var y12 := WithA(1, 2, map[2 := FenceOfA()], map["a" := 2], [Executing(FenceOfA()), Waiting]);
    Advance(o, systems, events, TakeDemand(Demand(1, 1, [])), y12);
    systems, events := systems + [y12], events + [TakeDemand(Demand(1, 1, []))];
    var y13 := WithA(1, 3, map[2 := FenceOfA(), 3 := CreateOf(3)], map["a" := 2],
                     [Executing(FenceOfA()), Executing(CreateOf(3))]);
    Advance(o, systems, events, Handoff(1, CreateOf(3), 0), y13);
    systems, events := systems + [y13], events + [Handoff(1, CreateOf(3), 0)];
  }

  /**
   * MaxRunners is not a hard ceiling on live capacity: while a fence is in flight its runner is not counted, a
   * replacement is created, and when the fence fails both count. Two workers suffice.
   */
  lemma MaxRunnersExceeded() returns (systems: seq<System>, events: seq<SystemEvent>)
    ensures var o := OneRunner();
            && ValidOptions(o) && o.workers == 2 && IsSystemRun(o, systems, events)
            && systems[0] == InitialSystem(o, [])
            && LiveCapacity(systems[|events|].world.state) == 2 > o.maxRunners
  {
    hide LiveCapacity;
    var o := OneRunner();
    systems, events := ReplacementInFlight();
    var y13, r := systems[|events|], Failure(FenceOfA());
    var y14 := y13.(world := y13.world.(returned := map[2 := r]), slots := [Sending(r), Executing(CreateOf(3))]);
    Advance(o, systems, events, Finish(0, r), y14);
    systems, events := systems + [y14], events + [Finish(0, r)];
    var y15 := y14.(slots := [Arriving, Executing(CreateOf(3))], buffer := [r]);
    Advance(o, systems, events, Enqueue(0), y15);
    systems, events := systems + [y15], events + [Enqueue(0)];
    var y16 := y15.(buffer := [], world := y15.world.(state := Settle(o, y15.world.state, r, 0), returned := map[]));
    Advance(o, systems, events, TakeResult(0), y16);
    systems, events := systems + [y16], events + [TakeResult(0)];
  }

  // ---- A cooldown cut short -------------------------------------------------------------------------

  function TwoAtATime(): Options {
    Options(0, 2, 2, 5, 10)
  }

  /** The state for two jobs, with these runners, all of them created in this session. */
  function ForTwo(
    runners: map<RunnerID, Runner>, operations: map<nat, Operation>, failures: map<FailureKey, Cooldown>, stale: bool,
    nextID: nat): State
  {
    State(runners, operations, map[], failures, map id | id in runners :: 1, {}, {}, stale, 1, 2, nextID)
  }

  /**
   * Creates share one cooldown. One that fails while another is in flight is held back only until that other
   * succeeds: here the create scheduled at 3 follows a failure at 0 whose delay is 5.
   */
  lemma CooldownCutShort() returns (states: seq<State>, events: seq<Event>)
    ensures var o, a := TwoAtATime(), Runner("a", Ready);
            && ValidOptions(o) && IsRun(o, states, events) && states[0] == InitialState(o, [])
            && events == [
                 DemandUpdate(Demand(2, 1, [])), Scheduled(CreateOf(1), 0), Scheduled(CreateOf(2), 0),
                 Applied(Failure(CreateOf(1)), 0), Applied(Success(CreateOf(2), a), 1),
                 Scheduled(Operation(3, List, "", 0), 2),
                 Applied(OperationResult(Operation(3, List, "", 0), [a], a, false), 2), Scheduled(CreateOf(4), 3)]
            && events[7].now < events[3].now + FailureDelay(0, o.retryInitial, o.retryMaximum) as int
  {
    hide Step, ForTwo, FailureDelay, InitialState, Failure, Success, CreateOf;
    var o, a, list := TwoAtATime(), Runner("a", Ready), Operation(3, List, "", 0);
    var held := map[FailureKey(Create, "") := Cooldown(5, 5)];
    var s0 := InitialState(o, []);
    var s1 := ForTwo(map[], map[], map[], false, 0);
    var s2 := ForTwo(map[], map[1 := CreateOf(1)], map[], false, 1);
    var s3 := ForTwo(map[], map[1 := CreateOf(1), 2 := CreateOf(2)], map[], false, 2);
    var s4 := ForTwo(map[], map[2 := CreateOf(2)], held, true, 2);
    var s5 := ForTwo(map["a" := a], map[], map[], true, 2);
    var s6 := ForTwo(map["a" := a], map[3 := list], map[], true, 3);
    var s7 := ForTwo(map["a" := a], map[], map[], false, 3);
    var s8 := ForTwo(map["a" := a], map[4 := CreateOf(4)], map[], false, 4);
    StartsForTwo(s0, s1, s2, s3);
    FailsForTwo(s3, s4, s5, s6);
    ListedForTwo(s6, s7, s8);
    InitialDelay(o);
    states, events := [s0], [];
    states, events := Then(o, states, events, DemandUpdate(Demand(2, 1, [])), s1);
    states, events := Then(o, states, events, Scheduled(CreateOf(1), 0), s2);
    states, events := Then(o, states, events, Scheduled(CreateOf(2), 0), s3);
    states, events := Then(o, states, events, Applied(Failure(CreateOf(1)), 0), s4);
    states, events := Then(o, states, events, Applied(Success(CreateOf(2), a), 1), s5);
    states, events := Then(o, states, events, Scheduled(list, 2), s6);
    states, events := Then(o, states, events, Applied(OperationResult(list, [a], a, false), 2), s7);
    states, events := Then(o, states, events, Scheduled(CreateOf(4), 3), s8);
  }

  /** Extends a run of the reconciler by one step. */
  lemma Then(o: Options, states: seq<State>, events: seq<Event>, e: Event, s: State)
    returns (states': seq<State>, events': seq<Event>)
    requires ValidOptions(o) && IsRun(o, states, events) && Step(o, states[|events|], e, s)
    ensures IsRun(o, states', events') && states' == states + [s] && events' == events + [e]
  {
    hide Step;
    states', events' := states + [s], events + [e];
    forall i | 0 <= i < |events'| ensures Step(o, states'[i], events'[i], states'[i + 1]) {
      if i < |events| {
        assert states'[i] == states[i] && states'[i + 1] == states[i + 1];
      }
    }
  }

  lemma InitialDelay(o: Options)
    requires ValidOptions(o)
    ensures FailureDelay(0, o.retryInitial, o.retryMaximum) == o.retryInitial
  {
  }

  lemma FailsForTwo(s3: State, s4: State, s5: State, s6: State)
    requires var a, held := Runner("a", Ready), map[FailureKey(Create, "") := Cooldown(5, 5)];
             && s3 == ForTwo(map[], map[1 := CreateOf(1), 2 := CreateOf(2)], map[], false, 2)
             && s4 == ForTwo(map[], map[2 := CreateOf(2)], held, true, 2)
             && s5 == ForTwo(map["a" := a], map[], map[], true, 2)
             && s6 == ForTwo(map["a" := a], map[3 := Operation(3, List, "", 0)], map[], true, 3)
    ensures Step(TwoAtATime(), s3, Applied(Failure(CreateOf(1)), 0), s4)
    ensures Step(TwoAtATime(), s4, Applied(Success(CreateOf(2), Runner("a", Ready)), 1), s5)
    ensures Step(TwoAtATime(), s5, Scheduled(Operation(3, List, "", 0), 2), s6)
  {
  }

  lemma StartsForTwo(s0: State, s1: State, s2: State, s3: State)
    requires s0 == InitialState(TwoAtATime(), [])
    requires s1 == ForTwo(map[], map[], map[], false, 0)
    requires s2 == ForTwo(map[], map[1 := CreateOf(1)], map[], false, 1)
    requires s3 == ForTwo(map[], map[1 := CreateOf(1), 2 := CreateOf(2)], map[], false, 2)
    ensures Step(TwoAtATime(), s0, DemandUpdate(Demand(2, 1, [])), s1)
    ensures Step(TwoAtATime(), s1, Scheduled(CreateOf(1), 0), s2)
    ensures Step(TwoAtATime(), s2, Scheduled(CreateOf(2), 0), s3)
  {
    assert LiveRunners(s1) == LiveRunners(s2) == {};
    assert CreateOps(s1) == {} && CreateOps(s2) == {1};
  }

  lemma ListedForTwo(s6: State, s7: State, s8: State)
    requires s6 == ForTwo(map["a" := Runner("a", Ready)], map[3 := Operation(3, List, "", 0)], map[], true, 3)
    requires s7 == ForTwo(map["a" := Runner("a", Ready)], map[], map[], false, 3)
    requires s8 == ForTwo(map["a" := Runner("a", Ready)], map[4 := CreateOf(4)], map[], false, 4)
    ensures var a, list := Runner("a", Ready), Operation(3, List, "", 0);
            Step(TwoAtATime(), s6, Applied(OperationResult(list, [a], a, false), 2), s7)
    ensures Step(TwoAtATime(), s7, Scheduled(CreateOf(4), 3), s8)
  {
    var a := Runner("a", Ready);
    assert [a][..0] == [];
    assert InventoryOf([a]) == map["a" := a];
    assert LiveRunners(s7) == {"a"} && CreateOps(s7) == {};
  }

  // ---- A worker that never leaves -------------------------------------------------------------------

  function OneWorker(): Options {
    Options(0, 2, 1, 1, 1)
  }

  /** Of two creates, the first has returned and its result lies unread in the buffer of one; the second runs. */
  lemma ResultUnread() returns (systems: seq<System>, events: seq<SystemEvent>)
    ensures var o := OneWorker();
            && ValidOptions(o) && IsSystemRun(o, systems, events) && systems[0] == InitialSystem(o, [])
            && var last := systems[|events|];
               !last.closed && last.slots == [Executing(Operation(2, Create, "", 1))] && |last.buffer| == 1
  {
    hide Step, Record, SetDemand;
    var o := OneWorker();
    var y0 := InitialSystem(o, []);
    var s0 := y0.world.state;
    assert LiveRunners(s0) == {} && CreateOps(s0) == {};
    var first, second := Operation(1, Create, "", 1), Operation(2, Create, "", 1);
    var s1 := SetDemand(o, s0, Demand(2, 1, []));
    var s2, s4 := Record(s1, first), Record(Record(s1, first), second);
    TwoCreates(o, s0, s1, first, second);
    var y0' := y0.(slots := [Waiting]);
    var y1 := y0'.(world := y0.world.(state := s1));
    var y2 := y1.(world := y1.world.(state := s2), slots := [Executing(first)]);
    var y3 := y2.(world := y2.world.(returned := map[1 := Failure(first)]), slots := [Sending(Failure(first))]);
    var y4 := y3.(slots := [Arriving], buffer := [Failure(first)]);
    var y4' := y4.(slots := [Waiting]);
    var y5 := y4'.(world := y4.world.(state := s4), slots := [Executing(second)]);
    systems := [y0, y0', y1, y2, y3, y4, y4', y5];
    events := [Arrive(0), TakeDemand(Demand(2, 1, [])), Handoff(0, first, 0), Finish(0, Failure(first)), Enqueue(0),
               Arrive(0), Handoff(0, second, 0)];
    assert SystemStep(o, y0, events[0], y0');
    assert SystemStep(o, y0', events[1], y1);
    assert SystemStep(o, y1, events[2], y2);
    assert SystemStep(o, y2, events[3], y3);
    assert SystemStep(o, y3, events[4], y4);
    assert SystemStep(o, y4, events[5], y4');
    assert SystemStep(o, y4', events[6], y5);
  }

  /**
   * Workers do not always drain at shutdown: with one result unread in the buffer of one, the operation
   * handed off before Done blocks its worker forever.
   */
  lemma ShutdownCanStick() returns (systems: seq<System>, events: seq<SystemEvent>)
    ensures var o := OneWorker();
            && ValidOptions(o) && IsSystemRun(o, systems, events) && systems[0] == InitialSystem(o, [])
            && var last := systems[|events|];
               last.closed && Stuck(o, last) && !AllExited(last)
  {
    var o := OneWorker();
    systems, events := ResultUnread();
    var failure := Failure(Operation(2, Create, "", 1));
    var y := systems[|events|];
    var y' := y.(closed := true);
    var y'' := y'.(world := y'.world.(returned := y'.world.returned[2 := failure]), slots := [Sending(failure)]);
    ExtendSystem(o, systems, events, Shutdown, y');
    systems, events := systems + [y'], events + [Shutdown];
    ExtendSystem(o, systems, events, Finish(0, failure), y'');
    systems, events := systems + [y''], events + [Finish(0, failure)];
    assert systems[|events|] == y'';
    assert y''.slots[0].Sending?;
  }

  lemma ExtendSystem(o: Options, systems: seq<System>, events: seq<SystemEvent>, e: SystemEvent, y: System)
    requires ValidOptions(o) && IsSystemRun(o, systems, events) && SystemStep(o, systems[|events|], e, y)
    ensures IsSystemRun(o, systems + [y], events + [e])
  {
    hide SystemStep;
    var systems', events' := systems + [y], events + [e];
    forall i | 0 <= i < |events'| ensures SystemStep(o, systems'[i], events'[i], systems'[i + 1]) {
      if i < |events| {
        assert systems'[i] == systems[i] && systems'[i + 1] == systems[i + 1];
      }
    }
  }

  lemma TwoCreates(o: Options, s0: State, s1: State, first: Operation, second: Operation)
    requires o == OneWorker() && s0 == InitialState(o, []) && s1 == SetDemand(o, s0, Demand(2, 1, []))
    requires first == Operation(1, Create, "", 1) && second == Operation(2, Create, "", 1)
    requires LiveRunners(s0) == {} && CreateOps(s0) == {}
    ensures ValidOptions(o) && Step(o, s1, Scheduled(first, 0), Record(s1, first))
    ensures Step(o, Record(s1, first), Scheduled(second, 0), Record(Record(s1, first), second))
  {
    InitialValid(o, []);
    assert LiveRunners(s1) == {} && CreateOps(s1) == {};
    ScheduleChangesLive(s1, first);
  }
}
