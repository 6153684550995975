/** reconcileState: the single owner of desired and observed capacity, updated in place. */
module ReconcileLoop {
  import opened Wrappers
  import opened GoInt
  import opened ControllerTypes
  import opened Backoff
  import opened Reconciler
  import opened Invariant
  import opened Capacity
  import opened Convergence
  import opened MainLoop
  import opened Pool
  import opened Workers

  /** validatedInventory: the snapshot as a map, or an error if any runner is invalid. */
  method ValidatedInventory(runners: seq<Runner>) returns (r: Result<map<RunnerID, Runner>>)
    ensures r.Ok? <==> AllValid(runners)
    ensures r.Ok? ==> r.value == InventoryOf(runners)
  {
    var inventory: map<RunnerID, Runner> := map[];
    for i := 0 to |runners|
      invariant AllValid(runners[..i])
      invariant inventory == InventoryOf(runners[..i])
    {
      if !ValidRunner(runners[i]) {
        assert runners[i] in runners;
        return Err;
      }
      assert runners[..i + 1][..i] == runners[..i];
      inventory := inventory[runners[i].id := runners[i]];
    }
    assert runners[..|runners|] == runners;
    return Ok(inventory);
  }

  class ReconcileState {
    const options: Options
    var runners: map<RunnerID, Runner>
    var operations: map<nat, Operation>
    var runnerOps: map<RunnerID, nat>
    var failures: map<FailureKey, Cooldown>
    var created: map<RunnerID, nat>
    var busyRunners: set<RunnerID>
    var fencedRunners: set<RunnerID>
    var inventoryStale: bool
    var generation: nat
    var target: int
    var nextID: nat

    ghost function Model(): State
      reads this
    {
      State(runners, operations, runnerOps, failures, created, busyRunners, fencedRunners,
            inventoryStale, generation, target, nextID)
    }

    constructor (options: Options, inventory: map<RunnerID, Runner>)
      ensures this.options == options
      ensures Model() == State(inventory, map[], map[], map[], map[], {}, {}, false, 0, options.minRunners, 0)
    {
      this.options := options;
      runners, operations, runnerOps, failures, created := inventory, map[], map[], map[], map[];
      busyRunners, fencedRunners, inventoryStale := {}, {}, false;
      generation, target, nextID := 0, options.minRunners, 0;
    }

    method SetDemand(demand: Demand)
      modifies this
      ensures Model() == Reconciler.SetDemand(options, old(Model()), demand)
      ensures ValidOptions(options) ==> TargetFor(options, demand.assignedJobs, target)
      ensures generation == demand.generation && forall id :: id in busyRunners <==> id in demand.busyRunners && id != ""
      ensures Model() == old(Model()).(generation := generation, busy := busyRunners, target := target)
    {
      if ValidOptions(options) {
        BoundedIsTargetFor(options, demand.assignedJobs);
      }
      var assignedJobs := Max(demand.assignedJobs, 0);
      generation := demand.generation;
      var busy: set<RunnerID> := {};
      for i := 0 to |demand.busyRunners|
        invariant busy == NonEmpty(demand.busyRunners[..i])
      {
        if demand.busyRunners[i] != "" {
          busy := busy + {demand.busyRunners[i]};
        }
      }
      assert demand.busyRunners[..|demand.busyRunners|] == demand.busyRunners;
      busyRunners := busy;
      target := Min(options.maxRunners, Wrap(options.minRunners + assignedJobs));
    }

    /** inventorying: whether a list is in flight. */
    method IsInventorying() returns (listing: bool)
      ensures listing == Inventorying(Model())
    {
      listing := false;
      var pending := operations.Keys;
      while pending != {}
        invariant pending <= operations.Keys
        invariant listing <==> exists k | k in operations.Keys - pending :: operations[k].kind.List?
      {
        var k :| k in pending;
        pending := pending - {k};
        if operations[k].kind.List? {
          return true;
        }
      }
    }

    /** liveCapacity: usable runners plus creates in flight, counted entry by entry. */
    method CountLiveCapacity() returns (live: nat)
      ensures live == LiveCapacity(Model())
    {
      live := 0;
      var pending := runners.Keys;
      ghost var counted: set<RunnerID> := {};
      while pending != {}
        invariant pending <= runners.Keys && pending !! counted
        invariant counted == (set id | id in LiveRunners(Model()) && id !in pending)
        invariant live == |counted|
      {
        var id :| id in pending;
        pending := pending - {id};
        if id in runnerOps || id in fencedRunners {
          continue;
        }
        if !runners[id].state.Terminal? {
          live := live + 1;
          counted := counted + {id};
        }
      }
      assert counted == LiveRunners(Model());
      var remaining := operations.Keys;
      ghost var creating: set<nat> := {};
      while remaining != {}
        invariant remaining <= operations.Keys && remaining !! creating
        invariant creating == (set k | k in CreateOps(Model()) && k !in remaining)
        invariant live == |LiveRunners(Model())| + |creating|
      {
        var k :| k in remaining;
        remaining := remaining - {k};
        if operations[k].kind.Create? {
          live := live + 1;
          creating := creating + {k};
        }
      }
      assert creating == CreateOps(Model());
    }

    /** idleRunner: some scale-down candidate, in map iteration order, if there is one. */
    method FindIdleRunner() returns (r: Option<RunnerID>)
      ensures r.Some? ==> IdleCandidate(Model(), r.value)
      ensures r.None? ==> forall id :: !IdleCandidate(Model(), id)
      // In the source's terms: idle or ready, not busy, of this generation, not fenced and with no operation on it.
      ensures r.Some? ==>
                && r.value in runners && (runners[r.value].state.Idle? || runners[r.value].state.Ready?)
                && r.value !in busyRunners && r.value in created && created[r.value] == generation
                && r.value !in fencedRunners && r.value !in runnerOps
      ensures r.None? ==>
                forall id | id in runners && id in created && (runners[id].state.Idle? || runners[id].state.Ready?) ::
                  id in busyRunners || created[id] != generation || id in fencedRunners || id in runnerOps
    {
      var pending := runners.Keys;
      while pending != {}
        invariant pending <= runners.Keys
        invariant forall id | id in runners.Keys - pending :: !IdleCandidate(Model(), id)
      {
        var id :| id in pending;
        pending := pending - {id};
        if !runners[id].state.Idle? && !runners[id].state.Ready? {
          continue;
        }
        if id in busyRunners {
          continue;
        }
        if id !in created || created[id] != generation {
          continue;
        }
        if id in fencedRunners {
          continue;
        }
        if id !in runnerOps {
          return Some(id);
        }
      }
      forall id | id in runners && id in created && (runners[id].state.Idle? || runners[id].state.Ready?)
        ensures id in busyRunners || created[id] != generation || id in fencedRunners || id in runnerOps
      {
        assert !IdleCandidate(Model(), id);
      }
      return None;
    }

    /** The select of trySchedule: an ID is spent, and item recorded only if a waiting worker takes it. */
    method Dispatch(work: WorkerPool, item: Operation, ghost now: int) returns (ok: bool)
      requires ValidOptions(options) && work.options == options && !work.closed
      requires Wanted(Model(), item) && Attemptable(Model(), item, now) && Matches(work.position, item)
      modifies this`operations, this`runnerOps, this`nextID, work`slots, work`position
      ensures Reaches(options, old(work.View(Model())), work.View(Model()))
      ensures work.position == AfterTry(old(work.position), item, ok, Model())
      ensures nextID == old(nextID) + 1 && (ok <==> !old(NoneWaiting(work.slots)))
      ensures !ok ==> work.slots == old(work.slots)
      ensures ok ==> Model() == Record(old(Model()), item.(id := nextID))
      ensures !ok ==> Model() == old(Model()).(nextID := nextID)
    {
      hide Step, Reaches, Wanted, Attemptable, Entry;
      ghost var before := work.View(Model());
      nextID := nextID + 1;
      var numbered := item.(id := nextID);
      ghost var slot;
      ok, slot := work.TrySend(numbered);
      if ok {
        operations := operations[numbered.id := numbered];
        if item.runnerID != "" {
          runnerOps := runnerOps[item.runnerID := numbered.id];
        }
      }
      work.position := AfterTry(work.position, item, ok, Model());
      if ok {
        HandoffReaches(options, before, slot, item, now);
        assert work.View(Model()) == HandedOff(before, slot, numbered);
      } else {
        RefusalReaches(options, before, item, now);
        assert work.View(Model()) == TurnedAway(before, numbered);
      }
    }

    /** trySchedule: schedules item unless it is cooling down, its runner is locked or no worker is waiting. */
    method TrySchedule(work: WorkerPool, clock: Clock, item: Operation) returns (ok: bool)
      requires ValidOptions(options) && work.options == options && !work.closed
      requires Wanted(Model(), item) && Matches(work.position, item)
      modifies this`operations, this`runnerOps, this`nextID, work, clock
      ensures clock.now >= old(clock.now) && !work.closed
      ensures Reaches(options, old(work.View(Model())), work.View(Model()))
      ensures work.position == AfterTry(old(work.position), item, ok, Model())
      ensures ok ==> nextID == old(nextID) + 1 && Model() == Record(old(Model()), item.(id := nextID))
      ensures !ok ==> Model() == old(Model()).(nextID := nextID)
      // A worker waiting at the channel is never passed over.
      ensures !ok && nextID != old(nextID) ==> NoneWaiting(work.slots)
      // An ID is spent exactly when the channel is tried: not cooling down, and the runner not locked.
      ensures nextID == old(nextID) + (if Attemptable(old(Model()), item, clock.now) then 1 else 0)
    {
      hide Step, Reaches, Wanted, Entry;
      ghost var before := work.View(Model());
      work.Interleave(Model());
      ghost var settled := work.View(Model());
      var now := clock.Now();
      var key := FailureKey(item.kind, item.runnerID);
      if (key in failures && now < failures[key].retryAt) || (item.runnerID != "" && item.runnerID in runnerOps) {
        work.position := AfterTry(work.position, item, false, Model());
        BlockedReaches(options, settled, item, now);
        ReachesTransitive(options, before, settled, work.View(Model()));
        return false;
      }
      ok := Dispatch(work, item, now);
      ReachesTransitive(options, before, settled, work.View(Model()));
    }

    /** refresh: a new inventory, once nothing is in flight. */
    method Refresh(work: WorkerPool, clock: Clock)
      requires ValidOptions(options) && work.options == options && !work.closed && work.position.Refreshing?
      modifies this`operations, this`runnerOps, this`nextID, work, clock
      ensures clock.now >= old(clock.now) && !work.closed && work.position == Entry(Model())
      ensures Reaches(options, old(work.View(Model())), work.View(Model()))
      ensures Refreshed(old(Model()), Model(), clock.now, NoneWaiting(work.slots))
    {
      hide Reaches, Entry;
      if |operations| != 0 {
        ghost var before := work.View(Model());
        work.position := Entry(Model());
        assert PhaseOver(before.system.world.state, Refreshing);
        ReachesStep(options, before, NextPhase, work.View(Model()));
        return;
      }
      assert operations == map[];
      var ok := TrySchedule(work, clock, Operation(0, List, "", 0));
    }

    /**
     * reconcile: deletes terminal runners, then creates up to target or fences down to it. Live capacity moves
     * toward target without crossing it. It leaves no create or fence to do but what is cooling down, or else no
     * worker is waiting; and if every operation tried was taken, no delete either.
     */
    method Reconcile(work: WorkerPool, clock: Clock)
      requires ValidOptions(options) && work.options == options && !work.closed && Valid(Model())
      requires work.position == Entry(Model())
      modifies this`operations, this`runnerOps, this`nextID, work, clock
      ensures clock.now >= old(clock.now) && !work.closed && work.position.Selecting?
      ensures Reaches(options, old(work.View(Model())), work.View(Model()))
      ensures Passed(old(Model()), Model(), old(clock.now), NoneWaiting(work.slots))
      // A terminal runner left over is cooling down, or found no worker waiting.
      ensures Settled(old(Model())) ==>
                LeftOver(options, old(Model()), old(clock.now), old(work.View(Model())), work.View(Model()), {})
    {
      hide Reaches, LiveCapacity, Reconciler.Valid, Cooling, LeftOver, UnscheduledTerminals, ScalingDone, TerminalsDone;
      ReachesSelf(options, work.View(Model()));
      var listing := IsInventorying();
      if inventoryStale || listing {
        return;
      }
      ghost var start, s0 := Model(), work.View(Model());
      ghost var first := clock.now;
      ScheduleTerminals(work, clock, start);
      ghost var s1 := work.View(Model());
      var live := ScaleUp(work, clock, start, first);
      ghost var s2 := work.View(Model());
      ReachesTransitive(options, s0, s1, s2);
      ScaleDown(work, clock, start, first, live);
      ReachesTransitive(options, s0, s2, work.View(Model()));
      ReachesTransitive(options, s1, s2, work.View(Model()));
      LeftOverLater(options, start, first, s0, s1, work.View(Model()), {});
    }

    /** The first loop of reconcile: a delete for every terminal runner, in map iteration order. */
    method ScheduleTerminals(work: WorkerPool, clock: Clock, ghost start: State)
      requires ValidOptions(options) && work.options == options && !work.closed
      requires start == Model() && Valid(start) && Settled(start) && work.position == Deleting(start.runners.Keys)
      modifies this`operations, this`runnerOps, this`nextID, work, clock
      ensures clock.now >= old(clock.now) && !work.closed && work.position.Creating?
      ensures Reaches(options, old(work.View(Model())), work.View(Model()))
      ensures InPass(start, Model()) && LiveCapacity(Model()) == LiveCapacity(start)
      ensures AllAccepted(start, Model()) ==> TerminalsDone(start, Model(), old(clock.now))
      ensures LeftOver(options, start, old(clock.now), old(work.View(Model())), work.View(Model()), {})
    {
      hide Reaches, SoFar, Reconciler.Valid, Settled, LiveCapacity, LeftOver, TerminalsDone, InPass, AllAccepted;
      ghost var s0, first := work.View(Model()), clock.now;
      var pending := runners.Keys;
      PassBegins(options, start, first, s0);
      while pending != {}
        invariant pending <= runners.Keys && clock.now >= first && !work.closed && work.position == Deleting(pending)
        invariant SoFar(options, start, first, s0, work.View(Model()), pending)
      {
        var id :| id in pending;
        ghost var before := work.View(Model());
        SoFarInPass(options, start, first, s0, before, pending);
        ComeTo(work, clock, id, start, first);
        SoFarMore(options, start, first, s0, before, work.View(Model()), pending, id);
        pending := pending - {id};
      }
      ghost var before := work.View(Model());
      work.position := Creating;
      FirstLoopOver(options, start, first, s0, before, work.View(Model()));
    }

    /** One iteration of the first loop: a delete if the runner is terminal. */
    method ComeTo(work: WorkerPool, clock: Clock, id: RunnerID, ghost start: State, ghost first: int)
      requires ValidOptions(options) && work.options == options && !work.closed && clock.now >= first
      requires InPass(start, Model()) && id in runners && work.position.Deleting? && id in work.position.pending
      modifies this`operations, this`runnerOps, this`nextID, work, clock
      ensures clock.now >= old(clock.now) && !work.closed
      ensures work.position == Deleting(old(work.position.pending) - {id})
      ensures Reaches(options, old(work.View(Model())), work.View(Model()))
      ensures InPass(start, Model()) && LiveCapacity(Model()) == old(LiveCapacity(Model()))
      ensures AllAccepted(start, Model()) ==> AllAccepted(start, old(Model()))
      ensures UnscheduledTerminals(Model()) <= old(UnscheduledTerminals(Model()))
      ensures AllAccepted(start, Model()) && id in UnscheduledTerminals(Model()) ==> Cooling(start, Delete, id, first)
      ensures id in UnscheduledTerminals(Model()) ==> Cooling(start, Delete, id, first) || NoneWaiting(work.slots)
    {
      hide Reaches, LiveCapacity, Reconciler.Valid, Cooling;
      ghost var s := Model();
      if runners[id].state.Terminal? {
        IDsNonEmpty(s);
        var item := Operation(0, Delete, id, 0);
        var ok := TrySchedule(work, clock, item);
        PassStep(start, s, item, Model(), ok, clock.now, first);
        DeletePassStep(start, s, item, Model(), ok, clock.now, first);
      } else {
        ghost var before := work.View(Model());
        work.position := Deleting(work.position.pending - {id});
        ReachesStep(options, before, LoopEvent.Skip(id), work.View(Model()));
      }
    }

    /** One trySchedule of the second or third loop. */
    method Try(work: WorkerPool, clock: Clock, item: Operation, ghost start: State, ghost first: int) returns (ok: bool)
      requires ValidOptions(options) && work.options == options && !work.closed && clock.now >= first
      requires InPass(start, Model()) && Wanted(Model(), item) && !item.kind.List? && Matches(work.position, item)
      requires item.runnerID !in runnerOps
      modifies this`operations, this`runnerOps, this`nextID, work, clock
      ensures clock.now >= old(clock.now) && !work.closed
      ensures Reaches(options, old(work.View(Model())), work.View(Model()))
      ensures work.position == AfterTry(old(work.position), item, ok, Model())
      ensures InPass(start, Model()) && LiveCapacity(Model()) == old(LiveCapacity(Model())) + LiveEffect(item, ok)
      ensures UnscheduledTerminals(Model()) <= old(UnscheduledTerminals(Model()))
      ensures AllAccepted(start, Model()) ==> AllAccepted(start, old(Model()))
      ensures !ok ==> Model() == old(Model()).(nextID := nextID)
      ensures !ok ==> Cooling(start, item.kind, item.runnerID, first) || NoneWaiting(work.slots)
      ensures !ok && AllAccepted(start, Model()) ==> Cooling(start, item.kind, item.runnerID, first)
    {
      hide Reaches, LiveCapacity, Cooling, Wanted, UnscheduledTerminals, AfterTry;
      ghost var s := Model();
      ok := TrySchedule(work, clock, item);
      PassStep(start, s, item, Model(), ok, clock.now, first);
    }

    /** The second loop of reconcile; the local count it returns is live capacity recomputed. */
    method ScaleUp(work: WorkerPool, clock: Clock, ghost start: State, ghost first: int) returns (live: nat)
      requires ValidOptions(options) && work.options == options && !work.closed
      requires InPass(start, Model()) && LiveCapacity(Model()) == LiveCapacity(start) && work.position.Creating?
      requires clock.now >= first && (AllAccepted(start, Model()) ==> TerminalsDone(start, Model(), first))
      modifies this`operations, this`runnerOps, this`nextID, work, clock
      ensures clock.now >= old(clock.now) && !work.closed && work.position.Fencing?
      ensures Reaches(options, old(work.View(Model())), work.View(Model()))
      ensures InPass(start, Model()) && live == LiveCapacity(Model())
      ensures if LiveCapacity(start) < target then LiveCapacity(start) <= live <= target else live == LiveCapacity(start)
      ensures AllAccepted(start, Model()) ==> TerminalsDone(start, Model(), first)
      ensures AllAccepted(start, Model()) ==> live >= target || Cooling(start, Create, "", first)
      ensures live >= target || Cooling(start, Create, "", first) || NoneWaiting(work.slots)
      ensures UnscheduledTerminals(Model()) <= old(UnscheduledTerminals(Model()))
    {
      hide Reaches, LiveCapacity, Reconciler.Valid, Settled, Cooling, FoundNoWorker, Wanted, UnscheduledTerminals, Entry;
      ghost var s0, entered := work.View(Model()), clock.now;
      ReachesSelf(options, s0);
      live := CountLiveCapacity();
      ghost var broken := false;
      while live < target
        invariant !broken
        invariant clock.now >= entered && !work.closed && work.position.Creating?
        invariant Reaches(options, s0, work.View(Model()))
        invariant UnscheduledTerminals(Model()) <= old(UnscheduledTerminals(Model()))
        invariant InPass(start, Model()) && live == LiveCapacity(Model())
        invariant if LiveCapacity(start) < target then LiveCapacity(start) <= live <= target else live == LiveCapacity(start)
        invariant AllAccepted(start, Model()) ==> TerminalsDone(start, Model(), first)
        decreases target - live
      {
        ghost var s, before := Model(), work.View(Model());
        var item := Operation(0, Create, "", generation);
        CreateWanted(s, item);
        IDsNonEmpty(s);
        var ok := Try(work, clock, item, start, first);
        ReachesTransitive(options, s0, before, work.View(Model()));
        if !ok {
          broken := true;
          break;
        }
        live := live + 1;
      }
      if !broken {
        ghost var before := work.View(Model());
        work.position := Fencing;
        ReachesThen(options, s0, before, NextPhase, work.View(Model()));
      }
    }

    /** The third loop of reconcile. */
    method ScaleDown(work: WorkerPool, clock: Clock, ghost start: State, ghost first: int, counted: nat)
      requires ValidOptions(options) && work.options == options && !work.closed
      requires InPass(start, Model()) && counted == LiveCapacity(Model()) && work.position.Fencing?
      requires Between(LiveCapacity(start), counted, target)
      requires clock.now >= first && (AllAccepted(start, Model()) ==> TerminalsDone(start, Model(), first))
      requires AllAccepted(start, Model()) ==> counted >= target || Cooling(start, Create, "", first)
      requires counted >= target || Cooling(start, Create, "", first) || NoneWaiting(work.slots)
      modifies this`operations, this`runnerOps, this`nextID, work, clock
      ensures clock.now >= old(clock.now) && !work.closed && work.position.Selecting?
      ensures Reaches(options, old(work.View(Model())), work.View(Model()))
      ensures InPass(start, Model())
      ensures Between(LiveCapacity(start), LiveCapacity(Model()), target)
      ensures AllAccepted(start, Model()) ==> Exhausted(start, Model(), first)
      ensures ScalingDone(start, Model(), first) || NoneWaiting(work.slots)
      ensures UnscheduledTerminals(Model()) <= old(UnscheduledTerminals(Model()))
    {
      hide Reaches, LiveCapacity, Reconciler.Valid, Settled, Cooling, FoundNoWorker, Wanted, UnscheduledTerminals, Entry;
      ghost var s0, entered := work.View(Model()), clock.now;
      ReachesSelf(options, s0);
      var live: int := counted;
      ghost var broken := false;
      while live > target
        invariant !broken
        invariant clock.now >= entered && !work.closed && work.position.Fencing?
        invariant Reaches(options, s0, work.View(Model()))
        invariant UnscheduledTerminals(Model()) <= old(UnscheduledTerminals(Model()))
        invariant InPass(start, Model()) && live == LiveCapacity(Model())
        invariant Between(LiveCapacity(start), live, target)
        invariant AllAccepted(start, Model()) ==> TerminalsDone(start, Model(), first)
        invariant AllAccepted(start, Model()) ==> live >= target || Cooling(start, Create, "", first)
        invariant live >= target || Cooling(start, Create, "", first) || NoneWaiting(work.slots)
        decreases live - target
      {
        var candidate := FindIdleRunner();
        if candidate.None? {
          break;
        }
        ghost var s, before := Model(), work.View(Model());
        var item := Operation(0, Fence, candidate.value, 0);
        FenceWanted(s, item);
        var ok := Try(work, clock, item, start, first);
        ReachesTransitive(options, s0, before, work.View(Model()));
        if !ok {
          broken := true;
          break;
        }
        live := live - 1;
      }
      if !broken {
        ghost var before := work.View(Model());
        work.position := Selecting;
        ReachesThen(options, s0, before, NextPhase, work.View(Model()));
      }
    }

    /** recordFailure: a longer cooldown for this operation's key, and no mutation before a fresh inventory. */
    method RecordFailure(item: Operation, clock: Clock)
      requires ValidOptions(options)
      modifies this`failures, this`inventoryStale, clock
      ensures clock.now >= old(clock.now)
      ensures Model() == Reconciler.RecordFailure(options, old(Model()), item, clock.now)
      ensures var key := FailureKey(item.kind, item.runnerID);
              && key in failures && failures[key].retryAt == clock.now + failures[key].delay as int
              && failures == old(failures)[key := failures[key]] && inventoryStale
    {
      var key := KeyFor(item);
      var previous: Duration := if key in failures then failures[key].delay else 0;
      var delay := NextFailureDelay(previous, options.retryInitial, options.retryMaximum);
      var now := clock.Now();
      failures := failures[key := Cooldown(delay, now + delay as int)];
      inventoryStale := true;
    }

    /** pruneRunnerKnowledge: drops create authority and fences of runners absent from the snapshot. */
    method PruneRunnerKnowledge(inventory: map<RunnerID, Runner>)
      modifies this`created, this`fencedRunners
      ensures created == map id | id in old(created) && id in inventory :: old(created)[id]
      ensures fencedRunners == set id | id in old(fencedRunners) && id in inventory
    {
      var pending := created.Keys;
      while pending != {}
        invariant pending <= created.Keys <= old(created).Keys && fencedRunners == old(fencedRunners)
        invariant created == map id | id in old(created) && (id in inventory || id in pending) :: old(created)[id]
      {
        var id :| id in pending;
        pending := pending - {id};
        if id !in inventory {
          created := created - {id};
        }
      }
      ghost var kept := created;
      var remaining := fencedRunners;
      while remaining != {}
        invariant remaining <= fencedRunners && created == kept
        invariant fencedRunners == set id | id in old(fencedRunners) && (id in inventory || id in remaining)
      {
        var id :| id in remaining;
        remaining := remaining - {id};
        if id !in inventory {
          fencedRunners := fencedRunners - {id};
        }
      }
    }

    /** apply: consumes a result once; an unknown one changes nothing. */
    method Apply(result: OperationResult, clock: Clock) returns (changed: bool)
      requires ValidOptions(options) && OperationsNumbered(Model())
      modifies this, clock
      ensures clock.now >= old(clock.now)
      ensures Model() == Pool.Apply(options, old(Model()), result, clock.now)
      ensures changed <==> result.operation.id in old(operations)
                           && Succeeds(old(operations)[result.operation.id], result)
    {
      if result.operation.id !in operations {
        return false;
      }
      ghost var before := Model();
      var item := operations[result.operation.id];
      operations := operations - {item.id};
      if item.runnerID != "" {
        runnerOps := runnerOps - {item.runnerID};
      }
      assert Model() == Release(before, item);
      if result.failed {
        RecordFailure(item, clock);
        return false;
      }
      changed := Observe(item, result);
      if changed {
        failures := failures - {KeyFor(item)};
      } else {
        RecordFailure(item, clock);
      }
    }

    /** The kind-specific part of apply; false when what the backend returned is invalid. */
    method Observe(item: Operation, result: OperationResult) returns (valid: bool)
      requires !result.failed
      modifies this`runners, this`created, this`fencedRunners, this`inventoryStale, this`busyRunners
      ensures valid <==> Succeeds(item, result)
      ensures Model() == if valid then Reconciler.Observe(old(Model()), item, result) else old(Model())
    {
      match item.kind {
        case List =>
          var inventory := ValidatedInventory(result.runners);
          if inventory.Err? {
            return false;
          }
          runners := inventory.value;
          PruneRunnerKnowledge(inventory.value);
          inventoryStale := false;
        case Create =>
          if !ValidRunner(result.runner) {
            return false;
          }
          runners := runners[result.runner.id := result.runner];
          created := created[result.runner.id := item.generation];
        case Fence =>
          fencedRunners := fencedRunners + {item.runnerID};
        case Delete =>
          runners := runners - {item.runnerID};
          created := created - {item.runnerID};
          busyRunners := busyRunners - {item.runnerID};
          fencedRunners := fencedRunners - {item.runnerID};
      }
      return true;
    }
  }

  // ---- Facts about one pass of reconcile ------------------------------------------------------------

  /** Only scheduling has happened since start, and it spent at least one ID per operation recorded. */
  ghost predicate InPass(start: State, s: State) {
    && s == start.(operations := s.operations, runnerOps := s.runnerOps, nextID := s.nextID)
    && Reconciler.Valid(s) && Settled(s)
    && 0 <= |s.operations| - |start.operations| <= s.nextID - start.nextID
    && start.runnerOps.Keys <= s.runnerOps.Keys
  }

  /** Every operation tried since start found a waiting worker. */
  predicate AllAccepted(start: State, s: State) {
    |s.operations| - |start.operations| == s.nextID - start.nextID
  }

  /** x has moved from start toward target, or stayed, and has not crossed it. */
  predicate Between(start: int, x: int, target: int) {
    (start <= x <= target) || (target <= x <= start) || x == start
  }

  /** Operations of this kind on this runner were cooling down at now. */
  predicate Cooling(start: State, kind: OperationKind, id: RunnerID, now: int) {
    RetryBlocked(start, Operation(0, kind, id, 0), now)
  }

  predicate TerminalsDone(start: State, s: State, now: int) {
    forall id | id in UnscheduledTerminals(s) :: Cooling(start, Delete, id, now)
  }

  /** Whatever is left to create or fence in s is cooling down. The first candidate found cooling ends the fencing. */
  ghost predicate ScalingDone(start: State, s: State, now: int) {
    && (LiveCapacity(s) < s.target ==> Cooling(start, Create, "", now))
    && (LiveCapacity(s) > s.target ==>
          (forall id :: !IdleCandidate(s, id)) || (exists id :: IdleCandidate(s, id) && Cooling(start, Fence, id, now)))
  }

  ghost predicate Exhausted(start: State, s: State, now: int) {
    TerminalsDone(start, s, now) && ScalingDone(start, s, now)
  }

  /** With nothing cooling down, a pass whose operations were all taken leaves exactly a converged state. */
  lemma ExhaustedMeansConverged(start: State, s: State, now: int)
    requires InPass(start, s) && CooledDown(start, now)
    ensures Exhausted(start, s, now) <==> Converged(s)
  {
  }

  /** What one reconcile pass from start, begun at now, may leave behind; full: no worker is waiting at its end. */
  ghost predicate Passed(start: State, s: State, now: int, full: bool) {
    && (!Settled(start) ==> s == start)
    && (Settled(start) ==>
          && InPass(start, s) && Between(LiveCapacity(start), LiveCapacity(s), start.target)
          && (AllAccepted(start, s) ==> Exhausted(start, s, now))
          && (full || ScalingDone(start, s, now)))
  }

  lemma PassedKeepsDemand(start: State, s: State, now: int, full: bool)
    requires Passed(start, s, now, full)
    ensures s.target == start.target && s.generation == start.generation && s.runners == start.runners
  {
  }

  /**
   * refresh at now: a list is tried exactly when nothing is in flight and no list failure is cooling down, and fails
   * only where no worker is waiting.
   */
  ghost predicate Refreshed(s: State, s': State, now: int, full: bool) {
    var list := Operation(s.nextID + 1, List, "", 0);
    if s.operations == map[] && Attemptable(s, list, now)
    then s' == Record(s, list) || (full && s' == s.(nextID := s.nextID + 1))
    else s' == s
  }

  /** At some point between a and b, this terminal runner was not scheduled and no worker was waiting. */
  ghost predicate FoundNoWorker(o: Options, a: Looping, b: Looping, id: RunnerID)
    requires ValidOptions(o)
  {
    exists l: Looping ::
      && Reaches(o, a, l) && Reaches(o, l, b)
      && NoneWaiting(l.system.slots) && id in UnscheduledTerminals(l.system.world.state)
  }

  /** Of the runners a pass has come to, whatever terminal one is left was cooling down or found no worker waiting. */
  ghost predicate LeftOver(o: Options, start: State, first: int, a: Looping, b: Looping, pending: set<RunnerID>)
    requires ValidOptions(o)
  {
    forall id | id in UnscheduledTerminals(b.system.world.state) && id !in pending ::
      Cooling(start, Delete, id, first) || FoundNoWorker(o, a, b, id)
  }

  lemma NothingLeftOver(o: Options, start: State, first: int, a: Looping)
    requires ValidOptions(o)
    ensures LeftOver(o, start, first, a, a, a.system.world.state.runners.Keys)
    ensures UnscheduledTerminals(a.system.world.state) <= a.system.world.state.runners.Keys
  {
    hide Cooling, FoundNoWorker;
  }

  lemma LeftOverLater(
    o: Options, start: State, first: int, a: Looping, b: Looping, c: Looping, pending: set<RunnerID>)
    requires ValidOptions(o) && LeftOver(o, start, first, a, b, pending) && Reaches(o, b, c)
    requires UnscheduledTerminals(c.system.world.state) <= UnscheduledTerminals(b.system.world.state)
    ensures LeftOver(o, start, first, a, c, pending)
  {
    hide Cooling, Reaches, FoundNoWorker, UnscheduledTerminals;
    forall id | id in UnscheduledTerminals(c.system.world.state) && id !in pending
      ensures Cooling(start, Delete, id, first) || FoundNoWorker(o, a, c, id)
    {
      if !Cooling(start, Delete, id, first) {
        FoundEarlier(o, a, b, c, id);
      }
    }
  }

  lemma LeftOverMore(
    o: Options, start: State, first: int, a: Looping, b: Looping, c: Looping, pending: set<RunnerID>, id: RunnerID)
    requires ValidOptions(o) && LeftOver(o, start, first, a, b, pending) && Reaches(o, b, c) && Reaches(o, a, c)
    requires UnscheduledTerminals(c.system.world.state) <= UnscheduledTerminals(b.system.world.state)
    requires id in UnscheduledTerminals(c.system.world.state) ==>
               Cooling(start, Delete, id, first) || NoneWaiting(c.system.slots)
    ensures LeftOver(o, start, first, a, c, pending - {id})
  {
    hide Cooling, Reaches, FoundNoWorker, UnscheduledTerminals;
    LeftOverLater(o, start, first, a, b, c, pending);
    if id in UnscheduledTerminals(c.system.world.state) && !Cooling(start, Delete, id, first) {
      FoundHere(o, a, c, id);
    }
  }

  /** Where the first loop of a pass from a stands at b, with pending still to come. */
  ghost predicate SoFar(o: Options, start: State, first: int, a: Looping, b: Looping, pending: set<RunnerID>)
    requires ValidOptions(o)
  {
    var s := b.system.world.state;
    && Reaches(o, a, b) && InPass(start, s) && LiveCapacity(s) == LiveCapacity(start)
    && LeftOver(o, start, first, a, b, pending)
    && (AllAccepted(start, s) ==>
          forall id | id in UnscheduledTerminals(s) && id !in pending :: Cooling(start, Delete, id, first))
  }

  lemma PassBegins(o: Options, start: State, first: int, a: Looping)
    requires ValidOptions(o) && Reconciler.Valid(start) && Settled(start) && a.system.world.state == start
    ensures SoFar(o, start, first, a, a, start.runners.Keys)
  {
    hide Reaches, LiveCapacity, Cooling, LeftOver;
    ReachesSelf(o, a);
    NothingLeftOver(o, start, first, a);
  }

  lemma SoFarInPass(o: Options, start: State, first: int, a: Looping, b: Looping, pending: set<RunnerID>)
    requires ValidOptions(o) && SoFar(o, start, first, a, b, pending)
    ensures InPass(start, b.system.world.state)
  {
  }

  lemma SoFarMore(
    o: Options, start: State, first: int, a: Looping, b: Looping, c: Looping, pending: set<RunnerID>, id: RunnerID)
    requires ValidOptions(o) && SoFar(o, start, first, a, b, pending) && Reaches(o, b, c)
    requires var s, s' := b.system.world.state, c.system.world.state;
             && InPass(start, s') && LiveCapacity(s') == LiveCapacity(s)
             && UnscheduledTerminals(s') <= UnscheduledTerminals(s)
             && (AllAccepted(start, s') ==> AllAccepted(start, s))
             && (id in UnscheduledTerminals(s') ==> Cooling(start, Delete, id, first) || NoneWaiting(c.system.slots))
             && (AllAccepted(start, s') && id in UnscheduledTerminals(s') ==> Cooling(start, Delete, id, first))
    ensures SoFar(o, start, first, a, c, pending - {id})
    ensures c.system.world.state.runners == b.system.world.state.runners
  {
    hide Reaches, LiveCapacity, Cooling, LeftOver, UnscheduledTerminals;
    ReachesTransitive(o, a, b, c);
    LeftOverMore(o, start, first, a, b, c, pending, id);
  }

  lemma FirstLoopOver(o: Options, start: State, first: int, a: Looping, b: Looping, c: Looping)
    requires ValidOptions(o) && SoFar(o, start, first, a, b, {}) && b.position == Deleting({})
    requires c == b.(position := Creating)
    ensures Reaches(o, a, c) && InPass(start, c.system.world.state)
    ensures LiveCapacity(c.system.world.state) == LiveCapacity(start)
    ensures AllAccepted(start, c.system.world.state) ==> TerminalsDone(start, c.system.world.state, first)
    ensures LeftOver(o, start, first, a, c, {})
  {
    hide Reaches, LiveCapacity, Cooling, LeftOver, UnscheduledTerminals;
    ReachesStep(o, b, NextPhase, c);
    ReachesTransitive(o, a, b, c);
    LeftOverLater(o, start, first, a, b, c, {});
  }

  lemma FoundHere(o: Options, a: Looping, b: Looping, id: RunnerID)
    requires ValidOptions(o) && Reaches(o, a, b)
    requires NoneWaiting(b.system.slots) && id in UnscheduledTerminals(b.system.world.state)
    ensures FoundNoWorker(o, a, b, id)
  {
    hide Reaches;
    ReachesSelf(o, b);
  }

  lemma FoundEarlier(o: Options, a: Looping, b: Looping, c: Looping, id: RunnerID)
    requires ValidOptions(o) && FoundNoWorker(o, a, b, id) && Reaches(o, b, c)
    ensures FoundNoWorker(o, a, c, id)
  {
    hide Reaches;
    var l :| Reaches(o, a, l) && Reaches(o, l, b)
          && NoneWaiting(l.system.slots) && id in UnscheduledTerminals(l.system.world.state);
    ReachesTransitive(o, l, b, c);
  }

  lemma RefreshedKeepsDemand(s: State, s': State, now: int, full: bool)
    requires Refreshed(s, s', now, full)
    ensures s'.target == s.target && s'.generation == s.generation
  {
  }

  lemma IDsNonEmpty(s: State)
    requires Reconciler.Valid(s)
    ensures "" !in s.runners && "" !in s.runnerOps
  {
  }

  lemma CreateWanted(s: State, item: Operation)
    requires Settled(s) && LiveCapacity(s) < s.target && item == Operation(0, Create, "", s.generation)
    ensures Wanted(s, item)
  {
  }

  lemma FenceWanted(s: State, item: Operation)
    requires Settled(s) && LiveCapacity(s) > s.target && item.kind.Fence? && item.generation == 0
    requires IdleCandidate(s, item.runnerID)
    ensures Wanted(s, item)
  {
  }

  /** One trySchedule inside a pass. */
  lemma PassStep(start: State, s: State, item: Operation, s': State, ok: bool, now: int, first: int)
    requires InPass(start, s) && Wanted(s, item) && !item.kind.List?
    requires s'.nextID == s.nextID + (if Attemptable(s, item, now) then 1 else 0)
    requires ok ==> s'.nextID == s.nextID + 1 && s' == Record(s, item.(id := s'.nextID))
    requires !ok ==> s' == s.(nextID := s'.nextID)
    ensures InPass(start, s')
    ensures LiveCapacity(s') == LiveCapacity(s) + LiveEffect(item, ok)
    ensures UnscheduledTerminals(s') <= UnscheduledTerminals(s)
    ensures AllAccepted(start, s') ==> AllAccepted(start, s) && (ok || !Attemptable(s, item, now))
    ensures now >= first && item.runnerID !in s.runnerOps && !Attemptable(s, item, now) ==>
              Cooling(start, item.kind, item.runnerID, first)
  {
    hide LiveCapacity, Wanted;
    if ok {
      WantedIgnoresID(s, item, s'.nextID);
      RecordInPass(start, s, item.(id := s'.nextID));
    } else {
      SpentIDIsHarmless(s, s'.nextID);
    }
  }

  lemma WantedIgnoresID(s: State, item: Operation, id: nat)
    ensures Wanted(s, item.(id := id)) <==> Wanted(s, item)
    ensures LiveEffect(item.(id := id), true) == LiveEffect(item, true)
  {
  }

  function LiveEffect(item: Operation, ok: bool): int {
    if !ok then 0 else if item.kind.Create? then 1 else if item.kind.Fence? then -1 else 0
  }

  lemma RecordInPass(start: State, s: State, op: Operation)
    requires InPass(start, s) && Wanted(s, op) && !op.kind.List? && op.id == s.nextID + 1
    requires op.runnerID != "" ==> op.runnerID !in s.runnerOps
    ensures InPass(start, Record(s, op))
    ensures LiveCapacity(Record(s, op)) == LiveCapacity(s) + LiveEffect(op, true)
    ensures UnscheduledTerminals(Record(s, op)) <= UnscheduledTerminals(s)
    ensures AllAccepted(start, Record(s, op)) ==> AllAccepted(start, s)
  {
    ScheduleKeepsValid(s, op);
    ScheduleChangesLive(s, op);
    assert op.id !in s.operations;
    assert forall k | k in Record(s, op).operations :: k == op.id || k in s.operations;
  }

  lemma SpentIDIsHarmless(s: State, id: nat)
    requires Reconciler.Valid(s) && id >= s.nextID
    ensures var s' := s.(nextID := id);
            && Reconciler.Valid(s') && LiveCapacity(s') == LiveCapacity(s)
            && UnscheduledTerminals(s') == UnscheduledTerminals(s)
  {
    var s' := s.(nextID := id);
    assert LiveRunners(s') == LiveRunners(s);
  }

  /** A delete accepted, or found already scheduled, takes its runner off the list. */
  lemma DeletePassStep(start: State, s: State, item: Operation, s': State, ok: bool, now: int, first: int)
    requires InPass(start, s) && item.kind.Delete? && item.runnerID != ""
    requires ok ==> s'.nextID == s.nextID + 1 && s' == Record(s, item.(id := s'.nextID))
    requires !ok ==> s' == s.(nextID := s'.nextID)
    requires AllAccepted(start, s') ==> ok || !Attemptable(s, item, now)
    requires item.runnerID !in s.runnerOps && !Attemptable(s, item, now) ==> Cooling(start, Delete, item.runnerID, first)
    ensures AllAccepted(start, s') && item.runnerID in UnscheduledTerminals(s') ==>
              Cooling(start, Delete, item.runnerID, first)
  {
  }

  function HandedOff(l: Looping, slot: nat, op: Operation): Looping
    requires slot < |l.system.slots|
  {
    var s := Record(l.system.world.state, op);
    Looping(l.system.(world := l.system.world.(state := s), slots := l.system.slots[slot := Executing(op)]),
            AfterTry(l.position, op, true, s))
  }

  function TurnedAway(l: Looping, op: Operation): Looping {
    var s := l.system.world.state.(nextID := op.id);
    Looping(l.system.(world := l.system.world.(state := s)), AfterTry(l.position, op, false, s))
  }

  lemma HandoffReaches(o: Options, l: Looping, slot: nat, item: Operation, now: int)
    requires ValidOptions(o) && !l.system.closed && slot < |l.system.slots| && l.system.slots[slot].Waiting?
    requires Wanted(l.system.world.state, item) && Attemptable(l.system.world.state, item, now)
    requires Matches(l.position, item)
    ensures Reaches(o, l, HandedOff(l, slot, item.(id := l.system.world.state.nextID + 1)))
  {
    hide Reaches, Entry;
    var s := l.system.world.state;
    var numbered := item.(id := s.nextID + 1);
    assert Wanted(s, numbered) && Attemptable(s, numbered, now);
    ReachesStep(o, l, Attempt(Handoff(slot, numbered, now)), HandedOff(l, slot, numbered));
  }

  lemma RefusalReaches(o: Options, l: Looping, item: Operation, now: int)
    requires ValidOptions(o) && !l.system.closed && NoneWaiting(l.system.slots)
    requires Wanted(l.system.world.state, item) && Attemptable(l.system.world.state, item, now)
    requires Matches(l.position, item)
    ensures Reaches(o, l, TurnedAway(l, item.(id := l.system.world.state.nextID + 1)))
  {
    hide Reaches, Entry;
    var s := l.system.world.state;
    var numbered := item.(id := s.nextID + 1);
    assert Wanted(s, numbered) && Attemptable(s, numbered, now);
    ReachesStep(o, l, Attempt(Refuse(numbered, now)), TurnedAway(l, numbered));
  }

  lemma BlockedReaches(o: Options, l: Looping, item: Operation, now: int)
    requires ValidOptions(o) && Wanted(l.system.world.state, item) && !Attemptable(l.system.world.state, item, now)
    requires Matches(l.position, item)
    ensures Reaches(o, l, l.(position := AfterTry(l.position, item, false, l.system.world.state)))
  {
    hide Reaches, Entry;
    var s := l.system.world.state;
    var numbered := item.(id := s.nextID + 1);
    assert Wanted(s, numbered) && !Attemptable(s, numbered, now);
    ReachesStep(o, l, LoopEvent.Blocked(numbered, now), l.(position := AfterTry(l.position, item, false, s)));
  }
}
