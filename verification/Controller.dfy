/** Controller.Run: the select loop over demand, results and ticks, and its bounded shutdown. */
module ControllerRun {
  import opened Wrappers
  import opened GoInt
  import opened ControllerTypes
  import opened Reconciler
  import opened Backoff
  import opened Capacity
  import opened Traces
  import opened MainLoop
  import opened Pool
  import opened Workers
  import opened ReconcileLoop

  /** Which ready case one iteration of the select takes. */
  datatype Choice = DemandReady(demand: Demand) | DemandClosed | ResultReady | Tick

  /** The last demand a run of the select receives, and whether the demand channel is still open. */
  function Demanded(script: seq<Choice>): (Option<Demand>, bool) {
    if script == [] then (None, true)
    else
      var (demand, open) := Demanded(script[..|script| - 1]);
      match script[|script| - 1]
      case DemandReady(latest) => (if open then Some(latest) else demand, open)
      case DemandClosed => (demand, false)
      case _ => (demand, open)
  }

  /** The demand at position i of the script is received: the channel has not been closed before. */
  predicate ReceivedAt(script: seq<Choice>, i: int) {
    0 <= i < |script| && script[i].DemandReady? && forall j | 0 <= j < i :: !script[j].DemandClosed?
  }

  predicate LastReceivedAt(script: seq<Choice>, i: int) {
    ReceivedAt(script, i) && forall j | i < j < |script| :: !ReceivedAt(script, j)
  }

  /** The last demand received is the one that counts, and the channel is open until it is found closed. */
  lemma {:induction false} DemandedIsLastReceived(script: seq<Choice>)
    ensures if Demanded(script).0.Some?
            then exists i :: LastReceivedAt(script, i) && Demanded(script).0 == Some(script[i].demand)
            else forall i :: !ReceivedAt(script, i)
    ensures Demanded(script).1 <==> forall j | 0 <= j < |script| :: !script[j].DemandClosed?
  {
    if script != [] {
      var n := |script| - 1;
      DemandedIsLastReceived(script[..n]);
      forall i | i != n ensures ReceivedAt(script, i) <==> ReceivedAt(script[..n], i) {
      }
      if ReceivedAt(script, n) {
        assert LastReceivedAt(script, n);
      } else if Demanded(script[..n]).0.Some? {
        var i :| LastReceivedAt(script[..n], i) && Demanded(script[..n]).0 == Some(script[..n][i].demand);
        assert LastReceivedAt(script, i) && script[i] == script[..n][i];
      }
    }
  }

  // ---- What handling a ready case does ----------------------------------------------------------------

  /** The result is applied once; only a success is followed by a reconcile pass. full: no worker waits at its end. */
  ghost predicate ResultApplied(o: Options, s: State, result: OperationResult, s': State, now: int, full: bool)
    requires ValidOptions(o)
  {
    var applied := Pool.Apply(o, s, result, now);
    if result.operation.id in s.operations && Succeeds(s.operations[result.operation.id], result)
    then Passed(applied, s', now, full)
    else s' == applied
  }

  /** A refresh up to mid, and then a reconcile pass. */
  ghost predicate Ticked(o: Options, a: Looping, mid: Looping, b: Looping, now: int)
    requires ValidOptions(o)
  {
    && Reaches(o, a, mid) && Reaches(o, mid, b)
    && Refreshed(a.system.world.state, mid.system.world.state, now, NoneWaiting(mid.system.slots))
    && Passed(mid.system.world.state, b.system.world.state, now, NoneWaiting(b.system.slots))
  }

  /** One ready case, from a select at a to the next at b; open: the demand channel has not been closed. */
  ghost predicate Handled(o: Options, choice: Choice, open: bool, a: Looping, b: Looping)
    requires ValidOptions(o)
  {
    var s, s', full := a.system.world.state, b.system.world.state, NoneWaiting(b.system.slots);
    && Reaches(o, a, b)
    && match choice
       case DemandReady(demand) =>
         if open then exists now :: Passed(SetDemand(o, s, demand), s', now, full) else b == a
       case DemandClosed => b == a
       case ResultReady =>
         if a.system.buffer == [] then b == a
         else exists now :: ResultApplied(o, s, a.system.buffer[0], s', now, full)
       case Tick => exists mid, now :: Ticked(o, a, mid, b, now)
  }

  /** Each case of the script is handled in turn, workers moving in between; first is the select the loop starts from. */
  ghost predicate HandledInTurn(o: Options, script: seq<Choice>, first: Looping, trail: seq<(Looping, Looping)>)
    requires ValidOptions(o)
  {
    && |trail| <= |script|
    && forall i | 0 <= i < |trail| ::
         && HandedOver(o, End(first, trail[..i]), trail[i].0)
         && Handled(o, script[i], Demanded(script[..i]).1, trail[i].0, trail[i].1)
  }

  /** Only workers have moved. */
  ghost predicate HandedOver(o: Options, a: Looping, b: Looping)
    requires ValidOptions(o)
  {
    Reaches(o, a, b) && b.system.world.state == a.system.world.state
  }

  /** Where the loop is once the trail is over. */
  ghost function End(first: Looping, trail: seq<(Looping, Looping)>): Looping {
    if trail == [] then first else trail[|trail| - 1].1
  }

  lemma HandledNext(
    o: Options, script: seq<Choice>, first: Looping, trail: seq<(Looping, Looping)>, a: Looping, b: Looping)
    requires ValidOptions(o) && HandledInTurn(o, script, first, trail) && |trail| < |script|
    requires HandedOver(o, End(first, trail), a)
    requires Handled(o, script[|trail|], Demanded(script[..|trail|]).1, a, b)
    ensures HandledInTurn(o, script, first, trail + [(a, b)]) && End(first, trail + [(a, b)]) == b
  {
    hide Handled, HandedOver, Demanded, End;
    var more := trail + [(a, b)];
    LastEnd(first, trail, a, b);
    forall i | 0 <= i < |more|
      ensures HandedOver(o, End(first, more[..i]), more[i].0)
      ensures Handled(o, script[i], Demanded(script[..i]).1, more[i].0, more[i].1)
    {
      if i < |trail| {
        assert more[..i] == trail[..i] && more[i] == trail[i];
      } else {
        assert more[..i] == trail && more[i] == (a, b);
      }
    }
  }

  lemma LastEnd(first: Looping, trail: seq<(Looping, Looping)>, a: Looping, b: Looping)
    ensures End(first, trail + [(a, b)]) == b && End(first, []) == first
  {
  }

  lemma NothingHandled(o: Options, script: seq<Choice>, first: Looping)
    requires ValidOptions(o)
    ensures HandledInTurn(o, script, first, []) && End(first, []) == first
  {
  }

  /** The state goes by this demand, or by what it went by at the start if there is none. */
  ghost predicate GoesBy(o: Options, demand: Option<Demand>, start: State, s: State) {
    if demand.Some? then TargetFor(o, demand.value.assignedJobs, s.target) && s.generation == demand.value.generation
    else s.target == start.target && s.generation == start.generation
  }

  /** One more case: a demand received on an open channel is the one to go by. */
  lemma GoesByNext(o: Options, script: seq<Choice>, i: nat, start: State, s: State, s': State)
    requires i < |script| && GoesBy(o, Demanded(script[..i]).0, start, s)
    requires if script[i].DemandReady? && Demanded(script[..i]).1 then GoesBy(o, Some(script[i].demand), s, s')
             else GoesBy(o, None, s, s')
    ensures GoesBy(o, Demanded(script[..i + 1]).0, start, s')
    ensures Demanded(script[..i + 1]).1 == (Demanded(script[..i]).1 && !script[i].DemandClosed?)
  {
    assert script[..i + 1][..i] == script[..i];
  }

  lemma ApplyKeepsDemand(o: Options, s: State, r: OperationResult, now: int)
    requires ValidOptions(o)
    ensures Pool.Apply(o, s, r, now).target == s.target && Pool.Apply(o, s, r, now).generation == s.generation
  {
    hide Settle;
    if r.operation.id in s.operations {
      SettleKeepsTarget(o, s, r, now);
      SettleFrame(o, s, r, now);
    }
  }

  /** newReconcileState: rejects an inventory with an invalid runner. */
  method NewReconcileState(options: Options, runners: seq<Runner>) returns (r: Result<ReconcileState>)
    ensures r.Ok? <==> AllValid(runners)
    ensures r.Ok? ==> fresh(r.value) && r.value.options == options && r.value.Model() == InitialState(options, runners)
  {
    var inventory := ValidatedInventory(runners);
    if inventory.Err? {
      return Err;
    }
    var state := new ReconcileState(options, inventory.value);
    return Ok(state);
  }

  class Controller {
    const options: Options
    const state: ReconcileState
    const work: WorkerPool
    const clock: Clock
    /** The state of loop and system the run started in. */
    ghost const initial: Looping

    ghost function Now(): Looping
      reads this, state, work
    {
      work.View(state.Model())
    }

    /** The run so far is a run of the main loop and its workers from a valid start. */
    ghost predicate Valid()
      reads this, state, work
    {
      && ValidOptions(options) && state.options == options && work.options == options
      && LoopValid(options, initial)
      && Reaches(options, initial, Now())
    }

    constructor (state: ReconcileState, runners: seq<Runner>, start: int)
      requires ValidOptions(state.options) && AllValid(runners)
      requires state.Model() == InitialState(state.options, runners)
      ensures Valid() && !work.closed && this.state == state && options == state.options
      ensures fresh(work) && fresh(clock)
      ensures initial == InitialLoop(options, runners) && work.position == Entry(state.Model())
    {
      this.options, this.state := state.options, state;
      this.work := new WorkerPool(state.options, runners);
      this.clock := new Clock(start);
      this.initial := InitialLoop(state.options, runners);
      new;
      InitialLoopValid(options, runners);
      ReachesSelf(options, initial);
    }

    lemma StateIsValid()
      requires Valid()
      ensures Reconciler.Valid(state.Model()) && LoopValid(options, Now())
    {
      ReachesValid(options, initial, Now());
    }

    method Reconcile()
      requires Valid() && !work.closed && work.position == Entry(state.Model())
      modifies state`operations, state`runnerOps, state`nextID, work, clock
      ensures Valid() && !work.closed && work.position.Selecting? && clock.now >= old(clock.now)
      ensures Reaches(options, old(Now()), Now())
      ensures Passed(old(state.Model()), state.Model(), old(clock.now), NoneWaiting(work.slots))
      ensures state.target == old(state.target) && state.generation == old(state.generation)
    {
      hide Reaches, LoopValid, Passed, LeftOver, Entry;
      StateIsValid();
      ghost var before := Now();
      ghost var model, now := state.Model(), clock.now;
      state.Reconcile(work, clock);
      ReachesTransitive(options, initial, before, Now());
      PassedKeepsDemand(model, state.Model(), now, NoneWaiting(work.slots));
    }

    /** case demand := <-demandUpdates */
    method OnDemand(demand: Demand)
      requires Valid() && !work.closed && work.position.Selecting?
      modifies state, work, clock
      ensures Valid() && !work.closed && work.position.Selecting?
      ensures Reaches(options, old(Now()), Now())
      ensures Passed(SetDemand(options, old(state.Model()), demand), state.Model(), old(clock.now),
                     NoneWaiting(work.slots))
      ensures TargetFor(options, demand.assignedJobs, state.target) && state.generation == demand.generation
    {
      hide Reaches, LoopValid, Passed, Entry;
      ghost var before := Now();
      state.SetDemand(demand);
      work.position := Entry(state.Model());
      ghost var received := Now();
      ReachesThen(options, initial, before, ReceiveDemand(demand), received);
      ReachesStep(options, before, ReceiveDemand(demand), received);
      Reconcile();
      ReachesTransitive(options, before, received, Now());
    }

    /** case result := <-results, when one is there */
    method OnResult()
      requires Valid() && !work.closed && work.buffer != [] && work.position.Selecting?
      modifies state, work, clock
      ensures Valid() && !work.closed && work.position.Selecting?
      ensures Reaches(options, old(Now()), Now())
      ensures exists now | old(clock.now) <= now <= clock.now ::
                ResultApplied(options, old(state.Model()), old(work.buffer)[0], state.Model(), now, NoneWaiting(work.slots))
      ensures state.target == old(state.target) && state.generation == old(state.generation)
    {
      hide Reaches, LoopValid, Passed, Pool.Apply, Entry;
      StateIsValid();
      ghost var before := Now();
      var result := work.buffer[0];
      work.Take();
      var changed := state.Apply(result, clock);
      ghost var now := clock.now;
      ApplyKeepsDemand(options, before.system.world.state, result, now);
      work.position := if changed then Entry(state.Model()) else Selecting;
      ghost var read := Now();
      ReachesThen(options, initial, before, ReadResult(now), read);
      ReachesStep(options, before, ReadResult(now), read);
      if changed {
        Reconcile();
        ReachesTransitive(options, before, read, Now());
      }
      assert ResultApplied(options, before.system.world.state, result, state.Model(), now, NoneWaiting(work.slots));
    }

    /** case <-ticker.C: a refresh, which the loop reaches mid, and then a pass. */
    method OnTick()
      requires Valid() && !work.closed && work.position.Selecting?
      modifies state, work, clock
      ensures Valid() && !work.closed && work.position.Selecting?
      ensures Reaches(options, old(Now()), Now())
      ensures exists mid: Looping, now | old(clock.now) <= now <= clock.now :: Ticked(options, old(Now()), mid, Now(), now)
      ensures state.target == old(state.target) && state.generation == old(state.generation)
    {
      hide Reaches, LoopValid, Refreshed, Passed, Entry;
      ghost var before := Now();
      work.position := Refreshing;
      ghost var ticked := Now();
      ReachesStep(options, before, LoopEvent.Tick, ticked);
      state.Refresh(work, clock);
      ghost var mid := Now();
      RefreshedKeepsDemand(before.system.world.state, state.Model(), clock.now, NoneWaiting(work.slots));
      ReachesTransitive(options, before, ticked, mid);
      ReachesTransitive(options, initial, before, mid);
      ghost var now := clock.now;
      Reconcile();
      ReachesTransitive(options, before, mid, Now());
      assert Ticked(options, before, mid, Now(), now);
    }

    /** The body of the select for one ready case. */
    method Handle(choice: Choice, open: bool)
      requires Valid() && !work.closed && work.position.Selecting?
      modifies state, work, clock
      ensures Valid() && !work.closed && work.position.Selecting?
      ensures Handled(options, choice, open, old(Now()), Now())
      ensures if choice.DemandReady? && open then GoesBy(options, Some(choice.demand), old(state.Model()), state.Model())
              else GoesBy(options, None, old(state.Model()), state.Model())
    {
      hide Reaches, LoopValid, Passed, Refreshed, ResultApplied, Ticked, TargetFor;
      ReachesSelf(options, Now());
      match choice {
        case DemandReady(demand) =>
          if open {
            OnDemand(demand);
          }
        case DemandClosed =>
        case ResultReady =>
          if work.buffer != [] {
            OnResult();
          }
        case Tick =>
          OnTick();
      }
    }

    method Wait()
      requires Valid()
      modifies work
      ensures Valid() && work.closed == old(work.closed) && work.position == old(work.position)
      ensures state.Model() == old(state.Model()) && Reaches(options, old(Now()), Now())
    {
      hide Reaches, LoopValid;
      ghost var before := Now();
      work.Interleave(state.Model());
      ReachesTransitive(options, initial, before, Now());
    }

    /**
     * The loop of Run for any sequence of ready cases, then Done and the wait for the workers. Every state it
     * passes through is one that main loop and workers can reach, and it ends with the target and the generation of the
     * last demand received. The workers are found to have exited only if at most Workers operations were
     * outstanding.
     */
    method Loop(script: seq<Choice>)
      returns (drained: bool, ghost first: Looping, ghost trail: seq<(Looping, Looping)>)
      requires Valid() && !work.closed && work.position == Entry(state.Model())
      modifies state, work, clock
      ensures Valid() && work.closed
      // It starts with a pass and then handles every case of the script.
      ensures Reaches(options, old(Now()), first)
      ensures Passed(old(state.Model()), first.system.world.state, old(clock.now), NoneWaiting(first.system.slots))
      ensures |trail| == |script| && HandledInTurn(options, script, first, trail)
      ensures state.Model() == End(first, trail).system.world.state
      ensures drained <==> AllExited(Now().system)
      ensures drained ==> |state.operations| <= options.workers
      ensures GoesBy(options, Demanded(script).0, old(state.Model()), state.Model())
    {
      hide Reaches, LoopValid, Passed, Refreshed, Handled, HandledInTurn, End, GoesBy;
      var demandOpen := true;
      ghost var start := state.Model();
      Reconcile();
      first, trail := Now(), [];
      NothingHandled(options, script, first);
      assert GoesBy(options, Demanded([]).0, start, state.Model()) by {
        UntilTheFirst(start, state.Model());
      }
      assert script[..0] == [];
      for i := 0 to |script|
        invariant Valid() && !work.closed && work.position.Selecting? && demandOpen == Demanded(script[..i]).1
        invariant |trail| == i && HandledInTurn(options, script, first, trail) && End(first, trail) == Now()
        invariant GoesBy(options, Demanded(script[..i]).0, start, state.Model())
      {
        Wait();
        ghost var before, model := Now(), state.Model();
        Handle(script[i], demandOpen);
        GoesByNext(options, script, i, start, model, state.Model());
        HandledNext(options, script, first, trail, before, Now());
        trail := trail + [(before, Now())];
        if script[i].DemandClosed? {
          demandOpen := false;
        }
      }
      assert script[..|script|] == script;
      ghost var before := Now();
      work.closed := true;
      ReachesThen(options, initial, before, Stop, Now());
      drained := WaitForWorkers();
    }

    lemma UntilTheFirst(start: State, s: State)
      requires s.target == start.target && s.generation == start.generation
      ensures GoesBy(options, Demanded([]).0, start, s) && Demanded([]).1
    {
    }

    /** waitForWorkers: once, and after the grace period once more with the operations cancelled. */
    method WaitForWorkers() returns (drained: bool)
      requires Valid() && work.closed
      modifies work
      ensures Valid() && work.closed && state.Model() == old(state.Model())
      ensures drained <==> AllExited(Now().system)
      ensures drained ==> |state.operations| <= options.workers
    {
      Wait();
      drained := forall slot | slot in work.slots :: slot.Exited?;
      if !drained {
        Wait();
        drained := forall slot | slot in work.slots :: slot.Exited?;
      }
      StateIsValid();
      if drained {
        ExitedHoldNothing(options, Now().system);
      }
    }
  }

  lemma ExitedHoldNothing(o: Options, y: System)
    requires ValidOptions(o) && SystemValid(o, y) && AllExited(y)
    ensures |y.world.state.operations| <= o.workers
  {
    HeldSizes(y.slots, y.buffer);
    OutstandingCount(y);
    NothingHeld(y.slots);
  }

  /** How Run ends: on an error only where the startup inventory is invalid or the workers are stuck. */
  datatype Ending = CancelledAtStartup | InvalidInventory | Drained | ShutdownTimeout

  /** How many attempts at the startup inventory fail before the first that answers, or all of them. */
  function Failures(answers: seq<Option<seq<Runner>>>): (n: nat)
    ensures n <= |answers| && (n < |answers| ==> answers[n].Some?)
    ensures forall i | 0 <= i < n :: answers[i].None?
  {
    if answers == [] || answers[0].Some? then 0 else 1 + Failures(answers[1..])
  }

  /** waitForInitialInventory: retries until a list succeeds or, answers having run out, the context is cancelled. */
  method WaitForInitialInventory(options: Options, answers: seq<Option<seq<Runner>>>)
    returns (r: Option<seq<Runner>>, delays: seq<Duration>)
    requires ValidOptions(options)
    ensures |delays| == Failures(answers)
    ensures r == if |delays| < |answers| then answers[|delays|] else None
    ensures forall k | 0 <= k < |delays| :: delays[k] == FailureDelay(k, options.retryInitial, options.retryMaximum)
  {
    hide NextFailureDelay, FailureDelay, Failures;
    var delay: Duration := 0;
    delays := [];
    for i := 0 to |answers|
      invariant |delays| == i && forall j | 0 <= j < i :: answers[j].None?
      invariant forall k | 0 <= k < i :: delays[k] == FailureDelay(k, options.retryInitial, options.retryMaximum)
      invariant delay == if i == 0 then 0 else delays[i - 1]
    {
      if answers[i].Some? {
        return answers[i], delays;
      }
      NextDelay(i, delay, options);
      delay := NextFailureDelay(delay, options.retryInitial, options.retryMaximum);
      delays := delays + [delay];
    }
    return None, delays;
  }

  lemma NextDelay(i: nat, delay: Duration, options: Options)
    requires ValidOptions(options)
    requires delay == if i == 0 then 0 else FailureDelay(i - 1, options.retryInitial, options.retryMaximum)
    ensures NextFailureDelay(delay, options.retryInitial, options.retryMaximum)
            == FailureDelay(i, options.retryInitial, options.retryMaximum)
  {
  }

  /**
   * Run, for any answers to the startup inventory and any sequence of ready cases after it; cancelled says whether
   * the context was cancelled by the time an answer came.
   */
  method Run(options: Options, answers: seq<Option<seq<Runner>>>, cancelled: bool, start: int, script: seq<Choice>)
    returns (r: Ending, ghost last: Looping)
    requires ValidOptions(options)
    ensures r.CancelledAtStartup? <==> cancelled || Failures(answers) == |answers|
    ensures r.InvalidInventory? <==>
              !cancelled && Failures(answers) < |answers| && !AllValid(answers[Failures(answers)].value)
    ensures r.Drained? || r.ShutdownTimeout? ==>
              && Reaches(options, InitialLoop(options, answers[Failures(answers)].value), last)
              && LoopValid(options, last) && last.system.closed
              && (r.Drained? <==> AllExited(last.system))
              && (r.Drained? ==> |last.system.world.state.operations| <= options.workers)
              && var demand := Demanded(script).0;
                 if demand.Some? then TargetFor(options, demand.value.assignedJobs, last.system.world.state.target)
                 else last.system.world.state.target == options.minRunners
  {
    last := InitialLoop(options, []);
    var runners, delays := WaitForInitialInventory(options, answers);
    if cancelled || runners.None? {
      return CancelledAtStartup, last;
    }
    var state := NewReconcileState(options, runners.value);
    if state.Err? {
      return InvalidInventory, last;
    }
    var controller := new Controller(state.value, runners.value, start);
    var drained;
    ghost var first, trail;
    drained, first, trail := controller.Loop(script);
    controller.StateIsValid();
    return if drained then Drained else ShutdownTimeout, controller.Now();
  }
}
