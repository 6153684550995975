/** The worker goroutines, the channels between them and the main loop, and the clock, as mutable objects. */
module Workers {
  import opened GoInt
  import opened ControllerTypes
  import opened Reconciler
  import opened Host
  import opened MainLoop
  import opened Pool

  /** b can be reached from a by steps of the main loop, its workers and the world. */
  ghost predicate Reaches(o: Options, a: Looping, b: Looping)
    requires ValidOptions(o)
  {
    exists loops: seq<Looping>, events: seq<LoopEvent> ::
      IsLoopRun(o, loops, events) && loops[0] == a && loops[|events|] == b
  }

  lemma ReachesSelf(o: Options, a: Looping)
    requires ValidOptions(o)
    ensures Reaches(o, a, a)
  {
    var events: seq<LoopEvent> := [];
    assert IsLoopRun(o, [a], events);
  }

  lemma ReachesStep(o: Options, a: Looping, e: LoopEvent, b: Looping)
    requires ValidOptions(o) && LoopStep(o, a, e, b)
    ensures Reaches(o, a, b)
  {
    hide LoopStep;
    assert IsLoopRun(o, [a, b], [e]);
  }

  lemma ReachesTransitive(o: Options, a: Looping, b: Looping, c: Looping)
    requires ValidOptions(o) && Reaches(o, a, b) && Reaches(o, b, c)
    ensures Reaches(o, a, c)
  {
    hide LoopStep;
    var left, es :| IsLoopRun(o, left, es) && left[0] == a && left[|es|] == b;
    var right, fs :| IsLoopRun(o, right, fs) && right[0] == b && right[|fs|] == c;
    var loops, events := left + right[1..], es + fs;
    forall i | 0 <= i < |events| ensures LoopStep(o, loops[i], events[i], loops[i + 1]) {
      if i < |es| {
        assert loops[i] == left[i] && loops[i + 1] == left[i + 1] && events[i] == es[i];
      } else {
        var j := i - |es|;
        assert loops[i] == right[j] && loops[i + 1] == right[j + 1] && events[i] == fs[j];
      }
    }
    assert IsLoopRun(o, loops, events);
    assert loops[|events|] == c;
  }

  /** One more step. */
  lemma ReachesThen(o: Options, a: Looping, b: Looping, e: LoopEvent, c: Looping)
    requires ValidOptions(o) && Reaches(o, a, b) && LoopStep(o, b, e, c)
    ensures Reaches(o, a, c)
  {
    hide Reaches, LoopStep;
    ReachesStep(o, b, e, c);
    ReachesTransitive(o, a, b, c);
  }

  /** What can be reached from a valid state of the loop is valid. */
  lemma ReachesValid(o: Options, a: Looping, b: Looping)
    requires ValidOptions(o) && Reaches(o, a, b) && LoopValid(o, a)
    ensures LoopValid(o, b)
  {
    var loops, events :| IsLoopRun(o, loops, events) && loops[0] == a && loops[|events|] == b;
    LoopRunKeepsValid(o, loops, events, |events|);
  }

  /** time.Now never goes back. */
  class Clock {
    var now: int

    constructor (start: int)
      ensures now == start
    {
      now := start;
    }

    method Now() returns (t: int)
      modifies this
      ensures old(now) <= t == now
    {
      var elapsed: int := *;
      now := now + Max(elapsed, 0);
      t := now;
    }
  }

  class WorkerPool {
    const options: Options
    var slots: seq<Slot>
    var buffer: seq<OperationResult>
    var closed: bool
    /** The VMs that exist, every name ever used, what creates in flight made, and what operations returned. */
    var vms: set<RunnerID>
    var used: set<RunnerID>
    var made: map<nat, RunnerID>
    var returned: map<nat, OperationResult>
    /** Where the main loop stands. */
    ghost var position: Position

    /** Starts Workers idle goroutines beside a world holding the runners of the startup inventory. */
    constructor (options: Options, runners: seq<Runner>)
      requires ValidOptions(options)
      ensures this.options == options
      ensures View(InitialState(options, runners)) == InitialLoop(options, runners)
    {
      this.options := options;
      slots := seq(options.workers, i => Arriving);
      buffer, closed := [], false;
      vms, used := InventoryOf(runners).Keys, InventoryOf(runners).Keys;
      made, returned := map[], map[];
      position := Entry(InitialState(options, runners));
    }

    /** The loop and the whole system, seen beside the reconciler state s. */
    ghost function View(s: State): Looping
      reads this
    {
      Looping(System(World(s, vms, used, made, returned), slots, buffer, closed), position)
    }

    /** One move of one worker goroutine, or of the operation it is running. */
    method Move(ghost s: State)
      requires ValidOptions(options)
      modifies this
      ensures Reaches(options, old(View(s)), View(s)) && closed == old(closed) && position == old(position)
    {
      ReachesSelf(options, View(s));
      var i: int := *;
      if i < 0 || i >= |slots| {
        return;
      }
      var name: RunnerID := *;
      var result: OperationResult := *;
      ghost var before := View(s);
      if slots[i].Executing? && slots[i].op.kind.Create? && slots[i].op.id !in made && name != "" && name !in used {
        vms, used, made := vms + {name}, used + {name}, made[slots[i].op.id := name];
        ReachesStep(options, before, Background(Make(i, name)), View(s));
      } else if slots[i].Executing? && result.operation == slots[i].op
        && Truthful(World(InitialState(options, []), vms, used, made, returned), result.operation, result) {
        slots, returned := slots[i := Sending(result)], returned[result.operation.id := result];
        ReachesStep(options, before, Background(Finish(i, result)), View(s));
      } else if slots[i].Executing? && slots[i].op.kind.Delete? {
        vms := vms - {slots[i].op.runnerID};
        ReachesStep(options, before, Background(Remove(i)), View(s));
      } else if slots[i].Sending? && |buffer| < options.workers {
        buffer, slots := buffer + [slots[i].result], slots[i := Arriving];
        ReachesStep(options, before, Background(Enqueue(i)), View(s));
      } else if slots[i].Arriving? {
        slots := slots[i := Waiting];
        ReachesStep(options, before, Background(Arrive(i)), View(s));
      } else if slots[i].Waiting? && closed {
        slots := slots[i := Exited];
        ReachesStep(options, before, Background(Exit(i)), View(s));
      }
    }

    /** Lets the workers and the world move for as long as they like while the main loop waits or computes. */
    method Interleave(ghost s: State)
      requires ValidOptions(options)
      modifies this
      ensures Reaches(options, old(View(s)), View(s)) && closed == old(closed) && position == old(position)
    {
      ReachesSelf(options, View(s));
      var moves: int := *;
      while moves > 0
        invariant Reaches(options, old(View(s)), View(s)) && closed == old(closed) && position == old(position)
      {
        ghost var before := View(s);
        Move(s);
        ReachesTransitive(options, old(View(s)), before, View(s));
        moves := moves - 1;
      }
    }

    /** Receives the oldest result; its operation is no longer returned-and-unapplied. */
    method Take()
      requires buffer != []
      modifies this`buffer, this`made, this`returned
      ensures buffer == old(buffer)[1..]
      ensures made == old(made) - {old(buffer)[0].operation.id}
      ensures returned == old(returned) - {old(buffer)[0].operation.id}
    {
      made, returned := made - {buffer[0].operation.id}, returned - {buffer[0].operation.id};
      buffer := buffer[1..];
    }

    /** select { case work <- item: default: } - some worker waiting at the channel takes it, if there is one. */
    method TrySend(item: Operation) returns (ok: bool, ghost slot: nat)
      modifies this`slots
      ensures ok <==> !old(NoneWaiting(slots))
      ensures ok ==> slot < |old(slots)| && old(slots)[slot].Waiting? && slots == old(slots)[slot := Executing(item)]
      ensures !ok ==> slots == old(slots)
    {
      ok, slot := false, 0;
      if i :| 0 <= i < |slots| && slots[i].Waiting? {
        slots, ok, slot := slots[i := Executing(item)], true, i;
      }
    }
  }
}
