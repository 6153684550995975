/**
 * Where the main loop stands: in its select, refreshing after a tick, or somewhere inside a reconcile pass.
 * Operations are handed off only from there, so this is what the concurrent system of Pool can really do.
 */
module MainLoop {
  import opened ControllerTypes
  import opened Reconciler
  import opened Host
  import opened Pool

  /** pending are the runners the first loop of reconcile has not come to yet. */
  datatype Position = Selecting | Refreshing | Deleting(pending: set<RunnerID>) | Creating | Fencing

  datatype Looping = Looping(system: System, position: Position)

  /**
   * Workers and the world move at any time. From its select the loop receives a demand, reads a result, or ticks. Inside,
   * trySchedule tries the channel or finds its operation blocked, and the loops of reconcile run on and end.
   */
  datatype LoopEvent =
    | Background(event: SystemEvent)
    | ReceiveDemand(demand: Demand)
    | ReadResult(now: int)
    | Tick
    | Attempt(event: SystemEvent)
    | Blocked(op: Operation, now: int)
    | Skip(id: RunnerID)
    | NextPhase
    | Stop

  /** Where reconcile stands when it is called: it returns at once from a stale state or beside a list. */
  function Entry(s: State): Position {
    if Settled(s) then Deleting(s.runners.Keys) else Selecting
  }

  /** The call of trySchedule the loop may be at. */
  predicate Matches(p: Position, op: Operation) {
    match p
    case Selecting => false
    case Refreshing => op.kind.List?
    case Deleting(pending) => op.kind.Delete? && op.runnerID in pending
    case Creating => op.kind.Create?
    case Fencing => op.kind.Fence?
  }

  /** Where that call leaves the loop, which breaks when it returns false; s is the state after it. */
  function AfterTry(p: Position, op: Operation, scheduled: bool, s: State): Position {
    match p
    case Selecting => Selecting
    case Refreshing => Entry(s)
    case Deleting(pending) => Deleting(pending - {op.runnerID})
    case Creating => if scheduled then Creating else Fencing
    case Fencing => if scheduled then Fencing else Selecting
  }

  /** A loop of reconcile, or refresh, has nothing to try. */
  predicate PhaseOver(s: State, p: Position) {
    match p
    case Selecting => false
    case Refreshing => s.operations != map[]
    case Deleting(pending) => pending == {}
    case Creating => LiveCapacity(s) >= s.target
    case Fencing => LiveCapacity(s) <= s.target || NoCandidate(s)
  }

  predicate NoCandidate(s: State) {
    forall id | id in s.runners :: !IdleCandidate(s, id)
  }

  function NextPosition(s: State, p: Position): Position {
    match p
    case Selecting => Selecting
    case Refreshing => Entry(s)
    case Deleting(_) => Creating
    case Creating => Fencing
    case Fencing => Selecting
  }

  /** Moves of workers and of the operations they run. */
  predicate IsBackground(e: SystemEvent) {
    e.Arrive? || e.Make? || e.Remove? || e.Finish? || e.Enqueue? || e.Exit?
  }

  /** What an event is to the system. */
  function Beneath(e: LoopEvent): SystemEvent {
    match e
    case Background(event) => event
    case ReceiveDemand(d) => TakeDemand(d)
    case ReadResult(now) => TakeResult(now)
    case Attempt(event) => event
    case Stop => Shutdown
    case _ => SystemEvent.Idle
  }

  /** The result read at the head of the buffer makes apply return true. */
  predicate Applies(y: System) {
    && y.buffer != [] && y.buffer[0].operation.id in y.world.state.operations
    && Succeeds(y.world.state.operations[y.buffer[0].operation.id], y.buffer[0])
  }

  predicate LoopStep(o: Options, l: Looping, e: LoopEvent, l': Looping)
    requires ValidOptions(o)
  {
    var s, s', p, p' := l.system.world.state, l'.system.world.state, l.position, l'.position;
    && SystemStep(o, l.system, Beneath(e), l'.system)
    && match e
       case Background(event) => IsBackground(event) && p' == p
       case ReceiveDemand(_) => p.Selecting? && p' == Entry(s')
       case ReadResult(_) => p.Selecting? && p' == if Applies(l.system) then Entry(s') else Selecting
       case Tick => p.Selecting? && !l.system.closed && p' == Refreshing
       case Attempt(event) =>
         && (event.Handoff? || event.Refuse?)
         && Matches(p, event.op) && p' == AfterTry(p, event.op, event.Handoff?, s')
       case Blocked(op, now) =>
         && Matches(p, op) && op.id == s.nextID + 1 && Wanted(s, op) && !Attemptable(s, op, now)
         && p' == AfterTry(p, op, false, s)
       case Skip(id) =>
         && p.Deleting? && id in p.pending && id in s.runners && !s.runners[id].state.Terminal?
         && p' == Deleting(p.pending - {id})
       case NextPhase => PhaseOver(s, p) && p' == NextPosition(s, p)
       case Stop => p.Selecting? && p'.Selecting?
  }

  ghost predicate IsLoopRun(o: Options, loops: seq<Looping>, events: seq<LoopEvent>)
    requires ValidOptions(o)
  {
    && |loops| == |events| + 1
    && forall i | 0 <= i < |events| :: LoopStep(o, loops[i], events[i], loops[i + 1])
  }

  /** Run starts with a pass. */
  function InitialLoop(o: Options, runners: seq<Runner>): Looping
    requires o.workers >= 0
  {
    var y := InitialSystem(o, runners);
    Looping(y, Entry(y.world.state))
  }

  // ---- Every run of the loop is a run of the system --------------------------------------------------

  /** Inside a pass the state is settled and pending names cached runners; nothing happens inside after Done. */
  ghost predicate PositionValid(l: Looping) {
    var s, p := l.system.world.state, l.position;
    && (p.Deleting? ==> p.pending <= s.runners.Keys)
    && (p.Deleting? || p.Creating? || p.Fencing? ==> Settled(s))
    && (l.system.closed ==> p.Selecting?)
  }

  ghost predicate LoopValid(o: Options, l: Looping) {
    SystemValid(o, l.system) && PositionValid(l)
  }

  lemma LoopStepKeepsValid(o: Options, l: Looping, e: LoopEvent, l': Looping)
    requires ValidOptions(o) && LoopValid(o, l) && LoopStep(o, l, e, l')
    ensures LoopValid(o, l')
  {
    hide SystemStep, SystemValid;
    SystemStepKeepsValid(o, l.system, Beneath(e), l'.system);
    LoopStepKeepsPosition(o, l, e, l');
  }

  lemma LoopStepKeepsPosition(o: Options, l: Looping, e: LoopEvent, l': Looping)
    requires ValidOptions(o) && PositionValid(l) && LoopStep(o, l, e, l')
    ensures PositionValid(l')
  {
    hide Wanted, Attemptable, LiveCapacity, NoCandidate, Truthful;
    match e
    case Background(_) => BackgroundKeepsState(o, l.system, Beneath(e), l'.system);
    case ReceiveDemand(_) =>
    case ReadResult(_) =>
    case Tick =>
    case Attempt(event) => AttemptKeepsSettled(o, l, event, l');
    case Blocked(_, _) =>
    case Skip(_) =>
    case NextPhase =>
    case Stop =>
  }

  lemma BackgroundKeepsState(o: Options, y: System, e: SystemEvent, y': System)
    requires ValidOptions(o) && IsBackground(e) && SystemStep(o, y, e, y')
    ensures y'.world.state == y.world.state && y'.closed == y.closed
  {
    hide Truthful;
  }

  lemma AttemptKeepsSettled(o: Options, l: Looping, e: SystemEvent, l': Looping)
    requires ValidOptions(o) && LoopStep(o, l, Attempt(e), l')
    ensures var s, s' := l.system.world.state, l'.system.world.state;
            && s'.runners == s.runners && l'.system.closed == l.system.closed == false
            && (!e.op.kind.List? && Settled(s) ==> Settled(s'))
  {
    hide Wanted, Attemptable;
  }

  lemma InitialLoopValid(o: Options, runners: seq<Runner>)
    requires ValidOptions(o) && AllValid(runners)
    ensures LoopValid(o, InitialLoop(o, runners))
  {
    hide SystemValid;
    InitialSystemValid(o, runners);
  }

  lemma {:induction false} LoopRunKeepsValid(o: Options, loops: seq<Looping>, events: seq<LoopEvent>, n: nat)
    requires ValidOptions(o) && IsLoopRun(o, loops, events) && LoopValid(o, loops[0]) && n < |loops|
    ensures LoopValid(o, loops[n])
  {
    hide LoopStep, LoopValid;
    if n > 0 {
      LoopRunKeepsValid(o, loops, events, n - 1);
      LoopStepKeepsValid(o, loops[n - 1], events[n - 1], loops[n]);
    }
  }

  ghost function SystemsOf(loops: seq<Looping>): seq<System> {
    seq(|loops|, i requires 0 <= i < |loops| => loops[i].system)
  }

  ghost function EventsOf(events: seq<LoopEvent>): seq<SystemEvent> {
    seq(|events|, i requires 0 <= i < |events| => Beneath(events[i]))
  }

  /** Where the main loop stands only restricts the system: whatever holds of every system run holds of the loop's. */
  lemma LoopRunIsSystemRun(o: Options, loops: seq<Looping>, events: seq<LoopEvent>)
    requires ValidOptions(o) && IsLoopRun(o, loops, events)
    ensures IsSystemRun(o, SystemsOf(loops), EventsOf(events))
  {
    hide SystemStep;
    forall i | 0 <= i < |events|
      ensures SystemStep(o, SystemsOf(loops)[i], EventsOf(events)[i], SystemsOf(loops)[i + 1])
    {
      assert LoopStep(o, loops[i], events[i], loops[i + 1]);
    }
  }
}
