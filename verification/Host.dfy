/**
 * The reconciler beside the VMs that really exist. Operations take effect on the world while they are in
 * flight; a failed one may or may not have taken effect before it returns.
 */
module Host {
  import opened ControllerTypes
  import opened Reconciler
  import opened Invariant
  import opened Capacity
  import opened Traces

  /**
   * vms: the owned VMs that exist. used: every VM name that ever existed. made: the VM each create in flight
   * has made. returned: results produced and not yet applied.
   */
  datatype World = World(
    state: State,
    vms: set<RunnerID>,
    used: set<RunnerID>,
    made: map<nat, RunnerID>,
    returned: map<nat, OperationResult>)

  datatype WorldEvent =
    | Control(event: Event)
    | MakeVM(id: nat, name: RunnerID)
    | RemoveVM(id: nat)
    | Return(id: nat, result: OperationResult)
    | Rest

  predicate InFlight(w: World, id: nat, kind: OperationKind) {
    id in w.state.operations && w.state.operations[id].kind == kind && id !in w.returned
  }

  /** A successful result tells the truth about the world; a failed one promises nothing. */
  predicate Truthful(w: World, op: Operation, r: OperationResult) {
    r.failed ||
    match op.kind
    case List => InventoryOf(r.runners).Keys == w.vms
    case Create => op.id in w.made && r.runner.id == w.made[op.id]
    case Fence => true
    case Delete => op.runnerID !in w.vms
  }

  predicate WorldStep(o: Options, w: World, e: WorldEvent, w': World)
    requires ValidOptions(o)
  {
    match e
    case Control(c) =>
      && Step(o, w.state, c, w'.state)
      && (c.Applied? ==> c.result.operation.id in w.returned && w.returned[c.result.operation.id] == c.result)
      && w' == w.(state := w'.state,
                  made := if c.Applied? then w.made - {c.result.operation.id} else w.made,
                  returned := if c.Applied? then w.returned - {c.result.operation.id} else w.returned)
    case MakeVM(id, name) =>
      && InFlight(w, id, Create) && id !in w.made && name != "" && name !in w.used
      && w' == w.(vms := w.vms + {name}, used := w.used + {name}, made := w.made[id := name])
    case RemoveVM(id) =>
      && InFlight(w, id, Delete)
      && w' == w.(vms := w.vms - {w.state.operations[id].runnerID})
    case Return(id, r) =>
      && id in w.state.operations && id !in w.returned && r.operation == w.state.operations[id]
      && Truthful(w, r.operation, r)
      && w' == w.(returned := w.returned[id := r])
    case Rest => w' == w
  }

  /** The world Run starts from: one truthful startup inventory and nothing in flight. */
  function InitialWorld(o: Options, runners: seq<Runner>): World {
    var names := InventoryOf(runners).Keys;
    World(InitialState(o, runners), names, names, map[], map[])
  }

  ghost predicate IsWorldRun(o: Options, worlds: seq<World>, events: seq<WorldEvent>)
    requires ValidOptions(o)
  {
    && |worlds| == |events| + 1
    && forall i | 0 <= i < |events| :: WorldStep(o, worlds[i], events[i], worlds[i + 1])
  }

  // ---- Projection to the reconciler's runs ---------------------------------------------------------

  /** The reconciler event a world event performs; environment moves leave the reconciler alone. */
  function Reconciled(e: WorldEvent): Event {
    if e.Control? then e.event else Stutter
  }

  ghost function States(worlds: seq<World>): seq<State> {
    seq(|worlds|, i requires 0 <= i < |worlds| => worlds[i].state)
  }

  ghost function Events(events: seq<WorldEvent>): seq<Event> {
    seq(|events|, i requires 0 <= i < |events| => Reconciled(events[i]))
  }

  // ---- Invariant ----------------------------------------------------------------------------------

  function DeleteTargets(s: State): set<RunnerID> {
    set k | k in s.operations && s.operations[k].kind.Delete? :: s.operations[k].runnerID
  }

  ghost predicate NamesUsed(w: World) {
    && w.vms <= w.used
    && w.state.runners.Keys <= w.used
  }

  /** What a create in flight has made exists, is not in the cache yet, and was made by it alone. */
  ghost predicate MadeVMs(w: World) {
    && (forall k | k in w.made ::
          && k in w.state.operations && w.state.operations[k].kind.Create?
          && w.made[k] in w.vms && w.made[k] !in w.state.runners && w.made[k] != "")
    && (forall j, k | j in w.made && k in w.made && w.made[j] == w.made[k] :: j == k)
  }

  ghost predicate ReturnedTruth(w: World) {
    forall k | k in w.returned ::
      k in w.state.operations && w.returned[k].operation == w.state.operations[k]
      && Truthful(w, w.state.operations[k], w.returned[k])
  }

  /**
   * The cache refines the world: what exists unseen was made by a create in flight, and what is only
   * remembered is the target of a delete in flight.
   */
  ghost predicate CacheRefinesWorld(w: World) {
    && w.vms - w.state.runners.Keys <= w.made.Values
    && w.state.runners.Keys - w.vms <= DeleteTargets(w.state)
  }

  ghost predicate WorldValid(w: World) {
    && Valid(w.state)
    && TargetsObserved(w.state)
    && NamesUsed(w)
    && MadeVMs(w)
    && ReturnedTruth(w)
    && (!w.state.stale ==> CacheRefinesWorld(w))
  }

  lemma InitialWorldValid(o: Options, runners: seq<Runner>)
    requires AllValid(runners)
    ensures WorldValid(InitialWorld(o, runners))
  {
    InitialValid(o, runners);
  }

  /** In the world, a successful create is fresh: its name is not in the cache. */
  lemma WorldCreatesAreFresh(o: Options, w: World, e: WorldEvent, w': World)
    requires ValidOptions(o) && WorldValid(w) && WorldStep(o, w, e, w') && e.Control?
    ensures FreshResult(w.state, e.event)
  {
  }

  // ---- Environment steps --------------------------------------------------------------------------

  lemma MakeKeepsValid(o: Options, w: World, id: nat, name: RunnerID, w': World)
    requires ValidOptions(o) && WorldValid(w) && WorldStep(o, w, MakeVM(id, name), w')
    ensures WorldValid(w')
  {
    assert forall k | k in w.made :: w.made[k] in w.used;
    NoListBeside(w.state, id);
    forall k | k in w'.returned ensures Truthful(w', w'.state.operations[k], w'.returned[k]) {
      assert Truthful(w, w.state.operations[k], w.returned[k]);
      if w.state.operations[k].kind.Delete? {
        assert w.state.operations[k].runnerID in w.state.runners;
      }
    }
    if !w'.state.stale {
      assert w'.made[id] == name;
      forall v | v in w'.vms - w'.state.runners.Keys ensures v in w'.made.Values {
        if v != name {
          assert v in w.made.Values;
          var k :| k in w.made && w.made[k] == v;
          assert w'.made[k] == v;
        }
      }
    }
  }

  lemma NoListBeside(s: State, id: nat)
    requires Valid(s) && id in s.operations && !s.operations[id].kind.List?
    ensures !Inventorying(s)
  {
    assert forall k | k in s.operations && s.operations[k].kind.List? :: s.operations.Keys == {k};
  }

  lemma RemoveKeepsValid(o: Options, w: World, id: nat, w': World)
    requires ValidOptions(o) && WorldValid(w) && WorldStep(o, w, RemoveVM(id), w')
    ensures WorldValid(w')
  {
    NoListBeside(w.state, id);
    var gone := w.state.operations[id].runnerID;
    assert gone in w.state.runners;
    assert gone in DeleteTargets(w.state);
    forall k | k in w'.returned ensures Truthful(w', w'.state.operations[k], w'.returned[k]) {
      assert Truthful(w, w.state.operations[k], w.returned[k]);
    }
  }

  lemma ReturnKeepsValid(o: Options, w: World, id: nat, r: OperationResult, w': World)
    requires ValidOptions(o) && WorldValid(w) && WorldStep(o, w, Return(id, r), w')
    ensures WorldValid(w')
  {
    forall k | k in w'.returned ensures Truthful(w', w'.state.operations[k], w'.returned[k]) {
      if k != id {
        assert Truthful(w, w.state.operations[k], w.returned[k]);
      }
    }
  }

  // ---- Reconciler steps ---------------------------------------------------------------------------

  lemma QuietControlKeepsValid(o: Options, w: World, c: Event, w': World)
    requires ValidOptions(o) && WorldValid(w) && WorldStep(o, w, Control(c), w') && !c.Applied?
    requires Valid(w'.state) && TargetsObserved(w'.state)
    ensures WorldValid(w')
  {
    var s, s' := w.state, w'.state;
    assert s'.runners == s.runners && s'.stale == s.stale;
    assert forall k | k in s.operations :: k in s'.operations && s'.operations[k] == s.operations[k];
    forall k | k in w'.returned ensures Truthful(w', w'.state.operations[k], w'.returned[k]) {
      assert Truthful(w, w.state.operations[k], w.returned[k]);
    }
    if !s'.stale {
      forall v | v in DeleteTargets(s) ensures v in DeleteTargets(s') {
        var k :| k in s.operations && s.operations[k].kind.Delete? && s.operations[k].runnerID == v;
        assert s'.operations[k].runnerID == v;
      }
    }
  }

  lemma ApplyKeepsNames(o: Options, w: World, c: Event, w': World)
    requires ValidOptions(o) && WorldValid(w) && WorldStep(o, w, Control(c), w') && c.Applied?
    requires Valid(w'.state)
    ensures NamesUsed(w') && MadeVMs(w')
  {
    var s, s', r := w.state, w'.state, c.result;
    var id := r.operation.id;
    var op := s.operations[id];
    assert Truthful(w, op, r);
    if op.kind.List? {
      assert s.operations.Keys == {id};
      assert w.made.Keys <= {id} && id !in w.made;
      assert w'.made.Keys == {};
    }
    SettleFrame(o, s, r, c.now);
    SettledRunners(o, s, r, c.now);
    forall k | k in w'.made ensures w'.made[k] !in s'.runners {
      assert op.kind.Create? && Succeeds(op, r) ==> w.made[id] == r.runner.id && w.made[k] != w.made[id];
    }
  }

  /** Where the cached runners of an applied result come from. */
  lemma SettledRunners(o: Options, s: State, r: OperationResult, now: int)
    requires ValidOptions(o) && r.operation.id in s.operations
    ensures var op := s.operations[r.operation.id];
            Settle(o, s, r, now).runners ==
              if !Succeeds(op, r) then s.runners
              else match op.kind
                case List => InventoryOf(r.runners)
                case Create => s.runners[r.runner.id := r.runner]
                case Fence => s.runners
                case Delete => s.runners - {op.runnerID}
    ensures Settle(o, s, r, now).stale ==
              (!Succeeds(s.operations[r.operation.id], r) || (s.stale && !s.operations[r.operation.id].kind.List?))
  {
    var op := s.operations[r.operation.id];
    if Succeeds(op, r) {
      match op.kind
      case List =>
      case Create =>
      case Fence =>
      case Delete =>
    }
  }

  lemma ApplyKeepsTruth(o: Options, w: World, c: Event, w': World)
    requires ValidOptions(o) && WorldValid(w) && WorldStep(o, w, Control(c), w') && c.Applied?
    ensures ReturnedTruth(w')
  {
    SettleFrame(o, w.state, c.result, c.now);
    forall k | k in w'.returned
      ensures k in w'.state.operations && w'.returned[k].operation == w'.state.operations[k]
      ensures Truthful(w', w'.state.operations[k], w'.returned[k])
    {
      assert Truthful(w, w.state.operations[k], w.returned[k]);
    }
  }

  lemma ApplyKeepsRefinement(o: Options, w: World, c: Event, w': World)
    requires ValidOptions(o) && WorldValid(w) && WorldStep(o, w, Control(c), w') && c.Applied?
    requires !w'.state.stale
    ensures CacheRefinesWorld(w')
  {
    var s, s', r := w.state, w'.state, c.result;
    var id := r.operation.id;
    var op := s.operations[id];
    assert Truthful(w, op, r);
    SettleFrame(o, s, r, c.now);
    SettledRunners(o, s, r, c.now);
    if !op.kind.List? {
      MadeSurvive(w, w', id, op, r);
      DeletesSurvive(w, w', id, op, r);
    }
  }

  lemma MadeSurvive(w: World, w': World, id: nat, op: Operation, r: OperationResult)
    requires WorldValid(w) && CacheRefinesWorld(w)
    requires id in w.state.operations && op == w.state.operations[id] && !op.kind.List? && Succeeds(op, r)
    requires Truthful(w, op, r)
    requires w'.vms == w.vms && w'.made == w.made - {id}
    requires w'.state.runners ==
               if op.kind.Create? then w.state.runners[r.runner.id := r.runner]
               else if op.kind.Delete? then w.state.runners - {op.runnerID} else w.state.runners
    ensures w'.vms - w'.state.runners.Keys <= w'.made.Values
  {
    forall v | v in w'.vms - w'.state.runners.Keys ensures v in w'.made.Values {
      assert v in w.vms - w.state.runners.Keys;
      var k :| k in w.made && w.made[k] == v;
      assert k != id;
      assert w'.made[k] == v;
    }
  }

  lemma DeletesSurvive(w: World, w': World, id: nat, op: Operation, r: OperationResult)
    requires WorldValid(w) && CacheRefinesWorld(w)
    requires id in w.state.operations && op == w.state.operations[id] && !op.kind.List? && Succeeds(op, r)
    requires Truthful(w, op, r)
    requires w'.vms == w.vms && w'.state.operations == w.state.operations - {id}
    requires w'.state.runners ==
               if op.kind.Create? then w.state.runners[r.runner.id := r.runner]
               else if op.kind.Delete? then w.state.runners - {op.runnerID} else w.state.runners
    ensures w'.state.runners.Keys - w'.vms <= DeleteTargets(w'.state)
  {
    forall v | v in w'.state.runners.Keys - w'.vms ensures v in DeleteTargets(w'.state) {
      assert v in w.state.runners.Keys - w.vms;
      var k :| k in w.state.operations && w.state.operations[k].kind.Delete? && w.state.operations[k].runnerID == v;
      assert k != id;
      assert w'.state.operations[k].runnerID == v;
    }
  }

  /** Every step keeps the invariant, with operations failing or succeeding in any way that tells the truth. */
  lemma WorldStepKeepsValid(o: Options, w: World, e: WorldEvent, w': World)
    requires ValidOptions(o) && WorldValid(w) && WorldStep(o, w, e, w')
    ensures WorldValid(w')
  {
    hide Step;
    match e
    case MakeVM(id, name) => MakeKeepsValid(o, w, id, name, w');
    case RemoveVM(id) => RemoveKeepsValid(o, w, id, w');
    case Return(id, r) => ReturnKeepsValid(o, w, id, r, w');
    case Rest =>
    case Control(c) =>
      WorldCreatesAreFresh(o, w, e, w');
      StepKeepsValid(o, w.state, c, w'.state);
      StepKeepsTargetsObserved(o, w.state, c, w'.state);
      if c.Applied? {
        ApplyKeepsNames(o, w, c, w');
        ApplyKeepsTruth(o, w, c, w');
        if !w'.state.stale {
          ApplyKeepsRefinement(o, w, c, w');
        }
      } else {
        QuietControlKeepsValid(o, w, c, w');
      }
  }

  lemma {:induction false} WorldRunKeepsValid(o: Options, worlds: seq<World>, events: seq<WorldEvent>, n: nat)
    requires ValidOptions(o) && IsWorldRun(o, worlds, events) && WorldValid(worlds[0]) && n < |worlds|
    ensures WorldValid(worlds[n])
  {
    hide WorldStep, WorldValid;
    if n > 0 {
      WorldRunKeepsValid(o, worlds, events, n - 1);
      WorldStepKeepsValid(o, worlds[n - 1], events[n - 1], worlds[n]);
    }
  }

  /** In every reachable state whose inventory is not stale, the cache refines the world. */
  lemma CacheRefinesWorldThroughout(o: Options, runners: seq<Runner>, worlds: seq<World>, events: seq<WorldEvent>, n: nat)
    requires ValidOptions(o) && IsWorldRun(o, worlds, events) && n < |worlds|
    requires AllValid(runners) && worlds[0] == InitialWorld(o, runners)
    requires !worlds[n].state.stale
    ensures CacheRefinesWorld(worlds[n])
    ensures worlds[n].state.operations == map[] ==> worlds[n].state.runners.Keys == worlds[n].vms
  {
    InitialWorldValid(o, runners);
    WorldRunKeepsValid(o, worlds, events, n);
    QuietCacheIsExact(worlds[n]);
  }

  lemma QuietCacheIsExact(w: World)
    requires WorldValid(w) && !w.state.stale
    ensures w.state.operations == map[] ==> w.state.runners.Keys == w.vms
  {
    if w.state.operations == map[] {
      assert w.made.Keys == {};
      assert w.made.Values == {};
      assert DeleteTargets(w.state) == {};
    }
  }

  // ---- Whole runs of the world are fresh-named runs of the reconciler --------------------------------

  lemma {:induction false} UsedGrows(o: Options, worlds: seq<World>, events: seq<WorldEvent>, m: nat, n: nat)
    requires ValidOptions(o) && IsWorldRun(o, worlds, events) && m <= n < |worlds|
    ensures worlds[m].used <= worlds[n].used
  {
    hide Step;
    if m < n {
      UsedGrows(o, worlds, events, m, n - 1);
      assert WorldStep(o, worlds[n - 1], events[n - 1], worlds[n]);
    }
  }

  /** The VM made by a create in flight has never been in the cache. */
  lemma {:induction false} MadeNeverCached(
    o: Options, worlds: seq<World>, events: seq<WorldEvent>, m: nat, n: nat, id: nat)
    requires ValidOptions(o) && IsWorldRun(o, worlds, events) && WorldValid(worlds[0])
    requires m <= n < |worlds| && id in worlds[n].made
    ensures worlds[n].made[id] !in worlds[m].state.runners
    decreases n
  {
    hide Step;
    WorldRunKeepsValid(o, worlds, events, n);
    if m < n {
      assert WorldStep(o, worlds[n - 1], events[n - 1], worlds[n]);
      if id in worlds[n - 1].made {
        MadeNeverCached(o, worlds, events, m, n - 1, id);
      } else {
        WorldRunKeepsValid(o, worlds, events, m);
        UsedGrows(o, worlds, events, m, n - 1);
      }
    }
  }

  lemma CreatedWasMade(o: Options, w: World, e: WorldEvent, w': World)
    requires ValidOptions(o) && WorldValid(w) && WorldStep(o, w, e, w')
    requires Succeeded(w.state, Reconciled(e), Create)
    ensures e.Control? && e.event.Applied?
    ensures e.event.result.operation.id in w.made
    ensures e.event.result.runner.id == w.made[e.event.result.operation.id]
  {
    assert Truthful(w, w.state.operations[e.event.result.operation.id], e.event.result);
  }

  /** Every run of the world is, for the reconciler, a run whose created names are fresh. */
  lemma WorldRunIsFreshRun(o: Options, worlds: seq<World>, events: seq<WorldEvent>)
    requires ValidOptions(o) && IsWorldRun(o, worlds, events) && WorldValid(worlds[0])
    ensures IsRun(o, States(worlds), Events(events))
    ensures FreshNames(States(worlds), Events(events))
  {
    hide Step, Succeeded, WorldValid;
    var states, evs := States(worlds), Events(events);
    forall i | 0 <= i < |evs| ensures Step(o, states[i], evs[i], states[i + 1]) {
      ProjectStep(o, worlds[i], events[i], worlds[i + 1]);
    }
    forall l, m | 0 <= m <= l < |evs| && Succeeded(states[l], evs[l], Create)
      ensures evs[l].Applied? && evs[l].result.runner.id !in states[m].runners
    {
      WorldRunKeepsValid(o, worlds, events, l);
      assert WorldStep(o, worlds[l], events[l], worlds[l + 1]);
      CreatedWasMade(o, worlds[l], events[l], worlds[l + 1]);
      MadeNeverCached(o, worlds, events, m, l, events[l].event.result.operation.id);
    }
  }

  lemma ProjectStep(o: Options, w: World, e: WorldEvent, w': World)
    requires ValidOptions(o) && WorldStep(o, w, e, w')
    ensures Step(o, w.state, Reconciled(e), w'.state)
  {
    hide Settle, Wanted;
  }
}
