/**
 * What the reconciler knows of one runner, told from the run's events alone. The reconciler's maps and sets, updated
 * all at once, come to exactly this for every runner.
 */
module History {
  import opened Wrappers
  import opened ControllerTypes
  import opened Reconciler
  import opened Invariant
  import opened Traces
  import opened Cooldowns

  /** A good answer to an operation of this kind is applied. */
  predicate Done(s: State, e: Event, kind: OperationKind) {
    && e.Applied? && e.result.operation.id in s.operations
    && s.operations[e.result.operation.id].kind == kind && Good(kind, e.result)
  }

  /** A bad answer to an operation of any kind is applied. */
  predicate Spoiled(s: State, e: Event) {
    && e.Applied? && e.result.operation.id in s.operations
    && !Good(s.operations[e.result.operation.id].kind, e.result)
  }

  /** A good answer to an operation of this kind on this runner is applied. */
  predicate DoneTo(s: State, e: Event, kind: OperationKind, id: RunnerID) {
    Done(s, e, kind) && s.operations[e.result.operation.id].runnerID == id
  }

  /** Where a snapshot speaks of a runner for the last time. */
  ghost predicate LastListedAt(runners: seq<Runner>, id: RunnerID, i: int) {
    0 <= i < |runners| && runners[i].id == id && forall j | i < j < |runners| :: runners[j].id != id
  }

  /** The snapshot lists this runner, and does so last as entry. */
  ghost predicate ListedAs(runners: seq<Runner>, id: RunnerID, entry: Runner) {
    exists i :: LastListedAt(runners, id, i) && runners[i] == entry
  }

  ghost predicate Listed(runners: seq<Runner>, id: RunnerID) {
    exists i | 0 <= i < |runners| :: runners[i].id == id
  }

  /** The inventory of a snapshot holds the runners it lists, each as it is listed last. */
  lemma {:induction false} InventoryIsLastListed(runners: seq<Runner>, id: RunnerID)
    ensures id in InventoryOf(runners) <==> Listed(runners, id)
    ensures id in InventoryOf(runners) ==> ListedAs(runners, id, InventoryOf(runners)[id])
  {
    if runners != [] {
      var n := |runners| - 1;
      InventoryIsLastListed(runners[..n], id);
      if runners[n].id == id {
        assert LastListedAt(runners, id, n);
      } else if id in InventoryOf(runners) {
        var i :| LastListedAt(runners[..n], id, i) && runners[..n][i] == InventoryOf(runners)[id];
        assert LastListedAt(runners, id, i) && runners[i] == InventoryOf(runners)[id];
      }
    }
  }

  lemma ListedAsOnce(runners: seq<Runner>, id: RunnerID, a: Runner, b: Runner)
    requires ListedAs(runners, id, a) && ListedAs(runners, id, b)
    ensures a == b
  {
    var i :| LastListedAt(runners, id, i) && runners[i] == a;
    var j :| LastListedAt(runners, id, j) && runners[j] == b;
    assert i == j;
  }

  /** What is known of one runner. */
  datatype Known = Known(cached: Option<Runner>, authority: Option<nat>, fenced: bool, busy: bool)

  /** after is what is known of a runner, of which before was known, once e has happened. */
  ghost predicate Learned(before: Known, s: State, e: Event, id: RunnerID, after: Known) {
    // The busy snapshot is the latest demand's; only deletion clears a runner from it.
    && after.busy == (if e.DemandUpdate? then id != "" && id in e.demand.busyRunners
                      else before.busy && !DoneTo(s, e, Delete, id))
    // A runner is cached as last listed or created, and dropped where it is not listed or is deleted.
    && (Done(s, e, List) ==>
          && (after.cached.Some? <==> Listed(e.result.runners, id))
          && (after.cached.Some? ==> ListedAs(e.result.runners, id, after.cached.value)))
    && (Done(s, e, Create) && e.result.runner.id == id ==> after.cached == Some(e.result.runner))
    && (DoneTo(s, e, Delete, id) ==> after.cached == None)
    && (!Done(s, e, List) && !(Done(s, e, Create) && e.result.runner.id == id) && !DoneTo(s, e, Delete, id) ==>
          after.cached == before.cached)
    // Authority comes with creation, under the create's generation, and goes with the cache entry.
    && (Done(s, e, Create) && e.result.runner.id == id ==>
          after.authority == Some(s.operations[e.result.operation.id].generation))
    && (!(Done(s, e, Create) && e.result.runner.id == id) ==>
          after.authority == if (Done(s, e, List) && after.cached == None) || DoneTo(s, e, Delete, id) then None
                             else before.authority)
    // A fence lasts as long as the cache entry.
    && after.fenced == (DoneTo(s, e, Fence, id)
                        || (before.fenced && !DoneTo(s, e, Delete, id) && !(Done(s, e, List) && after.cached == None)))
  }

  /** What the reconciler's state says of one runner. */
  ghost function Knows(s: State, id: RunnerID): Known {
    Known(if id in s.runners then Some(s.runners[id]) else None,
          if id in s.created then Some(s.created[id]) else None,
          id in s.fenced, id in s.busy)
  }

  /** Every event teaches the reconciler about every runner exactly what it should. */
  lemma KnowledgeIsLearned(o: Options, s: State, e: Event, s': State, id: RunnerID)
    requires ValidOptions(o) && Step(o, s, e, s')
    ensures Learned(Knows(s, id), s, e, id, Knows(s', id))
  {
    hide Good, Settle, Wanted, Attemptable, LastListedAt;
    if e.Applied? {
      var op := s.operations[e.result.operation.id];
      GoodMeansSucceeds(op, e.result);
      SettleTeaches(o, s, e.result, e.now, id);
      if Succeeds(op, e.result) {
        ObservationTeaches(s, e, op, Knows(s', id), id);
      }
    }
  }

  lemma SettleTeaches(o: Options, s: State, r: OperationResult, now: int, id: RunnerID)
    requires ValidOptions(o) && r.operation.id in s.operations
    ensures var op, s' := s.operations[r.operation.id], Settle(o, s, r, now);
            Knows(s', id) == if Succeeds(op, r) then Knows(Observe(Release(s, op), op, r), id) else Knows(s, id)
  {
    hide Observe, Succeeds;
  }

  lemma ObservationTeaches(s: State, e: Event, op: Operation, after: Known, id: RunnerID)
    requires e.Applied? && e.result.operation.id in s.operations && op == s.operations[e.result.operation.id]
    requires Good(op.kind, e.result) && after == Knows(Observe(Release(s, op), op, e.result), id)
    ensures Learned(Knows(s, id), s, e, id, after)
  {
    hide Learned, Observe, Release, Knows, Good;
    match op.kind
    case List => InventoryTeaches(s, e, op, after, id);
    case Create => CreationTeaches(s, e, op, after, id);
    case Fence => FenceTeaches(s, e, op, after, id);
    case Delete => DeletionTeaches(s, e, op, after, id);
  }

  lemma FenceTeaches(s: State, e: Event, op: Operation, after: Known, id: RunnerID)
    requires e.Applied? && e.result.operation.id in s.operations && op == s.operations[e.result.operation.id]
    requires Good(op.kind, e.result) && after == Knows(Observe(Release(s, op), op, e.result), id) && op.kind.Fence?
    ensures Learned(Knows(s, id), s, e, id, after)
  {
    hide Good, Listed, ListedAs, InventoryOf, Done, DoneTo;
    DoneExactly(s, e, op);
  }

  lemma DeletionTeaches(s: State, e: Event, op: Operation, after: Known, id: RunnerID)
    requires e.Applied? && e.result.operation.id in s.operations && op == s.operations[e.result.operation.id]
    requires Good(op.kind, e.result) && after == Knows(Observe(Release(s, op), op, e.result), id) && op.kind.Delete?
    ensures Learned(Knows(s, id), s, e, id, after)
  {
    hide Good, Listed, ListedAs, InventoryOf, Done, DoneTo;
    DoneExactly(s, e, op);
  }

  lemma CreationTeaches(s: State, e: Event, op: Operation, after: Known, id: RunnerID)
    requires e.Applied? && e.result.operation.id in s.operations && op == s.operations[e.result.operation.id]
    requires Good(op.kind, e.result) && after == Knows(Observe(Release(s, op), op, e.result), id) && op.kind.Create?
    ensures Learned(Knows(s, id), s, e, id, after)
  {
    hide Good, Listed, ListedAs, InventoryOf, Done, DoneTo;
    DoneExactly(s, e, op);
  }

  lemma DoneExactly(s: State, e: Event, op: Operation)
    requires e.Applied? && e.result.operation.id in s.operations && op == s.operations[e.result.operation.id]
    requires Good(op.kind, e.result)
    ensures forall kind :: Done(s, e, kind) <==> kind == op.kind
    ensures forall kind, id :: DoneTo(s, e, kind, id) <==> kind == op.kind && id == op.runnerID
  {
    hide Good;
  }

  lemma InventoryTeaches(s: State, e: Event, op: Operation, after: Known, id: RunnerID)
    requires e.Applied? && e.result.operation.id in s.operations && op == s.operations[e.result.operation.id]
    requires Good(op.kind, e.result) && after == Knows(Observe(Release(s, op), op, e.result), id) && op.kind.List?
    ensures Learned(Knows(s, id), s, e, id, after)
  {
    hide Good, Listed, ListedAs, InventoryOf, Done, DoneTo;
    DoneExactly(s, e, op);
    InventoryIsLastListed(e.result.runners, id);
  }

  /** The knowledge of one runner along a run. */
  ghost predicate IsHistory(states: seq<State>, events: seq<Event>, id: RunnerID, known: seq<Known>)
    requires |states| == |events| + 1
  {
    && |known| == |states|
    && known[0] == Known(if id in states[0].runners then Some(states[0].runners[id]) else None, None, false, false)
    && forall i | 0 <= i < |events| :: Learned(known[i], states[i], events[i], id, known[i + 1])
  }

  lemma LearnedOnce(before: Known, s: State, e: Event, id: RunnerID, a: Known, b: Known)
    requires Learned(before, s, e, id, a) && Learned(before, s, e, id, b)
    ensures a == b
  {
    hide Good, Listed, ListedAs;
    if Done(s, e, List) && a.cached.Some? {
      ListedAsOnce(e.result.runners, id, a.cached.value, b.cached.value);
    }
  }

  lemma {:induction false} KnowledgeIsHistory(
    o: Options, states: seq<State>, events: seq<Event>, id: RunnerID, known: seq<Known>, n: nat)
    requires ValidOptions(o) && IsRun(o, states, events) && IsHistory(states, events, id, known) && n < |states|
    requires states[0].created == map[] && states[0].fenced == {} && states[0].busy == {}
    ensures Knows(states[n], id) == known[n]
  {
    hide Step, Learned;
    if n > 0 {
      KnowledgeIsHistory(o, states, events, id, known, n - 1);
      KnowledgeIsLearned(o, states[n - 1], events[n - 1], states[n], id);
      LearnedOnce(known[n - 1], states[n - 1], events[n - 1], id, known[n], Knows(states[n], id));
    }
  }

  /** The session of the last demand received. */
  ghost function LastSession(events: seq<Event>, n: nat): nat
    requires n <= |events|
  {
    if n == 0 then 0
    else if events[n - 1].DemandUpdate? then events[n - 1].demand.generation
    else LastSession(events, n - 1)
  }

  lemma {:induction false} GenerationIsLastSession(o: Options, states: seq<State>, events: seq<Event>, n: nat)
    requires ValidOptions(o) && IsRun(o, states, events) && states[0].generation == 0 && n <= |events|
    ensures states[n].generation == LastSession(events, n)
  {
    hide Step;
    if n > 0 {
      GenerationIsLastSession(o, states, events, n - 1);
      StepFrame(o, states[n - 1], events[n - 1], states[n]);
    }
  }

  /**
   * A runner may be fenced exactly if, by the history so far, it is cached idle or ready, was created in the session
   * of the last demand, is not busy in that demand's snapshot and not fenced, and no operation in flight is on it.
   */
  lemma IdleCandidateExactly(
    o: Options, states: seq<State>, events: seq<Event>, id: RunnerID, known: seq<Known>, n: nat)
    requires ValidOptions(o) && IsRun(o, states, events) && IsHistory(states, events, id, known) && n < |states|
    requires Valid(states[0]) && states[0].created == map[] && states[0].fenced == {} && states[0].busy == {}
    requires states[0].generation == 0
    ensures IdleCandidate(states[n], id) <==>
              && known[n].cached.Some? && (known[n].cached.value.state.Idle? || known[n].cached.value.state.Ready?)
              && known[n].authority == Some(LastSession(events, n))
              && !known[n].busy && !known[n].fenced
              && forall k | k in states[n].operations :: states[n].operations[k].runnerID != id
  {
    hide Step, Learned;
    KnowledgeIsHistory(o, states, events, id, known, n);
    GenerationIsLastSession(o, states, events, n);
    RunKeepsValid(o, states, events, n);
  }

  /** A bad answer was applied at i, and no good inventory after it and before n. */
  ghost predicate StaleSince(states: seq<State>, events: seq<Event>, i: int, n: nat)
    requires |states| == |events| + 1 && n <= |events|
  {
    0 <= i < n && Spoiled(states[i], events[i]) && forall j | i < j < n :: !Done(states[j], events[j], List)
  }

  /** The cache is stale exactly while no good inventory has been applied since the last bad answer. */
  lemma {:induction false} StaleExactly(o: Options, states: seq<State>, events: seq<Event>, n: nat)
    requires ValidOptions(o) && IsRun(o, states, events) && !states[0].stale && n <= |events|
    ensures states[n].stale <==> exists i :: StaleSince(states, events, i, n)
  {
    hide Step, Done, Spoiled;
    if n > 0 {
      var m := n - 1;
      StaleExactly(o, states, events, m);
      StaleStep(o, states[n - 1], events[n - 1], states[n]);
      if Spoiled(states[n - 1], events[n - 1]) {
        assert StaleSince(states, events, n - 1, n);
      } else if !Done(states[n - 1], events[n - 1], List) {
        if i :| StaleSince(states, events, i, m) {
          assert StaleSince(states, events, i, n);
        }
        if i :| StaleSince(states, events, i, n) {
          assert StaleSince(states, events, i, m);
        }
      } else if i :| StaleSince(states, events, i, n) {
        assert false;
      }
    }
  }

  lemma StaleStep(o: Options, s: State, e: Event, s': State)
    requires ValidOptions(o) && Step(o, s, e, s')
    ensures s'.stale == (Spoiled(s, e) || (s.stale && !Done(s, e, List)))
    ensures !(Spoiled(s, e) && Done(s, e, List))
  {
    hide Good, Settle, Wanted, Attemptable;
    if e.Applied? {
      GoodMeansSucceeds(s.operations[e.result.operation.id], e.result);
      SettleStale(o, s, e.result, e.now);
    }
  }

  lemma SettleStale(o: Options, s: State, r: OperationResult, now: int)
    requires ValidOptions(o) && r.operation.id in s.operations
    ensures var op := s.operations[r.operation.id];
            Settle(o, s, r, now).stale == (!Succeeds(op, r) || (s.stale && !op.kind.List?))
  {
    hide Succeeds, InventoryOf;
  }
}
