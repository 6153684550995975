/** Safety over whole runs: the stale-inventory barrier and the authority behind every fence. */
module Traces {
  import opened ControllerTypes
  import opened Reconciler
  import opened Invariant
  import opened Capacity

  /** What the events of a run do to the operations in flight and to the session bookkeeping. */
  lemma StepFrame(o: Options, s: State, e: Event, s': State)
    requires ValidOptions(o) && Step(o, s, e, s')
    ensures s'.generation == if e.DemandUpdate? then e.demand.generation else s.generation
    ensures s'.nextID >= s.nextID
    ensures e.Scheduled? ==> s'.operations == s.operations[e.op.id := e.op] && e.op.id == s.nextID + 1
    ensures e.Applied? ==> s'.operations == s.operations - {s.operations[e.result.operation.id].id}
    ensures e.DemandUpdate? || e.Refused? || e.Stutter? ==> s'.operations == s.operations
  {
    match e
    case DemandUpdate(d) =>
    case Scheduled(op, now) =>
    case Refused(op, now) =>
    case Applied(r, now) => SettleFrame(o, s, r, now);
    case Stutter =>
  }

  lemma SettleFrame(o: Options, s: State, r: OperationResult, now: int)
    requires ValidOptions(o) && r.operation.id in s.operations
    ensures var s' := Settle(o, s, r, now);
            && s'.generation == s.generation && s'.nextID == s.nextID
            && s'.operations == s.operations - {s.operations[r.operation.id].id}
  {
    var op := s.operations[r.operation.id];
    var released := Release(s, op);
    if Succeeds(op, r) {
      ObserveFrame(released, op, r);
    }
  }

  lemma ObserveFrame(s: State, op: Operation, r: OperationResult)
    ensures var s' := Observe(s, op, r);
            s'.generation == s.generation && s'.nextID == s.nextID && s'.operations == s.operations
  {
  }

  /** An operation in flight at m and not at n was scheduled in between, and the lemma says where. */
  lemma {:induction false} OperationOrigin(
    o: Options, states: seq<State>, events: seq<Event>, n: nat, m: nat, id: nat) returns (k: nat)
    requires ValidOptions(o) && IsRun(o, states, events) && n <= m < |states| && Valid(states[0])
    requires id in states[m].operations && id !in states[n].operations
    ensures n <= k < m && events[k].Scheduled? && events[k].op == states[m].operations[id]
  {
    hide Step;
    var last := m - 1;
    IDsBoundOperations(o, states, events, last);
    StepFrame(o, states[last], events[last], states[m]);
    if id in states[last].operations {
      k := OperationOrigin(o, states, events, n, last, id);
    } else {
      k := last;
    }
  }

  lemma IDsBoundOperations(o: Options, states: seq<State>, events: seq<Event>, n: nat)
    requires ValidOptions(o) && IsRun(o, states, events) && Valid(states[0]) && n < |states|
    ensures OperationsNumbered(states[n])
  {
    RunKeepsValid(o, states, events, n);
  }

  // ---- Stale barrier ------------------------------------------------------------------------------

  predicate FailedAny(s: State, e: Event) {
    e.Applied? && e.result.operation.id in s.operations && !Succeeds(s.operations[e.result.operation.id], e.result)
  }

  lemma {:induction false} StaleUntilInventory(
    o: Options, states: seq<State>, events: seq<Event>, n: nat, m: nat) returns (l: nat)
    requires ValidOptions(o) && IsRun(o, states, events) && n <= m < |states|
    requires states[n].stale && !states[m].stale
    ensures n <= l < m && Succeeded(states[l], events[l], List)
  {
    l := m - 1;
    assert Step(o, states[l], events[l], states[m]);
    if states[l].stale {
      assert Succeeded(states[l], events[l], List);
    } else {
      l := StaleUntilInventory(o, states, events, n, l);
    }
  }

  /**
   * Between a failed operation applied at i and any mutation scheduled at j lies a successful list that was
   * itself scheduled after the failure: scheduled at k, applied at l, with i < k < l < j.
   */
  lemma StaleBarrier(o: Options, states: seq<State>, events: seq<Event>, i: nat, j: nat) returns (k: nat, l: nat)
    requires ValidOptions(o) && IsRun(o, states, events) && Valid(states[0])
    requires i < j < |events| && FailedAny(states[i], events[i])
    requires events[j].Scheduled? && !events[j].op.kind.List?
    ensures i < k < l < j
    ensures events[k].Scheduled? && events[k].op.kind.List?
    ensures Succeeded(states[l], events[l], List) && events[l].result.operation.id == events[k].op.id
  {
    RunKeepsValid(o, states, events, i);
    assert Step(o, states[i], events[i], states[i + 1]);
    assert Step(o, states[j], events[j], states[j + 1]);
    l := StaleUntilInventory(o, states, events, i + 1, j);
    var id := events[l].result.operation.id;
    NoListAfterApply(o, states[i], events[i], states[i + 1]);
    if id in states[i + 1].operations {
      SurvivorUnchanged(o, states, events, i + 1, l, id);
    } else {
      k := OperationOrigin(o, states, events, i + 1, l, id);
      RunKeepsValid(o, states, events, l);
    }
  }

  /** Applying any result leaves no list in flight: a list in flight was the only operation. */
  lemma NoListAfterApply(o: Options, s: State, e: Event, s': State)
    requires ValidOptions(o) && Valid(s) && Step(o, s, e, s') && e.Applied?
    ensures !Inventorying(s')
  {
    var op := s.operations[e.result.operation.id];
    assert forall j | j in s'.operations :: j in s.operations && j != op.id;
  }

  /** Operation IDs are never reused, so an operation in flight at both ends was the same one throughout. */
  lemma {:induction false} SurvivorUnchanged(
    o: Options, states: seq<State>, events: seq<Event>, n: nat, m: nat, id: nat)
    requires ValidOptions(o) && IsRun(o, states, events) && n <= m < |states| && Valid(states[0])
    requires id in states[n].operations && id in states[m].operations
    ensures states[n].operations[id] == states[m].operations[id]
  {
    if n < m {
      var last := m - 1;
      RunKeepsValid(o, states, events, n);
      RunKeepsValid(o, states, events, last);
      IDsGrow(o, states, events, n, last);
      StepFrame(o, states[last], events[last], states[m]);
      SurvivorUnchanged(o, states, events, n, last, id);
    }
  }

  lemma {:induction false} IDsGrow(o: Options, states: seq<State>, events: seq<Event>, n: nat, m: nat)
    requires ValidOptions(o) && IsRun(o, states, events) && n <= m < |states|
    ensures states[n].nextID <= states[m].nextID
  {
    if n < m {
      IDsGrow(o, states, events, n, m - 1);
      StepFrame(o, states[m - 1], events[m - 1], states[m]);
    }
  }

  /** An operation ID that has left the operations in flight never comes back. */
  lemma {:induction false} GoneForGood(
    o: Options, states: seq<State>, events: seq<Event>, n: nat, m: nat, id: nat)
    requires ValidOptions(o) && IsRun(o, states, events) && n <= m < |states|
    requires id !in states[n].operations && id <= states[n].nextID
    ensures id !in states[m].operations
  {
    hide Step;
    if n < m {
      GoneForGood(o, states, events, n, m - 1, id);
      IDsGrow(o, states, events, n, m - 1);
      StepFrame(o, states[m - 1], events[m - 1], states[m]);
    }
  }

  /** No operation's result is applied twice. */
  lemma AppliedOnce(o: Options, states: seq<State>, events: seq<Event>, i: nat, j: nat)
    requires ValidOptions(o) && IsRun(o, states, events) && Valid(states[0])
    requires i < j < |events| && events[i].Applied? && events[j].Applied?
    ensures events[i].result.operation.id != events[j].result.operation.id
  {
    var id := events[i].result.operation.id;
    RunKeepsValid(o, states, events, i);
    assert Step(o, states[i], events[i], states[i + 1]);
    assert Step(o, states[j], events[j], states[j + 1]);
    StepFrame(o, states[i], events[i], states[i + 1]);
    GoneForGood(o, states, events, i + 1, j, id);
  }

  // ---- Fence safety -------------------------------------------------------------------------------

  /** A create's runner identity was never in the cache before: the backend names VMs by fresh UUIDs. */
  ghost predicate FreshNames(states: seq<State>, events: seq<Event>)
    requires |states| == |events| + 1
  {
    forall l, m | 0 <= m <= l < |events| && Succeeded(states[l], events[l], Create) ::
      events[l].result.runner.id !in states[m].runners
  }

  lemma FreshNamesGiveFreshRun(states: seq<State>, events: seq<Event>)
    requires |states| == |events| + 1 && FreshNames(states, events)
    ensures FreshRun(states, events)
  {
    forall i | 0 <= i < |events| ensures FreshResult(states[i], events[i]) {
      assert Succeeded(states[i], events[i], Create) ==> events[i].result.runner.id !in states[i].runners;
    }
  }

  /** The session generations GitHub demand carries never decrease. */
  ghost predicate GenerationsOrdered(states: seq<State>, events: seq<Event>)
    requires |states| == |events| + 1
  {
    forall i | 0 <= i < |events| && events[i].DemandUpdate? :: states[i].generation <= events[i].demand.generation
  }

  lemma {:induction false} GenerationsGrow(o: Options, states: seq<State>, events: seq<Event>, n: nat, m: nat)
    requires ValidOptions(o) && IsRun(o, states, events) && GenerationsOrdered(states, events)
    requires n <= m < |states|
    ensures states[n].generation <= states[m].generation
  {
    hide Step;
    if n < m {
      GenerationsGrow(o, states, events, n, m - 1);
      StepFrame(o, states[m - 1], events[m - 1], states[m]);
    }
  }

  /** Create authority over r recorded at n comes from a create applied at l. */
  lemma {:induction false} AuthorityOrigin(
    o: Options, states: seq<State>, events: seq<Event>, n: nat, r: RunnerID) returns (l: nat)
    requires ValidOptions(o) && IsRun(o, states, events) && n < |states|
    requires states[0].created == map[] && r in states[n].created
    ensures l < n && Succeeded(states[l], events[l], Create) && events[l].result.runner.id == r
    ensures states[l].operations[events[l].result.operation.id].generation == states[n].created[r]
  {
    var last := n - 1;
    assert Step(o, states[last], events[last], states[n]);
    if Succeeded(states[last], events[last], Create) && events[last].result.runner.id == r {
      l := last;
    } else {
      l := AuthorityOrigin(o, states, events, last, r);
    }
  }

  /** The busy snapshot of the last demand update before position n. */
  ghost function LatestBusy(events: seq<Event>, n: nat): set<RunnerID>
    requires n <= |events|
  {
    if n == 0 then {}
    else if events[n - 1].DemandUpdate? then NonEmpty(events[n - 1].demand.busyRunners)
    else LatestBusy(events, n - 1)
  }

  /** The cache forgets that a runner is busy only by deleting it, and then has no create authority over it. */
  lemma {:induction false} BusyForgottenOnlyByDeletion(
    o: Options, states: seq<State>, events: seq<Event>, n: nat, r: RunnerID)
    requires ValidOptions(o) && IsRun(o, states, events) && FreshNames(states, events) && n < |states|
    requires Valid(states[0]) && states[0].busy == {}
    requires r in LatestBusy(events, n) && r !in states[n].busy
    ensures r !in states[n].created
    ensures exists m | 0 <= m <= n :: r in states[m].runners
  {
    hide Step;
    var last := n - 1;
    KnowledgeStep(o, states[last], events[last], states[n], r);
    if !events[last].DemandUpdate? {
      if r in states[last].busy {
        RunKeepsValid(o, states, events, last);
        assert r in states[last].runners;
      } else {
        BusyForgottenOnlyByDeletion(o, states, events, last, r);
        var m :| 0 <= m <= last && r in states[m].runners;
        assert Succeeded(states[last], events[last], Create) ==> events[last].result.runner.id !in states[m].runners;
      }
    }
  }

  /** How one step changes what is known of one runner. */
  lemma KnowledgeStep(o: Options, s: State, e: Event, s': State, r: RunnerID)
    requires ValidOptions(o) && Step(o, s, e, s')
    ensures e.DemandUpdate? ==> s'.busy == NonEmpty(e.demand.busyRunners) && s'.created == s.created
    ensures !e.DemandUpdate? && r in s.busy && r !in s'.busy && Valid(s) ==> r in s.runners && r !in s'.created
    ensures !e.DemandUpdate? && r !in s.busy ==> r !in s'.busy
    ensures r !in s.created && r in s'.created ==> Succeeded(s, e, Create) && e.result.runner.id == r
  {
    if e.Applied? {
      SettleKnowledge(o, s, e.result, e.now);
    }
  }

  lemma SettleKnowledge(o: Options, s: State, r: OperationResult, now: int)
    requires ValidOptions(o) && r.operation.id in s.operations
    ensures var op, s' := s.operations[r.operation.id], Settle(o, s, r, now);
            && s'.busy == (if Succeeds(op, r) && op.kind.Delete? then s.busy - {op.runnerID} else s.busy)
            && s'.created.Keys <= s.created.Keys + (if Succeeds(op, r) && op.kind.Create? then {r.runner.id} else {})
            && (Succeeds(op, r) && op.kind.Delete? ==> op.runnerID !in s'.created)
  {
  }

  /**
   * Whole-run fence safety. A fence of r scheduled at j rests on a create of r scheduled at k and applied at l
   * under the very session that is current at j: no other session intervened, and the latest busy snapshot
   * does not name r.
   */
  lemma FenceAuthority(o: Options, states: seq<State>, events: seq<Event>, j: nat) returns (k: nat, l: nat)
    requires ValidOptions(o) && IsRun(o, states, events) && FreshNames(states, events)
    requires GenerationsOrdered(states, events)
    requires Valid(states[0]) && states[0].operations == map[] && states[0].created == map[] && states[0].busy == {}
    requires j < |events| && events[j].Scheduled? && events[j].op.kind.Fence?
    ensures k < l < j
    ensures events[k].Scheduled? && events[k].op.kind.Create?
    ensures Succeeded(states[l], events[l], Create)
    ensures events[l].result.operation.id == events[k].op.id && events[l].result.runner.id == events[j].op.runnerID
    ensures forall m | k <= m <= j :: states[m].generation == events[k].op.generation
    ensures events[j].op.runnerID !in LatestBusy(events, j)
    ensures IdleCandidate(states[j], events[j].op.runnerID)
  {
    var r := events[j].op.runnerID;
    assert Step(o, states[j], events[j], states[j + 1]);
    l := AuthorityOrigin(o, states, events, j, r);
    var id := events[l].result.operation.id;
    k := OperationOrigin(o, states, events, 0, l, id);
    RunKeepsValid(o, states, events, l);
    assert Step(o, states[k], events[k], states[k + 1]);
    forall m | k <= m <= j ensures states[m].generation == states[k].generation {
      GenerationsGrow(o, states, events, k, m);
      GenerationsGrow(o, states, events, m, j);
    }
    if r in LatestBusy(events, j) {
      BusyForgottenOnlyByDeletion(o, states, events, j, r);
    }
  }

  /** A runner known to the cache before any create of it was applied is never fenced: restarts preserve runners. */
  lemma ReconstructedNeverFenced(o: Options, states: seq<State>, events: seq<Event>, m: nat, j: nat, r: RunnerID)
    requires ValidOptions(o) && IsRun(o, states, events) && FreshNames(states, events)
    requires GenerationsOrdered(states, events)
    requires Valid(states[0]) && states[0].operations == map[] && states[0].created == map[] && states[0].busy == {}
    requires m < |states| && r in states[m].runners
    requires forall l | 0 <= l < m && Succeeded(states[l], events[l], Create) :: events[l].result.runner.id != r
    requires j < |events| && events[j].Scheduled? && events[j].op.kind.Fence?
    ensures events[j].op.runnerID != r
  {
    var k, l := FenceAuthority(o, states, events, j);
  }

  /** Once the session that a runner was created under has passed, that runner is never fenced. */
  lemma NeverFencedAfterItsSession(o: Options, states: seq<State>, events: seq<Event>, l: nat, j: nat)
    requires ValidOptions(o) && IsRun(o, states, events) && FreshNames(states, events)
    requires GenerationsOrdered(states, events)
    requires Valid(states[0]) && states[0].operations == map[] && states[0].created == map[] && states[0].busy == {}
    requires l < j < |events| && Succeeded(states[l], events[l], Create)
    requires states[j].generation != states[l].operations[events[l].result.operation.id].generation
    requires events[j].Scheduled? && events[j].op.kind.Fence?
    ensures events[j].op.runnerID != events[l].result.runner.id
  {
    var k, l' := FenceAuthority(o, states, events, j);
    if events[j].op.runnerID == events[l].result.runner.id {
      CreatedOnce(o, states, events, l, l');
      SameOperation(o, states, events, k, l);
    }
  }

  /** With fresh names, two applied creates of the same name are the same event. */
  lemma CreatedOnce(o: Options, states: seq<State>, events: seq<Event>, l: nat, l': nat)
    requires ValidOptions(o) && IsRun(o, states, events) && FreshNames(states, events)
    requires l < |events| && Succeeded(states[l], events[l], Create)
    requires l' < |events| && Succeeded(states[l'], events[l'], Create)
    requires events[l].result.runner.id == events[l'].result.runner.id
    ensures l == l'
  {
    CreatedBecomesKnown(o, states[l], events[l], states[l + 1]);
    CreatedBecomesKnown(o, states[l'], events[l'], states[l' + 1]);
  }

  lemma CreatedBecomesKnown(o: Options, s: State, e: Event, s': State)
    requires ValidOptions(o) && Step(o, s, e, s') && Succeeded(s, e, Create)
    ensures e.result.runner.id in s'.runners
  {
  }

  /** The operation applied at l is the one scheduled under the same ID at k. */
  lemma SameOperation(o: Options, states: seq<State>, events: seq<Event>, k: nat, l: nat)
    requires ValidOptions(o) && IsRun(o, states, events) && Valid(states[0])
    requires k < l < |events| && events[k].Scheduled? && events[l].Applied?
    requires events[l].result.operation.id == events[k].op.id
    ensures events[k].op.id in states[l].operations && states[l].operations[events[k].op.id] == events[k].op
  {
    StepFrame(o, states[k], events[k], states[k + 1]);
    assert Step(o, states[l], events[l], states[l + 1]);
    SurvivorUnchanged(o, states, events, k + 1, l, events[k].op.id);
  }
}
