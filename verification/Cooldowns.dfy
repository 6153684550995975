/**
 * How long a failed operation is held back, over whole runs: told from the results applied and their times, not from
 * what the reconciler recorded.
 */
module Cooldowns {
  import opened ControllerTypes
  import opened Backoff
  import opened Reconciler
  import opened Invariant

  /** The backend's answer to an operation of this kind: no error, and every runner in it named and in a known state. */
  predicate Good(kind: OperationKind, r: OperationResult) {
    && !r.failed
    && (kind.List? ==> forall runner | runner in r.runners :: Proper(runner))
    && (kind.Create? ==> Proper(r.runner))
  }

  predicate Proper(r: Runner) {
    r.id != "" && (r.state.Provisioning? || r.state.Ready? || r.state.Idle? || r.state.Busy? || r.state.Terminal?)
  }

  lemma GoodMeansSucceeds(op: Operation, r: OperationResult)
    ensures Good(op.kind, r) <==> Succeeds(op, r)
  {
  }

  /** The event applies the result of an operation of this kind on this runner. */
  predicate Settles(s: State, e: Event, kind: OperationKind, id: RunnerID) {
    && e.Applied? && e.result.operation.id in s.operations
    && s.operations[e.result.operation.id].kind == kind && s.operations[e.result.operation.id].runnerID == id
  }

  /** How often in a row operations of this kind on this runner have failed by position n. */
  ghost function FailuresInARow(
    states: seq<State>, events: seq<Event>, n: nat, kind: OperationKind, id: RunnerID): (k: nat)
    requires |states| == |events| + 1 && n <= |events|
  {
    if n == 0 then 0
    else
      var before := FailuresInARow(states, events, n - 1, kind, id);
      if !Settles(states[n - 1], events[n - 1], kind, id) then before
      else if Good(kind, events[n - 1].result) then 0
      else before + 1
  }

  /** When the last of them failed. */
  ghost function LastFailureAt(
    states: seq<State>, events: seq<Event>, n: nat, kind: OperationKind, id: RunnerID): int
    requires |states| == |events| + 1 && n <= |events|
  {
    if n == 0 then 0
    else if Settles(states[n - 1], events[n - 1], kind, id) && !Good(kind, events[n - 1].result) then events[n - 1].now
    else LastFailureAt(states, events, n - 1, kind, id)
  }

  /** What the reconciler has recorded about a kind and runner is what their results so far amount to. */
  ghost predicate Recorded(o: Options, states: seq<State>, events: seq<Event>, n: nat, kind: OperationKind, id: RunnerID)
    requires ValidOptions(o) && |states| == |events| + 1 && n <= |events|
  {
    var key, k := FailureKey(kind, id), FailuresInARow(states, events, n, kind, id);
    && (key in states[n].failures <==> k > 0)
    && (k > 0 ==>
          var delay := FailureDelay(k - 1, o.retryInitial, o.retryMaximum);
          states[n].failures[key] == Cooldown(delay, LastFailureAt(states, events, n, kind, id) + delay as int))
  }

  lemma {:induction false} RecordIsHistory(
    o: Options, states: seq<State>, events: seq<Event>, n: nat, kind: OperationKind, id: RunnerID)
    requires ValidOptions(o) && IsRun(o, states, events) && states[0].failures == map[] && n <= |events|
    ensures Recorded(o, states, events, n, kind, id)
  {
    hide Step, NextFailureDelay, Good;
    if n > 0 {
      RecordIsHistory(o, states, events, n - 1, kind, id);
      FailuresStep(o, states[n - 1], events[n - 1], states[n], FailureKey(kind, id));
      NextDelays(o, FailuresInARow(states, events, n - 1, kind, id));
    }
  }

  lemma NextDelays(o: Options, k: nat)
    requires ValidOptions(o)
    ensures FailureDelay(k, o.retryInitial, o.retryMaximum)
            == NextFailureDelay(if k > 0 then FailureDelay(k - 1, o.retryInitial, o.retryMaximum) else 0,
                                o.retryInitial, o.retryMaximum)
  {
  }

  lemma FailuresStep(o: Options, s: State, e: Event, s': State, key: FailureKey)
    requires ValidOptions(o) && Step(o, s, e, s')
    ensures Settles(s, e, key.kind, key.runnerID) && Good(key.kind, e.result) ==> key !in s'.failures
    ensures Settles(s, e, key.kind, key.runnerID) && !Good(key.kind, e.result) ==>
              && key in s'.failures
              && var delay := NextFailureDelay(if key in s.failures then s.failures[key].delay else 0,
                                               o.retryInitial, o.retryMaximum);
                 s'.failures[key] == Cooldown(delay, e.now + delay as int)
    ensures !Settles(s, e, key.kind, key.runnerID) ==>
              (key in s'.failures <==> key in s.failures)
              && (key in s.failures ==> s'.failures[key] == s.failures[key])
  {
    if e.Applied? {
      GoodMeansSucceeds(s.operations[e.result.operation.id], e.result);
    }
  }

  /** No operation in flight is on this runner. */
  predicate Unlocked(s: State, id: RunnerID) {
    id == "" || forall j | j in s.operations :: s.operations[j].runnerID != id
  }

  /**
   * An operation is held back exactly while its kind and runner have failed k > 0 times in a row and the time is
   * before the last failure plus the delay of the k-th.
   */
  lemma HeldBackExactly(
    o: Options, states: seq<State>, events: seq<Event>, n: nat, op: Operation, now: int)
    requires ValidOptions(o) && IsRun(o, states, events) && states[0].failures == map[] && n <= |events|
    requires Valid(states[0])
    ensures var k := FailuresInARow(states, events, n, op.kind, op.runnerID);
            Attemptable(states[n], op, now) <==>
              && Unlocked(states[n], op.runnerID)
              && (k == 0 || LastFailureAt(states, events, n, op.kind, op.runnerID)
                            + FailureDelay(k - 1, o.retryInitial, o.retryMaximum) as int <= now)
  {
    hide Step, FailureDelay;
    RecordIsHistory(o, states, events, n, op.kind, op.runnerID);
    RunKeepsValid(o, states, events, n);
  }

  /** The results applied carry times that never decrease. */
  ghost predicate TimesOrdered(events: seq<Event>) {
    forall i, j | 0 <= i < j < |events| && events[i].Applied? && events[j].Applied? :: events[i].now <= events[j].now
  }

  /**
   * A failure of one kind and runner applied at i, the n-th in a row, holds back every operation of that kind and
   * runner for that failure's delay: until then none is scheduled or refused, unless one that was in flight succeeds.
   */
  lemma NeverTriedEarly(
    o: Options, states: seq<State>, events: seq<Event>, i: nat, j: nat, kind: OperationKind, id: RunnerID, n: nat)
    requires ValidOptions(o) && IsRun(o, states, events) && states[0].failures == map[] && TimesOrdered(events)
    requires i < j < |events| && Settles(states[i], events[i], kind, id) && !Good(kind, events[i].result)
    requires FailuresInARow(states, events, i, kind, id) == n
    requires forall m | i < m < j && Settles(states[m], events[m], kind, id) :: !Good(kind, events[m].result)
    requires events[j].Scheduled? || events[j].Refused?
    requires events[j].op.kind == kind && events[j].op.runnerID == id
    ensures events[j].now >= events[i].now + FailureDelay(n, o.retryInitial, o.retryMaximum) as int
  {
    hide FailureDelay, Good;
    FailuresGoOn(o, states, events, i, j, kind, id);
    RecordIsHistory(o, states, events, j, kind, id);
    var k := FailuresInARow(states, events, j, kind, id);
    DelaysGrow(o, n, k - 1);
    assert Step(o, states[j], events[j], states[j + 1]);
  }

  /** With no success since the failure at i, the count and the time of the last failure can only have grown. */
  lemma {:induction false} FailuresGoOn(
    o: Options, states: seq<State>, events: seq<Event>, i: nat, j: nat, kind: OperationKind, id: RunnerID)
    requires ValidOptions(o) && IsRun(o, states, events) && TimesOrdered(events)
    requires i < j <= |events| && Settles(states[i], events[i], kind, id) && !Good(kind, events[i].result)
    requires forall m | i < m < j && Settles(states[m], events[m], kind, id) :: !Good(kind, events[m].result)
    ensures FailuresInARow(states, events, j, kind, id) > FailuresInARow(states, events, i, kind, id)
    ensures LastFailureAt(states, events, j, kind, id) >= events[i].now
  {
    hide Step, Good;
    if i + 1 < j {
      FailuresGoOn(o, states, events, i, j - 1, kind, id);
    }
  }

  lemma {:induction false} DelaysGrow(o: Options, n: nat, m: nat)
    requires ValidOptions(o) && n <= m
    ensures FailureDelay(n, o.retryInitial, o.retryMaximum) <= FailureDelay(m, o.retryInitial, o.retryMaximum)
  {
    if n < m {
      DelaysGrow(o, n, m - 1);
    }
  }

  /**
   * A success starts the count again: the first failure after it, applied at j, holds its kind and runner back for
   * the initial delay and no longer.
   */
  lemma SuccessStartsAgain(
    o: Options, states: seq<State>, events: seq<Event>, i: nat, j: nat, op: Operation, now: int)
    requires ValidOptions(o) && IsRun(o, states, events) && states[0].failures == map[] && Valid(states[0])
    requires i < j < |events| && Settles(states[i], events[i], op.kind, op.runnerID) && Good(op.kind, events[i].result)
    requires forall m | i < m < j :: !Settles(states[m], events[m], op.kind, op.runnerID)
    requires Settles(states[j], events[j], op.kind, op.runnerID) && !Good(op.kind, events[j].result)
    ensures Attemptable(states[i + 1], op, now) <==> Unlocked(states[i + 1], op.runnerID)
    ensures Attemptable(states[j + 1], op, now) <==>
              Unlocked(states[j + 1], op.runnerID) && now >= events[j].now + o.retryInitial as int
  {
    hide Step, Good;
    NoneSince(states, events, i + 1, j, op.kind, op.runnerID);
    HeldBackExactly(o, states, events, i + 1, op, now);
    HeldBackExactly(o, states, events, j + 1, op, now);
  }

  lemma {:induction false} NoneSince(
    states: seq<State>, events: seq<Event>, n: nat, m: nat, kind: OperationKind, id: RunnerID)
    requires |states| == |events| + 1 && n <= m <= |events|
    requires forall l | n <= l < m :: !Settles(states[l], events[l], kind, id)
    ensures FailuresInARow(states, events, m, kind, id) == FailuresInARow(states, events, n, kind, id)
  {
    if n < m {
      NoneSince(states, events, n, m - 1, kind, id);
    }
  }
}
