/**
 * From GitHub's callbacks to fences: the demand source publishes into the mailbox, the reconciler consumes from
 * it, and what the two promise composes.
 */
module EndToEnd {
  import opened GoInt
  import opened ControllerTypes
  import opened Reconciler
  import opened Capacity
  import opened Traces
  import opened Mailboxes
  import opened DemandSource
  import opened Host
  import opened Pool

  function ConsumedBy(events: seq<Event>): seq<Demand> {
    if events == [] then []
    else
      var before, last := ConsumedBy(events[..|events| - 1]), events[|events| - 1];
      if last.DemandUpdate? then before + [last.demand] else before
  }

  ghost predicate GenerationsSorted(demands: seq<Demand>) {
    forall i, j | 0 <= i < j < |demands| :: demands[i].generation <= demands[j].generation
  }

  // ---- The source's side ----------------------------------------------------------------------------

  lemma DisciplinedPrefix(log: seq<Entry>, n: nat, source: SourceOptions)
    requires Disciplined(log, source) && n <= |log|
    ensures Disciplined(log[..n], source)
  {
    forall i | 0 <= i < n ensures MayFollow(log[..n][..i], log[..n][i], source) {
      assert log[..n][..i] == log[..i];
    }
  }

  lemma {:induction false} PublishedIsSorted(log: seq<Entry>, source: SourceOptions)
    requires Disciplined(log, source)
    ensures GenerationsSorted(PublishedBy(log))
    ensures forall d | d in PublishedBy(log) :: d.generation <= OpenedCount(log)
  {
    if log != [] {
      var n := |log| - 1;
      DisciplinedPrefix(log, n, source);
      PublishedIsSorted(log[..n], source);
      assert MayFollow(log[..n], log[n], source);
    }
  }

  /** Every published demand was published at some position of the log. */
  lemma {:induction false} PublishedWhere(log: seq<Entry>, q: nat) returns (p: nat)
    requires q < |PublishedBy(log)|
    ensures p < |log| && log[p] == Published(PublishedBy(log)[q])
    ensures q == |PublishedBy(log)| - 1 ==> forall i | p < i < |log| :: !log[i].Published?
  {
    var n := |log| - 1;
    if log[n].Published? && q == |PublishedBy(log)| - 1 {
      p := n;
    } else {
      p := PublishedWhere(log[..n], q);
    }
  }

  // ---- The reconciler's side ------------------------------------------------------------------------

  lemma {:induction false} GenerationIsLastConsumed(o: Options, states: seq<State>, events: seq<Event>, n: nat)
    requires ValidOptions(o) && IsRun(o, states, events) && n <= |events|
    ensures var demands := ConsumedBy(events[..n]);
            && states[n].generation == (if demands == [] then states[0].generation else Last(demands).generation)
            && states[n].target == (if demands == [] then states[0].target
                                    else BoundedTarget(o, Last(demands).assignedJobs))
            && (demands != [] ==> TargetFor(o, Last(demands).assignedJobs, states[n].target))
            && LatestBusy(events, n) == (if demands == [] then {} else NonEmpty(Last(demands).busyRunners))
  {
    hide Step, BoundedTarget, NonEmpty, TargetFor;
    if n > 0 {
      GenerationIsLastConsumed(o, states, events, n - 1);
      assert events[..n][..n - 1] == events[..n - 1];
      DemandStep(o, states[n - 1], events[n - 1], states[n]);
    }
  }

  lemma DemandStep(o: Options, s: State, e: Event, s': State)
    requires ValidOptions(o) && Step(o, s, e, s')
    ensures s'.generation == (if e.DemandUpdate? then e.demand.generation else s.generation)
    ensures s'.target == (if e.DemandUpdate? then BoundedTarget(o, e.demand.assignedJobs) else s.target)
    ensures e.DemandUpdate? ==> TargetFor(o, e.demand.assignedJobs, s'.target)
  {
    hide Settle;
    if e.DemandUpdate? {
      BoundedIsTargetFor(o, e.demand.assignedJobs);
    }
    if e.Applied? {
      SettleKeepsTarget(o, s, e.result, e.now);
      SettleFrame(o, s, e.result, e.now);
    }
  }

  lemma {:induction false} ConsumedPrefix(events: seq<Event>, n: nat)
    requires n <= |events|
    ensures ConsumedBy(events[..n]) <= ConsumedBy(events)
  {
    if n < |events| {
      ConsumedPrefix(events[..|events| - 1], n);
      assert events[..|events| - 1][..n] == events[..n];
    } else {
      assert events[..n] == events;
    }
  }

  lemma SortedDemandsOrderGenerations(o: Options, states: seq<State>, events: seq<Event>)
    requires ValidOptions(o) && IsRun(o, states, events) && states[0].generation == 0
    requires GenerationsSorted(ConsumedBy(events))
    ensures GenerationsOrdered(states, events)
  {
    forall i | 0 <= i < |events| && events[i].DemandUpdate?
      ensures states[i].generation <= events[i].demand.generation
    {
      GenerationIsLastConsumed(o, states, events, i);
      ConsumedPrefix(events, i + 1);
      assert events[..i + 1][..i] == events[..i];
      var before, upTo := ConsumedBy(events[..i]), ConsumedBy(events[..i + 1]);
      assert upTo == before + [events[i].demand];
      if before != [] {
        assert upTo[|before| - 1] == Last(before);
        assert ConsumedBy(events)[|before|] == events[i].demand;
        assert ConsumedBy(events)[|before| - 1] == Last(before);
      }
    }
  }

  // ---- The parts together ---------------------------------------------------------------------------

  /**
   * What the parts are to each other at the end of one execution: the source's log, the mailbox it published into,
   * and the reconciler's run, whose demand updates are what was consumed from the mailbox.
   */
  ghost predicate Composed(
    o: Options, log: seq<Entry>, source: SourceOptions, channel: Channel, states: seq<State>, events: seq<Event>)
    requires ValidOptions(o)
  {
    && Disciplined(log, source)
    && ChannelValid(channel)
    && channel.published == PublishedBy(log)
    && IsRun(o, states, events) && FreshNames(states, events)
    && Reconciler.Valid(states[0]) && states[0].operations == map[] && states[0].created == map[]
    && states[0].busy == {} && states[0].generation == 0
    && ConsumedBy(events) == channel.consumed
  }

  lemma ConsumedIsSorted(log: seq<Entry>, source: SourceOptions, channel: Channel)
    requires Disciplined(log, source) && ChannelValid(channel) && channel.published == PublishedBy(log)
    ensures GenerationsSorted(channel.consumed)
  {
    PublishedIsSorted(log, source);
    var at := SubsequencePositions(channel.consumed + channel.slot, channel.published);
    forall i, j | 0 <= i < j < |channel.consumed|
      ensures channel.consumed[i].generation <= channel.consumed[j].generation
    {
      assert channel.consumed[i] == (channel.consumed + channel.slot)[i] == PublishedBy(log)[at[i]];
      assert channel.consumed[j] == (channel.consumed + channel.slot)[j] == PublishedBy(log)[at[j]];
    }
  }

  /** A fence of r at j, as the parts see it: its create at k and l, and the publication p last consumed. */
  lemma FenceAcrossTheParts(
    o: Options, log: seq<Entry>, source: SourceOptions, channel: Channel, states: seq<State>, events: seq<Event>, j: nat)
    returns (k: nat, l: nat, p: nat)
    requires ValidOptions(o) && Composed(o, log, source, channel, states, events)
    requires j < |events| && events[j].Scheduled? && events[j].op.kind.Fence?
    ensures k < l < j && events[k].Scheduled? && events[k].op.kind.Create?
    ensures Succeeded(states[l], events[l], Create)
    ensures events[l].result.operation.id == events[k].op.id && events[l].result.runner.id == events[j].op.runnerID
    ensures forall m | k <= m <= j :: states[m].generation == events[k].op.generation
    ensures ConsumedBy(events[..j]) != [] ==>
              && p < |log| && log[p] == Published(Last(ConsumedBy(events[..j])))
              && OpenedCount(log[..p]) == events[k].op.generation
              && !Unfinished(SessionHistory(log[..p]), events[j].op.runnerID)
  {
    ConsumedIsSorted(log, source, channel);
    SortedDemandsOrderGenerations(o, states, events);
    k, l := FenceAuthority(o, states, events, j);
    GenerationIsLastConsumed(o, states, events, j);
    p := 0;
    var demands := ConsumedBy(events[..j]);
    if demands != [] {
      ConsumedPrefix(events, j);
      var last := |demands| - 1;
      var at := SubsequencePositions(channel.consumed + channel.slot, channel.published);
      assert Last(demands) == (channel.consumed + channel.slot)[last] == PublishedBy(log)[at[last]];
      p := PublishedWhere(log, at[last]);
      assert MayFollow(log[..p], log[p], source);
      BusyMeansUnfinished(SessionHistory(log[..p]), events[j].op.runnerID);
    }
  }

  /** A snapshot is published directly after the desired count it answers. */
  lemma AnsweredCount(log: seq<Entry>, p: nat, source: SourceOptions)
    requires Disciplined(log, source) && p < |log| && log[p].Published?
    ensures p > 0 && log[p - 1].Called? && log[p - 1].callback.DesiredCount?
    ensures log[p].demand.assignedJobs == Max(log[p - 1].callback.count, 0)
  {
    assert MayFollow(log[..p], log[p], source);
    assert log[..p][p - 1] == log[p - 1];
    assert Last(SessionHistory(log[..p])) == log[p - 1].callback;
  }

  /** Between callbacks, the last published snapshot is followed by its report and by no other desired count. */
  lemma ReportFollows(log: seq<Entry>, p: nat, source: SourceOptions)
    requires Disciplined(log, source) && BetweenCalls(log) && p < |log| && log[p].Published?
    requires forall i | p < i < |log| :: !log[i].Published?
    ensures p + 1 < |log| && log[p + 1] == Reported(BoundedTarget(source.capacity, log[p].demand.assignedJobs))
    ensures p > 0 && log[p - 1].Called? && log[p - 1].callback.DesiredCount?
    ensures log[p].demand.assignedJobs == Max(log[p - 1].callback.count, 0)
    ensures forall i | p < i < |log| && log[i].Called? :: !log[i].callback.DesiredCount?
    ensures forall i | p + 1 < i < |log| :: !log[i].Reported?
  {
    hide BoundedTarget, Disciplined, MayFollow, Max;
    AnsweredCount(log, p, source);
    ReportedNext(log, p, source);
    forall i | p < i < |log|
      ensures log[i].Called? ==> !log[i].callback.DesiredCount?
      ensures i > p + 1 ==> !log[i].Reported?
    {
      Undemanding(log, i, source);
    }
  }

  /** A snapshot that is not the end of the log is followed by its report. */
  lemma ReportedNext(log: seq<Entry>, p: nat, source: SourceOptions)
    requires Disciplined(log, source) && BetweenCalls(log) && p < |log| && log[p].Published?
    ensures p + 1 < |log| && log[p + 1] == Reported(BoundedTarget(source.capacity, log[p].demand.assignedJobs))
  {
    hide BoundedTarget;
    assert p + 1 < |log|;
    assert log[..p + 1][p] == log[p];
    assert MayFollow(log[..p + 1], log[p + 1], source);
  }

  /** What is not followed by a snapshot is no desired count, and only what follows one is a report. */
  lemma Undemanding(log: seq<Entry>, i: nat, source: SourceOptions)
    requires Disciplined(log, source) && BetweenCalls(log) && 0 < i < |log|
    requires i + 1 < |log| ==> !log[i + 1].Published?
    ensures log[i].Called? ==> !log[i].callback.DesiredCount?
    ensures !log[i - 1].Published? ==> !log[i].Reported?
  {
    hide BoundedTarget;
    assert log[..i + 1][i] == log[i] && log[..i][i - 1] == log[i - 1];
    assert MayFollow(log[..i], log[i], source);
    if i + 1 < |log| {
      assert MayFollow(log[..i + 1], log[i + 1], source);
    } else {
      assert log[..i + 1] == log;
    }
  }

  /** With the mailbox drained, the target is the one last returned to the listener. */
  lemma TargetAcrossTheParts(
    o: Options, log: seq<Entry>, source: SourceOptions, channel: Channel, states: seq<State>, events: seq<Event>)
    returns (p: nat)
    requires ValidOptions(o) && Composed(o, log, source, channel, states, events) && source.capacity == o
    requires channel.slot == [] && channel.critical.Free? && channel.published != [] && BetweenCalls(log)
    ensures 1 < p < |log| && log[p] == Reported(states[|events|].target)
    ensures log[p - 2].Called? && log[p - 2].callback.DesiredCount?
    ensures TargetFor(o, log[p - 2].callback.count, states[|events|].target)
    ensures forall i | p < i < |log| :: !log[i].Reported? && (log[i].Called? ==> !log[i].callback.DesiredCount?)
  {
    hide BoundedTarget, TargetFor, Disciplined;
    var q := PublishedWhere(log, |PublishedBy(log)| - 1);
    ReportFollows(log, q, source);
    p := q + 1;
    BoundedIsTargetFor(o, log[q - 1].callback.count);
    assert channel.consumed + channel.slot == channel.consumed;
    assert Last(channel.consumed) == Last(channel.published) == log[q].demand;
    GenerationIsLastConsumed(o, states, events, |events|);
    assert events[..|events|] == events;
  }

  // ---- One transition system ------------------------------------------------------------------------

  /** The demand source, the mailbox and the reconciler with its workers, side by side. */
  datatype Joint = Joint(log: seq<Entry>, channel: Channel, system: System)

  /**
   * The source acts, or takes one of Publish's four steps; the main loop receives from the mailbox; or anything else
   * happens in the reconciler, its workers and the world.
   */
  datatype JointEvent =
    | Act(entry: Entry)
    | LockMailbox(demand: Demand)
    | DrainMailbox
    | SendDemand
    | UnlockMailbox
    | ReceiveDemand
    | Inside(event: SystemEvent)

  ghost predicate JointStep(o: Options, source: SourceOptions, j: Joint, e: JointEvent, j': Joint)
    requires ValidOptions(o)
  {
    match e
    case Act(entry) =>
      && j.channel.critical.Free? && !entry.Published? && MayFollow(j.log, entry, source)
      && j' == j.(log := j.log + [entry])
    case LockMailbox(d) =>
      && MayFollow(j.log, Published(d), source)
      && ChannelStep(j.channel, Lock(d), j'.channel) && j' == j.(channel := j'.channel)
    case DrainMailbox =>
      ChannelStep(j.channel, Drain, j'.channel) && j' == j.(channel := j'.channel)
    case SendDemand =>
      && ChannelStep(j.channel, Send, j'.channel)
      && j' == j.(channel := j'.channel, log := j.log + [Published(j.channel.critical.demand)])
    case UnlockMailbox =>
      ChannelStep(j.channel, Unlock, j'.channel) && j' == j.(channel := j'.channel)
    case ReceiveDemand =>
      && ChannelStep(j.channel, ChannelEvent.Receive, j'.channel)
      && SystemStep(o, j.system, TakeDemand(j.channel.slot[0]), j'.system)
      && j' == j.(channel := j'.channel, system := j'.system)
    case Inside(event) =>
      !event.TakeDemand? && SystemStep(o, j.system, event, j'.system) && j' == j.(system := j'.system)
  }

  function InitialJoint(o: Options, runners: seq<Runner>): Joint
    requires o.workers >= 0
  {
    Joint([], Channel([], Free, [], []), InitialSystem(o, runners))
  }

  ghost predicate IsJointRun(
    o: Options, source: SourceOptions, runners: seq<Runner>, joints: seq<Joint>, events: seq<JointEvent>)
    requires ValidOptions(o)
  {
    && |joints| == |events| + 1 && joints[0] == InitialJoint(o, runners)
    && forall i | 0 <= i < |events| :: JointStep(o, source, joints[i], events[i], joints[i + 1])
  }

  ghost predicate JointValid(source: SourceOptions, j: Joint) {
    && Disciplined(j.log, source) && ChannelValid(j.channel) && j.channel.published == PublishedBy(j.log)
    && (j.channel.critical.Entered? || j.channel.critical.Drained? ==>
          MayFollow(j.log, Published(j.channel.critical.demand), source))
  }

  lemma JointStepKeepsValid(o: Options, source: SourceOptions, j: Joint, e: JointEvent, j': Joint)
    requires ValidOptions(o) && JointValid(source, j) && JointStep(o, source, j, e, j')
    ensures JointValid(source, j')
  {
    hide SystemStep, MayFollow, ChannelValid, Disciplined;
    match e
    case Act(entry) => Append(j.log, entry, source);
    case LockMailbox(d) => ChannelStepKeepsValid(j.channel, Lock(d), j'.channel);
    case DrainMailbox => ChannelStepKeepsValid(j.channel, Drain, j'.channel);
    case SendDemand =>
      ChannelStepKeepsValid(j.channel, Send, j'.channel);
      Append(j.log, Published(j.channel.critical.demand), source);
    case UnlockMailbox => ChannelStepKeepsValid(j.channel, Unlock, j'.channel);
    case ReceiveDemand => ChannelStepKeepsValid(j.channel, ChannelEvent.Receive, j'.channel);
    case Inside(_) =>
  }

  lemma {:induction false} JointRunKeepsValid(
    o: Options, source: SourceOptions, runners: seq<Runner>, joints: seq<Joint>, events: seq<JointEvent>, n: nat)
    requires ValidOptions(o) && IsJointRun(o, source, runners, joints, events) && n < |joints|
    ensures JointValid(source, joints[n])
  {
    hide JointStep;
    if n > 0 {
      JointRunKeepsValid(o, source, runners, joints, events, n - 1);
      JointStepKeepsValid(o, source, joints[n - 1], events[n - 1], joints[n]);
    }
  }

  /** What an event of the whole is to the reconciler, its workers and the world. */
  function Within(j: Joint, e: JointEvent): SystemEvent {
    match e
    case Inside(event) => event
    case ReceiveDemand => if j.channel.slot != [] then TakeDemand(j.channel.slot[0]) else SystemEvent.Idle
    case _ => SystemEvent.Idle
  }

  ghost function Systems(joints: seq<Joint>): seq<System> {
    seq(|joints|, i requires 0 <= i < |joints| => joints[i].system)
  }

  ghost function SystemEvents(joints: seq<Joint>, events: seq<JointEvent>): seq<SystemEvent>
    requires |joints| == |events| + 1
  {
    seq(|events|, i requires 0 <= i < |events| => Within(joints[i], events[i]))
  }

  lemma JointStepWithin(o: Options, source: SourceOptions, j: Joint, e: JointEvent, j': Joint)
    requires ValidOptions(o) && JointStep(o, source, j, e, j')
    ensures SystemStep(o, j.system, Within(j, e), j'.system)
    ensures Reconciled(Projected(j.system, Within(j, e))).DemandUpdate? <==> e.ReceiveDemand?
    ensures e.ReceiveDemand? ==>
              && j'.channel.consumed == j.channel.consumed + [j.channel.slot[0]]
              && Reconciled(Projected(j.system, Within(j, e))) == DemandUpdate(j.channel.slot[0])
    ensures !e.ReceiveDemand? ==> j'.channel.consumed == j.channel.consumed
  {
    hide Apply, Step, MayFollow, Truthful;
  }

  /** The run of the reconciler inside a run of the whole. */
  ghost function InnerStates(joints: seq<Joint>): seq<State> {
    States(Worlds(Systems(joints)))
  }

  ghost function InnerEvents(joints: seq<Joint>, events: seq<JointEvent>): seq<Event>
    requires |joints| == |events| + 1
  {
    Events(WorldEvents(Systems(joints), SystemEvents(joints, events)))
  }

  lemma InnerAt(joints: seq<Joint>, events: seq<JointEvent>, i: nat)
    requires |joints| == |events| + 1 && i < |joints|
    ensures |InnerStates(joints)| == |joints| && |InnerEvents(joints, events)| == |events|
    ensures InnerStates(joints)[i] == joints[i].system.world.state
    ensures i < |events| ==>
              InnerEvents(joints, events)[i] == Reconciled(Projected(joints[i].system, Within(joints[i], events[i])))
  {
  }

  lemma {:induction false} ConsumedIsReceived(
    o: Options, source: SourceOptions, runners: seq<Runner>, joints: seq<Joint>, events: seq<JointEvent>, n: nat)
    requires ValidOptions(o) && IsJointRun(o, source, runners, joints, events) && n <= |events|
    ensures |InnerEvents(joints, events)| == |events|
    ensures ConsumedBy(InnerEvents(joints, events)[..n]) == joints[n].channel.consumed
  {
    hide JointStep, InnerEvents, Within, Projected, Reconciled;
    InnerAt(joints, events, 0);
    if n > 0 {
      ConsumedIsReceived(o, source, runners, joints, events, n - 1);
      InnerAt(joints, events, n - 1);
      JointStepWithin(o, source, joints[n - 1], events[n - 1], joints[n]);
      assert InnerEvents(joints, events)[..n][..n - 1] == InnerEvents(joints, events)[..n - 1];
    }
  }

  /**
   * Every run of the whole composes: its parts are a disciplined log, a linearizing mailbox and a run of the
   * reconciler with fresh names that consumed what was published.
   */
  lemma JointRunIsComposed(
    o: Options, source: SourceOptions, runners: seq<Runner>, joints: seq<Joint>, events: seq<JointEvent>)
    requires ValidOptions(o) && AllValid(runners) && IsJointRun(o, source, runners, joints, events)
    ensures var last := joints[|events|];
            Composed(o, last.log, source, last.channel, InnerStates(joints), InnerEvents(joints, events))
  {
    hide JointStep, SystemStep, Within, IsRun, FreshNames, Disciplined, ChannelValid, Step;
    var systems, moves := Systems(joints), SystemEvents(joints, events);
    forall i | 0 <= i < |moves| ensures SystemStep(o, systems[i], moves[i], systems[i + 1]) {
      JointStepWithin(o, source, joints[i], events[i], joints[i + 1]);
    }
    SystemRunIsReconcilerRun(o, runners, systems, moves);
    JointRunKeepsValid(o, source, runners, joints, events, |events|);
    ConsumedIsReceived(o, source, runners, joints, events, |events|);
    var inner := InnerEvents(joints, events);
    assert inner[..|events|] == inner;
    InnerAt(joints, events, 0);
    StartsEmpty(o, runners);
  }

  lemma StartsEmpty(o: Options, runners: seq<Runner>)
    requires ValidOptions(o) && AllValid(runners)
    ensures var s := InitialJoint(o, runners).system.world.state;
            && Reconciler.Valid(s) && s.operations == map[] && s.created == map[] && s.busy == {} && s.generation == 0
  {
    InitialSystemValid(o, runners);
  }

  // ---- Main results ---------------------------------------------------------------------------------

  predicate HandsOff(e: JointEvent, kind: OperationKind) {
    e.Inside? && e.event.Handoff? && e.event.op.kind == kind
  }

  /** The main loop reads a successful create that made this runner. */
  predicate Creates(j: Joint, e: JointEvent, id: nat, runner: RunnerID) {
    && e.Inside? && e.event.TakeResult? && j.system.buffer != []
    && var r := j.system.buffer[0];
       r.operation.id == id && !r.failed && r.runner.id == runner
  }

  lemma HandedOff(joints: seq<Joint>, events: seq<JointEvent>, i: nat)
    requires |joints| == |events| + 1 && i < |events|
    ensures |InnerEvents(joints, events)| == |events|
    ensures var e := InnerEvents(joints, events)[i];
            && (e.Scheduled? <==> events[i].Inside? && events[i].event.Handoff?)
            && (e.Scheduled? ==> e.op == events[i].event.op)
            && (e.Applied? ==> events[i].Inside? && events[i].event.TakeResult? && joints[i].system.buffer != []
                               && e.result == joints[i].system.buffer[0])
  {
    InnerAt(joints, events, i);
  }

  /**
   * End-to-end fence safety, over every interleaving of source, mailbox, main loop, workers and world. When a fence
   * of r is handed off at j, r was made by a create handed off at k and read at l under the session generation that
   * is still current. Unless no demand had arrived at all, the demand last received had been published at position
   * p of the source's log, in that session, and its callbacks up to p leave no job on r unfinished.
   */
  lemma FencesOnlyIdleRunnersOfThisSession(
    o: Options, source: SourceOptions, runners: seq<Runner>, joints: seq<Joint>, events: seq<JointEvent>, j: nat)
    returns (k: nat, l: nat, p: nat)
    requires ValidOptions(o) && AllValid(runners) && IsJointRun(o, source, runners, joints, events)
    requires j < |events| && HandsOff(events[j], Fence)
    ensures k < l < j && HandsOff(events[k], Create)
    ensures Creates(joints[l], events[l], events[k].event.op.id, events[j].event.op.runnerID)
    ensures forall m | k <= m <= j :: joints[m].system.world.state.generation == events[k].event.op.generation
    ensures var log, received := joints[j].log, joints[j].channel.consumed;
            received != [] ==>
              && p < |log| && log[p] == Published(Last(received))
              && OpenedCount(log[..p]) == events[k].event.op.generation
              && !Unfinished(SessionHistory(log[..p]), events[j].event.op.runnerID)
  {
    hide JointStep, Composed, InnerEvents, InnerStates;
    var js, es := joints[..j + 2], events[..j + 1];
    JointPrefix(o, source, runners, joints, events, j + 1);
    InsideKeepsLog(o, source, joints[j], events[j], joints[j + 1]);
    JointRunIsComposed(o, source, runners, js, es);
    var last, states, inner := js[j + 1], InnerStates(js), InnerEvents(js, es);
    HandedOff(js, es, j);
    k, l, p := FenceAcrossTheParts(o, last.log, source, last.channel, states, inner, j);
    HandedOff(js, es, k);
    HandedOff(js, es, l);
    ConsumedIsReceived(o, source, runners, js, es, j);
    forall m | k <= m <= j
      ensures joints[m].system.world.state.generation == events[k].event.op.generation
    {
      InnerAt(js, es, m);
      assert states[m].generation == inner[k].op.generation;
    }
  }

  lemma JointPrefix(
    o: Options, source: SourceOptions, runners: seq<Runner>, joints: seq<Joint>, events: seq<JointEvent>, n: nat)
    requires ValidOptions(o) && IsJointRun(o, source, runners, joints, events) && n <= |events|
    ensures IsJointRun(o, source, runners, joints[..n + 1], events[..n])
  {
    hide JointStep;
    forall i | 0 <= i < n ensures JointStep(o, source, joints[..n + 1][i], events[..n][i], joints[..n + 1][i + 1]) {
      assert JointStep(o, source, joints[i], events[i], joints[i + 1]);
    }
  }

  lemma InsideKeepsLog(o: Options, source: SourceOptions, j: Joint, e: JointEvent, j': Joint)
    requires ValidOptions(o) && JointStep(o, source, j, e, j') && e.Inside?
    ensures j'.log == j.log && j'.channel == j.channel
  {
    hide SystemStep, MayFollow;
  }

  /**
   * Once the mailbox is drained and no callback is being handled, the reconciler's target is the one last returned
   * to the listener, which answers the last desired count: both sides use the same capacity options.
   */
  lemma DrainedTargetIsLastReported(
    o: Options, source: SourceOptions, runners: seq<Runner>, joints: seq<Joint>, events: seq<JointEvent>)
    returns (p: nat)
    requires ValidOptions(o) && AllValid(runners) && IsJointRun(o, source, runners, joints, events)
    requires source.capacity == o
    requires var last := joints[|events|];
             last.channel.slot == [] && last.channel.critical.Free? && BetweenCalls(last.log) && PublishedBy(last.log) != []
    ensures var last := joints[|events|];
            && 1 < p < |last.log| && last.log[p] == Reported(last.system.world.state.target)
            && last.log[p - 2].Called? && last.log[p - 2].callback.DesiredCount?
            && TargetFor(o, last.log[p - 2].callback.count, last.system.world.state.target)
            && forall i | p < i < |last.log| ::
                 !last.log[i].Reported? && (last.log[i].Called? ==> !last.log[i].callback.DesiredCount?)
  {
    hide JointStep, Within, IsRun, FreshNames, Disciplined, ChannelValid, InnerEvents, InnerStates;
    JointRunIsComposed(o, source, runners, joints, events);
    var last, states, inner := joints[|events|], InnerStates(joints), InnerEvents(joints, events);
    InnerAt(joints, events, |events|);
    p := TargetAcrossTheParts(o, last.log, source, last.channel, states, inner);
  }
}
