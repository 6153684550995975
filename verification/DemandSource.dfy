/**
 * The demand path: listener callbacks of one GitHub message session become demand snapshots, and sessions are
 * reopened with backoff under growing generations.
 */
module DemandSource {
  import opened Wrappers
  import opened GoInt
  import opened ControllerTypes
  import opened Backoff
  import opened Reconciler
  import opened Sorting
  import opened Mailboxes

  /** Calls the upstream listener makes; None is a nil job, and a job may name no runner. */
  datatype Callback =
    | DesiredCount(count: int)
    | JobStarted(job: Option<RunnerID>)
    | JobCompleted(job: Option<RunnerID>)

  // ---- Busy runners of one session ------------------------------------------------------------------

  /** The busy set after a session's callbacks. */
  function BusyAfter(history: seq<Callback>): set<RunnerID> {
    if history == [] then {}
    else
      var before, last := BusyAfter(history[..|history| - 1]), history[|history| - 1];
      match last
      case DesiredCount(_) => before
      case JobStarted(job) => if job.Some? && job.value != "" then before + {job.value} else before
      case JobCompleted(job) => if job.Some? && job.value != "" then before - {job.value} else before
  }

  /** A job on r started in this session and none on r has completed since. */
  ghost predicate Unfinished(history: seq<Callback>, r: RunnerID) {
    r != "" && exists i ::
      && 0 <= i < |history| && history[i] == JobStarted(Some(r))
      && forall j | i < j < |history| :: history[j] != JobCompleted(Some(r))
  }

  lemma {:induction false} BusyMeansUnfinished(history: seq<Callback>, r: RunnerID)
    ensures r in BusyAfter(history) <==> Unfinished(history, r)
  {
    if history != [] {
      BusyMeansUnfinished(history[..|history| - 1], r);
      UnfinishedStep(history, r);
    }
  }

  lemma UnfinishedStep(history: seq<Callback>, r: RunnerID)
    requires history != []
    ensures var before, last := history[..|history| - 1], history[|history| - 1];
            Unfinished(history, r) <==>
              r != "" && (last == JobStarted(Some(r)) || (Unfinished(before, r) && last != JobCompleted(Some(r))))
  {
    var n := |history| - 1;
    var before, last := history[..n], history[n];
    if Unfinished(history, r) {
      var i :| 0 <= i <= n && history[i] == JobStarted(Some(r))
            && forall j | i < j <= n :: history[j] != JobCompleted(Some(r));
      if i < n {
        assert before[i] == JobStarted(Some(r));
        assert forall j | i < j < n :: before[j] == history[j];
      }
    }
    if Unfinished(before, r) && last != JobCompleted(Some(r)) {
      var i :| 0 <= i < n && before[i] == JobStarted(Some(r))
            && forall j | i < j < n :: before[j] != JobCompleted(Some(r));
      assert history[i] == JobStarted(Some(r));
      assert forall j | i < j < n :: history[j] == before[j];
    }
  }

  datatype SourceOptions = SourceOptions(
    capacity: Options,
    reconnectInitial: Duration,
    reconnectMaximum: Duration)

  predicate ValidSourceOptions(o: SourceOptions) {
    ValidOptions(o.capacity) && 0 < o.reconnectInitial <= o.reconnectMaximum
  }

  // ---- The log of a demand source -------------------------------------------------------------------

  /** What a running source does, in order. */
  datatype Entry =
    | Opened(session: nat)
    | Called(callback: Callback)
    | Published(demand: Demand)
    | Reported(target: int)
    | Closed(session: nat)
    | Waited(delay: Duration)

  function OpenedCount(log: seq<Entry>): nat {
    if log == [] then 0
    else OpenedCount(log[..|log| - 1]) + (if log[|log| - 1].Opened? then 1 else 0)
  }

  /** The session open after the log, if any. */
  function OpenSession(log: seq<Entry>): Option<nat> {
    if log == [] then None
    else match log[|log| - 1]
      case Opened(n) => Some(n)
      case Closed(_) => None
      case _ => OpenSession(log[..|log| - 1])
  }

  /** The callbacks since the last session was opened. */
  function SessionHistory(log: seq<Entry>): seq<Callback> {
    if log == [] then []
    else match log[|log| - 1]
      case Opened(_) => []
      case Called(c) => SessionHistory(log[..|log| - 1]) + [c]
      case _ => SessionHistory(log[..|log| - 1])
  }

  /** Reconnect delays since the last contact; GitHub is in contact when it reports a desired count. */
  function WaitsSinceContact(log: seq<Entry>): nat {
    if log == [] then 0
    else match log[|log| - 1]
      case Waited(_) => WaitsSinceContact(log[..|log| - 1]) + 1
      case Called(c) => if c.DesiredCount? then 0 else WaitsSinceContact(log[..|log| - 1])
      case _ => WaitsSinceContact(log[..|log| - 1])
  }

  /** A desired count has just been reported, and its snapshot is not published yet. */
  predicate Owes(log: seq<Entry>) {
    log != [] && log[|log| - 1].Called? && log[|log| - 1].callback.DesiredCount?
  }

  /** No desired count is being answered: its snapshot is published and its target returned to the listener. */
  predicate BetweenCalls(log: seq<Entry>) {
    !Owes(log) && (log == [] || !log[|log| - 1].Published?)
  }

  function PublishedBy(log: seq<Entry>): seq<Demand> {
    if log == [] then []
    else
      var before, last := PublishedBy(log[..|log| - 1]), log[|log| - 1];
      if last.Published? then before + [last.demand] else before
  }

  /** The callbacks of each session that was run and closed. */
  function PastSessions(log: seq<Entry>): seq<seq<Callback>> {
    if log == [] then []
    else
      var before := log[..|log| - 1];
      if log[|log| - 1].Closed? then PastSessions(before) + [SessionHistory(before)] else PastSessions(before)
  }

  /**
   * What may be appended to a log. Every desired count is answered by one snapshot and then by the target returned
   * to the listener, and every reopening has waited.
   */
  ghost predicate MayFollow(log: seq<Entry>, e: Entry, source: SourceOptions) {
    (Owes(log) <==> e.Published?) && ((log != [] && log[|log| - 1].Published?) <==> e.Reported?) &&
    match e
    case Opened(n) => OpenSession(log).None? && n == OpenedCount(log) && (log == [] || log[|log| - 1].Waited?)
    case Called(_) => OpenSession(log).Some?
    case Published(d) =>
      && OpenSession(log).Some? && d.generation == OpenedCount(log)
      && SessionHistory(log) != [] && Last(SessionHistory(log)).DesiredCount?
      && d.assignedJobs == Max(Last(SessionHistory(log)).count, 0)
      && NonEmpty(d.busyRunners) == BusyAfter(SessionHistory(log))
      && SortedBy(d.busyRunners, (x: string) => x)
    case Reported(target) => target == BoundedTarget(source.capacity, log[|log| - 1].demand.assignedJobs)
    case Closed(n) => OpenSession(log) == Some(n)
    case Waited(delay) =>
      OpenSession(log).None? && delay as int == 
        Ideal(source.reconnectInitial as int, source.reconnectMaximum as int, WaitsSinceContact(log))
  }

  ghost predicate Disciplined(log: seq<Entry>, source: SourceOptions) {
    forall i | 0 <= i < |log| :: MayFollow(log[..i], log[i], source)
  }

  lemma Append(log: seq<Entry>, e: Entry, source: SourceOptions)
    requires Disciplined(log, source) && MayFollow(log, e, source)
    ensures Disciplined(log + [e], source)
    ensures (log + [e])[..|log|] == log
  {
    var log' := log + [e];
    assert log'[..|log|] == log;
    forall i | 0 <= i < |log'| ensures MayFollow(log'[..i], log'[i], source) {
      if i < |log| {
        assert log'[..i] == log[..i];
      }
    }
  }

  // ---- What a disciplined log means -----------------------------------------------------------------

  function CountOpened(log: seq<Entry>, n: nat): nat {
    if log == [] then 0
    else CountOpened(log[..|log| - 1], n) + (if log[|log| - 1] == Opened(n) then 1 else 0)
  }

  function CountClosed(log: seq<Entry>, n: nat): nat {
    if log == [] then 0
    else CountClosed(log[..|log| - 1], n) + (if log[|log| - 1] == Closed(n) then 1 else 0)
  }

  /** Every session is opened at most once and closed at most once; it is open exactly in between. */
  lemma {:induction false} SessionsOpenAndCloseOnce(log: seq<Entry>, source: SourceOptions, n: nat)
    requires Disciplined(log, source)
    ensures CountOpened(log, n) == if n < OpenedCount(log) then 1 else 0
    ensures CountOpened(log, n) - CountClosed(log, n) == if OpenSession(log) == Some(n) then 1 else 0
    ensures OpenSession(log).Some? ==> OpenSession(log).value == OpenedCount(log) - 1
  {
    if log != [] {
      var k := |log| - 1;
      var before := log[..k];
      forall i | 0 <= i < k ensures MayFollow(before[..i], before[i], source) {
        assert before[..i] == log[..i];
      }
      SessionsOpenAndCloseOnce(before, source, n);
      assert MayFollow(before, log[k], source);
    }
  }

  function CountWaits(log: seq<Entry>): nat {
    if log == [] then 0 else CountWaits(log[..|log| - 1]) + (if log[|log| - 1].Waited? then 1 else 0)
  }

  /** Backoff goes by the waits since GitHub last reported a desired count, at p - 1, or since the start. */
  lemma {:induction false} WaitsExactly(log: seq<Entry>, p: nat)
    requires p <= |log| && (p == 0 || (log[p - 1].Called? && log[p - 1].callback.DesiredCount?))
    requires forall i | p <= i < |log| && log[i].Called? :: !log[i].callback.DesiredCount?
    ensures WaitsSinceContact(log) == CountWaits(log) - CountWaits(log[..p])
  {
    if p < |log| {
      WaitsExactly(log[..|log| - 1], p);
      assert log[..|log| - 1][..p] == log[..p];
    } else {
      assert log[..p] == log;
    }
  }

  /** Generations stamped on published demand never decrease. */
  lemma PublishedGenerationsGrow(log: seq<Entry>, source: SourceOptions, i: nat, j: nat)
    requires Disciplined(log, source)
    requires i <= j < |log| && log[i].Published? && log[j].Published?
    ensures log[i].demand.generation <= log[j].demand.generation
  {
    assert MayFollow(log[..i], log[i], source);
    assert MayFollow(log[..j], log[j], source);
    OpenedCountGrows(log, i, j);
  }

  lemma {:induction false} OpenedCountGrows(log: seq<Entry>, i: nat, j: nat)
    requires i <= j <= |log|
    ensures OpenedCount(log[..i]) <= OpenedCount(log[..j])
  {
    if i < j {
      OpenedCountGrows(log, i, j - 1);
      assert log[..j][..j - 1] == log[..j - 1];
    }
  }

  // ---- The objects ----------------------------------------------------------------------------------

  /** How one turn of the reconnect loop went: the session's callbacks, then the wait and the reopening. */
  datatype Turn = Turn(callbacks: seq<Callback>, cancelledAfterSession: bool, reconnect: Reconnect)
  datatype Reconnect = WaitCancelled | WaitFailed | OpenFailed(cancelled: bool) | Reopened

  predicate Ends(r: Reconnect) {
    r.WaitCancelled? || (r.OpenFailed? && r.cancelled)
  }

  /** The sessions to be run when GitHub answers with turns: cancellation in a turn leaves the later ones out. */
  function Played(open: bool, turns: seq<Turn>): seq<seq<Callback>>
    decreases |turns|
  {
    if turns == [] then (if open then [[]] else [])
    else
      var t := turns[0];
      Ran(open, t) + (if FinalTurn(open, t) then [] else Played(t.reconnect.Reopened?, turns[1..]))
  }

  /** A turn after which nothing more is played. */
  predicate FinalTurn(open: bool, t: Turn) {
    (open && t.cancelledAfterSession) || Ends(t.reconnect)
  }

  function Ran(open: bool, t: Turn): seq<seq<Callback>> {
    if open then [t.callbacks] else []
  }

  /** Whether a session is open when turn i begins, or after all turns. */
  predicate OpenAt(open: bool, turns: seq<Turn>, i: nat)
    requires i <= |turns|
  {
    if i == 0 then open else turns[i - 1].reconnect.Reopened?
  }

  /**
   * Turn i is reached: no earlier one was cancelled, neither with its session over, nor in the wait, nor with the
   * reopening failed.
   */
  ghost predicate Reached(open: bool, turns: seq<Turn>, i: nat)
    requires i <= |turns|
  {
    forall j | 0 <= j < i ::
      && !(OpenAt(open, turns, j) && turns[j].cancelledAfterSession)
      && turns[j].reconnect != WaitCancelled && turns[j].reconnect != OpenFailed(true)
  }

  /** at are the turns reached with a session open, in order, and their callbacks are what Run plays. */
  ghost predicate PlayedAt(open: bool, turns: seq<Turn>, at: seq<nat>) {
    && (forall i, j | 0 <= i < j < |at| :: at[i] < at[j])
    && (forall i | 0 <= i < |at| :: at[i] < |turns|)
    && (forall i | 0 <= i < |turns| :: i in at <==> Reached(open, turns, i) && OpenAt(open, turns, i))
    && Played(open, turns) == Heard(turns, at) + LeftOpen(open, turns)
  }

  /** The callbacks of these turns. */
  ghost function Heard(turns: seq<Turn>, at: seq<nat>): seq<seq<Callback>> {
    seq(|at|, k requires 0 <= k < |at| => if at[k] < |turns| then turns[at[k]].callbacks else [])
  }

  /** The session still open when no turn is left, which hears nothing. */
  ghost function LeftOpen(open: bool, turns: seq<Turn>): seq<seq<Callback>> {
    if Reached(open, turns, |turns|) && OpenAt(open, turns, |turns|) then [[]] else []
  }

  /** Run plays the sessions that are open in the turns reached, in order, and one still open at the end. */
  lemma {:induction false} PlayedExactly(open: bool, turns: seq<Turn>) returns (at: seq<nat>)
    ensures PlayedAt(open, turns, at)
    decreases |turns|
  {
    hide PlayedAt;
    if turns == [] {
      at := [];
      NoTurns(open);
    } else if FinalTurn(open, turns[0]) {
      at := if open then [0] else [];
      OneTurn(open, turns);
    } else {
      var later := PlayedExactly(turns[0].reconnect.Reopened?, turns[1..]);
      at := (if open then [0] else []) + seq(|later|, k requires 0 <= k < |later| => later[k] + 1);
      FirstTurn(open, turns, later, at);
    }
  }

  lemma NoTurns(open: bool)
    ensures PlayedAt(open, [], [])
  {
  }

  lemma OneTurn(open: bool, turns: seq<Turn>)
    requires turns != [] && FinalTurn(open, turns[0])
    ensures PlayedAt(open, turns, if open then [0] else [])
  {
    assert Played(open, turns) == Ran(open, turns[0]);
  }

  lemma FirstTurn(open: bool, turns: seq<Turn>, later: seq<nat>, at: seq<nat>)
    requires turns != [] && !FinalTurn(open, turns[0])
    requires PlayedAt(turns[0].reconnect.Reopened?, turns[1..], later)
    requires at == (if open then [0] else []) + seq(|later|, k requires 0 <= k < |later| => later[k] + 1)
    ensures PlayedAt(open, turns, at)
  {
    hide Reached, OpenAt, FinalTurn, LeftOpen, Played, Heard;
    LeftOpenLater(open, turns);
    PlaysShifted(open, turns, later, at);
    ReachedShifted(open, turns, later, at);
  }

  lemma LeftOpenLater(open: bool, turns: seq<Turn>)
    requires turns != [] && !FinalTurn(open, turns[0])
    ensures LeftOpen(open, turns) == LeftOpen(turns[0].reconnect.Reopened?, turns[1..])
  {
    hide Reached, OpenAt, FinalTurn;
    ReachedLater(open, turns, |turns| - 1);
  }

  lemma ReachedShifted(open: bool, turns: seq<Turn>, later: seq<nat>, at: seq<nat>)
    requires turns != [] && !FinalTurn(open, turns[0])
    requires var rest, reopened := turns[1..], turns[0].reconnect.Reopened?;
             forall i | 0 <= i < |rest| :: i in later <==> Reached(reopened, rest, i) && OpenAt(reopened, rest, i)
    requires at == (if open then [0] else []) + seq(|later|, k requires 0 <= k < |later| => later[k] + 1)
    ensures forall i | 0 <= i < |turns| :: i in at <==> Reached(open, turns, i) && OpenAt(open, turns, i)
  {
    hide Reached, OpenAt, FinalTurn;
    FirstReached(open, turns);
    Shift(open, turns, later, seq(|later|, k requires 0 <= k < |later| => later[k] + 1), at);
    forall i | 0 <= i < |turns| ensures i in at <==> Reached(open, turns, i) && OpenAt(open, turns, i) {
      if i > 0 {
        ReachedLater(open, turns, i - 1);
      }
    }
  }

  lemma FirstReached(open: bool, turns: seq<Turn>)
    ensures Reached(open, turns, 0) && OpenAt(open, turns, 0) == open
  {
  }

  lemma PlaysShifted(open: bool, turns: seq<Turn>, later: seq<nat>, at: seq<nat>)
    requires turns != [] && !FinalTurn(open, turns[0])
    requires var rest, reopened := turns[1..], turns[0].reconnect.Reopened?;
             Played(reopened, rest) == Heard(rest, later) + LeftOpen(reopened, rest)
    requires at == (if open then [0] else []) + seq(|later|, k requires 0 <= k < |later| => later[k] + 1)
    requires LeftOpen(open, turns) == LeftOpen(turns[0].reconnect.Reopened?, turns[1..])
    ensures Played(open, turns) == Heard(turns, at) + LeftOpen(open, turns)
  {
    hide Reached, OpenAt, FinalTurn, LeftOpen, Played, Heard, Ran;
    var rest, reopened := turns[1..], turns[0].reconnect.Reopened?;
    PlaysFirst(open, turns);
    HeardShifted(open, turns, later, at);
    assert Ran(open, turns[0]) + (Heard(rest, later) + LeftOpen(reopened, rest))
        == Ran(open, turns[0]) + Heard(rest, later) + LeftOpen(reopened, rest);
  }

  lemma PlaysFirst(open: bool, turns: seq<Turn>)
    requires turns != [] && !FinalTurn(open, turns[0])
    ensures Played(open, turns) == Ran(open, turns[0]) + Played(turns[0].reconnect.Reopened?, turns[1..])
  {
  }

  lemma HeardShifted(open: bool, turns: seq<Turn>, later: seq<nat>, at: seq<nat>)
    requires turns != []
    requires at == (if open then [0] else []) + seq(|later|, k requires 0 <= k < |later| => later[k] + 1)
    ensures Heard(turns, at) == Ran(open, turns[0]) + Heard(turns[1..], later)
  {
    forall k | 0 <= k < |at| ensures Heard(turns, at)[k] == (Ran(open, turns[0]) + Heard(turns[1..], later))[k] {
    }
  }

  lemma ReachedLater(open: bool, turns: seq<Turn>, i: nat)
    requires i < |turns| && !FinalTurn(open, turns[0])
    ensures var rest, reopened := turns[1..], turns[0].reconnect.Reopened?;
            && OpenAt(open, turns, i + 1) == OpenAt(reopened, rest, i)
            && (Reached(open, turns, i + 1) <==> Reached(reopened, rest, i))
  {
    var rest, reopened := turns[1..], turns[0].reconnect.Reopened?;
    forall j | 0 <= j < i ensures OpenAt(open, turns, j + 1) == OpenAt(reopened, rest, j) && turns[j + 1] == rest[j] {
    }
    if Reached(reopened, rest, i) {
      forall j | 0 <= j < i + 1
        ensures !(OpenAt(open, turns, j) && turns[j].cancelledAfterSession)
        ensures turns[j].reconnect != WaitCancelled && turns[j].reconnect != OpenFailed(true)
      {
        if j > 0 {
          assert turns[j] == rest[j - 1] && OpenAt(open, turns, j) == OpenAt(reopened, rest, j - 1);
        }
      }
    }
    if Reached(open, turns, i + 1) {
      forall j | 0 <= j < i
        ensures !(OpenAt(reopened, rest, j) && rest[j].cancelledAfterSession)
        ensures rest[j].reconnect != WaitCancelled && rest[j].reconnect != OpenFailed(true)
      {
        assert turns[j + 1] == rest[j];
      }
    }
  }

  lemma Shift(open: bool, turns: seq<Turn>, later: seq<nat>, shifted: seq<nat>, at: seq<nat>)
    requires turns != [] && |shifted| == |later| && forall k | 0 <= k < |later| :: shifted[k] == later[k] + 1
    requires at == (if open then [0] else []) + shifted
    ensures 0 in at <==> open
    ensures forall i | 0 < i < |turns| :: i in at <==> i - 1 in later
  {
    forall i | 0 < i < |turns| ensures i in at <==> i - 1 in later {
      if i in at {
        var k :| 0 <= k < |shifted| && shifted[k] == i;
      }
      if i - 1 in later {
        var k :| 0 <= k < |later| && later[k] == i - 1;
        assert shifted[k] == i;
      }
    }
  }

  /** After the sessions in past, and with the turns from i on still to come, all is going as total says. */
  ghost predicate OnCourse(past: seq<seq<Callback>>, open: bool, turns: seq<Turn>, i: nat, total: seq<seq<Callback>>)
    requires i <= |turns|
  {
    past + Played(open, turns[i..]) == total
  }

  /** One turn played keeps the course, or completes it. */
  lemma PlayedNext(
    past: seq<seq<Callback>>, past': seq<seq<Callback>>, open: bool, turns: seq<Turn>, i: nat,
    total: seq<seq<Callback>>)
    requires i < |turns| && OnCourse(past, open, turns, i, total) && past' == past + Ran(open, turns[i])
    ensures if FinalTurn(open, turns[i]) then past' == total
            else OnCourse(past', turns[i].reconnect.Reopened?, turns, i + 1, total)
  {
    hide Ends;
    var t := turns[i];
    assert turns[i..][1..] == turns[i + 1..];
    var later := if FinalTurn(open, t) then [] else Played(t.reconnect.Reopened?, turns[i + 1..]);
    assert Played(open, turns[i..]) == Ran(open, t) + later;
    assert past + (Ran(open, t) + later) == past + Ran(open, t) + later;
  }

  lemma PlayedFirst(open: bool, turns: seq<Turn>)
    ensures OnCourse([], open, turns, 0, Played(open, turns))
  {
    assert turns[0..] == turns;
  }

  /** When all turns are over, a session still open is the only one left. */
  lemma PlayedLast(past: seq<seq<Callback>>, open: bool, turns: seq<Turn>, total: seq<seq<Callback>>)
    requires OnCourse(past, open, turns, |turns|, total)
    ensures total == if open then past + [[]] else past
  {
  }

  class ResilientDemandSource {
    const options: SourceOptions
    var available: bool
    const mailbox: Mailbox
    /** Everything this source did. */
    ghost var log: seq<Entry>

    ghost predicate Sound()
      reads this, mailbox
    {
      && ValidSourceOptions(options)
      && Disciplined(log, options)
      && mailbox.Valid() && mailbox.critical.Free?
    }

    /** Between two steps, the mailbox has been given exactly what the log says was published. */
    ghost predicate Valid()
      reads this, mailbox
    {
      Sound() && mailbox.published == PublishedBy(log)
    }

    constructor (options: SourceOptions, mailbox: Mailbox)
      requires ValidSourceOptions(options) && mailbox.Valid() && mailbox.critical.Free? && mailbox.published == []
      ensures Valid() && log == [] && available && this.options == options && this.mailbox == mailbox
    {
      this.options, this.mailbox, available, log := options, mailbox, true, [];
    }

    /** claim: the first caller owns the source; Close claims it too, so that it never starts. */
    method Claim() returns (claimed: bool)
      modifies this`available
      ensures claimed == old(available) && !available
    {
      claimed := available;
      available := false;
    }

    ghost method Record(e: Entry)
      requires Sound() && MayFollow(log, e, options)
      modifies this`log
      ensures Sound() && log == old(log) + [e] && log[..|log| - 1] == old(log)
    {
      Append(log, e, options);
      log := log + [e];
    }

    /** Records a callback of the open session. */
    ghost method RecordCall(c: Callback)
      requires Valid() && OpenSession(log).Some? && BetweenCalls(log)
      modifies this`log
      ensures Valid() && log == old(log) + [Called(c)] && PastSessions(log) == PastSessions(old(log))
      ensures if c.DesiredCount? then Owes(log) else BetweenCalls(log)
      ensures SessionHistory(log) == SessionHistory(old(log)) + [c]
      ensures OpenSession(log) == OpenSession(old(log)) && OpenedCount(log) == OpenedCount(old(log))
      ensures WaitsSinceContact(log) == if c.DesiredCount? then 0 else WaitsSinceContact(old(log))
    {
      Record(Called(c));
    }

    /** Records the snapshot that was published for the desired count just called. */
    ghost method RecordPublished(d: Demand, before: seq<Callback>, count: int)
      requires Sound() && mailbox.published == PublishedBy(log) + [d] && Owes(log)
      requires OpenSession(log).Some? && SessionHistory(log) == before + [DesiredCount(count)]
      requires d.generation == OpenedCount(log) && d.assignedJobs == Max(count, 0)
      requires NonEmpty(d.busyRunners) == BusyAfter(SessionHistory(log))
      requires SortedBy(d.busyRunners, (x: string) => x)
      modifies this`log
      ensures Valid() && log == old(log) + [Published(d)] && PastSessions(log) == PastSessions(old(log))
      ensures SessionHistory(log) == SessionHistory(old(log))
      ensures OpenSession(log) == OpenSession(old(log)) && OpenedCount(log) == OpenedCount(old(log))
      ensures WaitsSinceContact(log) == WaitsSinceContact(old(log))
    {
      assert Last(SessionHistory(log)) == DesiredCount(count);
      Record(Published(d));
    }

    /** Records the target returned to the listener. */
    ghost method RecordReported(d: Demand, target: int)
      requires Valid() && log != [] && log[|log| - 1] == Published(d)
      requires target == BoundedTarget(options.capacity, d.assignedJobs)
      modifies this`log
      ensures Valid() && log == old(log) + [Reported(target)] && BetweenCalls(log)
      ensures PastSessions(log) == PastSessions(old(log)) && SessionHistory(log) == SessionHistory(old(log))
      ensures OpenSession(log) == OpenSession(old(log)) && OpenedCount(log) == OpenedCount(old(log))
      ensures WaitsSinceContact(log) == WaitsSinceContact(old(log))
    {
      Record(Reported(target));
    }

    /** demandHandler.HandleDesiredRunnerCount: contact, a sorted busy snapshot, and the count reported back. */
    method HandleDesiredRunnerCount(count: int, busy: set<RunnerID>, generation: nat, backoff: ReconnectBackoff)
      returns (reported: int, ghost demand: Demand)
      requires Valid() && backoff.Valid() && BetweenCalls(log)
      requires OpenSession(log).Some? && generation == OpenedCount(log) && busy == BusyAfter(SessionHistory(log))
      modifies this`log, mailbox, backoff
      ensures Valid() && backoff.Valid() && backoff.calls == WaitsSinceContact(log) == 0
      ensures log == old(log) + [Called(DesiredCount(count)), Published(demand), Reported(reported)]
      ensures BetweenCalls(log) && PastSessions(log) == PastSessions(old(log))
      ensures reported == BoundedTarget(options.capacity, demand.assignedJobs)
      ensures TargetFor(options.capacity, count, reported)
      ensures SessionHistory(log) == SessionHistory(old(log)) + [DesiredCount(count)]
      ensures OpenSession(log) == OpenSession(old(log)) && OpenedCount(log) == OpenedCount(old(log))
    {
      hide OpenSession, OpenedCount, SessionHistory, WaitsSinceContact, Disciplined, ChannelValid, Ideal, Wrap;
      hide PublishedBy, PastSessions, Owes, BetweenCalls;
      ghost var before := SessionHistory(log);
      backoff.Reset();
      RecordCall(DesiredCount(count));
      DesiredKeepsBusy(before, count);
      var snapshot := Demand(Max(count, 0), generation, []);
      var busyRunners := SortedList(busy);
      NeverBusyUnnamed(before);
      assert NonEmpty(busyRunners) == busy;
      snapshot := snapshot.(busyRunners := busyRunners);
      mailbox.Publish(snapshot);
      RecordPublished(snapshot, before, count);
      demand := snapshot;
      BoundedIsTargetFor(options.capacity, count);
      reported := Min(options.capacity.maxRunners, Wrap(options.capacity.minRunners + Max(count, 0)));
      RecordReported(demand, reported);
    }

    /** runSession: the listener drives the handler until the session ends; the busy set starts empty. */
    method RunSession(callbacks: seq<Callback>, generation: nat, backoff: ReconnectBackoff)
      requires Valid() && backoff.Valid() && backoff.calls == WaitsSinceContact(log)
      requires OpenSession(log).Some? && generation == OpenedCount(log) && SessionHistory(log) == [] && BetweenCalls(log)
      modifies this`log, mailbox, backoff
      ensures Valid() && backoff.Valid() && backoff.calls == WaitsSinceContact(log)
      ensures OpenSession(log) == OpenSession(old(log)) && OpenedCount(log) == OpenedCount(old(log))
      ensures SessionHistory(log) == callbacks && BetweenCalls(log) && PastSessions(log) == PastSessions(old(log))
    {
      hide OpenSession, OpenedCount, SessionHistory, WaitsSinceContact, Disciplined, ChannelValid, Ideal;
      hide PublishedBy, PastSessions, Owes, BetweenCalls;
      var busy: set<RunnerID> := {};
      for i := 0 to |callbacks|
        invariant Valid() && backoff.Valid() && backoff.calls == WaitsSinceContact(log)
        invariant OpenSession(log) == OpenSession(old(log)) && OpenedCount(log) == OpenedCount(old(log))
        invariant SessionHistory(log) == callbacks[..i] && busy == BusyAfter(callbacks[..i])
        invariant BetweenCalls(log) && PastSessions(log) == PastSessions(old(log))
      {
        assert callbacks[..i + 1][..i] == callbacks[..i];
        assert callbacks[..i + 1] == callbacks[..i] + [callbacks[i]];
        if callbacks[i].DesiredCount? {
          ghost var demand;
          var reported;
          reported, demand := HandleDesiredRunnerCount(callbacks[i].count, busy, generation, backoff);
        } else {
          busy := HandleJob(busy, callbacks[i]);
          RecordCall(callbacks[i]);
        }
      }
      assert callbacks[..|callbacks|] == callbacks;
    }

    /** HandleJobStarted and HandleJobCompleted on the busy set; a nil job or unnamed runner is ignored. */
    method HandleJob(busy: set<RunnerID>, c: Callback) returns (after: set<RunnerID>)
      requires !c.DesiredCount?
      ensures forall history | BusyAfter(history) == busy :: after == BusyAfter(history + [c])
    {
      after := busy;
      match c {
        case JobStarted(job) =>
          if job.Some? && job.value != "" {
            after := after + {job.value};
          }
        case JobCompleted(job) =>
          if job.Some? && job.value != "" {
            after := after - {job.value};
          }
      }
      forall history | BusyAfter(history) == busy ensures after == BusyAfter(history + [c]) {
        assert (history + [c])[..|history|] == history;
      }
    }

    /** Opens the next session. */
    ghost method RecordOpened()
      requires Valid() && OpenSession(log).None? && (log == [] || log[|log| - 1].Waited?)
      modifies this`log
      ensures Valid() && OpenSession(log).Some? && SessionHistory(log) == [] && BetweenCalls(log)
      ensures log == old(log) + [Opened(OpenedCount(old(log)))]
      ensures PastSessions(log) == PastSessions(old(log))
      ensures OpenedCount(log) == OpenedCount(old(log)) + 1
      ensures WaitsSinceContact(log) == WaitsSinceContact(old(log))
    {
      Record(Opened(OpenedCount(log)));
    }

    /** Runs the open session under the next generation and closes it. */
    method RunAndClose(callbacks: seq<Callback>, generation: nat, backoff: ReconnectBackoff)
      requires Valid() && backoff.Valid() && backoff.calls == WaitsSinceContact(log)
      requires OpenSession(log).Some? && generation == OpenedCount(log) && SessionHistory(log) == [] && BetweenCalls(log)
      modifies this`log, mailbox, backoff
      ensures Valid() && backoff.Valid() && backoff.calls == WaitsSinceContact(log) && BetweenCalls(log)
      ensures OpenSession(log).None? && OpenedCount(log) == OpenedCount(old(log))
      ensures PastSessions(log) == PastSessions(old(log)) + [callbacks]
    {
      RunSession(callbacks, generation, backoff);
      Record(Closed(OpenSession(log).value));
    }

    /** Records the wait before a reopening. */
    ghost method RecordWaited(delay: Duration)
      requires Valid() && OpenSession(log).None? && BetweenCalls(log)
      requires delay as int == Ideal(options.reconnectInitial as int, options.reconnectMaximum as int, WaitsSinceContact(log))
      modifies this`log
      ensures Valid() && log == old(log) + [Waited(delay)] && BetweenCalls(log) && OpenSession(log).None?
      ensures PastSessions(log) == PastSessions(old(log)) && OpenedCount(log) == OpenedCount(old(log))
      ensures WaitsSinceContact(log) == WaitsSinceContact(old(log)) + 1
    {
      Record(Waited(delay));
    }

    /** reconnect: the current backoff delay, then an attempt to open a replacement session. */
    method Reconnect(backoff: ReconnectBackoff, answer: Reconnect) returns (delay: Duration, open: bool)
      requires Valid() && backoff.Valid() && backoff.calls == WaitsSinceContact(log)
      requires OpenSession(log).None? && BetweenCalls(log)
      requires backoff.initial == options.reconnectInitial && backoff.maximum == options.reconnectMaximum
      modifies this`log, backoff
      ensures Valid() && backoff.Valid() && backoff.calls == WaitsSinceContact(log) && BetweenCalls(log)
      ensures delay as int == Ideal(options.reconnectInitial as int, options.reconnectMaximum as int, old(backoff.calls))
      ensures open == answer.Reopened? == OpenSession(log).Some? && (open ==> SessionHistory(log) == [])
      ensures OpenedCount(log) == OpenedCount(old(log)) + (if open then 1 else 0)
      ensures PastSessions(log) == PastSessions(old(log)) && |old(log)| < |log| && log[|old(log)|] == Waited(delay)
    {
      hide OpenSession, OpenedCount, SessionHistory, WaitsSinceContact, Disciplined, ChannelValid, Ideal;
      hide PublishedBy, PastSessions, Owes, BetweenCalls, Sound;
      delay := backoff.Next();
      RecordWaited(delay);
      open := answer.Reopened?;
      if open {
        RecordOpened();
      }
    }

    /** Where one iteration of Run begins: between sessions, or with one just opened. */
    ghost predicate Ready(open: bool, generation: nat, backoff: ReconnectBackoff)
      reads this, mailbox, backoff
    {
      && Valid() && backoff.Valid() && backoff.calls == WaitsSinceContact(log) && BetweenCalls(log)
      && backoff.initial == options.reconnectInitial && backoff.maximum == options.reconnectMaximum
      && open == OpenSession(log).Some? && generation + (if open then 1 else 0) == OpenedCount(log)
      && (open ==> SessionHistory(log) == [])
    }

    /** One iteration of Run: the open session, if there is one, then a reconnect. */
    method PlayTurn(open: bool, generation: nat, turn: Turn, backoff: ReconnectBackoff)
      returns (next: nat, reopened: bool, ended: bool)
      requires Ready(open, generation, backoff)
      modifies this`log, mailbox, backoff
      ensures Ready(reopened, next, backoff)
      ensures !reopened ==> Valid() && OpenSession(log).None? && BetweenCalls(log)
      ensures PastSessions(log) == PastSessions(old(log)) + Ran(open, turn)
      ensures ended == FinalTurn(open, turn) && reopened == (!ended && turn.reconnect.Reopened?)
    {
      hide OpenSession, OpenedCount, SessionHistory, WaitsSinceContact, Disciplined, ChannelValid, Ideal;
      hide PublishedBy, PastSessions, Owes, BetweenCalls, Sound;
      next := generation;
      if open {
        next := next + 1;
        RunAndClose(turn.callbacks, next, backoff);
        if turn.cancelledAfterSession {
          return next, false, true;
        }
      }
      var delay;
      delay, reopened := Reconnect(backoff, turn.reconnect);
      ended := Ends(turn.reconnect);
    }

    /** Cancellation: a session opened last is run against a cancelled context and closed. */
    method PlayLast(open: bool, generation: nat, backoff: ReconnectBackoff)
      requires Ready(open, generation, backoff)
      modifies this`log, mailbox, backoff
      ensures Valid() && OpenSession(log).None? && BetweenCalls(log)
      ensures PastSessions(log) == if open then PastSessions(old(log)) + [[]] else PastSessions(old(log))
    {
      hide OpenSession, OpenedCount, SessionHistory, WaitsSinceContact, Disciplined, ChannelValid, Ideal;
      hide PublishedBy, PastSessions, Owes, BetweenCalls, Sound;
      if open {
        RunAndClose([], generation + 1, backoff);
      }
    }

    /** The start of Run: a fresh backoff and the first attempt to open a session. */
    method Begin(firstOpens: bool) returns (backoff: ReconnectBackoff)
      requires Valid() && log == []
      modifies this`log
      ensures fresh(backoff) && Ready(firstOpens, 0, backoff) && PastSessions(log) == []
    {
      assert OpenSession(log).None? && OpenedCount(log) == 0 && WaitsSinceContact(log) == 0
             && PastSessions(log) == [] && BetweenCalls(log) by {
        EmptyLog();
      }
      assert ValidSourceOptions(options);
      hide OpenSession, OpenedCount, SessionHistory, WaitsSinceContact, Disciplined, ChannelValid, Ideal;
      hide PublishedBy, PastSessions, Owes, BetweenCalls, Sound;
      backoff := new ReconnectBackoff(options.reconnectInitial, options.reconnectMaximum);
      if firstOpens {
        RecordOpened();
      }
    }

    /**
     * Run: opens sessions and keeps reopening them until cancelled, for any answers of GitHub. When it returns,
     * every session that opened has run to its end and is closed, and every desired count has been published.
     */
    method Run(firstOpens: bool, turns: seq<Turn>) returns (ran: bool)
      requires Valid() && log == []
      modifies this, mailbox
      ensures Valid() && OpenSession(log).None? && !available
      ensures ran == old(available) && (!ran ==> log == [])
      ensures ran ==> PastSessions(log) == Played(firstOpens, turns) && BetweenCalls(log)
    {
      ran := Claim();
      if !ran {
        return;
      }
      hide OpenSession, PastSessions, BetweenCalls, Valid, Ready, Played, FinalTurn, Ran, OnCourse;
      var backoff := Begin(firstOpens);
      var open, generation := firstOpens, 0;
      PlayedFirst(open, turns);
      for i := 0 to |turns|
        invariant fresh(backoff) && Ready(open, generation, backoff) && !available
        invariant OnCourse(PastSessions(log), open, turns, i, Played(firstOpens, turns))
      {
        ghost var past, wasOpen := PastSessions(log), open;
        var ended;
        generation, open, ended := PlayTurn(open, generation, turns[i], backoff);
        PlayedNext(past, PastSessions(log), wasOpen, turns, i, Played(firstOpens, turns));
        if ended {
          return;
        }
      }
      PlayedLast(PastSessions(log), open, turns, Played(firstOpens, turns));
      PlayLast(open, generation, backoff);
    }
  }

  lemma EmptyLog()
    ensures OpenSession([]) == None && OpenedCount([]) == 0 && WaitsSinceContact([]) == 0
    ensures PastSessions([]) == [] && BetweenCalls([])
  {
  }

  lemma DesiredKeepsBusy(before: seq<Callback>, count: int)
    ensures BusyAfter(before + [DesiredCount(count)]) == BusyAfter(before)
  {
    assert (before + [DesiredCount(count)])[..|before|] == before;
  }

  /** Nobody is busy under the empty name, which JobStarted ignores. */
  lemma {:induction false} NeverBusyUnnamed(history: seq<Callback>)
    ensures "" !in BusyAfter(history)
  {
    if history != [] {
      NeverBusyUnnamed(history[..|history| - 1]);
    }
  }
}
