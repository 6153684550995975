/** Mailbox: one slot that keeps only the newest demand, published into by many goroutines and read by one. */
module Mailboxes {
  import opened ControllerTypes

  /** xs can be obtained from ys by leaving elements out. */
  ghost predicate Subsequence<T(!new)>(xs: seq<T>, ys: seq<T>)
    decreases |ys|
  {
    xs == [] ||
    (ys != [] &&
      var (y, rest) := (ys[|ys| - 1], ys[..|ys| - 1]);
      Subsequence(xs, rest) || (xs[|xs| - 1] == y && Subsequence(xs[..|xs| - 1], rest)))
  }

  lemma SubsequenceKeep<T(!new)>(xs: seq<T>, ys: seq<T>, y: T)
    requires Subsequence(xs, ys)
    ensures Subsequence(xs + [y], ys + [y])
  {
    assert (ys + [y])[..|ys|] == ys && (xs + [y])[..|xs|] == xs;
  }

  lemma {:induction false} SubsequenceDropLast<T(!new)>(xs: seq<T>, ys: seq<T>)
    requires Subsequence(xs, ys) && xs != []
    ensures Subsequence(xs[..|xs| - 1], ys)
    decreases |ys|
  {
    var rest := ys[..|ys| - 1];
    if Subsequence(xs, rest) {
      SubsequenceDropLast(xs, rest);
    }
  }

  /** Where each element of a subsequence comes from: positions that never step back. */
  lemma {:induction false} SubsequencePositions<T(!new)>(xs: seq<T>, ys: seq<T>) returns (at: seq<nat>)
    requires Subsequence(xs, ys)
    ensures |at| == |xs|
    ensures forall i | 0 <= i < |xs| :: at[i] < |ys| && ys[at[i]] == xs[i]
    ensures forall i, j | 0 <= i < j < |xs| :: at[i] < at[j]
    decreases |ys|
  {
    if xs == [] {
      at := [];
    } else {
      var rest := ys[..|ys| - 1];
      if Subsequence(xs, rest) {
        at := SubsequencePositions(xs, rest);
      } else {
        at := SubsequencePositions(xs[..|xs| - 1], rest);
        at := at + [|ys| - 1];
      }
    }
  }

  // ---- All interleavings --------------------------------------------------------------------------

  /** Where the publisher inside the mutex is: about to drain, drained and about to send, or sent. */
  datatype Critical = Free | Entered(demand: Demand) | Drained(demand: Demand) | Sent

  /** slot is the channel's buffer; published and consumed record every send and receive so far. */
  datatype Channel = Channel(
    slot: seq<Demand>, critical: Critical, published: seq<Demand>, consumed: seq<Demand>)

  datatype ChannelEvent = Lock(demand: Demand) | Drain | Send | Unlock | Receive

  predicate ChannelStep(c: Channel, e: ChannelEvent, c': Channel) {
    match e
    case Lock(d) => c.critical.Free? && c' == c.(critical := Entered(d))
    case Drain => c.critical.Entered? && c' == c.(slot := [], critical := Drained(c.critical.demand))
    case Send =>
      && c.critical.Drained? && |c.slot| < 1
      && c' == c.(slot := [c.critical.demand], critical := Sent, published := c.published + [c.critical.demand])
    case Unlock => c.critical.Sent? && c' == c.(critical := Free)
    case Receive => c.slot != [] && c' == c.(slot := c.slot[1..], consumed := c.consumed + [c.slot[0]])
  }

  ghost predicate IsChannelRun(states: seq<Channel>, events: seq<ChannelEvent>) {
    && |states| == |events| + 1
    && states[0] == Channel([], Free, [], [])
    && forall i | 0 <= i < |events| :: ChannelStep(states[i], events[i], states[i + 1])
  }

  ghost predicate ChannelValid(c: Channel) {
    && |c.slot| <= 1
    && (c.critical.Drained? ==> c.slot == [])
    && Subsequence(c.consumed + c.slot, c.published)
    && (c.published != [] && !c.critical.Drained? ==>
          c.consumed + c.slot != [] && Last(c.consumed + c.slot) == Last(c.published))
  }

  function Last<T>(xs: seq<T>): T
    requires xs != []
  {
    xs[|xs| - 1]
  }

  lemma ChannelStepKeepsValid(c: Channel, e: ChannelEvent, c': Channel)
    requires ChannelValid(c) && ChannelStep(c, e, c')
    ensures ChannelValid(c')
  {
    match e
    case Lock(d) =>
    case Drain =>
      if c.slot != [] {
        SubsequenceDropLast(c.consumed + c.slot, c.published);
        assert (c.consumed + c.slot)[..|c.consumed + c.slot| - 1] == c'.consumed + c'.slot;
      }
    case Send =>
      assert c.consumed + c.slot == c.consumed;
      SubsequenceKeep(c.consumed, c.published, c.critical.demand);
    case Unlock =>
    case Receive =>
      assert c.consumed + c.slot == c'.consumed + c'.slot;
  }

  /**
   * Linearization under every interleaving of publishers and the consumer: what was consumed, then what is
   * pending, is a subsequence of what was published, and outside a publisher's drain-to-send window it ends in
   * the last published demand. The send never blocks.
   */
  lemma {:induction false} MailboxLinearizes(states: seq<Channel>, events: seq<ChannelEvent>, n: nat)
    requires IsChannelRun(states, events) && n < |states|
    ensures var c := states[n];
            && |c.slot| <= 1
            && Subsequence(c.consumed + c.slot, c.published)
            && (c.critical.Drained? ==> |c.slot| == 0)
            && (c.published != [] && !c.critical.Drained? ==>
                  c.consumed + c.slot != [] && Last(c.consumed + c.slot) == Last(c.published))
    ensures ChannelValid(states[n])
  {
    if n > 0 {
      MailboxLinearizes(states, events, n - 1);
      ChannelStepKeepsValid(states[n - 1], events[n - 1], states[n]);
    }
  }

  /** Once drained, with no publisher inside, the last consumed demand is the last published one. */
  lemma DrainedMailboxIsCurrent(states: seq<Channel>, events: seq<ChannelEvent>, n: nat)
    requires IsChannelRun(states, events) && n < |states|
    requires states[n].slot == [] && states[n].critical.Free? && states[n].published != []
    ensures states[n].consumed != [] && Last(states[n].consumed) == Last(states[n].published)
  {
    MailboxLinearizes(states, events, n);
    assert states[n].consumed + states[n].slot == states[n].consumed;
  }

  // ---- The object ---------------------------------------------------------------------------------

  class Mailbox {
    var updates: seq<Demand>
    ghost var critical: Critical
    ghost var published: seq<Demand>
    ghost var consumed: seq<Demand>

    ghost function Model(): Channel
      reads this
    {
      Channel(updates, critical, published, consumed)
    }

    ghost predicate Valid()
      reads this
    {
      ChannelValid(Model())
    }

    constructor ()
      ensures Valid() && Model() == Channel([], Free, [], [])
    {
      updates, critical, published, consumed := [], Free, [], [];
    }

    /** The consumer may run whenever the publisher is between two of its steps. */
    method Yield()
      requires Valid()
      modifies this`updates, this`consumed
      ensures Valid() && consumed + updates == old(consumed + updates)
      ensures updates == old(updates) || updates == []
    {
      var runs: bool := *;
      if runs && updates != [] {
        var received := Receive();
      }
    }

    /** Replaces any pending update; whatever the consumer does meanwhile, demand is now the newest. */
    method Publish(demand: Demand)
      requires Valid() && critical.Free?
      modifies this
      ensures Valid() && critical.Free?
      ensures published == old(published) + [demand]
      ensures Last(consumed + updates) == demand
      ensures updates == [demand] || (updates == [] && Last(consumed) == demand)
    {
      critical := Entered(demand);
      Yield();
      ghost var before := Model();
      updates, critical := [], Drained(demand);
      ChannelStepKeepsValid(before, Drain, Model());
      Yield();
      before := Model();
      updates, critical, published := [demand], Sent, published + [demand];
      ChannelStepKeepsValid(before, Send, Model());
      Yield();
      critical := Free;
    }

    method Receive() returns (demand: Demand)
      requires Valid() && updates != []
      modifies this`updates, this`consumed
      ensures Valid() && updates == [] && demand == old(updates)[0]
      ensures consumed == old(consumed) + [demand]
    {
      ghost var before := Model();
      demand, updates := updates[0], [];
      consumed := consumed + [demand];
      ChannelStepKeepsValid(before, ChannelEvent.Receive, Model());
    }
  }
}
