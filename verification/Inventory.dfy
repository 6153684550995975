/** ListOwned: exact-marker filtering, name order, and the fair share of the deadline each status read gets. */
module Inventory {
  import opened Wrappers
  import opened GoInt
  import opened ControllerTypes
  import opened Launch
  import opened Sorting

  datatype Listed = Listed(name: string, config: Config)

  /** One guest status observation: the state it showed, or an error, and the time it took. */
  datatype Read = Read(state: Option<RunnerState>, elapsed: nat)

  /** Go's integer division, which truncates toward zero. */
  function Quotient(a: int, b: int): int
    requires b > 0
  {
    if a >= 0 then a / b else -((-a) / b)
  }

  /** statusReadContext: the read timeout, or a fair share of what is left of the deadline if that is less. */
  function Budget(readTimeout: int, left: Option<int>, remaining: int): int
    requires remaining > 0
  {
    if left.Some? then Min(readTimeout, Quotient(left.value, remaining)) else readTimeout
  }

  // ---- The arithmetic -------------------------------------------------------------------------------

  lemma MultiplyLeq(b: int, x: int, y: int)
    requires b >= 0 && x <= y
    ensures b * x <= b * y
  {
  }

  lemma QuotientAtLeast(a: int, b: int, q: int)
    requires b >= 1 && a >= b * q
    ensures a / b >= q
  {
    if a / b + 1 <= q {
      MultiplyLeq(b, a / b + 1, q);
    }
  }

  /** Spending no more than one share of k leaves the others shares that are no smaller. */
  lemma ShareNeverShrinks(left: int, k: int, spent: int)
    requires left >= 0 && k >= 1 && 0 <= spent <= left / k
    ensures left - spent >= 0
    ensures k > 1 ==> (left - spent) / (k - 1) >= left / k
  {
    var share := left / k;
    assert left >= k * share && k * share == (k - 1) * share + share;
    MultiplyLeq(share, 1, k);
    if k > 1 {
      QuotientAtLeast(left - spent, k - 1, share);
    }
  }

  lemma BudgetIsShare(readTimeout: int, left: int, k: int)
    requires readTimeout > 0 && left >= 0 && k >= 1
    ensures 0 <= left / k
    ensures Budget(readTimeout, Some(left), k) == Min(readTimeout, left / k)
  {
  }

  /** A budget is never more than the read timeout, nor than the share of what is left; it is one of the two. */
  lemma BudgetExactly(readTimeout: int, left: int, remaining: int)
    requires remaining > 0
    ensures Budget(readTimeout, None, remaining) == readTimeout
    ensures var budget := Budget(readTimeout, Some(left), remaining);
            && budget <= readTimeout
            && (left >= 0 ==> budget * remaining <= left)
            && (left < 0 ==> budget * remaining <= left + (remaining - 1))
            && (budget == readTimeout
                || (left >= 0 && left < (budget + 1) * remaining)
                || (left < 0 && left <= budget * remaining))
  {
    if left >= 0 {
      var share := left / remaining;
      assert left == remaining * share + left % remaining;
      MultiplyLeq(remaining, Budget(readTimeout, Some(left), remaining), share);
    } else {
      var share := (-left) / remaining;
      assert -left == remaining * share + (-left) % remaining;
      MultiplyLeq(remaining, Budget(readTimeout, Some(left), remaining), -share);
    }
  }

  function Spent(uses: seq<nat>): nat {
    if uses == [] then 0 else Spent(uses[..|uses| - 1]) + uses[|uses| - 1]
  }

  /** The i-th of n reads used at most its budget, what the earlier ones left of total being shared out. */
  predicate Affordable(readTimeout: int, total: int, n: nat, uses: seq<nat>, i: nat)
    requires i < |uses| <= n
  {
    uses[i] <= Max(0, Budget(readTimeout, Some(total - Spent(uses[..i])), n - i))
  }

  ghost predicate WithinBudgets(readTimeout: int, total: int, n: nat, uses: seq<nat>) {
    |uses| <= n && forall i | 0 <= i < |uses| :: Affordable(readTimeout, total, n, uses, i)
  }

  /**
   * Fair share of the deadline, with integer division throughout: whatever the first i reads used within their
   * budgets, the next one's budget is at least min(readTimeout, floor(total / n)), the share never drops below
   * floor(total / n), and the reads never use more than total.
   */
  lemma {:induction false} FairShare(readTimeout: int, total: int, n: nat, uses: seq<nat>)
    requires readTimeout > 0 && total >= 0 && n >= 1 && WithinBudgets(readTimeout, total, n, uses)
    ensures Spent(uses) <= total
    ensures |uses| < n ==> (total - Spent(uses)) / (n - |uses|) >= total / n
    ensures |uses| < n ==> Budget(readTimeout, Some(total - Spent(uses)), n - |uses|) >= Min(readTimeout, total / n)
  {
    hide Budget;
    if uses == [] {
      BudgetIsShare(readTimeout, total, n);
    } else {
      var i := |uses| - 1;
      var before := uses[..i];
      PrefixWithinBudgets(readTimeout, total, n, uses, i);
      FairShare(readTimeout, total, n, before);
      var left := total - Spent(before);
      assert Affordable(readTimeout, total, n, uses, i);
      BudgetIsShare(readTimeout, left, n - i);
      ShareNeverShrinks(left, n - i, uses[i]);
      if i + 1 < n {
        BudgetIsShare(readTimeout, left - uses[i], n - i - 1);
      }
    }
  }

  lemma PrefixWithinBudgets(readTimeout: int, total: int, n: nat, uses: seq<nat>, i: nat)
    requires WithinBudgets(readTimeout, total, n, uses) && i <= |uses|
    ensures WithinBudgets(readTimeout, total, n, uses[..i])
  {
    hide Budget;
    forall j | 0 <= j < i ensures Affordable(readTimeout, total, n, uses[..i], j) {
      assert Affordable(readTimeout, total, n, uses, j);
      assert uses[..i][..j] == uses[..j];
    }
  }

  /** With k reads left to share k shares exactly, the next budget is one share. */
  lemma EvenBudget(share: nat, n: nat, i: nat)
    requires i < n
    ensures Budget(share + 1, Some(share * n - share * i), n - i) == share
  {
    var left, k := share * n - share * i, n - i;
    assert left == k * share;
    MultiplyLeq(k, 0, share);
    QuotientAtLeast(left, k, share);
    if left / k >= share + 1 {
      MultiplyLeq(k, share + 1, left / k);
    }
  }

  function Repeated(share: nat, n: nat): (uses: seq<nat>)
    ensures |uses| == n
  {
    if n == 0 then [] else Repeated(share, n - 1) + [share]
  }

  /** The guarantee is tight: n reads that each use their whole share of share * n leave nothing over. */
  lemma {:induction false} EvenSharesUseEverything(share: nat, n: nat, i: nat)
    requires i <= n
    ensures Spent(Repeated(share, i)) == share * i
    ensures WithinBudgets(share + 1, share * n, n, Repeated(share, i))
  {
    hide Budget, WithinBudgets, Spent;
    if i == 0 {
      NothingSpent(share + 1, share * n, n);
    } else {
      EvenSharesUseEverything(share, n, i - 1);
      SpentMore(Repeated(share, i - 1), share);
      EvenBudget(share, n, i - 1);
      WithinBudgetsMore(share + 1, share * n, n, Repeated(share, i - 1), share);
      assert share * i == share * (i - 1) + share;
    }
  }

  // ---- The method -----------------------------------------------------------------------------------

  predicate IsOwned(i: Listed, owner: string) {
    Lookup(i.config, OWNERSHIP_KEY) == owner
  }

  function OwnedAmong(instances: seq<Listed>, owner: string): seq<Listed> {
    if instances == [] then []
    else
      var before, last := OwnedAmong(instances[..|instances| - 1], owner), instances[|instances| - 1];
      if IsOwned(last, owner) then before + [last] else before
  }

  /** Exactly the instances that carry this owner's marker, as often as they are listed. */
  lemma {:induction false} OwnedExactly(instances: seq<Listed>, owner: string)
    ensures forall i :: multiset(OwnedAmong(instances, owner))[i] ==
              if Lookup(i.config, OWNERSHIP_KEY) == owner then multiset(instances)[i] else 0
  {
    if instances != [] {
      var n := |instances| - 1;
      OwnedExactly(instances[..n], owner);
      assert instances == instances[..n] + [instances[n]];
    }
  }

  /** The status of instances[i] as its read showed it, in the order of instances. */
  ghost predicate Inspected(instances: seq<Listed>, observed: seq<Read>, runners: seq<Runner>) {
    && |runners| == |instances| == |observed|
    && forall i | 0 <= i < |instances| ::
         observed[i].state.Some? && runners[i] == Runner(instances[i].name, observed[i].state.value)
  }

  /** What each read was: of its own instance, within the budget that the earlier ones left it. */
  ghost predicate ReadInTurn(
    instances: seq<Listed>, observed: seq<Read>, readTimeout: int, start: int, deadline: Option<int>,
    inspect: (Listed, int) -> Read)
  {
    && |observed| <= |instances|
    && forall i | 0 <= i < |observed| ::
         observed[i] == inspect(instances[i], Granted(observed[..i], |instances|, readTimeout, start, deadline))
  }

  /** The budget of the next read of n, after those observed. */
  function Granted(observed: seq<Read>, n: nat, readTimeout: int, start: int, deadline: Option<int>): int
    requires |observed| < n
  {
    var now := start + Spent(Elapsed(observed));
    Budget(readTimeout, if deadline.Some? then Some(deadline.value - now) else None, n - |observed|)
  }

  lemma ReadOneMore(
    instances: seq<Listed>, observed: seq<Read>, readTimeout: int, start: int, deadline: Option<int>,
    inspect: (Listed, int) -> Read, read: Read)
    requires ReadInTurn(instances, observed, readTimeout, start, deadline, inspect) && |observed| < |instances|
    requires read == inspect(instances[|observed|], Granted(observed, |instances|, readTimeout, start, deadline))
    ensures ReadInTurn(instances, observed + [read], readTimeout, start, deadline, inspect)
  {
    hide Granted;
    var after := observed + [read];
    forall i | 0 <= i < |after|
      ensures after[i] == inspect(instances[i], Granted(after[..i], |instances|, readTimeout, start, deadline))
    {
      assert after[..i] == if i < |observed| then observed[..i] else observed;
    }
  }

  function Elapsed(observed: seq<Read>): seq<nat> {
    seq(|observed|, i requires 0 <= i < |observed| => observed[i].elapsed)
  }

  /** The exact-marker filter, in listing order. */
  method FilterOwned(instances: seq<Listed>, owner: string) returns (mine: seq<Listed>)
    ensures mine == OwnedAmong(instances, owner)
  {
    mine := [];
    for i := 0 to |instances|
      invariant mine == OwnedAmong(instances[..i], owner)
    {
      assert instances[..i + 1][..i] == instances[..i];
      if IsOwned(instances[i], owner) {
        mine := mine + [instances[i]];
      }
    }
    assert instances[..|instances|] == instances;
  }

  lemma SpentMore(uses: seq<nat>, more: nat)
    ensures Spent(uses + [more]) == Spent(uses) + more
  {
    assert (uses + [more])[..|uses|] == uses;
  }

  lemma WithinBudgetsMore(readTimeout: int, total: int, n: nat, uses: seq<nat>, more: nat)
    requires WithinBudgets(readTimeout, total, n, uses) && |uses| < n
    requires more <= Max(0, Budget(readTimeout, Some(total - Spent(uses)), n - |uses|))
    ensures WithinBudgets(readTimeout, total, n, uses + [more])
  {
    hide Budget, Spent, Affordable;
    var after := uses + [more];
    LastAffordable(readTimeout, total, n, uses, more);
    forall i | 0 <= i < |uses| ensures Affordable(readTimeout, total, n, after, i) {
      StillAffordable(readTimeout, total, n, uses, more, i);
    }
  }

  lemma StillAffordable(readTimeout: int, total: int, n: nat, uses: seq<nat>, more: nat, i: nat)
    requires i < |uses| < n && Affordable(readTimeout, total, n, uses, i)
    ensures Affordable(readTimeout, total, n, uses + [more], i)
  {
    hide Budget, Spent, Max;
    assert (uses + [more])[..i] == uses[..i];
  }

  lemma LastAffordable(readTimeout: int, total: int, n: nat, uses: seq<nat>, more: nat)
    requires |uses| < n && more <= Max(0, Budget(readTimeout, Some(total - Spent(uses)), n - |uses|))
    ensures Affordable(readTimeout, total, n, uses + [more], |uses|)
  {
    hide Budget, Spent, Max;
    assert (uses + [more])[..|uses|] == uses;
  }

  /** What one more read adds to what was observed. */
  lemma ObserveMore(
    readTimeout: int, deadline: Option<int>, start: int, n: nat, observed: seq<Read>, read: Read)
    requires |observed| < n
    requires deadline.Some? ==> WithinBudgets(readTimeout, deadline.value - start, n, Elapsed(observed))
    requires deadline.Some? ==>
               var left := deadline.value - (start + Spent(Elapsed(observed)));
               read.elapsed <= Max(0, Budget(readTimeout, Some(left), n - |observed|))
    ensures Spent(Elapsed(observed + [read])) == Spent(Elapsed(observed)) + read.elapsed
    ensures deadline.Some? ==> WithinBudgets(readTimeout, deadline.value - start, n, Elapsed(observed + [read]))
  {
    hide Budget, WithinBudgets, Spent;
    assert Elapsed(observed + [read]) == Elapsed(observed) + [read.elapsed];
    SpentMore(Elapsed(observed), read.elapsed);
    if deadline.Some? {
      WithinBudgetsMore(readTimeout, deadline.value - start, n, Elapsed(observed), read.elapsed);
    }
  }

  lemma InspectMore(sorted: seq<Listed>, index: nat, observed: seq<Read>, runners: seq<Runner>, read: Read)
    requires index < |sorted| && Inspected(sorted[..index], observed, runners) && read.state.Some?
    ensures Inspected(sorted[..index + 1], observed + [read], runners + [Runner(sorted[index].name, read.state.value)])
  {
    var runners' := runners + [Runner(sorted[index].name, read.state.value)];
    forall i | 0 <= i <= index
      ensures (observed + [read])[i].state.Some?
              && runners'[i] == Runner(sorted[..index + 1][i].name, (observed + [read])[i].state.value)
    {
      if i < index {
        assert sorted[..index][i] == sorted[..index + 1][i];
      }
    }
  }

  /** The inspection loop: every instance is read, even after an error, each within its budget. */
  method InspectAll(sorted: seq<Listed>, readTimeout: int, start: int, deadline: Option<int>,
                    inspect: (Listed, int) -> Read)
    returns (r: Result<seq<Runner>>, finish: int, ghost observed: seq<Read>)
    requires readTimeout > 0
    requires forall i, budget :: inspect(i, budget).elapsed <= Max(0, budget)
    ensures |observed| == |sorted| && (r.Err? <==> exists k | 0 <= k < |observed| :: observed[k].state.None?)
    ensures r.Ok? ==> Inspected(sorted, observed, r.value)
    ensures ReadInTurn(sorted, observed, readTimeout, start, deadline, inspect)
    ensures finish == start + Spent(Elapsed(observed))
    ensures deadline.Some? ==> WithinBudgets(readTimeout, deadline.value - start, |sorted|, Elapsed(observed))
  {
    hide WithinBudgets, Spent, Budget;
    NothingSpent(readTimeout, if deadline.Some? then deadline.value - start else 0, |sorted|);
    observed, finish := [], start;
    assert Elapsed(observed) == [];
    var runners: seq<Runner> := [];
    var failed := false;
    for index := 0 to |sorted|
      invariant |observed| == index && finish == start + Spent(Elapsed(observed))
      invariant failed <==> exists k | 0 <= k < |observed| :: observed[k].state.None?
      invariant !failed ==> Inspected(sorted[..index], observed, runners)
      invariant ReadInTurn(sorted, observed, readTimeout, start, deadline, inspect)
      invariant deadline.Some? ==> WithinBudgets(readTimeout, deadline.value - start, |sorted|, Elapsed(observed))
    {
      var left := if deadline.Some? then Some(deadline.value - finish) else None;
      var budget := Budget(readTimeout, left, |sorted| - index);
      var read := inspect(sorted[index], budget);
      assert budget == Granted(observed, |sorted|, readTimeout, start, deadline);
      ReadOneMore(sorted, observed, readTimeout, start, deadline, inspect, read);
      ObserveMore(readTimeout, deadline, start, |sorted|, observed, read);
      if !failed && read.state.Some? {
        InspectMore(sorted, index, observed, runners, read);
      }
      finish := finish + read.elapsed;
      ghost var earlier := observed;
      observed := observed + [read];
      assert observed[index] == read && forall k | 0 <= k < index :: observed[k] == earlier[k];
      if read.state.None? {
        failed := true;
      } else {
        runners := runners + [Runner(sorted[index].name, read.state.value)];
      }
    }
    assert sorted[..|sorted|] == sorted;
    r := if failed then Err else Ok(runners);
  }

  lemma NothingRead(readTimeout: int, start: int, deadline: Option<int>, inspect: (Listed, int) -> Read)
    ensures ReadInTurn([], [], readTimeout, start, deadline, inspect)
  {
  }

  lemma NothingSpent(readTimeout: int, total: int, n: nat)
    ensures Spent([]) == 0 && WithinBudgets(readTimeout, total, n, [])
  {
  }

  /**
   * ListOwned, for any answers of the guest status reads, each cut off at its budget by its context. It returns
   * every owned instance once, in name order, or an error if any read failed; and it ends by the deadline.
   */
  method ListOwned(listing: Option<seq<Listed>>, owner: string, readTimeout: int, start: int, deadline: Option<int>,
                   inspect: (Listed, int) -> Read)
    returns (r: Result<seq<Runner>>, finish: int, ghost owned: seq<Listed>, ghost observed: seq<Read>)
    requires readTimeout > 0
    requires forall i, budget :: inspect(i, budget).elapsed <= Max(0, budget)
    ensures listing.None? ==> r.Err? && owned == []
    ensures listing.Some? ==>
              forall i :: multiset(owned)[i] ==
                if Lookup(i.config, OWNERSHIP_KEY) == owner then multiset(listing.value)[i] else 0
    ensures forall i | 0 <= i < |owned| :: Lookup(owned[i].config, OWNERSHIP_KEY) == owner
    ensures SortedBy(owned, (i: Listed) => i.name)
    ensures |observed| == |owned|
    ensures r.Err? <==> listing.None? || exists k | 0 <= k < |observed| :: observed[k].state.None?
    ensures r.Ok? ==> Inspected(owned, observed, r.value)
    ensures ReadInTurn(owned, observed, readTimeout, start, deadline, inspect)
    ensures finish == start + Spent(Elapsed(observed))
    ensures deadline.Some? ==> WithinBudgets(readTimeout, deadline.value - start, |owned|, Elapsed(observed))
    ensures deadline.Some? && start <= deadline.value ==> finish <= deadline.value
  {
    hide WithinBudgets, Spent, Budget, ReadInTurn;
    owned, observed, finish := [], [], start;
    NothingSpent(readTimeout, if deadline.Some? then deadline.value - start else 0, 0);
    NothingRead(readTimeout, start, deadline, inspect);
    assert Elapsed(observed) == [];
    if listing.None? {
      return Err, finish, owned, observed;
    }
    var mine := FilterOwned(listing.value, owner);
    var sorted := SortBy(mine, (i: Listed) => i.name);
    owned := sorted;
    OwnedExactly(listing.value, owner);
    forall i | 0 <= i < |owned| ensures Lookup(owned[i].config, OWNERSHIP_KEY) == owner {
      assert multiset(owned)[owned[i]] > 0;
    }
    r, finish, observed := InspectAll(sorted, readTimeout, start, deadline, inspect);
    if deadline.Some? && start <= deadline.value && |sorted| > 0 {
      FairShare(readTimeout, deadline.value - start, |sorted|, Elapsed(observed));
    } else if |sorted| == 0 {
      assert Elapsed(observed) == [];
    }
  }
}
