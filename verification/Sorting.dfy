/** Go's sort.Slice and sort.Strings on a string key: some sorted permutation, not necessarily a stable one. */
module Sorting {
  /** Go's <= on strings. */
  predicate StringLeq(a: string, b: string) {
    a == [] || (b != [] && (a[0] < b[0] || (a[0] == b[0] && StringLeq(a[1..], b[1..]))))
  }

  /** a and b agree up to k, where a is smaller. */
  predicate SmallerAt(a: string, b: string, k: int) {
    0 <= k < |a| && k < |b| && a[..k] == b[..k] && a[k] < b[k]
  }

  /** Order by the first difference; a prefix comes first. */
  lemma {:induction false} StringLeqExactly(a: string, b: string)
    ensures StringLeq(a, b) <==> a <= b || exists k :: SmallerAt(a, b, k)
  {
    if a == [] {
      assert a <= b;
    } else if b != [] && a[0] == b[0] {
      var x, y := a[1..], b[1..];
      StringLeqExactly(x, y);
      assert a == [a[0]] + x && b == [b[0]] + y;
      assert a <= b <==> x <= y;
      if k :| SmallerAt(x, y, k) {
        assert a[..k + 1] == [a[0]] + x[..k] && b[..k + 1] == [b[0]] + y[..k];
        assert SmallerAt(a, b, k + 1);
      }
      if k :| SmallerAt(a, b, k) {
        assert x[..k - 1] == a[..k][1..] && y[..k - 1] == b[..k][1..];
        assert SmallerAt(x, y, k - 1);
      }
    } else {
      FirstCharacterDecides(a, b);
    }
  }

  lemma FirstCharacterDecides(a: string, b: string)
    requires a != [] && (b == [] || a[0] != b[0])
    ensures !(a <= b)
    ensures (exists k :: SmallerAt(a, b, k)) <==> b != [] && a[0] < b[0]
  {
    if b != [] && a[0] < b[0] {
      assert SmallerAt(a, b, 0);
    }
    forall k | SmallerAt(a, b, k) ensures k == 0 {
    }
  }

  lemma {:induction false} StringLeqTotal(a: string, b: string)
    ensures StringLeq(a, b) || StringLeq(b, a)
    ensures StringLeq(a, b) && StringLeq(b, a) ==> a == b
  {
    if a != [] && b != [] && a[0] == b[0] {
      StringLeqTotal(a[1..], b[1..]);
      assert a == [a[0]] + a[1..] && b == [b[0]] + b[1..];
    }
  }

  lemma {:induction false} StringLeqTransitive(a: string, b: string, c: string)
    requires StringLeq(a, b) && StringLeq(b, c)
    ensures StringLeq(a, c)
  {
    if a != [] && a[0] == b[0] && b[0] == c[0] {
      StringLeqTransitive(a[1..], b[1..], c[1..]);
    }
  }

  ghost predicate SortedBy<T(!new)>(xs: seq<T>, key: T -> string) {
    forall i, j | 0 <= i < j < |xs| :: StringLeq(key(xs[i]), key(xs[j]))
  }

  /** xs with x placed after the elements whose key is below its own. */
  function Insert<T>(xs: seq<T>, x: T, key: T -> string): seq<T> {
    if xs == [] || StringLeq(key(x), key(xs[0])) then [x] + xs
    else [xs[0]] + Insert(xs[1..], x, key)
  }

  lemma {:induction false} InsertSorted<T(!new)>(xs: seq<T>, x: T, key: T -> string)
    requires SortedBy(xs, key)
    ensures SortedBy(Insert(xs, x, key), key)
    ensures multiset(Insert(xs, x, key)) == multiset(xs) + multiset{x}
  {
    if xs == [] {
    } else if StringLeq(key(x), key(xs[0])) {
      var ys := [x] + xs;
      forall j | 0 < j < |ys| ensures StringLeq(key(x), key(ys[j])) {
        if j > 1 {
          StringLeqTransitive(key(x), key(xs[0]), key(xs[j - 1]));
        }
      }
    } else {
      var rest := Insert(xs[1..], x, key);
      InsertSorted(xs[1..], x, key);
      StringLeqTotal(key(x), key(xs[0]));
      assert xs == [xs[0]] + xs[1..];
      assert multiset([xs[0]] + rest) == multiset{xs[0]} + multiset(rest);
      forall j | 0 <= j < |rest| ensures StringLeq(key(xs[0]), key(rest[j])) {
        assert rest[j] in multiset(rest);
        assert rest[j] == x || rest[j] in xs[1..];
      }
    }
  }

  method SortBy<T(!new)>(xs: seq<T>, key: T -> string) returns (ys: seq<T>)
    ensures SortedBy(ys, key)
    ensures multiset(ys) == multiset(xs)
  {
    ys := [];
    for i := 0 to |xs|
      invariant SortedBy(ys, key)
      invariant multiset(ys) == multiset(xs[..i])
    {
      InsertSorted(ys, xs[i], key);
      assert xs[..i + 1] == xs[..i] + [xs[i]];
      ys := Insert(ys, xs[i], key);
    }
    assert xs[..|xs|] == xs;
  }

  /** Equal keys among these elements mean equal elements. */
  ghost predicate KeysDistinguish<T(!new)>(xs: seq<T>, key: T -> string) {
    forall x, y | x in xs && y in xs && key(x) == key(y) :: x == y
  }

  /** That is needed: two elements that share a key have two different sorted orders. */
  lemma SharedKeyAdmitsTwoOrders<T(!new)>(x: T, y: T, key: T -> string)
    requires x != y && key(x) == key(y)
    ensures SortedBy([x, y], key) && SortedBy([y, x], key)
    ensures multiset([x, y]) == multiset([y, x]) && [x, y] != [y, x]
  {
    StringLeqTotal(key(x), key(y));
    assert [x, y][0] != [y, x][0];
    assert multiset([y, x]) == multiset{x, y} == multiset([x, y]);
  }

  /** However ties were broken, two sorted permutations of the same elements are equal if the key tells them apart. */
  lemma {:induction false} SortedPermutationsEqual<T(!new)>(xs: seq<T>, ys: seq<T>, key: T -> string)
    requires SortedBy(xs, key) && SortedBy(ys, key) && multiset(xs) == multiset(ys)
    requires KeysDistinguish(xs, key)
    ensures xs == ys
  {
    hide StringLeq;
    assert |xs| == |multiset(xs)| == |multiset(ys)| == |ys|;
    if xs != [] {
      HeadsEqual(xs, ys, key);
      TailsAgree(xs, ys);
      SortedPermutationsEqual(xs[1..], ys[1..], key);
      assert xs == [xs[0]] + xs[1..] && ys == [ys[0]] + ys[1..];
    }
  }

  lemma TailsAgree<T>(xs: seq<T>, ys: seq<T>)
    requires multiset(xs) == multiset(ys) && xs != [] && ys != [] && xs[0] == ys[0]
    ensures multiset(xs[1..]) == multiset(ys[1..])
  {
    assert xs == [xs[0]] + xs[1..] && ys == [ys[0]] + ys[1..];
    assert multiset(xs[1..]) == multiset(xs) - multiset{xs[0]};
    assert multiset(ys[1..]) == multiset(ys) - multiset{ys[0]};
  }

  lemma HeadsEqual<T(!new)>(xs: seq<T>, ys: seq<T>, key: T -> string)
    requires SortedBy(xs, key) && SortedBy(ys, key) && multiset(xs) == multiset(ys) && xs != [] && ys != []
    requires KeysDistinguish(xs, key)
    ensures xs[0] == ys[0]
  {
    hide StringLeq;
    HeadIsLeast(xs, ys, key);
    HeadIsLeast(ys, xs, key);
    StringLeqTotal(key(xs[0]), key(ys[0]));
    assert ys[0] in multiset(xs);
    assert ys[0] in xs;
  }

  lemma HeadIsLeast<T(!new)>(xs: seq<T>, ys: seq<T>, key: T -> string)
    requires SortedBy(xs, key) && multiset(xs) == multiset(ys) && xs != [] && ys != []
    ensures StringLeq(key(xs[0]), key(ys[0]))
  {
    assert ys[0] in multiset(xs);
    assert ys[0] in xs;
    var i :| 0 <= i < |xs| && xs[i] == ys[0];
    StringLeqTotal(key(xs[0]), key(xs[0]));
  }

  /** The elements of a finite set of strings, in order, each once. */
  method SortedList(names: set<string>) returns (xs: seq<string>)
    ensures SortedBy(xs, (x: string) => x)
    ensures forall x :: x in xs <==> x in names
    ensures |xs| == |names|
  {
    var list: seq<string> := [];
    var pending := names;
    while pending != {}
      invariant pending <= names
      invariant forall x :: x in list <==> x in names - pending
      invariant |list| + |pending| == |names|
    {
      var x :| x in pending;
      pending := pending - {x};
      list := list + [x];
    }
    xs := SortBy(list, (x: string) => x);
    assert |xs| == |multiset(xs)| == |multiset(list)| == |list|;
    forall x ensures x in xs <==> x in list {
      assert x in xs <==> x in multiset(xs);
      assert x in list <==> x in multiset(list);
    }
  }
}
