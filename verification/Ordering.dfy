/** Orders, and the library sort that the source calls; a sort is determined by what it promises. */
module Ordering {

  /** Byte order on strings, as Rust compares them. */
  predicate StringLeq(a: string, b: string) {
    a == [] || (b != [] && (a[0] < b[0] || (a[0] == b[0] && StringLeq(a[1..], b[1..]))))
  }

  lemma {:induction false} StringTotal(a: string, b: string)
    ensures StringLeq(a, b) || StringLeq(b, a)
    ensures StringLeq(a, b) && StringLeq(b, a) ==> a == b
  {
    if a != [] && b != [] {
      StringTotal(a[1..], b[1..]);
      assert a == [a[0]] + a[1..] && b == [b[0]] + b[1..];
    }
  }

  lemma {:induction false} StringTransitive(a: string, b: string, c: string)
    requires StringLeq(a, b) && StringLeq(b, c)
    ensures StringLeq(a, c)
  {
    if a != [] && a[0] == b[0] == c[0] {
      StringTransitive(a[1..], b[1..], c[1..]);
    }
  }

  ghost predicate TotalPreorder<T(!new)>(leq: (T, T) -> bool) {
    && (forall x, y :: leq(x, y) || leq(y, x))
    && (forall x, y, z :: leq(x, y) && leq(y, z) ==> leq(x, z))
  }

  /** Elements of s that compare equal are the same. */
  ghost predicate DistinctKeys<T(!new)>(s: seq<T>, leq: (T, T) -> bool) {
    forall i, j :: 0 <= i < |s| && 0 <= j < |s| && leq(s[i], s[j]) && leq(s[j], s[i]) ==> s[i] == s[j]
  }

  ghost predicate Ordered<T(!new)>(s: seq<T>, leq: (T, T) -> bool) {
    forall i, j :: 0 <= i < j < |s| ==> leq(s[i], s[j])
  }

  /** The stable sort of the standard library, as insertion. */
  function Sort<T>(s: seq<T>, leq: (T, T) -> bool): seq<T> {
    if s == [] then [] else Insert(Sort(s[..|s| - 1], leq), s[|s| - 1], leq)
  }

  function Insert<T>(s: seq<T>, x: T, leq: (T, T) -> bool): seq<T> {
    if s == [] || leq(s[|s| - 1], x) then s + [x]
    else Insert(s[..|s| - 1], x, leq) + [s[|s| - 1]]
  }

  lemma LastOut<T>(s: seq<T>)
    requires s != []
    ensures s == s[..|s| - 1] + [s[|s| - 1]]
    ensures multiset(s) == multiset(s[..|s| - 1]) + multiset{s[|s| - 1]}
  {
    assert s == s[..|s| - 1] + [s[|s| - 1]];
  }

  lemma OrderedFront<T(!new)>(s: seq<T>, front: seq<T>, last: T, leq: (T, T) -> bool)
    requires Ordered(s, leq) && s == front + [last]
    ensures Ordered(front, leq)
    ensures forall i :: 0 <= i < |front| ==> leq(front[i], last)
  {
    assert s[|front|] == last;
    forall i | 0 <= i < |front| ensures leq(front[i], last) {
      assert front[i] == s[i];
    }
    forall i, j | 0 <= i < j < |front| ensures leq(front[i], front[j]) {
      assert front[i] == s[i] && front[j] == s[j];
    }
  }

  lemma OrderedEnd<T(!new)>(front: seq<T>, last: T, leq: (T, T) -> bool)
    requires Ordered(front, leq) && forall i :: 0 <= i < |front| ==> leq(front[i], last)
    ensures Ordered(front + [last], leq)
  {
  }

  /** What is not below the last element of an ordered list is above all of it. */
  lemma AllReach<T(!new)>(s: seq<T>, x: T, leq: (T, T) -> bool)
    requires TotalPreorder(leq) && Ordered(s, leq) && s != [] && leq(s[|s| - 1], x)
    ensures forall i :: 0 <= i < |s| ==> leq(s[i], x)
  {
    forall i | 0 <= i < |s| ensures leq(s[i], x) {
      if i < |s| - 1 {
        assert leq(s[i], s[|s| - 1]);
      }
    }
  }

  lemma AllBelow<T(!new)>(inserted: seq<T>, front: seq<T>, x: T, last: T, leq: (T, T) -> bool)
    requires TotalPreorder(leq) && !leq(last, x)
    requires multiset(inserted) == multiset(front) + multiset{x}
    requires forall i :: 0 <= i < |front| ==> leq(front[i], last)
    ensures forall i :: 0 <= i < |inserted| ==> leq(inserted[i], last)
  {
    forall i | 0 <= i < |inserted| ensures leq(inserted[i], last) {
      assert inserted[i] in multiset(inserted);
    }
  }

  lemma {:induction false} InsertOrders<T(!new)>(s: seq<T>, x: T, leq: (T, T) -> bool)
    requires TotalPreorder(leq) && Ordered(s, leq)
    ensures Ordered(Insert(s, x, leq), leq)
    ensures multiset(Insert(s, x, leq)) == multiset(s) + multiset{x}
  {
    hide Ordered, TotalPreorder;
    if s == [] {
      OrderedEnd(s, x, leq);
    } else if leq(s[|s| - 1], x) {
      AllReach(s, x, leq);
      OrderedEnd(s, x, leq);
    } else {
      var front, last := s[..|s| - 1], s[|s| - 1];
      LastOut(s);
      OrderedFront(s, front, last, leq);
      InsertOrders(front, x, leq);
      var inserted := Insert(front, x, leq);
      AllBelow(inserted, front, x, last, leq);
      OrderedEnd(inserted, last, leq);
    }
  }

  lemma {:induction false} SortOrders<T(!new)>(s: seq<T>, leq: (T, T) -> bool)
    requires TotalPreorder(leq)
    ensures Ordered(Sort(s, leq), leq)
    ensures multiset(Sort(s, leq)) == multiset(s)
  {
    if s != [] {
      SortOrders(s[..|s| - 1], leq);
      InsertOrders(Sort(s[..|s| - 1], leq), s[|s| - 1], leq);
      LastOut(s);
    }
  }

  lemma SameLast<T(!new)>(a: seq<T>, b: seq<T>, leq: (T, T) -> bool)
    requires Ordered(a, leq) && Ordered(b, leq) && DistinctKeys(a, leq)
    requires multiset(a) == multiset(b) && a != [] && b != []
    ensures a[|a| - 1] == b[|b| - 1]
  {
    var x, y := a[|a| - 1], b[|b| - 1];
    assert y in multiset(b) && x in multiset(a);
    var i :| 0 <= i < |a| && a[i] == y;
    var j :| 0 <= j < |b| && b[j] == x;
    assert i == |a| - 1 || leq(y, x);
    assert j == |b| - 1 || leq(x, y);
  }

  /** With distinct keys there is only one ordered arrangement of the same elements. */
  lemma {:induction false} OrderedUnique<T(!new)>(a: seq<T>, b: seq<T>, leq: (T, T) -> bool)
    requires Ordered(a, leq) && Ordered(b, leq) && DistinctKeys(a, leq)
    requires multiset(a) == multiset(b)
    ensures a == b
  {
    assert |b| == |multiset(b)| == |multiset(a)| == |a|;
    if a != [] {
      SameLast(a, b, leq);
      LastOut(a);
      LastOut(b);
      assert multiset(a[..|a| - 1]) == multiset(a) - multiset{a[|a| - 1]};
      assert multiset(b[..|b| - 1]) == multiset(b) - multiset{b[|b| - 1]};
      OrderedUnique(a[..|a| - 1], b[..|b| - 1], leq);
    }
  }

  /** Sorting forgets the order it started from. */
  lemma SortOfPermutation<T(!new)>(a: seq<T>, b: seq<T>, leq: (T, T) -> bool)
    requires TotalPreorder(leq) && DistinctKeys(a, leq)
    requires multiset(a) == multiset(b)
    ensures Sort(a, leq) == Sort(b, leq)
  {
    SortOrders(a, leq);
    SortOrders(b, leq);
    var sorted := Sort(a, leq);
    forall i, j | 0 <= i < |sorted| && 0 <= j < |sorted| && leq(sorted[i], sorted[j]) && leq(sorted[j], sorted[i])
      ensures sorted[i] == sorted[j]
    {
      assert sorted[i] in multiset(a) && sorted[j] in multiset(a);
    }
    OrderedUnique(sorted, Sort(b, leq), leq);
  }

  // ----- Repetitions and permutations -----

  lemma Twice<T>(s: seq<T>, i: nat, j: nat)
    requires i < j < |s| && s[i] == s[j]
    ensures multiset(s)[s[i]] >= 2
  {
    assert s == s[..j] + [s[j]] + s[j + 1..];
    assert s[..j] == s[..i] + [s[i]] + s[i + 1..j];
  }

  lemma SameElements<T>(a: seq<T>, b: seq<T>)
    requires multiset(a) == multiset(b)
    ensures forall x :: x in a <==> x in b
  {
    forall x ensures x in a <==> x in b {
      assert x in a <==> x in multiset(a);
      assert x in b <==> x in multiset(b);
    }
  }
}
