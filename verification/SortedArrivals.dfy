/**
 The sorted sequence of the event queue. The insertion and the sort compare wrapped numbers, as the
 program does; under agreeing comparisons they produce `Arrange`, the interrupting arrivals followed
 by the others, each in arrival order.
 */
module SortedArrivals {
  import opened ColodTypes
  import opened EventQueueSpec
  import opened SeqnoOrder

  /** `events` are the events of `s`, one by one. */
  predicate Names(events: seq<ColodEvent>, s: seq<Arrival>) {
    |events| == |s| && forall i :: 0 <= i < |s| ==> s[i].event == events[i]
  }

  /** Sorted insertion into a sequence: in front of the first element that compares greater. */
  function InsertSorted(s: seq<Arrival>, e: Arrival, interrupting: set<ColodEvent>): (r: seq<Arrival>)
    ensures multiset(r) == multiset(s) + multiset{e}
    ensures |r| == |s| + 1
  {
    if s == [] then [e]
    else if Compare(e, s[0], interrupting) < 0 then
      [e] + s
    else
      assert s == [s[0]] + s[1..];
      [s[0]] + InsertSorted(s[1..], e, interrupting)
  }

  /** A stable sort of a sequence by the comparator. */
  function Sort(s: seq<Arrival>, interrupting: set<ColodEvent>): (r: seq<Arrival>)
    ensures multiset(r) == multiset(s)
    ensures |r| == |s|
  {
    if s == [] then []
    else
      var n := |s| - 1;
      assert s == s[..n] + [s[n]];
      InsertSorted(Sort(s[..n], interrupting), s[n], interrupting)
  }

  /** The arrivals whose event is (`want`) or is not (`!want`) in `interrupting`, in order. */
  function Filter(s: seq<Arrival>, interrupting: set<ColodEvent>, want: bool): seq<Arrival> {
    if s == [] then []
    else (if (s[0].event in interrupting) == want then [s[0]] else []) + Filter(s[1..], interrupting, want)
  }

  function Arrange(s: seq<Arrival>, interrupting: set<ColodEvent>): seq<Arrival> {
    Filter(s, interrupting, true) + Filter(s, interrupting, false)
  }

  lemma {:induction false} FilterMembers(s: seq<Arrival>, interrupting: set<ColodEvent>, want: bool)
    ensures forall a :: a in Filter(s, interrupting, want) <==> a in s && (a.event in interrupting) == want
  {
    if s != [] {
      FilterMembers(s[1..], interrupting, want);
      assert s == [s[0]] + s[1..];
    }
  }

  predicate Increasing(s: seq<Arrival>) {
    forall i, j :: 0 <= i < j < |s| ==> s[i].n < s[j].n
  }

  predicate SortedBy(s: seq<Arrival>, interrupting: set<ColodEvent>) {
    forall i, j :: 0 <= i < j < |s| ==> Before(s[i], s[j], interrupting)
  }

  /** The numbers of `s`, which are in order, span less than 2^31. */
  predicate Close(s: seq<Arrival>) {
    s == [] || s[|s| - 1].n - s[0].n < 0x8000_0000
  }

  /** All pairs of `s` lie so close together that the comparator orders them correctly. */
  predicate PairsClose(s: seq<Arrival>) {
    forall a, b :: a in s && b in s ==> a.n - b.n < 0x8000_0000
  }

  lemma CloseMeansPairsClose(s: seq<Arrival>)
    requires Increasing(s) && Close(s)
    ensures PairsClose(s)
  {
    forall a, b | a in s && b in s ensures a.n - b.n < 0x8000_0000 {
      var i :| 0 <= i < |s| && s[i] == a;
      var j :| 0 <= j < |s| && s[j] == b;
      assert s[0].n <= s[j].n && s[i].n <= s[|s| - 1].n;
    }
  }

  // The same insertion and sort on arrivals, by the intended order.

  function InsertArrival(s: seq<Arrival>, a: Arrival, interrupting: set<ColodEvent>): (r: seq<Arrival>)
    ensures multiset(r) == multiset(s) + multiset{a}
  {
    if s == [] then [a]
    else if Before(a, s[0], interrupting) then [a] + s
    else
      assert s == [s[0]] + s[1..];
      [s[0]] + InsertArrival(s[1..], a, interrupting)
  }

  function SortArrivals(s: seq<Arrival>, interrupting: set<ColodEvent>): (r: seq<Arrival>)
    ensures multiset(r) == multiset(s)
  {
    if s == [] then []
    else
      var n := |s| - 1;
      assert s == s[..n] + [s[n]];
      InsertArrival(SortArrivals(s[..n], interrupting), s[n], interrupting)
  }

  lemma SortedMembers(s: seq<Arrival>, interrupting: set<ColodEvent>)
    ensures forall b :: b in SortArrivals(s, interrupting) <==> b in s
  {
    var t := SortArrivals(s, interrupting);
    forall b ensures b in t <==> b in s {
      assert b in multiset(t) <==> b in multiset(s);
    }
  }

  lemma {:induction false} InsertAgrees(s: seq<Arrival>, a: Arrival, interrupting: set<ColodEvent>)
    requires forall b :: b in s ==> -0x8000_0000 < a.n - b.n < 0x8000_0000
    ensures InsertSorted(s, a, interrupting) == InsertArrival(s, a, interrupting)
  {
    if s != [] {
      CloseAgrees(a, s[0], interrupting);
      InsertAgrees(s[1..], a, interrupting);
    }
  }

  lemma {:induction false} SortAgrees(s: seq<Arrival>, interrupting: set<ColodEvent>)
    requires PairsClose(s)
    ensures Sort(s, interrupting) == SortArrivals(s, interrupting)
  {
    if s != [] {
      var n := |s| - 1;
      var init, t := s[..n], SortArrivals(s[..n], interrupting);
      assert forall b :: b in init ==> b in s;
      SortAgrees(init, interrupting);
      SortedMembers(init, interrupting);
      assert s[n] in s;
      InsertAgrees(t, s[n], interrupting);
    }
  }

  lemma {:induction false} InsertSortedBy(s: seq<Arrival>, a: Arrival, interrupting: set<ColodEvent>)
    requires SortedBy(s, interrupting)
    requires forall b :: b in s ==> b.n != a.n
    ensures SortedBy(InsertArrival(s, a, interrupting), interrupting)
  {
    if s != [] && !Before(a, s[0], interrupting) {
      InsertSortedBy(s[1..], a, interrupting);
      var r := InsertArrival(s[1..], a, interrupting);
      forall b | b in r ensures Before(s[0], b, interrupting) {
        assert b in multiset(r);
        assert b == a || b in s[1..];
      }
    }
  }

  predicate Distinct(s: seq<Arrival>) {
    forall i, j :: 0 <= i < j < |s| ==> s[i].n != s[j].n
  }

  lemma {:induction false} SortSortedBy(s: seq<Arrival>, interrupting: set<ColodEvent>)
    requires Distinct(s)
    ensures SortedBy(SortArrivals(s, interrupting), interrupting)
  {
    if s != [] {
      var n := |s| - 1;
      SortSortedBy(s[..n], interrupting);
      var t := SortArrivals(s[..n], interrupting);
      SortedMembers(s[..n], interrupting);
      InsertSortedBy(t, s[n], interrupting);
    }
  }

  lemma {:induction false} FilterIncreasing(s: seq<Arrival>, interrupting: set<ColodEvent>, want: bool)
    requires Increasing(s)
    ensures Increasing(Filter(s, interrupting, want))
  {
    if s != [] {
      FilterIncreasing(s[1..], interrupting, want);
      FilterMembers(s[1..], interrupting, want);
      var rest := Filter(s[1..], interrupting, want);
      assert forall a :: a in rest ==> s[0].n < a.n;
    }
  }

  lemma {:induction false} ArrangePermutes(s: seq<Arrival>, interrupting: set<ColodEvent>)
    ensures multiset(Arrange(s, interrupting)) == multiset(s)
  {
    if s != [] {
      assert s == [s[0]] + s[1..];
      ArrangePermutes(s[1..], interrupting);
    }
  }

  lemma ArrangeSortedBy(s: seq<Arrival>, interrupting: set<ColodEvent>)
    requires Increasing(s)
    ensures SortedBy(Arrange(s, interrupting), interrupting)
    ensures multiset(Arrange(s, interrupting)) == multiset(s)
  {
    ArrangePermutes(s, interrupting);
    FilterIncreasing(s, interrupting, true);
    FilterIncreasing(s, interrupting, false);
    FilterMembers(s, interrupting, true);
    FilterMembers(s, interrupting, false);
    var x, y := Filter(s, interrupting, true), Filter(s, interrupting, false);
    assert forall i :: 0 <= i < |x| ==> x[i] in x;
    assert forall i :: 0 <= i < |y| ==> y[i] in y;
  }

  /** The first of a sorted sequence is fixed by its elements. */
  lemma SameFirst(s: seq<Arrival>, t: seq<Arrival>, interrupting: set<ColodEvent>)
    requires SortedBy(s, interrupting) && SortedBy(t, interrupting) && s != [] && t != []
    requires s[0] in t && t[0] in s
    ensures s[0] == t[0]
  {
    var i :| 0 <= i < |s| && s[i] == t[0];
    var j :| 0 <= j < |t| && t[j] == s[0];
  }

  lemma RestBag(s: seq<Arrival>)
    requires s != []
    ensures multiset(s[1..]) == multiset(s) - multiset{s[0]}
  {
    assert s == [s[0]] + s[1..];
  }

  /** A strict order leaves one way to sort. */
  lemma {:induction false} SortedUnique(s: seq<Arrival>, t: seq<Arrival>, interrupting: set<ColodEvent>)
    requires SortedBy(s, interrupting) && SortedBy(t, interrupting) && multiset(s) == multiset(t)
    ensures s == t
  {
    assert |s| == |multiset(s)| == |multiset(t)| == |t|;
    if s != [] {
      assert s[0] in multiset(t) && t[0] in multiset(s);
      SameFirst(s, t, interrupting);
      RestBag(s);
      RestBag(t);
      RestSorted(s, interrupting);
      RestSorted(t, interrupting);
      SortedUnique(s[1..], t[1..], interrupting);
      assert s == [s[0]] + s[1..] && t == [t[0]] + t[1..];
    }
  }

  lemma RestSorted(s: seq<Arrival>, interrupting: set<ColodEvent>)
    requires s != [] && SortedBy(s, interrupting)
    ensures SortedBy(s[1..], interrupting)
  {
  }

  /** Sorting any permutation of close arrivals arranges them. */
  lemma SortArranges(order: seq<Arrival>, arrivals: seq<Arrival>, interrupting: set<ColodEvent>)
    requires Increasing(arrivals) && Close(arrivals) && multiset(order) == multiset(arrivals)
    ensures Sort(order, interrupting) == Arrange(arrivals, interrupting)
  {
    CloseMeansPairsClose(arrivals);
    forall a | a in order ensures a in arrivals {
      assert a in multiset(order);
    }
    SortAgrees(order, interrupting);
    PermutationDistinct(order, arrivals);
    SortSortedBy(order, interrupting);
    ArrangeSortedBy(arrivals, interrupting);
    SortedUnique(SortArrivals(order, interrupting), Arrange(arrivals, interrupting), interrupting);
  }

  lemma {:induction false} IncreasingCount(s: seq<Arrival>, a: Arrival)
    requires Increasing(s)
    ensures multiset(s)[a] <= 1
  {
    if s != [] {
      assert s == [s[0]] + s[1..];
      IncreasingCount(s[1..], a);
      if a == s[0] {
        assert a !in s[1..];
      }
    }
  }

  lemma CountedTwice(s: seq<Arrival>, i: nat, j: nat)
    requires i < j < |s|
    ensures s[i] == s[j] ==> multiset(s)[s[i]] >= 2
  {
    assert s == s[..j] + [s[j]] + s[j + 1..];
    assert s[i] in s[..j];
  }

  lemma PermutationDistinct(order: seq<Arrival>, arrivals: seq<Arrival>)
    requires Increasing(arrivals) && multiset(order) == multiset(arrivals)
    ensures Distinct(order)
  {
    forall i, j | 0 <= i < j < |order| ensures order[i].n != order[j].n {
      assert order[i] in multiset(arrivals) && order[j] in multiset(arrivals);
      IncreasingCount(arrivals, order[i]);
      CountedTwice(order, i, j);
    }
  }

  /** Inserting the newest arrival keeps the arrangement. */
  lemma InsertArranges(arrivals: seq<Arrival>, a: Arrival, interrupting: set<ColodEvent>)
    requires Increasing(arrivals + [a]) && Close(arrivals + [a])
    ensures InsertSorted(Arrange(arrivals, interrupting), a, interrupting)
         == Arrange(arrivals + [a], interrupting)
  {
    var arranged, all := Arrange(arrivals, interrupting), arrivals + [a];
    forall i, j | 0 <= i < j < |arrivals| ensures arrivals[i].n < arrivals[j].n {
      assert all[i].n < all[j].n;
    }
    ArrangeSortedBy(arrivals, interrupting);
    ArrangeSortedBy(all, interrupting);
    CloseMeansPairsClose(all);
    assert all[|arrivals|] == a && a in all;
    forall b | b in arranged ensures -0x8000_0000 < a.n - b.n < 0x8000_0000 && b.n != a.n {
      FilterMembers(arrivals, interrupting, true);
      FilterMembers(arrivals, interrupting, false);
      var i :| 0 <= i < |arrivals| && arrivals[i] == b;
      assert all[i] == b && all[|arrivals|] == a && b in all;
    }
    InsertAgrees(arranged, a, interrupting);
    InsertSortedBy(arranged, a, interrupting);
    SortedUnique(InsertArrival(arranged, a, interrupting), Arrange(all, interrupting), interrupting);
  }

  lemma {:induction false} FilterConcat(s: seq<Arrival>, t: seq<Arrival>, interrupting: set<ColodEvent>, want: bool)
    ensures Filter(s + t, interrupting, want) == Filter(s, interrupting, want) + Filter(t, interrupting, want)
  {
    if s == [] {
      assert s + t == t;
    } else {
      assert (s + t)[1..] == s[1..] + t;
      FilterConcat(s[1..], t, interrupting, want);
    }
  }

  lemma FilterSplit(s: seq<Arrival>, t: seq<Arrival>, u: seq<Arrival>, interrupting: set<ColodEvent>, want: bool)
    ensures Filter(s + t + u, interrupting, want) ==
            Filter(s, interrupting, want) + Filter(t, interrupting, want) + Filter(u, interrupting, want)
    ensures Filter(s + u, interrupting, want) == Filter(s, interrupting, want) + Filter(u, interrupting, want)
  {
    FilterConcat(s + t, u, interrupting, want);
    FilterConcat(s, t, interrupting, want);
    FilterConcat(s, u, interrupting, want);
  }

  lemma {:induction false} FilterUniform(s: seq<Arrival>, interrupting: set<ColodEvent>, want: bool)
    requires forall i :: 0 <= i < |s| ==> (s[i].event in interrupting) == want
    ensures Filter(s, interrupting, want) == s && Filter(s, interrupting, !want) == []
  {
    if s != [] {
      FilterUniform(s[1..], interrupting, want);
    }
  }

  /** An interrupting arrival with none before it comes out in front. */
  lemma FirstInterruptingLeads(s: seq<Arrival>, a: Arrival, u: seq<Arrival>, interrupting: set<ColodEvent>)
    requires a.event in interrupting && forall i :: 0 <= i < |s| ==> s[i].event !in interrupting
    ensures Arrange(s + [a] + u, interrupting) == [a] + Arrange(s + u, interrupting)
  {
    hide Filter;
    FilterSplit(s, [a], u, interrupting, true);
    FilterSplit(s, [a], u, interrupting, false);
    FilterUniform(s, interrupting, false);
    FilterUniform([a], interrupting, true);
    var x, y := Filter(u, interrupting, true), Filter(s, interrupting, false) + Filter(u, interrupting, false);
    assert Arrange(s + [a] + u, interrupting) == ([] + [a] + x) + y;
    assert Arrange(s + u, interrupting) == ([] + x) + y;
  }

  lemma NoneInterrupting(s: seq<Arrival>, interrupting: set<ColodEvent>)
    requires forall i :: 0 <= i < |s| ==> s[i].event !in interrupting
    ensures Arrange(s, interrupting) == s
  {
    FilterUniform(s, interrupting, false);
  }

  /** A non-interrupting arrival with only interrupting ones after it comes out last. */
  lemma LastPlainTrails(s: seq<Arrival>, a: Arrival, u: seq<Arrival>, interrupting: set<ColodEvent>)
    requires a.event !in interrupting && forall i :: 0 <= i < |u| ==> u[i].event in interrupting
    ensures var r := Arrange(s + [a] + u, interrupting); r != [] && r[|r| - 1] == a
  {
    FilterSplit(s, [a], u, interrupting, false);
    FilterUniform(u, interrupting, true);
    FilterUniform([a], interrupting, false);
  }

  /** The front of the arrangement is the arrival `Pick` chooses, and the rest is what remains. */
  lemma ArrangeFront(arrivals: seq<Arrival>, q: Queue)
    requires arrivals != [] && Names(q.pending, arrivals)
    ensures Arrange(arrivals, q.interrupting) ==
            [arrivals[Pick(q)]] + Arrange(RemoveAt(arrivals, Pick(q)), q.interrupting)
    ensures Names(Remove(q).pending, RemoveAt(arrivals, Pick(q)))
  {
    hide Filter;
    var k := Pick(q);
    assert arrivals == arrivals[..k] + [arrivals[k]] + arrivals[k + 1..];
    if FirstIn(q.pending, q.interrupting) < |q.pending| {
      FirstInterruptingLeads(arrivals[..k], arrivals[k], arrivals[k + 1..], q.interrupting);
    } else {
      NoneInterrupting(arrivals, q.interrupting);
      NoneInterrupting(RemoveAt(arrivals, k), q.interrupting);
    }
  }

  /** The back of the arrangement is the event `Last` names. */
  lemma ArrangeBack(arrivals: seq<Arrival>, q: Queue)
    requires arrivals != [] && Names(q.pending, arrivals)
    ensures var r := Arrange(arrivals, q.interrupting); r != [] && r[|r| - 1].event == Last(q)
  {
    var k := LastIndex(q.pending, q.interrupting);
    if q.pending[k] in q.interrupting {
      FilterUniform(arrivals, q.interrupting, true);
    } else {
      assert arrivals == arrivals[..k] + [arrivals[k]] + arrivals[k + 1..];
      LastPlainTrails(arrivals[..k], arrivals[k], arrivals[k + 1..], q.interrupting);
    }
  }
}
