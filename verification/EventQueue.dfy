/**
 The event queue object: a sequence kept sorted by the wrapping comparator. Its methods are proved
 against `EventQueueSpec.Queue`, the arrival-ordered meaning, for as long as the live sequence
 numbers stay within 2^31 of each other (`inStep`); the sizes hold without that condition.
 */
module EventQueue {
  import opened ColodTypes
  import opened EventQueueSpec
  import opened SeqnoOrder
  import opened SortedArrivals

  /** What has happened to a queue: the specification state its fields stand for. */
  datatype Account = Account(
    pending: seq<ColodEvent>,        // oldest first
    arrivals: seq<Arrival>,          // the same with their numbers
    total: nat,                      // number of events ever accepted
    inStep: bool)                    // no addition has stretched the live numbers over 2^31 or more

  class EventQueue {
    var sequence: seq<Arrival>
    var seqCounter: nat
    const size: nat
    var used: nat
    const interruptingAlways: set<ColodEvent>
    var interrupting: set<ColodEvent>
    ghost var account: Account

    ghost predicate Valid()
      reads this
    {
      && used == |sequence| <= size
      && seqCounter == account.total
      && interruptingAlways <= interrupting
      && Consistent(sequence, account, interrupting)
    }

    ghost function View(): Queue
      reads this
    {
      Queue(account.pending, interrupting, size)
    }

    constructor (size: nat, always: set<ColodEvent>)
      ensures Valid() && account == Account([], [], 0, true)
      ensures View() == Queue([], always, size) && interruptingAlways == always
    {
      this.size := size;
      interruptingAlways, interrupting := always, always;
      sequence, seqCounter, used := [], 0, 0;
      account := Account([], [], 0, true);
    }

    method SetInterrupting(events: set<ColodEvent>)
      requires Valid()
      modifies this`sequence, this`interrupting
      ensures Valid()
      ensures View() == old(View()).(interrupting := interruptingAlways + events)
    {
      SortKeeps(sequence, account, interrupting, interruptingAlways + events);
      interrupting := interruptingAlways + events;
      sequence := Sort(sequence, interrupting);
    }

    method Add(e: ColodEvent) returns (rejected: bool)
      requires Valid()
      modifies this
      ensures Valid() && interrupting == old(interrupting)
      ensures rejected == (old(used) == size)
      ensures account == if rejected then old(account) else AfterAdd(old(account), e)
      ensures account.inStep ==> old(account.inStep)
      ensures View() == EventQueueSpec.Add(old(View()), e)
    {
      if used == size {
        return true;
      }
      AppendKeeps(sequence, account, e, interrupting);
      sequence := InsertSorted(sequence, Arrival(e, seqCounter), interrupting);
      seqCounter := seqCounter + 1;
      used := used + 1;
      account := AfterAdd(account, e);
      return false;
    }

    method Remove() returns (event: Option<ColodEvent>)
      requires Valid()
      modifies this`sequence, this`used, this`account
      ensures Valid()
      ensures event.None? <==> old(used) == 0
      ensures event.None? ==> account == old(account)
      ensures event.Some? ==> used == old(used) - 1 && account.inStep == old(account.inStep)
      ensures event.Some? && account.inStep ==>
                event.value == Head(old(View())) && View() == EventQueueSpec.Remove(old(View()))
    {
      if used == 0 {
        return None;
      }
      ghost var k := FrontKeeps(sequence, account, View());
      event := Some(sequence[0].event);
      sequence := sequence[1..];
      used := used - 1;
      account := AfterRemove(account, k);
    }

    /** eventqueue_peek: the event the next removal returns. */
    method Peek() returns (event: Option<ColodEvent>)
      requires Valid()
      ensures event.None? <==> used == 0
      ensures event.Some? && account.inStep ==> event.value == Head(View())
    {
      if used == 0 {
        return None;
      }
      ghost var k := FrontKeeps(sequence, account, View());
      return Some(sequence[0].event);
    }

    /** eventqueue_last: the event that would be served last. */
    method LastEvent() returns (event: Option<ColodEvent>)
      requires Valid()
      ensures event.None? <==> View().pending == []
      ensures event.Some? && account.inStep ==> event.value == Last(View())
    {
      if used == 0 {
        return None;
      }
      NamedNames(account.pending, account.arrivals);
      if account.inStep {
        ArrangeBack(account.arrivals, View());
      }
      return Some(sequence[|sequence| - 1].event);
    }

    /** eventqueue_pending_interrupt, decided by the front alone. */
    method PendingInterrupt() returns (pending: bool)
      requires Valid()
      ensures account.inStep ==> (pending <==> exists e :: e in View().pending && e in interrupting)
    {
      PendingInterruptIff(View());
      var front := Peek();
      pending := front.Some? && front.value in interrupting;
    }
  }

  /** The account after accepting `e`. */
  ghost function AfterAdd(a: Account, e: ColodEvent): Account {
    var arrivals := a.arrivals + [Arrival(e, a.total)];
    Account(a.pending + [e], arrivals, a.total + 1, a.inStep && Close(arrivals))
  }

  /** The account after serving the `k`-th pending event. */
  ghost function AfterRemove(a: Account, k: nat): Account
    requires k < |a.arrivals| == |a.pending|
  {
    a.(pending := RemoveAt(a.pending, k), arrivals := RemoveAt(a.arrivals, k))
  }

  /** The arrivals are numbered in order, below `total`. */
  ghost predicate Numbered(arrivals: seq<Arrival>, total: nat) {
    if arrivals == [] then true
    else
      var last := |arrivals| - 1;
      arrivals[last].n < total && Numbered(arrivals[..last], arrivals[last].n)
  }

  lemma {:induction false} NumberedIncreasing(s: seq<Arrival>, total: nat)
    requires Numbered(s, total)
    ensures Increasing(s) && forall i :: 0 <= i < |s| ==> s[i].n < total
  {
    if s != [] {
      NumberedIncreasing(s[..|s| - 1], s[|s| - 1].n);
    }
  }

  lemma NumberedAppend(s: seq<Arrival>, a: Arrival)
    requires Numbered(s, a.n)
    ensures Numbered(s + [a], a.n + 1)
  {
    assert (s + [a])[..|s|] == s;
  }

  lemma {:induction false} NumberedRemove(s: seq<Arrival>, k: nat, total: nat)
    requires k < |s| && Numbered(s, total)
    ensures Numbered(RemoveAt(s, k), total)
  {
    var last := |s| - 1;
    if k == last {
      assert RemoveAt(s, k) == s[..last];
      NumberedBelow(s[..last], s[last].n, total);
    } else {
      NumberedRemove(s[..last], k, s[last].n);
      assert RemoveAt(s, k)[..last - 1] == RemoveAt(s[..last], k);
    }
  }

  lemma NumberedBelow(s: seq<Arrival>, low: nat, high: nat)
    requires Numbered(s, low) && low <= high
    ensures Numbered(s, high)
  {
  }

  /** While they are in step the sequence is the arrangement of the pending arrivals. */
  ghost predicate Consistent(sequence: seq<Arrival>, a: Account, interrupting: set<ColodEvent>) {
    && |sequence| == |a.arrivals| == |a.pending|
    && Named(a.pending, a.arrivals)
    && Numbered(a.arrivals, a.total)
    && (a.inStep ==> Close(a.arrivals) && sequence == Arrange(a.arrivals, interrupting))
  }

  /** The pending events are those of the arrivals. */
  ghost predicate Named(pending: seq<ColodEvent>, arrivals: seq<Arrival>)
    decreases |pending|
  {
    if pending == [] || arrivals == [] then pending == [] && arrivals == []
    else
      var p, q := |pending| - 1, |arrivals| - 1;
      pending[p] == arrivals[q].event && Named(pending[..p], arrivals[..q])
  }

  lemma {:induction false} NamedNames(pending: seq<ColodEvent>, arrivals: seq<Arrival>)
    ensures Named(pending, arrivals) <==> Names(pending, arrivals)
    decreases |pending|
  {
    if pending != [] && arrivals != [] {
      NamedNames(pending[..|pending| - 1], arrivals[..|arrivals| - 1]);
    }
  }

  lemma AppendKeeps(sequence: seq<Arrival>, a: Account, e: ColodEvent, interrupting: set<ColodEvent>)
    requires Consistent(sequence, a, interrupting)
    ensures Consistent(InsertSorted(sequence, Arrival(e, a.total), interrupting), AfterAdd(a, e), interrupting)
  {
    var b := AfterAdd(a, e);
    NamedNames(a.pending, a.arrivals);
    NamedNames(b.pending, b.arrivals);
    NumberedAppend(a.arrivals, Arrival(e, a.total));
    if b.inStep {
      NumberedIncreasing(b.arrivals, a.total + 1);
      InsertArranges(a.arrivals, Arrival(e, a.total), interrupting);
    }
  }

  lemma SortKeeps(sequence: seq<Arrival>, a: Account, interrupting: set<ColodEvent>, chosen: set<ColodEvent>)
    requires Consistent(sequence, a, interrupting)
    ensures Consistent(Sort(sequence, chosen), a, chosen)
  {
    if a.inStep {
      NumberedIncreasing(a.arrivals, a.total);
      ArrangePermutes(a.arrivals, interrupting);
      SortArranges(sequence, a.arrivals, chosen);
    }
  }

  /** Serving the front of the sequence serves the pending event `Pick` chooses, while in step. */
  lemma FrontKeeps(sequence: seq<Arrival>, a: Account, q: Queue) returns (k: nat)
    requires sequence != [] && q.pending == a.pending
    requires Consistent(sequence, a, q.interrupting)
    ensures k < |a.arrivals|
    ensures Consistent(sequence[1..], AfterRemove(a, k), q.interrupting)
    ensures a.inStep ==> k == Pick(q) && sequence[0].event == a.pending[k]
  {
    k := if a.inStep then Pick(q) else 0;
    NamedNames(a.pending, a.arrivals);
    ServedNamed(a, k);
    NumberedRemove(a.arrivals, k, a.total);
    if a.inStep {
      ArrangeFront(a.arrivals, q);
      NumberedIncreasing(a.arrivals, a.total);
      RemoveKeepsClose(a.arrivals, k);
    }
  }

  lemma ServedNamed(a: Account, k: nat)
    requires k < |a.pending| && Names(a.pending, a.arrivals)
    ensures Named(AfterRemove(a, k).pending, AfterRemove(a, k).arrivals)
  {
    var s := AfterRemove(a, k);
    forall i | 0 <= i < |s.arrivals| ensures s.arrivals[i].event == s.pending[i] {
      var j := if i < k then i else i + 1;
      assert s.arrivals[i] == a.arrivals[j] && s.pending[i] == a.pending[j];
    }
    NamedNames(s.pending, s.arrivals);
  }

  lemma RemoveKeepsClose(s: seq<Arrival>, k: nat)
    requires k < |s| && Increasing(s) && Close(s)
    ensures Close(RemoveAt(s, k))
  {
    var r := RemoveAt(s, k);
    if r != [] {
      var i, j := if 0 < k then 0 else 1, if |r| - 1 < k then |r| - 1 else |r|;
      assert r[0] == s[i] && r[|r| - 1] == s[j];
      assert s[0].n <= s[i].n && s[j].n <= s[|s| - 1].n;
    }
  }
}
