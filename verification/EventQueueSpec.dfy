/**
 What the event queue means to its users: the pending events in arrival order, the set of events
 that currently interrupt, and the capacity. Nothing here is sorted; `Pick` says which arrival is
 served next.
 */
module EventQueueSpec {
  import opened ColodTypes

  datatype Queue = Queue(pending: seq<ColodEvent>, interrupting: set<ColodEvent>, size: nat)

  /** Index of the first event of `s` that lies in `events`, or |s|. */
  function FirstIn(s: seq<ColodEvent>, events: set<ColodEvent>): (k: nat)
    ensures k <= |s|
    ensures forall j :: 0 <= j < k ==> s[j] !in events
    ensures k < |s| ==> s[k] in events
  {
    if s == [] then 0
    else if s[0] in events then 0
    else 1 + FirstIn(s[1..], events)
  }

  /** Index of the event that is served next: the earliest interrupting one, else the earliest. */
  function Pick(q: Queue): (k: nat)
    requires q.pending != []
    ensures k < |q.pending|
  {
    var k := FirstIn(q.pending, q.interrupting);
    if k < |q.pending| then k else 0
  }

  function Head(q: Queue): ColodEvent
    requires q.pending != []
  {
    q.pending[Pick(q)]
  }

  function RemoveAt<T>(s: seq<T>, k: nat): seq<T>
    requires k < |s|
  {
    s[..k] + s[k + 1..]
  }

  function Remove(q: Queue): Queue
    requires q.pending != []
  {
    q.(pending := RemoveAt(q.pending, Pick(q)))
  }

  function Add(q: Queue, e: ColodEvent): Queue {
    if |q.pending| == q.size then q else q.(pending := q.pending + [e])
  }

  /** The event that would be served last if nothing more arrived. */
  function Last(q: Queue): ColodEvent
    requires q.pending != []
  {
    q.pending[LastIndex(q.pending, q.interrupting)]
  }

  /** Index of the latest event outside `events`, or of the latest event if there is none. */
  function LastIndex(s: seq<ColodEvent>, events: set<ColodEvent>): (k: nat)
    requires s != []
    ensures k < |s|
    ensures s[k] in events ==> k == |s| - 1 && forall j :: 0 <= j < |s| ==> s[j] in events
    ensures s[k] !in events ==> forall j :: k < j < |s| ==> s[j] in events
  {
    var n := |s| - 1;
    if s[n] !in events || n == 0 then n
    else
      var k := LastIndex(s[..n], events);
      if s[k] in events then n else k
  }

  /** The daemon's rate limit: an event equal to the one that would be served last is not queued again. */
  predicate Limited(q: Queue, e: ColodEvent) {
    q.pending != [] && Last(q) == e
  }

  function Offer(q: Queue, e: ColodEvent): Queue {
    if Limited(q, e) then q else Add(q, e)
  }

  /** A full queue loses the event. */
  predicate Rejects(q: Queue, e: ColodEvent) {
    !Limited(q, e) && |q.pending| == q.size
  }

  predicate PendingInterrupt(q: Queue) {
    q.pending != [] && Head(q) in q.interrupting
  }

  /** `x` is pending and no `y` arrived before it. */
  predicate PendingBefore(s: seq<ColodEvent>, x: ColodEvent, y: ColodEvent) {
    x in s && FirstIn(s, {x}) <= FirstIn(s, {y})
  }

  /** An interrupt is pending exactly when some pending event interrupts. */
  lemma PendingInterruptIff(q: Queue)
    ensures PendingInterrupt(q) <==> exists e :: e in q.pending && e in q.interrupting
  {
    if e :| e in q.pending && e in q.interrupting {
      assert FirstIn(q.pending, q.interrupting) < |q.pending|;
    }
  }

  /** Once an interrupting event heads the queue no later arrival can overtake it. */
  lemma InterruptingHeadStays(q: Queue, e: ColodEvent)
    requires PendingInterrupt(q)
    ensures PendingInterrupt(Add(q, e)) && Head(Add(q, e)) == Head(q)
  {
    var a := Add(q, e);
    if a != q {
      var k, j := FirstIn(q.pending, q.interrupting), FirstIn(a.pending, q.interrupting);
      assert a.pending[k] in q.interrupting;
      assert j <= k;
      assert a.pending[j] == q.pending[j];
    }
  }

  /**
   If an interrupting `x` is pending with no `y` before it, the next event served is not `y`, and
   unless `x` itself is served the situation stays the same.
   */
  lemma ServedBefore(q: Queue, x: ColodEvent, y: ColodEvent)
    requires x != y && x in q.interrupting && PendingBefore(q.pending, x, y)
    ensures Head(q) != y
    ensures Head(q) != x ==> PendingBefore(Remove(q).pending, x, y)
  {
    var i := FirstIn(q.pending, {x});
    assert q.pending[i] == x;
    assert Pick(q) <= i;
    if Head(q) != x {
      RemoveKeepsBefore(q.pending, Pick(q), x, y);
    }
  }

  lemma RemoveKeepsBefore(s: seq<ColodEvent>, k: nat, x: ColodEvent, y: ColodEvent)
    requires x != y && PendingBefore(s, x, y) && k < FirstIn(s, {x})
    ensures PendingBefore(RemoveAt(s, k), x, y)
  {
    var i, r := FirstIn(s, {x}), RemoveAt(s, k);
    assert r[i - 1] == s[i] == x;
    forall j | 0 <= j < i - 1 ensures r[j] != y {
      assert r[j] == s[if j < k then j else j + 1];
    }
    assert FirstIn(r, {x}) <= i - 1;
    assert i - 1 <= FirstIn(r, {y});
  }

  /** An offered event is pending afterwards unless it was rejected, and nothing pending is disturbed. */
  lemma OfferKeeps(q: Queue, e: ColodEvent)
    ensures Offer(q, e) == q.(pending := Offer(q, e).pending)
    ensures Offer(q, e).pending == q.pending || Offer(q, e).pending == q.pending + [e]
    ensures e in Offer(q, e).pending || Rejects(q, e)
    ensures forall x :: x in q.pending ==> x in Offer(q, e).pending
    ensures PendingInterrupt(q) ==> PendingInterrupt(Offer(q, e)) && Head(Offer(q, e)) == Head(q)
  {
    if PendingInterrupt(q) {
      InterruptingHeadStays(q, e);
    }
  }

  /** The event at `k` is served last: the latest that does not interrupt, or the latest if all do. */
  predicate IsBack(q: Queue, k: int) {
    && 0 <= k < |q.pending|
    && (forall j :: k < j < |q.pending| ==> q.pending[j] in q.interrupting)
    && (q.pending[k] in q.interrupting ==>
          k == |q.pending| - 1 && forall j :: 0 <= j < k ==> q.pending[j] in q.interrupting)
  }

  /** An offer changes nothing exactly if the event is the one that would be served last, or the queue is full. */
  lemma OfferAddsIff(q: Queue, e: ColodEvent)
    ensures Offer(q, e) == q <==> |q.pending| == q.size || exists k :: IsBack(q, k) && q.pending[k] == e
    ensures Offer(q, e) != q ==> Offer(q, e) == q.(pending := q.pending + [e])
  {
    if q.pending != [] {
      assert IsBack(q, LastIndex(q.pending, q.interrupting));
    }
  }

  /** Serving the head leaves every other pending event pending. */
  lemma RemoveKeepsOthers(q: Queue, e: ColodEvent)
    requires q.pending != [] && e in q.pending && Head(q) != e
    ensures e in Remove(q).pending
  {
    var s, k := q.pending, Pick(q);
    var i :| 0 <= i < |s| && s[i] == e;
    assert RemoveAt(s, k)[if i < k then i else i - 1] == e;
  }

  /** Arrivals keep the relative order of what is pending. */
  lemma AddKeepsBefore(q: Queue, e: ColodEvent, x: ColodEvent, y: ColodEvent)
    requires x != y && PendingBefore(q.pending, x, y)
    ensures PendingBefore(Add(q, e).pending, x, y)
  {
    var s := q.pending;
    var a := Add(q, e).pending;
    var i := FirstIn(s, {x});
    assert s[i] == x && a[i] == x;
    assert FirstIn(a, {x}) <= i;
    assert forall j :: 0 <= j < i ==> a[j] == s[j] != y;
  }

  datatype Operation = AddOp(event: ColodEvent) | RemoveOp | SetInterruptingOp(events: set<ColodEvent>)

  function Perform(q: Queue, op: Operation): Queue {
    match op
    case AddOp(e) => Add(q, e)
    case RemoveOp => if q.pending == [] then q else Remove(q)
    case SetInterruptingOp(events) => q.(interrupting := AlwaysInterrupting + events)
  }

  function PerformAll(q: Queue, ops: seq<Operation>): Queue
    decreases |ops|
  {
    if ops == [] then q else PerformAll(Perform(q, ops[0]), ops[1..])
  }

  /** The event an operation adds, and the one it serves. */
  function AcceptedBy(q: Queue, op: Operation): multiset<ColodEvent> {
    if op.AddOp? && |q.pending| != q.size then multiset{op.event} else multiset{}
  }

  function ServedBy(q: Queue, op: Operation): multiset<ColodEvent> {
    if op.RemoveOp? && q.pending != [] then multiset{Head(q)} else multiset{}
  }

  /** The events accepted, and served, in the course of `ops`. */
  function Accepted(q: Queue, ops: seq<Operation>): multiset<ColodEvent>
    decreases |ops|
  {
    if ops == [] then multiset{} else AcceptedBy(q, ops[0]) + Accepted(Perform(q, ops[0]), ops[1..])
  }

  function Served(q: Queue, ops: seq<Operation>): multiset<ColodEvent>
    decreases |ops|
  {
    if ops == [] then multiset{} else ServedBy(q, ops[0]) + Served(Perform(q, ops[0]), ops[1..])
  }

  lemma RemoveBag(q: Queue)
    requires q.pending != []
    ensures multiset(q.pending) == multiset(Remove(q).pending) + multiset{Head(q)}
  {
    var s, k := q.pending, Pick(q);
    assert s == s[..k] + [s[k]] + s[k + 1..];
  }

  lemma PerformBag(q: Queue, op: Operation)
    requires |q.pending| <= q.size
    ensures multiset(q.pending) + AcceptedBy(q, op) == ServedBy(q, op) + multiset(Perform(q, op).pending)
    ensures |Perform(q, op).pending| <= Perform(q, op).size == q.size
  {
    if op.RemoveOp? && q.pending != [] {
      RemoveBag(q);
    }
  }

  lemma Telescope(p: multiset<ColodEvent>, a: multiset<ColodEvent>, s: multiset<ColodEvent>, q: multiset<ColodEvent>,
                  a': multiset<ColodEvent>, s': multiset<ColodEvent>, r: multiset<ColodEvent>)
    requires p + a == s + q && q + a' == s' + r
    ensures p + (a + a') == (s + s') + r
  {
    assert p + (a + a') == (p + a) + a' == (s + q) + a' == s + (q + a') == s + (s' + r);
  }

  /** Over any operations: what was pending or accepted is served or still pending, within the capacity. */
  lemma {:induction false} Conservation(q: Queue, ops: seq<Operation>)
    requires |q.pending| <= q.size
    ensures multiset(q.pending) + Accepted(q, ops) == Served(q, ops) + multiset(PerformAll(q, ops).pending)
    ensures |PerformAll(q, ops).pending| <= PerformAll(q, ops).size == q.size
    decreases |ops|
  {
    if ops != [] {
      var p, rest := Perform(q, ops[0]), ops[1..];
      PerformBag(q, ops[0]);
      Conservation(p, rest);
      Telescope(multiset(q.pending), AcceptedBy(q, ops[0]), ServedBy(q, ops[0]), multiset(p.pending),
                Accepted(p, rest), Served(p, rest), multiset(PerformAll(q, ops).pending));
    }
  }
}
