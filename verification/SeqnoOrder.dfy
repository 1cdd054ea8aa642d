/**
 The comparator of the event queue. Sequence numbers are 64-bit counters that wrap, and their
 difference is narrowed to a signed 32-bit result, so the comparator only agrees with the order of
 arrival while the live numbers stay close together. `CompareExact` and `SpanIsExact` say how close.
 */
module SeqnoOrder {
  import opened ColodTypes

  /** A queued event with the number of events accepted before it. The program stores `Wrap64(n)`. */
  datatype Arrival = Arrival(event: ColodEvent, n: nat)

  /** A counter as a 64-bit unsigned number. */
  function Wrap64(n: nat): nat {
    n % 0x1_0000_0000_0000_0000
  }

  /** Conversion of a 64-bit difference to a signed 32-bit integer. */
  function Narrow(x: int): int {
    var low := x % 0x1_0000_0000;
    if low < 0x8000_0000 then low else low - 0x1_0000_0000
  }

  /** Negative: `a` is served before `b`. */
  function Compare(a: Arrival, b: Arrival, interrupting: set<ColodEvent>): int {
    if (a.event in interrupting) != (b.event in interrupting) then
      if a.event in interrupting then -1 else 1
    else
      Narrow((Wrap64(a.n) - Wrap64(b.n)) % 0x1_0000_0000_0000_0000)
  }

  /** The order the comparator is meant to implement: interrupting first, then by arrival. */
  predicate Before(a: Arrival, b: Arrival, interrupting: set<ColodEvent>) {
    if (a.event in interrupting) != (b.event in interrupting) then a.event in interrupting else a.n < b.n
  }

  lemma NarrowOfWrapped(m: nat, n: nat)
    ensures Narrow((Wrap64(m) - Wrap64(n)) % 0x1_0000_0000_0000_0000) == Narrow(m - n)
  {
    var d := m % 0x1_0000_0000_0000_0000 - n % 0x1_0000_0000_0000_0000;
    var k := m / 0x1_0000_0000_0000_0000 - n / 0x1_0000_0000_0000_0000;
    assert m - n == d + 0x1_0000_0000_0000_0000 * k;
    var e := d % 0x1_0000_0000_0000_0000;
    var j := d / 0x1_0000_0000_0000_0000;
    assert d == 0x1_0000_0000_0000_0000 * j + e;
    assert m - n == e + 0x1_0000_0000 * (0x1_0000_0000 * (j + k));
    ModMultiple(e, 0x1_0000_0000 * (j + k));
  }

  lemma ModMultiple(e: int, k: int)
    ensures (e + 0x1_0000_0000 * k) % 0x1_0000_0000 == e % 0x1_0000_0000
  {
    var q, r := e / 0x1_0000_0000, e % 0x1_0000_0000;
    assert e + 0x1_0000_0000 * k == 0x1_0000_0000 * (q + k) + r;
  }

  /** Within one class the comparator returns the true distance exactly when that distance fits 32 bits. */
  lemma CompareExact(a: Arrival, b: Arrival, interrupting: set<ColodEvent>)
    requires (a.event in interrupting) == (b.event in interrupting)
    ensures Compare(a, b, interrupting) == a.n - b.n <==> -0x8000_0000 <= a.n - b.n < 0x8000_0000
  {
    NarrowOfWrapped(a.n, b.n);
  }

  /** The comparator orders `a` and `b`, both ways round, as they arrived. */
  predicate Agrees(a: Arrival, b: Arrival, interrupting: set<ColodEvent>) {
    && (Compare(a, b, interrupting) < 0 <==> Before(a, b, interrupting))
    && (Compare(b, a, interrupting) < 0 <==> Before(b, a, interrupting))
  }

  /** Distances below 2^31 are always ordered correctly, across any number of wraps of the counter. */
  lemma CloseAgrees(a: Arrival, b: Arrival, interrupting: set<ColodEvent>)
    requires -0x8000_0000 < a.n - b.n < 0x8000_0000
    ensures Agrees(a, b, interrupting)
  {
    NarrowOfWrapped(a.n, b.n);
    NarrowOfWrapped(b.n, a.n);
  }

  predicate Within(a: Arrival, b: Arrival, span: int) {
    -span <= a.n - b.n <= span
  }

  /** Every pair of arrivals no further apart than `span` is ordered correctly iff `span` is below 2^31. */
  lemma SpanIsExact(span: nat, interrupting: set<ColodEvent>)
    ensures (forall a: Arrival, b: Arrival :: Within(a, b, span) ==> Agrees(a, b, interrupting))
      <==> span < 0x8000_0000
  {
    if span < 0x8000_0000 {
      forall a: Arrival, b: Arrival | Within(a, b, span) ensures Agrees(a, b, interrupting) {
        CloseAgrees(a, b, interrupting);
      }
    } else {
      var a, b := Arrival(EventYellow, 0x8000_0000), Arrival(EventYellow, 0);
      NarrowOfWrapped(a.n, b.n);
      assert Within(a, b, span) && !Agrees(a, b, interrupting);
    }
  }
}
