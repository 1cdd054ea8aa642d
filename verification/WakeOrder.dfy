/**
 Wake sources have one priority, so the main loop dispatches them in the order they were added. Then the
 assert of the QMP event waits holds whenever the last event served before was served while a wake source
 was dispatched, or none has been served at all. `WakeStates` says when that is so in the daemon.
 */
module WakeOrder {
  import opened ColodTypes
  import opened EventQueueSpec
  import opened WakeUp
  import Runs

  /** `byOther`: the last event served was served in the dispatch of a source that is no wake source. */
  datatype Ordered = Ordered(sys: Sys, byOther: bool)

  predicate InOrder(s: Sys, m: WakeMove) {
    m.Dispatch? && m.source.WakeSource? ==> forall i :: i in s.wake.live ==> m.source.id <= i
  }

  /** The source being dispatched while the move is made. */
  function Dispatching(s: Sys, m: WakeMove): Source {
    if m.Dispatch? then m.source else if s.phase.Running? then s.phase.current else Foreign
  }

  function OrderedNext(o: Ordered, m: WakeMove): Option<Ordered> {
    var t := WakeNext(o.sys, m);
    if t.None? || !InOrder(o.sys, m) then None
    else
      var served := |t.value.wake.queue.pending| < |o.sys.wake.queue.pending|;
      Some(Ordered(t.value, if served then Dispatching(o.sys, m).Foreign? else o.byOther))
  }

  /** The wake source being dispatched, if one is. */
  function Current(s: Sys): set<nat> {
    if s.phase.Running? && s.phase.current.WakeSource? then {s.phase.current.id} else {}
  }

  /** The live sources that are neither remembered nor being dispatched. */
  function Forgotten(s: Sys): set<nat> {
    s.wake.live - Current(s) - {s.wake.id}
  }

  /** At most one source is forgotten, an older one than is remembered, and none while one is dispatched. */
  predicate AgesFit(s: Sys) {
    && (forall i, j :: i in Forgotten(s) && j in Forgotten(s) ==> i == j)
    && (s.wake.id != 0 ==> forall i :: i in Forgotten(s) ==> i < s.wake.id)
    && Current(s) <= s.wake.live
    && (Current(s) != {} ==> Forgotten(s) == {})
  }

  predicate OrderInv(o: Ordered) {
    && WakeInv(o.sys) && o.sys.wake.queue.size > 0
    && (o.sys.phase.AssertFailed? ==> o.byOther)
    && (!o.sys.phase.AssertFailed? ==> AgesFit(o.sys))
    && (!o.byOther && o.sys.wake.queue.pending == [] ==> o.sys.wake.live <= Current(o.sys))
  }

  /** A new source is remembered, and forgets none. */
  lemma ArriveKeepsAges(s: Sys, e: ColodEvent)
    requires WakeInv(s) && AgesFit(s)
    ensures AgesFit(s.(wake := QueueEvent(s.wake, e)))
  {
    var t := s.(wake := QueueEvent(s.wake, e));
    assert Current(t) == Current(s);
    assert Forgotten(t) == Forgotten(s);
  }

  lemma ArriveKeepsOrder(o: Ordered, e: ColodEvent)
    requires OrderInv(o) && OrderedNext(o, Arrive(e)).Some?
    ensures OrderInv(OrderedNext(o, Arrive(e)).value)
  {
    WakeNextKeepsInv(o.sys, Arrive(e));
    OfferKeeps(o.sys.wake.queue, e);
    ArriveKeepsAges(o.sys, e);
  }

  /** A dispatch of `current` that ends leaves at most one source forgotten. */
  lemma EndKeepsAges(s: Sys, phase: Phase)
    requires WakeInv(s) && s.phase.Running? && AgesFit(s) && !phase.Running?
    ensures AgesFit(Sys(EndDispatch(s.wake, s.phase.current), phase))
    ensures EndDispatch(s.wake, s.phase.current).live == s.wake.live - Current(s)
  {
  }

  /** An event is only served in the dispatch of a wake source that is the only live one. */
  lemma ServeKeepsOrder(s: Sys)
    requires WakeInv(s) && s.phase.Running? && AgesFit(s)
    ensures var t := Serve(s.wake, s.phase.current);
      && AgesFit(t)
      && (|t.wake.queue.pending| < |s.wake.queue.pending| ==> t.phase.Running?)
      && (t.phase.Running? && s.phase.current.WakeSource? ==> t.wake.live == {s.phase.current.id})
      && (!t.phase.Running? ==> t.wake.queue == s.wake.queue && t.wake.live == s.wake.live - Current(s))
  {
    var f := s.(wake := Forget(s.wake, s.phase.current));
    assert AgesFit(f);
    if Parks(s.wake, s.phase.current) {
      EndKeepsAges(f, Waiting);
    }
  }

  /** The source that is dispatched was the forgotten one, or the remembered one with none forgotten. */
  lemma DispatchFits(s: Sys, source: Source)
    requires WakeInv(s) && AgesFit(s) && WakeNext(s, Dispatch(source)).Some? && InOrder(s, Dispatch(source))
    ensures AgesFit(s.(phase := Running(source)))
  {
    var r := s.(phase := Running(source));
    assert Current(s) == {};
    forall i | i in Forgotten(r) ensures i in Forgotten(s) && source.Foreign? {
      if source.WakeSource? {
        assert source.id in s.wake.live && source.id <= i;
        assert source.id == s.wake.id || source.id in Forgotten(s);
      }
    }
  }

  lemma DispatchKeepsOrder(o: Ordered, source: Source)
    requires OrderInv(o) && OrderedNext(o, Dispatch(source)).Some?
    ensures OrderInv(OrderedNext(o, Dispatch(source)).value)
  {
    var s := o.sys;
    WakeNextKeepsInv(s, Dispatch(source));
    var r := s.(phase := Running(source));
    DispatchFits(s, source);
    ServeKeepsOrder(r);
    EndKeepsAges(r, QmpWaiting);
  }

  lemma RunningKeepsOrder(o: Ordered, m: WakeMove)
    requires OrderInv(o) && (m.Wait? || m.QmpWait? || m.Suspend? || m.SetInterrupting?) && OrderedNext(o, m).Some?
    ensures OrderInv(OrderedNext(o, m).value)
  {
    WakeNextKeepsInv(o.sys, m);
    if m.SetInterrupting? {
      var t := WakeNext(o.sys, m).value;
      assert Forgotten(t) == Forgotten(o.sys);
    }
    ServeKeepsOrder(o.sys);
    EndKeepsAges(o.sys, QmpWaiting);
    EndKeepsAges(o.sys, Elsewhere);
  }

  lemma OrderedKeepsInv(o: Ordered, m: WakeMove)
    requires OrderInv(o) && OrderedNext(o, m).Some?
    ensures OrderInv(OrderedNext(o, m).value)
  {
    match m
    case Arrive(e) => ArriveKeepsOrder(o, e);
    case Dispatch(source) => DispatchKeepsOrder(o, source);
    case _ => RunningKeepsOrder(o, m);
  }

  /**
   In every run in which wake sources fire in order: unless the last event was served in the dispatch of
   another source, the assert has not failed, and a QMP event wait with nothing queued has no source to fail it.
   */
  lemma OrderedAssertHolds(size: nat, moves: seq<WakeMove>, o: Ordered)
    requires size > 0 && Runs.Reaches(OrderedNext, Ordered(Begin(size), false), moves, o) && !o.byOther
    ensures o.sys.phase != AssertFailed
    ensures o.sys.phase == QmpWaiting && o.sys.wake.queue.pending == [] ==> o.sys.wake.live == {}
  {
    forall t, m | OrderInv(t) && OrderedNext(t, m).Some? ensures OrderInv(OrderedNext(t, m).value) {
      OrderedKeepsInv(t, m);
    }
    Runs.Invariant(OrderedNext, OrderInv, Ordered(Begin(size), false), moves, o);
  }
}
