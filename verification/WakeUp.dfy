/**
 How the main coroutine is woken for queued events. `wake_source_id` remembers at most one wake
 source, and the destroy callback of an older source clears it even when it names a newer one, so
 several wake sources can be live at once. No wake-up is lost all the same: whenever the coroutine is
 parked in colod_event_wait with events pending, a wake source is live. Waits for QMP events do not
 look at the queue before they park; `StrandedIff` and `AssertFailsIff` say what that costs them.
 */
module WakeUp {
  import opened ColodTypes
  import opened EventQueueSpec
  import Runs

  /** The queue, the remembered wake source (0 for none), the live ones and the next free id. */
  datatype Wake = Wake(queue: Queue, id: nat, live: set<nat>, nextId: nat)

  /** The event source being dispatched: a wake source, or one armed for something else. */
  datatype Source = WakeSource(id: nat) | Foreign

  /** The wake source an event needs: one for an interrupting event or an empty queue, unless one is remembered. */
  function Arm(w: Wake, e: ColodEvent): Wake {
    if w.id == 0 && (w.queue.pending == [] || e in w.queue.interrupting) then
      w.(id := w.nextId, live := w.live + {w.nextId}, nextId := w.nextId + 1)
    else w
  }

  /** _colod_event_queue */
  function QueueEvent(w: Wake, e: ColodEvent): Wake {
    Arm(w, e).(queue := Offer(w.queue, e))
  }

  /** The dispatched source is no longer remembered. */
  function Forget(w: Wake, current: Source): Wake {
    if current == WakeSource(w.id) then w.(id := 0) else w
  }

  predicate Parks(w: Wake, current: Source) {
    w.queue.pending == [] || Forget(w, current).id != 0
  }

  /** _colod_event_wait: the served event, or None to park. */
  function EventWait(w: Wake, current: Source): (Wake, Option<ColodEvent>) {
    var f := Forget(w, current);
    if Parks(w, current) then (f, None) else (f.(queue := Remove(w.queue)), Some(Head(w.queue)))
  }

  /** The dispatch of `current` ends: a wake source is destroyed, and its destroy callback runs. */
  function EndDispatch(w: Wake, current: Source): Wake {
    match current
    case WakeSource(s) => w.(id := 0, live := w.live - {s})
    case Foreign => w
  }

  /** Where the main coroutine is: parked in one of its two waits, suspended in a command, or running. */
  datatype Phase =
    | Waiting                       // in colod_event_wait
    | QmpWaiting                    // in colod_qmp_event_wait_co
    | Elsewhere
    | Running(current: Source)
    | AssertFailed                  // a QMP event wait was woken with nothing queued

  datatype Sys = Sys(wake: Wake, phase: Phase)

  datatype WakeMove =
    | Arrive(event: ColodEvent)     // a callback queues an event, also while the coroutine runs
    | Dispatch(source: Source)      // a source resumes the coroutine
    | Wait                          // the running coroutine asks for an event
    | QmpWait                       // or waits for a QMP event
    | Suspend                       // or for something else
    | SetInterrupting(events: set<ColodEvent>)   // or says which events interrupt it

  /** colod_event_wait called while `current` is dispatched: an event is served, or the coroutine parks. */
  function Serve(w: Wake, current: Source): Sys {
    var (f, e) := EventWait(w, current);
    if e.Some? then Sys(f, Running(current)) else Sys(EndDispatch(f, current), Waiting)
  }

  /**
   A wake source fires during a QMP event wait. Nothing may be queued; with no interrupt pending it waits
   on; else it returns, and each of its callers goes on to colod_event_wait in the same dispatch.
   */
  function InterruptQmpWait(w: Wake, current: Source): Sys {
    if w.queue.pending == [] then Sys(w, AssertFailed)
    else if PendingInterrupt(w.queue) then Serve(w, current)
    else Sys(EndDispatch(w, current), QmpWaiting)
  }

  /** During a QMP event wait the other source that can fire is that of the event, or of its timeout. */
  function Dispatched(s: Sys, source: Source): Option<Sys> {
    if source.WakeSource? && source.id !in s.wake.live then None
    else
      match s.phase
      case Waiting => Some(Serve(s.wake, source))
      case QmpWaiting =>
        Some(if source.WakeSource? then InterruptQmpWait(s.wake, source) else s.(phase := Running(source)))
      case Elsewhere => Some(s.(phase := Running(source)))
      case _ => None
  }

  function WakeNext(s: Sys, m: WakeMove): Option<Sys> {
    match m
    case Arrive(e) => if s.phase.AssertFailed? then None else Some(s.(wake := QueueEvent(s.wake, e)))
    case Dispatch(source) => Dispatched(s, source)
    case Wait => if s.phase.Running? then Some(Serve(s.wake, s.phase.current)) else None
    case QmpWait =>
      if s.phase.Running? then Some(Sys(EndDispatch(s.wake, s.phase.current), QmpWaiting)) else None
    case Suspend => if s.phase.Running? then Some(Sys(EndDispatch(s.wake, s.phase.current), Elsewhere)) else None
    case SetInterrupting(events) =>
      if !s.phase.Running? then None
      else Some(s.(wake := s.wake.(queue := s.wake.queue.(interrupting := AlwaysInterrupting + events))))
  }

  /** A remembered source is live, and a waiting coroutine with events pending will be woken. */
  predicate WakeInv(s: Sys) {
    && 0 < s.wake.nextId
    && (forall i :: i in s.wake.live ==> 0 < i < s.wake.nextId)
    && (s.wake.id != 0 ==> s.wake.id in s.wake.live)
    && (s.phase == Waiting && s.wake.queue.pending != [] ==> s.wake.live != {})
  }

  lemma ServeKeepsInv(s: Sys, current: Source)
    requires WakeInv(s)
    ensures WakeInv(Serve(s.wake, current))
  {
    var (f, e) := EventWait(s.wake, current);
    assert e.None? && s.wake.queue.pending != [] ==> f.id in EndDispatch(f, current).live;
  }

  lemma WakeNextKeepsInv(s: Sys, m: WakeMove)
    requires WakeInv(s) && WakeNext(s, m).Some?
    ensures WakeInv(WakeNext(s, m).value)
  {
    if m.Arrive? {
      OfferKeeps(s.wake.queue, m.event);
    } else if m.Wait? {
      ServeKeepsInv(s, s.phase.current);
    } else if m.Dispatch? {
      ServeKeepsInv(s, m.source);
    }
  }

  /** The coroutine starts running from its first idle source, with nothing queued. */
  function Begin(size: nat): Sys {
    Sys(Wake(Queue([], AlwaysInterrupting, size), 0, {}, 1), Running(Foreign))
  }

  lemma RunKeepsInv(size: nat, moves: seq<WakeMove>, s: Sys)
    requires Runs.Reaches(WakeNext, Begin(size), moves, s)
    ensures WakeInv(s)
  {
    forall t, m | WakeInv(t) && WakeNext(t, m).Some? ensures WakeInv(WakeNext(t, m).value) {
      WakeNextKeepsInv(t, m);
    }
    Runs.Invariant(WakeNext, WakeInv, Begin(size), moves, s);
  }

  /** In every run, a coroutine waiting for events that are there has a live wake source. */
  lemma NoLostWakeUp(size: nat, moves: seq<WakeMove>, s: Sys)
    requires Runs.Reaches(WakeNext, Begin(size), moves, s)
    ensures s.phase == Waiting && s.wake.queue.pending != [] ==> s.wake.live != {}
  {
    RunKeepsInv(size, moves, s);
  }

  /** A wake source fires while the coroutine waits: it serves the next event, or uses the source up. */
  lemma FiringProgresses(s: Sys, source: nat)
    requires WakeInv(s) && s.phase == Waiting && source in s.wake.live
    ensures WakeNext(s, Dispatch(WakeSource(source))).Some?
    ensures var t := WakeNext(s, Dispatch(WakeSource(source))).value;
      if t.phase == Waiting then
        t.wake.live == s.wake.live - {source} && t.wake.queue == s.wake.queue
      else
        s.wake.queue.pending != [] && t.wake.queue == Remove(s.wake.queue)
  {
  }

  /** The state after the sources fire one after another, none of them serving an event; None if one does. */
  function FireIdly(s: Sys, sources: seq<nat>): Option<Sys>
    decreases |sources|
  {
    if sources == [] then Some(s)
    else
      var t := WakeNext(s, Dispatch(WakeSource(sources[0])));
      if t.Some? && t.value.phase == Waiting then FireIdly(t.value, sources[1..]) else None
  }

  /** With events pending, fewer wake sources than are live can fire before one serves an event. */
  lemma {:induction false} ServedWithinLive(s: Sys, sources: seq<nat>)
    requires WakeInv(s) && s.phase == Waiting && s.wake.queue.pending != []
    requires FireIdly(s, sources).Some?
    ensures |sources| < |s.wake.live|
    decreases |sources|
  {
    if sources != [] {
      FiringProgresses(s, sources[0]);
      WakeNextKeepsInv(s, Dispatch(WakeSource(sources[0])));
      ServedWithinLive(WakeNext(s, Dispatch(WakeSource(sources[0]))).value, sources[1..]);
    } else {
      assert s.wake.live != {};
    }
  }

  // ---- Waits for QMP events ----

  /**
   A wake source fires in a wait for a QMP event: the wait goes on exactly if something is pending that does not
   interrupt, and what is served instead does; either way no other event is touched.
   */
  lemma WaitLeftForInterrupt(s: Sys, source: nat)
    requires s.phase == QmpWaiting && source in s.wake.live
    ensures WakeNext(s, Dispatch(WakeSource(source))).Some?
    ensures var q, t := s.wake.queue, WakeNext(s, Dispatch(WakeSource(source))).value;
      && (t.phase == QmpWaiting <==> q.pending != [] && forall e :: e in q.pending ==> e !in q.interrupting)
      && (t.phase.AssertFailed? <==> q.pending == [])
      && (if t.phase.Running? then Head(q) in q.interrupting && t.wake.queue == Remove(q)
          else t.wake.queue == q && (t.phase.AssertFailed? || t.wake.live == s.wake.live - {source}))
  {
    PendingInterruptIff(s.wake.queue);
  }

  /** `moves` lead from `s0` to `s` within one QMP event wait. */
  ghost predicate WaitsOn(s0: Sys, moves: seq<WakeMove>, s: Sys)
    decreases |moves|
  {
    s0.phase == QmpWaiting &&
    if moves == [] then s == s0
    else WakeNext(s0, moves[0]).Some? && WaitsOn(WakeNext(s0, moves[0]).value, moves[1..], s)
  }

  /** An interrupt is pending that no wake source will bring to the coroutine's notice. */
  predicate Stranded(s: Sys) {
    PendingInterrupt(s.wake.queue) && s.wake.live == {}
  }

  /** An interrupting event is queued in the course of `moves`. */
  predicate Rings(moves: seq<WakeMove>, interrupting: set<ColodEvent>) {
    exists i :: 0 <= i < |moves| && moves[i].Arrive? && moves[i].event in interrupting
  }

  /** One step of a QMP event wait that goes on. */
  lemma WaitStep(s: Sys, m: WakeMove)
    requires WakeInv(s) && s.phase == QmpWaiting && WakeNext(s, m).Some? && WakeNext(s, m).value.phase == QmpWaiting
    ensures var t := WakeNext(s, m).value;
      && t.wake.queue.interrupting == s.wake.queue.interrupting && t.wake.queue.size == s.wake.queue.size
      && (Stranded(t) <==> Stranded(s) && !(m.Arrive? && m.event in s.wake.queue.interrupting))
  {
    if m.Arrive? {
      var q, r := s.wake.queue, Offer(s.wake.queue, m.event);
      OfferKeeps(q, m.event);
      PendingInterruptIff(q);
      PendingInterruptIff(r);
    }
  }

  lemma {:induction false} WaitStranded(s0: Sys, moves: seq<WakeMove>, s: Sys)
    requires WakeInv(s0) && WaitsOn(s0, moves, s)
    ensures WakeInv(s) && (Stranded(s) <==> Stranded(s0) && !Rings(moves, s0.wake.queue.interrupting))
    decreases |moves|
  {
    if moves != [] {
      var t, interrupting := WakeNext(s0, moves[0]).value, s0.wake.queue.interrupting;
      WakeNextKeepsInv(s0, moves[0]);
      WaitStep(s0, moves[0]);
      WaitStranded(t, moves[1..], s);
      RingsFirst(moves, interrupting);
    }
  }

  lemma RingsFirst(moves: seq<WakeMove>, interrupting: set<ColodEvent>)
    requires moves != []
    ensures Rings(moves, interrupting) <==>
      (moves[0].Arrive? && moves[0].event in interrupting) || Rings(moves[1..], interrupting)
  {
    if i :| 0 <= i < |moves[1..]| && moves[1..][i].Arrive? && moves[1..][i].event in interrupting {
      assert moves[i + 1] == moves[1..][i];
    }
    if i :| 0 < i < |moves| && moves[i].Arrive? && moves[i].event in interrupting {
      assert moves[1..][i - 1] == moves[i];
    }
  }

  /** The wake sources that outlive the dispatch of `current`. */
  function Left(w: Wake, current: Source): set<nat> {
    EndDispatch(w, current).live
  }

  /**
   Throughout a QMP event wait, an interrupt is stranded exactly if it was pending, with no wake source
   left, when the wait was entered, and no interrupting event has been queued since.
   */
  lemma StrandedIff(s: Sys, moves: seq<WakeMove>, t: Sys)
    requires WakeInv(s) && s.phase.Running? && WaitsOn(WakeNext(s, QmpWait).value, moves, t)
    ensures Stranded(t) <==>
      && PendingInterrupt(s.wake.queue) && Left(s.wake, s.phase.current) == {}
      && !Rings(moves, s.wake.queue.interrupting)
  {
    WakeNextKeepsInv(s, QmpWait);
    WaitStranded(WakeNext(s, QmpWait).value, moves, t);
  }

  /** A wait entered only with no interrupt pending, as some are, never strands one. */
  lemma GuardedWaitIsWoken(s: Sys, moves: seq<WakeMove>, t: Sys)
    requires WakeInv(s) && s.phase.Running? && WaitsOn(WakeNext(s, QmpWait).value, moves, t)
    requires !PendingInterrupt(s.wake.queue)
    ensures PendingInterrupt(t.wake.queue) ==> t.wake.live != {}
  {
    StrandedIff(s, moves, t);
  }

  /** A run one move longer. */
  lemma Extended(size: nat, moves: seq<WakeMove>, s: Sys, m: WakeMove) returns (longer: seq<WakeMove>, t: Sys)
    requires Runs.Reaches(WakeNext, Begin(size), moves, s) && WakeNext(s, m).Some?
    ensures longer == moves + [m] && t == WakeNext(s, m).value
    ensures Runs.Reaches(WakeNext, Begin(size), longer, t)
  {
    Runs.Extend(WakeNext, Begin(size), moves, s, m);
    longer, t := moves + [m], WakeNext(s, m).value;
  }

  /** The interrupts of SECONDARY_WAIT. */
  const SECONDARY_WAIT: set<ColodEvent> := {EventFailoverSync, EventFailoverWin, EventYellow, EventUnyellow}

  /** In SECONDARY_WAIT's wait, two events that interrupt it arrive; one wake source is armed. */
  lemma TwoInterrupts(size: nat) returns (moves: seq<WakeMove>, s: Sys)
    requires size >= 2
    ensures Runs.Reaches(WakeNext, Begin(size), moves, s)
    ensures s == Sys(Wake(Queue([EventYellow, EventQuit], AlwaysInterrupting + SECONDARY_WAIT, size), 1, {1}, 2),
                     QmpWaiting)
  {
    moves, s := [], Begin(size);
    moves, s := Extended(size, moves, s, SetInterrupting(SECONDARY_WAIT));
    moves, s := Extended(size, moves, s, QmpWait);
    moves, s := Extended(size, moves, s, Arrive(EventYellow));
    assert s.wake.queue.pending == [EventYellow];
    moves, s := Extended(size, moves, s, Arrive(EventQuit));
    assert s.wake.queue.pending == [EventYellow, EventQuit] && s.wake.live == {1};
  }

  /** The first of two events that both interrupt is served, and the coroutine waits again. */
  lemma FirstOfTwoServed(s: Sys, first: ColodEvent, second: ColodEvent)
    requires s.phase == QmpWaiting && s.wake.live == {s.wake.id} && s.wake.queue.pending == [first, second]
    requires first in s.wake.queue.interrupting && second in s.wake.queue.interrupting
    ensures var t := WakeNext(s, Dispatch(WakeSource(s.wake.id))).value;
      && t.phase == Running(WakeSource(s.wake.id))
      && var u := WakeNext(t, QmpWait).value;
      && u.phase == QmpWaiting && u.wake.queue == s.wake.queue.(pending := [second]) && u.wake.live == {}
      && Stranded(u)
  {
    var q := s.wake.queue;
    assert q.pending[0] == first && Pick(q) == 0;
    assert RemoveAt(q.pending, 0) == [second];
    assert q.(pending := [second]).pending[0] in q.interrupting;
  }

  /**
   SECONDARY_WAIT enters its wait unguarded. Two interrupting events arrive, the one wake source serves the
   first, and the coroutine waits again with the second stranded, here a request to quit.
   */
  lemma SecondaryWaitStrands(size: nat) returns (moves: seq<WakeMove>, s: Sys)
    requires size >= 2
    ensures Runs.Reaches(WakeNext, Begin(size), moves, s)
    ensures s.phase == QmpWaiting && Stranded(s) && s.wake.queue.pending == [EventQuit]
    ensures s.wake.queue.interrupting == AlwaysInterrupting + SECONDARY_WAIT
  {
    hide WakeNext;
    moves, s := TwoInterrupts(size);
    FirstOfTwoServed(s, EventYellow, EventQuit);
    ServeEnabled(s);
    moves, s := Extended(size, moves, s, Dispatch(WakeSource(1)));
    ServeEnabled(s);
    moves, s := Extended(size, moves, s, QmpWait);
  }

  /** What is always possible: a live source fires during a wait, and a running coroutine waits. */
  lemma ServeEnabled(s: Sys)
    ensures s.phase == QmpWaiting ==> forall i :: i in s.wake.live ==> WakeNext(s, Dispatch(WakeSource(i))).Some?
    ensures s.phase.Running? ==> WakeNext(s, QmpWait).Some?
  {
  }

  /** A wake source is live with nothing queued: firing now, it would meet a failing assert. */
  predicate Exposed(s: Sys) {
    s.wake.queue.pending == [] && s.wake.live != {}
  }

  lemma {:induction false} WaitExposed(s0: Sys, moves: seq<WakeMove>, s: Sys)
    requires WakeInv(s0) && s0.wake.queue.size > 0 && WaitsOn(s0, moves, s)
    ensures Exposed(s) ==> Exposed(s0)
    decreases |moves|
  {
    if moves != [] {
      WakeNextKeepsInv(s0, moves[0]);
      WaitStep(s0, moves[0]);
      WaitExposed(WakeNext(s0, moves[0]).value, moves[1..], s);
    }
  }

  /** In the course of the wait entered from `s` the assert that something is queued can fail. */
  ghost predicate AssertCanFail(s: Sys)
    requires s.phase.Running?
  {
    exists moves, t, m :: WaitsOn(WakeNext(s, QmpWait).value, moves, t) && WakeNext(t, m).Some?
      && WakeNext(t, m).value.phase == AssertFailed
  }

  /** It can exactly if the wait was entered with nothing queued and a wake source left. */
  lemma AssertFailsIff(s: Sys)
    requires WakeInv(s) && s.phase.Running? && s.wake.queue.size > 0
    ensures AssertCanFail(s) <==> s.wake.queue.pending == [] && Left(s.wake, s.phase.current) != {}
  {
    var s0 := WakeNext(s, QmpWait).value;
    WakeNextKeepsInv(s, QmpWait);
    if Exposed(s0) {
      var id :| id in s0.wake.live;
      assert WaitsOn(s0, [], s0);
      assert WakeNext(s0, Dispatch(WakeSource(id))).value.phase == AssertFailed;
    }
    forall moves, t, m | WaitsOn(s0, moves, t) && WakeNext(t, m).Some? && WakeNext(t, m).value.phase == AssertFailed
      ensures Exposed(s0)
    {
      WaitExposed(s0, moves, t);
      WaitsEnd(s0, moves, t);
    }
  }

  lemma {:induction false} WaitsEnd(s0: Sys, moves: seq<WakeMove>, s: Sys)
    requires WaitsOn(s0, moves, s)
    ensures s.phase == QmpWaiting
    decreases |moves|
  {
    if moves != [] {
      WaitsEnd(WakeNext(s0, moves[0]).value, moves[1..], s);
    }
  }

  /**
   The protocol alone does not keep a coroutine from getting there. An event that arrives in the very dispatch
   that served another one is given a source of its own, which the end of the dispatch forgets; the event is then
   served by another resumption. Whether the states ever do this is the subject of `WakeStates`.
   */
  lemma AssertReachable(size: nat) returns (moves: seq<WakeMove>, s: Sys)
    requires size > 0
    ensures Runs.Reaches(WakeNext, Begin(size), moves, s) && s.phase == AssertFailed
  {
    moves, s := [], Begin(size);
    moves, s := Extended(size, moves, s, Arrive(EventYellow));
    assert s.wake.queue.pending == [EventYellow];
    moves, s := Extended(size, moves, s, Wait);
    moves, s := Extended(size, moves, s, Dispatch(WakeSource(1)));
    assert s.wake.queue.pending == [] && s.wake.id == 0;
    moves, s := Extended(size, moves, s, Arrive(EventYellow));
    assert s.wake.queue.pending == [EventYellow] && s.wake.live == {1, 2};
    moves, s := Extended(size, moves, s, Suspend);
    moves, s := Extended(size, moves, s, Dispatch(Foreign));
    moves, s := Extended(size, moves, s, Wait);
    assert s.wake.queue.pending == [] && s.wake.live == {2};
    moves, s := Extended(size, moves, s, QmpWait);
    moves, s := Extended(size, moves, s, Dispatch(WakeSource(2)));
  }

  // ---- Commands ----

  /**
   A wake source that fires during a command is used up by it. An interrupt is then left without a live
   source exactly if that was the last one.
   */
  lemma CommandUsesUp(s: Sys, source: nat)
    requires WakeInv(s) && s.phase == Elsewhere && source in s.wake.live
    ensures var t := WakeNext(WakeNext(s, Dispatch(WakeSource(source))).value, Suspend).value;
      && t.phase == Elsewhere && t.wake.queue == s.wake.queue && t.wake.live == s.wake.live - {source}
      && (Stranded(t) <==> PendingInterrupt(s.wake.queue) && s.wake.live == {source})
  {
  }

  /** There is such a run. */
  lemma WakeUsedUpElsewhere(size: nat) returns (moves: seq<WakeMove>, s: Sys)
    requires size > 0
    ensures Runs.Reaches(WakeNext, Begin(size), moves, s)
    ensures s.phase == Elsewhere && Stranded(s)
  {
    moves, s := [], Begin(size);
    moves, s := Extended(size, moves, s, Arrive(EventFailed));
    assert s.wake.queue.pending == [EventFailed];
    moves, s := Extended(size, moves, s, Suspend);
    CommandUsesUp(s, 1);
    moves, s := Extended(size, moves, s, Dispatch(WakeSource(1)));
    moves, s := Extended(size, moves, s, Suspend);
  }
}
