/**
 The main coroutine's side of the event queue: _colod_event_queue and _colod_event_wait on the queue
 object, proved against `WakeUp` for as long as the queue's numbers stay in step.
 */
module EventWaiter {
  import opened ColodTypes
  import opened EventQueueSpec
  import opened WakeUp
  import Queues = EventQueue

  class EventWaiter {
    const queue: Queues.EventQueue
    var wakeSourceId: nat
    var live: set<nat>
    var nextId: nat

    ghost predicate Valid()
      reads this, queue
    {
      queue.Valid() && queue.interruptingAlways == AlwaysInterrupting
    }

    ghost function View(): Wake
      reads this, queue
    {
      Wake(queue.View(), wakeSourceId, live, nextId)
    }

    constructor (size: nat)
      ensures Valid() && fresh(queue) && queue.account.inStep
      ensures View() == Begin(size).wake
    {
      queue := new Queues.EventQueue(size, AlwaysInterrupting);
      wakeSourceId, live, nextId := 0, {}, 1;
    }

    method QueueEvent(e: ColodEvent)
      requires Valid()
      modifies this, queue
      ensures Valid()
      ensures queue.account.inStep ==> View() == WakeUp.QueueEvent(old(View()), e)
    {
      ghost var w := View();
      Arm(e);
      Offer(e);
      assert queue.account.inStep ==> View() == WakeUp.QueueEvent(w, e);
    }

    /** The wake source an event needs, unless one is remembered. */
    method Arm(e: ColodEvent)
      requires Valid()
      modifies this
      ensures Valid() && View() == WakeUp.Arm(old(View()), e)
    {
      if wakeSourceId == 0 {
        if queue.used == 0 || e in queue.interrupting {
          wakeSourceId := nextId;
          live := live + {nextId};
          nextId := nextId + 1;
        }
      }
    }

    /** The event joins the queue unless it is the one that would be served last. */
    method Offer(e: ColodEvent)
      requires Valid()
      modifies queue
      ensures Valid()
      ensures queue.account.inStep ==> queue.View() == EventQueueSpec.Offer(old(queue.View()), e)
    {
      var last := queue.LastEvent();
      if last != Some(e) {
        var _ := queue.Add(e);
      }
    }

    method EventWait(current: Source) returns (event: Option<ColodEvent>)
      requires Valid()
      modifies this`wakeSourceId, queue
      ensures Valid()
      ensures queue.account.inStep == old(queue.account.inStep)
      ensures queue.account.inStep ==> (View(), event) == WakeUp.EventWait(old(View()), current)
    {
      if current == WakeSource(wakeSourceId) {
        wakeSourceId := 0;
      }
      if queue.used == 0 || wakeSourceId != 0 {
        return None;
      }
      event := queue.Remove();
    }

    /** A dispatched wake source goes away, and its destroy callback forgets whatever is remembered. */
    method EndDispatch(current: Source)
      requires Valid()
      modifies this`wakeSourceId, this`live
      ensures Valid() && View() == WakeUp.EndDispatch(old(View()), current)
    {
      if current.WakeSource? {
        live := live - {current.id};
        wakeSourceId := 0;
      }
    }

    /** eventqueue_set_interrupting, on entering a state */
    method SetInterrupting(events: set<ColodEvent>)
      requires Valid()
      modifies queue
      ensures Valid() && queue.account == old(queue.account)
      ensures WakeNext(Sys(old(View()), Running(Foreign)), WakeUp.SetInterrupting(events)) ==
              Some(Sys(View(), Running(Foreign)))
    {
      queue.SetInterrupting(events);
    }

    /**
     _colod_qmp_event_wait_co woken by a wake source, and colod_event_wait after it if there is an interrupt:
     where the coroutine is then.
     */
    method QmpEventWoken(current: Source) returns (phase: Phase)
      requires Valid()
      modifies this`wakeSourceId, this`live, queue
      ensures Valid()
      ensures queue.account.inStep ==> Sys(View(), phase) == InterruptQmpWait(old(View()), current)
    {
      if queue.used == 0 {
        return AssertFailed;
      }
      var interrupt := queue.PendingInterrupt();
      PendingInterruptIff(queue.View());
      if !interrupt {
        EndDispatch(current);
        return QmpWaiting;
      }
      var event := EventWait(current);
      if event.None? {
        EndDispatch(current);
        return Waiting;
      }
      return Running(current);
    }
  }
}
