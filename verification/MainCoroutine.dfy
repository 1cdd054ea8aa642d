/**
 The main coroutine object of main_coroutine.c, its fields updated in place between one suspension and
 the next, and its callbacks. Every method is proved to make exactly the step `MainNode` gives it, so
 the object keeps the invariant of `MainInvariants` and never comes to a failed assert or to abort().
 */
module MainCoroutine {
  import opened ColodTypes
  import Queues = EventQueueSpec
  import opened MainNode
  import opened MainInvariants

  class MainCoroutine {
    var state: MainState
    var park: Park
    var queue: Queues.Queue
    var primary: bool
    var replication: bool
    var status: Status
    var link: Link
    var channel: Channel
    ghost var past: Past

    ghost function View(): Node
      reads this
    {
      Node(state, park, queue, primary, replication, status, link, channel, past)
    }

    constructor (size: nat, isPrimary: bool)
      ensures View() == Start(size, isPrimary) && Inv(View())
    {
      state, park := StateSecondaryStartup, SetCapabilities;
      queue := Queues.Queue([], AlwaysInterrupting, size);
      primary, replication := isPrimary, false;
      status, link := Status(false, false, false, false, false), Link(false, false, false, true);
      channel, past := Channel({}, {}), Past([], false, {});
      new;
      Send(MessageHello);
      Enter(if isPrimary then StatePrimaryStartup else StateSecondaryStartup);
      StartInv(size, isPrimary);
    }

    // ---- Effects ----

    /** _colod_event_queue */
    method QueueEvent(e: ColodEvent)
      modifies this`queue, this`past
      ensures View() == MainNode.QueueEvent(old(View()), e)
    {
      past := past.(rejected := past.rejected + if Queues.Rejects(queue, e) then {e} else {});
      queue := Queues.Offer(queue, e);
    }

    /** colod_cpg_send */
    method Send(m: ColodMessage)
      modifies this`channel
      ensures View() == MainNode.Send(old(View()), m)
    {
      channel := Channel(channel.retransmit + {m}, channel.sent + {m});
    }

    /** eventqueue_set_interrupting */
    method SetInterrupting(events: set<ColodEvent>)
      modifies this`queue
      ensures View() == MainNode.SetInterrupting(old(View()), events)
    {
      queue := queue.(interrupting := AlwaysInterrupting + events);
    }

    /** eventqueue_remove */
    method Take() returns (e: ColodEvent)
      requires queue.pending != []
      modifies this`queue, this`past
      ensures e == Queues.Head(old(queue)) && View() == Taken(old(View()))
    {
      e := Queues.Head(queue);
      past := past.(autoquitTaken := past.autoquitTaken || e == EventAutoquit);
      queue := Queues.Remove(queue);
    }

    ghost method Note(s: MainState)
      modifies this`past
      ensures View() == Record(old(View()), s)
    {
      past := past.(history := past.history + [s]);
    }

    // ---- Entering a state ----

    /** The head of _colod_main_co's loop, up to the new state's first suspension */
    method Enter(s: MainState)
      modifies this
      ensures View() == Become(old(View()), s)
    {
      state, status := s, status.(transitioning := false);
      Note(s);
      match s
      case StateSecondaryStartup => park := SetCapabilities;
      case StateSecondaryWait =>
        SetInterrupting(DISCARDED_IN_WAIT);
        park := WaitResume;
      case StateSecondaryColoRunning => EnterColo();
      case StatePrimaryStartup =>
        Note(StatePrimaryWait);
        EnterPrimaryWait();
      case StatePrimaryWait => EnterPrimaryWait();
      case StatePrimaryStartMigration =>
        SetInterrupting(SYNC_ONLY);
        park := SetCapabilities;
      case StatePrimaryColoRunning => EnterColo();
      case StateFailoverSync =>
        Send(MessageFailover);
        park := PopEvent;
      case StateFailover =>
        SetInterrupting({});
        park := Yank;
      case StateFailedPeerFailover =>
        status := status.(peerFailover := true);
        Note(StateFailed);
        EnterFailed();
      case StateFailed => EnterFailed();
      case StateQuit => park := Ended;
      case StateAutoquit =>
        status := status.(failed := true);
        Send(MessageFailed);
        park := PopEvent;
    }

    method EnterPrimaryWait()
      modifies this`state, this`primary, this`replication, this`park
      ensures View() == PrimaryWait(old(View()))
    {
      state, primary, replication, park := StatePrimaryWait, true, false, PopEvent;
    }

    method EnterColo()
      modifies this`replication, this`queue, this`park
      ensures View() == ColoRunning(old(View()).(replication := true))
    {
      replication := true;
      SetInterrupting(SYNC_ONLY);
      park := if primary then WaitResume else PopEvent;
    }

    method EnterFailed()
      modifies this`state, this`status, this`channel, this`park
      ensures View() == FailedEntry(old(View()))
    {
      state, status := StateFailed, status.(failed := true);
      Send(MessageFailed);
      park := Stop;
    }

    /** handle_always_interrupting */
    method HandleAlwaysInterrupting(e: ColodEvent)
      modifies this
      ensures View() == AlwaysInterrupt(old(View()), e)
    {
      match e
      case EventFailed => Enter(StateFailed);
      case EventPeerFailover => Enter(StateFailedPeerFailover);
      case EventQuit => Enter(StateQuit);
      case EventAutoquit => Enter(StateAutoquit);
      case _ => park := Aborted;
    }

    /** handle_event_failover */
    method HandleEventFailover(e: ColodEvent)
      modifies this
      ensures View() == MainNode.HandleEventFailover(old(View()), e)
    {
      if e == EventFailoverSync {
        Enter(StateFailoverSync);
      } else {
        park := Aborted;
      }
    }

    // ---- The states, resumed after a command or a wait ----

    /** What the command wrapper queues */
    method AfterCommand(o: Outcome)
      modifies this`queue, this`past
      ensures View() == MainNode.AfterCommand(old(View()), o)
    {
      match o
      case CommandFailed => QueueEvent(EventFailed);
      case CommandOk(yanked) => if yanked { QueueEvent(EventFailoverSync); }
      case CommandError(yanked) => if yanked { QueueEvent(EventFailoverSync); }
      case ArrayDone(yanked) => if yanked { QueueEvent(EventFailoverSync); }
      case _ =>
    }

    method SecondaryStartup(o: Outcome)
      modifies this
      ensures View() == Become(MainNode.AfterCommand(old(View()), o),
                               if o.CommandOk? then StateSecondaryWait else StateFailed)
    {
      AfterCommand(o);
      if o.CommandOk? {
        Enter(StateSecondaryWait);
      } else {
        Enter(StateFailed);
      }
    }

    method SecondaryWait(o: Outcome)
      requires state == StateSecondaryWait && Enabled(View(), o) && !o.Serve?
      modifies this
      ensures View() == Step(old(View()), o)
    {
      if o.EventArrived? {
        Enter(StateSecondaryColoRunning);
      } else if queue.pending == [] {
        park := Aborted;
      } else {
        park := PopEvent;
      }
    }

    /** _colod_colo_running_co between its waits */
    method ColoRunningResumed(o: Outcome)
      modifies this
      ensures View() == ColoRunningStep(old(View()), o)
    {
      match park
      case WaitResume => park := if o.EventArrived? then WaitResumeAgain else PopEvent;
      case WaitResumeAgain => park := if o.EventArrived? then YellowDelay else PopEvent;
      case YellowDelay =>
        if o.EventArrived? && link.yellow && !link.peerYellow {
          Enter(StateFailed);
        } else {
          park := PopEvent;
        }
      case _ => park := Aborted;
    }

    /** The handle_event label: an interrupt must be pending, and is waited for. */
    method GotoHandleEvent()
      modifies this`park
      ensures View() == HandleEvent(old(View()))
    {
      park := if Queues.PendingInterrupt(queue) then PopInterrupt else Aborted;
    }

    method GoOnUnlessInterrupted(next: Park)
      modifies this`park
      ensures View() == Unless(old(View()), next)
    {
      if Queues.PendingInterrupt(queue) {
        GotoHandleEvent();
      } else {
        park := next;
      }
    }

    /** The qmp_error label */
    method GotoQmpError(o: Outcome)
      modifies this
      ensures View() == QmpError(old(View()), o)
    {
      if o.Interrupted? {
        GotoHandleEvent();
      } else if o.CommandError? {
        park := MigrateCancel(EventFailoverSync);
      } else {
        Enter(StateFailed);
      }
    }

    /** _colod_primary_start_migration_co between its commands and waits */
    method StartMigration(o: Outcome)
      modifies this
      ensures View() == MigrationStep(old(View()), o)
    {
      AfterCommand(o);
      match park
      case SetCapabilities => if o.CommandOk? { GoOnUnlessInterrupted(StartCommands); } else { GotoQmpError(o); }
      case StartCommands =>
        if o.ArrayDone? {
          GoOnUnlessInterrupted(WaitPreSwitchover);
          if park == WaitPreSwitchover {
            status := status.(transitioning := true);
          }
        } else if o.CommandOk? {
          GoOnUnlessInterrupted(StartCommands);
        } else {
          GotoQmpError(o);
        }
      case WaitPreSwitchover => if o.EventArrived? { park := SwitchoverCommands; } else { GotoQmpError(o); }
      case SwitchoverCommands =>
        if o.ArrayDone? {
          GoOnUnlessInterrupted(MigrateContinue);
        } else if o.CommandOk? {
          GoOnUnlessInterrupted(SwitchoverCommands);
        } else {
          GotoQmpError(o);
        }
      case MigrateContinue => if o.CommandOk? { GoOnUnlessInterrupted(WaitColo); } else { GotoQmpError(o); }
      case WaitColo => if o.EventArrived? { Enter(StatePrimaryColoRunning); } else { GotoQmpError(o); }
      case MigrateCancel(e) => if o.CommandOk? { HandleEventFailover(e); } else { Enter(StateFailed); }
      case _ =>
        park := Aborted;
    }

    /** _colod_failover_co */
    method Failover(o: Outcome)
      modifies this
      ensures View() == FailoverStep(old(View()), o)
    {
      match park
      case Yank =>
        if o.CommandOk? {
          status, park := status.(transitioning := true), FailoverCommands;
        } else {
          Enter(StateFailed);
        }
      case FailoverCommands =>
        AfterCommand(o);
        if o.ArrayDone? {
          Enter(StatePrimaryWait);
        } else if !(o.CommandOk? || o.CommandError?) || Queues.PendingInterrupt(queue) {
          Enter(StateFailed);
        }
      case _ => park := Aborted;
    }

    // ---- The states, resumed with an event ----

    method SecondaryWaitHandle(e: ColodEvent)
      modifies this
      ensures old(state) == StateSecondaryWait ==> View() == Handle(old(View()), e)
    {
      if e in AlwaysInterrupting {
        HandleAlwaysInterrupting(e);
      } else {
        if e == EventFailoverSync {
          link := link.(peerFailed := false);
        }
        park := WaitResume;
      }
    }

    /** The event loop of _colod_colo_running_co */
    method ColoRunningHandle(e: ColodEvent)
      modifies this
      ensures View() == MainNode.ColoRunningHandle(old(View()), e)
    {
      if e == EventFailoverSync {
        HandleEventFailover(e);
      } else if e in AlwaysInterrupting {
        HandleAlwaysInterrupting(e);
      } else if (e == EventYellow || e == EventUnyellow) && primary && link.yellow && !link.peerYellow {
        Enter(StateFailed);
      }
    }

    method PrimaryWaitHandle(e: ColodEvent)
      modifies this
      ensures old(state) == StatePrimaryWait ==> View() == Handle(old(View()), e)
    {
      match e
      case EventStartMigration => Enter(StatePrimaryStartMigration);
      case EventFailed => Enter(StateFailed);
      case EventQuit => Enter(StateQuit);
      case EventAutoquit => Enter(StateAutoquit);
      case _ =>
    }

    /** _colod_failover_sync_co */
    method FailoverSyncHandle(e: ColodEvent)
      modifies this
      ensures old(state) == StateFailoverSync ==> View() == Handle(old(View()), e)
    {
      if e == EventFailoverWin {
        Enter(StateFailover);
      } else if e in AlwaysInterrupting {
        HandleAlwaysInterrupting(e);
      }
    }

    method FailedHandle(e: ColodEvent)
      modifies this
      ensures old(state) == StateFailed ==> View() == Handle(old(View()), e)
    {
      match e
      case EventPeerFailover => status := status.(peerFailover := true);
      case EventQuit => Enter(StateQuit);
      case EventAutoquit =>
        if status.qemuQuit {
          status := status.(loopQuit := true);
        } else {
          Enter(StateAutoquit);
        }
      case _ =>
    }

    method AutoquitHandle(e: ColodEvent)
      modifies this
      ensures old(state) == StateAutoquit ==> View() == Handle(old(View()), e)
    {
      match e
      case EventPeerFailover => status := status.(peerFailover := true);
      case EventQuit => Enter(StateQuit);
      case EventFailed =>
        if status.qemuQuit {
          status := status.(loopQuit := true);
        }
      case _ =>
    }

    method HandleTaken(e: ColodEvent)
      modifies this
      ensures View() == Handle(old(View()), e)
    {
      match state
      case StateSecondaryWait => SecondaryWaitHandle(e);
      case StateSecondaryColoRunning => ColoRunningHandle(e);
      case StatePrimaryColoRunning => ColoRunningHandle(e);
      case StatePrimaryWait => PrimaryWaitHandle(e);
      case StatePrimaryStartMigration =>
        if e == EventFailoverSync {
          park := MigrateCancel(e);
        } else {
          HandleAlwaysInterrupting(e);
        }
      case StateFailoverSync => FailoverSyncHandle(e);
      case StateFailed => FailedHandle(e);
      case StateAutoquit => AutoquitHandle(e);
      case _ => park := Aborted;
    }

    // ---- Resumption and callbacks ----

    /** colod_main_co: from one suspension to the next */
    method Resume(o: Outcome)
      requires Inv(View()) && Enabled(View(), o)
      modifies this
      ensures View() == Step(old(View()), o)
      ensures Inv(View()) && park != Aborted
    {
      ApplyKeepsInv(View(), MainNode.Resume(o));
      if o.Serve? {
        var e := Take();
        HandleTaken(e);
        return;
      }
      match state
      case StateSecondaryStartup => SecondaryStartup(o);
      case StateSecondaryWait => SecondaryWait(o);
      case StatePrimaryColoRunning => ColoRunningResumed(o);
      case StatePrimaryStartMigration => StartMigration(o);
      case StateFailover => Failover(o);
      case StateFailed =>
        AfterCommand(o);
        park := PopEvent;
      case _ =>
        assert false;
    }

    /** colod_hup_cb */
    method Hup()
      requires Inv(View())
      modifies this
      ensures View() == Call(old(View()), QemuHup) && Inv(View())
    {
      CallKeepsInv(View(), QemuHup);
      status := status.(qemuQuit := true);
      QueueEvent(EventFailed);
    }

    /** colod_cpg_event_cb, for a message */
    method CpgMessage(message: ColodMessage, own: bool)
      requires Inv(View())
      modifies this
      ensures View() == Call(old(View()), Deliver(message, own)) && Inv(View())
    {
      CallKeepsInv(View(), Deliver(message, own));
      if own {
        channel := channel.(retransmit := channel.retransmit - {message});
      }
      match message
      case MessageFailover => QueueEvent(if own then EventFailoverWin else EventPeerFailover);
      case MessageHello => if link.yellow { Send(MessageYellow); }
      case MessageFailed =>
        if !own {
          link := link.(peerFailed := true);
          QueueEvent(EventFailoverSync);
        }
      case MessageYellow =>
        if !own {
          link := link.(peerYellow := true);
          QueueEvent(EventYellow);
        }
      case MessageUnyellow =>
        if !own {
          link := link.(peerYellow := false);
          QueueEvent(EventYellow);
        }
      case _ =>
    }

    /** colod_cpg_event_cb, when the peer has left the group */
    method CpgPeerLeft()
      requires Inv(View())
      modifies this
      ensures View() == Call(old(View()), PeerLeft) && Inv(View())
    {
      CallKeepsInv(View(), PeerLeft);
      link := link.(peerFailed := true);
      QueueEvent(EventFailoverSync);
    }

    /** colod_yellow_event_cb: the debounced link */
    method YellowEvent(event: ColodEvent)
      requires Inv(View()) && link.watched && event in {EventYellow, EventUnyellow}
      modifies this
      ensures View() == Call(old(View()), LinkChange(event == EventUnyellow)) && Inv(View())
    {
      CallKeepsInv(View(), LinkChange(event == EventUnyellow));
      link := link.(yellow := event == EventYellow);
      QueueEvent(event);
    }

    /** The debouncer's messages: an announcement, or one taken back */
    method Announce(message: ColodMessage)
      requires Inv(View()) && link.watched && message in LINK_MESSAGES
      modifies this
      ensures View() == Call(old(View()), MainNode.Announce(message)) && Inv(View())
    {
      CallKeepsInv(View(), MainNode.Announce(message));
      Send(message);
    }

    /**
     colod_qmp_event_cb, for a write error of the local disk; `revert` is what the debouncer takes back when it
     is shut down, if it was running and had announced a change.
     */
    method DiskFailed(revert: Option<ColodMessage>)
      requires Inv(View()) && (revert.Some? ==> link.watched && revert.value in LINK_MESSAGES)
      modifies this
      ensures View() == Call(old(View()), DiskError(revert)) && Inv(View())
    {
      CallKeepsInv(View(), DiskError(revert));
      link := link.(yellow := true);
      Send(MessageYellow);
      link := link.(watched := false);
      if revert.Some? {
        Send(revert.value);
      }
      QueueEvent(EventYellow);
    }

    /** colod_qmp_event_cb, for a broken replication, and a client's yank */
    method ReplicationFailed()
      requires Inv(View())
      modifies this
      ensures View() == Call(old(View()), ReplicationError) && Inv(View())
    {
      CallKeepsInv(View(), ReplicationError);
      QueueEvent(EventFailoverSync);
    }

    /** colod_qmp_event_cb, for a failed migration: only a node that migrates is concerned. */
    method MigrationReportedFailed()
      requires Inv(View())
      modifies this
      ensures View() == if CallbackEnabled(old(View()), MigrationFailed) then Call(old(View()), MigrationFailed)
                        else old(View())
      ensures Inv(View())
    {
      if state == StatePrimaryStartMigration {
        CallKeepsInv(View(), MigrationFailed);
        QueueEvent(EventFailoverSync);
      }
    }

    /** colod_start_migration: refused unless the node is a primary on its own */
    method RequestMigration() returns (accepted: bool)
      requires Inv(View())
      modifies this
      ensures accepted == CallbackEnabled(old(View()), ClientStartMigration)
      ensures View() == if accepted then Call(old(View()), ClientStartMigration) else old(View())
      ensures Inv(View())
    {
      if state != StatePrimaryWait {
        return false;
      }
      CallKeepsInv(View(), ClientStartMigration);
      QueueEvent(EventStartMigration);
      return true;
    }

    /** colod_autoquit */
    method RequestAutoquit()
      requires Inv(View())
      modifies this
      ensures View() == Call(old(View()), ClientAutoquit) && Inv(View())
    {
      CallKeepsInv(View(), ClientAutoquit);
      QueueEvent(EventAutoquit);
    }

    /** colod_set_peer: a new peer has not failed, and is not yellow. */
    method SetPeer()
      requires Inv(View())
      modifies this
      ensures View() == Call(old(View()), ClientSetPeer) && Inv(View())
    {
      CallKeepsInv(View(), ClientSetPeer);
      link := link.(peerFailed := false, peerYellow := false);
    }
  }
}
