/**
 What every run of one node keeps: no assertion of the main coroutine fails, roles change only through
 a failover, failure is final and announced, and a request to quit automatically is not forgotten.
 */
module MainInvariants {
  import opened ColodTypes
  import opened EventQueueSpec
  import opened MainNode
  import Runs

  const FAILED_STATES: set<MainState> := {StateFailed, StateAutoquit, StateQuit}

  /** Each state is only ever suspended at its own places, never at a failed assertion. */
  predicate ParkFits(n: Node) {
    match n.state
    case StateSecondaryStartup => n.park == SetCapabilities
    case StateSecondaryWait => n.park == WaitResume || (n.park == PopEvent && n.queue.pending != [])
    case StateSecondaryColoRunning => n.park == PopEvent
    case StatePrimaryWait => n.park == PopEvent
    case StatePrimaryStartMigration =>
      n.park in {SetCapabilities, StartCommands, WaitPreSwitchover, SwitchoverCommands, MigrateContinue, WaitColo,
                 PopInterrupt, MigrateCancel(EventFailoverSync)}
    case StatePrimaryColoRunning => n.park in {WaitResume, WaitResumeAgain, YellowDelay, PopEvent}
    case StateFailoverSync => n.park == PopEvent
    case StateFailover => n.park in {Yank, FailoverCommands}
    case StateFailed => n.park in {Stop, PopEvent}
    case StateQuit => n.park == Ended
    case StateAutoquit => n.park == PopEvent
    case StatePrimaryStartup => false
    case StateFailedPeerFailover => false
  }

  /** The queue lets through what the state can handle, and handle_event has something to handle. */
  predicate InterruptsFit(n: Node) {
    && AlwaysInterrupting <= n.queue.interrupting
    && (n.state in {StatePrimaryStartMigration, StatePrimaryColoRunning, StateSecondaryColoRunning,
                    StateFailoverSync} ==>
          n.queue.interrupting == AlwaysInterrupting + SYNC_ONLY)
    && (n.park == PopInterrupt ==> PendingInterrupt(n.queue))
  }

  function Tail(h: seq<MainState>, k: nat): seq<MainState> {
    if k <= |h| then h[|h| - k..] else h
  }

  /** Each state fixes the role, and a secondary on its way to promotion has come through COLO. */
  predicate RolesFit(n: Node) {
    && n.past.history != [] && n.past.history[|n.past.history| - 1] == n.state
    && (match n.state
        case StateSecondaryStartup => !n.primary && !n.replication
        case StateSecondaryWait => !n.primary && !n.replication
        case StateSecondaryColoRunning => !n.primary && n.replication
        case StatePrimaryWait => n.primary && !n.replication
        case StatePrimaryStartMigration => n.primary && !n.replication
        case StatePrimaryColoRunning => n.primary && n.replication
        case StateFailoverSync =>
          n.primary || (n.replication && Tail(n.past.history, 2) == [StateSecondaryColoRunning, StateFailoverSync])
        case StateFailover =>
          || n.primary
          || (n.replication && Tail(n.past.history, 3) == [StateSecondaryColoRunning, StateFailoverSync, StateFailover])
        case _ => true)
  }

  predicate FailureFits(n: Node) {
    && (n.status.failed ==> n.state in FAILED_STATES && MessageFailed in n.channel.sent)
    && (n.state in {StateFailed, StateAutoquit} ==> n.status.failed)
  }

  /** Unless an EVENT_FAILED was lost to a full queue, QEMU's exit and a request to quit meet. */
  predicate AutoquitKept(n: Node) {
    EventFailed !in n.past.rejected ==>
      && (n.status.qemuQuit && n.state !in FAILED_STATES ==> EventFailed in n.queue.pending)
      && (n.past.autoquitTaken ==> n.state in FAILED_STATES)
      && (n.past.autoquitTaken && n.state == StateFailed ==> n.status.loopQuit)
      && (n.status.qemuQuit && n.state == StateAutoquit ==> n.status.loopQuit || EventFailed in n.queue.pending)
      && (n.status.qemuQuit && n.state == StateQuit && n.past.autoquitTaken ==>
            n.status.loopQuit || EventFailed in n.queue.pending)
  }

  predicate Inv(n: Node) {
    ParkFits(n) && InterruptsFit(n) && RolesFit(n) && FailureFits(n) && AutoquitKept(n)
  }

  lemma StartInv(size: nat, primary: bool)
    ensures Inv(Start(size, primary))
  {
  }

  /** `n` apart from the queue, whose events and losses have grown. */
  predicate Grown(n: Node, r: Node) {
    && r == n.(queue := r.queue, past := n.past.(rejected := r.past.rejected))
    && r.queue == n.queue.(pending := r.queue.pending)
    && n.past.rejected <= r.past.rejected
    && (forall x :: x in n.queue.pending ==> x in r.queue.pending)
    && (PendingInterrupt(n.queue) ==> PendingInterrupt(r.queue) && Head(r.queue) == Head(n.queue))
  }

  lemma QueueEventGrows(n: Node, e: ColodEvent)
    ensures Grown(n, QueueEvent(n, e))
    ensures e in QueueEvent(n, e).queue.pending || e in QueueEvent(n, e).past.rejected
  {
    OfferKeeps(n.queue, e);
  }

  lemma GrownKeepsInv(n: Node, r: Node)
    requires Inv(n) && Grown(n, r)
    ensures Inv(r)
  {
    if n.queue.pending != [] {
      assert n.queue.pending[0] in r.queue.pending;
    }
  }

  /** Flags no invariant mentions. */
  predicate SameButFlags(n: Node, r: Node) {
    r == n.(link := r.link, channel := r.channel) && n.channel.sent <= r.channel.sent
  }

  lemma CallbackFlags(n: Node, c: Callback)
    requires !c.QemuHup?
    ensures SameButFlags(n, Flags(n, c))
  {
  }

  /** A callback leaves the node where it is, and offers its queue at most one event. */
  lemma CallStays(n: Node, c: Callback)
    ensures var r := Call(n, c);
      && r.state == n.state && r.park == n.park && r.past.history == n.past.history
      && r.queue == (match Queued(c) case Some(e) => Offer(n.queue, e) case None => n.queue)
      && (|n.queue.pending| < n.queue.size ==> r.past == n.past)
  {
    if !c.QemuHup? {
      CallbackFlags(n, c);
    }
  }

  lemma FlagsKeepInv(n: Node, r: Node)
    requires Inv(n) && SameButFlags(n, r)
    ensures Inv(r)
  {
  }

  lemma HupKeepsInv(n: Node)
    requires Inv(n)
    ensures Inv(Call(n, QemuHup))
  {
    var h := n.(status := n.status.(qemuQuit := true));
    var r := QueueEvent(h, EventFailed);
    QueueEventGrows(h, EventFailed);
    if n.queue.pending != [] {
      assert n.queue.pending[0] in r.queue.pending;
    }
  }

  lemma CallKeepsInv(n: Node, c: Callback)
    requires Inv(n) && CallbackEnabled(n, c)
    ensures Inv(Call(n, c))
  {
    if c.QemuHup? {
      HupKeepsInv(n);
    } else {
      var m := Flags(n, c);
      CallbackFlags(n, c);
      FlagsKeepInv(n, m);
      if Queued(c).Some? {
        QueueEventGrows(m, Queued(c).value);
        GrownKeepsInv(m, Call(n, c));
      }
    }
  }

  /** The head is served; every other pending event stays. */
  lemma TakenKeeps(n: Node)
    requires n.queue.pending != []
    ensures EventFailed in n.queue.pending ==> Head(n.queue) == EventFailed || EventFailed in Taken(n).queue.pending
  {
    if EventFailed in n.queue.pending && Head(n.queue) != EventFailed {
      RemoveKeepsOthers(n.queue, EventFailed);
    }
  }

  /** What must hold of a node about to enter `s`. */
  predicate Ready(n: Node, s: MainState) {
    && AlwaysInterrupting <= n.queue.interrupting
    && s !in {StatePrimaryStartup, StateSecondaryStartup}
    && RoleReady(n, s)
    && (s == StateFailoverSync ==> n.queue.interrupting == AlwaysInterrupting + SYNC_ONLY)
    && (n.status.failed ==> s in {StateAutoquit, StateQuit} && MessageFailed in n.channel.sent)
    && AutoquitReady(n, s)
  }

  predicate RoleReady(n: Node, s: MainState) {
    match s
    case StateSecondaryWait => !n.primary && !n.replication
    case StateSecondaryColoRunning => !n.primary
    case StatePrimaryStartMigration => n.primary && !n.replication
    case StatePrimaryColoRunning => n.primary
    case StateFailoverSync => n.primary || (n.replication && Tail(n.past.history, 1) == [StateSecondaryColoRunning])
    case StateFailover =>
      n.primary || (n.replication && Tail(n.past.history, 2) == [StateSecondaryColoRunning, StateFailoverSync])
    case _ => true
  }

  predicate AutoquitReady(n: Node, s: MainState) {
    EventFailed !in n.past.rejected ==>
      if s in {StateFailed, StateFailedPeerFailover} then !n.past.autoquitTaken
      else if s in {StateAutoquit, StateQuit} then
        n.status.qemuQuit && n.past.autoquitTaken ==> n.status.loopQuit || EventFailed in n.queue.pending
      else !n.past.autoquitTaken && (n.status.qemuQuit ==> EventFailed in n.queue.pending)
  }

  lemma BecomeParks(n: Node, s: MainState)
    requires Ready(n, s)
    ensures ParkFits(Become(n, s)) && InterruptsFit(Become(n, s))
  {
  }

  lemma BecomeRoles(n: Node, s: MainState)
    requires Ready(n, s)
    ensures RolesFit(Become(n, s))
  {
    hide Tail;
    TailEntered(n.past.history, s);
  }

  lemma TailEntered(h: seq<MainState>, s: MainState)
    ensures Tail(h + [s], 2) == Tail(h, 1) + [s]
    ensures Tail(h + [s], 3) == Tail(h, 2) + [s]
  {
    TailSnoc(h, s, 1);
    TailSnoc(h, s, 2);
  }

  lemma TailSnoc(h: seq<MainState>, s: MainState, k: nat)
    ensures Tail(h + [s], k + 1) == Tail(h, k) + [s]
  {
    if k <= |h| {
      var cut := |h| - k;
      assert h + [s] == h[..cut] + (h[cut..] + [s]);
      assert |h[..cut]| == cut;
    }
  }

  lemma BecomeFails(n: Node, s: MainState)
    requires Ready(n, s) && (s == StateAutoquit ==> n.past.autoquitTaken)
    ensures FailureFits(Become(n, s)) && AutoquitKept(Become(n, s))
  {
  }

  lemma BecomeInv(n: Node, s: MainState)
    requires Ready(n, s)
    requires s == StateAutoquit ==> n.past.autoquitTaken
    ensures Inv(Become(n, s))
  {
    hide Become;
    BecomeParks(n, s);
    BecomeRoles(n, s);
    BecomeFails(n, s);
  }

  /** Outside the failed states an always interrupting event may be acted on. */
  lemma AlwaysInterruptInv(n: Node)
    requires Inv(n) && n.state !in FAILED_STATES && n.queue.pending != [] && Head(n.queue) in AlwaysInterrupting
    ensures Inv(AlwaysInterrupt(Taken(n), Head(n.queue)))
  {
    TakenKeeps(n);
    var s := match Head(n.queue)
      case EventFailed => StateFailed
      case EventPeerFailover => StateFailedPeerFailover
      case EventQuit => StateQuit
      case _ => StateAutoquit;
    BecomeInv(Taken(n), s);
  }

  /** An event may be dropped without leaving the state, unless it is one that must not be lost. */
  lemma DropInv(n: Node)
    requires Inv(n) && n.queue.pending != [] && n.park == PopEvent && n.state != StateSecondaryWait
    requires Head(n.queue) !in {EventFailed, EventAutoquit}
    ensures Inv(Taken(n))
  {
    TakenKeeps(n);
  }

  /** An event that is neither always interrupting nor the failure's may lead to another working state. */
  lemma MoveOnInv(n: Node, s: MainState)
    requires Inv(n) && n.state !in FAILED_STATES && n.queue.pending != []
    requires Head(n.queue) !in {EventFailed, EventAutoquit}
    requires s !in FAILED_STATES + {StateFailedPeerFailover, StatePrimaryStartup, StateSecondaryStartup}
    requires RoleReady(n, s) && (s == StateFailoverSync ==> n.queue.interrupting == AlwaysInterrupting + SYNC_ONLY)
    ensures Inv(Become(Taken(n), s))
  {
    TakenKeeps(n);
    BecomeInv(Taken(n), s);
  }

  lemma GiveUpInv(n: Node)
    requires Inv(n) && n.state !in FAILED_STATES && n.queue.pending != [] && Head(n.queue) != EventAutoquit
    ensures Inv(Become(Taken(n), StateFailed))
  {
    BecomeInv(Taken(n), StateFailed);
  }

  lemma ServeFailedInv(n: Node)
    requires Inv(n) && Enabled(n, Serve) && n.state == StateFailed
    ensures Inv(Step(n, Serve))
  {
    hide Become;
    var e := Head(n.queue);
    if e == EventQuit {
      QuitInv(n);
    } else if e == EventAutoquit && !n.status.qemuQuit {
      BecomeInv(Taken(n), StateAutoquit);
    } else {
      StayInv(n);
    }
  }

  lemma QuitInv(n: Node)
    requires Inv(n) && n.queue.pending != [] && n.state in {StateFailed, StateAutoquit} && Head(n.queue) == EventQuit
    ensures Inv(Become(Taken(n), StateQuit))
  {
    TakenKeeps(n);
    BecomeInv(Taken(n), StateQuit);
  }

  /** A failed node that stays in its state ends the main loop when both halves of an automatic quit have come. */
  lemma StayInv(n: Node)
    requires Inv(n) && Enabled(n, Serve) && n.state in {StateFailed, StateAutoquit} && Head(n.queue) != EventQuit
    requires n.state == StateFailed && Head(n.queue) == EventAutoquit ==> n.status.qemuQuit
    ensures Inv(Step(n, Serve))
  {
    TakenKeeps(n);
  }

  lemma ServeAutoquitInv(n: Node)
    requires Inv(n) && Enabled(n, Serve) && n.state == StateAutoquit
    ensures Inv(Step(n, Serve))
  {
    hide Become;
    if Head(n.queue) == EventQuit {
      QuitInv(n);
    } else {
      StayInv(n);
    }
  }

  lemma ServeKeepsInv(n: Node)
    requires Inv(n) && Enabled(n, Serve)
    ensures Inv(Step(n, Serve))
  {
    var e := Head(n.queue);
    if n.state == StateFailed {
      ServeFailedInv(n);
    } else if n.state == StateAutoquit {
      ServeAutoquitInv(n);
    } else if e in AlwaysInterrupting && !(n.state == StatePrimaryWait && e == EventPeerFailover) {
      AlwaysInterruptInv(n);
    } else {
      ServeOtherInv(n);
    }
  }

  lemma ServeOtherInv(n: Node)
    requires Inv(n) && Enabled(n, Serve) && n.state !in FAILED_STATES
    requires Head(n.queue) !in AlwaysInterrupting || (n.state == StatePrimaryWait && Head(n.queue) == EventPeerFailover)
    ensures Inv(Step(n, Serve))
  {
    if n.state == StateSecondaryWait || n.state == StatePrimaryStartMigration {
      ServeWhilePreparingInv(n);
    } else if n.state == StatePrimaryWait || n.state == StateFailoverSync {
      ServeWhileWaitingInv(n);
    } else {
      ServeColoInv(n);
    }
  }

  lemma ServeWhileWaitingInv(n: Node)
    requires Inv(n) && Enabled(n, Serve) && n.state in {StatePrimaryWait, StateFailoverSync}
    requires Head(n.queue) !in AlwaysInterrupting || (n.state == StatePrimaryWait && Head(n.queue) == EventPeerFailover)
    ensures Inv(Step(n, Serve))
  {
    hide Become;
    if n.state == StatePrimaryWait && Head(n.queue) == EventStartMigration {
      MoveOnInv(n, StatePrimaryStartMigration);
    } else if n.state == StateFailoverSync && Head(n.queue) == EventFailoverWin {
      MoveOnInv(n, StateFailover);
    } else {
      DropInv(n);
    }
  }

  lemma ServeWhilePreparingInv(n: Node)
    requires Inv(n) && Enabled(n, Serve) && n.state in {StateSecondaryWait, StatePrimaryStartMigration}
    requires Head(n.queue) !in AlwaysInterrupting
    ensures Inv(Step(n, Serve))
  {
    TakenKeeps(n);
    assert n.state == StatePrimaryStartMigration ==> Head(n.queue) in n.queue.interrupting;
  }

  lemma ServeColoInv(n: Node)
    requires Inv(n) && Enabled(n, Serve) && n.state in {StatePrimaryColoRunning, StateSecondaryColoRunning}
    requires Head(n.queue) !in AlwaysInterrupting
    ensures Inv(Step(n, Serve))
  {
    hide Become;
    DropInv(n);
    GiveUpInv(n);
    if Head(n.queue) == EventFailoverSync {
      MoveOnInv(n, StateFailoverSync);
    }
  }

  /** A command's outcome leaves a node on which the invariant still holds. */
  lemma AfterCommandInv(n: Node, o: Outcome)
    requires Inv(n)
    ensures Inv(AfterCommand(n, o)) && Grown(n, AfterCommand(n, o))
  {
    if o.CommandFailed? || ((o.CommandOk? || o.CommandError? || o.ArrayDone?) && o.yanked) {
      QueueEventGrows(n, if o.CommandFailed? then EventFailed else EventFailoverSync);
    }
    GrownKeepsInv(n, AfterCommand(n, o));
  }

  lemma BecomeFromInv(n: Node, s: MainState)
    requires Inv(n) && n.state !in FAILED_STATES
    requires s == StateFailed ||
             s !in FAILED_STATES + {StateFailedPeerFailover, StatePrimaryStartup, StateSecondaryStartup}
    requires RoleReady(n, s) && (s == StateFailoverSync ==> n.queue.interrupting == AlwaysInterrupting + SYNC_ONLY)
    ensures Inv(Become(n, s))
  {
    BecomeInv(n, s);
  }

  lemma UnlessInv(n: Node, next: Park)
    requires Inv(n) && n.state == StatePrimaryStartMigration
    requires next in {StartCommands, WaitPreSwitchover, SwitchoverCommands, MigrateContinue, WaitColo}
    ensures Inv(Unless(n, next)) && Inv(Transition(Unless(n, next)))
  {
  }

  lemma QmpErrorInv(n: Node, o: Outcome)
    requires Inv(n) && n.state == StatePrimaryStartMigration && (o.Interrupted? ==> PendingInterrupt(n.queue))
    ensures Inv(QmpError(n, o))
  {
    BecomeFromInv(n, StateFailed);
  }

  const MIGRATION_PARKS: set<Park> := {SetCapabilities, StartCommands, WaitPreSwitchover, SwitchoverCommands,
                                       MigrateContinue, WaitColo, MigrateCancel(EventFailoverSync)}

  /** The next place of a migration that no interrupt stops. */
  lemma SwitchoverInv(n: Node)
    requires Inv(n) && n.state == StatePrimaryStartMigration && n.park == WaitPreSwitchover
    ensures Inv(n.(park := SwitchoverCommands))
  {
  }

  /** One of the steps that talk to QEMU, at place `p`, and go on to `next` if it succeeds. */
  lemma MigrationInvAt(n: Node, o: Outcome)
    requires Inv(n) && Enabled(n, o) && !o.Serve? && n.state == StatePrimaryStartMigration
    requires n.primary && !n.replication && n.park in MIGRATION_PARKS
    requires n.queue.interrupting == AlwaysInterrupting + SYNC_ONLY
    ensures Inv(Step(n, o))
  {
    hide Inv, Become;
    AfterCommandInv(n, o);
    var m := AfterCommand(n, o);
    if n.park.MigrateCancel? {
      BecomeFromInv(m, if o.CommandOk? then StateFailoverSync else StateFailed);
    } else if n.park == WaitColo && o.EventArrived? {
      BecomeFromInv(n, StatePrimaryColoRunning);
    } else if n.park == WaitPreSwitchover && o.EventArrived? {
      SwitchoverInv(n);
    } else {
      QmpErrorInv(m, o);
      var next := match n.park
        case SetCapabilities => StartCommands
        case StartCommands => WaitPreSwitchover
        case SwitchoverCommands => MigrateContinue
        case _ => WaitColo;
      UnlessInv(m, next);
    }
  }

  lemma MigrationInv(n: Node, o: Outcome)
    requires Inv(n) && Enabled(n, o) && !o.Serve? && n.state == StatePrimaryStartMigration
    ensures Inv(Step(n, o))
  {
    hide Step;
    MigrationInvAt(n, o);
  }

  lemma SecondaryStartupInv(n: Node, o: Outcome)
    requires Inv(n) && Enabled(n, o) && n.state == StateSecondaryStartup
    ensures Inv(Step(n, o))
  {
    hide Become;
    AfterCommandInv(n, o);
    BecomeFromInv(AfterCommand(n, o), if o.CommandOk? then StateSecondaryWait else StateFailed);
  }

  lemma SecondaryWaitInv(n: Node, o: Outcome)
    requires Inv(n) && Enabled(n, o) && !o.Serve? && n.state == StateSecondaryWait
    ensures Inv(Step(n, o))
  {
    hide Become;
    BecomeFromInv(n, StateSecondaryColoRunning);
  }

  lemma FailoverInv(n: Node, o: Outcome)
    requires Inv(n) && Enabled(n, o) && !o.Serve? && n.state == StateFailover
    ensures Inv(Step(n, o))
  {
    hide Become;
    if n.park == Yank {
      YankInv(n, o);
    } else {
      AfterCommandInv(n, o);
      BecomeFromInv(AfterCommand(n, o), StatePrimaryWait);
      BecomeFromInv(AfterCommand(n, o), StateFailed);
    }
  }

  lemma YankInv(n: Node, o: Outcome)
    requires Inv(n) && Enabled(n, o) && n.state == StateFailover && n.park == Yank
    ensures Inv(Step(n, o))
  {
    hide Become;
    BecomeFromInv(n, StateFailed);
  }

  lemma ColoRunningInv(n: Node, o: Outcome)
    requires Inv(n) && Enabled(n, o) && !o.Serve? && n.state == StatePrimaryColoRunning
    ensures Inv(Step(n, o))
  {
    hide Become;
    BecomeFromInv(n, StateFailed);
  }

  lemma StoppedInv(n: Node, o: Outcome)
    requires Inv(n) && Enabled(n, o) && !o.Serve? && n.state == StateFailed
    ensures Inv(Step(n, o))
  {
    AfterCommandInv(n, o);
  }

  lemma OutcomeKeepsInv(n: Node, o: Outcome)
    requires Inv(n) && Enabled(n, o) && !o.Serve?
    ensures Inv(Step(n, o))
  {
    if n.state == StatePrimaryStartMigration {
      MigrationInv(n, o);
    } else if n.state == StatePrimaryColoRunning {
      ColoRunningInv(n, o);
    } else if n.state == StateFailover {
      FailoverInv(n, o);
    } else if n.state == StateFailed {
      StoppedInv(n, o);
    } else if n.state == StateSecondaryStartup {
      SecondaryStartupInv(n, o);
    } else {
      SecondaryWaitInv(n, o);
    }
  }

  lemma ApplyKeepsInv(n: Node, m: Move)
    requires Inv(n) && MoveEnabled(n, m)
    ensures Inv(Apply(n, m))
  {
    match m
    case Event(c) => CallKeepsInv(n, c);
    case Resume(o) => if o.Serve? { ServeKeepsInv(n); } else { OutcomeKeepsInv(n, o); }
  }

  /** The invariant holds throughout every run. */
  lemma RunKeepsInv(n0: Node, moves: seq<Move>, n: Node)
    requires Inv(n0) && Runs.Reaches(Next, n0, moves, n)
    ensures Inv(n)
  {
    forall t, m | Inv(t) && Next(t, m).Some? ensures Inv(Next(t, m).value) {
      ApplyKeepsInv(t, m);
    }
    Runs.Invariant(Next, Inv, n0, moves, n);
  }

  /** No run of a freshly started node fails an assertion or reaches abort(). */
  lemma NeverAborts(size: nat, primary: bool, moves: seq<Move>, n: Node)
    requires Runs.Reaches(Next, Start(size, primary), moves, n)
    ensures n.park != Aborted
    ensures n.park == PopInterrupt ==> n.queue.pending != [] && Head(n.queue) in AlwaysInterrupting + SYNC_ONLY
    ensures n.park.MigrateCancel? ==> n.park.event == EventFailoverSync
  {
    StartInv(size, primary);
    RunKeepsInv(Start(size, primary), moves, n);
  }

  /** While the migration waits to serve its interrupt, no callback changes which event that is. */
  lemma InterruptStaysHead(n: Node, c: Callback)
    requires Inv(n) && n.park == PopInterrupt && CallbackEnabled(n, c)
    ensures Call(n, c).park == PopInterrupt && PendingInterrupt(Call(n, c).queue)
    ensures Head(Call(n, c).queue) == Head(n.queue)
  {
    var m := Flags(n, c);
    assert m.queue == n.queue && m.park == n.park by {
      if !c.QemuHup? {
        CallbackFlags(n, c);
      }
    }
    if Queued(c).Some? {
      OfferKeeps(m.queue, Queued(c).value);
    }
  }

  /**
   Neither the role nor a failure is taken back, the past only grows, and a promotion leads from FAILOVER
   to PRIMARY_WAIT.
   */
  predicate Advances(n: Node, r: Node) {
    && n.past.history <= r.past.history
    && n.past.rejected <= r.past.rejected
    && (n.primary ==> r.primary)
    && (n.status.failed ==> r.status.failed)
    && (r.primary && !n.primary ==>
          n.state == StateFailover && r.past.history == n.past.history + [StatePrimaryWait])
  }

  lemma BecomeAdvances(n: Node, m: Node, s: MainState)
    requires SameRole(n, m)
    requires s == StatePrimaryWait ==> n.state == StateFailover
    requires s != StatePrimaryStartup
    ensures Advances(n, Become(m, s))
  {
  }

  lemma InterruptAdvances(n: Node, m: Node, e: ColodEvent)
    requires SameRole(n, m)
    ensures Advances(n, AlwaysInterrupt(m, e))
  {
    if e in AlwaysInterrupting {
      forall s | s in {StateFailed, StateFailedPeerFailover, StateQuit, StateAutoquit}
        ensures Advances(n, Become(m, s))
      {
        BecomeAdvances(n, m, s);
      }
    }
  }

  lemma ServeAdvances(n: Node)
    requires Enabled(n, Serve)
    ensures Advances(n, Step(n, Serve))
  {
    hide Become;
    var m, e := Taken(n), Head(n.queue);
    InterruptAdvances(n, m, e);
    if n.state in {StateSecondaryColoRunning, StatePrimaryColoRunning} {
      BecomeAdvances(n, m, if e == EventFailoverSync then StateFailoverSync else StateFailed);
    } else if n.state == StateFailoverSync {
      BecomeAdvances(n, m, StateFailover);
    } else if n.state == StatePrimaryWait {
      ServeWaitAdvances(n);
    } else if n.state in {StateFailed, StateAutoquit} {
      BecomeAdvances(n, m, if e == EventQuit then StateQuit else StateAutoquit);
    }
  }

  lemma ServeWaitAdvances(n: Node)
    requires Enabled(n, Serve) && n.state == StatePrimaryWait
    ensures Advances(n, Step(n, Serve))
  {
    hide Become;
    var s := match Head(n.queue)
      case EventStartMigration => StatePrimaryStartMigration
      case EventQuit => StateQuit
      case EventAutoquit => StateAutoquit
      case _ => StateFailed;
    BecomeAdvances(n, Taken(n), s);
  }

  /** `r` has `n`'s role, failure and history; it may have lost more events. */
  predicate SameRole(n: Node, r: Node) {
    && r.primary == n.primary && r.status.failed == n.status.failed && r.past.history == n.past.history
    && n.past.rejected <= r.past.rejected
  }

  lemma AfterCommandRole(n: Node, o: Outcome)
    ensures SameRole(n, AfterCommand(n, o))
  {
  }

  lemma QmpErrorAdvances(n: Node, m: Node, o: Outcome)
    requires SameRole(n, m)
    ensures Advances(n, QmpError(m, o))
  {
    BecomeAdvances(n, m, StateFailed);
  }

  lemma CancelAdvances(n: Node, o: Outcome)
    requires n.state == StatePrimaryStartMigration && n.park.MigrateCancel?
    ensures Advances(n, MigrationStep(n, o))
  {
    hide Become;
    AfterCommandRole(n, o);
    BecomeAdvances(n, AfterCommand(n, o), StateFailed);
    BecomeAdvances(n, AfterCommand(n, o), StateFailoverSync);
  }

  /** Going on to another place of the migration. */
  lemma GoesOnAdvances(n: Node, m: Node, r: Node)
    requires SameRole(n, m) && SameRole(m, r)
    ensures Advances(n, r)
  {
  }

  lemma MigrationAdvances(n: Node, o: Outcome)
    requires n.state == StatePrimaryStartMigration
    ensures Advances(n, MigrationStep(n, o))
  {
    hide Become, QmpError, Advances, AfterCommand, PendingInterrupt;
    var m, r := AfterCommand(n, o), MigrationStep(n, o);
    AfterCommandRole(n, o);
    QmpErrorAdvances(n, m, o);
    if n.park.MigrateCancel? {
      CancelAdvances(n, o);
    } else if n.park == WaitColo && o.EventArrived? {
      BecomeAdvances(n, m, StatePrimaryColoRunning);
    } else if r != QmpError(m, o) {
      GoesOnAdvances(n, m, r);
    }
  }

  lemma SecondaryAdvances(n: Node, o: Outcome)
    requires Enabled(n, o) && !o.Serve? && n.state in {StateSecondaryStartup, StateSecondaryWait}
    ensures Advances(n, Step(n, o))
  {
    hide Become;
    if n.state == StateSecondaryStartup {
      AfterCommandRole(n, o);
      BecomeAdvances(n, AfterCommand(n, o), if o.CommandOk? then StateSecondaryWait else StateFailed);
    } else {
      BecomeAdvances(n, n, StateSecondaryColoRunning);
    }
  }

  lemma ColoAdvances(n: Node, o: Outcome)
    ensures Advances(n, ColoRunningStep(n, o))
  {
    hide Become;
    BecomeAdvances(n, n, StateFailed);
  }

  lemma StoppedAdvances(n: Node, o: Outcome)
    ensures Advances(n, AfterCommand(n, o).(park := PopEvent))
  {
    AfterCommandRole(n, o);
  }

  lemma OutcomeAdvances(n: Node, o: Outcome)
    requires Enabled(n, o) && !o.Serve?
    ensures Advances(n, Step(n, o))
  {
    if n.state in {StateSecondaryStartup, StateSecondaryWait} {
      SecondaryAdvances(n, o);
    } else {
      OtherOutcomeAdvances(n, o);
    }
  }

  lemma OtherOutcomeAdvances(n: Node, o: Outcome)
    requires Enabled(n, o) && !o.Serve? && n.state !in {StateSecondaryStartup, StateSecondaryWait}
    ensures Advances(n, Step(n, o))
  {
    hide MigrationStep, ColoRunningStep, FailoverStep, AfterCommand;
    if n.state == StatePrimaryStartMigration {
      MigrationAdvances(n, o);
    } else if n.state in {StateSecondaryColoRunning, StatePrimaryColoRunning} {
      ColoAdvances(n, o);
    } else if n.state == StateFailover {
      FailoverAdvances(n, o);
    } else if n.state == StateFailed {
      StoppedAdvances(n, o);
    }
  }

  lemma FailoverAdvances(n: Node, o: Outcome)
    requires n.state == StateFailover
    ensures Advances(n, FailoverStep(n, o))
  {
    hide Become;
    AfterCommandRole(n, o);
    BecomeAdvances(n, AfterCommand(n, o), StatePrimaryWait);
    BecomeAdvances(n, n, StateFailed);
    BecomeAdvances(n, AfterCommand(n, o), StateFailed);
  }

  lemma CallAdvances(n: Node, c: Callback)
    ensures Advances(n, Call(n, c))
  {
    if !c.QemuHup? {
      CallbackFlags(n, c);
    }
  }

  lemma ApplyAdvances(n: Node, m: Move)
    requires MoveEnabled(n, m)
    ensures Advances(n, Apply(n, m))
  {
    hide Advances, Step, Call;
    match m
    case Event(c) => CallAdvances(n, c);
    case Resume(o) => if o.Serve? { ServeAdvances(n); } else { OutcomeAdvances(n, o); }
  }

  /**
   A node becomes primary only by entering PRIMARY_WAIT straight from FAILOVER, which it reached from
   COLO by way of FAILOVER_SYNC, and it never turns secondary again.
   */
  lemma PromotionPath(n: Node, m: Move)
    requires Inv(n) && MoveEnabled(n, m)
    ensures n.primary ==> Apply(n, m).primary
    ensures !n.primary && Apply(n, m).primary ==>
              Tail(Apply(n, m).past.history, 4) ==
              [StateSecondaryColoRunning, StateFailoverSync, StateFailover, StatePrimaryWait]
  {
    hide Apply, Tail;
    ApplyAdvances(n, m);
    TailSnoc(n.past.history, StatePrimaryWait, 3);
  }

  /** Failure is final: a failed node stays failed, in the failed states, and its peer has been told. */
  lemma FailureIsFinal(n: Node, moves: seq<Move>, n': Node)
    requires Inv(n) && n.status.failed && Runs.Reaches(Next, n, moves, n')
    ensures n'.status.failed && n'.state in FAILED_STATES && MessageFailed in n'.channel.sent
  {
    var inv := (t: Node) => Inv(t) && t.status.failed;
    forall t, m | inv(t) && Next(t, m).Some? ensures inv(Next(t, m).value) {
      ApplyKeepsInv(t, m);
      ApplyAdvances(t, m);
    }
    Runs.Invariant(Next, inv, n, moves, n');
  }

  /**
   Once QEMU has gone and a request to quit automatically has been served, the daemon has been told to
   quit or the event that will tell it is still pending.
   */
  lemma AutoquitNotLost(size: nat, primary: bool, moves: seq<Move>, n: Node)
    requires Runs.Reaches(Next, Start(size, primary), moves, n)
    requires EventFailed !in n.past.rejected
    ensures n.status.qemuQuit && n.past.autoquitTaken ==> n.status.loopQuit || EventFailed in n.queue.pending
  {
    StartInv(size, primary);
    RunKeepsInv(Start(size, primary), moves, n);
  }
}
