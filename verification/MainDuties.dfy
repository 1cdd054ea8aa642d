/**
 What a node owes to what it has been told. A node is watched together with the last word on the link and the
 peer, and with the reports it has not lost; what each report must lead to is proved over all runs.
 */
module MainDuties {
  import opened ColodTypes
  import opened EventQueueSpec
  import opened MainNode
  import opened MainInvariants
  import MainStories
  import WakeStates
  import Runs

  // ---- What a served event leads to ----

  /** The node goes on waiting where it was. */
  predicate Stays(n: Node, r: Node) {
    r.state == n.state && r.park == if n.state == StateSecondaryWait then WaitResume else n.park
  }

  /** Its link is bad, and the peer's is not. */
  predicate AloneYellow(n: Node) {
    n.link.yellow && !n.link.peerYellow
  }

  /** Event by event, where the node goes when it serves it. */
  predicate Leads(n: Node, e: ColodEvent, r: Node) {
    var failed := n.state in FAILED_STATES;
    match e
    case EventFailed => if failed then Stays(n, r) else r.state == StateFailed
    case EventPeerFailover =>
      if failed || n.state == StatePrimaryWait then Stays(n, r) else r.state == StateFailed
    case EventQuit => r.state == StateQuit
    case EventAutoquit =>
      if n.state == StateAutoquit || (n.state == StateFailed && n.status.qemuQuit) then Stays(n, r)
      else r.state == StateAutoquit
    case EventFailoverSync =>
      if n.state in {StateSecondaryColoRunning, StatePrimaryColoRunning} then r.state == StateFailoverSync
      else if n.state == StatePrimaryStartMigration then r.state == n.state && r.park.MigrateCancel?
      else Stays(n, r)
    case EventFailoverWin => if n.state == StateFailoverSync then r.state == StateFailover else Stays(n, r)
    case EventStartMigration =>
      if n.state == StatePrimaryWait then r.state == StatePrimaryStartMigration else Stays(n, r)
    case _ =>
      if n.state == StatePrimaryColoRunning && AloneYellow(n) then r.state == StateFailed else Stays(n, r)
  }

  lemma InterruptLeads(n: Node)
    requires Inv(n) && Enabled(n, Serve) && Head(n.queue) in AlwaysInterrupting
    requires n.state !in FAILED_STATES + {StatePrimaryWait}
    ensures Leads(n, Head(n.queue), Step(n, Serve))
  {
    hide Become;
    var s := match Head(n.queue)
      case EventFailed => StateFailed
      case EventPeerFailover => StateFailedPeerFailover
      case EventQuit => StateQuit
      case _ => StateAutoquit;
    MainStories.BecomeGoes(Taken(n), s);
  }

  lemma WorkingLeads(n: Node)
    requires Inv(n) && Enabled(n, Serve) && Head(n.queue) !in AlwaysInterrupting
    requires n.state !in FAILED_STATES + {StatePrimaryWait}
    ensures Leads(n, Head(n.queue), Step(n, Serve))
  {
    hide Become;
    MainStories.BecomeGoes(Taken(n), StateFailed);
    MainStories.BecomeGoes(Taken(n), StateFailoverSync);
    MainStories.BecomeGoes(Taken(n), StateFailover);
    if n.state == StatePrimaryStartMigration {
      assert Head(n.queue) in n.queue.interrupting;
    }
  }

  lemma PrimaryWaitLeads(n: Node)
    requires Inv(n) && Enabled(n, Serve) && n.state == StatePrimaryWait
    ensures Leads(n, Head(n.queue), Step(n, Serve))
  {
    hide Become;
    MainStories.EveryBecomeGoes();
  }

  lemma FailedLeads(n: Node)
    requires Inv(n) && Enabled(n, Serve) && n.state in FAILED_STATES
    ensures Leads(n, Head(n.queue), Step(n, Serve))
  {
    hide Become;
    MainStories.EveryBecomeGoes();
  }

  /** Whatever state it is in, the event decides, and a victory, a request or a yellow event only where it matters. */
  lemma EventLeads(n: Node)
    requires Inv(n) && Enabled(n, Serve)
    ensures Leads(n, Head(n.queue), Step(n, Serve))
  {
    hide Leads, Step;
    if n.state in FAILED_STATES {
      FailedLeads(n);
    } else if n.state == StatePrimaryWait {
      PrimaryWaitLeads(n);
    } else if Head(n.queue) in AlwaysInterrupting {
      InterruptLeads(n);
    } else {
      WorkingLeads(n);
    }
  }

  // ---- What has been reported ----

  /** The last word on the node's link, on the peer's, on the peer itself, and on QEMU. */
  datatype Reported = Reported(yellow: bool, peerYellow: bool, peerFailed: bool, hungUp: bool, diskFailed: bool)

  function Hear(f: Reported, c: Callback): Reported {
    match c
    case LinkChange(up) => f.(yellow := !up)
    case DiskError(_) => f.(yellow := true, diskFailed := true)
    case Deliver(MessageYellow, false) => f.(peerYellow := true)
    case Deliver(MessageUnyellow, false) => f.(peerYellow := false)
    case Deliver(MessageFailed, false) => f.(peerFailed := true)
    case PeerLeft => f.(peerFailed := true)
    case ClientSetPeer => f.(peerYellow := false, peerFailed := false)
    case QemuHup => f.(hungUp := true)
    case _ => f
  }

  /** The reports that nothing has come of yet; what a full queue loses is not among them. */
  datatype Owed = Owed(failover: bool, failure: bool, quit: bool, autoquit: bool, migration: bool, notice: bool,
                       defeat: bool)

  /** The event is pending after it has been offered. */
  predicate Kept(q: Queue, e: ColodEvent) {
    |q.pending| < q.size || e in q.pending
  }

  /** The peer has failed or left, or the replication or the migration has. */
  predicate AsksFailover(c: Callback) {
    c.PeerLeft? || c.ReplicationError? || c.MigrationFailed? || c == Deliver(MessageFailed, false)
  }

  predicate TellsOfLink(c: Callback) {
    || c.LinkChange? || c.DiskError?
    || c == Deliver(MessageYellow, false) || c == Deliver(MessageUnyellow, false)
  }

  function Owes(n: Node, d: Owed, c: Callback): Owed {
    var q := n.queue;
    Owed(d.failover || (AsksFailover(c) && n.state in REPLICATING && Kept(q, EventFailoverSync)),
         d.failure || ((c.QemuFailed? || c.QemuHup?) && Kept(q, EventFailed)),
         d.quit || (c.Teardown? && Kept(q, EventQuit)),
         d.autoquit || (c.ClientAutoquit? && Kept(q, EventAutoquit)),
         d.migration || (c.ClientStartMigration? && Kept(q, EventStartMigration)),
         d.notice || (TellsOfLink(c) && (Kept(q, EventYellow) || Kept(q, EventUnyellow))),
         d.defeat || (c == Deliver(MessageFailover, false) && n.state != StatePrimaryWait
                      && Kept(q, EventPeerFailover)))
  }

  /** Requests to fail over or to migrate are for the state they come in, and a link is looked at once. */
  function Settle(n: Node, d: Owed, o: Outcome, r: Node): Owed
    requires Enabled(n, o)
  {
    var left := r.state != n.state;
    var looked := o.Serve? && Head(n.queue) in {EventYellow, EventUnyellow};
    d.(failover := d.failover && !left, migration := d.migration && !left,
       notice := d.notice && !looked, defeat := d.defeat && r.state != StatePrimaryWait)
  }

  datatype Informed = Informed(node: Node, reported: Reported, owed: Owed)

  function InformedNext(i: Informed, m: Move): Option<Informed> {
    if !MoveEnabled(i.node, m) then None
    else
      var r := Apply(i.node, m);
      match m
      case Event(c) => Some(Informed(r, Hear(i.reported, c), Owes(i.node, i.owed, c)))
      case Resume(o) => Some(Informed(r, Noted(i, o), Settle(i.node, i.owed, o, r)))
  }

  /** A secondary that waits for its peer takes a request to fail over for news of an older one. */
  function Noted(i: Informed, o: Outcome): Reported
    requires Enabled(i.node, o)
  {
    var n := i.node;
    if o.Serve? && n.state == StateSecondaryWait && Head(n.queue) == EventFailoverSync then
      i.reported.(peerFailed := false)
    else i.reported
  }

  function Begin(size: nat, primary: bool): Informed {
    Informed(Start(size, primary), Reported(false, false, false, false, false),
             Owed(false, false, false, false, false, false, false))
  }

  // ---- What comes of it ----

  /** The flags say what was last reported; the loop is told to quit only when both halves have come. */
  predicate FlagsFit(i: Informed) {
    FlagsSay(i.node, i.reported)
  }

  predicate FlagsSay(n: Node, f: Reported) {
    && n.link.yellow == f.yellow && n.link.peerYellow == f.peerYellow && n.link.peerFailed == f.peerFailed
    && n.status.qemuQuit == f.hungUp && n.link.watched == !f.diskFailed
    && (n.status.loopQuit ==> f.hungUp && n.past.autoquitTaken)
    && (n.state == StateAutoquit ==> n.past.autoquitTaken)
  }

  predicate OwedFits(n: Node, d: Owed) {
    var pending := n.queue.pending;
    && (d.failover ==> n.state in REPLICATING && (EventFailoverSync in pending || n.park.MigrateCancel?))
    && (d.failure ==> n.state in FAILED_STATES || EventFailed in pending)
    && (d.quit ==> n.state == StateQuit || EventQuit in pending)
    && (d.autoquit ==> n.past.autoquitTaken || EventAutoquit in pending)
    && (d.migration ==> n.state == StatePrimaryWait && EventStartMigration in pending)
    && (d.notice ==> EventYellow in pending || EventUnyellow in pending)
    && (d.defeat ==> n.status.peerFailover || EventPeerFailover in pending)
  }

  predicate DutiesInv(i: Informed) {
    Inv(i.node) && FlagsFit(i) && OwedFits(i.node, i.owed)
  }

  lemma OfferedIsKept(q: Queue, e: ColodEvent)
    ensures Kept(q, e) ==> e in Offer(q, e).pending
    ensures forall x :: x in q.pending ==> x in Offer(q, e).pending
  {
    OfferKeeps(q, e);
  }

  /** What a callback queues is pending afterwards unless it is lost, and so is all that was pending. */
  lemma CallOffers(n: Node, c: Callback)
    ensures var r := Call(n, c);
      && r.state == n.state && r.park == n.park
      && r.status.peerFailover == n.status.peerFailover && r.past.autoquitTaken == n.past.autoquitTaken
      && (forall x :: x in n.queue.pending ==> x in r.queue.pending)
      && (Queued(c).Some? && Kept(n.queue, Queued(c).value) ==> Queued(c).value in r.queue.pending)
  {
    hide Offer, Kept;
    CallStays(n, c);
    if Queued(c).Some? {
      OfferedIsKept(n.queue, Queued(c).value);
    }
    if !c.QemuHup? {
      CallbackFlags(n, c);
    }
  }

  lemma EventKeepsDuties(i: Informed, c: Callback)
    requires OwedFits(i.node, i.owed) && CallbackEnabled(i.node, c)
    ensures OwedFits(Call(i.node, c), Owes(i.node, i.owed, c))
  {
    hide Call;
    CallOffers(i.node, c);
  }

  lemma QueueEventOnly(n: Node, e: ColodEvent)
    ensures var r := QueueEvent(n, e);
      r == n.(queue := r.queue, past := n.past.(rejected := r.past.rejected))
  {
  }

  lemma EventKeepsFlags(i: Informed, c: Callback)
    requires FlagsFit(i) && CallbackEnabled(i.node, c)
    ensures FlagsFit(InformedNext(i, Event(c)).value)
  {
    hide QueueEvent, Owes;
    var m := Flags(i.node, c);
    if Queued(c).Some? {
      QueueEventOnly(m, Queued(c).value);
    }
    FlagsHeard(i, c);
  }

  lemma FlagsHeard(i: Informed, c: Callback)
    requires FlagsFit(i)
    ensures FlagsFit(Informed(Flags(i.node, c), Hear(i.reported, c), i.owed))
  {
    hide Send;
    SendOnly(i.node, MessageYellow);
    SendOnly(i.node.(link := i.node.link.(yellow := true, watched := false)), MessageYellow);
    if c.Announce? {
      SendOnly(i.node, c.message);
    } else if c.DiskError? {
      var m := Send(i.node.(link := i.node.link.(yellow := true, watched := false)), MessageYellow);
      SendOnly(m, if c.revert.Some? then c.revert.value else MessageYellow);
    } else if c.Deliver? {
      DeliveryHeard(i, c);
    }
  }

  lemma SendOnly(n: Node, m: ColodMessage)
    ensures Send(n, m) == n.(channel := Send(n, m).channel)
  {
  }

  lemma DeliveryHeard(i: Informed, c: Callback)
    requires FlagsFit(i) && c.Deliver?
    ensures FlagsFit(Informed(Flags(i.node, c), Hear(i.reported, c), i.owed))
  {
    hide FlagsSay, CpgFlags;
    var n, cleared := i.node, i.node.channel.(retransmit := i.node.channel.retransmit - {c.message});
    ChannelSaysNothing(n, n.(channel := cleared), i.reported);
    CpgHeard(if c.own then n.(channel := cleared) else n, i.reported, c.message, c.own);
  }

  lemma ChannelSaysNothing(n: Node, r: Node, f: Reported)
    requires FlagsSay(n, f) && r == n.(channel := r.channel)
    ensures FlagsSay(r, f)
  {
  }

  lemma CpgHeard(n: Node, f: Reported, message: ColodMessage, own: bool)
    requires FlagsSay(n, f)
    ensures FlagsSay(CpgFlags(n, message, own), Hear(f, Deliver(message, own)))
  {
    hide Send;
    SendOnly(n, MessageYellow);
  }

  /** Nothing but a served event touches what the flags say. */
  predicate SameFlags(n: Node, r: Node) {
    && r.link == n.link && r.past.autoquitTaken == n.past.autoquitTaken
    && r.status.qemuQuit == n.status.qemuQuit && r.status.loopQuit == n.status.loopQuit
    && r.status.peerFailover == n.status.peerFailover
  }

  lemma BecomeSameFlags(n: Node, m: Node)
    requires SameFlags(n, m)
    ensures forall s :: s != StateFailedPeerFailover ==> SameFlags(n, Become(m, s))
  {
    forall s | s != StateFailedPeerFailover ensures SameFlags(n, Become(m, s)) {
      OneBecomeSameFlags(n, m, s);
    }
  }

  lemma OneBecomeSameFlags(n: Node, m: Node, s: MainState)
    requires SameFlags(n, m) && s != StateFailedPeerFailover
    ensures SameFlags(n, Become(m, s))
  {
  }

  // ---- A resumption that serves no event ----

  lemma ReportSameFlags(n: Node, o: Outcome)
    ensures var m := AfterCommand(n, o);
      && SameFlags(n, m) && m.state == n.state && m.park == n.park
  {
    hide QueueEvent;
    QueueEventOnly(n, EventFailed);
    QueueEventOnly(n, EventFailoverSync);
  }

  lemma MigrationFlags(n: Node, o: Outcome)
    requires Inv(n) && Enabled(n, o) && !o.Serve? && n.state == StatePrimaryStartMigration
    ensures SameFlags(n, Step(n, o))
  {
    hide Become, AfterCommand, PendingInterrupt;
    ReportSameFlags(n, o);
    BecomeSameFlags(n, AfterCommand(n, o));
  }

  lemma OutcomeFlags(n: Node, o: Outcome)
    requires Inv(n) && Enabled(n, o) && !o.Serve?
    ensures SameFlags(n, Step(n, o))
  {
    if n.state == StatePrimaryStartMigration {
      MigrationFlags(n, o);
    } else {
      OtherFlags(n, o);
    }
  }

  lemma OtherFlags(n: Node, o: Outcome)
    requires Inv(n) && Enabled(n, o) && !o.Serve? && n.state != StatePrimaryStartMigration
    ensures SameFlags(n, Step(n, o))
  {
    hide Become, AfterCommand, PendingInterrupt;
    ReportSameFlags(n, o);
    BecomeSameFlags(n, AfterCommand(n, o));
    BecomeSameFlags(n, n);
  }

  lemma OutcomeKeepsDuties(i: Informed, o: Outcome)
    requires DutiesInv(i) && Enabled(i.node, o) && !o.Serve?
    ensures FlagsFit(InformedNext(i, Resume(o)).value)
    ensures OwedFits(Step(i.node, o), Settle(i.node, i.owed, o, Step(i.node, o)))
  {
    hide Step, Inv;
    OutcomeFlags(i.node, o);
    OutcomeKeepsPending(i.node, o);
    OutcomeGoes(i.node, o);
  }

  /** Nothing pending is lost. */
  lemma OutcomeKeepsPending(n: Node, o: Outcome)
    requires Inv(n) && Enabled(n, o) && !o.Serve?
    ensures forall x :: x in n.queue.pending ==> x in Step(n, o).queue.pending
  {
    hide Step, Inv;
    if n.state == StateSecondaryWait && !o.EventArrived? {
      WaitInterrupted(n, o);
    } else {
      WakeStates.OutcomeResumes(n, o);
      OfferKeeps(n.queue, EventFailed);
      OfferKeeps(n.queue, EventFailoverSync);
    }
  }

  lemma WaitInterrupted(n: Node, o: Outcome)
    requires Inv(n) && Enabled(n, o) && !o.Serve? && n.state == StateSecondaryWait && !o.EventArrived?
    ensures Step(n, o) == n.(park := PopEvent)
  {
  }

  /** Failed nodes stay failed, and a cancelled migration does not stay. */
  lemma OutcomeGoes(n: Node, o: Outcome)
    requires Inv(n) && Enabled(n, o) && !o.Serve?
    ensures n.state in FAILED_STATES ==> Step(n, o).state == n.state
    ensures n.state != StateAutoquit ==> Step(n, o).state !in {StateAutoquit, StateQuit}
    ensures n.park.MigrateCancel? ==> Step(n, o).state != n.state
    ensures n.state != StatePrimaryWait
  {
    hide Become, AfterCommand, PendingInterrupt;
    ReportSameFlags(n, o);
    forall m, s ensures Become(m, s).state in {s, StatePrimaryWait, StateFailed} {
      MainStories.BecomeGoes(m, s);
    }
  }

  // ---- An event is served ----

  /** The two events, each in its state, that end the main loop. */
  predicate EndsLoop(state: MainState, e: ColodEvent) {
    (state == StateFailed && e == EventAutoquit) || (state == StateAutoquit && e == EventFailed)
  }

  /** What serving `e` does to the flags. */
  predicate ServedFlags(n: Node, e: ColodEvent, r: Node) {
    && r.link == n.link.(peerFailed := n.link.peerFailed && !(n.state == StateSecondaryWait && e == EventFailoverSync))
    && r.status.qemuQuit == n.status.qemuQuit
    && r.past.autoquitTaken == (n.past.autoquitTaken || e == EventAutoquit)
    && (n.status.peerFailover ==> r.status.peerFailover)
    && (e == EventPeerFailover && n.state != StatePrimaryWait ==> r.status.peerFailover)
    && (r.status.loopQuit ==> n.status.loopQuit || (n.status.qemuQuit && EndsLoop(n.state, e)))
  }

  lemma DefeatFlags(n: Node)
    ensures var r := Become(n, StateFailedPeerFailover);
      && r.link == n.link && r.past.autoquitTaken == n.past.autoquitTaken
      && r.status == n.status.(transitioning := false, failed := true, peerFailover := true)
  {
  }

  lemma ServeFlags(n: Node)
    requires Inv(n) && Enabled(n, Serve)
    ensures ServedFlags(n, Head(n.queue), Step(n, Serve))
  {
    hide Become, ServedFlags;
    if n.state in FAILED_STATES + {StatePrimaryWait} {
      OtherServeFlags(n);
    } else if Head(n.queue) == EventPeerFailover {
      DefeatServeFlags(n);
    } else {
      WorkingServeFlags(n);
    }
  }

  lemma DefeatServeFlags(n: Node)
    requires Inv(n) && Enabled(n, Serve) && Head(n.queue) == EventPeerFailover
    requires n.state !in FAILED_STATES + {StatePrimaryWait}
    ensures ServedFlags(n, EventPeerFailover, Step(n, Serve))
  {
    hide Become;
    DefeatFlags(Taken(n));
  }

  /** A node that only leaves its state, or goes to another place in it. */
  lemma MovesOnly(n: Node, r: Node)
    requires n.queue.pending != [] && SameFlags(Taken(n), r) && Head(n.queue) != EventPeerFailover
    requires n.state != StateSecondaryWait || Head(n.queue) != EventFailoverSync
    ensures ServedFlags(n, Head(n.queue), r)
  {
  }

  lemma ParkSameFlags(n: Node)
    ensures SameFlags(n, n) && forall p: Park :: SameFlags(n, n.(park := p))
  {
  }

  lemma OtherServeFlags(n: Node)
    requires Inv(n) && Enabled(n, Serve) && n.state in FAILED_STATES + {StatePrimaryWait}
    ensures ServedFlags(n, Head(n.queue), Step(n, Serve))
  {
    if n.state == StatePrimaryWait {
      PrimaryServeFlags(n);
    } else {
      FailedServeFlags(n);
    }
  }

  lemma PrimaryServeFlags(n: Node)
    requires Inv(n) && Enabled(n, Serve) && n.state == StatePrimaryWait
    ensures ServedFlags(n, Head(n.queue), Step(n, Serve))
  {
    hide Become, SameFlags;
    ParkSameFlags(Taken(n));
    BecomeSameFlags(Taken(n), Taken(n));
    if Head(n.queue) != EventPeerFailover {
      MovesOnly(n, Step(n, Serve));
    }
  }

  lemma FailedServeFlags(n: Node)
    requires Inv(n) && Enabled(n, Serve) && n.state in FAILED_STATES
    ensures ServedFlags(n, Head(n.queue), Step(n, Serve))
  {
    hide Become, SameFlags, ServedFlags;
    var e := Head(n.queue);
    ParkSameFlags(Taken(n));
    BecomeSameFlags(Taken(n), Taken(n));
    if e == EventPeerFailover || (n.status.qemuQuit && e in {EventAutoquit, EventFailed}) {
      FailedFlagSet(n);
    } else {
      MovesOnly(n, Step(n, Serve));
    }
  }

  lemma FailedFlagSet(n: Node)
    requires Inv(n) && Enabled(n, Serve) && n.state in FAILED_STATES
    requires Head(n.queue) == EventPeerFailover
          || (n.status.qemuQuit && Head(n.queue) in {EventAutoquit, EventFailed})
    ensures ServedFlags(n, Head(n.queue), Step(n, Serve))
  {
    hide Become;
  }

  lemma WorkingServeFlags(n: Node)
    requires Inv(n) && Enabled(n, Serve) && n.state !in FAILED_STATES + {StatePrimaryWait}
    requires Head(n.queue) != EventPeerFailover
    ensures ServedFlags(n, Head(n.queue), Step(n, Serve))
  {
    hide Become, SameFlags, ServedFlags;
    ParkSameFlags(Taken(n));
    BecomeSameFlags(Taken(n), Taken(n));
    if n.state == StateSecondaryWait {
      WaitServeFlags(n);
    } else {
      MovesOnly(n, Step(n, Serve));
    }
  }

  lemma WaitServeFlags(n: Node)
    requires Enabled(n, Serve) && n.state == StateSecondaryWait && Head(n.queue) != EventPeerFailover
    ensures ServedFlags(n, Head(n.queue), Step(n, Serve))
  {
    hide Become;
    BecomeSameFlags(Taken(n), Taken(n));
  }

  /** Everything else stays pending. */
  lemma ServeKeepsPending(n: Node)
    requires Inv(n) && Enabled(n, Serve)
    ensures forall x :: x in n.queue.pending && x != Head(n.queue) ==> x in Step(n, Serve).queue.pending
  {
    hide Step, Inv;
    WakeStates.ServeResumes(n);
    forall x | x in n.queue.pending && x != Head(n.queue) ensures x in Remove(n.queue).pending {
      RemoveKeepsOthers(n.queue, x);
    }
  }

  lemma ServeKeepsFlags(i: Informed)
    requires DutiesInv(i) && Enabled(i.node, Serve)
    ensures FlagsFit(InformedNext(i, Resume(Serve)).value)
  {
    hide Step, Inv, OwedFits;
    EventLeads(i.node);
    ServeFlags(i.node);
  }

  lemma ServeKeepsOwed(i: Informed)
    requires DutiesInv(i) && Enabled(i.node, Serve)
    ensures OwedFits(Step(i.node, Serve), Settle(i.node, i.owed, Serve, Step(i.node, Serve)))
  {
    hide Step, Inv, FlagsFit;
    EventLeads(i.node);
    ServeFlags(i.node);
    ServeKeepsPending(i.node);
    ServeStates(i.node);
  }

  lemma ServeStates(n: Node)
    requires Inv(n) && Enabled(n, Serve)
    ensures n.state !in {StateQuit, StateFailover, StateSecondaryStartup} && !n.park.MigrateCancel?
    ensures n.state == StatePrimaryStartMigration ==> n.park == PopInterrupt
  {
  }

  // ---- Every run ----

  lemma NextKeepsDuties(i: Informed, m: Move)
    requires DutiesInv(i) && InformedNext(i, m).Some?
    ensures DutiesInv(InformedNext(i, m).value)
  {
    hide Inv, Step, Call, FlagsFit, OwedFits;
    ApplyKeepsInv(i.node, m);
    match m
    case Event(c) =>
      EventKeepsFlags(i, c);
      EventKeepsDuties(i, c);
    case Resume(o) =>
      if o.Serve? {
        ServeKeepsFlags(i);
        ServeKeepsOwed(i);
      } else {
        OutcomeKeepsDuties(i, o);
      }
  }

  lemma RunKeepsDuties(size: nat, primary: bool, moves: seq<Move>, i: Informed)
    requires Runs.Reaches(InformedNext, Begin(size, primary), moves, i)
    ensures DutiesInv(i)
  {
    hide DutiesInv, InformedNext;
    BeginFits(size, primary);
    forall t, m | DutiesInv(t) && InformedNext(t, m).Some? ensures DutiesInv(InformedNext(t, m).value) {
      NextKeepsDuties(t, m);
    }
    Runs.Invariant(InformedNext, DutiesInv, Begin(size, primary), moves, i);
  }

  lemma BeginFits(size: nat, primary: bool)
    ensures DutiesInv(Begin(size, primary))
  {
    StartInv(size, primary);
  }

  /**
   In every run: once a replicating node has been told that its peer has failed or left, or that the replication
   or the migration has failed, a request to fail over is pending, or being acted on, until the node leaves that
   state; and the next event it serves makes it wait for the outcome, cancel the migration for it, or fail.
   */
  lemma FailureIsActedOn(size: nat, primary: bool, moves: seq<Move>, i: Informed)
    requires Runs.Reaches(InformedNext, Begin(size, primary), moves, i) && i.owed.failover
    ensures i.node.state in REPLICATING
    ensures EventFailoverSync in i.node.queue.pending || i.node.park.MigrateCancel?
    ensures Enabled(i.node, Serve) ==>
      var r := Step(i.node, Serve); r.state in FAILED_STATES + {StateFailoverSync} || r.park.MigrateCancel?
  {
    RunKeepsDuties(size, primary, moves, i);
    if Enabled(i.node, Serve) {
      RequestServes(i.node);
    }
  }

  lemma RequestServes(n: Node)
    requires Inv(n) && Enabled(n, Serve) && n.state in REPLICATING
    requires EventFailoverSync in n.queue.pending || n.park.MigrateCancel?
    ensures var r := Step(n, Serve); r.state in FAILED_STATES + {StateFailoverSync} || r.park.MigrateCancel?
  {
    hide Step;
    PendingInterruptIff(n.queue);
    EventLeads(n);
  }

  /**
   In every run: QEMU's failure makes the node fail, a teardown makes it quit, a request to quit automatically is
   served, one to migrate is served in PRIMARY_WAIT, and the peer's message while the node is not running alone
   makes it report the peer's failover; or the event that will is still pending, unless a full queue lost it.
   */
  lemma ReportsAreActedOn(size: nat, primary: bool, moves: seq<Move>, i: Informed)
    requires Runs.Reaches(InformedNext, Begin(size, primary), moves, i)
    ensures i.owed.failure ==> i.node.state in FAILED_STATES || EventFailed in i.node.queue.pending
    ensures i.owed.quit ==> i.node.state == StateQuit || EventQuit in i.node.queue.pending
    ensures i.owed.autoquit ==> i.node.past.autoquitTaken || EventAutoquit in i.node.queue.pending
    ensures i.owed.migration ==>
      i.node.state == StatePrimaryWait && EventStartMigration in i.node.queue.pending
    ensures i.owed.defeat ==> i.node.status.peerFailover || EventPeerFailover in i.node.queue.pending
  {
    RunKeepsDuties(size, primary, moves, i);
  }

  /**
   In every run the flags say what was reported last, the link is watched until the disk fails, and the main loop
   is told to quit only when QEMU has hung up and a request to quit automatically has been served.
   */
  lemma FlagsSayTheLast(size: nat, primary: bool, moves: seq<Move>, i: Informed)
    requires Runs.Reaches(InformedNext, Begin(size, primary), moves, i)
    ensures i.node.link.yellow == i.reported.yellow && i.node.link.peerYellow == i.reported.peerYellow
    ensures i.node.link.peerFailed == i.reported.peerFailed && i.node.status.qemuQuit == i.reported.hungUp
    ensures i.node.link.watched <==> !i.reported.diskFailed
    ensures i.node.status.loopQuit ==> i.reported.hungUp && i.node.past.autoquitTaken
  {
    RunKeepsDuties(size, primary, moves, i);
  }

  /** The primary looks at the links: at the end of its delay, and when it serves a yellow event. */
  predicate LooksAtLinks(n: Node, o: Outcome) {
    || (n.park == YellowDelay && o.EventArrived?)
    || (o.Serve? && n.queue.pending != [] && Head(n.queue) in {EventYellow, EventUnyellow})
  }

  /**
   In every run: a replicating primary fails exactly when it serves QEMU's failure or the peer's failover, or looks
   at the links while its own was last reported bad and its peer's was not; and what it has been told of the links
   since it looked is pending.
   */
  lemma YellowFails(size: nat, primary: bool, moves: seq<Move>, i: Informed, o: Outcome)
    requires Runs.Reaches(InformedNext, Begin(size, primary), moves, i)
    requires i.node.state == StatePrimaryColoRunning && Enabled(i.node, o)
    ensures Step(i.node, o).state == StateFailed <==>
      || (o.Serve? && Head(i.node.queue) in {EventFailed, EventPeerFailover})
      || (LooksAtLinks(i.node, o) && i.reported.yellow && !i.reported.peerYellow)
    ensures i.owed.notice ==> EventYellow in i.node.queue.pending || EventUnyellow in i.node.queue.pending
  {
    hide Step, Inv, LooksAtLinks;
    RunKeepsDuties(size, primary, moves, i);
    FailsByLinks(i.node, o);
  }

  lemma FailsByLinks(n: Node, o: Outcome)
    requires Inv(n) && n.state == StatePrimaryColoRunning && Enabled(n, o)
    ensures Step(n, o).state == StateFailed <==>
      || (o.Serve? && Head(n.queue) in {EventFailed, EventPeerFailover})
      || (LooksAtLinks(n, o) && AloneYellow(n))
  {
    hide Step, Inv;
    if o.Serve? {
      EventLeads(n);
      ServeAtPop(n);
    } else {
      SettlesBy(n, o);
    }
  }

  lemma ServeAtPop(n: Node)
    requires Enabled(n, Serve)
    ensures n.park in {PopEvent, PopInterrupt} && n.queue.pending != []
  {
  }

  lemma SettlesBy(n: Node, o: Outcome)
    requires Inv(n) && n.state == StatePrimaryColoRunning && Enabled(n, o) && !o.Serve?
    ensures Step(n, o).state == StateFailed <==> n.park == YellowDelay && o.EventArrived? && AloneYellow(n)
  {
    hide Become;
    MainStories.BecomeGoes(n, StateFailed);
  }

  /** Whoever says hello is told of a bad link: the node's announcement of it is under way again. */
  lemma HelloIsAnswered(size: nat, primary: bool, moves: seq<Move>, i: Informed, own: bool)
    requires Runs.Reaches(InformedNext, Begin(size, primary), moves, i) && i.reported.yellow
    ensures MessageYellow in Call(i.node, Deliver(MessageHello, own)).channel.retransmit
  {
    RunKeepsDuties(size, primary, moves, i);
  }
}
