/**
 The wake-up protocol and the states together: which sources resume the main coroutine in which state, and
 what it then does before it yields. The assert of the QMP event waits holds, with wake sources firing in
 order, in every run that never comes to PRIMARY_WAIT with a request to migrate already queued; and it fails
 in a run that does.
 */
module WakeStates {
  import opened ColodTypes
  import opened EventQueueSpec
  import opened MainNode
  import Invariants = MainInvariants
  import WakeUp
  import opened WakeOrder
  import Runs

  /**
   A node with its wake sources, whose queue is the node's. `carried`: PRIMARY_WAIT has been entered with a
   request to migrate queued.
   */
  datatype Joint = Joint(node: Node, order: Ordered, carried: bool)

  datatype JointMove =
    | Happens(callback: Callback)   // between two dispatches
    | Reads(callback: Callback)     // reading a reply, the coroutine comes upon an event of QEMU's, and yields
    | Finds(outcome: Outcome)       // the command it runs ends
    | Serves                        // it asks for an event
    | Parks                         // it yields for something else
    | Wakes(id: nat)                // a wake source is dispatched
    | Proceeds                      // a command's i/o is
    | Completes(outcome: Outcome)   // the awaited QMP event, its timeout or the delay's timer is

  const QMP_WAITS: set<Park> := {WaitPreSwitchover, WaitColo, WaitResume, WaitResumeAgain}

  predicate InCommand(n: Node) {
    n.park in {SetCapabilities, StartCommands, SwitchoverCommands, MigrateContinue, Yank, FailoverCommands, Stop}
    || n.park.MigrateCancel?
  }

  predicate InEventWait(n: Node) {
    n.park in {PopEvent, PopInterrupt}
  }

  /** What can happen to the node; its own messages come back only if it has sent them. */
  predicate CanHappen(n: Node, c: Callback) {
    CallbackEnabled(n, c) && (c.Deliver? && c.own ==> c.message in n.channel.sent)
  }

  /** The events of QEMU's that are noticed while a reply is read. */
  predicate FromQemu(c: Callback) {
    c.ReplicationError? || c.MigrationFailed? || c.DiskError?
  }

  function WithQueue(o: Ordered, q: Queue): Ordered {
    o.(sys := o.sys.(wake := o.sys.wake.(queue := q)))
  }

  /** The node goes on to `n` and the protocol to `o`; the queue is the node's. */
  function Advance(j: Joint, o: Ordered, n: Node): Joint {
    var entered := n.state == StatePrimaryWait && j.node.state != StatePrimaryWait;
    Joint(n, WithQueue(o, n.queue), j.carried || (entered && EventStartMigration in n.queue.pending))
  }

  /** An event arrives, if there is one. */
  function Arrived(o: Ordered, e: Option<ColodEvent>): Option<Ordered> {
    if e.Some? then OrderedNext(o, WakeUp.Arrive(e.value)) else Some(o)
  }

  /** The event a command's end queues; a yank of its own does not. */
  function Reported(n: Node, o: Outcome): Option<ColodEvent> {
    match o
    case CommandFailed => if n.park == Yank then None else Some(EventFailed)
    case CommandOk(yanked) => if yanked && n.park != Yank then Some(EventFailoverSync) else None
    case CommandError(yanked) => if yanked && n.park != Yank then Some(EventFailoverSync) else None
    case ArrayDone(yanked) => if yanked && n.park != Yank then Some(EventFailoverSync) else None
    case _ => None
  }

  function Called(j: Joint, c: Callback): Option<Joint> {
    var o := Arrived(j.order, Queued(c));
    if o.None? || !CanHappen(j.node, c) then None else Some(Advance(j, o.value, Call(j.node, c)))
  }

  /** The protocol has moved on to `o`, and has served an event exactly if the coroutine is running. */
  function Served(j: Joint, n: Node, o: Ordered): Option<Joint> {
    if !o.sys.phase.Running? then Some(Advance(j, o, n))
    else if !Enabled(n, Serve) then None
    else Some(Advance(j, o, Step(n, Serve)))
  }

  function Parked(j: Joint, m: WakeUp.WakeMove): Option<Joint> {
    var o := OrderedNext(j.order, m);
    if o.None? then None else Some(Advance(j, o.value, j.node))
  }

  /** A wake source fires: in colod_event_wait, in a wait for a QMP event, in the delay, or in a command. */
  function Woken(j: Joint, id: nat): Option<Joint> {
    var n, o := j.node, OrderedNext(j.order, WakeUp.Dispatch(WakeUp.WakeSource(id)));
    if o.None? then None
    else if InEventWait(n) then Served(j, n, o.value)
    else if n.park in QMP_WAITS then
      if o.value.sys.phase.AssertFailed? || o.value.sys.phase.QmpWaiting? then Some(Advance(j, o.value, n))
      else if !Enabled(n, Interrupted) then None
      else Served(j, Step(n, Interrupted), o.value)
    else if n.park == YellowDelay then Some(Advance(j, o.value, Step(n, Interrupted)))
    else if InCommand(n) then Some(Advance(j, o.value, n))
    else None
  }

  function JointNext(j: Joint, m: JointMove): Option<Joint> {
    var n, phase := j.node, j.order.sys.phase;
    match m
    case Happens(c) => if phase.Running? || phase.AssertFailed? then None else Called(j, c)
    case Reads(c) =>
      if !phase.Running? || !InCommand(n) || !FromQemu(c) then None
      else
        var r := Called(j, c);
        if r.None? then None else Parked(r.value, WakeUp.Suspend)
    case Finds(outcome) =>
      if !phase.Running? || !InCommand(n) || !Enabled(n, outcome) then None
      else
        var o := Arrived(j.order, Reported(n, outcome));
        if o.None? then None else Some(Advance(j, o.value, Step(n, outcome)))
    case Serves =>
      if !phase.Running? || !InEventWait(n) then None
      else
        var o := OrderedNext(j.order, WakeUp.Wait);
        if o.None? then None else Served(j, n, o.value)
    case Parks =>
      if !phase.Running? || InEventWait(n) then None
      else Parked(j, if n.park in QMP_WAITS then WakeUp.QmpWait else WakeUp.Suspend)
    case Wakes(id) => if phase.Running? || phase.AssertFailed? then None else Woken(j, id)
    case Proceeds => if phase.Elsewhere? && InCommand(n) then Parked(j, WakeUp.Dispatch(WakeUp.Foreign)) else None
    case Completes(outcome) =>
      if !(outcome.EventArrived? || outcome.WaitTimedOut?) || !Enabled(n, outcome) then None
      else if !(phase.QmpWaiting? || phase.Elsewhere?) then None
      else
        var o := OrderedNext(j.order, WakeUp.Dispatch(WakeUp.Foreign));
        if o.None? then None else Some(Advance(j, o.value, Step(n, outcome)))
  }

  /** The daemon starts the coroutine from its first idle source. */
  function Begin(size: nat, primary: bool): Joint {
    var n := Start(size, primary);
    Joint(n, WithQueue(Ordered(WakeUp.Begin(size), false), n.queue), false)
  }

  // ---- What one resumption does to the queue and to the waits that lie ahead ----

  /** A wait for a QMP event may come before the next event is served. */
  predicate WaitsAhead(n: Node) {
    || n.state in {StateSecondaryStartup, StateSecondaryWait}
    || (n.state == StatePrimaryStartMigration && n.park != PopInterrupt && !n.park.MigrateCancel?)
    || (n.state == StatePrimaryColoRunning && n.park in {WaitResume, WaitResumeAgain})
  }

  /** The pending events and the room for them are those of `q`. */
  predicate Holds(n: Node, q: Queue) {
    n.queue.pending == q.pending && n.queue.size == q.size
  }

  lemma BecomeHolds(n: Node, s: MainState)
    ensures Holds(Become(n, s), n.queue)
    ensures Become(n, s).state == (match s
              case StatePrimaryStartup => StatePrimaryWait
              case StateFailedPeerFailover => StateFailed
              case _ => s)
    ensures s == StateSecondaryWait ==> Become(n, s).park == WaitResume
  {
  }

  /** `r` follows `n` without an event having been served. */
  predicate Resumed(n: Node, r: Node) {
    && (WaitsAhead(r) ==> WaitsAhead(n))
    && (r.state == StateSecondaryWait ==> r.park == WaitResume)
    && (r.state == StatePrimaryWait ==> n.state == StateFailover)
  }

  function QueueAfter(n: Node, o: Outcome): Queue {
    match Reported(n, o)
    case Some(e) => Offer(n.queue, e)
    case None => n.queue
  }

  lemma AfterCommandHolds(n: Node, o: Outcome)
    requires n.park != Yank
    ensures AfterCommand(n, o) == n.(queue := QueueAfter(n, o), past := AfterCommand(n, o).past)
    ensures QueueAfter(n, o) == n.queue.(pending := QueueAfter(n, o).pending)
  {
  }

  lemma MigrationResumes(n: Node, o: Outcome)
    requires Invariants.Inv(n) && Enabled(n, o) && !o.Serve? && n.state == StatePrimaryStartMigration
    ensures Resumed(n, Step(n, o)) && Holds(Step(n, o), QueueAfter(n, o))
  {
    hide Become, AfterCommand, PendingInterrupt;
    AfterCommandHolds(n, o);
    var m := AfterCommand(n, o);
    BecomeHolds(m, StateFailed);
    BecomeHolds(m, StateFailoverSync);
    BecomeHolds(m, StatePrimaryColoRunning);
  }

  lemma FailoverResumes(n: Node, o: Outcome)
    requires Invariants.Inv(n) && Enabled(n, o) && !o.Serve? && n.state == StateFailover
    ensures Resumed(n, Step(n, o)) && Holds(Step(n, o), QueueAfter(n, o))
  {
    hide Become;
    BecomeHolds(n, StateFailed);
    BecomeHolds(n, StatePrimaryWait);
    if n.park != Yank {
      AfterCommandHolds(n, o);
      BecomeHolds(AfterCommand(n, o), StateFailed);
      BecomeHolds(AfterCommand(n, o), StatePrimaryWait);
    }
  }

  lemma OtherResumes(n: Node, o: Outcome)
    requires Invariants.Inv(n) && Enabled(n, o) && !o.Serve?
    requires n.state !in {StateFailover, StatePrimaryStartMigration, StateSecondaryWait}
    ensures Resumed(n, Step(n, o)) && Holds(Step(n, o), QueueAfter(n, o))
  {
    hide Become;
    AfterCommandHolds(n, o);
    var m := AfterCommand(n, o);
    BecomeHolds(m, StateFailed);
    BecomeHolds(m, StateSecondaryWait);
  }

  /** A resumption that serves no event. */
  lemma OutcomeResumes(n: Node, o: Outcome)
    requires Invariants.Inv(n) && Enabled(n, o) && !o.Serve? && (n.state == StateSecondaryWait ==> o.EventArrived?)
    ensures Resumed(n, Step(n, o)) && Holds(Step(n, o), QueueAfter(n, o))
  {
    if n.state == StatePrimaryStartMigration {
      MigrationResumes(n, o);
    } else if n.state == StateFailover {
      FailoverResumes(n, o);
    } else if n.state == StateSecondaryWait {
      BecomeHolds(n, StateSecondaryColoRunning);
    } else {
      OtherResumes(n, o);
    }
  }

  /** An interrupted wait for a QMP event goes on to serve the interrupt. */
  lemma InterruptedResumes(n: Node)
    requires Invariants.Inv(n) && n.park in QMP_WAITS && PendingInterrupt(n.queue)
    ensures Enabled(n, Interrupted)
    ensures var r := Step(n, Interrupted);
      InEventWait(r) && r == n.(park := r.park) && (WaitsAhead(r) ==> n.state == StateSecondaryWait)
  {
  }

  /** `r` follows `n` with the head of its queue served. */
  predicate ServedFrom(n: Node, r: Node)
    requires n.queue.pending != []
  {
    && Holds(r, Remove(n.queue))
    && (WaitsAhead(r) ==> n.state == StateSecondaryWait ||
                          (n.state == StatePrimaryWait && Head(n.queue) == EventStartMigration))
    && (r.state == StateSecondaryWait ==> n.state == StateSecondaryWait && r.park == WaitResume)
    && (r.state == StatePrimaryWait ==> n.state == StatePrimaryWait)
  }

  lemma BecomeServed(n: Node, s: MainState)
    requires n.queue.pending != []
    requires s in {StateFailed, StateFailedPeerFailover, StateQuit, StateAutoquit, StateFailoverSync, StateFailover}
    ensures ServedFrom(n, Become(Taken(n), s))
  {
    hide Become;
    BecomeHolds(Taken(n), s);
  }

  lemma InterruptServed(n: Node)
    requires n.queue.pending != [] && Head(n.queue) in AlwaysInterrupting
    ensures ServedFrom(n, AlwaysInterrupt(Taken(n), Head(n.queue)))
  {
    hide Become, ServedFrom;
    BecomeServed(n, StateFailed);
    BecomeServed(n, StateFailedPeerFailover);
    BecomeServed(n, StateQuit);
    BecomeServed(n, StateAutoquit);
  }

  lemma ServeWaiting(n: Node)
    requires Invariants.Inv(n) && Enabled(n, Serve) && n.state in {StatePrimaryWait, StateSecondaryWait}
    requires Head(n.queue) !in AlwaysInterrupting || n.state == StatePrimaryWait
    ensures ServedFrom(n, Step(n, Serve))
  {
    hide Become;
    BecomeServed(n, StateFailed);
    BecomeServed(n, StateQuit);
    BecomeServed(n, StateAutoquit);
    BecomeHolds(Taken(n), StatePrimaryStartMigration);
  }

  lemma ServeFailed(n: Node)
    requires Invariants.Inv(n) && Enabled(n, Serve) && n.state in Invariants.FAILED_STATES
    ensures ServedFrom(n, Step(n, Serve))
  {
    hide Become;
    BecomeServed(n, StateQuit);
    BecomeServed(n, StateAutoquit);
  }

  lemma ServeWorking(n: Node)
    requires Invariants.Inv(n) && Enabled(n, Serve) && Head(n.queue) !in AlwaysInterrupting
    requires n.state !in Invariants.FAILED_STATES + {StatePrimaryWait, StateSecondaryWait}
    ensures ServedFrom(n, Step(n, Serve))
  {
    hide Become;
    BecomeServed(n, StateFailed);
    BecomeServed(n, StateFailoverSync);
    BecomeServed(n, StateFailover);
    if n.state == StatePrimaryStartMigration {
      assert Head(n.queue) in n.queue.interrupting;
    }
  }

  /** Serving an event leads to a wait for a QMP event in two states only. */
  lemma ServeResumes(n: Node)
    requires Invariants.Inv(n) && Enabled(n, Serve)
    ensures ServedFrom(n, Step(n, Serve))
  {
    hide ServedFrom, Become;
    if n.state in Invariants.FAILED_STATES {
      ServeFailed(n);
    } else if n.state == StatePrimaryWait || (n.state == StateSecondaryWait && Head(n.queue) !in AlwaysInterrupting) {
      ServeWaiting(n);
    } else if Head(n.queue) in AlwaysInterrupting {
      InterruptServed(n);
    } else {
      ServeWorking(n);
    }
  }

  // ---- What every run keeps ----

  /** Each phase of the protocol goes with its places of the node. */
  predicate PhaseFits(n: Node, phase: WakeUp.Phase) {
    && (phase.Waiting? ==> InEventWait(n))
    && (phase.QmpWaiting? ==> n.park in QMP_WAITS)
    && (phase.Elsewhere? ==> !InEventWait(n) && n.park !in QMP_WAITS)
  }

  /**
   Before every wait for a QMP event the last event was served by a wake source's dispatch, because the
   dispatches of other sources find nothing to serve where such a wait may follow.
   */
  predicate Safe(n: Node, o: Ordered) {
    && !o.sys.phase.AssertFailed?
    && (WaitsAhead(n) ==> !o.byOther)
    && (o.sys.phase == WakeUp.Running(WakeUp.Foreign) ==>
          && (n.state == StatePrimaryWait ==> EventStartMigration !in n.queue.pending)
          && (n.state == StateSecondaryWait ==> n.park == WaitResume))
  }

  predicate JointInv(j: Joint) {
    && Invariants.Inv(j.node) && OrderInv(j.order) && j.order.sys.wake.queue == j.node.queue
    && PhaseFits(j.node, j.order.sys.phase)
    && (!j.carried ==> Safe(j.node, j.order))
  }

  lemma WithQueueKeepsOrder(o: Ordered, q: Queue)
    requires OrderInv(o) && q.pending == o.sys.wake.queue.pending && q.size == o.sys.wake.queue.size
    ensures OrderInv(WithQueue(o, q))
  {
    assert Forgotten(WithQueue(o, q).sys) == Forgotten(o.sys);
  }

  /** The node and the protocol go on together. */
  lemma AdvanceKeeps(j: Joint, o: Ordered, n: Node)
    requires OrderInv(o) && Invariants.Inv(n) && Holds(n, o.sys.wake.queue) && PhaseFits(n, o.sys.phase)
    requires !Advance(j, o, n).carried ==> Safe(n, o)
    ensures JointInv(Advance(j, o, n))
  {
    WithQueueKeepsOrder(o, n.queue);
  }

  /** An event arrives; nothing else changes. */
  lemma ArrivedKeeps(o: Ordered, e: Option<ColodEvent>)
    requires OrderInv(o) && !o.sys.phase.AssertFailed?
    ensures Arrived(o, e).Some?
    ensures var r := Arrived(o, e).value;
      && OrderInv(r) && r.sys.phase == o.sys.phase && r.byOther == o.byOther
      && r.sys.wake.queue == (match e case Some(x) => Offer(o.sys.wake.queue, x) case None => o.sys.wake.queue)
  {
    if e.Some? {
      OfferKeeps(o.sys.wake.queue, e.value);
      OrderedKeepsInv(o, WakeUp.Arrive(e.value));
    }
  }

  lemma CalledKeeps(j: Joint, c: Callback)
    requires JointInv(j) && Called(j, c).Some? && !j.order.sys.phase.AssertFailed?
    requires j.order.sys.phase.Running? ==> InCommand(j.node)
    ensures JointInv(Called(j, c).value) && Called(j, c).value.order.sys.phase == j.order.sys.phase
    ensures Called(j, c).value.node.park == j.node.park
  {
    hide Call, OrderInv, OrderedNext;
    ArrivedKeeps(j.order, Queued(c));
    Invariants.CallStays(j.node, c);
    Invariants.CallKeepsInv(j.node, c);
    AdvanceKeeps(j, Arrived(j.order, Queued(c)).value, Call(j.node, c));
  }

  /** The states that wait for a peer run no commands. */
  lemma CommandStates(n: Node)
    requires Invariants.Inv(n) && InCommand(n)
    ensures n.state !in {StatePrimaryWait, StateSecondaryWait}
  {
  }

  /** A move of the protocol that only ends or begins a dispatch. */
  lemma ParkedKeeps(j: Joint, m: WakeUp.WakeMove)
    requires JointInv(j) && Parked(j, m).Some?
    requires m.Suspend? || m.QmpWait? || m == WakeUp.Dispatch(WakeUp.Foreign)
    requires m.Suspend? ==> !InEventWait(j.node) && j.node.park !in QMP_WAITS
    requires m.QmpWait? ==> j.node.park in QMP_WAITS
    requires m.Dispatch? ==> j.order.sys.phase.Elsewhere? && InCommand(j.node)
    ensures JointInv(Parked(j, m).value)
  {
    hide OrderInv, Invariants.Inv;
    OrderedKeepsInv(j.order, m);
    if m.Dispatch? {
      CommandStates(j.node);
    }
    AdvanceKeeps(j, OrderedNext(j.order, m).value, j.node);
  }

  /** A resumption that serves no event, of a coroutine running in the same dispatch. */
  lemma StepKeeps(j: Joint, o: Ordered, outcome: Outcome)
    requires JointInv(j) && Enabled(j.node, outcome) && !outcome.Serve?
    requires j.node.state == StateSecondaryWait ==> outcome.EventArrived?
    requires OrderInv(o) && o.sys.phase.Running? && o.byOther == j.order.byOther
    requires o.sys.wake.queue == QueueAfter(j.node, outcome)
    ensures JointInv(Advance(j, o, Step(j.node, outcome)))
  {
    hide OrderInv, Invariants.Inv, Step;
    OutcomeResumes(j.node, outcome);
    Invariants.ApplyKeepsInv(j.node, Resume(outcome));
    AdvanceKeeps(j, o, Step(j.node, outcome));
  }

  lemma FindsKeeps(j: Joint, outcome: Outcome)
    requires JointInv(j) && JointNext(j, Finds(outcome)).Some?
    ensures JointInv(JointNext(j, Finds(outcome)).value)
  {
    hide OrderInv, Step;
    ArrivedKeeps(j.order, Reported(j.node, outcome));
    CommandStates(j.node);
    StepKeeps(j, Arrived(j.order, Reported(j.node, outcome)).value, outcome);
  }

  lemma CompletesKeeps(j: Joint, outcome: Outcome)
    requires JointInv(j) && JointNext(j, Completes(outcome)).Some?
    ensures JointInv(JointNext(j, Completes(outcome)).value)
  {
    hide OrderInv, Step;
    var m := WakeUp.Dispatch(WakeUp.Foreign);
    OrderedKeepsInv(j.order, m);
    StepKeeps(j, OrderedNext(j.order, m).value, outcome);
  }

  /** In another source's dispatch nothing is served that leads to a wait for a QMP event. */
  predicate MayServe(n: Node, current: WakeUp.Source) {
    current.Foreign? ==>
      && (n.state == StatePrimaryWait ==> EventStartMigration !in n.queue.pending)
      && n.state != StateSecondaryWait
  }

  lemma ServeSafe(n: Node, o: Ordered)
    requires Invariants.Inv(n) && Enabled(n, Serve) && o.sys.phase.Running?
    requires o.byOther == o.sys.phase.current.Foreign? && MayServe(n, o.sys.phase.current)
    ensures Safe(Step(n, Serve), o)
  {
    hide Step;
    ServeResumes(n);
    var r := Step(n, Serve);
    assert Head(n.queue) in n.queue.pending;
    forall e | e in r.queue.pending ensures e in n.queue.pending {
      RemoveShrinks(n.queue, e);
    }
  }

  lemma RemoveShrinks(q: Queue, e: ColodEvent)
    requires q.pending != [] && e in Remove(q).pending
    ensures e in q.pending
  {
  }

  /** The coroutine gets the head of the queue. */
  lemma ServeKeeps(j: Joint, n: Node, o: Ordered)
    requires Invariants.Inv(n) && InEventWait(n) && j.node.state == n.state && n.queue.pending != []
    requires OrderInv(o) && o.sys.phase.Running? && o.sys.wake.queue == Remove(n.queue)
    requires o.byOther == o.sys.phase.current.Foreign?
    requires !j.carried ==> MayServe(n, o.sys.phase.current)
    ensures Served(j, n, o).Some? && JointInv(Served(j, n, o).value)
  {
    hide OrderInv, Invariants.Inv, Step, Safe;
    ServeResumes(n);
    Invariants.ApplyKeepsInv(n, Resume(Serve));
    if !j.carried {
      ServeSafe(n, o);
    }
    AdvanceKeeps(j, o, Step(n, Serve));
  }

  /** What colod_event_wait does in the dispatch of `current`. */
  lemma WaitServes(o: Ordered, current: WakeUp.Source)
    ensures var t := WakeUp.Serve(o.sys.wake, current);
      if t.phase.Running? then
        t.phase.current == current && o.sys.wake.queue.pending != [] && t.wake.queue == Remove(o.sys.wake.queue)
        && |t.wake.queue.pending| < |o.sys.wake.queue.pending|
      else t.phase.Waiting? && t.wake.queue == o.sys.wake.queue
  {
  }

  lemma ServesKeeps(j: Joint)
    requires JointInv(j) && JointNext(j, Serves).Some?
    ensures JointInv(JointNext(j, Serves).value)
  {
    hide OrderInv, Invariants.Inv, Served, WakeUp.Serve;
    var n, current := j.node, j.order.sys.phase.current;
    WaitServes(j.order, current);
    OrderedKeepsInv(j.order, WakeUp.Wait);
    var o := OrderedNext(j.order, WakeUp.Wait).value;
    if o.sys.phase.Running? {
      ServeKeeps(j, n, o);
    } else {
      ParksInWait(j, n, o);
    }
  }

  lemma ParksInWait(j: Joint, n: Node, o: Ordered)
    requires Invariants.Inv(n) && InEventWait(n) && OrderInv(o) && o.sys.phase.Waiting?
    requires o.sys.wake.queue == n.queue && j.node.state == n.state
    requires !j.carried && WaitsAhead(n) ==> !o.byOther
    ensures Served(j, n, o).Some? && JointInv(Served(j, n, o).value)
  {
    AdvanceKeeps(j, o, n);
  }

  lemma WokenInEventWait(j: Joint, id: nat)
    requires JointInv(j) && j.order.sys.phase.Waiting? && Woken(j, id).Some?
    ensures JointInv(Woken(j, id).value)
  {
    hide OrderInv, Invariants.Inv, Served, WakeUp.Serve;
    var m := WakeUp.Dispatch(WakeUp.WakeSource(id));
    WaitServes(j.order, WakeUp.WakeSource(id));
    OrderedKeepsInv(j.order, m);
    var o := OrderedNext(j.order, m).value;
    if o.sys.phase.Running? {
      ServeKeeps(j, j.node, o);
    } else {
      ParksInWait(j, j.node, o);
    }
  }

  /** A wake source can fire in a wait for a QMP event only if something is queued. */
  lemma QueuedWhenWoken(j: Joint, id: nat)
    requires JointInv(j) && !j.carried && j.order.sys.phase.QmpWaiting? && Woken(j, id).Some?
    ensures j.node.queue.pending != [] && !j.order.byOther
  {
    assert WaitsAhead(j.node);
    assert id in j.order.sys.wake.live;
  }

  lemma WokenInQmpWait(j: Joint, id: nat)
    requires JointInv(j) && j.order.sys.phase.QmpWaiting? && Woken(j, id).Some?
    ensures JointInv(Woken(j, id).value)
  {
    hide OrderInv, Invariants.Inv, Served, WakeUp.Serve, Step;
    var n, m := j.node, WakeUp.Dispatch(WakeUp.WakeSource(id));
    WaitServes(j.order, WakeUp.WakeSource(id));
    OrderedKeepsInv(j.order, m);
    var o := OrderedNext(j.order, m).value;
    if !j.carried {
      QueuedWhenWoken(j, id);
    }
    if o.sys.phase.AssertFailed? || o.sys.phase.QmpWaiting? {
      AdvanceKeeps(j, o, n);
    } else {
      InterruptedResumes(n);
      Invariants.ApplyKeepsInv(n, Resume(Interrupted));
      var r := Step(n, Interrupted);
      if o.sys.phase.Running? {
        ServeKeeps(j, r, o);
      } else {
        ParksInWait(j, r, o);
      }
    }
  }

  lemma WokenElsewhere(j: Joint, id: nat)
    requires JointInv(j) && j.order.sys.phase.Elsewhere? && Woken(j, id).Some?
    ensures JointInv(Woken(j, id).value)
  {
    hide OrderInv, Invariants.Inv, Step;
    var n, m := j.node, WakeUp.Dispatch(WakeUp.WakeSource(id));
    OrderedKeepsInv(j.order, m);
    var o := OrderedNext(j.order, m).value;
    if n.park == YellowDelay {
      DelayStates(n);
      StepKeeps(j, o, Interrupted);
    } else {
      AdvanceKeeps(j, o, n);
    }
  }

  lemma DelayStates(n: Node)
    requires Invariants.Inv(n) && n.park == YellowDelay
    ensures n.state == StatePrimaryColoRunning
  {
  }

  lemma ReadsKeeps(j: Joint, c: Callback)
    requires JointInv(j) && JointNext(j, Reads(c)).Some?
    ensures JointInv(JointNext(j, Reads(c)).value)
  {
    hide JointInv, Called, Parked;
    assert !j.order.sys.phase.AssertFailed?;
    CalledKeeps(j, c);
    ParkedKeeps(Called(j, c).value, WakeUp.Suspend);
  }

  lemma ParksKeeps(j: Joint)
    requires JointInv(j) && JointNext(j, Parks).Some?
    ensures JointInv(JointNext(j, Parks).value)
  {
    hide JointInv, Parked;
    ParkedKeeps(j, if j.node.park in QMP_WAITS then WakeUp.QmpWait else WakeUp.Suspend);
  }

  lemma WakesKeeps(j: Joint, id: nat)
    requires JointInv(j) && JointNext(j, Wakes(id)).Some?
    ensures JointInv(JointNext(j, Wakes(id)).value)
  {
    hide JointInv, Woken;
    match j.order.sys.phase
    case Waiting => WokenInEventWait(j, id);
    case QmpWaiting => WokenInQmpWait(j, id);
    case Elsewhere => WokenElsewhere(j, id);
  }

  lemma JointNextKeepsInv(j: Joint, m: JointMove)
    requires JointInv(j) && JointNext(j, m).Some?
    ensures JointInv(JointNext(j, m).value)
  {
    match m
    case Happens(c) => HappensKeeps(j, c);
    case Reads(c) => ReadsKeeps(j, c);
    case Finds(outcome) => FindsKeeps(j, outcome);
    case Serves => ServesKeeps(j);
    case Parks => ParksKeeps(j);
    case Wakes(id) => WakesKeeps(j, id);
    case Proceeds => ProceedsKeeps(j);
    case Completes(outcome) => CompletesKeeps(j, outcome);
  }

  lemma HappensKeeps(j: Joint, c: Callback)
    requires JointInv(j) && JointNext(j, Happens(c)).Some?
    ensures JointInv(JointNext(j, Happens(c)).value)
  {
    hide JointInv, Called;
    CalledKeeps(j, c);
  }

  lemma ProceedsKeeps(j: Joint)
    requires JointInv(j) && JointNext(j, Proceeds).Some?
    ensures JointInv(JointNext(j, Proceeds).value)
  {
    hide JointInv, Parked;
    ParkedKeeps(j, WakeUp.Dispatch(WakeUp.Foreign));
  }

  lemma BeginInv(size: nat, primary: bool)
    requires size > 0
    ensures JointInv(Begin(size, primary))
  {
    Invariants.StartInv(size, primary);
  }

  lemma RunKeepsInv(size: nat, primary: bool, moves: seq<JointMove>, j: Joint)
    requires size > 0 && Runs.Reaches(JointNext, Begin(size, primary), moves, j)
    ensures JointInv(j)
  {
    hide JointInv, JointNext;
    BeginInv(size, primary);
    forall t, m | JointInv(t) && JointNext(t, m).Some? ensures JointInv(JointNext(t, m).value) {
      JointNextKeepsInv(t, m);
    }
    Runs.Invariant(JointNext, JointInv, Begin(size, primary), moves, j);
  }

  /**
   With wake sources firing in order, no run of the daemon fails the assert of the QMP event waits unless
   PRIMARY_WAIT has been entered with a request to migrate queued; nor any other assert of the states.
   */
  lemma AssertHolds(size: nat, primary: bool, moves: seq<JointMove>, j: Joint)
    requires size > 0 && Runs.Reaches(JointNext, Begin(size, primary), moves, j)
    ensures !j.carried ==> !j.order.sys.phase.AssertFailed?
    ensures j.node.park != Aborted
  {
    hide JointNext;
    RunKeepsInv(size, primary, moves, j);
  }

  // ---- The two parts ----

  lemma ServedIsNodeRun(j: Joint, n: Node, o: Ordered) returns (moves: seq<Move>)
    requires Served(j, n, o).Some?
    ensures Runs.Reaches(Next, n, moves, Served(j, n, o).value.node)
  {
    moves := [];
    if o.sys.phase.Running? {
      Runs.One(Next, n, Resume(Serve));
      moves := [Resume(Serve)];
    }
  }

  lemma WokenIsNodeRun(j: Joint, id: nat) returns (moves: seq<Move>)
    requires JointInv(j) && Woken(j, id).Some?
    ensures Runs.Reaches(Next, j.node, moves, Woken(j, id).value.node)
  {
    hide Invariants.Inv, OrderInv, OrderedNext, Safe, Step;
    var n, o := j.node, OrderedNext(j.order, WakeUp.Dispatch(WakeUp.WakeSource(id))).value;
    moves := [];
    if InEventWait(n) {
      moves := ServedIsNodeRun(j, n, o);
    } else if Enabled(n, Interrupted) {
      var r := Step(n, Interrupted);
      Runs.One(Next, n, Resume(Interrupted));
      if n.park == YellowDelay {
        moves := [Resume(Interrupted)];
      } else if n.park in QMP_WAITS && !o.sys.phase.AssertFailed? && !o.sys.phase.QmpWaiting? {
        moves := ServedIsNodeRun(j, r, o);
        Runs.Concat(Next, n, [Resume(Interrupted)], r, moves, Woken(j, id).value.node);
        moves := [Resume(Interrupted)] + moves;
      }
    }
  }

  /** What the node does in one move of the two together is a run of the node. */
  lemma IsNodeRun(j: Joint, m: JointMove) returns (moves: seq<Move>)
    requires JointInv(j) && JointNext(j, m).Some?
    ensures Runs.Reaches(Next, j.node, moves, JointNext(j, m).value.node)
  {
    hide JointInv, OrderedNext, Step, Call;
    match m
    case Happens(c) => moves := [Event(c)]; Runs.One(Next, j.node, Event(c));
    case Reads(c) => moves := [Event(c)]; Runs.One(Next, j.node, Event(c));
    case Finds(outcome) => moves := [Resume(outcome)]; Runs.One(Next, j.node, Resume(outcome));
    case Completes(outcome) => moves := [Resume(outcome)]; Runs.One(Next, j.node, Resume(outcome));
    case Serves => moves := ServedIsNodeRun(j, j.node, OrderedNext(j.order, WakeUp.Wait).value);
    case Wakes(id) => moves := WokenIsNodeRun(j, id);
    case _ => moves := [];
  }

  /** The protocol goes on to `o`, and to `n`'s interrupting set if the coroutine, running, has changed that. */
  lemma AdvanceIsProtocolRun(j: Joint, before: seq<WakeUp.WakeMove>, o: Ordered, n: Node)
    returns (moves: seq<WakeUp.WakeMove>)
    requires Runs.Reaches(OrderedNext, j.order, before, o)
    requires Holds(n, o.sys.wake.queue) && AlwaysInterrupting <= n.queue.interrupting
    requires o.sys.phase.Running? || n.queue == o.sys.wake.queue
    ensures Runs.Reaches(OrderedNext, j.order, moves, Advance(j, o, n).order)
  {
    moves := before;
    if n.queue != o.sys.wake.queue {
      var m := WakeUp.SetInterrupting(n.queue.interrupting);
      assert AlwaysInterrupting + n.queue.interrupting == n.queue.interrupting;
      Runs.Extend(OrderedNext, j.order, before, o, m);
      moves := before + [m];
    }
  }

  lemma CalledIsProtocolRun(j: Joint, c: Callback) returns (moves: seq<WakeUp.WakeMove>)
    requires JointInv(j) && Called(j, c).Some? && !j.order.sys.phase.AssertFailed?
    ensures Runs.Reaches(OrderedNext, j.order, moves, Called(j, c).value.order)
  {
    hide Call, OrderInv, OrderedNext, Safe;
    ArrivedKeeps(j.order, Queued(c));
    Invariants.CallStays(j.node, c);
    moves := ArrivedIsRun(j.order, Queued(c));
  }

  lemma ArrivedIsRun(o: Ordered, e: Option<ColodEvent>) returns (moves: seq<WakeUp.WakeMove>)
    requires Arrived(o, e).Some?
    ensures Runs.Reaches(OrderedNext, o, moves, Arrived(o, e).value)
  {
    moves := [];
    if e.Some? {
      Runs.One(OrderedNext, o, WakeUp.Arrive(e.value));
      moves := [WakeUp.Arrive(e.value)];
    }
  }

  /** A resumption that serves no event, after the moves `before`. */
  lemma StepIsProtocolRun(j: Joint, before: seq<WakeUp.WakeMove>, o: Ordered, outcome: Outcome)
    returns (moves: seq<WakeUp.WakeMove>)
    requires JointInv(j) && Enabled(j.node, outcome) && !outcome.Serve?
    requires j.node.state == StateSecondaryWait ==> outcome.EventArrived?
    requires Runs.Reaches(OrderedNext, j.order, before, o) && o.sys.phase.Running?
    requires o.sys.wake.queue == QueueAfter(j.node, outcome)
    ensures Runs.Reaches(OrderedNext, j.order, moves, Advance(j, o, Step(j.node, outcome)).order)
  {
    hide OrderInv, OrderedNext, Safe, Step;
    OutcomeResumes(j.node, outcome);
    Invariants.ApplyKeepsInv(j.node, Resume(outcome));
    moves := AdvanceIsProtocolRun(j, before, o, Step(j.node, outcome));
  }

  lemma ServedIsProtocolRun(j: Joint, before: seq<WakeUp.WakeMove>, n: Node, o: Ordered)
    returns (moves: seq<WakeUp.WakeMove>)
    requires Invariants.Inv(n) && Served(j, n, o).Some? && Runs.Reaches(OrderedNext, j.order, before, o)
    requires o.sys.phase.Running? ==> n.queue.pending != [] && o.sys.wake.queue == Remove(n.queue)
    requires !o.sys.phase.Running? ==> o.sys.wake.queue == n.queue
    ensures Runs.Reaches(OrderedNext, j.order, moves, Served(j, n, o).value.order)
  {
    hide OrderedNext, Step;
    moves := before;
    if o.sys.phase.Running? {
      ServeResumes(n);
      Invariants.ApplyKeepsInv(n, Resume(Serve));
      moves := AdvanceIsProtocolRun(j, before, o, Step(n, Serve));
    }
  }

  lemma WokenIsProtocolRun(j: Joint, id: nat) returns (moves: seq<WakeUp.WakeMove>)
    requires JointInv(j) && Woken(j, id).Some?
    ensures Runs.Reaches(OrderedNext, j.order, moves, Woken(j, id).value.order)
  {
    hide OrderInv, Invariants.Inv, Served, WakeUp.Serve, Step, Safe;
    var n, m := j.node, WakeUp.Dispatch(WakeUp.WakeSource(id));
    var o := OrderedNext(j.order, m).value;
    WaitServes(j.order, WakeUp.WakeSource(id));
    Runs.One(OrderedNext, j.order, m);
    moves := [m];
    if InEventWait(n) {
      moves := ServedIsProtocolRun(j, moves, n, o);
    } else if n.park == YellowDelay {
      DelayStates(n);
      moves := StepIsProtocolRun(j, moves, o, Interrupted);
    } else if n.park in QMP_WAITS && !o.sys.phase.AssertFailed? && !o.sys.phase.QmpWaiting? {
      InterruptedResumes(n);
      Invariants.ApplyKeepsInv(n, Resume(Interrupted));
      moves := ServedIsProtocolRun(j, moves, Step(n, Interrupted), o);
    }
  }

  lemma ServesIsProtocolRun(j: Joint) returns (moves: seq<WakeUp.WakeMove>)
    requires JointInv(j) && JointNext(j, Serves).Some?
    ensures Runs.Reaches(OrderedNext, j.order, moves, JointNext(j, Serves).value.order)
  {
    hide OrderInv, Invariants.Inv, Served, WakeUp.Serve, Step, Safe;
    WaitServes(j.order, j.order.sys.phase.current);
    Runs.One(OrderedNext, j.order, WakeUp.Wait);
    moves := ServedIsProtocolRun(j, [WakeUp.Wait], j.node, OrderedNext(j.order, WakeUp.Wait).value);
  }

  lemma ReadsIsProtocolRun(j: Joint, c: Callback) returns (moves: seq<WakeUp.WakeMove>)
    requires JointInv(j) && JointNext(j, Reads(c)).Some?
    ensures Runs.Reaches(OrderedNext, j.order, moves, JointNext(j, Reads(c)).value.order)
  {
    hide JointInv, Called;
    assert !j.order.sys.phase.AssertFailed?;
    CalledKeeps(j, c);
    moves := CalledIsProtocolRun(j, c);
    var r := Called(j, c).value;
    Runs.Extend(OrderedNext, j.order, moves, r.order, WakeUp.Suspend);
    moves := moves + [WakeUp.Suspend];
    LinkedQueue(r);
  }

  lemma LinkedQueue(j: Joint)
    requires JointInv(j)
    ensures j.order.sys.wake.queue == j.node.queue
  {
  }

  /** What the protocol does in one move of the two together is a run of the protocol, in order. */
  lemma IsProtocolRun(j: Joint, m: JointMove) returns (moves: seq<WakeUp.WakeMove>)
    requires JointInv(j) && JointNext(j, m).Some?
    ensures Runs.Reaches(OrderedNext, j.order, moves, JointNext(j, m).value.order)
  {
    hide JointInv, Called, Woken, Step, Parked;
    match m
    case Happens(c) => moves := CalledIsProtocolRun(j, c);
    case Reads(c) => moves := ReadsIsProtocolRun(j, c);
    case Finds(outcome) => moves := FindsIsProtocolRun(j, outcome);
    case Completes(outcome) => moves := CompletesIsProtocolRun(j, outcome);
    case Serves => moves := ServesIsProtocolRun(j);
    case Wakes(id) => moves := WokenIsProtocolRun(j, id);
    case Parks =>
      moves := ParkedIsProtocolRun(j, if j.node.park in QMP_WAITS then WakeUp.QmpWait else WakeUp.Suspend);
    case Proceeds => moves := ParkedIsProtocolRun(j, WakeUp.Dispatch(WakeUp.Foreign));
  }

  lemma FindsIsProtocolRun(j: Joint, outcome: Outcome) returns (moves: seq<WakeUp.WakeMove>)
    requires JointInv(j) && JointNext(j, Finds(outcome)).Some?
    ensures Runs.Reaches(OrderedNext, j.order, moves, JointNext(j, Finds(outcome)).value.order)
  {
    hide OrderInv, Step, OrderedNext, Safe;
    ArrivedKeeps(j.order, Reported(j.node, outcome));
    CommandStates(j.node);
    moves := ArrivedIsRun(j.order, Reported(j.node, outcome));
    moves := StepIsProtocolRun(j, moves, Arrived(j.order, Reported(j.node, outcome)).value, outcome);
  }

  lemma CompletesIsProtocolRun(j: Joint, outcome: Outcome) returns (moves: seq<WakeUp.WakeMove>)
    requires JointInv(j) && JointNext(j, Completes(outcome)).Some?
    ensures Runs.Reaches(OrderedNext, j.order, moves, JointNext(j, Completes(outcome)).value.order)
  {
    hide OrderInv, Step, Safe;
    var m := WakeUp.Dispatch(WakeUp.Foreign);
    Runs.One(OrderedNext, j.order, m);
    moves := StepIsProtocolRun(j, [m], OrderedNext(j.order, m).value, outcome);
  }

  lemma ParkedIsProtocolRun(j: Joint, m: WakeUp.WakeMove) returns (moves: seq<WakeUp.WakeMove>)
    requires JointInv(j) && Parked(j, m).Some? && (m.Suspend? || m.QmpWait? || m == WakeUp.Dispatch(WakeUp.Foreign))
    requires m.Dispatch? ==> j.order.sys.phase.Elsewhere?
    ensures Runs.Reaches(OrderedNext, j.order, moves, Parked(j, m).value.order)
  {
    Runs.One(OrderedNext, j.order, m);
    moves := [m];
  }

  lemma {:induction false} RunIsBoth(j0: Joint, moves: seq<JointMove>, j: Joint)
    returns (ofNode: seq<Move>, ofProtocol: seq<WakeUp.WakeMove>)
    requires JointInv(j0) && Runs.Reaches(JointNext, j0, moves, j)
    ensures Runs.Reaches(Next, j0.node, ofNode, j.node)
    ensures Runs.Reaches(OrderedNext, j0.order, ofProtocol, j.order)
    decreases |moves|
  {
    hide JointInv, JointNext, Next, OrderedNext;
    if moves == [] {
      ofNode, ofProtocol := [], [];
    } else {
      var r := JointNext(j0, moves[0]).value;
      var a := IsNodeRun(j0, moves[0]);
      var b := IsProtocolRun(j0, moves[0]);
      JointNextKeepsInv(j0, moves[0]);
      ofNode, ofProtocol := RunIsBoth(r, moves[1..], j);
      Runs.Concat(Next, j0.node, a, r.node, ofNode, j.node);
      Runs.Concat(OrderedNext, j0.order, b, r.order, ofProtocol, j.order);
      ofNode, ofProtocol := a + ofNode, b + ofProtocol;
    }
  }

  /** Every run of the two together is a run of the node, and one of the protocol with its sources in order. */
  lemma JointRunIsBoth(size: nat, primary: bool, moves: seq<JointMove>, j: Joint)
    returns (ofNode: seq<Move>, ofProtocol: seq<WakeUp.WakeMove>)
    requires size > 0 && Runs.Reaches(JointNext, Begin(size, primary), moves, j)
    ensures Runs.Reaches(Next, Start(size, primary), ofNode, j.node)
    ensures Runs.Reaches(OrderedNext, Ordered(WakeUp.Begin(size), false), ofProtocol, j.order)
    ensures j.order.sys.wake.queue == j.node.queue
  {
    hide JointNext, Next, OrderedNext;
    BeginInv(size, primary);
    ofNode, ofProtocol := RunIsBoth(Begin(size, primary), moves, j);
    RunKeepsInv(size, primary, moves, j);
  }

  /** The node never refuses what the protocol does: until the coroutine ends, the oldest wake source can fire. */
  lemma OldestFires(j: Joint, id: nat)
    requires JointInv(j) && !j.order.sys.phase.Running? && !j.order.sys.phase.AssertFailed? && j.node.park != Ended
    requires id in j.order.sys.wake.live && forall i :: i in j.order.sys.wake.live ==> id <= i
    ensures JointNext(j, Wakes(id)).Some?
  {
    hide OrderInv, Invariants.Inv, WakeUp.Serve, Step, Safe;
    var n, m := j.node, WakeUp.Dispatch(WakeUp.WakeSource(id));
    WaitServes(j.order, WakeUp.WakeSource(id));
    assert OrderedNext(j.order, m).Some?;
    var o := OrderedNext(j.order, m).value;
    ParksAre(n);
    if InEventWait(n) && o.sys.phase.Running? {
      assert Enabled(n, Serve);
    } else if n.park in QMP_WAITS && (o.sys.phase.Running? || o.sys.phase.Waiting?) {
      InterruptedResumes(n);
    }
  }

  lemma ParksAre(n: Node)
    requires Invariants.Inv(n)
    ensures InEventWait(n) || n.park in QMP_WAITS || InCommand(n) || n.park in {YellowDelay, Ended}
  {
  }
}
