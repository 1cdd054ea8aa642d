/**
 One node of the failover protocol: the main coroutine's thirteen states, cut at the places where it
 can be suspended, and the callbacks that feed its event queue between two resumptions. Outcomes of
 QMP commands and arrivals of QMP events are chosen by the environment.
 */
module MainNode {
  import opened ColodTypes
  import opened EventQueueSpec

  datatype MainState =
    | StateSecondaryStartup
    | StateSecondaryWait
    | StateSecondaryColoRunning
    | StatePrimaryStartup
    | StatePrimaryWait
    | StatePrimaryStartMigration
    | StatePrimaryColoRunning
    | StateFailoverSync
    | StateFailover
    | StateFailedPeerFailover
    | StateFailed
    | StateQuit
    | StateAutoquit

  /** The states in which the node replicates or is about to. */
  const REPLICATING: set<MainState> :=
    {StatePrimaryStartMigration, StatePrimaryColoRunning, StateSecondaryColoRunning}

  /** Where the main coroutine is suspended inside its current state. */
  datatype Park =
    | SetCapabilities
    | StartCommands
    | WaitPreSwitchover
    | SwitchoverCommands
    | MigrateContinue
    | WaitColo
    | PopInterrupt      // handle_event of the migration: an interrupt is known to be pending
    | MigrateCancel(event: ColodEvent)   // for the event that leads to the failover
    | WaitResume
    | WaitResumeAgain
    | YellowDelay
    | PopEvent          // colod_event_wait
    | Yank
    | FailoverCommands
    | Stop
    | Ended
    | Aborted           // a failed assert or abort()

  datatype Node = Node(
    state: MainState,
    park: Park,
    queue: Queue,
    primary: bool,
    replication: bool,
    status: Status,
    link: Link,
    channel: Channel,
    past: Past)

  datatype Status = Status(
    transitioning: bool,
    failed: bool,
    qemuQuit: bool,
    peerFailover: bool,
    loopQuit: bool)                  // g_main_loop_quit has been called

  /** The network and the peer; `watched` while the debouncer of the network link runs. */
  datatype Link = Link(yellow: bool, peerYellow: bool, peerFailed: bool, watched: bool)

  /** The group channel: its retransmit flags, and every message ever sent. */
  datatype Channel = Channel(retransmit: set<ColodMessage>, sent: set<ColodMessage>)

  /** What has happened so far. */
  datatype Past = Past(
    history: seq<MainState>,         // states entered, in order
    autoquitTaken: bool,             // an EVENT_AUTOQUIT has been served
    rejected: set<ColodEvent>)       // events lost to a full queue

  /** What the environment lets a suspended main coroutine find when it resumes. */
  datatype Outcome =
    | CommandOk(yanked: bool)        // in an array another command follows
    | CommandError(yanked: bool)     // an error reply
    | CommandFailed                  // no reply
    | ArrayDone(yanked: bool)        // the array's last command has been answered, or it has none
    | EventArrived                   // the awaited QMP event, or the delay's timer
    | WaitTimedOut
    | Interrupted
    | Serve                          // take the next event from the queue

  /** What happens to a node between two resumptions of its main coroutine. */
  datatype Callback =
    | ClientStartMigration
    | ClientAutoquit
    | ClientSetPeer                  // a client names the peer
    | QemuFailed                     // a client or the health check reports QEMU broken
    | Teardown
    | QemuHup
    | ReplicationError               // nbd write error, COLO_EXIT error or a client's yank
    | MigrationFailed
    | DiskError(revert: Option<ColodMessage>)   // what the debouncer, shut down on it, takes back
    | LinkChange(up: bool)
    | Announce(message: ColodMessage)           // the debouncer tells the peer of a change, or takes it back
    | PeerLeft
    | Deliver(message: ColodMessage, own: bool)

  const SYNC_ONLY: set<ColodEvent> := {EventFailoverSync}
  const DISCARDED_IN_WAIT: set<ColodEvent> := {EventFailoverSync, EventFailoverWin, EventYellow, EventUnyellow}

  const LINK_MESSAGES: set<ColodMessage> := {MessageYellow, MessageUnyellow}

  function SetInterrupting(n: Node, events: set<ColodEvent>): Node {
    n.(queue := n.queue.(interrupting := AlwaysInterrupting + events))
  }

  /** _colod_event_queue: an event equal to the one served last is dropped; a full queue loses it. */
  function QueueEvent(n: Node, e: ColodEvent): Node {
    n.(queue := Offer(n.queue, e),
       past := n.past.(rejected := n.past.rejected + if Rejects(n.queue, e) then {e} else {}))
  }

  function Send(n: Node, m: ColodMessage): Node {
    n.(channel := Channel(n.channel.retransmit + {m}, n.channel.sent + {m}))
  }

  function Record(n: Node, s: MainState): Node {
    n.(past := n.past.(history := n.past.history + [s]))
  }

  function SetFailed(n: Node): Node {
    n.(status := n.status.(failed := true))
  }

  function PeerFailedOver(n: Node): Node {
    n.(status := n.status.(peerFailover := true))
  }

  function QuitLoop(n: Node): Node {
    n.(status := n.status.(loopQuit := true))
  }

  function Transition(n: Node): Node {
    n.(status := n.status.(transitioning := true))
  }

  /** Entering a state, up to its first suspension. */
  function Become(n: Node, s: MainState): Node {
    var e := Record(n.(state := s, status := n.status.(transitioning := false)), s);
    match s
    case StateSecondaryStartup => e.(park := SetCapabilities)
    case StateSecondaryWait => SetInterrupting(e, DISCARDED_IN_WAIT).(park := WaitResume)
    case StateSecondaryColoRunning => ColoRunning(e.(replication := true))
    case StatePrimaryStartup => PrimaryWait(Record(e, StatePrimaryWait))
    case StatePrimaryWait => PrimaryWait(e)
    case StatePrimaryStartMigration => SetInterrupting(e, SYNC_ONLY).(park := SetCapabilities)
    case StatePrimaryColoRunning => ColoRunning(e.(replication := true))
    case StateFailoverSync => Send(e, MessageFailover).(park := PopEvent)
    case StateFailover => SetInterrupting(e, {}).(park := Yank)
    case StateFailedPeerFailover =>
      FailedEntry(Record(PeerFailedOver(e), StateFailed))
    case StateFailed => FailedEntry(e)
    case StateQuit => e.(park := Ended)
    case StateAutoquit => Send(SetFailed(e), MessageFailed).(park := PopEvent)
  }

  function PrimaryWait(n: Node): Node {
    n.(state := StatePrimaryWait, primary := true, replication := false, park := PopEvent)
  }

  function ColoRunning(n: Node): Node {
    SetInterrupting(n, SYNC_ONLY).(park := if n.primary then WaitResume else PopEvent)
  }

  function FailedEntry(n: Node): Node {
    Send(SetFailed(n.(state := StateFailed)), MessageFailed).(park := Stop)
  }

  function Start(size: nat, primary: bool): Node {
    var n := Node(StateSecondaryStartup, SetCapabilities, Queue([], AlwaysInterrupting, size),
                  primary, false, Status(false, false, false, false, false), Link(false, false, false, true),
                  Channel({}, {}), Past([], false, {}));
    Become(Send(n, MessageHello), if primary then StatePrimaryStartup else StateSecondaryStartup)
  }

  /** handle_always_interrupting: the state an always interrupting event leads to, or abort(). */
  function AlwaysInterrupt(n: Node, e: ColodEvent): Node {
    match e
    case EventFailed => Become(n, StateFailed)
    case EventPeerFailover => Become(n, StateFailedPeerFailover)
    case EventQuit => Become(n, StateQuit)
    case EventAutoquit => Become(n, StateAutoquit)
    case _ => n.(park := Aborted)
  }

  /** handle_event_failover: the state a request to fail over leads to, or abort(). */
  function HandleEventFailover(n: Node, e: ColodEvent): Node {
    if e == EventFailoverSync then Become(n, StateFailoverSync) else n.(park := Aborted)
  }

  predicate Enabled(n: Node, o: Outcome) {
    match n.park
    case SetCapabilities | MigrateContinue | MigrateCancel(_) | Stop =>
      o.CommandOk? || o.CommandError? || o.CommandFailed?
    case StartCommands | SwitchoverCommands | FailoverCommands =>
      || o.CommandOk? || o.CommandError? || o.CommandFailed? || o.ArrayDone?
      || (o.Interrupted? && PendingInterrupt(n.queue))
    case Yank => o.CommandOk? || o.CommandFailed?
    case WaitResume | WaitResumeAgain => o.EventArrived? || (o.Interrupted? && PendingInterrupt(n.queue))
    case WaitPreSwitchover | WaitColo =>
      o.EventArrived? || o.WaitTimedOut? || (o.Interrupted? && PendingInterrupt(n.queue))
    case YellowDelay => o.EventArrived? || o.Interrupted?
    case PopEvent | PopInterrupt => o.Serve? && n.queue.pending != []
    case Ended | Aborted => false
  }

  /** The events the command wrapper queues before a command's outcome is acted on. */
  function AfterCommand(n: Node, o: Outcome): Node {
    match o
    case CommandFailed => QueueEvent(n, EventFailed)
    case CommandOk(yanked) => if yanked then QueueEvent(n, EventFailoverSync) else n
    case CommandError(yanked) => if yanked then QueueEvent(n, EventFailoverSync) else n
    case ArrayDone(yanked) => if yanked then QueueEvent(n, EventFailoverSync) else n
    case _ => n
  }

  /** The node with the head of its queue taken off. */
  function Taken(n: Node): Node
    requires n.queue.pending != []
  {
    n.(queue := Remove(n.queue),
       past := n.past.(autoquitTaken := n.past.autoquitTaken || Head(n.queue) == EventAutoquit))
  }

  /** One resumption of the main coroutine, to its next suspension. */
  function Step(n: Node, o: Outcome): Node
    requires Enabled(n, o)
  {
    if o.Serve? then
      Handle(Taken(n), Head(n.queue))
    else
      match n.state
      case StateSecondaryStartup =>
        Become(AfterCommand(n, o), if o.CommandOk? then StateSecondaryWait else StateFailed)
      case StateSecondaryWait =>
        if o.EventArrived? then Become(n, StateSecondaryColoRunning)
        else if n.queue.pending == [] then n.(park := Aborted)
        else n.(park := PopEvent)
      case StateSecondaryColoRunning => ColoRunningStep(n, o)
      case StatePrimaryColoRunning => ColoRunningStep(n, o)
      case StatePrimaryStartMigration => MigrationStep(n, o)
      case StateFailover => FailoverStep(n, o)
      case StateFailed => AfterCommand(n, o).(park := PopEvent)
      case _ => n.(park := Aborted)
  }

  function ColoRunningStep(n: Node, o: Outcome): Node {
    match n.park
    case WaitResume => n.(park := if o.EventArrived? then WaitResumeAgain else PopEvent)
    case WaitResumeAgain => n.(park := if o.EventArrived? then YellowDelay else PopEvent)
    case YellowDelay =>
      if o.EventArrived? && n.link.yellow && !n.link.peerYellow then Become(n, StateFailed) else n.(park := PopEvent)
    case _ => n.(park := Aborted)
  }

  function FailoverStep(n: Node, o: Outcome): Node {
    match n.park
    case Yank =>
      if o.CommandOk? then Transition(n).(park := FailoverCommands) else Become(n, StateFailed)
    case FailoverCommands =>
      var m := AfterCommand(n, o);
      if o.ArrayDone? then Become(m, StatePrimaryWait)
      else if (o.CommandOk? || o.CommandError?) && !PendingInterrupt(m.queue) then m
      else Become(m, StateFailed)
    case _ => n.(park := Aborted)
  }

  /** handle_event: asserts that an interrupt is pending, then waits for it to be served. */
  function HandleEvent(n: Node): Node {
    n.(park := if PendingInterrupt(n.queue) then PopInterrupt else Aborted)
  }

  /** A migration step that succeeded goes on to `next` unless an interrupt is pending. */
  function Unless(n: Node, next: Park): Node {
    if PendingInterrupt(n.queue) then HandleEvent(n) else n.(park := next)
  }

  /** qmp_error: by kind of error. */
  function QmpError(n: Node, o: Outcome): Node {
    if o.Interrupted? then HandleEvent(n)
    else if o.CommandError? then n.(park := MigrateCancel(EventFailoverSync))
    else Become(n, StateFailed)
  }

  function MigrationStep(n: Node, o: Outcome): Node {
    var m := AfterCommand(n, o);
    match n.park
    case SetCapabilities => if o.CommandOk? then Unless(m, StartCommands) else QmpError(m, o)
    case StartCommands =>
      if o.CommandOk? then Unless(m, StartCommands)
      else if o.ArrayDone? then
        var w := Unless(m, WaitPreSwitchover);
        if w.park == WaitPreSwitchover then Transition(w) else w
      else QmpError(m, o)
    case WaitPreSwitchover => if o.EventArrived? then m.(park := SwitchoverCommands) else QmpError(m, o)
    case SwitchoverCommands =>
      if o.CommandOk? then Unless(m, SwitchoverCommands)
      else if o.ArrayDone? then Unless(m, MigrateContinue)
      else QmpError(m, o)
    case MigrateContinue => if o.CommandOk? then Unless(m, WaitColo) else QmpError(m, o)
    case WaitColo => if o.EventArrived? then Become(m, StatePrimaryColoRunning) else QmpError(m, o)
    case MigrateCancel(e) => if o.CommandOk? then HandleEventFailover(m, e) else Become(m, StateFailed)
    case _ => m.(park := Aborted)
  }

  /** What each state does with an event it has taken from the queue. */
  function Handle(n: Node, e: ColodEvent): Node {
    match n.state
    case StateSecondaryWait =>
      if e in AlwaysInterrupting then AlwaysInterrupt(n, e)
      else n.(park := WaitResume, link := n.link.(peerFailed := n.link.peerFailed && e != EventFailoverSync))
    case StateSecondaryColoRunning => ColoRunningHandle(n, e)
    case StatePrimaryColoRunning => ColoRunningHandle(n, e)
    case StatePrimaryWait =>
      if e == EventStartMigration then Become(n, StatePrimaryStartMigration)
      else if e == EventFailed then Become(n, StateFailed)
      else if e == EventQuit then Become(n, StateQuit)
      else if e == EventAutoquit then Become(n, StateAutoquit)
      else n
    case StatePrimaryStartMigration =>
      if e == EventFailoverSync then n.(park := MigrateCancel(e)) else AlwaysInterrupt(n, e)
    case StateFailoverSync =>
      if e == EventFailoverWin then Become(n, StateFailover)
      else if e in AlwaysInterrupting then AlwaysInterrupt(n, e)
      else n
    case StateFailed =>
      if e == EventPeerFailover then PeerFailedOver(n)
      else if e == EventQuit then Become(n, StateQuit)
      else if e == EventAutoquit then
        if n.status.qemuQuit then QuitLoop(n) else Become(n, StateAutoquit)
      else n
    case StateAutoquit =>
      if e == EventPeerFailover then PeerFailedOver(n)
      else if e == EventQuit then Become(n, StateQuit)
      else if e == EventFailed && n.status.qemuQuit then QuitLoop(n)
      else n
    case _ => n.(park := Aborted)
  }

  function ColoRunningHandle(n: Node, e: ColodEvent): Node {
    if e == EventFailoverSync then HandleEventFailover(n, e)
    else if e in AlwaysInterrupting then AlwaysInterrupt(n, e)
    else if (e == EventYellow || e == EventUnyellow) && n.primary && n.link.yellow && !n.link.peerYellow then
      Become(n, StateFailed)
    else n
  }

  predicate CallbackEnabled(n: Node, c: Callback) {
    match c
    case ClientStartMigration => n.state == StatePrimaryWait
    case MigrationFailed => n.state == StatePrimaryStartMigration
    case LinkChange(_) => n.link.watched
    case Announce(message) => n.link.watched && message in LINK_MESSAGES
    case DiskError(revert) => revert.Some? ==> n.link.watched && revert.value in LINK_MESSAGES
    case _ => true
  }

  /** A callback updates flags, then queues at most one event. */
  function Call(n: Node, c: Callback): Node {
    var m := Flags(n, c);
    match Queued(c)
    case Some(e) => QueueEvent(m, e)
    case None => m
  }

  function Flags(n: Node, c: Callback): Node {
    match c
    case QemuHup => n.(status := n.status.(qemuQuit := true))
    case DiskError(revert) =>
      var m := Send(n.(link := n.link.(yellow := true, watched := false)), MessageYellow);
      if revert.Some? then Send(m, revert.value) else m
    case Announce(message) => Send(n, message)
    case LinkChange(up) => n.(link := n.link.(yellow := !up))
    case PeerLeft => n.(link := n.link.(peerFailed := true))
    case ClientSetPeer => n.(link := n.link.(peerFailed := false, peerYellow := false))
    case Deliver(message, own) =>
      var cleared := n.channel.(retransmit := n.channel.retransmit - {message});
      CpgFlags(if own then n.(channel := cleared) else n, message, own)
    case _ => n
  }

  /** colod_cpg_event_cb for a delivered message: the flags it changes. */
  function CpgFlags(n: Node, message: ColodMessage, own: bool): Node {
    if message == MessageHello then (if n.link.yellow then Send(n, MessageYellow) else n)
    else if own then n
    else
      match message
      case MessageFailed => n.(link := n.link.(peerFailed := true))
      case MessageYellow => n.(link := n.link.(peerYellow := true))
      case MessageUnyellow => n.(link := n.link.(peerYellow := false))
      case _ => n
  }

  function Queued(c: Callback): Option<ColodEvent> {
    match c
    case ClientStartMigration => Some(EventStartMigration)
    case ClientAutoquit => Some(EventAutoquit)
    case ClientSetPeer => None
    case QemuFailed => Some(EventFailed)
    case Teardown => Some(EventQuit)
    case QemuHup => Some(EventFailed)
    case ReplicationError => Some(EventFailoverSync)
    case MigrationFailed => Some(EventFailoverSync)
    case DiskError(_) => Some(EventYellow)
    case LinkChange(up) => Some(if up then EventUnyellow else EventYellow)
    case Announce(_) => None
    case PeerLeft => Some(EventFailoverSync)
    case Deliver(message, own) =>
      match message
      case MessageFailover => Some(if own then EventFailoverWin else EventPeerFailover)
      case MessageFailed => if own then None else Some(EventFailoverSync)
      case MessageYellow => if own then None else Some(EventYellow)
      case MessageUnyellow => if own then None else Some(EventYellow)
      case _ => None
  }

  /** One thing that happens to a node. */
  datatype Move = Resume(outcome: Outcome) | Event(callback: Callback)

  predicate MoveEnabled(n: Node, m: Move) {
    match m
    case Resume(o) => Enabled(n, o)
    case Event(c) => CallbackEnabled(n, c)
  }

  function Apply(n: Node, m: Move): Node
    requires MoveEnabled(n, m)
  {
    match m
    case Resume(o) => Step(n, o)
    case Event(c) => Call(n, c)
  }

  /** The node as a transition system. */
  function Next(n: Node, m: Move): Option<Node> {
    if MoveEnabled(n, m) then Some(Apply(n, m)) else None
  }
}
