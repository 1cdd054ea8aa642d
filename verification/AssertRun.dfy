/**
 A run of the daemon, with wake sources firing in order, in which the assert of the QMP event waits fails: the
 condition of `WakeStates.AssertHolds` cannot be dropped. The other sources that resume its commands are i/o
 watches, which come before wake sources, and once the idle source that reading an event leaves behind, which
 is older than the wake source that stays live.
 */
module AssertRun {
  import opened ColodTypes
  import opened EventQueueSpec
  import opened MainNode
  import Invariants = MainInvariants
  import WakeUp
  import opened WakeStates
  import Runs

  /** A run one move longer. */
  lemma Further(j0: Joint, moves: seq<JointMove>, j: Joint, m: JointMove) returns (longer: seq<JointMove>, r: Joint)
    requires Runs.Reaches(JointNext, j0, moves, j) && JointNext(j, m).Some?
    ensures longer == moves + [m] && r == JointNext(j, m).value && Runs.Reaches(JointNext, j0, longer, r)
  {
    Runs.Extend(JointNext, j0, moves, j, m);
    longer, r := moves + [m], JointNext(j, m).value;
  }

  /** Where the node is, its queue, its wake sources and the phase of the protocol. */
  predicate At(j: Joint, state: MainState, park: Park, q: Queue, id: nat, live: set<nat>, nextId: nat,
               phase: WakeUp.Phase) {
    && j.node.state == state && j.node.park == park && j.node.queue == q
    && j.order.sys == WakeUp.Sys(WakeUp.Wake(q, id, live, nextId), phase)
  }

  /** An event arrives; it gets a wake source if none is remembered and the queue is empty or it interrupts. */
  lemma Queues(j0: Joint, before: seq<JointMove>, j: Joint, c: Callback, e: ColodEvent)
    returns (moves: seq<JointMove>, r: Joint)
    requires Runs.Reaches(JointNext, j0, before, j) && CanHappen(j.node, c) && Queued(c) == Some(e) && !c.QemuHup?
    requires var w := j.order.sys.wake;
      At(j, j.node.state, j.node.park, j.node.queue, w.id, w.live, w.nextId, j.order.sys.phase)
    requires j.order.sys.phase.Waiting? || j.order.sys.phase.Elsewhere?
    requires !Limited(j.node.queue, e) && |j.node.queue.pending| < j.node.queue.size
    ensures Runs.Reaches(JointNext, j0, moves, r) && j.node.channel.sent <= r.node.channel.sent
    ensures var w, q := j.order.sys.wake, j.node.queue;
      var armed := w.id == 0 && (q.pending == [] || e in q.interrupting);
      At(r, j.node.state, j.node.park, q.(pending := q.pending + [e]), if armed then w.nextId else w.id,
         if armed then w.live + {w.nextId} else w.live, if armed then w.nextId + 1 else w.nextId, j.order.sys.phase)
  {
    hide Call;
    Invariants.CallStays(j.node, c);
    Invariants.CallbackFlags(j.node, c);
    CallSends(j.node, c);
    moves, r := Further(j0, before, j, Happens(c));
  }

  lemma CallSends(n: Node, c: Callback)
    ensures n.channel.sent <= Call(n, c).channel.sent
  {
  }

  /** With nothing queued, or a wake source remembered, the coroutine parks. */
  lemma AsksInVain(j0: Joint, before: seq<JointMove>, j: Joint, id: nat, live: set<nat>, nextId: nat)
    returns (moves: seq<JointMove>, r: Joint)
    requires Runs.Reaches(JointNext, j0, before, j) && InEventWait(j.node)
    requires j.node.queue.pending == [] || id != 0
    requires At(j, j.node.state, j.node.park, j.node.queue, id, live, nextId, WakeUp.Running(WakeUp.Foreign))
    ensures Runs.Reaches(JointNext, j0, moves, r) && r.node == j.node
    ensures At(r, j.node.state, j.node.park, j.node.queue, id, live, nextId, WakeUp.Waiting)
  {
    hide Step;
    moves, r := Further(j0, before, j, Serves);
  }

  /** With no source remembered, or that of the dispatch, the coroutine is served at once. */
  lemma ServedAtOnce(j0: Joint, before: seq<JointMove>, j: Joint, live: set<nat>, nextId: nat)
    returns (moves: seq<JointMove>, r: Joint)
    requires Runs.Reaches(JointNext, j0, before, j) && InEventWait(j.node) && j.node.queue.pending != []
    requires At(j, j.node.state, j.node.park, j.node.queue, 0, live, nextId, WakeUp.Running(WakeUp.Foreign))
    ensures Runs.Reaches(JointNext, j0, moves, r) && r.node == Step(j.node, Serve)
    ensures At(r, r.node.state, r.node.park, r.node.queue, 0, live, nextId, WakeUp.Running(WakeUp.Foreign))
  {
    hide Step;
    moves, r := Further(j0, before, j, Serves);
  }

  lemma ServedByWake(j: Joint, id: nat, nextId: nat) returns (r: Joint)
    requires InEventWait(j.node) && j.node.queue.pending != [] && id > 0
    requires At(j, j.node.state, j.node.park, j.node.queue, id, {id}, nextId, WakeUp.Waiting)
    ensures JointNext(j, Wakes(id)) == Some(r) && r.node == Step(j.node, Serve)
    ensures At(r, r.node.state, r.node.park, r.node.queue, 0, {id}, nextId, WakeUp.Running(WakeUp.WakeSource(id)))
  {
    hide Step;
    r := JointNext(j, Wakes(id)).value;
  }

  /** A request to migrate is served. */
  lemma RequestServed(n: Node, behind: seq<ColodEvent>)
    requires n.state == StatePrimaryWait && n.park == PopEvent && n.queue.interrupting == AlwaysInterrupting
    requires n.queue.pending == [EventStartMigration] + behind
    requires forall e :: e in behind ==> e !in AlwaysInterrupting
    ensures Enabled(n, Serve)
    ensures var r := Step(n, Serve);
      && r.state == StatePrimaryStartMigration && r.park == SetCapabilities
      && r.queue == Queue(behind, AlwaysInterrupting + SYNC_ONLY, n.queue.size)
  {
    assert Pick(n.queue) == 0;
  }

  /** A command ends well, with nothing to report. */
  lemma Ends(j0: Joint, before: seq<JointMove>, j: Joint, outcome: Outcome, id: nat, live: set<nat>, nextId: nat)
    returns (moves: seq<JointMove>, r: Joint)
    requires Runs.Reaches(JointNext, j0, before, j) && InCommand(j.node)
    requires outcome in {CommandOk(false), ArrayDone(false)} && Enabled(j.node, outcome)
    requires At(j, j.node.state, j.node.park, j.node.queue, id, live, nextId, WakeUp.Running(WakeUp.Foreign))
    ensures Runs.Reaches(JointNext, j0, moves, r) && r.node == Step(j.node, outcome)
    ensures At(r, r.node.state, r.node.park, r.node.queue, id, live, nextId, WakeUp.Running(WakeUp.Foreign))
    ensures r.node.state == StatePrimaryWait && j.node.state != StatePrimaryWait ==>
      (EventStartMigration in r.node.queue.pending ==> r.carried)
  {
    hide Step, Enabled;
    moves, r := Further(j0, before, j, Finds(outcome));
  }

  /** The coroutine yields in a command, and a wake source that is being dispatched goes away. */
  lemma Yields(j0: Joint, before: seq<JointMove>, j: Joint, id: nat, live: set<nat>, nextId: nat,
               current: WakeUp.Source)
    returns (moves: seq<JointMove>, r: Joint)
    requires Runs.Reaches(JointNext, j0, before, j) && InCommand(j.node)
    requires At(j, j.node.state, j.node.park, j.node.queue, id, live, nextId, WakeUp.Running(current))
    ensures Runs.Reaches(JointNext, j0, moves, r) && r.node == j.node
    ensures At(r, j.node.state, j.node.park, j.node.queue, if current.WakeSource? then 0 else id,
               if current.WakeSource? then live - {current.id} else live, nextId, WakeUp.Elsewhere)
  {
    hide Step;
    moves, r := Further(j0, before, j, Parks);
  }

  /** The i/o of a command resumes it. */
  lemma Resumes(j0: Joint, before: seq<JointMove>, j: Joint, id: nat, live: set<nat>, nextId: nat)
    returns (moves: seq<JointMove>, r: Joint)
    requires Runs.Reaches(JointNext, j0, before, j) && InCommand(j.node)
    requires At(j, j.node.state, j.node.park, j.node.queue, id, live, nextId, WakeUp.Elsewhere)
    ensures Runs.Reaches(JointNext, j0, moves, r) && r.node == j.node
    ensures At(r, j.node.state, j.node.park, j.node.queue, id, live, nextId, WakeUp.Running(WakeUp.Foreign))
  {
    hide Step;
    moves, r := Further(j0, before, j, Proceeds);
  }

  /** The coroutine waits for a reply, and the reply comes. */
  lemma Replied(j0: Joint, before: seq<JointMove>, j: Joint, id: nat, live: set<nat>, nextId: nat,
                current: WakeUp.Source)
    returns (moves: seq<JointMove>, r: Joint)
    requires Runs.Reaches(JointNext, j0, before, j) && InCommand(j.node)
    requires At(j, j.node.state, j.node.park, j.node.queue, id, live, nextId, WakeUp.Running(current))
    ensures Runs.Reaches(JointNext, j0, moves, r) && r.node == j.node
    ensures At(r, j.node.state, j.node.park, j.node.queue, if current.WakeSource? then 0 else id,
               if current.WakeSource? then live - {current.id} else live, nextId, WakeUp.Running(WakeUp.Foreign))
  {
    hide Step, JointNext;
    var rest, restId := if current.WakeSource? then live - {current.id} else live,
                        if current.WakeSource? then 0 else id;
    moves, r := Yields(j0, before, j, id, live, nextId, current);
    moves, r := Resumes(j0, moves, r, restId, rest, nextId);
  }

  /** A victory is served. */
  lemma VictoryServed(n: Node, behind: seq<ColodEvent>)
    requires n.state == StateFailoverSync && n.park == PopEvent
    requires n.queue.pending == [EventFailoverWin] + behind
    requires n.queue.interrupting == AlwaysInterrupting + SYNC_ONLY
    requires forall e :: e in behind ==> e !in n.queue.interrupting
    ensures Enabled(n, Serve)
    ensures var r := Step(n, Serve);
      && r.state == StateFailover && r.park == Yank && r.channel == n.channel
      && r.queue == Queue(behind, AlwaysInterrupting, n.queue.size)
  {
    assert Pick(n.queue) == 0;
  }

  lemma PromotionSteps(n: Node)
    requires n.state == StateFailover && n.park == Yank
    ensures Enabled(n, CommandOk(false))
    ensures var m := Step(n, CommandOk(false));
      && m.state == StateFailover && m.park == FailoverCommands && Enabled(m, ArrayDone(false))
      && m.queue == n.queue && m.channel == n.channel
      && var r := Step(m, ArrayDone(false));
      && r.state == StatePrimaryWait && r.park == PopEvent && r.queue == n.queue && r.channel == n.channel
  {
  }

  /** The failover's commands succeed. */
  lemma Promoted(j0: Joint, before: seq<JointMove>, j: Joint, q: Queue, live: set<nat>, nextId: nat)
    returns (moves: seq<JointMove>, r: Joint)
    requires Runs.Reaches(JointNext, j0, before, j)
    requires At(j, StateFailover, Yank, q, 0, live, nextId, WakeUp.Running(WakeUp.Foreign))
    ensures Runs.Reaches(JointNext, j0, moves, r) && r.node.channel == j.node.channel
    ensures At(r, StatePrimaryWait, PopEvent, q, 0, live, nextId, WakeUp.Running(WakeUp.Foreign))
    ensures EventStartMigration in q.pending ==> r.carried
  {
    hide Step, JointNext;
    PromotionSteps(j.node);
    moves, r := Ends(j0, before, j, CommandOk(false), 0, live, nextId);
    moves, r := Ends(j0, moves, r, ArrayDone(false), 0, live, nextId);
  }

  /** A primary starts, is asked to migrate, and its peer dies. */
  lemma PeerDies(size: nat) returns (moves: seq<JointMove>, j: Joint)
    requires size > 0
    ensures Runs.Reaches(JointNext, Begin(size, true), moves, j)
    ensures At(j, StatePrimaryStartMigration, SetCapabilities,
               Queue([EventFailoverSync], AlwaysInterrupting + SYNC_ONLY, size), 2, {2}, 3, WakeUp.Elsewhere)
  {
    hide Step, JointNext;
    var j0 := Begin(size, true);
    moves, j := AsksInVain(j0, [], j0, 0, {}, 1);
    moves, j := Queues(j0, moves, j, ClientStartMigration, EventStartMigration);
    assert j.node.queue.pending == [EventStartMigration] + [];
    RequestServed(j.node, []);
    var r := ServedByWake(j, 1, 2);
    Runs.Extend(JointNext, j0, moves, j, Wakes(1));
    moves := moves + [Wakes(1)];
    moves, j := Yields(j0, moves, r, 0, {1}, 2, WakeUp.WakeSource(1));
    moves, j := Queues(j0, moves, j, PeerLeft, EventFailoverSync);
    assert j.node.queue.pending == [EventFailoverSync];
  }

  /** It cancels the migration. */
  lemma Cancels(j: Joint, size: nat) returns (moves: seq<JointMove>, r: Joint)
    requires size > 0
    requires At(j, StatePrimaryStartMigration, SetCapabilities,
                Queue([EventFailoverSync], AlwaysInterrupting + SYNC_ONLY, size), 2, {2}, 3, WakeUp.Elsewhere)
    ensures Runs.Reaches(JointNext, j, moves, r)
    ensures At(r, StatePrimaryStartMigration, MigrateCancel(EventFailoverSync),
               Queue([], AlwaysInterrupting + SYNC_ONLY, size), 0, {2}, 3, WakeUp.Running(WakeUp.WakeSource(2)))
  {
    hide Step, JointNext;
    var q := j.node.queue;
    assert Head(q) == EventFailoverSync && Remove(q).pending == [];
    CancelSteps(j.node);
    moves, r := Resumes(j, [], j, 2, {2}, 3);
    moves, r := Ends(j, moves, r, CommandOk(false), 2, {2}, 3);
    moves, r := AsksInVain(j, moves, r, 2, {2}, 3);
    var t := ServedByWake(r, 2, 3);
    Runs.Extend(JointNext, j, moves, r, Wakes(2));
    moves, r := moves + [Wakes(2)], t;
  }

  /** It sends its message, and is told that it has won. */
  lemma Wins(j: Joint, size: nat) returns (moves: seq<JointMove>, r: Joint)
    requires size > 0
    requires At(j, StatePrimaryStartMigration, MigrateCancel(EventFailoverSync),
                Queue([], AlwaysInterrupting + SYNC_ONLY, size), 0, {2}, 3, WakeUp.Running(WakeUp.WakeSource(2)))
    ensures Runs.Reaches(JointNext, j, moves, r) && MessageFailover in r.node.channel.sent
    ensures At(r, StateFailoverSync, PopEvent, Queue([EventFailoverWin], AlwaysInterrupting + SYNC_ONLY, size),
               3, {3}, 4, WakeUp.Waiting)
  {
    hide Step, JointNext;
    var q := Queue([], AlwaysInterrupting + SYNC_ONLY, size);
    moves, r := Replied(j, [], j, 0, {2}, 3, WakeUp.WakeSource(2));
    moves, r := CancelledToSync(j, moves, r, q, {}, 3);
    moves, r := AsksInVain(j, moves, r, 0, {}, 3);
    moves, r := Queues(j, moves, r, Deliver(MessageFailover, true), EventFailoverWin);
    assert r.node.queue.pending == [EventFailoverWin];
  }

  /** The cancelled migration leads to the wait for the outcome. */
  lemma CancelledToSync(j0: Joint, before: seq<JointMove>, j: Joint, q: Queue, live: set<nat>, nextId: nat)
    returns (moves: seq<JointMove>, r: Joint)
    requires Runs.Reaches(JointNext, j0, before, j)
    requires At(j, StatePrimaryStartMigration, MigrateCancel(EventFailoverSync), q, 0, live, nextId,
                WakeUp.Running(WakeUp.Foreign))
    ensures Runs.Reaches(JointNext, j0, moves, r) && MessageFailover in r.node.channel.sent
    ensures At(r, StateFailoverSync, PopEvent, q, 0, live, nextId, WakeUp.Running(WakeUp.Foreign))
  {
    hide Step, JointNext;
    SyncEntered(j.node);
    moves, r := Ends(j0, before, j, CommandOk(false), 0, live, nextId);
  }

  lemma SyncEntered(n: Node)
    requires n.state == StatePrimaryStartMigration && n.park == MigrateCancel(EventFailoverSync)
    ensures var r := Step(n, CommandOk(false));
      && r.state == StateFailoverSync && r.park == PopEvent && r.queue == n.queue
      && MessageFailover in r.channel.sent
  {
  }

  /** It fails over and is alone. */
  lemma RunsAlone(j: Joint, size: nat) returns (moves: seq<JointMove>, r: Joint)
    requires MessageFailover in j.node.channel.sent
    requires At(j, StateFailoverSync, PopEvent, Queue([EventFailoverWin], AlwaysInterrupting + SYNC_ONLY, size),
                3, {3}, 4, WakeUp.Waiting)
    ensures Runs.Reaches(JointNext, j, moves, r) && MessageFailover in r.node.channel.sent
    ensures At(r, StatePrimaryWait, PopEvent, Queue([], AlwaysInterrupting, size), 0, {}, 4, WakeUp.Waiting)
  {
    hide Step, JointNext;
    var q := Queue([], AlwaysInterrupting, size);
    assert j.node.queue.pending == [EventFailoverWin] + [];
    VictoryServed(j.node, []);
    r := ServedByWake(j, 3, 4);
    Runs.One(JointNext, j, Wakes(3));
    moves, r := Replied(j, [Wakes(3)], r, 0, {3}, 4, WakeUp.WakeSource(3));
    moves, r := Promoted(j, moves, r, q, {}, 4);
    moves, r := AsksInVain(j, moves, r, 0, {}, 4);
  }

  /** Two requests to migrate come, and between them a second copy of the node's own message. */
  lemma AskedTwice(j: Joint, size: nat) returns (moves: seq<JointMove>, r: Joint)
    requires size >= 4 && MessageFailover in j.node.channel.sent
    requires At(j, StatePrimaryWait, PopEvent, Queue([], AlwaysInterrupting, size), 0, {}, 4, WakeUp.Waiting)
    ensures Runs.Reaches(JointNext, j, moves, r)
    ensures At(r, StatePrimaryWait, PopEvent,
               Queue([EventStartMigration, EventFailoverWin, EventStartMigration], AlwaysInterrupting, size),
               4, {4}, 5, WakeUp.Waiting)
  {
    hide JointNext, Call;
    moves, r := Queues(j, [], j, ClientStartMigration, EventStartMigration);
    moves, r := HearsCopy(j, moves, r, size);
    NotLimited(r.node.queue, EventStartMigration);
    moves, r := Queues(j, moves, r, ClientStartMigration, EventStartMigration);
    assert r.node.queue.pending == [EventStartMigration, EventFailoverWin, EventStartMigration];
  }

  lemma NotLimited(q: Queue, e: ColodEvent)
    requires q.pending != [] && q.pending[|q.pending| - 1] !in q.interrupting + {e}
    ensures !Limited(q, e)
  {
  }

  lemma HearsCopy(j0: Joint, before: seq<JointMove>, j: Joint, size: nat)
    returns (moves: seq<JointMove>, r: Joint)
    requires size >= 4 && Runs.Reaches(JointNext, j0, before, j) && MessageFailover in j.node.channel.sent
    requires At(j, StatePrimaryWait, PopEvent, Queue([] + [EventStartMigration], AlwaysInterrupting, size),
                4, {} + {4}, 5, WakeUp.Waiting)
    ensures Runs.Reaches(JointNext, j0, moves, r)
    ensures At(r, StatePrimaryWait, PopEvent,
               Queue([EventStartMigration, EventFailoverWin], AlwaysInterrupting, size), 4, {4}, 5, WakeUp.Waiting)
  {
    hide JointNext, Call;
    NotLimited(j.node.queue, EventFailoverWin);
    moves, r := Queues(j0, before, j, Deliver(MessageFailover, true), EventFailoverWin);
    assert r.node.queue.pending == [EventStartMigration, EventFailoverWin];
  }

  /** The first request is served, and an error of the replication is read along with the reply to a command. */
  lemma ErrorRead(j: Joint, size: nat) returns (moves: seq<JointMove>, r: Joint)
    requires size >= 4
    requires At(j, StatePrimaryWait, PopEvent,
                Queue([EventStartMigration, EventFailoverWin, EventStartMigration], AlwaysInterrupting, size),
                4, {4}, 5, WakeUp.Waiting)
    ensures Runs.Reaches(JointNext, j, moves, r)
    ensures At(r, StatePrimaryStartMigration, SetCapabilities,
               Queue([EventFailoverWin, EventStartMigration, EventFailoverSync],
                     AlwaysInterrupting + SYNC_ONLY, size), 0, {5}, 6, WakeUp.Elsewhere)
  {
    hide Step, JointNext;
    var behind := [EventFailoverWin, EventStartMigration];
    assert j.node.queue.pending == [EventStartMigration] + behind;
    RequestServed(j.node, behind);
    r := ServedByWake(j, 4, 5);
    Runs.One(JointNext, j, Wakes(4));
    moves, r := NoticesError(j, [Wakes(4)], r, behind, size, 4);
    assert behind + [EventFailoverSync] == [EventFailoverWin, EventStartMigration, EventFailoverSync];
  }

  /** The new wake source is forgotten when that of the dispatch is destroyed. */
  lemma NoticesError(j0: Joint, before: seq<JointMove>, j: Joint, pending: seq<ColodEvent>, size: nat, id: nat)
    returns (moves: seq<JointMove>, r: Joint)
    requires Runs.Reaches(JointNext, j0, before, j) && id > 0 && |pending| < size
    requires At(j, StatePrimaryStartMigration, SetCapabilities, Queue(pending, AlwaysInterrupting + SYNC_ONLY, size),
                0, {id}, id + 1, WakeUp.Running(WakeUp.WakeSource(id)))
    requires !Limited(j.node.queue, EventFailoverSync)
    ensures Runs.Reaches(JointNext, j0, moves, r)
    ensures At(r, StatePrimaryStartMigration, SetCapabilities,
               Queue(pending + [EventFailoverSync], AlwaysInterrupting + SYNC_ONLY, size),
               0, {id + 1}, id + 2, WakeUp.Elsewhere)
  {
    moves, r := Further(j0, before, j, Reads(ReplicationError));
  }

  /** Another follows in the dispatch of its wake source, and the end of that forgets the new one. */
  lemma SourceForgotten(j: Joint, size: nat) returns (moves: seq<JointMove>, r: Joint)
    requires size >= 4
    requires At(j, StatePrimaryStartMigration, SetCapabilities,
                Queue([EventFailoverWin, EventStartMigration, EventFailoverSync],
                      AlwaysInterrupting + SYNC_ONLY, size), 0, {5}, 6, WakeUp.Elsewhere)
    ensures Runs.Reaches(JointNext, j, moves, r)
    ensures At(r, StatePrimaryStartMigration, SetCapabilities,
               Queue([EventFailoverWin, EventStartMigration, EventFailoverSync, EventFailoverSync],
                     AlwaysInterrupting + SYNC_ONLY, size), 0, {6}, 7, WakeUp.Elsewhere)
  {
    moves, r := [], j;
    moves, r := Further(j, moves, r, Wakes(5));
    assert r.node == j.node && r.order.sys.phase.Running?;
    assert LastIndex(r.node.queue.pending, r.node.queue.interrupting) == 1;
    moves, r := NoticesError(j, moves, r, r.node.queue.pending, size, 5);
    assert j.node.queue.pending + [EventFailoverSync] ==
           [EventFailoverWin, EventStartMigration, EventFailoverSync, EventFailoverSync];
  }

  /** The first error is served in the dispatch of another source, and the migration is cancelled. */
  lemma CancelsAgain(j: Joint, size: nat) returns (moves: seq<JointMove>, r: Joint)
    requires At(j, StatePrimaryStartMigration, SetCapabilities,
                Queue([EventFailoverWin, EventStartMigration, EventFailoverSync, EventFailoverSync],
                      AlwaysInterrupting + SYNC_ONLY, size), 0, {6}, 7, WakeUp.Elsewhere)
    ensures Runs.Reaches(JointNext, j, moves, r)
    ensures At(r, StatePrimaryStartMigration, MigrateCancel(EventFailoverSync),
               Queue([EventFailoverWin, EventStartMigration, EventFailoverSync], AlwaysInterrupting + SYNC_ONLY, size),
               0, {6}, 7, WakeUp.Running(WakeUp.Foreign))
  {
    hide Step, JointNext;
    var q := j.node.queue;
    assert RemoveAt(q.pending, 2) == [EventFailoverWin, EventStartMigration, EventFailoverSync];
    ErrorHeads(q);
    CancelSteps(j.node);
    moves, r := Resumes(j, [], j, 0, {6}, 7);
    moves, r := Ends(j, moves, r, CommandOk(false), 0, {6}, 7);
    moves, r := ServedAtOnce(j, moves, r, {6}, 7);
  }

  /** The third event, the first that interrupts, is served next. */
  lemma ErrorHeads(q: Queue)
    requires q.interrupting == AlwaysInterrupting + SYNC_ONLY && |q.pending| >= 3
    requires q.pending[..3] == [EventFailoverWin, EventStartMigration, EventFailoverSync]
    ensures PendingInterrupt(q) && Head(q) == EventFailoverSync && Pick(q) == 2
  {
    assert q.pending[0] == q.pending[..3][0] && q.pending[1] == q.pending[..3][1] && q.pending[2] == q.pending[..3][2];
    assert q.pending[2] in q.interrupting;
  }

  /** A migration with a request to fail over pending is stopped after its command, and cancelled. */
  lemma CancelSteps(n: Node)
    requires n.state == StatePrimaryStartMigration && n.park == SetCapabilities
    requires PendingInterrupt(n.queue) && Head(n.queue) == EventFailoverSync
    ensures var m := Step(n, CommandOk(false));
      && m.state == n.state && m.park == PopInterrupt && m.queue == n.queue && Enabled(m, Serve)
      && var r := Step(m, Serve);
      && r.state == n.state && r.park == MigrateCancel(EventFailoverSync) && r.queue == Remove(n.queue)
  {
  }

  /** It comes to wait for the outcome and drops the second error. */
  lemma DropsError(j: Joint, size: nat) returns (moves: seq<JointMove>, r: Joint)
    requires At(j, StatePrimaryStartMigration, MigrateCancel(EventFailoverSync),
                Queue([EventFailoverWin, EventStartMigration, EventFailoverSync],
                      AlwaysInterrupting + SYNC_ONLY, size), 0, {6}, 7, WakeUp.Running(WakeUp.Foreign))
    ensures Runs.Reaches(JointNext, j, moves, r)
    ensures At(r, StateFailoverSync, PopEvent,
               Queue([EventFailoverWin, EventStartMigration], AlwaysInterrupting + SYNC_ONLY, size),
               0, {6}, 7, WakeUp.Running(WakeUp.Foreign))
  {
    hide Step, JointNext;
    var q := j.node.queue;
    assert RemoveAt(q.pending, 2) == [EventFailoverWin, EventStartMigration];
    ErrorHeads(q);
    moves, r := Replied(j, [], j, 0, {6}, 7, WakeUp.Foreign);
    moves, r := CancelledToSync(j, moves, r, q, {6}, 7);
    ErrorDropped(r.node);
    moves, r := ServedAtOnce(j, moves, r, {6}, 7);
  }

  lemma ErrorDropped(n: Node)
    requires n.state == StateFailoverSync && n.park == PopEvent
    requires n.queue.pending != [] && Head(n.queue) == EventFailoverSync
    ensures Step(n, Serve) == Taken(n)
  {
  }

  /** It makes the node fail over, and a primary on its own with the second request still queued. */
  lemma CarriesRequest(j: Joint, size: nat) returns (moves: seq<JointMove>, r: Joint)
    requires At(j, StateFailoverSync, PopEvent,
                Queue([EventFailoverWin, EventStartMigration], AlwaysInterrupting + SYNC_ONLY, size),
                0, {6}, 7, WakeUp.Running(WakeUp.Foreign))
    ensures Runs.Reaches(JointNext, j, moves, r) && r.carried
    ensures At(r, StatePrimaryWait, PopEvent, Queue([EventStartMigration], AlwaysInterrupting, size),
               0, {6}, 7, WakeUp.Running(WakeUp.Foreign))
  {
    hide Step, JointNext;
    var q := Queue([EventStartMigration], AlwaysInterrupting, size);
    assert j.node.queue.pending == [EventFailoverWin] + [EventStartMigration];
    VictoryServed(j.node, [EventStartMigration]);
    moves, r := ServedAtOnce(j, [], j, {6}, 7);
    moves, r := Replied(j, moves, r, 0, {6}, 7, WakeUp.Foreign);
    moves, r := Promoted(j, moves, r, q, {6}, 7);
  }

  /** That request is served at once, and the wait for the migration is entered with the forgotten source live. */
  lemma WaitsInVain(j: Joint, size: nat) returns (moves: seq<JointMove>, r: Joint)
    requires At(j, StatePrimaryWait, PopEvent, Queue([EventStartMigration], AlwaysInterrupting, size),
                0, {6}, 7, WakeUp.Running(WakeUp.Foreign))
    ensures Runs.Reaches(JointNext, j, moves, r)
    ensures At(r, StatePrimaryStartMigration, WaitPreSwitchover, Queue([], AlwaysInterrupting + SYNC_ONLY, size),
               0, {6}, 7, WakeUp.QmpWaiting)
  {
    hide Step, JointNext;
    var q := Queue([], AlwaysInterrupting + SYNC_ONLY, size);
    assert j.node.queue.pending == [EventStartMigration] + [];
    RequestServed(j.node, []);
    moves, r := ServedAtOnce(j, [], j, {6}, 7);
    moves, r := Replied(j, moves, r, 0, {6}, 7, WakeUp.Foreign);
    moves, r := MigrationWaits(j, moves, r, size);
  }

  lemma MigrationWaits(j0: Joint, before: seq<JointMove>, j: Joint, size: nat)
    returns (moves: seq<JointMove>, r: Joint)
    requires Runs.Reaches(JointNext, j0, before, j)
    requires At(j, StatePrimaryStartMigration, SetCapabilities, Queue([], AlwaysInterrupting + SYNC_ONLY, size),
                0, {6}, 7, WakeUp.Running(WakeUp.Foreign))
    ensures Runs.Reaches(JointNext, j0, moves, r)
    ensures At(r, StatePrimaryStartMigration, WaitPreSwitchover, Queue([], AlwaysInterrupting + SYNC_ONLY, size),
               0, {6}, 7, WakeUp.QmpWaiting)
  {
    var q := Queue([], AlwaysInterrupting + SYNC_ONLY, size);
    hide Step, JointNext;
    MigrationSteps(j.node);
    moves, r := Ends(j0, before, j, CommandOk(false), 0, {6}, 7);
    moves, r := Ends(j0, moves, r, ArrayDone(false), 0, {6}, 7);
    moves, r := EntersWait(j0, moves, r, q);
  }

  lemma MigrationSteps(n: Node)
    requires n.state == StatePrimaryStartMigration && n.park == SetCapabilities && n.queue.pending == []
    ensures var m := Step(n, CommandOk(false));
      && m.state == n.state && m.park == StartCommands && m.queue == n.queue
      && var r := Step(m, ArrayDone(false));
      && r.state == n.state && r.park == WaitPreSwitchover && r.queue == n.queue
  {
  }

  lemma EntersWait(j0: Joint, before: seq<JointMove>, j: Joint, q: Queue) returns (moves: seq<JointMove>, r: Joint)
    requires Runs.Reaches(JointNext, j0, before, j)
    requires At(j, StatePrimaryStartMigration, WaitPreSwitchover, q, 0, {6}, 7, WakeUp.Running(WakeUp.Foreign))
    ensures Runs.Reaches(JointNext, j0, moves, r)
    ensures At(r, StatePrimaryStartMigration, WaitPreSwitchover, q, 0, {6}, 7, WakeUp.QmpWaiting)
  {
    hide Step;
    moves, r := Further(j0, before, j, Parks);
  }

  lemma FirstFailover(size: nat) returns (moves: seq<JointMove>, r: Joint)
    requires size >= 4
    ensures Runs.Reaches(JointNext, Begin(size, true), moves, r)
    ensures At(r, StatePrimaryWait, PopEvent,
               Queue([EventStartMigration, EventFailoverWin, EventStartMigration], AlwaysInterrupting, size),
               4, {4}, 5, WakeUp.Waiting)
  {
    hide JointNext;
    var j := Begin(size, true);
    var a, j1 := PeerDies(size);
    var b, j2 := Cancels(j1, size);
    Runs.Concat(JointNext, j, a, j1, b, j2);
    var c, j3 := Wins(j2, size);
    Runs.Concat(JointNext, j, a + b, j2, c, j3);
    var d, j4 := RunsAlone(j3, size);
    Runs.Concat(JointNext, j, a + b + c, j3, d, j4);
    var e;
    e, r := AskedTwice(j4, size);
    Runs.Concat(JointNext, j, a + b + c + d, j4, e, r);
    moves := a + b + c + d + e;
  }

  lemma SecondFailover(j: Joint, size: nat) returns (moves: seq<JointMove>, r: Joint)
    requires size >= 4
    requires At(j, StatePrimaryWait, PopEvent,
                Queue([EventStartMigration, EventFailoverWin, EventStartMigration], AlwaysInterrupting, size),
                4, {4}, 5, WakeUp.Waiting)
    ensures Runs.Reaches(JointNext, j, moves, r)
    ensures At(r, StatePrimaryStartMigration, WaitPreSwitchover, Queue([], AlwaysInterrupting + SYNC_ONLY, size),
               0, {6}, 7, WakeUp.QmpWaiting)
  {
    hide JointNext;
    var a, j1 := ErrorRead(j, size);
    var b, j2 := SourceForgotten(j1, size);
    Runs.Concat(JointNext, j, a, j1, b, j2);
    var c, j3 := CancelsAgain(j2, size);
    Runs.Concat(JointNext, j, a + b, j2, c, j3);
    var d, j4 := DropsError(j3, size);
    Runs.Concat(JointNext, j, a + b + c, j3, d, j4);
    var e, j5 := CarriesRequest(j4, size);
    Runs.Concat(JointNext, j, a + b + c + d, j4, e, j5);
    var f;
    f, r := WaitsInVain(j5, size);
    Runs.Concat(JointNext, j, a + b + c + d + e, j5, f, r);
    moves := a + b + c + d + e + f;
  }

  /**
   The assert can fail. A primary that has failed over is asked twice to migrate, with a copy of its own
   message between the requests; an error read in the dispatch of a wake source leaves another live and
   forgotten; the failover that follows is won by the copy, and the second request is served by the dispatch of
   another source, which leaves nothing queued when the forgotten source fires.
   */
  lemma AssertFails(size: nat) returns (moves: seq<JointMove>, j: Joint)
    requires size >= 4
    ensures Runs.Reaches(JointNext, Begin(size, true), moves, j)
    ensures j.order.sys.phase.AssertFailed? && j.node.state == StatePrimaryStartMigration
    ensures j.node.queue.pending == []
  {
    var a, j1 := FirstFailover(size);
    var b, j2 := SecondFailover(j1, size);
    Runs.Concat(JointNext, Begin(size, true), a, j1, b, j2);
    moves, j := Further(Begin(size, true), a + b, j2, Wakes(6));
  }
}
