/**
 How a victory comes to be left over. A primary whose peer has died fails over; its MESSAGE_FAILOVER was sent
 twice, and the second copy is heard when the next migration has been asked for. The new peer finds the
 primary migrating with that victory in its queue, and the two no longer agree.
 */
module LeftoverVictory {
  import opened ColodTypes
  import opened EventQueueSpec
  import opened MainNode
  import opened MainInvariants
  import opened FailoverAgreement
  import opened FailoverHypotheses
  import Runs

  function Began(size: nat): System {
    System(Member(Start(size, true), 0), Member(Start(size, false), 0), [])
  }

  /** The second node is started anew; it hears what is sent after it has joined. */
  function Rejoined(s: System, size: nat): System {
    s.(second := Member(Start(size, false), |s.log|))
  }

  /** Where the first node is, with nothing lost so far and `second` and the log as they were. */
  predicate At(s: System, t: System, state: MainState, park: Park, pending: seq<ColodEvent>) {
    var n := t.first.node;
    && n.state == state && n.park == park && n.queue.pending == pending
    && n.queue.size == s.first.node.queue.size && n.past.rejected == s.first.node.past.rejected
    && t.first.delivered == s.first.delivered && t.second == s.second && t.log == s.log
  }

  /** A run one move longer. */
  lemma Further(s0: System, moves: seq<SystemMove>, s: System, m: SystemMove)
    returns (longer: seq<SystemMove>, t: System)
    requires Runs.Reaches(SystemNext, s0, moves, s) && SystemNext(s, m).Some?
    ensures longer == moves + [m] && t == SystemNext(s, m).value && Runs.Reaches(SystemNext, s0, longer, t)
  {
    Runs.Extend(SystemNext, s0, moves, s, m);
    longer, t := moves + [m], SystemNext(s, m).value;
  }

  /** The primary is asked to migrate, and its peer dies. */
  lemma PeerDies(s: System) returns (moves: seq<SystemMove>, t: System)
    requires At(s, s, StatePrimaryWait, PopEvent, []) && s.first.node.queue.size > 0
    ensures Runs.Reaches(SystemNext, s, moves, t)
    ensures At(s, t, StatePrimaryStartMigration, SetCapabilities, [EventFailoverSync])
    ensures t.first.node.queue.interrupting == AlwaysInterrupting + SYNC_ONLY
  {
    moves, t := [], s;
    moves, t := Further(s, moves, t, Local(First, Event(ClientStartMigration)));
    assert At(s, t, StatePrimaryWait, PopEvent, [EventStartMigration]);
    moves, t := Further(s, moves, t, Local(First, Resume(Serve)));
    assert At(s, t, StatePrimaryStartMigration, SetCapabilities, []);
    moves, t := Further(s, moves, t, Local(First, Event(PeerLeft)));
    assert t.first.node.queue.pending == [EventFailoverSync];
  }

  /** It cancels the migration and waits for the outcome. */
  lemma FailsOver(s: System) returns (moves: seq<SystemMove>, t: System)
    requires At(s, s, StatePrimaryStartMigration, SetCapabilities, [EventFailoverSync])
    requires s.first.node.queue.interrupting == AlwaysInterrupting + SYNC_ONLY
    ensures Runs.Reaches(SystemNext, s, moves, t)
    ensures At(s, t, StateFailoverSync, PopEvent, []) && MessageFailover in t.first.node.channel.retransmit
  {
    moves, t := [], s;
    moves, t := Further(s, moves, t, Local(First, Resume(CommandOk(false))));
    assert At(s, t, StatePrimaryStartMigration, PopInterrupt, [EventFailoverSync]);
    moves, t := Further(s, moves, t, Local(First, Resume(Serve)));
    assert At(s, t, StatePrimaryStartMigration, MigrateCancel(EventFailoverSync), []);
    moves, t := Further(s, moves, t, Local(First, Resume(CommandOk(false))));
  }

  /** Its message is sent, and sent again before it is heard. */
  lemma SendsTwice(s: System) returns (moves: seq<SystemMove>, t: System)
    requires At(s, s, StateFailoverSync, PopEvent, []) && MessageFailover in s.first.node.channel.retransmit
    requires s.first.delivered == |s.log| && s.first.node.queue.size > 0
    ensures Runs.Reaches(SystemNext, s, moves, t)
    ensures t.log == s.log + [Entry(First, MessageFailover), Entry(First, MessageFailover)]
    ensures At(s.(first := t.first, log := t.log), t, StateFailoverSync, PopEvent, [EventFailoverWin])
    ensures t.first.delivered == |s.log| + 1 && t.second == s.second
    ensures t.first.node.queue.size == s.first.node.queue.size
    ensures t.first.node.past.rejected == s.first.node.past.rejected
  {
    var own := Entry(First, MessageFailover);
    moves, t := [], s;
    moves, t := Further(s, moves, t, Transmit(First, MessageFailover));
    moves, t := Further(s, moves, t, Transmit(First, MessageFailover));
    assert (s.log + [own]) + [own] == s.log + [own, own];
    moves, t := Further(s, moves, t, DeliverNext(First));
    assert t.first.node.queue.pending == [EventFailoverWin];
  }

  /** It wins and is alone. */
  lemma RunsAlone(s: System) returns (moves: seq<SystemMove>, t: System)
    requires At(s, s, StateFailoverSync, PopEvent, [EventFailoverWin])
    ensures Runs.Reaches(SystemNext, s, moves, t)
    ensures At(s, t, StatePrimaryWait, PopEvent, [])
    ensures t.first.node.queue.interrupting == AlwaysInterrupting
  {
    moves, t := [], s;
    moves, t := Further(s, moves, t, Local(First, Resume(Serve)));
    assert At(s, t, StateFailover, Yank, []);
    moves, t := Further(s, moves, t, Local(First, Resume(CommandOk(false))));
    assert At(s, t, StateFailover, FailoverCommands, []);
    moves, t := Further(s, moves, t, Local(First, Resume(ArrayDone(false))));
  }

  /** The next migration is asked for, and only then the second copy is heard. */
  lemma HearsCopy(s: System) returns (moves: seq<SystemMove>, t: System)
    requires At(s, s, StatePrimaryWait, PopEvent, []) && s.first.node.queue.size >= 2
    requires s.first.node.queue.interrupting == AlwaysInterrupting
    requires s.first.delivered + 1 == |s.log| && s.log[s.first.delivered] == Entry(First, MessageFailover)
    ensures Runs.Reaches(SystemNext, s, moves, t)
    ensures t.first.node.state == StatePrimaryStartMigration && t.first.node.queue.pending == [EventFailoverWin]
    ensures t.first.node.queue.size == s.first.node.queue.size
    ensures t.first.node.past.rejected == s.first.node.past.rejected
    ensures t.first.delivered == |s.log| && t.log == s.log && t.second == s.second
  {
    hide Step, Call;
    var n := Call(s.first.node, ClientStartMigration);
    RequestQueued(s.first.node);
    CopyQueued(n);
    RequestServed(Call(n, Deliver(MessageFailover, true)));
    moves, t := [], s;
    moves, t := Further(s, moves, t, Local(First, Event(ClientStartMigration)));
    moves, t := Further(s, moves, t, DeliverNext(First));
    moves, t := Further(s, moves, t, Local(First, Resume(Serve)));
  }

  /** `r` is `n` with these events pending. */
  predicate WithPending(n: Node, r: Node, pending: seq<ColodEvent>) {
    && r.queue == n.queue.(pending := pending) && r.state == n.state && r.park == n.park
    && r.past.rejected == n.past.rejected
  }

  lemma RequestQueued(n: Node)
    requires n.queue.pending == [] && n.queue.size >= 2
    ensures WithPending(n, Call(n, ClientStartMigration), [EventStartMigration])
  {
  }

  lemma CopyQueued(n: Node)
    requires n.queue.pending == [EventStartMigration] && n.queue.size >= 2
    ensures WithPending(n, Call(n, Deliver(MessageFailover, true)), [EventStartMigration, EventFailoverWin])
  {
  }

  lemma RequestServed(n: Node)
    requires n.state == StatePrimaryWait && n.park == PopEvent && n.queue.interrupting == AlwaysInterrupting
    requires n.queue.pending == [EventStartMigration, EventFailoverWin]
    ensures Enabled(n, Serve)
    ensures var r := Step(n, Serve);
      && r.state == StatePrimaryStartMigration && r.queue.pending == [EventFailoverWin]
      && r.queue.size == n.queue.size && r.past.rejected == n.past.rejected
  {
    assert Pick(n.queue) == 0;
  }

  lemma SecondGetsReady(s: System, size: nat) returns (t: System)
    requires s.second.node == Start(size, false)
    ensures SystemNext(s, Local(Second, Resume(CommandOk(false)))) == Some(t)
    ensures t.first == s.first && t.log == s.log && t.second.delivered == s.second.delivered
    ensures var n := t.second.node;
      && n.state == StateSecondaryWait && n.park == WaitResume && n.queue.pending == [] && n.queue.size == size
      && n.past.rejected == {}
  {
    t := SystemNext(s, Local(Second, Resume(CommandOk(false)))).value;
  }

  /** Every run keeps the invariant of both nodes. */
  lemma RunKeepsBoth(s0: System, moves: seq<SystemMove>, s: System)
    requires Inv(s0.first.node) && Inv(s0.second.node) && Runs.Reaches(SystemNext, s0, moves, s)
    ensures Inv(s.first.node) && Inv(s.second.node)
  {
    var inv := (t: System) => Inv(t.first.node) && Inv(t.second.node);
    forall t, m | inv(t) && SystemNext(t, m).Some? ensures inv(SystemNext(t, m).value) {
      match m
      case Local(id, move) => ApplyKeepsInv(Get(t, id).node, move);
      case Transmit(_, _) =>
      case DeliverNext(id) =>
        var e := t.log[Get(t, id).delivered];
        CallKeepsInv(Get(t, id).node, Deliver(e.message, e.sender == id));
    }
    Runs.Invariant(SystemNext, inv, s0, moves, s);
  }

  /** The peer dies, and the primary waits for the outcome. */
  lemma DiesAndFailsOver(s: System) returns (moves: seq<SystemMove>, t: System)
    requires At(s, s, StatePrimaryWait, PopEvent, []) && s.first.node.queue.size > 0
    ensures Runs.Reaches(SystemNext, s, moves, t)
    ensures At(s, t, StateFailoverSync, PopEvent, []) && MessageFailover in t.first.node.channel.retransmit
  {
    hide SystemNext;
    var a, s1 := PeerDies(s);
    var b;
    b, t := FailsOver(s1);
    Runs.Concat(SystemNext, s, a, s1, b, t);
    moves := a + b;
  }

  /** The first epoch: the peer dies, and the primary fails over with its message twice in the log. */
  lemma FirstEpoch(size: nat) returns (moves: seq<SystemMove>, t: System)
    requires size > 0
    ensures Runs.Reaches(SystemNext, Began(size), moves, t)
    ensures At(t, t, StatePrimaryWait, PopEvent, []) && t.first.node.queue.interrupting == AlwaysInterrupting
    ensures t.first.node.queue.size == size && t.first.node.past.rejected == {}
    ensures t.log == [Entry(First, MessageFailover), Entry(First, MessageFailover)] && t.first.delivered == 1
  {
    hide SystemNext;
    var s := Began(size);
    var a, s1 := DiesAndFailsOver(s);
    var b, s2 := SendsTwice(s1);
    Runs.Concat(SystemNext, s, a, s1, b, s2);
    var c;
    c, t := RunsAlone(s2);
    Runs.Concat(SystemNext, s, a + b, s2, c, t);
    moves := a + b + c;
  }

  /** An epoch can begin with a victory left over, and its members open. */
  lemma LeftoverVictoryArises(size: nat) returns (a: seq<SystemMove>, s: System, b: seq<SystemMove>, t: System)
    requires size >= 2
    ensures Runs.Reaches(SystemNext, Began(size), a, s)
    ensures Runs.Reaches(SystemNext, Rejoined(s, size), b, t)
    ensures EpochStart(t) && Stale(t, First) && Open(t, Second)
  {
    hide SystemNext;
    StartInv(size, true);
    StartInv(size, false);
    a, s := FirstEpoch(size);
    RunKeepsBoth(Began(size), a, s);
    var r := Rejoined(s, size);
    var c, r1 := HearsCopy(r);
    t := SecondGetsReady(r1, size);
    Runs.Extend(SystemNext, r, c, r1, Local(Second, Resume(CommandOk(false))));
    b := c + [Local(Second, Resume(CommandOk(false)))];
    RunKeepsBoth(r, b, t);
  }
}
