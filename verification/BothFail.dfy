/**
 Agreement is safe but not live: whenever two members can fail over, they can also defeat each other. If
 both send their MESSAGE_FAILOVER, the peer's overtakes the victory in the queue of the first sender.
 */
module BothFail {
  import opened ColodTypes
  import opened EventQueueSpec
  import opened MainNode
  import opened MainInvariants
  import opened FailoverAgreement
  import opened FailoverHypotheses
  import Runs

  /** A node waits for the outcome with an empty queue. */
  predicate Drained(n: Node) {
    && Inv(n) && n.state == StateFailoverSync && n.park == PopEvent && n.queue.pending == []
    && n.queue.size >= 2 && MessageFailover in n.channel.retransmit
  }

  lemma ServeKeepsSync(n: Node)
    requires Inv(n) && n.state == StateFailoverSync && n.park == PopEvent && Calm(n.queue) && n.queue.pending != []
    requires EventFailoverWin !in n.queue.pending
    ensures LocalNext(n, Resume(Serve)) == Some(Taken(n)) && Inv(Taken(n)) && Calm(Taken(n).queue)
    ensures EventFailoverWin !in Taken(n).queue.pending
  {
    ServeSyncing(n);
    assert Head(n.queue) in n.queue.pending;
  }

  /** Waiting for the outcome, a node serves whatever else is pending. */
  lemma {:induction false} Drain(n: Node) returns (moves: seq<Move>, r: Node)
    requires Inv(n) && n.state == StateFailoverSync && n.park == PopEvent && Calm(n.queue)
    requires EventFailoverWin !in n.queue.pending && n.queue.size >= 2 && MessageFailover in n.channel.retransmit
    ensures Runs.Reaches(LocalNext, n, moves, r) && Drained(r) && r.past.history == n.past.history
    decreases |n.queue.pending|
  {
    if n.queue.pending == [] {
      moves, r := [], n;
    } else {
      ServeKeepsSync(n);
      moves, r := Drain(Taken(n));
      Prepend(n, Resume(Serve), Taken(n), moves, r);
      moves := [Resume(Serve)] + moves;
    }
  }

  /** The node a defeat has been served to. */
  predicate Defeated(n: Node, r: Node) {
    r.state == StateFailed && r.past.history == n.past.history + [StateFailedPeerFailover, StateFailed]
  }

  /** The peer's message comes alone, or overtakes the victory that came before it. */
  lemma DefeatIsServed(m: Node)
    requires m.state == StateFailoverSync && m.park == PopEvent
    requires m.queue.pending in {[EventPeerFailover], [EventFailoverWin, EventPeerFailover]}
    requires m.queue.interrupting == AlwaysInterrupting + SYNC_ONLY
    ensures Enabled(m, Serve) && Defeated(m, Step(m, Serve))
  {
    assert m.queue.pending[|m.queue.pending| - 1] in m.queue.interrupting;
    assert Pick(m.queue) == |m.queue.pending| - 1;
    BecomeHistory(Taken(m), StateFailedPeerFailover);
  }

  /** What a member that waits with an empty queue has heard when its defeat is due. */
  function Heard(n: Node, id: Id): Node {
    Call(if id == First then Call(n, Deliver(MessageFailover, true)) else n, Deliver(MessageFailover, false))
  }

  lemma HeardIsDefeated(n: Node, id: Id)
    requires Drained(n)
    ensures Enabled(Heard(n, id), Serve) && Defeated(n, Step(Heard(n, id), Serve))
  {
    var m := if id == First then Call(n, Deliver(MessageFailover, true)) else n;
    assert m.queue.pending == if id == First then [EventFailoverWin] else [];
    assert Heard(n, id).queue.pending == m.queue.pending + [EventPeerFailover];
    assert [] + [EventPeerFailover] == [EventPeerFailover];
    assert [EventFailoverWin] + [EventPeerFailover] == [EventFailoverWin, EventPeerFailover];
    DefeatIsServed(Heard(n, id));
  }

  /** Both messages are in the log, and the member hears them up to the peer's. */
  lemma HearsBoth(s: System, id: Id) returns (moves: seq<SystemMove>, k: nat)
    requires s.log == [Entry(First, MessageFailover), Entry(Second, MessageFailover)]
    requires Get(s, id).delivered == 0
    ensures Runs.Reaches(SystemNext, s, moves, Put(s, id, Member(Heard(Get(s, id).node, id), k)))
  {
    hide Call;
    var n := Get(s, id).node;
    var m := Call(n, Deliver(MessageFailover, id == First));
    var s1 := Put(s, id, Member(m, 1));
    assert SystemNext(s, DeliverNext(id)) == Some(s1);
    Runs.One(SystemNext, s, DeliverNext(id));
    moves, k := [DeliverNext(id)], 1;
    if id == First {
      assert SystemNext(s1, DeliverNext(id)) == Some(Put(s, id, Member(Heard(n, id), 2)));
      Runs.Extend(SystemNext, s, moves, s1, DeliverNext(id));
      moves, k := moves + [DeliverNext(id)], 2;
    }
  }

  /** It is defeated. */
  lemma HearsDefeat(s: System, id: Id) returns (moves: seq<SystemMove>, r: Node, k: nat)
    requires s.log == [Entry(First, MessageFailover), Entry(Second, MessageFailover)]
    requires Get(s, id).delivered == 0 && Drained(Get(s, id).node)
    ensures Runs.Reaches(SystemNext, s, moves, Put(s, id, Member(r, k)))
    ensures Defeated(Get(s, id).node, r)
  {
    hide Heard, Step;
    var n := Get(s, id).node;
    moves, k := HearsBoth(s, id);
    HeardIsDefeated(n, id);
    r := Step(Heard(n, id), Serve);
    var t := Put(s, id, Member(Heard(n, id), k));
    assert SystemNext(t, Local(id, Resume(Serve))) == Some(Put(s, id, Member(r, k)));
    Runs.Extend(SystemNext, s, moves, t, Local(id, Resume(Serve)));
    moves := moves + [Local(id, Resume(Serve))];
  }

  /** A member gets as far as waiting for the outcome with an empty queue. */
  lemma GetsReady(s: System, id: Id) returns (moves: seq<SystemMove>, r: Node)
    requires EpochMember(s, id)
    requires CanFailOver(Get(s, id).node) && Get(s, id).node.queue.size >= 2
    ensures Runs.Reaches(SystemNext, s, moves, WithNode(s, id, r)) && Drained(r)
    ensures NotWon(r, History(Get(s, id)))
  {
    var a, n := ToSync(Get(s, id).node);
    var la := Lift(s, id, a, n);
    var start := Base(History(Get(s, id)), 0);
    RunKeepsMember(s, la, WithNode(s, id, n), id, start);
    var b, d := Drain(n);
    Runs.Concat(LocalNext, Get(s, id).node, a, n, b, d);
    moves := Lift(s, id, a + b, d);
    RunKeepsMember(s, moves, WithNode(s, id, d), id, start);
    r := d;
  }

  /** No MESSAGE_FAILOVER has been sent yet, and the member may take part. */
  predicate EpochMember(s: System, id: Id) {
    s.log == [] && Get(s, id).delivered == 0 && Fresh(Get(s, id), s.log)
  }

  /** Both members send. */
  lemma BothSend(s: System) returns (moves: seq<SystemMove>)
    requires s.log == [] && Drained(s.first.node) && Drained(s.second.node)
    ensures Runs.Reaches(SystemNext, s, moves,
                         s.(log := [Entry(First, MessageFailover), Entry(Second, MessageFailover)]))
  {
    var s1 := s.(log := [Entry(First, MessageFailover)]);
    assert s.log + [Entry(First, MessageFailover)] == s1.log;
    assert SystemNext(s, Transmit(First, MessageFailover)) == Some(s1);
    Runs.One(SystemNext, s, Transmit(First, MessageFailover));
    var s2 := s.(log := [Entry(First, MessageFailover), Entry(Second, MessageFailover)]);
    assert s1.log + [Entry(Second, MessageFailover)] == s2.log;
    assert SystemNext(s1, Transmit(Second, MessageFailover)) == Some(s2);
    moves := [Transmit(First, MessageFailover)];
    Runs.Extend(SystemNext, s, moves, s1, Transmit(Second, MessageFailover));
    moves := moves + [Transmit(Second, MessageFailover)];
  }

  lemma BothHear(s: System) returns (moves: seq<SystemMove>, r: System)
    requires s.log == [Entry(First, MessageFailover), Entry(Second, MessageFailover)]
    requires s.first.delivered == 0 && s.second.delivered == 0 && Drained(s.first.node) && Drained(s.second.node)
    ensures Runs.Reaches(SystemNext, s, moves, r)
    ensures Defeated(s.first.node, r.first.node) && Defeated(s.second.node, r.second.node)
  {
    var c, r1, k1 := HearsDefeat(s, First);
    var t := Put(s, First, Member(r1, k1));
    var d, r2, k2 := HearsDefeat(t, Second);
    r := Put(t, Second, Member(r2, k2));
    Runs.Concat(SystemNext, s, c, t, d, r);
    moves := c + d;
  }

  lemma BothReady(s: System) returns (moves: seq<SystemMove>, r: System)
    requires EpochMember(s, First) && EpochMember(s, Second)
    requires CanFailOver(s.first.node) && s.first.node.queue.size >= 2
    requires CanFailOver(s.second.node) && s.second.node.queue.size >= 2
    ensures Runs.Reaches(SystemNext, s, moves, r) && r.log == []
    ensures r.first.delivered == 0 && Drained(r.first.node) && NotWon(r.first.node, History(s.first))
    ensures r.second.delivered == 0 && Drained(r.second.node) && NotWon(r.second.node, History(s.second))
  {
    var a, n1 := GetsReady(s, First);
    var s1 := WithNode(s, First, n1);
    var b, n2 := GetsReady(s1, Second);
    r := WithNode(s1, Second, n2);
    Runs.Concat(SystemNext, s, a, s1, b, r);
    moves := a + b;
  }

  lemma DefeatedNotWon(n: Node, r: Node, base: nat)
    requires NotWon(n, base) && Defeated(n, r)
    ensures !Won(r, base)
  {
    assert r.past.history[base..] == n.past.history[base..] + [StateFailedPeerFailover, StateFailed];
  }

  /** From the start of every epoch with an empty log there is a run in which both members fail and neither wins. */
  lemma BothCanFail(s: System) returns (moves: seq<SystemMove>, r: System)
    requires NewLog(s) && s.first.node.queue.size >= 2 && s.second.node.queue.size >= 2
    requires !Stale(s, First) && !Stale(s, Second)
    ensures Runs.Reaches(SystemNext, s, moves, r)
    ensures r.first.node.state == StateFailed && r.second.node.state == StateFailed
    ensures !Won(r.first.node, History(s.first)) && !Won(r.second.node, History(s.second))
  {
    var a, s1 := BothReady(s);
    var b := BothSend(s1);
    var s2 := s1.(log := [Entry(First, MessageFailover), Entry(Second, MessageFailover)]);
    var c;
    c, r := BothHear(s2);
    Runs.Concat(SystemNext, s, a, s1, b, s2);
    Runs.Concat(SystemNext, s, a + b, s2, c, r);
    moves := (a + b) + c;
    DefeatedNotWon(s1.first.node, r.first.node, History(s.first));
    DefeatedNotWon(s1.second.node, r.second.node, History(s.second));
  }
}
