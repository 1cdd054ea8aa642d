/**
 What the agreement on a failover rests on. For two members that can still fail over, whatever earlier epochs
 have left in their queues and in the log, `AgreementIff` says exactly when agreement holds over every run.
 */
module FailoverHypotheses {
  import opened ColodTypes
  import opened EventQueueSpec
  import opened MainNode
  import opened MainInvariants
  import opened FailoverAgreement
  import Runs

  /** Nothing pending forces the node to fail or quit. */
  predicate Calm(q: Queue) {
    forall e :: e in q.pending ==> e !in AlwaysInterrupting
  }

  /** The node replicates or is about to, and a request to fail over would reach it. */
  predicate CanFailOver(n: Node) {
    && Inv(n)
    && Calm(n.queue) && |n.queue.pending| < n.queue.size
    && EventPeerFailover !in n.past.rejected
    && (n.state in {StatePrimaryStartMigration, StatePrimaryColoRunning, StateSecondaryColoRunning}
        || (n.state == StateSecondaryWait && n.park == WaitResume))
  }

  /** The node has sent its MESSAGE_FAILOVER and waits for the outcome. */
  predicate Syncing(n: Node) {
    && Inv(n) && n.state == StateFailoverSync && n.park == PopEvent
    && Calm(n.queue) && |n.queue.pending| < n.queue.size
    && EventPeerFailover !in n.past.rejected
    && MessageFailover in n.channel.retransmit
  }

  predicate IsLocal(m: Move) {
    !(m.Event? && m.callback.Deliver?)
  }

  /** The node without the group: every move but a delivery. */
  function LocalNext(n: Node, m: Move): Option<Node> {
    if IsLocal(m) then Next(n, m) else None
  }

  /** `r` keeps a pending victory of `n`, loses no event and extends its history; its queue is as large. */
  predicate Keeps(n: Node, r: Node) {
    && (EventFailoverWin in n.queue.pending ==> EventFailoverWin in r.queue.pending)
    && n.past.history <= r.past.history
    && r.past.rejected == n.past.rejected && r.queue.size == n.queue.size
  }

  /** One event served while waiting for the outcome. */
  lemma ServeSyncing(n: Node)
    requires Inv(n) && n.state == StateFailoverSync && Calm(n.queue) && n.queue.pending != []
    ensures LocalNext(n, Resume(Serve)).Some?
    ensures var r := LocalNext(n, Resume(Serve)).value;
      && Inv(r) && Calm(r.queue) && |r.queue.pending| == |n.queue.pending| - 1
      && r.past.rejected == n.past.rejected
      && (if Head(n.queue) == EventFailoverWin then
            r.state == StateFailover && r.past.history == n.past.history + [StateFailover]
          else r == Taken(n) && r.state == StateFailoverSync && Keeps(n, r))
  {
    ApplyKeepsInv(n, Resume(Serve));
    RemoveKeepsCalm(n.queue);
    assert Head(n.queue) in n.queue.pending;
    if Head(n.queue) == EventFailoverWin {
      BecomeHistory(Taken(n), StateFailover);
    } else if EventFailoverWin in n.queue.pending {
      RemoveKeepsOthers(n.queue, EventFailoverWin);
    }
  }

  /** Waiting for the outcome, a node that finds a victory in its queue fails over. */
  lemma {:induction false} DrainToVictory(n: Node, base: nat) returns (moves: seq<Move>, r: Node)
    requires Inv(n) && n.state == StateFailoverSync && Calm(n.queue) && EventFailoverWin in n.queue.pending
    requires base <= |n.past.history|
    ensures Runs.Reaches(LocalNext, n, moves, r)
    ensures Won(r, base) && r.past.rejected == n.past.rejected
    decreases |n.queue.pending|
  {
    ServeSyncing(n);
    var m := LocalNext(n, Resume(Serve)).value;
    Runs.One(LocalNext, n, Resume(Serve));
    if Head(n.queue) == EventFailoverWin {
      moves, r := [Resume(Serve)], m;
      assert r.past.history[|r.past.history| - 1] == StateFailover;
    } else {
      moves, r := DrainToVictory(m, base);
      Runs.Concat(LocalNext, n, [Resume(Serve)], m, moves, r);
      moves := [Resume(Serve)] + moves;
    }
  }

  lemma RemoveKeepsCalm(q: Queue)
    requires q.pending != [] && Calm(q)
    ensures Calm(Remove(q)) && |Remove(q).pending| == |q.pending| - 1
  {
  }

  /** A request to fail over is pending and nothing outranks it. */
  predicate Requested(n: Node) {
    && Inv(n) && Calm(n.queue) && 0 < |n.queue.pending| <= n.queue.size
    && EventFailoverSync in n.queue.pending && EventPeerFailover !in n.past.rejected
    && n.state in REPLICATING
  }

  lemma RequestIsServedFirst(n: Node)
    requires Requested(n)
    ensures PendingInterrupt(n.queue) && Head(n.queue) == EventFailoverSync
  {
    PendingInterruptIff(n.queue);
    assert Head(n.queue) in n.queue.pending;
  }

  lemma MakeRequest(n: Node)
    requires CanFailOver(n) && n.state in REPLICATING
    ensures var r := Call(n, ReplicationError);
      Requested(r) && r.park == n.park && r.state == n.state && Keeps(n, r)
  {
    CallKeepsInv(n, ReplicationError);
    OfferKeeps(n.queue, EventFailoverSync);
  }

  /** From wherever it is suspended, a requested node comes to serve the request. */
  lemma Approach(n: Node) returns (moves: seq<Move>, r: Node)
    requires Requested(n) && !n.park.MigrateCancel?
    ensures Runs.Reaches(LocalNext, n, moves, r)
    ensures Requested(r) && r.park in {PopEvent, PopInterrupt} && Keeps(n, r)
  {
    RequestIsServedFirst(n);
    if n.park in {PopEvent, PopInterrupt} {
      return [], n;
    }
    var o := if n.park in {SetCapabilities, MigrateContinue} then CommandOk(false) else Interrupted;
    Runs.One(LocalNext, n, Resume(o));
    ApplyKeepsInv(n, Resume(o));
    moves, r := [Resume(o)], Step(n, o);
  }

  /** Serving the request takes the node out of replication, by way of a cancelled migration if there is one. */
  lemma ServeRequest(n: Node)
    requires Requested(n) && n.park in {PopEvent, PopInterrupt}
    ensures Enabled(n, Serve)
    ensures var r := Step(n, Serve);
      && Keeps(n, r)
      && (if n.state == StatePrimaryStartMigration then Cancelling(r) else Syncing(r))
  {
    hide Become;
    RequestIsServedFirst(n);
    ApplyKeepsInv(n, Resume(Serve));
    RequestTaken(n);
    if n.state != StatePrimaryStartMigration {
      EntersSync(Taken(n));
    }
  }

  lemma RequestTaken(n: Node)
    requires Requested(n)
    ensures Keeps(n, Taken(n)) && Calm(Taken(n).queue) && |Taken(n).queue.pending| < n.queue.size
  {
    RequestIsServedFirst(n);
    RemoveKeepsCalm(n.queue);
    if EventFailoverWin in n.queue.pending {
      RemoveKeepsOthers(n.queue, EventFailoverWin);
    }
  }

  lemma EntersSync(n: Node)
    ensures var r := Become(n, StateFailoverSync);
      && r.state == StateFailoverSync && r.park == PopEvent && r.queue == n.queue
      && r.past == n.past.(history := n.past.history + [StateFailoverSync])
      && MessageFailover in r.channel.retransmit
  {
  }

  /** The migration is being cancelled on the way to a failover. */
  predicate Cancelling(n: Node) {
    && Inv(n) && Calm(n.queue) && |n.queue.pending| < n.queue.size
    && EventPeerFailover !in n.past.rejected
    && n.state == StatePrimaryStartMigration && n.park.MigrateCancel?
  }

  lemma CancelToSync(n: Node)
    requires Cancelling(n)
    ensures var r := Step(n, CommandOk(false)); Syncing(r) && Keeps(n, r)
  {
    ApplyKeepsInv(n, Resume(CommandOk(false)));
    BecomeHistory(n, StateFailoverSync);
  }

  lemma ResumeToSync(n: Node)
    requires CanFailOver(n) && n.state == StateSecondaryWait
    ensures Enabled(n, EventArrived)
    ensures var r := Step(n, EventArrived);
      CanFailOver(r) && r.state in REPLICATING && !r.park.MigrateCancel? && Keeps(n, r)
  {
    ApplyKeepsInv(n, Resume(EventArrived));
    BecomeHistory(n, StateSecondaryColoRunning);
  }

  /** `r` is one move of `n`, followed by `then`'s moves to `end`. */
  lemma Prepend(n: Node, m: Move, r: Node, moves: seq<Move>, end: Node)
    requires LocalNext(n, m) == Some(r) && Runs.Reaches(LocalNext, r, moves, end)
    ensures Runs.Reaches(LocalNext, n, [m] + moves, end)
  {
    Runs.One(LocalNext, n, m);
    Runs.Concat(LocalNext, n, [m], r, moves, end);
  }

  lemma CancellingToSync(n: Node) returns (moves: seq<Move>, r: Node)
    requires Cancelling(n)
    ensures Runs.Reaches(LocalNext, n, moves, r) && Syncing(r) && Keeps(n, r)
  {
    CancelToSync(n);
    r := Step(n, CommandOk(false));
    moves := [Resume(CommandOk(false))] + [];
    Prepend(n, Resume(CommandOk(false)), r, [], r);
  }

  lemma ServingToSync(n: Node) returns (moves: seq<Move>, r: Node)
    requires Requested(n) && n.park in {PopEvent, PopInterrupt}
    ensures Runs.Reaches(LocalNext, n, moves, r) && Syncing(r) && Keeps(n, r)
  {
    ServeRequest(n);
    var m := Step(n, Serve);
    moves, r := [], m;
    if n.state == StatePrimaryStartMigration {
      moves, r := CancellingToSync(m);
    }
    Prepend(n, Resume(Serve), m, moves, r);
    moves := [Resume(Serve)] + moves;
  }

  lemma ReplicatingToSync(n: Node) returns (moves: seq<Move>, r: Node)
    requires CanFailOver(n) && n.state in REPLICATING && !n.park.MigrateCancel?
    ensures Runs.Reaches(LocalNext, n, moves, r) && Syncing(r) && Keeps(n, r)
  {
    MakeRequest(n);
    var m := Call(n, ReplicationError);
    var a, k := Approach(m);
    var b, r' := ServingToSync(k);
    Runs.Concat(LocalNext, m, a, k, b, r');
    r := r';
    Prepend(n, Event(ReplicationError), m, a + b, r);
    moves := [Event(ReplicationError)] + (a + b);
  }

  /** Every node that can fail over can get as far as sending its MESSAGE_FAILOVER. */
  lemma ToSync(n: Node) returns (moves: seq<Move>, r: Node)
    requires CanFailOver(n)
    ensures Runs.Reaches(LocalNext, n, moves, r) && Syncing(r) && Keeps(n, r)
  {
    if n.park.MigrateCancel? {
      moves, r := CancellingToSync(n);
    } else if n.state in REPLICATING {
      moves, r := ReplicatingToSync(n);
    } else {
      ResumeToSync(n);
      var m := Step(n, EventArrived);
      moves, r := ReplicatingToSync(m);
      Prepend(n, Resume(EventArrived), m, moves, r);
      moves := [Resume(EventArrived)] + moves;
    }
  }

  function Other(id: Id): Id {
    if id == First then Second else First
  }

  function WithNode(s: System, id: Id, n: Node): System {
    Put(s, id, Get(s, id).(node := n))
  }

  /** What a node can do on its own it can do in the system. */
  lemma {:induction false} Lift(s: System, id: Id, moves: seq<Move>, r: Node) returns (lifted: seq<SystemMove>)
    requires Runs.Reaches(LocalNext, Get(s, id).node, moves, r)
    ensures Runs.Reaches(SystemNext, s, lifted, WithNode(s, id, r))
    decreases |moves|
  {
    if moves == [] {
      lifted := [];
    } else {
      var n := LocalNext(Get(s, id).node, moves[0]).value;
      var t := WithNode(s, id, n);
      assert SystemNext(s, Local(id, moves[0])) == Some(t);
      var rest := Lift(t, id, moves[1..], r);
      Runs.One(SystemNext, s, Local(id, moves[0]));
      Runs.Concat(SystemNext, s, [Local(id, moves[0])], t, rest, WithNode(t, id, r));
      lifted := [Local(id, moves[0])] + rest;
    }
  }

  /** A node waiting for the outcome that is told it came first has a victory pending. */
  lemma VictoryArrives(n: Node)
    requires Syncing(n)
    ensures var r := Call(n, Deliver(MessageFailover, true));
      && Inv(r) && r.state == StateFailoverSync && Calm(r.queue) && EventFailoverWin in r.queue.pending
      && r.past == n.past
  {
    hide Call, Inv;
    var c := Deliver(MessageFailover, true);
    CallKeepsInv(n, c);
    CallStays(n, c);
    OfferKeeps(n.queue, EventFailoverWin);
    assert !Rejects(n.queue, EventFailoverWin);
  }

  // ---- Hearing the log ----

  /** The node waits for the outcome, with its own message still to be heard or sent. */
  predicate Attentive(n: Node) {
    && Inv(n) && n.state == StateFailoverSync && n.park == PopEvent
    && Calm(n.queue) && |n.queue.pending| <= n.queue.size && n.queue.size > 0
    && EventPeerFailover !in n.past.rejected
    && MessageFailover in n.channel.retransmit
  }

  lemma FlagStays(n: Node, c: Callback)
    requires MessageFailover in n.channel.retransmit && c.Deliver? && c.message != MessageFailover
    ensures MessageFailover in Call(n, c).channel.retransmit
  {
  }

  /** Any other message leaves it waiting. */
  lemma HearsOther(n: Node, c: Callback)
    requires Attentive(n) && |n.queue.pending| < n.queue.size && c.Deliver? && c.message != MessageFailover
    ensures Attentive(Call(n, c)) && Call(n, c).past == n.past
  {
    hide Inv, Call;
    CallKeepsInv(n, c);
    CallStays(n, c);
    OfferKeeps(n.queue, if Queued(c).Some? then Queued(c).value else EventYellow);
    FlagStays(n, c);
  }

  /** The MESSAGE_FAILOVER a member is to hear next. */
  function Due(s: System, id: Id): nat {
    NextFailover(s.log, Get(s, id).delivered)
  }

  /** A victory is left over in its queue. */
  predicate Stale(s: System, id: Id) {
    EventFailoverWin in Get(s, id).node.queue.pending
  }

  /** The member's own MESSAGE_FAILOVER is the next it is to hear. */
  predicate OwnIsDue(s: System, id: Id) {
    Due(s, id) < |s.log| && s.log[Due(s, id)].sender == id
  }

  /** The member can still win: it has a victory left over, or nothing of its peer's comes before its own. */
  predicate Open(s: System, id: Id) {
    Stale(s, id) || Due(s, id) == |s.log| || OwnIsDue(s, id)
  }

  /** What one member's victory leaves of the system. */
  predicate WonBy(s: System, id: Id, base: nat, r: System) {
    && Won(Get(r, id).node, base) && EventPeerFailover !in Get(r, id).node.past.rejected
    && Get(r, Other(id)) == Get(s, Other(id))
  }

  lemma DrainInSystem(s: System, id: Id, base: nat) returns (moves: seq<SystemMove>, r: System)
    requires Stale(s, id) && base <= History(Get(s, id))
    requires var n := Get(s, id).node;
      Inv(n) && n.state == StateFailoverSync && Calm(n.queue) && EventPeerFailover !in n.past.rejected
    ensures Runs.Reaches(SystemNext, s, moves, r) && WonBy(s, id, base, r) && r.log == s.log
  {
    var local, w := DrainToVictory(Get(s, id).node, base);
    moves := Lift(s, id, local, w);
    r := WithNode(s, id, w);
  }

  /** One entry is heard. */
  lemma Hear(s: System, id: Id) returns (t: System)
    requires Attentive(Get(s, id).node) && |Get(s, id).node.queue.pending| < Get(s, id).node.queue.size
    requires !Stale(s, id) && Get(s, id).delivered <= |s.log| && OwnIsDue(s, id)
    ensures SystemNext(s, DeliverNext(id)) == Some(t) && t.log == s.log && Get(t, Other(id)) == Get(s, Other(id))
    ensures Get(t, id).delivered == Get(s, id).delivered + 1 <= |t.log| && History(Get(t, id)) == History(Get(s, id))
    ensures var n := Get(t, id).node;
      && Inv(n) && n.state == StateFailoverSync && Calm(n.queue) && EventPeerFailover !in n.past.rejected
      && (Stale(t, id) || (Attentive(n) && OwnIsDue(t, id)))
  {
    hide Call, Inv;
    var n, e := Get(s, id).node, s.log[Get(s, id).delivered];
    CallStays(n, Deliver(e.message, e.sender == id));
    t := SystemNext(s, DeliverNext(id)).value;
    if e.message == MessageFailover {
      VictoryArrives(n);
    } else {
      HearsOther(n, Deliver(e.message, e.sender == id));
    }
  }

  /** A member whose own message is due, or who has a victory already, wins by hearing and serving on. */
  lemma {:induction false} Listen(s: System, id: Id, base: nat) returns (moves: seq<SystemMove>, r: System)
    requires Attentive(Get(s, id).node) && Get(s, id).delivered <= |s.log| && base <= History(Get(s, id))
    requires Stale(s, id) || OwnIsDue(s, id)
    ensures Runs.Reaches(SystemNext, s, moves, r) && WonBy(s, id, base, r) && r.log == s.log
    decreases |s.log| - Get(s, id).delivered, |Get(s, id).node.queue.pending|
  {
    var n := Get(s, id).node;
    if Stale(s, id) {
      moves, r := DrainInSystem(s, id, base);
    } else {
      var m, t;
      if |n.queue.pending| == n.queue.size {
        ServeSyncing(n);
        assert Head(n.queue) in n.queue.pending;
        m, t := Local(id, Resume(Serve)), WithNode(s, id, Taken(n));
      } else {
        m := DeliverNext(id);
        t := Hear(s, id);
      }
      if Stale(t, id) {
        moves, r := DrainInSystem(t, id, base);
      } else {
        moves, r := Listen(t, id, base);
      }
      Runs.One(SystemNext, s, m);
      Runs.Concat(SystemNext, s, [m], t, moves, r);
      moves := [m] + moves;
    }
  }

  /** With no MESSAGE_FAILOVER to come, a member that waits for the outcome sends its own and wins. */
  lemma SendAndWin(s: System, id: Id, base: nat) returns (moves: seq<SystemMove>, r: System)
    requires Syncing(Get(s, id).node) && Get(s, id).delivered <= |s.log| && base <= History(Get(s, id))
    requires Due(s, id) == |s.log|
    ensures Runs.Reaches(SystemNext, s, moves, r) && WonBy(s, id, base, r)
    ensures r.log == s.log + [Entry(id, MessageFailover)]
  {
    var m := Transmit(id, MessageFailover);
    var t := s.(log := s.log + [Entry(id, MessageFailover)]);
    assert SystemNext(s, m) == Some(t);
    NextStays(s.log, Entry(id, MessageFailover), Get(s, id).delivered);
    assert t.log[|s.log|].message == MessageFailover;
    moves, r := Listen(t, id, base);
    Runs.One(SystemNext, s, m);
    Runs.Concat(SystemNext, s, [m], t, moves, r);
    moves := [m] + moves;
  }

  /** An open member wins, and sends nothing unless it has to. */
  lemma OpenWins(s: System, id: Id) returns (moves: seq<SystemMove>, r: System)
    requires CanFailOver(Get(s, id).node) && Get(s, id).delivered <= |s.log| && Open(s, id)
    ensures Runs.Reaches(SystemNext, s, moves, r) && WonBy(s, id, History(Get(s, id)), r)
    ensures Stale(s, id) || OwnIsDue(s, id) ==> r.log == s.log
  {
    var a, n := ToSync(Get(s, id).node);
    var la := Lift(s, id, a, n);
    var t := WithNode(s, id, n);
    if Stale(t, id) || OwnIsDue(t, id) {
      moves, r := Listen(t, id, History(Get(s, id)));
    } else {
      moves, r := SendAndWin(t, id, History(Get(s, id)));
    }
    Runs.Concat(SystemNext, s, la, t, moves, r);
    moves := la + moves;
  }

  // ---- When agreement holds ----

  /** An epoch begins: both members can still fail over, whatever earlier ones have left behind. */
  predicate EpochStart(s: System) {
    && s.first.delivered <= |s.log| && s.second.delivered <= |s.log|
    && CanFailOver(s.first.node) && CanFailOver(s.second.node)
  }

  /** Both members are open, and not for the same lack of a first message. */
  predicate Contested(s: System) {
    && Open(s, First) && Open(s, Second)
    && (Stale(s, First) || Stale(s, Second) || Due(s, First) != Due(s, Second))
  }

  /** Then both can win, with no event lost: first one that has to send nothing, then the other. */
  lemma ContestedBothWin(s: System) returns (moves: seq<SystemMove>, r: System)
    requires EpochStart(s) && Contested(s)
    ensures Runs.Reaches(SystemNext, s, moves, r)
    ensures Won(r.first.node, History(s.first)) && Won(r.second.node, History(s.second))
    ensures EventPeerFailover !in r.first.node.past.rejected + r.second.node.past.rejected
  {
    var id := if Stale(s, First) || OwnIsDue(s, First) then First else Second;
    var a, t := OpenWins(s, id);
    assert Get(t, Other(id)) == Get(s, Other(id)) && t.log == s.log;
    var b;
    b, r := OpenWins(t, Other(id));
    Runs.Concat(SystemNext, s, a, t, b, r);
    moves := a + b;
  }

  /** In no run that loses no defeat to a full queue do both members win. */
  ghost predicate Agreement(s0: System) {
    forall moves, s :: Runs.Reaches(SystemNext, s0, moves, s)
      && EventPeerFailover !in s.first.node.past.rejected + s.second.node.past.rejected
      ==> !(Won(s.first.node, History(s0.first)) && Won(s.second.node, History(s0.second)))
  }

  /** A member that is not open never wins, unless its defeat is lost. */
  lemma ClosedLoses(s0: System, moves: seq<SystemMove>, s: System, id: Id)
    requires EpochStart(s0) && !Open(s0, id) && Runs.Reaches(SystemNext, s0, moves, s)
    requires EventPeerFailover !in Get(s, id).node.past.rejected
    ensures !Won(Get(s, id).node, History(Get(s0, id)))
  {
    if Won(Get(s, id).node, History(Get(s0, id))) {
      WinnerIsFirst(s0, moves, s, id);
      RunKeepsNext(s0, moves, s, Get(s0, id).delivered);
    }
  }

  /**
   At the start of an epoch, agreement holds exactly unless both members are open and either a victory is left
   over or different messages of theirs, or one and none, are due first.
   */
  lemma AgreementIff(s0: System)
    requires EpochStart(s0)
    ensures Agreement(s0) <==> !Contested(s0)
  {
    if Contested(s0) {
      var moves, s := ContestedBothWin(s0);
    } else {
      forall moves, s | Runs.Reaches(SystemNext, s0, moves, s)
        && EventPeerFailover !in s.first.node.past.rejected + s.second.node.past.rejected
        ensures !(Won(s.first.node, History(s0.first)) && Won(s.second.node, History(s0.second)))
      {
        if !Open(s0, First) {
          ClosedLoses(s0, moves, s, First);
        } else if !Open(s0, Second) {
          ClosedLoses(s0, moves, s, Second);
        } else {
          AtMostOneWinner(s0, moves, s);
        }
      }
    }
  }

  /** A victory left over in one member's queue lets both win, unless the other is to hear its peer first. */
  lemma StaleVictoryBreaksAgreement(s: System, stale: Id) returns (moves: seq<SystemMove>, r: System)
    requires EpochStart(s) && Stale(s, stale) && Open(s, Other(stale))
    ensures Runs.Reaches(SystemNext, s, moves, r)
    ensures Won(r.first.node, History(s.first)) && Won(r.second.node, History(s.second))
    ensures EventPeerFailover !in r.first.node.past.rejected + r.second.node.past.rejected
  {
    moves, r := ContestedBothWin(s);
  }

  /**
   So does a member's own message left over in the log, undelivered to it, that its peer has been delivered
   already, if no later one tells the peer otherwise.
   */
  lemma LeftoverMessageBreaksAgreement(s: System, id: Id) returns (moves: seq<SystemMove>, r: System)
    requires EpochStart(s) && OwnIsDue(s, id) && Due(s, id) < Get(s, Other(id)).delivered
    requires forall j :: Get(s, Other(id)).delivered <= j < |s.log| ==> s.log[j].message != MessageFailover
    ensures Runs.Reaches(SystemNext, s, moves, r)
    ensures Won(r.first.node, History(s.first)) && Won(r.second.node, History(s.second))
    ensures EventPeerFailover !in r.first.node.past.rejected + r.second.node.past.rejected
  {
    moves, r := ContestedBothWin(s);
  }

  /** An epoch begins with an empty log. */
  predicate NewLog(s: System) {
    EpochStart(s) && s.log == []
  }

  /** The node waits for the outcome behind a full queue that holds neither outcome. */
  predicate Flooded(n: Node) {
    && Inv(n) && n.state == StateFailoverSync && n.park == PopEvent
    && Calm(n.queue) && |n.queue.pending| == n.queue.size > 0
    && EventFailoverWin !in n.queue.pending
    && MessageFailover in n.channel.retransmit
  }

  /** An error that is not dropped, the disk's or the replication's in turn. */
  function NextError(n: Node): Callback {
    if n.queue.pending == [] || Last(n.queue) != EventYellow then DiskError(None) else ReplicationError
  }

  predicate Filling(n: Node) {
    && Inv(n) && n.state == StateFailoverSync && n.park == PopEvent && Calm(n.queue)
    && |n.queue.pending| <= n.queue.size && n.queue.size > 0 && EventFailoverWin !in n.queue.pending
    && MessageFailover in n.channel.retransmit
  }

  lemma ErrorFills(n: Node)
    requires Filling(n) && |n.queue.pending| < n.queue.size
    ensures var m := Call(n, NextError(n));
      && Filling(m) && |m.queue.pending| == |n.queue.pending| + 1 && m.queue.size == n.queue.size
      && m.past.history == n.past.history
  {
    var c := NextError(n);
    CallKeepsInv(n, c);
    assert Call(n, c).queue.pending == n.queue.pending + [Queued(c).value];
  }

  /** Disk and replication errors can fill the queue of a node that waits for the outcome. */
  lemma {:induction false} Flood(n: Node) returns (moves: seq<Move>, r: Node)
    requires Filling(n)
    ensures Runs.Reaches(LocalNext, n, moves, r) && Flooded(r) && r.past.history == n.past.history
    decreases n.queue.size - |n.queue.pending|
  {
    if |n.queue.pending| == n.queue.size {
      moves, r := [], n;
    } else {
      var c := NextError(n);
      ErrorFills(n);
      moves, r := Flood(Call(n, c));
      Prepend(n, Event(c), Call(n, c), moves, r);
      moves := [Event(c)] + moves;
    }
  }

  /** A full queue loses the defeat; one event served makes room for the victory that follows. */
  lemma DefeatLost(n: Node)
    requires Flooded(n)
    ensures var r := Call(n, Deliver(MessageFailover, false));
      && Inv(r) && r.queue == n.queue && r.state == n.state && r.park == n.park
      && r.past.history == n.past.history && r.channel == n.channel
  {
    var c := Deliver(MessageFailover, false);
    CallKeepsInv(n, c);
    assert Last(n.queue) in n.queue.pending;
  }

  lemma RoomForVictory(n: Node)
    requires Inv(n) && n.state == StateFailoverSync && n.park == PopEvent && Calm(n.queue)
    requires |n.queue.pending| == n.queue.size > 0 && EventFailoverWin !in n.queue.pending
    ensures LocalNext(n, Resume(Serve)).Some?
    ensures var m := LocalNext(n, Resume(Serve)).value;
      var r := Call(m, Deliver(MessageFailover, true));
      && Inv(r) && r.state == StateFailoverSync && Calm(r.queue) && EventFailoverWin in r.queue.pending
      && n.past.history <= r.past.history
  {
    ServeSyncing(n);
    assert Head(n.queue) in n.queue.pending;
    hide Call, LocalNext, Inv;
    var m := LocalNext(n, Resume(Serve)).value;
    CallKeepsInv(m, Deliver(MessageFailover, true));
    CallStays(m, Deliver(MessageFailover, true));
    OfferKeeps(m.queue, EventFailoverWin);
    assert !Rejects(m.queue, EventFailoverWin);
  }

  /** A flooded member loses its defeat, sends its own message, makes room and hears of a victory. */
  lemma HearVictoryLate(s: System, id: Id) returns (moves: seq<SystemMove>, r: System)
    requires s.log == [Entry(Other(id), MessageFailover)] && Get(s, id).delivered == 0 && Flooded(Get(s, id).node)
    ensures Runs.Reaches(SystemNext, s, moves, r) && Get(r, Other(id)) == Get(s, Other(id))
    ensures var n := Get(r, id).node;
      && Inv(n) && n.state == StateFailoverSync && Calm(n.queue) && EventFailoverWin in n.queue.pending
      && Get(s, id).node.past.history <= n.past.history
  {
    var n := Get(s, id).node;
    DefeatLost(n);
    var n1 := Call(n, Deliver(MessageFailover, false));
    var s1 := Put(s, id, Member(n1, 1));
    assert SystemNext(s, DeliverNext(id)) == Some(s1);
    Runs.One(SystemNext, s, DeliverNext(id));
    var s2 := s1.(log := s.log + [Entry(id, MessageFailover)]);
    assert SystemNext(s1, Transmit(id, MessageFailover)) == Some(s2);
    Runs.Extend(SystemNext, s, [DeliverNext(id)], s1, Transmit(id, MessageFailover));
    moves := [DeliverNext(id)] + [Transmit(id, MessageFailover)];
    RoomForVictory(n1);
    var last := MakeRoom(s2, id, n1);
    var n3 := LocalNext(n1, Resume(Serve)).value;
    r := Put(s2, id, Member(Call(n3, Deliver(MessageFailover, true)), 2));
    Runs.Concat(SystemNext, s, moves, s2, last, r);
    moves := moves + last;
  }

  lemma MakeRoom(s: System, id: Id, n: Node) returns (moves: seq<SystemMove>)
    requires Get(s, id) == Member(n, 1) && |s.log| == 2 && s.log[1] == Entry(id, MessageFailover)
    requires LocalNext(n, Resume(Serve)).Some?
    ensures Runs.Reaches(SystemNext, s, moves,
      Put(s, id, Member(Call(LocalNext(n, Resume(Serve)).value, Deliver(MessageFailover, true)), 2)))
  {
    var m := LocalNext(n, Resume(Serve)).value;
    var s3 := WithNode(s, id, m);
    assert SystemNext(s, Local(id, Resume(Serve))) == Some(s3);
    Runs.One(SystemNext, s, Local(id, Resume(Serve)));
    var s4 := Put(s3, id, Member(Call(m, Deliver(MessageFailover, true)), 2));
    assert SystemNext(s3, DeliverNext(id)) == Some(s4);
    Runs.Extend(SystemNext, s, [Local(id, Resume(Serve))], s3, DeliverNext(id));
    moves := [Local(id, Resume(Serve))] + [DeliverNext(id)];
  }

  /** A flooded member behind its peer's message in the agreed order still wins. */
  lemma LateWin(s: System, id: Id, base: nat) returns (moves: seq<SystemMove>, r: System)
    requires s.log == [Entry(Other(id), MessageFailover)] && Get(s, id).delivered == 0
    requires Flooded(Get(s, id).node) && base <= History(Get(s, id))
    ensures Runs.Reaches(SystemNext, s, moves, r)
    ensures Won(Get(r, id).node, base) && Get(r, Other(id)) == Get(s, Other(id))
  {
    var a, s1 := HearVictoryLate(s, id);
    var local, w := DrainToVictory(Get(s1, id).node, base);
    var rest := Lift(s1, id, local, w);
    r := WithNode(s1, id, w);
    Runs.Concat(SystemNext, s, a, s1, rest, r);
    moves := a + rest;
  }

  /** On its own no member comes by a victory. */
  lemma NoVictoryAlone(s: System, moves: seq<SystemMove>, n: Node)
    requires NewLog(s) && !Stale(s, First) && Runs.Reaches(SystemNext, s, moves, WithNode(s, First, n))
    ensures EventFailoverWin !in n.queue.pending
  {
    RunKeepsMember(s, moves, WithNode(s, First, n), First, Base(History(s.first), 0));
  }

  /** The first member comes to wait behind a full queue that holds neither outcome. */
  lemma FloodFirst(s: System) returns (moves: seq<SystemMove>, n: Node)
    requires NewLog(s) && !Stale(s, First)
    ensures Runs.Reaches(SystemNext, s, moves, WithNode(s, First, n))
    ensures Flooded(n) && History(s.first) <= |n.past.history|
  {
    var a, m := ToSync(s.first.node);
    var la := Lift(s, First, a, m);
    NoVictoryAlone(s, la, m);
    var b, r := Flood(m);
    Runs.Concat(LocalNext, s.first.node, a, m, b, r);
    moves := Lift(s, First, a + b, r);
    n := r;
  }

  /** From every start with an empty log, a full queue that loses a defeat can let both members win. */
  lemma LostDefeatBreaksAgreement(s: System) returns (moves: seq<SystemMove>, r: System)
    requires NewLog(s) && !Stale(s, First)
    ensures Runs.Reaches(SystemNext, s, moves, r)
    ensures Won(r.first.node, History(s.first)) && Won(r.second.node, History(s.second))
  {
    var la, n := FloodFirst(s);
    var s1 := WithNode(s, First, n);
    var b, m := ToSync(s.second.node);
    var lb := Lift(s1, Second, b, m);
    var s2 := WithNode(s1, Second, m);
    Runs.Concat(SystemNext, s, la, s1, lb, s2);
    var lc, s3 := SendAndWin(s2, Second, History(s.second));
    assert s2.log + [Entry(Second, MessageFailover)] == [Entry(Second, MessageFailover)];
    Runs.Concat(SystemNext, s, la + lb, s2, lc, s3);
    var ld, s4 := LateWin(s3, First, History(s.first));
    Runs.Concat(SystemNext, s, la + lb + lc, s3, ld, s4);
    moves, r := la + lb + lc + ld, s4;
  }
}
