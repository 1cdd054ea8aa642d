/**
 Two nodes, one totally ordered log of group messages, and every interleaving of deliveries,
 retransmissions, local events and delays of the main coroutines. A node with no victory left over that
 enters FAILOVER is the sender of the first MESSAGE_FAILOVER it was to hear, so at most one does.
 */
module FailoverAgreement {
  import opened ColodTypes
  import opened EventQueueSpec
  import opened MainNode
  import opened MainInvariants
  import Runs

  datatype Id = First | Second

  datatype Entry = Entry(sender: Id, message: ColodMessage)

  /** One node with the number of log entries delivered to it. */
  datatype Member = Member(node: Node, delivered: nat)

  datatype System = System(first: Member, second: Member, log: seq<Entry>)

  function Get(s: System, id: Id): Member {
    if id == First then s.first else s.second
  }

  function Put(s: System, id: Id, m: Member): System {
    if id == First then s.(first := m) else s.(second := m)
  }

  datatype SystemMove =
    | Local(id: Id, move: Move)
    | Transmit(id: Id, message: ColodMessage)  // a multicast or a retransmission reaches the agreed order
    | DeliverNext(id: Id)

  predicate SystemEnabled(s: System, m: SystemMove) {
    match m
    case Local(id, move) => MoveEnabled(Get(s, id).node, move) && !(move.Event? && move.callback.Deliver?)
    case Transmit(id, message) => message in Get(s, id).node.channel.retransmit
    case DeliverNext(id) => Get(s, id).delivered < |s.log|
  }

  function SystemApply(s: System, m: SystemMove): System
    requires SystemEnabled(s, m)
  {
    match m
    case Local(id, move) =>
      var w := Get(s, id);
      Put(s, id, w.(node := Apply(w.node, move)))
    case Transmit(id, message) => s.(log := s.log + [Entry(id, message)])
    case DeliverNext(id) =>
      var w := Get(s, id);
      var e := s.log[w.delivered];
      Put(s, id, Member(Call(w.node, Deliver(e.message, e.sender == id)), w.delivered + 1))
  }

  function SystemNext(s: System, m: SystemMove): Option<System> {
    if SystemEnabled(s, m) then Some(SystemApply(s, m)) else None
  }

  /** Index of the first MESSAGE_FAILOVER in the log at or after `from`, or the log's length. */
  function NextFailover(log: seq<Entry>, from: nat): (k: nat)
    ensures k <= |log| && (from <= |log| ==> from <= k)
    ensures forall j :: from <= j < k ==> log[j].message != MessageFailover
    ensures k < |log| ==> log[k].message == MessageFailover
    decreases |log| - from
  {
    if from >= |log| then |log|
    else if log[from].message == MessageFailover then from
    else NextFailover(log, from + 1)
  }

  /** Since its history had `base` states the node has not entered FAILOVER, nor is it past it. */
  predicate NotWon(n: Node, base: nat) {
    && base <= |n.past.history|
    && StateFailover !in n.past.history[base..]
    && n.state !in {StateFailover, StatePrimaryWait}
  }

  predicate Won(n: Node, base: nat) {
    base <= |n.past.history| && StateFailover in n.past.history[base..]
  }

  /** The node cannot win any more: it has failed, or it will serve its defeat before any victory. */
  predicate Beaten(n: Node) {
    n.state in FAILED_STATES || PendingBefore(n.queue.pending, EventPeerFailover, EventFailoverWin)
  }

  /** Where member `id` was at the outset: the states in its history, and the entries delivered to it. */
  datatype Base = Base(history: nat, delivered: nat)

  /** What holds of member `id` in every run from there. */
  predicate MemberSafe(w: Member, id: Id, log: seq<Entry>, start: Base) {
    var f, base := NextFailover(log, start.delivered), start.history;
    && Inv(w.node)
    && start.delivered <= w.delivered <= |log|
    && base <= |w.node.past.history|
    && (f >= w.delivered ==> NotWon(w.node, base) && EventFailoverWin !in w.node.queue.pending)
    && (f < w.delivered && log[f].sender != id && EventPeerFailover !in w.node.past.rejected ==>
          NotWon(w.node, base) && Beaten(w.node))
  }

  // What one move of a node does to its history and its queue.

  lemma BecomeHistory(n: Node, s: MainState)
    requires s != StatePrimaryStartup
    ensures var r := Become(n, s);
      && r.queue.pending == n.queue.pending
      && r.state == (if s == StateFailedPeerFailover then StateFailed else s)
      && r.past.history == n.past.history + (if s == StateFailedPeerFailover then [s, StateFailed] else [s])
  {
  }

  /** `r` continues `n` without entering FAILOVER or PRIMARY_WAIT. */
  predicate Continues(n: Node, r: Node) {
    && n.past.history <= r.past.history
    && StateFailover !in r.past.history[|n.past.history|..]
    && (r.state == n.state || r.state !in {StateFailover, StatePrimaryWait})
    && (n.state in FAILED_STATES ==> r.state in FAILED_STATES)
  }

  lemma BecomeContinues(n: Node, m: Node, s: MainState)
    requires m.past.history == n.past.history
    requires s !in {StatePrimaryStartup, StateFailover, StatePrimaryWait}
    requires n.state in FAILED_STATES ==> s in FAILED_STATES
    ensures Continues(n, Become(m, s)) && Become(m, s).queue.pending == m.queue.pending
  {
    BecomeHistory(m, s);
  }

  lemma InterruptContinues(n: Node, m: Node, e: ColodEvent)
    requires m.past.history == n.past.history && m.state == n.state && n.state !in FAILED_STATES
    ensures var r := AlwaysInterrupt(m, e);
      && Continues(n, r) && r.queue.pending == m.queue.pending
      && (e in AlwaysInterrupting ==> r.state in FAILED_STATES)
  {
    if e in AlwaysInterrupting {
      var s := match e
        case EventFailed => StateFailed
        case EventPeerFailover => StateFailedPeerFailover
        case EventQuit => StateQuit
        case _ => StateAutoquit;
      BecomeContinues(n, m, s);
      BecomeHistory(m, s);
    }
  }

  /** Serving anything but a victory cannot win, and serving a defeat ends in a failed state. */
  lemma ServeContinues(n: Node)
    requires Inv(n) && Enabled(n, Serve) && n.state != StatePrimaryWait
    requires Head(n.queue) != EventFailoverWin || n.state in FAILED_STATES
    ensures Continues(n, Step(n, Serve)) && Step(n, Serve).queue.pending == Remove(n.queue).pending
    ensures Head(n.queue) == EventPeerFailover ==> Step(n, Serve).state in FAILED_STATES
  {
    if n.state in FAILED_STATES {
      FailedServeContinues(n);
    } else {
      WorkingServeContinues(n);
    }
  }

  lemma FailedServeContinues(n: Node)
    requires Inv(n) && Enabled(n, Serve) && n.state in FAILED_STATES
    ensures Continues(n, Step(n, Serve)) && Step(n, Serve).queue.pending == Remove(n.queue).pending
    ensures Step(n, Serve).state in FAILED_STATES
  {
    hide Become;
    BecomeContinues(n, Taken(n), if Head(n.queue) == EventQuit then StateQuit else StateAutoquit);
  }

  lemma WorkingServeContinues(n: Node)
    requires Inv(n) && Enabled(n, Serve) && n.state !in FAILED_STATES + {StatePrimaryWait}
    requires Head(n.queue) != EventFailoverWin
    ensures Continues(n, Step(n, Serve)) && Step(n, Serve).queue.pending == Remove(n.queue).pending
    ensures Head(n.queue) == EventPeerFailover ==> Step(n, Serve).state in FAILED_STATES
  {
    hide Become;
    var m, e := Taken(n), Head(n.queue);
    InterruptContinues(n, m, e);
    if n.state in {StateSecondaryColoRunning, StatePrimaryColoRunning} {
      BecomeContinues(n, m, if e == EventFailoverSync then StateFailoverSync else StateFailed);
    }
  }

  /** `q` holds what was pending, and perhaps one more event that says nothing about a failover's outcome. */
  predicate Appended(p: Queue, q: Queue) {
    q.pending == p.pending || exists e :: e !in {EventPeerFailover, EventFailoverWin} && q.pending == Add(p, e).pending
  }

  lemma OfferAppends(q: Queue, e: ColodEvent)
    requires e !in {EventPeerFailover, EventFailoverWin}
    ensures Appended(q, Offer(q, e))
  {
  }

  lemma AfterCommandAppends(n: Node, o: Outcome)
    ensures var m := AfterCommand(n, o);
      && Appended(n.queue, m.queue) && m.past.history == n.past.history && m.state == n.state
  {
    OfferAppends(n.queue, EventFailed);
    OfferAppends(n.queue, EventFailoverSync);
  }

  /** `r` is `m` gone on to another place in its state. */
  lemma GoesOnContinues(n: Node, m: Node, r: Node)
    requires m.past.history == n.past.history && m.state == n.state
    requires r == m.(park := r.park, status := r.status)
    ensures Continues(n, r)
  {
  }

  lemma QmpErrorContinues(n: Node, m: Node, o: Outcome)
    requires m.past.history == n.past.history && m.state == n.state == StatePrimaryStartMigration
    ensures Continues(n, QmpError(m, o)) && QmpError(m, o).queue.pending == m.queue.pending
  {
    hide Become;
    BecomeContinues(n, m, StateFailed);
    GoesOnContinues(n, m, m.(park := QmpError(m, o).park));
  }

  lemma CancelContinues(n: Node, o: Outcome)
    requires Inv(n) && !o.Serve? && n.state == StatePrimaryStartMigration && n.park.MigrateCancel?
    ensures Continues(n, MigrationStep(n, o))
    ensures MigrationStep(n, o).queue.pending == AfterCommand(n, o).queue.pending
  {
    hide Become;
    AfterCommandAppends(n, o);
    BecomeContinues(n, AfterCommand(n, o), StateFailed);
    BecomeContinues(n, AfterCommand(n, o), StateFailoverSync);
  }

  lemma MigrationContinues(n: Node, o: Outcome)
    requires Inv(n) && !o.Serve? && n.state == StatePrimaryStartMigration
    ensures Continues(n, MigrationStep(n, o))
    ensures MigrationStep(n, o).queue.pending == AfterCommand(n, o).queue.pending
  {
    hide Become, QmpError, Continues;
    var m := AfterCommand(n, o);
    AfterCommandAppends(n, o);
    QmpErrorContinues(n, m, o);
    if n.park.MigrateCancel? {
      CancelContinues(n, o);
    } else if n.park == WaitColo && o.EventArrived? {
      BecomeContinues(n, m, StatePrimaryColoRunning);
    } else {
      var r := MigrationStep(n, o);
      GoesOnContinues(n, m, m.(park := r.park, status := r.status));
    }
  }

  lemma OutcomeContinues(n: Node, o: Outcome)
    requires Inv(n) && Enabled(n, o) && !o.Serve? && n.state !in {StateFailover, StatePrimaryWait}
    ensures Continues(n, Step(n, o)) && Appended(n.queue, Step(n, o).queue)
  {
    hide Become, MigrationStep;
    AfterCommandAppends(n, o);
    var m := AfterCommand(n, o);
    if n.state == StatePrimaryStartMigration {
      MigrationContinues(n, o);
    } else if n.state == StateSecondaryStartup {
      BecomeContinues(n, m, if o.CommandOk? then StateSecondaryWait else StateFailed);
    } else if n.state == StateSecondaryWait {
      BecomeContinues(n, n, StateSecondaryColoRunning);
    } else if n.state == StatePrimaryColoRunning {
      BecomeContinues(n, n, StateFailed);
    }
  }

  lemma CallContinues(n: Node, c: Callback)
    ensures Continues(n, Call(n, c))
    ensures Call(n, c).queue == match Queued(c) case Some(e) => Offer(n.queue, e) case None => n.queue
  {
    if !c.QemuHup? {
      CallbackFlags(n, c);
    }
  }

  /** Continuing keeps a node that has not won from winning. */
  lemma ContinuesNotWon(n: Node, r: Node, base: nat)
    requires NotWon(n, base) && Continues(n, r)
    ensures NotWon(r, base)
  {
    assert r.past.history[base..] == n.past.history[base..] + r.past.history[|n.past.history|..];
  }

  /** Events that arrive later do not save a beaten node. */
  lemma BeatenStays(n: Node, r: Node)
    requires Beaten(n) && Continues(n, r)
    requires Appended(n.queue, r.queue) || r.queue.pending == n.queue.pending
    ensures Beaten(r)
  {
    if n.state !in FAILED_STATES && r.queue.pending != n.queue.pending {
      var e :| e !in {EventPeerFailover, EventFailoverWin} && r.queue.pending == Add(n.queue, e).pending;
      AddKeepsBefore(n.queue, e, EventPeerFailover, EventFailoverWin);
    }
  }

  /** A local move leaves a node that cannot win in that position. */
  lemma LocalKeepsBeaten(n: Node, m: Move, base: nat)
    requires Inv(n) && NotWon(n, base) && Beaten(n)
    requires MoveEnabled(n, m) && !(m.Event? && m.callback.Deliver?)
    ensures NotWon(Apply(n, m), base) && Beaten(Apply(n, m))
  {
    match m
    case Event(c) =>
      CallContinues(n, c);
      OfferAppends(n.queue, if Queued(c).Some? then Queued(c).value else EventYellow);
      ContinuesNotWon(n, Call(n, c), base);
      BeatenStays(n, Call(n, c));
    case Resume(o) =>
      if o.Serve? {
        if n.state !in FAILED_STATES {
          ServedBefore(n.queue, EventPeerFailover, EventFailoverWin);
        }
        ServeContinues(n);
        ContinuesNotWon(n, Step(n, o), base);
      } else {
        OutcomeContinues(n, o);
        ContinuesNotWon(n, Step(n, o), base);
        BeatenStays(n, Step(n, o));
      }
  }

  /** A local move of a node with no victory pending brings none. */
  lemma LocalKeepsUndecided(n: Node, m: Move, base: nat)
    requires Inv(n) && NotWon(n, base) && EventFailoverWin !in n.queue.pending
    requires MoveEnabled(n, m) && !(m.Event? && m.callback.Deliver?)
    ensures NotWon(Apply(n, m), base) && EventFailoverWin !in Apply(n, m).queue.pending
  {
    match m
    case Event(c) =>
      CallContinues(n, c);
      ContinuesNotWon(n, Call(n, c), base);
    case Resume(o) =>
      if o.Serve? {
        ServeContinues(n);
      } else {
        OutcomeContinues(n, o);
      }
      ContinuesNotWon(n, Step(n, o), base);
  }

  lemma LocalKeepsMember(w: Member, id: Id, log: seq<Entry>, start: Base, m: Move)
    requires MemberSafe(w, id, log, start)
    requires MoveEnabled(w.node, m) && !(m.Event? && m.callback.Deliver?)
    ensures MemberSafe(w.(node := Apply(w.node, m)), id, log, start)
  {
    var n, f := w.node, NextFailover(log, start.delivered);
    ApplyKeepsInv(n, m);
    ApplyAdvances(n, m);
    if f >= w.delivered {
      LocalKeepsUndecided(n, m, start.history);
    } else if log[f].sender != id && EventPeerFailover !in n.past.rejected {
      LocalKeepsBeaten(n, m, start.history);
    }
  }

  /** A longer log only adds a MESSAGE_FAILOVER where there was none. */
  lemma NextStays(log: seq<Entry>, e: Entry, from: nat)
    requires from <= |log|
    ensures var k, k' := NextFailover(log, from), NextFailover(log + [e], from);
      if k < |log| then k' == k else k' >= |log|
  {
    assert forall j :: 0 <= j < |log| ==> (log + [e])[j] == log[j];
  }

  lemma TransmitKeepsMember(w: Member, id: Id, log: seq<Entry>, start: Base, e: Entry)
    requires MemberSafe(w, id, log, start)
    ensures MemberSafe(w, id, log + [e], start)
  {
    NextStays(log, e, start.delivered);
  }

  /** The first MESSAGE_FAILOVER to reach a node defeats it, unless the node sent it or its queue is full. */
  lemma DefeatArrives(n: Node, base: nat)
    requires NotWon(n, base) && EventFailoverWin !in n.queue.pending
    ensures var r := Call(n, Deliver(MessageFailover, false));
      NotWon(r, base) && (EventPeerFailover !in r.past.rejected ==> Beaten(r))
  {
    hide Call;
    var c := Deliver(MessageFailover, false);
    CallContinues(n, c);
    ContinuesNotWon(n, Call(n, c), base);
    DefeatOffered(n);
  }

  lemma DefeatOffered(n: Node)
    ensures var r := Call(n, Deliver(MessageFailover, false));
      EventPeerFailover in r.queue.pending || EventPeerFailover in r.past.rejected
  {
    QueueEventGrows(Flags(n, Deliver(MessageFailover, false)), EventPeerFailover);
  }

  lemma DeliveryKeepsBeaten(n: Node, c: Callback, base: nat)
    requires NotWon(n, base) && Beaten(n) && c.Deliver?
    ensures NotWon(Call(n, c), base) && Beaten(Call(n, c))
  {
    CallContinues(n, c);
    ContinuesNotWon(n, Call(n, c), base);
    if n.state !in FAILED_STATES && Queued(c).Some? {
      AddKeepsBefore(n.queue, Queued(c).value, EventPeerFailover, EventFailoverWin);
    }
  }

  lemma DeliverKeepsMember(w: Member, id: Id, log: seq<Entry>, start: Base)
    requires MemberSafe(w, id, log, start) && w.delivered < |log|
    ensures var e := log[w.delivered];
      MemberSafe(Member(Call(w.node, Deliver(e.message, e.sender == id)), w.delivered + 1), id, log, start)
  {
    hide Call;
    var n, f, e := w.node, NextFailover(log, start.delivered), log[w.delivered];
    var c, base := Deliver(e.message, e.sender == id), start.history;
    CallKeepsInv(n, c);
    ApplyAdvances(n, Event(c));
    if f > w.delivered {
      CallContinues(n, c);
      ContinuesNotWon(n, Call(n, c), base);
    } else if f == w.delivered {
      if e.sender != id {
        DefeatArrives(n, base);
      }
    } else if log[f].sender != id && EventPeerFailover !in n.past.rejected {
      DeliveryKeepsBeaten(n, c, base);
    }
  }

  lemma SystemApplyKeepsMember(s: System, m: SystemMove, id: Id, start: Base)
    requires MemberSafe(Get(s, id), id, s.log, start) && SystemEnabled(s, m)
    ensures MemberSafe(Get(SystemApply(s, m), id), id, SystemApply(s, m).log, start)
  {
    match m
    case Local(mover, move) => if mover == id { LocalKeepsMember(Get(s, id), id, s.log, start, move); }
    case Transmit(sender, message) => TransmitKeepsMember(Get(s, id), id, s.log, start, Entry(sender, message));
    case DeliverNext(receiver) => if receiver == id { DeliverKeepsMember(Get(s, id), id, s.log, start); }
  }

  lemma RunKeepsMember(s0: System, moves: seq<SystemMove>, s: System, id: Id, start: Base)
    requires MemberSafe(Get(s0, id), id, s0.log, start) && Runs.Reaches(SystemNext, s0, moves, s)
    ensures MemberSafe(Get(s, id), id, s.log, start)
  {
    var inv := (t: System) => MemberSafe(Get(t, id), id, t.log, start);
    forall t, m | inv(t) && SystemNext(t, m).Some? ensures inv(SystemNext(t, m).value) {
      SystemApplyKeepsMember(t, m, id, start);
    }
    Runs.Invariant(SystemNext, inv, s0, moves, s);
  }

  /** In every run the log only grows, so a MESSAGE_FAILOVER that comes next stays the next. */
  lemma RunKeepsNext(s0: System, moves: seq<SystemMove>, s: System, from: nat)
    requires from <= |s0.log| && Runs.Reaches(SystemNext, s0, moves, s)
    ensures s0.log <= s.log
    ensures NextFailover(s0.log, from) < |s0.log| ==> NextFailover(s.log, from) == NextFailover(s0.log, from)
    ensures NextFailover(s0.log, from) == |s0.log| ==> |s0.log| <= NextFailover(s.log, from)
  {
    var inv := (t: System) => s0.log <= t.log;
    forall t, m | inv(t) && SystemNext(t, m).Some? ensures inv(SystemNext(t, m).value) {
    }
    Runs.Invariant(SystemNext, inv, s0, moves, s);
  }

  /**
   A member at the start of an epoch: any reachable node that is not running alone and has no victory left in
   its queue. Entries of earlier epochs may be in the log, delivered or not.
   */
  predicate Fresh(w: Member, log: seq<Entry>) {
    && Inv(w.node)
    && w.node.state !in {StateFailover, StatePrimaryWait}
    && EventFailoverWin !in w.node.queue.pending
    && w.delivered <= |log|
  }

  function History(w: Member): nat {
    |w.node.past.history|
  }

  /** A fresh member that wins, with no defeat lost to a full queue, sent the first MESSAGE_FAILOVER it was to hear. */
  lemma WinnerIsFirst(s0: System, moves: seq<SystemMove>, s: System, id: Id)
    requires Fresh(Get(s0, id), s0.log) && Runs.Reaches(SystemNext, s0, moves, s)
    requires Won(Get(s, id).node, History(Get(s0, id))) && EventPeerFailover !in Get(s, id).node.past.rejected
    ensures var f := NextFailover(s.log, Get(s0, id).delivered);
      f < Get(s, id).delivered <= |s.log| && s.log[f].sender == id
  {
    RunKeepsMember(s0, moves, s, id, Base(History(Get(s0, id)), Get(s0, id).delivered));
  }

  /** Nor do both members win in any run if they are to hear the same MESSAGE_FAILOVER first. */
  lemma AtMostOneWinner(s0: System, moves: seq<SystemMove>, s: System)
    requires Fresh(s0.first, s0.log) && Fresh(s0.second, s0.log) && Runs.Reaches(SystemNext, s0, moves, s)
    requires NextFailover(s0.log, s0.first.delivered) == NextFailover(s0.log, s0.second.delivered)
    requires EventPeerFailover !in s.first.node.past.rejected + s.second.node.past.rejected
    ensures !(Won(s.first.node, History(s0.first)) && Won(s.second.node, History(s0.second)))
  {
    if Won(s.first.node, History(s0.first)) && Won(s.second.node, History(s0.second)) {
      WinnerIsFirst(s0, moves, s, First);
      WinnerIsFirst(s0, moves, s, Second);
      SameNext(s0, moves, s);
    }
  }

  /** Members that were to hear the same MESSAGE_FAILOVER first, or none, still are. */
  lemma SameNext(s0: System, moves: seq<SystemMove>, s: System)
    requires s0.first.delivered <= |s0.log| && s0.second.delivered <= |s0.log|
    requires Runs.Reaches(SystemNext, s0, moves, s)
    requires NextFailover(s0.log, s0.first.delivered) == NextFailover(s0.log, s0.second.delivered)
    ensures NextFailover(s.log, s0.first.delivered) == NextFailover(s.log, s0.second.delivered)
  {
    RunKeepsNext(s0, moves, s, s0.first.delivered);
    RunKeepsNext(s0, moves, s, s0.second.delivered);
  }
}
