/**
 What a node says to the group. Its flags are those of the group channel: over every run a message is flagged
 exactly while it has been multicast and not heard since, and each state and callback multicasts what it must.
 */
module MainMessages {
  import opened ColodTypes
  import opened MainNode
  import CpgSpec
  import MainInvariants
  import opened EventQueueSpec
  import opened MainStories
  import Runs

  /** A node with the history its group channel should have. */
  datatype Speaker = Speaker(node: Node, said: seq<CpgSpec.Act>)

  function Says(m: ColodMessage): seq<CpgSpec.Act> {
    [CpgSpec.Multicast(m)]
  }

  /** A bad link is announced by the disk's failure, and to whoever says hello; the debouncer has its own messages. */
  function SaidOn(n: Node, c: Callback): seq<CpgSpec.Act> {
    match c
    case Announce(message) => Says(message)
    case DiskError(revert) => Says(MessageYellow) + if revert.Some? then Says(revert.value) else []
    case Deliver(message, own) =>
      (if own then [CpgSpec.OwnDelivery(message)] else []) +
      (if message == MessageHello && n.link.yellow then Says(MessageYellow) else [])
    case _ => []
  }

  /** A node that begins to wait for the outcome says so, and one that has failed. */
  function SaidOnEntering(n: Node, r: Node): seq<CpgSpec.Act> {
    if r.state == n.state then []
    else if r.state == StateFailoverSync then Says(MessageFailover)
    else if r.state in {StateFailed, StateAutoquit} then Says(MessageFailed)
    else []
  }

  function SpeakerNext(s: Speaker, m: Move): Option<Speaker> {
    if !MoveEnabled(s.node, m) then None
    else
      var r := Apply(s.node, m);
      match m
      case Event(c) => Some(Speaker(r, s.said + SaidOn(s.node, c)))
      case Resume(_) => Some(Speaker(r, s.said + SaidOnEntering(s.node, r)))
  }

  function Begin(size: nat, primary: bool): Speaker {
    Speaker(Start(size, primary), Says(MessageHello))
  }

  // ---- One act ----

  function FlagsAfterOne(flags: set<ColodMessage>, a: CpgSpec.Act): set<ColodMessage> {
    match a
    case Multicast(message) => flags + {message}
    case OwnDelivery(message) => flags - {message}
  }

  /** The flags after `acts`, from `flags`. */
  function FlagsAfter(flags: set<ColodMessage>, acts: seq<CpgSpec.Act>): set<ColodMessage>
    decreases |acts|
  {
    if acts == [] then flags else FlagsAfter(FlagsAfterOne(flags, acts[0]), acts[1..])
  }

  ghost predicate Agree(flags: set<ColodMessage>, said: seq<CpgSpec.Act>) {
    forall m :: m in flags <==> CpgSpec.Awaited(said, m)
  }

  lemma {:induction false} ActsAgree(flags: set<ColodMessage>, said: seq<CpgSpec.Act>, acts: seq<CpgSpec.Act>)
    requires Agree(flags, said)
    ensures Agree(FlagsAfter(flags, acts), said + acts)
    decreases |acts|
  {
    if acts == [] {
      assert said + acts == said;
    } else {
      forall m ensures CpgSpec.Awaited(said + [acts[0]], m) <==>
        acts[0] == CpgSpec.Multicast(m) || (acts[0] != CpgSpec.OwnDelivery(m) && CpgSpec.Awaited(said, m))
      {
        CpgSpec.AwaitedAfter(said, acts[0], m);
      }
      var next := FlagsAfterOne(flags, acts[0]);
      assert FlagsAfter(flags, acts) == FlagsAfter(next, acts[1..]);
      ActsAgree(next, said + [acts[0]], acts[1..]);
      assert (said + [acts[0]]) + acts[1..] == said + acts;
    }
  }

  lemma OneAct(flags: set<ColodMessage>, a: CpgSpec.Act)
    ensures FlagsAfter(flags, [a]) == FlagsAfterOne(flags, a)
  {
  }

  lemma TwoActs(flags: set<ColodMessage>, a: CpgSpec.Act, b: CpgSpec.Act)
    ensures FlagsAfter(flags, [a] + [b]) == FlagsAfter(FlagsAfter(flags, [a]), [b])
  {
    assert ([a] + [b])[1..] == [b];
  }

  // ---- The node ----

  lemma EventSays(n: Node, c: Callback)
    ensures Call(n, c).channel.retransmit == FlagsAfter(n.channel.retransmit, SaidOn(n, c))
  {
    var f := n.channel.retransmit;
    match c
    case Announce(message) => OneAct(f, CpgSpec.Multicast(message));
    case DiskError(revert) =>
      OneAct(f, CpgSpec.Multicast(MessageYellow));
      if revert.Some? {
        TwoActs(f, CpgSpec.Multicast(MessageYellow), CpgSpec.Multicast(revert.value));
        OneAct(f + {MessageYellow}, CpgSpec.Multicast(revert.value));
      } else {
        assert Says(MessageYellow) + [] == Says(MessageYellow);
      }
    case Deliver(message, own) => DeliverySays(n, message, own);
    case _ =>
  }

  lemma DeliverySays(n: Node, message: ColodMessage, own: bool)
    ensures var c := Deliver(message, own);
      Call(n, c).channel.retransmit == FlagsAfter(n.channel.retransmit, SaidOn(n, c))
  {
    var f := n.channel.retransmit;
    var heard, answer := CpgSpec.OwnDelivery(message), CpgSpec.Multicast(MessageYellow);
    OneAct(f, heard);
    OneAct(f, answer);
    OneAct(f - {message}, answer);
    TwoActs(f, heard, answer);
    assert [] + [answer] == [answer] && [heard] + [] == [heard];
  }

  /** What entering a state adds to the flags. */
  function Adds(s: MainState): set<ColodMessage> {
    match s
    case StateFailoverSync => {MessageFailover}
    case StateFailed | StateFailedPeerFailover | StateAutoquit => {MessageFailed}
    case _ => {}
  }

  /** What is flagged after a resumption is what was, and what entering a state says. */
  predicate EntersSaying(n: Node, r: Node) {
    r.channel.retransmit == FlagsAfter(n.channel.retransmit, SaidOnEntering(n, r))
  }

  lemma BecomeSays(n: Node, s: MainState)
    ensures Become(n, s).channel.retransmit == n.channel.retransmit + Adds(s)
  {
  }

  lemma SaysOnce(n: Node, r: Node)
    ensures FlagsAfter(n.channel.retransmit, SaidOnEntering(n, r)) == n.channel.retransmit +
      if r.state == n.state then {}
      else if r.state == StateFailoverSync then {MessageFailover}
      else if r.state in {StateFailed, StateAutoquit} then {MessageFailed}
      else {}
  {
    OneAct(n.channel.retransmit, CpgSpec.Multicast(MessageFailover));
    OneAct(n.channel.retransmit, CpgSpec.Multicast(MessageFailed));
  }

  /** A node that goes from `n` by way of `m` to another state, or stays. */
  lemma EveryEntrySays(n: Node, m: Node)
    requires m.channel == n.channel
    ensures forall s :: Entered(s) != n.state ==> EntersSaying(n, Become(m, s))
    ensures forall r: Node :: r.channel == n.channel && r.state == n.state ==> EntersSaying(n, r)
  {
    forall s | Entered(s) != n.state ensures EntersSaying(n, Become(m, s)) {
      BecomeSays(m, s);
      BecomeGoes(m, s);
      SaysOnce(n, Become(m, s));
    }
  }

  lemma ReportSaysNothing(n: Node, o: Outcome)
    ensures AfterCommand(n, o).channel == n.channel && AfterCommand(n, o).state == n.state
  {
  }

  lemma ServeSays(n: Node)
    requires Enabled(n, Serve)
    ensures EntersSaying(n, Step(n, Serve))
  {
    hide Become, EntersSaying, Step;
    if n.state in {StateFailed, StateAutoquit, StatePrimaryWait} {
      OtherServeSays(n);
    } else {
      WorkingServeSays(n);
    }
  }

  lemma OtherServeSays(n: Node)
    requires Enabled(n, Serve) && n.state in {StateFailed, StateAutoquit, StatePrimaryWait}
    ensures EntersSaying(n, Step(n, Serve))
  {
    hide Become, EntersSaying;
    EveryEntrySays(n, Taken(n));
  }

  lemma WorkingServeSays(n: Node)
    requires Enabled(n, Serve)
    requires n.state !in {StateFailed, StateAutoquit, StatePrimaryWait}
    ensures EntersSaying(n, Step(n, Serve))
  {
    hide Become, EntersSaying;
    EveryEntrySays(n, Taken(n));
  }

  lemma OutcomeSays(n: Node, o: Outcome)
    requires Enabled(n, o) && !o.Serve?
    ensures EntersSaying(n, Step(n, o))
  {
    if n.state == StatePrimaryStartMigration {
      MigrationSays(n, o);
    } else {
      OtherSays(n, o);
    }
  }

  lemma MigrationSays(n: Node, o: Outcome)
    requires Enabled(n, o) && !o.Serve? && n.state == StatePrimaryStartMigration
    ensures EntersSaying(n, Step(n, o))
  {
    hide Become, EntersSaying, AfterCommand, PendingInterrupt;
    ReportSaysNothing(n, o);
    EveryEntrySays(n, n);
    EveryEntrySays(n, AfterCommand(n, o));
  }

  lemma OtherSays(n: Node, o: Outcome)
    requires Enabled(n, o) && !o.Serve? && n.state != StatePrimaryStartMigration
    ensures EntersSaying(n, Step(n, o))
  {
    hide Become, EntersSaying, AfterCommand, PendingInterrupt;
    ReportSaysNothing(n, o);
    EveryEntrySays(n, n);
    EveryEntrySays(n, AfterCommand(n, o));
  }

  lemma NextKeepsInv(s: Speaker, m: Move)
    requires SpeakerInv(s) && SpeakerNext(s, m).Some?
    ensures SpeakerInv(SpeakerNext(s, m).value)
  {
    hide MainInvariants.Inv, Step, Call, FlagsAfter;
    MainInvariants.ApplyKeepsInv(s.node, m);
    var flags := s.node.channel.retransmit;
    match m
    case Event(c) =>
      EventSays(s.node, c);
      ActsAgree(flags, s.said, SaidOn(s.node, c));
    case Resume(o) =>
      if o.Serve? {
        ServeSays(s.node);
      } else {
        OutcomeSays(s.node, o);
      }
      ActsAgree(flags, s.said, SaidOnEntering(s.node, Step(s.node, o)));
  }

  ghost predicate SpeakerInv(s: Speaker) {
    MainInvariants.Inv(s.node) && Agree(s.node.channel.retransmit, s.said)
  }

  /**
   In every run a message is flagged exactly while it is awaited: it has been multicast, by the state or the callback
   that must, and not heard since.
   */
  lemma FlaggedIffAwaited(size: nat, primary: bool, moves: seq<Move>, s: Speaker, m: ColodMessage)
    requires Runs.Reaches(SpeakerNext, Begin(size, primary), moves, s)
    ensures m in s.node.channel.retransmit <==> CpgSpec.Awaited(s.said, m)
  {
    MainInvariants.StartInv(size, primary);
    StartSays(size, primary);
    forall t, move | SpeakerInv(t) && SpeakerNext(t, move).Some? ensures SpeakerInv(SpeakerNext(t, move).value) {
      NextKeepsInv(t, move);
    }
    Runs.Invariant(SpeakerNext, t => SpeakerInv(t), Begin(size, primary), moves, s);
  }

  lemma StartSays(size: nat, primary: bool)
    ensures Agree(Start(size, primary).channel.retransmit, Says(MessageHello))
  {
    assert Start(size, primary).channel.retransmit == {MessageHello};
    forall m ensures CpgSpec.Awaited([] + Says(MessageHello), m) <==> m == MessageHello {
      CpgSpec.AwaitedAfter([], CpgSpec.Multicast(MessageHello), m);
    }
    assert [] + Says(MessageHello) == Says(MessageHello);
  }
}
