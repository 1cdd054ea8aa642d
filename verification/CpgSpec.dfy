/**
 The sender's side of the process group: every message is repeated on a timer until its own delivery has
 come back. `history` records what the sender has done and seen, for the account of what a flag means.
 */
module CpgSpec {
  import opened ColodTypes
  import Runs

  /** A multicast handed to the group, or one of the node's own messages delivered to it. */
  datatype Act = Multicast(message: ColodMessage) | OwnDelivery(message: ColodMessage)

  datatype Sender = Sender(flags: set<ColodMessage>, armed: bool, history: seq<Act>)

  /** All messages, in the order of their numbers */
  function Messages(): seq<ColodMessage> {
    [MessageNone, MessageFailover, MessageFailed, MessageHello, MessageYellow, MessageUnyellow]
  }

  lemma AllNumbered(m: ColodMessage)
    ensures m in Messages()
  {
    var k := match m
      case MessageNone => 0
      case MessageFailover => 1
      case MessageFailed => 2
      case MessageHello => 3
      case MessageYellow => 4
      case MessageUnyellow => 5;
    assert Messages()[k] == m;
  }

  /** colod_cpg_send */
  function Send(s: Sender, m: ColodMessage): Sender {
    Sender(s.flags + {m}, true, s.history + [Multicast(m)])
  }

  /** colod_cpg_retransmit, with `messages` still to be looked at: whatever is flagged is sent. */
  function Retransmit(s: Sender, messages: seq<ColodMessage>): Sender
    decreases |messages|
  {
    if messages == [] then s
    else Retransmit(if messages[0] in s.flags then Send(s, messages[0]) else s, messages[1..])
  }

  /** colod_cpg_retransmit_cb: repeat, or stop the timer if there is nothing to repeat. */
  function Tick(s: Sender): Sender {
    if s.flags == {} then s.(armed := false) else Retransmit(s, Messages())
  }

  /** colod_cpg_deliver */
  function Deliver(s: Sender, m: ColodMessage, own: bool): Sender {
    if own then s.(flags := s.flags - {m}, history := s.history + [OwnDelivery(m)]) else s
  }

  /** colod_cpg_confchg: whoever joins or stays, a member that left makes the sender repeat itself. */
  function ConfChg(s: Sender, left: bool): Sender {
    if left then Retransmit(s, Messages()) else s
  }

  /** `m` has been sent, and not delivered back since its last sending. */
  predicate Awaited(history: seq<Act>, m: ColodMessage) {
    history != [] &&
    var last := |history| - 1;
    history[last] == Multicast(m) || (history[last] != OwnDelivery(m) && Awaited(history[..last], m))
  }

  /** The flags say exactly what is still awaited, and something awaited keeps the timer running. */
  ghost predicate Inv(s: Sender) {
    && (forall m :: m in s.flags <==> Awaited(s.history, m))
    && (s.flags != {} ==> s.armed)
  }

  lemma AwaitedAfter(history: seq<Act>, a: Act, m: ColodMessage)
    ensures Awaited(history + [a], m) <==> a == Multicast(m) || (a != OwnDelivery(m) && Awaited(history, m))
  {
    assert (history + [a])[..|history|] == history;
  }

  lemma SendKeepsInv(s: Sender, m: ColodMessage)
    requires Inv(s)
    ensures Inv(Send(s, m))
  {
    forall n ensures n in Send(s, m).flags <==> Awaited(Send(s, m).history, n) {
      AwaitedAfter(s.history, Multicast(m), n);
    }
  }

  /** The multicasts of the flagged ones among `messages`. */
  function Repeats(flags: set<ColodMessage>, messages: seq<ColodMessage>): seq<Act>
    decreases |messages|
  {
    if messages == [] then []
    else if messages[0] in flags then [Multicast(messages[0])] + Repeats(flags, messages[1..])
    else Repeats(flags, messages[1..])
  }

  /** Retransmitting sends the flagged messages, in order, and changes nothing else. */
  lemma {:induction false} RetransmitRepeats(s: Sender, messages: seq<ColodMessage>)
    requires s.flags != {} ==> s.armed
    ensures Retransmit(s, messages) == s.(history := s.history + Repeats(s.flags, messages))
    decreases |messages|
  {
    if messages == [] {
      assert s.history + [] == s.history;
    } else if messages[0] in s.flags {
      var t, rest := Send(s, messages[0]), Repeats(s.flags, messages[1..]);
      assert t.flags == s.flags;
      RetransmitRepeats(t, messages[1..]);
      assert t.history + rest == s.history + ([Multicast(messages[0])] + rest);
    } else {
      RetransmitRepeats(s, messages[1..]);
    }
  }

  lemma {:induction false} RetransmitKeepsInv(s: Sender, messages: seq<ColodMessage>)
    requires Inv(s)
    ensures Inv(Retransmit(s, messages))
    decreases |messages|
  {
    if messages != [] {
      SendKeepsInv(s, messages[0]);
      RetransmitKeepsInv(if messages[0] in s.flags then Send(s, messages[0]) else s, messages[1..]);
    }
  }

  lemma RepeatsFlagged(flags: set<ColodMessage>, messages: seq<ColodMessage>, m: ColodMessage)
    ensures Multicast(m) in Repeats(flags, messages) <==> m in flags && m in messages
    decreases |messages|
  {
  }

  /** The flags' messages are all there, each once. */
  lemma {:induction false} RepeatsOnce(flags: set<ColodMessage>, messages: seq<ColodMessage>, m: ColodMessage)
    requires forall i, j :: 0 <= i < j < |messages| ==> messages[i] != messages[j]
    ensures multiset(Repeats(flags, messages))[Multicast(m)] == if m in flags && m in messages then 1 else 0
    decreases |messages|
  {
    if messages != [] {
      var rest := Repeats(flags, messages[1..]);
      RepeatsOnce(flags, messages[1..], m);
      assert multiset([Multicast(messages[0])] + rest) == multiset{Multicast(messages[0])} + multiset(rest);
      assert messages[0] !in messages[1..];
    }
  }

  lemma RepeatsAreMulticasts(flags: set<ColodMessage>, messages: seq<ColodMessage>)
    ensures forall a :: a in Repeats(flags, messages) ==> a.Multicast?
    decreases |messages|
  {
  }

  /**
   When a member has left, each flagged message is multicast once more and nothing else is done; when none has,
   nothing is.
   */
  lemma DepartureRepeats(s: Sender, left: bool) returns (acts: seq<Act>)
    requires s.flags != {} ==> s.armed
    ensures ConfChg(s, left) == s.(history := s.history + acts)
    ensures forall a :: a in acts ==> a.Multicast?
    ensures forall m :: multiset(acts)[Multicast(m)] == if left && m in s.flags then 1 else 0
  {
    if left {
      acts := Repeats(s.flags, Messages());
      RetransmitRepeats(s, Messages());
      RepeatsAreMulticasts(s.flags, Messages());
      forall m ensures multiset(acts)[Multicast(m)] == if m in s.flags then 1 else 0 {
        AllNumbered(m);
        RepeatsOnce(s.flags, Messages(), m);
      }
    } else {
      acts := [];
      assert s.history + [] == s.history;
    }
  }

  /** So it is each time the timer fires, as long as anything is flagged; then it is disarmed. */
  lemma TimerRepeats(s: Sender) returns (acts: seq<Act>)
    requires s.flags != {} ==> s.armed
    ensures Tick(s) == s.(history := s.history + acts, armed := s.flags != {})
    ensures forall a :: a in acts ==> a.Multicast?
    ensures forall m :: multiset(acts)[Multicast(m)] == if m in s.flags then 1 else 0
  {
    acts := DepartureRepeats(s, s.flags != {});
  }

  datatype Move = Sending(message: ColodMessage) | Ticking | Delivering(message: ColodMessage, own: bool)
    | Changing(left: bool)

  function Next(s: Sender, m: Move): Option<Sender> {
    match m
    case Sending(message) => Some(Send(s, message))
    case Ticking => if s.armed then Some(Tick(s)) else None
    case Delivering(message, own) => Some(Deliver(s, message, own))
    case Changing(left) => Some(ConfChg(s, left))
  }

  lemma NextKeepsInv(s: Sender, m: Move)
    requires Inv(s) && Next(s, m).Some?
    ensures Inv(Next(s, m).value)
  {
    match m
    case Sending(message) => SendKeepsInv(s, message);
    case Ticking => RetransmitKeepsInv(s, Messages());
    case Delivering(message, own) =>
      if own {
        forall n ensures n in Deliver(s, message, own).flags <==> Awaited(Deliver(s, message, own).history, n) {
          AwaitedAfter(s.history, OwnDelivery(message), n);
        }
      }
    case Changing(left) => RetransmitKeepsInv(s, Messages());
  }

  /** A node that has just joined. */
  const Joined := Sender({}, false, [])

  /** In every run a message is flagged exactly while it is awaited, and a flag keeps the timer armed. */
  lemma RunKeepsInv(moves: seq<Move>, s: Sender)
    requires Runs.Reaches(Next, Joined, moves, s)
    ensures (forall m :: m in s.flags <==> Awaited(s.history, m)) && (s.flags != {} ==> s.armed)
  {
    forall t, m | Inv(t) && Next(t, m).Some? ensures Inv(Next(t, m).value) {
      NextKeepsInv(t, m);
    }
    Runs.Invariant(Next, t => Inv(t), Joined, moves, s);
  }
}
