/** The process group object of cpg.c, updated in place and proved to take the steps of `CpgSpec`. */
module Cpg {
  import opened ColodTypes
  import opened Spec = CpgSpec

  /** MESSAGE_MAX */
  const MessageMax := 6

  function NumberOf(m: ColodMessage): (k: nat)
    ensures k < MessageMax && Messages()[k] == m
  {
    match m
    case MessageNone => 0
    case MessageFailover => 1
    case MessageFailed => 2
    case MessageHello => 3
    case MessageYellow => 4
    case MessageUnyellow => 5
  }

  function MessageAt(k: nat): (m: ColodMessage)
    requires k < MessageMax
    ensures m == Messages()[k] && forall n :: NumberOf(n) == k <==> n == m
  {
    Messages()[k]
  }

  lemma DropNext<T>(s: seq<T>, k: nat)
    requires k < |s|
    ensures s[k..][1..] == s[k + 1..]
  {
  }

  class Cpg {
    const retransmit: array<bool>
    var retransmitSourceId: nat
    var nextSourceId: nat
    var history: seq<Act>
    ghost var flags: set<ColodMessage>

    ghost predicate Valid()
      reads this, retransmit
    {
      && retransmit.Length == MessageMax
      && 0 < nextSourceId
      && forall m :: m in flags <==> retransmit[NumberOf(m)]
    }

    ghost function View(): Sender
      reads this
    {
      Sender(flags, retransmitSourceId != 0, history)
    }

    constructor ()
      ensures Valid() && fresh(retransmit) && View() == Joined && Inv(View())
    {
      retransmit := new bool[MessageMax](_ => false);
      retransmitSourceId, nextSourceId, history, flags := 0, 1, [], {};
    }

    method Send(message: ColodMessage)
      requires Valid()
      modifies this, retransmit
      ensures Valid() && View() == Spec.Send(old(View()), message)
    {
      retransmit[NumberOf(message)] := true;
      flags := flags + {message};
      if retransmitSourceId == 0 {
        retransmitSourceId, nextSourceId := nextSourceId, nextSourceId + 1;
      }
      history := history + [Multicast(message)];
    }

    method Retransmit() returns (retransmitted: bool)
      requires Valid()
      modifies this, retransmit
      ensures Valid() && View() == Spec.Retransmit(old(View()), Messages())
      ensures retransmitted <==> old(View()).flags != {}
    {
      ghost var s := View();
      ghost var rest := Messages();
      retransmitted := false;
      var k := 0;
      while k < MessageMax
        invariant 0 <= k <= MessageMax && Valid() && flags == s.flags
        invariant rest == Messages()[k..]
        invariant Spec.Retransmit(View(), rest) == Spec.Retransmit(s, Messages())
        invariant retransmitted <==> exists m :: m in flags && NumberOf(m) < k
      {
        var message := MessageAt(k);
        assert forall m :: NumberOf(m) < k + 1 <==> NumberOf(m) < k || m == message;
        var sent := RetransmitOne(message);
        retransmitted := retransmitted || sent;
        DropNext(Messages(), k);
        rest := rest[1..];
        k := k + 1;
      }
      assert flags != {} ==> exists m :: m in flags && NumberOf(m) < MessageMax;
    }

    method RetransmitOne(message: ColodMessage) returns (sent: bool)
      requires Valid()
      modifies this, retransmit
      ensures Valid() && flags == old(flags)
      ensures sent <==> message in flags
      ensures View() == if sent then Spec.Send(old(View()), message) else old(View())
    {
      sent := retransmit[NumberOf(message)];
      if sent {
        Send(message);
      }
    }

    /** colod_cpg_retransmit_cb: whether the timer goes on */
    method RetransmitTimer() returns (goesOn: bool)
      requires Valid() && retransmitSourceId != 0
      modifies this, retransmit
      ensures Valid() && View() == Tick(old(View()))
      ensures goesOn <==> View().armed
    {
      RetransmitRepeats(View(), Messages());
      goesOn := Retransmit();
      if !goesOn {
        retransmitSourceId := 0;
      }
    }

    method Deliver(message: ColodMessage, own: bool)
      requires Valid()
      modifies this, retransmit
      ensures Valid() && View() == Spec.Deliver(old(View()), message, own)
    {
      if own {
        retransmit[NumberOf(message)] := false;
        flags := flags - {message};
        history := history + [OwnDelivery(message)];
      }
    }

    method ConfChg(left: bool)
      requires Valid()
      modifies this, retransmit
      ensures Valid() && View() == Spec.ConfChg(old(View()), left)
    {
      if left {
        var _ := Retransmit();
      }
    }
  }
}
