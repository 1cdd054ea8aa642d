/**
 Retransmission over a group that may lose multicasts: if only finitely many are lost and an accepted
 one comes back within `delay` timer periods, everything sent is delivered and the timer stops.
 */
module CpgDelivery {
  import opened ColodTypes
  import opened CpgSpec
  import Runs

  /** An accepted multicast on its way back, and the timer periods it has taken so far. */
  datatype Copy = Copy(message: ColodMessage, age: nat)

  /** `losses` multicasts may still be lost; `fires` counts the timer's. */
  datatype Group = Group(sender: Sender, flight: seq<Copy>, losses: nat, fires: nat)

  /** What the group accepts of `acts` when it loses the messages in `lost`. */
  function Accepted(acts: seq<Act>, lost: set<ColodMessage>): seq<Copy> {
    if acts == [] then []
    else if acts[0].Multicast? && acts[0].message !in lost then [Copy(acts[0].message, 0)] + Accepted(acts[1..], lost)
    else Accepted(acts[1..], lost)
  }

  function Lost(acts: seq<Act>, lost: set<ColodMessage>): nat {
    if acts == [] then 0
    else (if acts[0].Multicast? && acts[0].message in lost then 1 else 0) + Lost(acts[1..], lost)
  }

  function Older(flight: seq<Copy>): (r: seq<Copy>)
    ensures |r| == |flight| && forall i :: 0 <= i < |r| ==> r[i] == Copy(flight[i].message, flight[i].age + 1)
  {
    if flight == [] then [] else [Copy(flight[0].message, flight[0].age + 1)] + Older(flight[1..])
  }

  predicate OnTime(flight: seq<Copy>, delay: nat) {
    forall i :: 0 <= i < |flight| ==> flight[i].age < delay
  }

  datatype GroupMove =
    | Fire(lost: set<ColodMessage>)       // the timer; no copy may be late
    | Arrive                              // the oldest copy is delivered to its sender
    | Leave(lost: set<ColodMessage>)      // another member leaves

  function GroupNext(delay: nat, g: Group, m: GroupMove): Option<Group> {
    match m
    case Fire(lost) =>
      var acts := if g.sender.flags == {} then [] else Repeats(g.sender.flags, Messages());
      if g.sender.armed && OnTime(g.flight, delay) && Lost(acts, lost) <= g.losses then
        Some(Group(Tick(g.sender), Older(g.flight) + Accepted(acts, lost), g.losses - Lost(acts, lost), g.fires + 1))
      else None
    case Arrive =>
      if g.flight == [] then None
      else Some(g.(sender := Deliver(g.sender, g.flight[0].message, true), flight := g.flight[1..]))
    case Leave(lost) =>
      var acts := Repeats(g.sender.flags, Messages());
      if Lost(acts, lost) <= g.losses then
        Some(g.(sender := ConfChg(g.sender, true), flight := g.flight + Accepted(acts, lost),
                losses := g.losses - Lost(acts, lost)))
      else None
  }

  function GroupStepper(delay: nat): (Group, GroupMove) -> Option<Group> {
    (g, m) => GroupNext(delay, g, m)
  }

  /** A copy of `m` is on its way that must be back within `periods`. */
  predicate Returning(flight: seq<Copy>, m: ColodMessage, delay: nat, periods: int) {
    exists i :: 0 <= i < |flight| && flight[i].message == m && delay <= flight[i].age + periods
  }

  /** Whatever is flagged is cleared within `periods`. */
  ghost predicate ClearsWithin(delay: nat, g: Group, periods: int) {
    forall m :: m in g.sender.flags ==>
      g.losses + delay + 1 <= periods || Returning(g.flight, m, delay, periods)
  }

  lemma {:induction false} SentIsLostOrAccepted(acts: seq<Act>, lost: set<ColodMessage>, m: ColodMessage)
    requires Multicast(m) in acts
    ensures if m in lost then Lost(acts, lost) > 0 else Copy(m, 0) in Accepted(acts, lost)
  {
    if acts[0] != Multicast(m) {
      SentIsLostOrAccepted(acts[1..], lost, m);
    }
  }

  lemma AcceptedReturns(flight: seq<Copy>, accepted: seq<Copy>, m: ColodMessage, delay: nat, periods: int)
    requires Returning(flight, m, delay, periods) || (Copy(m, 0) in accepted && delay <= periods)
    ensures Returning(flight + accepted, m, delay, periods)
  {
    if Returning(flight, m, delay, periods) {
      var i :| 0 <= i < |flight| && flight[i].message == m && delay <= flight[i].age + periods;
      assert (flight + accepted)[i] == flight[i];
    } else {
      var i :| 0 <= i < |accepted| && accepted[i] == Copy(m, 0);
      assert (flight + accepted)[|flight| + i] == accepted[i];
    }
  }

  lemma OlderReturns(flight: seq<Copy>, m: ColodMessage, delay: nat, periods: int)
    requires Returning(flight, m, delay, periods)
    ensures Returning(Older(flight), m, delay, periods - 1)
  {
    var i :| 0 <= i < |flight| && flight[i].message == m && delay <= flight[i].age + periods;
    assert Older(flight)[i] == Copy(m, flight[i].age + 1);
  }

  /** A firing of the timer uses up one period. */
  lemma FireUsesPeriod(delay: nat, g: Group, lost: set<ColodMessage>, periods: nat)
    requires Inv(g.sender) && g.sender.flags != {} && ClearsWithin(delay, g, periods)
    requires GroupNext(delay, g, Fire(lost)).Some?
    ensures periods > 0 && ClearsWithin(delay, GroupNext(delay, g, Fire(lost)).value, periods - 1)
    ensures GroupNext(delay, g, Fire(lost)).value.sender.flags == g.sender.flags
  {
    var h := GroupNext(delay, g, Fire(lost)).value;
    var acts := Repeats(g.sender.flags, Messages());
    RetransmitRepeats(g.sender, Messages());
    forall m | m in g.sender.flags
      ensures periods > 0 && (h.losses + delay + 1 <= periods - 1 || Returning(h.flight, m, delay, periods - 1))
    {
      AllNumbered(m);
      RepeatsFlagged(g.sender.flags, Messages(), m);
      SentIsLostOrAccepted(acts, lost, m);
      if Returning(g.flight, m, delay, periods) {
        OlderReturns(g.flight, m, delay, periods);
        AcceptedReturns(Older(g.flight), Accepted(acts, lost), m, delay, periods - 1);
      } else if m !in lost {
        AcceptedReturns(Older(g.flight), Accepted(acts, lost), m, delay, periods - 1);
      }
    }
    var some :| some in g.sender.flags;
  }

  lemma OthersKeepPeriods(delay: nat, g: Group, m: GroupMove, periods: int)
    requires Inv(g.sender) && ClearsWithin(delay, g, periods)
    requires !m.Fire? && GroupNext(delay, g, m).Some?
    ensures ClearsWithin(delay, GroupNext(delay, g, m).value, periods)
  {
    var h := GroupNext(delay, g, m).value;
    if m.Leave? {
      RetransmitRepeats(g.sender, Messages());
    }
    forall n | n in h.sender.flags && Returning(g.flight, n, delay, periods)
      ensures Returning(h.flight, n, delay, periods)
    {
      if m.Leave? {
        AcceptedReturns(g.flight, Accepted(Repeats(g.sender.flags, Messages()), m.lost), n, delay, periods);
      } else {
        var i :| 0 <= i < |g.flight| && g.flight[i].message == n && delay <= g.flight[i].age + periods;
        assert h.flight[i - 1] == g.flight[i];
      }
    }
  }

  /** With `total` periods granted at first, the timer has fired at most once more than that. */
  ghost predicate Bounded(delay: nat, total: nat, g: Group) {
    && Inv(g.sender)
    && g.fires <= total + 1 && (g.sender.armed ==> g.fires <= total)
    && ClearsWithin(delay, g, total - g.fires)
  }

  lemma NextBounded(delay: nat, total: nat, g: Group, m: GroupMove)
    requires Bounded(delay, total, g) && GroupNext(delay, g, m).Some?
    ensures Bounded(delay, total, GroupNext(delay, g, m).value)
  {
    match m
    case Fire(lost) =>
      CpgSpec.NextKeepsInv(g.sender, Ticking);
      if g.sender.flags != {} {
        FireUsesPeriod(delay, g, lost, total - g.fires);
      }
    case Arrive =>
      CpgSpec.NextKeepsInv(g.sender, Delivering(g.flight[0].message, true));
      OthersKeepPeriods(delay, g, m, total - g.fires);
    case Leave(_) =>
      CpgSpec.NextKeepsInv(g.sender, Changing(true));
      OthersKeepPeriods(delay, g, m, total - g.fires);
  }

  /**
   From any moment on, if nothing new is sent, the timer fires at most twice more often than multicasts
   are lost and periods pass until a delivery: by then every flag is clear.
   */
  lemma RetransmissionEnds(delay: nat, g0: Group, moves: seq<GroupMove>, g: Group)
    requires Inv(g0.sender) && g0.fires == 0
    requires Runs.Reaches(GroupStepper(delay), g0, moves, g)
    ensures g.fires <= g0.losses + delay + 2
    ensures g.fires == g0.losses + delay + 2 ==> !g.sender.armed
    ensures !g.sender.armed ==> forall m :: !Awaited(g.sender.history, m)
  {
    var total := g0.losses + delay + 1;
    forall h, m | Bounded(delay, total, h) && GroupStepper(delay)(h, m).Some?
      ensures Bounded(delay, total, GroupStepper(delay)(h, m).value)
    {
      NextBounded(delay, total, h, m);
    }
    Runs.Invariant(GroupStepper(delay), h => Bounded(delay, total, h), g0, moves, g);
  }

  /** Until the timer has stopped the group is never stuck: it fires, or a copy is due to arrive. */
  lemma NeverStuck(delay: nat, g: Group)
    requires g.sender.armed
    ensures GroupNext(delay, g, Arrive).Some? || GroupNext(delay, g, Fire({})).Some?
  {
    if g.flight == [] {
      NothingLost(if g.sender.flags == {} then [] else Repeats(g.sender.flags, Messages()));
    }
  }

  lemma NothingLost(acts: seq<Act>)
    ensures Lost(acts, {}) == 0
  {
  }
}
