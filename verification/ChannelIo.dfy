/**
 The channel loops of coutil.c: writing a buffer and reading a line through a non-blocking channel, with
 an optional timeout, parking on an i/o watch whenever the channel is not ready.
 */
module ChannelIo {
  import opened ColodTypes

  datatype IoStatus = Normal | Again | Failure | Eof

  datatype Source = Timer | Watch | Foreign

  /**
   What one attempt meets: the channel's answer, how much it takes or delivers, and, if the call waits
   after it, the source that has woken it up, if one has.
   */
  datatype Turn = Turn(status: IoStatus, count: nat, wake: Option<Source>)

  /** How a call stands after the turns it has met so far. */
  datatype Outcome = Success | Failed | Parked | Running

  /** The channel is not ready: a write takes nothing, a flush is refused, a read delivers nothing. */
  predicate WriteWaits(t: Turn) {
    (t.status.Normal? || t.status.Again?) && t.count == 0
  }

  predicate FlushWaits(t: Turn) {
    t.status.Again?
  }

  predicate ReadWaits(t: Turn) {
    t.status.Again? || (t.status.Normal? && t.count == 0)
  }

  /** The call gives up on this turn: the channel is broken, or the wait times out. */
  predicate GivesUp(t: Turn, waits: bool, timeout: bool) {
    t.status.Failure? || t.status.Eof? || (waits && timeout && t.wake == Some(Timer))
  }

  /** The sources a call has armed: none once it has returned. */
  function ArmedBy(outcome: Outcome, timeout: bool): set<Source> {
    match outcome
    case Success => {}
    case Failed => {}
    case Parked => TimerOnly(timeout) + {Watch}
    case Running => TimerOnly(timeout)
  }

  function TimerOnly(timeout: bool): set<Source> {
    if timeout then {Timer} else {}
  }

  /** How many bytes the turns take, of `length` offered. */
  function Taken(turns: seq<Turn>, length: nat): (n: nat)
    ensures n <= length
  {
    if turns == [] then 0
    else
      var before := Taken(turns[..|turns| - 1], length);
      var count := turns[|turns| - 1].count;
      if count < length - before then before + count else length
  }

  lemma TakenNext(turns: seq<Turn>, k: nat, length: nat)
    requires k < |turns|
    ensures var before := Taken(turns[..k], length);
      Taken(turns[..k + 1], length) == if turns[k].count < length - before then before + turns[k].count else length
  {
    assert turns[..k + 1][..k] == turns[..k];
  }

  /** The call goes on past turns `from` to `to`, being woken up wherever it has to wait. */
  predicate GoesOn(turns: seq<Turn>, from: nat, to: nat, waits: Turn -> bool, timeout: bool)
    requires from <= to <= |turns|
  {
    forall i :: from <= i < to ==>
      !GivesUp(turns[i], waits(turns[i]), timeout) && (waits(turns[i]) ==> turns[i].wake.Some?)
  }

  /** A wait: a watch is armed until something wakes the call up. None while nothing has. */
  method Wait(armed: set<Source>, timeout: bool, wake: Option<Source>)
    returns (after: set<Source>, timedOut: Option<bool>)
    requires armed == TimerOnly(timeout)
    ensures wake.None? ==> timedOut.None? && after == armed + {Watch}
    ensures wake.Some? ==> after == armed && timedOut == Some(timeout && wake.value.Timer?)
  {
    after := armed + {Watch};
    if wake.None? {
      return after, None;
    }
    // the watch's own firing ends it as its callback returns; any other wake-up removes it
    after := after - {Watch};
    timedOut := Some(timeout && wake.value.Timer?);
  }

  /** The first loop: offering the rest of the buffer until the channel has taken all of it. */
  method Offer<T>(buf: seq<T>, timeout: bool, turns: seq<Turn>)
    returns (outcome: Outcome, accepted: seq<T>, armed: set<Source>, used: nat)
    ensures used <= |turns|
    ensures accepted == buf[..Taken(turns[..used], |buf|)]
    ensures outcome.Success? ==> accepted == buf && GoesOn(turns, 0, used, WriteWaits, timeout)
    ensures outcome.Failed? ==> 0 < used && GivesUp(turns[used - 1], WriteWaits(turns[used - 1]), timeout)
    ensures outcome.Parked? ==> 0 < used && WriteWaits(turns[used - 1]) && turns[used - 1].wake.None?
    ensures outcome.Failed? || outcome.Parked? ==> GoesOn(turns, 0, used - 1, WriteWaits, timeout)
    ensures outcome.Running? ==> used == |turns| && GoesOn(turns, 0, used, WriteWaits, timeout)
    ensures armed == if outcome.Success? then TimerOnly(timeout) else ArmedBy(outcome, timeout)
  {
    armed := TimerOnly(timeout);
    var offset := 0;
    accepted, used := [], 0;
    while offset < |buf| && used < |turns|
      invariant used <= |turns| && offset <= |buf|
      invariant offset == Taken(turns[..used], |buf|) && accepted == buf[..offset]
      invariant GoesOn(turns, 0, used, WriteWaits, timeout)
      invariant armed == TimerOnly(timeout)
    {
      var t := turns[used];
      var written := if t.count < |buf| - offset then t.count else |buf| - offset;
      TakenNext(turns, used, |buf|);
      accepted := accepted + buf[offset..offset + written];
      offset, used := offset + written, used + 1;
      if t.status.Failure? || t.status.Eof? {
        return Failed, accepted, armed - {Timer}, used;
      }
      if written == 0 {
        var timedOut;
        armed, timedOut := Wait(armed, timeout, t.wake);
        if timedOut.None? {
          return Parked, accepted, armed, used;
        }
        if timedOut.value {
          return Failed, accepted, armed - {Timer}, used;
        }
      }
    }
    outcome := if offset < |buf| then Running else Success;
  }

  /** The second loop: flushing until the channel has passed everything on. */
  method Flush(timeout: bool, turns: seq<Turn>, from: nat) returns (outcome: Outcome, armed: set<Source>, used: nat)
    requires from <= |turns|
    ensures from <= used <= |turns|
    ensures outcome.Success? ==> from < used && turns[used - 1].status.Normal?
    ensures outcome.Failed? ==> from < used && GivesUp(turns[used - 1], FlushWaits(turns[used - 1]), timeout)
    ensures outcome.Parked? ==> from < used && FlushWaits(turns[used - 1]) && turns[used - 1].wake.None?
    ensures !outcome.Running? ==> from < used && GoesOn(turns, from, used - 1, FlushWaits, timeout)
    ensures outcome.Running? ==> used == |turns| && GoesOn(turns, from, used, FlushWaits, timeout)
    ensures forall i :: from <= i < (if outcome.Running? then used else used - 1) ==> FlushWaits(turns[i])
    ensures armed == ArmedBy(outcome, timeout)
  {
    armed, used := TimerOnly(timeout), from;
    while used < |turns|
      invariant from <= used <= |turns|
      invariant GoesOn(turns, from, used, FlushWaits, timeout)
      invariant forall i :: from <= i < used ==> FlushWaits(turns[i])
      invariant armed == TimerOnly(timeout)
    {
      var t := turns[used];
      used := used + 1;
      match t.status
      case Again =>
        var timedOut;
        armed, timedOut := Wait(armed, timeout, t.wake);
        if timedOut.None? {
          return Parked, armed, used;
        }
        if timedOut.value {
          return Failed, armed - {Timer}, used;
        }
      case Normal => return Success, armed - {Timer}, used;
      case _ => return Failed, armed - {Timer}, used;
    }
    return Running, armed, used;
  }

  /** The turn at which a call stopped: `writes` turns offered, the others flushed. */
  predicate StoppedAt(turns: seq<Turn>, writes: nat, used: nat, timeout: bool, outcome: Outcome)
    requires 0 < used <= |turns|
  {
    var t := turns[used - 1];
    var waits := if writes < used then FlushWaits(t) else WriteWaits(t);
    match outcome
    case Success => writes < used && t.status.Normal?
    case Failed => GivesUp(t, waits, timeout)
    case Parked => waits && t.wake.None?
    case Running => true
  }

  /**
   Whatever the schedule, the channel has been given a prefix of the buffer, once and in order, and all of
   it if the call succeeds; it fails only on a turn on which it has to; and it leaves nothing armed.
   */
  method WriteAll<T>(buf: seq<T>, timeout: bool, turns: seq<Turn>)
    returns (outcome: Outcome, accepted: seq<T>, armed: set<Source>, ghost writes: nat, used: nat)
    ensures writes <= used <= |turns|
    ensures accepted == buf[..Taken(turns[..writes], |buf|)]
    ensures outcome.Success? || writes < used ==> accepted == buf
    ensures if outcome.Running? then used == |turns| else 0 < used && StoppedAt(turns, writes, used, timeout, outcome)
    ensures var decided := if outcome.Running? then used else used - 1;
      if writes < used then
        && GoesOn(turns, 0, writes, WriteWaits, timeout)
        && GoesOn(turns, writes, decided, FlushWaits, timeout)
        && forall i :: writes <= i < decided ==> FlushWaits(turns[i])
      else 0 <= decided && GoesOn(turns, 0, decided, WriteWaits, timeout)
    ensures armed == ArmedBy(outcome, timeout)
  {
    outcome, accepted, armed, used := Offer(buf, timeout, turns);
    writes := used;
    if outcome.Success? {
      outcome, armed, used := Flush(timeout, turns, used);
    }
  }

  /** Reading goes on until a turn delivers a line: the one returned. */
  method ReadLine(timeout: bool, turns: seq<Turn>) returns (outcome: Outcome, armed: set<Source>, used: nat)
    ensures used <= |turns|
    ensures outcome.Success? ==> 0 < used && turns[used - 1].status.Normal? && turns[used - 1].count > 0
    ensures outcome.Failed? ==> 0 < used && GivesUp(turns[used - 1], ReadWaits(turns[used - 1]), timeout)
    ensures outcome.Parked? ==> 0 < used && ReadWaits(turns[used - 1]) && turns[used - 1].wake.None?
    ensures outcome.Running? ==> used == |turns|
    ensures var decided := if outcome.Running? then used else used - 1;
      0 <= decided && GoesOn(turns, 0, decided, ReadWaits, timeout) &&
      forall i :: 0 <= i < decided ==> ReadWaits(turns[i])
    ensures armed == ArmedBy(outcome, timeout)
  {
    armed := TimerOnly(timeout);
    used := 0;
    while used < |turns|
      invariant used <= |turns|
      invariant GoesOn(turns, 0, used, ReadWaits, timeout)
      invariant forall i :: 0 <= i < used ==> ReadWaits(turns[i])
      invariant armed == TimerOnly(timeout)
    {
      var t := turns[used];
      used := used + 1;
      if ReadWaits(t) {
        var timedOut;
        armed, timedOut := Wait(armed, timeout, t.wake);
        if timedOut.None? {
          return Parked, armed, used;
        }
        if timedOut.value {
          return Failed, armed - {Timer}, used;
        }
      } else if t.status.Normal? {
        return Success, armed - {Timer}, used;
      } else {
        return Failed, armed - {Timer}, used;
      }
    }
    return Running, armed, used;
  }
}
