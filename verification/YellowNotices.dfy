/**
 What a notice of the debouncer means, in terms of nothing but what the network interface reported: the link had
 been down, or up, for both windows, and with punctual timers for no longer.
 */
module YellowNotices {
  import opened ColodTypes
  import opened Yellow
  import opened YellowRefinement
  import Runs

  /** The reports among the inputs, with their times. */
  function Readings(inputs: seq<Input>, now: nat): seq<Report>
    decreases |inputs|
  {
    if inputs == [] then []
    else
      match inputs[0]
      case Reported(up) => [Report(now, up)] + Readings(inputs[1..], now)
      case Elapsed(duration) => Readings(inputs[1..], now + duration)
  }

  /** And among the moves of a run. */
  function ReadingsOf(moves: seq<Move>, now: nat): seq<Report>
    decreases |moves|
  {
    if moves == [] then []
    else
      match moves[0]
      case Link(up) => [Report(now, up)] + ReadingsOf(moves[1..], now)
      case Pass(duration) => ReadingsOf(moves[1..], now + duration)
      case _ => ReadingsOf(moves[1..], now)
  }

  /** The time that passes in the course of the inputs. */
  function Duration(inputs: seq<Input>): nat
    decreases |inputs|
  {
    if inputs == [] then 0
    else (if inputs[0].Elapsed? then inputs[0].duration else 0) + Duration(inputs[1..])
  }

  /**
   When the notice was made, `k` reports had been heard, and from the `j`-th of them on all had said what the
   notice says, for both windows; exactly so long if it is `punctual`.
   */
  predicate Justified(c: Config, heard: seq<Report>, n: Notice, punctual: bool, k: int, j: int) {
    && n.event in {EventYellow, EventUnyellow}
    && 0 <= k <= |heard| && HeldFrom(heard[..k], n.event == EventUnyellow, j)
    && heard[j].time + c.timeout1 + c.timeout2 <= n.time
    && (punctual ==> heard[j].time + c.timeout1 + c.timeout2 == n.time)
    && (k < |heard| ==> n.time <= heard[k].time)
  }

  ghost predicate AllJustified(c: Config, d: Debouncer, punctual: bool) {
    forall n :: n in d.notified ==> n.time <= d.now && exists k, j :: Justified(c, d.heard, n, punctual, k, j)
  }

  predicate NothingOverdue(c: Config, d: Debouncer) {
    var since := HeldSince(d.heard, !d.up);
    since.Some? ==> d.now <= since.value + c.timeout1 + c.timeout2
  }

  /** With punctual changes nothing is overdue. */
  ghost predicate Fits(c: Config, d: Debouncer, punctual: bool) {
    && AllJustified(c, d, punctual)
    && (punctual ==> !d.stopped && NothingOverdue(c, d))
  }

  lemma HearKeeps(c: Config, d: Debouncer, up: bool, punctual: bool)
    requires Fits(c, d, punctual)
    ensures Fits(c, Hear(d, up), punctual)
  {
    var e := Hear(d, up);
    HeldAfter(d.heard, Report(d.now, up), !d.up);
    forall n | n in e.notified ensures n.time <= e.now && exists k, j :: Justified(c, e.heard, n, punctual, k, j) {
      var k, j :| Justified(c, d.heard, n, punctual, k, j);
      assert e.heard[..k] == d.heard[..k];
      assert Justified(c, e.heard, n, punctual, k, j);
    }
  }

  lemma CommitKeeps(c: Config, d: Debouncer, punctual: bool)
    requires AllJustified(c, d, punctual) && Due(c, d, d.now)
    requires punctual ==> d.now == HeldSince(d.heard, !d.up).value + c.timeout1 + c.timeout2
    ensures Fits(c, Commit(d), punctual)
  {
    var e, made := Commit(d), Notice(d.now, NoticeOf(!d.up));
    HeldMeans(d.heard, !d.up);
    var j :| HeldFrom(d.heard, !d.up, j);
    assert d.heard[..|d.heard|] == d.heard;
    assert Justified(c, e.heard, made, punctual, |d.heard|, j);
    forall n | n in e.notified ensures n.time <= e.now && exists k, j :: Justified(c, e.heard, n, punctual, k, j) {
      if n in d.notified {
        var k, i :| Justified(c, d.heard, n, punctual, k, i);
        assert Justified(c, e.heard, n, punctual, k, i);
      }
    }
  }

  lemma LaterKeeps(c: Config, d: Debouncer, now: nat, punctual: bool)
    requires AllJustified(c, d, punctual) && d.now <= now
    ensures AllJustified(c, d.(now := now), punctual)
  {
  }

  lemma WaitKeeps(c: Config, d: Debouncer, duration: nat)
    requires Fits(c, d, true)
    ensures var e := Wait(c, d, duration); Fits(c, e, true) && e.heard == d.heard && e.now == d.now + duration
  {
    var end, since := d.now + duration, HeldSince(d.heard, !d.up);
    if Due(c, d, end) {
      var due := d.(now := since.value + c.timeout1 + c.timeout2);
      LaterKeeps(c, d, due.now, true);
      CommitKeeps(c, due, true);
      LaterKeeps(c, Commit(due), end, true);
    } else {
      LaterKeeps(c, d, end, true);
    }
  }

  /** With punctual changes every notice is justified to the moment. */
  lemma {:induction false} DebounceFits(c: Config, d: Debouncer, inputs: seq<Input>)
    requires Fits(c, d, true)
    ensures var e := Debounce(c, d, inputs);
      Fits(c, e, true) && e.heard == d.heard + Readings(inputs, d.now) && e.now == d.now + Duration(inputs)
    decreases |inputs|
  {
    if inputs == [] {
      assert d.heard + [] == d.heard;
    } else {
      match inputs[0]
      case Reported(up) =>
        HearKeeps(c, d, up, true);
        DebounceFits(c, Hear(d, up), inputs[1..]);
        var rest := Readings(inputs[1..], d.now);
        assert (d.heard + [Report(d.now, up)]) + rest == d.heard + ([Report(d.now, up)] + rest);
      case Elapsed(duration) =>
        WaitKeeps(c, d, duration);
        DebounceFits(c, Wait(c, d, duration), inputs[1..]);
    }
  }

  /**
   With punctual timers: whenever the link is said to be yellow, or no longer yellow, the reports up to then had
   been down, or up, without a break since exactly the two windows before.
   */
  lemma NoticesMean(c: Config, inputs: seq<Input>, n: Notice)
    requires n in Play(c, Created, inputs).notified
    ensures exists k, j :: Justified(c, Readings(inputs, 0), n, true, k, j)
  {
    Debounces(c, inputs);
    DebounceFits(c, Quiet, inputs);
    assert [] + Readings(inputs, 0) == Readings(inputs, 0);
  }

  /** What was said last; a link of which nothing was said counts as up. */
  function LastSaid(notified: seq<Notice>): ColodEvent {
    if notified == [] then EventUnyellow else notified[|notified| - 1].event
  }

  lemma {:induction false} DebounceSays(c: Config, d: Debouncer, inputs: seq<Input>)
    requires LastSaid(d.notified) == NoticeOf(d.up)
    ensures var e := Debounce(c, d, inputs); LastSaid(e.notified) == NoticeOf(e.up)
    decreases |inputs|
  {
    if inputs != [] {
      match inputs[0]
      case Reported(up) => DebounceSays(c, Hear(d, up), inputs[1..]);
      case Elapsed(duration) => DebounceSays(c, Wait(c, d, duration), inputs[1..]);
    }
  }

  /** And a link that has been down, or up, for longer than both windows has been said to be so. */
  lemma HeldIsNoticed(c: Config, inputs: seq<Input>, up: bool)
    requires var since := HeldSince(Readings(inputs, 0), up);
      since.Some? && since.value + c.timeout1 + c.timeout2 < Duration(inputs)
    ensures LastSaid(Play(c, Created, inputs).notified) == if up then EventUnyellow else EventYellow
  {
    Debounces(c, inputs);
    DebounceFits(c, Quiet, inputs);
    DebounceSays(c, Quiet, inputs);
    assert [] + Readings(inputs, 0) == Readings(inputs, 0);
  }

  lemma StepNotices(c: Config, s: Yellow, d: Debouncer, m: Move) returns (e: Debouncer)
    requires Inv(s) && Refines(c, s, d, false) && Next(c, s, m).Some? && Fits(c, d, false)
    ensures Refines(c, Next(c, s, m).value, e, false) && Fits(c, e, false)
    ensures e.heard == if m.Link? then d.heard + [Report(d.now, m.up)] else d.heard
    ensures e.now == if m.Pass? then d.now + m.duration else d.now
  {
    e := NextRefines(c, s, d, m, false);
    match m
    case Link(up) => HearKeeps(c, d, up, false);
    case Pass(duration) => LaterKeeps(c, d, e.now, false);
    case Expire(_) =>
      if s.park.SecondWindow? {
        CommitKeeps(c, d, false);
      }
    case Shutdown =>
      assert e == d.(stopped := true);
  }

  lemma {:induction false} RunNotices(c: Config, s0: Yellow, d0: Debouncer, moves: seq<Move>, s: Yellow)
    returns (d: Debouncer)
    requires Inv(s0) && Refines(c, s0, d0, false) && Fits(c, d0, false) && Runs.Reaches(Stepper(c), s0, moves, s)
    ensures Refines(c, s, d, false) && Fits(c, d, false) && d.heard == d0.heard + ReadingsOf(moves, d0.now)
    decreases |moves|
  {
    if moves == [] {
      d := d0;
      assert d0.heard + [] == d0.heard;
    } else {
      var e := StepNotices(c, s0, d0, moves[0]);
      NextKeepsInv(c, s0, moves[0]);
      d := RunNotices(c, Next(c, s0, moves[0]).value, e, moves[1..], s);
      if moves[0].Link? {
        var r, rest := Report(d0.now, moves[0].up), ReadingsOf(moves[1..], d0.now);
        assert (d0.heard + [r]) + rest == d0.heard + ([r] + rest);
      }
    }
  }

  /** In every run, however late the timers: the reports had been so for at least the two windows. */
  lemma LateNoticesMean(c: Config, moves: seq<Move>, s: Yellow, n: Notice)
    requires Runs.Reaches(Stepper(c), Created, moves, s) && n in s.notified
    ensures exists k, j :: Justified(c, ReadingsOf(moves, 0), n, false, k, j)
  {
    CreatedRefines(c);
    var d := RunNotices(c, Created, Quiet, moves, s);
    assert [] + ReadingsOf(moves, 0) == ReadingsOf(moves, 0);
  }
}
