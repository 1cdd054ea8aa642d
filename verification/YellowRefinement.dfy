/**
 The debouncer against its specification: a history of what the interface reported, and a link that counts as
 up or down until the opposite has been reported, without contradiction, for as long as both windows together.
 */
module YellowRefinement {
  import opened ColodTypes
  import opened Yellow
  import Runs

  /** What the network interface reported, and when. */
  datatype Report = Report(time: nat, up: bool)

  /** `heard` holds every report; the link counts as `up` or not. */
  datatype Debouncer = Debouncer(up: bool, heard: seq<Report>, now: nat, notified: seq<Notice>, stopped: bool)

  /** The notice that the link now counts as up: it is no longer yellow. */
  function NoticeOf(up: bool): ColodEvent {
    if up then EventUnyellow else EventYellow
  }

  /** Since when every report has been `up`, if the last one was. */
  function HeldSince(heard: seq<Report>, up: bool): Option<nat> {
    if heard == [] || heard[|heard| - 1].up != up then None
    else
      var last := |heard| - 1;
      var before := HeldSince(heard[..last], up);
      if before.Some? then before else Some(heard[last].time)
  }

  /** The opposite has held for both windows. */
  predicate Due(c: Config, d: Debouncer, time: nat) {
    var since := HeldSince(d.heard, !d.up);
    !d.stopped && since.Some? && since.value + c.timeout1 + c.timeout2 <= time
  }

  function Commit(d: Debouncer): Debouncer {
    d.(up := !d.up, notified := d.notified + [Notice(d.now, NoticeOf(!d.up))])
  }

  function Hear(d: Debouncer, up: bool): Debouncer {
    d.(heard := d.heard + [Report(d.now, up)])
  }

  datatype DebounceMove = Hears(up: bool) | Change | Advance(duration: nat) | Stop

  function DebounceNext(c: Config, d: Debouncer, m: DebounceMove): Option<Debouncer> {
    match m
    case Hears(up) => if d.stopped then None else Some(Hear(d, up))
    case Change => if Due(c, d, d.now) then Some(Commit(d)) else None
    case Advance(duration) => Some(d.(now := d.now + duration))
    case Stop => Some(d.(stopped := true))
  }

  function DebounceStepper(c: Config): (Debouncer, DebounceMove) -> Option<Debouncer> {
    (d, m) => DebounceNext(c, d, m)
  }

  const Quiet := Debouncer(true, [], 0, [], false)

  // ---- Every run, with timers as late as they like ----

  /** With `punctual`, no timer is overdue and the second window ends exactly when the change is due. */
  predicate Refines(c: Config, s: Yellow, d: Debouncer, punctual: bool) {
    var since := HeldSince(d.heard, !d.up);
    && s.target == NoticeOf(!d.up) && d.now == s.now && d.notified == s.notified && d.stopped == s.park.Ended?
    && match s.park
       case Awaiting => since.None?
       case FirstWindow =>
         && since.Some? && s.timers.kept in s.timers.armed
         && var deadline := s.timers.armed[s.timers.kept];
            && deadline == since.value + c.timeout1
            && (punctual ==> s.now <= deadline)
       case SecondWindow =>
         && since.Some? && s.timers.kept in s.timers.armed
         && var deadline := s.timers.armed[s.timers.kept];
            && deadline >= since.value + c.timeout1 + c.timeout2
            && (punctual ==> deadline == since.value + c.timeout1 + c.timeout2 && s.now <= deadline)
       case _ => true
  }

  /** The specification's counterpart of a step, if it has one. */
  function Counterpart(s: Yellow, m: Move): Option<DebounceMove> {
    match m
    case Link(up) => Some(Hears(up))
    case Shutdown => Some(Stop)
    case Expire(_) => if s.park.SecondWindow? then Some(Change) else None
    case Pass(duration) => Some(Advance(duration))
  }

  lemma HeldAfter(heard: seq<Report>, r: Report, up: bool)
    ensures HeldSince(heard + [r], up) ==
            if r.up != up then None
            else if HeldSince(heard, up).Some? then HeldSince(heard, up)
            else Some(r.time)
  {
    assert (heard + [r])[..|heard|] == heard;
  }

  /** `m`, made from `s`, is matched by the specification: by its counterpart from `d` to `d'`, or by nothing. */
  predicate Matches(c: Config, s: Yellow, d: Debouncer, m: Move, punctual: bool, d': Debouncer)
    requires Next(c, s, m).Some?
  {
    Refines(c, Next(c, s, m).value, d', punctual) &&
    var move := Counterpart(s, m);
    if move.None? then d' == d else DebounceNext(c, d, move.value) == Some(d')
  }

  lemma LinkMatches(c: Config, s: Yellow, d: Debouncer, up: bool, punctual: bool)
    requires Inv(s) && Refines(c, s, d, punctual) && Next(c, s, Link(up)).Some?
    ensures Matches(c, s, d, Link(up), punctual, Hear(d, up))
  {
    hide HeldSince;
    HeldAfter(d.heard, Report(d.now, up), !d.up);
  }

  lemma ShutdownMatches(c: Config, s: Yellow, d: Debouncer, punctual: bool)
    requires Inv(s) && Refines(c, s, d, punctual)
    ensures Matches(c, s, d, Shutdown, punctual, d.(stopped := true))
  {
  }

  lemma ExpireMatches(c: Config, s: Yellow, d: Debouncer, id: nat, punctual: bool)
    requires Inv(s) && Refines(c, s, d, punctual) && Next(c, s, Expire(id)).Some?
    requires punctual ==> s.timers.armed[id] == s.now
    ensures Matches(c, s, d, Expire(id), punctual, if s.park.SecondWindow? then Commit(d) else d)
  {
  }

  lemma PassMatches(c: Config, s: Yellow, d: Debouncer, duration: nat)
    requires Refines(c, s, d, false)
    ensures Matches(c, s, d, Pass(duration), false, d.(now := d.now + duration))
  {
  }

  lemma NextRefines(c: Config, s: Yellow, d: Debouncer, m: Move, punctual: bool) returns (d': Debouncer)
    requires Inv(s) && Refines(c, s, d, punctual) && Next(c, s, m).Some?
    requires m.Pass? ==> !punctual
    requires m.Expire? && punctual ==> s.timers.armed[m.id] == s.now
    ensures Matches(c, s, d, m, punctual, d')
  {
    hide Matches;
    match m
    case Link(up) =>
      d' := Hear(d, up);
      LinkMatches(c, s, d, up, punctual);
    case Shutdown =>
      d' := d.(stopped := true);
      ShutdownMatches(c, s, d, punctual);
    case Expire(id) =>
      d' := if s.park.SecondWindow? then Commit(d) else d;
      ExpireMatches(c, s, d, id, punctual);
    case Pass(duration) =>
      d' := d.(now := d.now + duration);
      PassMatches(c, s, d, duration);
  }

  /**
   In every run, however late the timers fire, the notifications are those of a run of the
   specification: the level only changes when the other one has held for both windows.
   */
  lemma {:induction false} RunRefines(c: Config, s0: Yellow, d0: Debouncer, moves: seq<Move>, s: Yellow)
    returns (changes: seq<DebounceMove>, d: Debouncer)
    requires Inv(s0) && Refines(c, s0, d0, false) && Runs.Reaches(Stepper(c), s0, moves, s)
    ensures Runs.Reaches(DebounceStepper(c), d0, changes, d)
    ensures Refines(c, s, d, false) && d.notified == s.notified
    decreases |moves|
  {
    if moves == [] {
      changes, d := [], d0;
    } else {
      var d1 := NextRefines(c, s0, d0, moves[0], false);
      var s1 := Next(c, s0, moves[0]).value;
      NextKeepsInv(c, s0, moves[0]);
      changes, d := RunRefines(c, s1, d1, moves[1..], s);
      var move := Counterpart(s0, moves[0]);
      if move.Some? {
        assert ([move.value] + changes)[1..] == changes;
        changes := [move.value] + changes;
      }
    }
  }

  lemma CreatedRefines(c: Config)
    ensures Inv(Created) && Refines(c, Created, Quiet, true)
  {
  }

  // ---- Punctual timers ----

  datatype Input = Reported(up: bool) | Elapsed(duration: nat)

  function Max(a: nat, b: nat): nat {
    if a < b then b else a
  }

  function WindowsLeft(s: Yellow): nat {
    match s.park
    case FirstWindow => 2
    case SecondWindow => 1
    case _ => 0
  }

  /** Time passes, and timers that become due meanwhile fire at their deadlines. */
  function Elapse(c: Config, s: Yellow, duration: nat): Yellow
    decreases WindowsLeft(s)
  {
    var id, end := s.timers.kept, s.now + duration;
    if WindowsLeft(s) > 0 && id in s.timers.armed && s.timers.armed[id] <= end then
      var due := s.(now := Max(s.now, s.timers.armed[id]));
      Elapse(c, Fire(c, due, id), end - due.now)
    else s.(now := end)
  }

  function Play(c: Config, s: Yellow, inputs: seq<Input>): Yellow
    decreases |inputs|
  {
    if inputs == [] then s
    else
      var t := match inputs[0]
        case Reported(up) => Resume(c, s, Some(LinkEvent(up)))
        case Elapsed(duration) => Elapse(c, s, duration);
      Play(c, t, inputs[1..])
  }

  /** The specification, changing the level the moment it is due. */
  function Debounce(c: Config, d: Debouncer, inputs: seq<Input>): Debouncer
    decreases |inputs|
  {
    if inputs == [] then d
    else
      var e := match inputs[0]
        case Reported(up) => Hear(d, up)
        case Elapsed(duration) => Wait(c, d, duration);
      Debounce(c, e, inputs[1..])
  }

  function Wait(c: Config, d: Debouncer, duration: nat): Debouncer {
    var end := d.now + duration;
    var since := HeldSince(d.heard, !d.up);
    if Due(c, d, end) then
      Commit(d.(now := Max(d.now, since.value + c.timeout1 + c.timeout2))).(now := end)
    else d.(now := end)
  }

  /** Waiting in two parts, with no change due before the second. */
  lemma WaitSplits(c: Config, d: Debouncer, first: nat, second: nat)
    requires var since := HeldSince(d.heard, !d.up);
      since.Some? ==> d.now + first <= since.value + c.timeout1 + c.timeout2
    ensures Wait(c, d, first + second) == Wait(c, d.(now := d.now + first), second)
  {
  }

  /** A change that is due right away is made, and nothing more is due after it. */
  lemma DueWaits(c: Config, d: Debouncer, duration: nat)
    requires Due(c, d, d.now)
    requires d.now == HeldSince(d.heard, !d.up).value + c.timeout1 + c.timeout2
    ensures Wait(c, d, duration) == Commit(d).(now := d.now + duration)
  {
  }

  /** The first window ends: the announcement is made, and nothing changes yet. */
  lemma FirstWindowEnds(c: Config, s: Yellow, d: Debouncer)
    requires Inv(s) && s.park.FirstWindow? && Refines(c, s, d, true)
    requires s.timers.armed[s.timers.kept] == s.now
    ensures var t := Fire(c, s, s.timers.kept);
      Inv(t) && t.park.SecondWindow? && t.now == s.now && Refines(c, t, d, true)
  {
    NextKeepsInv(c, s, Expire(s.timers.kept));
    var _ := NextRefines(c, s, d, Expire(s.timers.kept), true);
  }

  /** The second window ends: the level changes. */
  lemma SecondWindowEnds(c: Config, s: Yellow, d: Debouncer)
    requires Inv(s) && s.park.SecondWindow? && Refines(c, s, d, true)
    requires s.timers.armed[s.timers.kept] == s.now
    ensures var t := Fire(c, s, s.timers.kept);
      Inv(t) && t.park.Awaiting? && t.now == s.now && Refines(c, t, Commit(d), true)
  {
    NextKeepsInv(c, s, Expire(s.timers.kept));
    var _ := NextRefines(c, s, d, Expire(s.timers.kept), true);
  }

  /** Time passes up to the deadline, the timer fires, and the rest of the time passes. */
  lemma ElapseFires(c: Config, s: Yellow, duration: nat)
    requires WindowsLeft(s) > 0 && s.timers.kept in s.timers.armed
    requires s.now <= s.timers.armed[s.timers.kept] <= s.now + duration
    ensures var deadline := s.timers.armed[s.timers.kept];
      Elapse(c, s, duration) == Elapse(c, Fire(c, s.(now := deadline), s.timers.kept), s.now + duration - deadline)
  {
  }

  /** The part of a wait up to the end of the second window. */
  lemma SecondWindowPart(c: Config, s: Yellow, d: Debouncer, duration: nat)
    returns (t: Yellow, later: Debouncer, rest: nat)
    requires Inv(s) && s.park.SecondWindow? && Refines(c, s, d, true)
    requires s.timers.armed[s.timers.kept] <= s.now + duration
    ensures Inv(t) && t.park.Awaiting? && Refines(c, t, later, true)
    ensures Elapse(c, s, duration) == Elapse(c, t, rest)
    ensures Wait(c, d, duration) == later.(now := later.now + rest)
  {
    var deadline := s.timers.armed[s.timers.kept];
    rest := s.now + duration - deadline;
    var due := d.(now := deadline);
    assert Wait(c, d, duration) == Commit(due).(now := deadline + rest) by {
      WaitSplits(c, d, deadline - s.now, rest);
      DueWaits(c, due, rest);
    }
    later := Commit(due);
    t := Fire(c, s.(now := deadline), s.timers.kept);
    ElapseFires(c, s, duration);
    SecondWindowEnds(c, s.(now := deadline), due);
  }

  lemma SecondWindowWaits(c: Config, s: Yellow, d: Debouncer, duration: nat)
    requires Inv(s) && s.park.SecondWindow? && Refines(c, s, d, true)
    ensures var t := Elapse(c, s, duration);
      Inv(t) && !t.park.Ended? && Refines(c, t, Wait(c, d, duration), true)
  {
    if s.timers.armed[s.timers.kept] <= s.now + duration {
      var t, later, rest := SecondWindowPart(c, s, d, duration);
      AwaitingWaits(c, t, later, rest);
    }
  }

  lemma AwaitingWaits(c: Config, s: Yellow, d: Debouncer, duration: nat)
    requires Inv(s) && s.park.Awaiting? && Refines(c, s, d, true)
    ensures var t := Elapse(c, s, duration);
      Inv(t) && !t.park.Ended? && Refines(c, t, d.(now := d.now + duration), true)
  {
  }

  /** The part of a wait up to the end of the first window. */
  lemma FirstWindowPart(c: Config, s: Yellow, d: Debouncer, duration: nat)
    returns (t: Yellow, later: Debouncer, rest: nat)
    requires Inv(s) && s.park.FirstWindow? && Refines(c, s, d, true)
    requires s.timers.armed[s.timers.kept] <= s.now + duration
    ensures Inv(t) && t.park.SecondWindow? && Refines(c, t, later, true)
    ensures Elapse(c, s, duration) == Elapse(c, t, rest)
    ensures Wait(c, d, duration) == Wait(c, later, rest)
  {
    var deadline := s.timers.armed[s.timers.kept];
    rest := s.now + duration - deadline;
    later := d.(now := deadline);
    assert Wait(c, d, duration) == Wait(c, later, rest) by {
      WaitSplits(c, d, deadline - s.now, rest);
    }
    var due := s.(now := deadline);
    t := Fire(c, due, s.timers.kept);
    ElapseFires(c, s, duration);
    FirstWindowEnds(c, due, later);
  }

  lemma FirstWindowWaits(c: Config, s: Yellow, d: Debouncer, duration: nat)
    requires Inv(s) && s.park.FirstWindow? && Refines(c, s, d, true)
    requires s.timers.armed[s.timers.kept] <= s.now + duration
    ensures var t := Elapse(c, s, duration);
      Inv(t) && !t.park.Ended? && Refines(c, t, Wait(c, d, duration), true)
  {
    var t, later, rest := FirstWindowPart(c, s, d, duration);
    SecondWindowWaits(c, t, later, rest);
  }

  lemma ElapseWaits(c: Config, s: Yellow, d: Debouncer, duration: nat)
    requires Inv(s) && !s.park.Ended? && Refines(c, s, d, true)
    ensures var t := Elapse(c, s, duration);
      Inv(t) && !t.park.Ended? && Refines(c, t, Wait(c, d, duration), true)
  {
    if s.park.SecondWindow? {
      SecondWindowWaits(c, s, d, duration);
    } else if s.park.FirstWindow? && s.timers.armed[s.timers.kept] <= s.now + duration {
      FirstWindowWaits(c, s, d, duration);
    }
  }

  /**
   With punctual timers the notifications, and their times, are exactly those of the specification, for
   every sequence of reports and delays.
   */
  lemma {:induction false} PlayDebounces(c: Config, s: Yellow, d: Debouncer, inputs: seq<Input>)
    requires Inv(s) && !s.park.Ended? && Refines(c, s, d, true)
    ensures Play(c, s, inputs).notified == Debounce(c, d, inputs).notified
    decreases |inputs|
  {
    if inputs != [] {
      match inputs[0]
      case Reported(up) =>
        NextKeepsInv(c, s, Link(up));
        var e := NextRefines(c, s, d, Link(up), true);
        PlayDebounces(c, Resume(c, s, Some(LinkEvent(up))), e, inputs[1..]);
      case Elapsed(duration) =>
        ElapseWaits(c, s, d, duration);
        PlayDebounces(c, Elapse(c, s, duration), Wait(c, d, duration), inputs[1..]);
    }
  }

  /** From the start: what the coroutine commits is what the specification commits, at the same times. */
  lemma Debounces(c: Config, inputs: seq<Input>)
    ensures Play(c, Created, inputs).notified == Debounce(c, Quiet, inputs).notified
  {
    CreatedRefines(c);
    PlayDebounces(c, Created, Quiet, inputs);
  }

  /** The reports have been `up` from the `k`-th on, and were not just before it. */
  predicate HeldFrom(heard: seq<Report>, up: bool, k: int) {
    && 0 <= k < |heard|
    && (forall j :: k <= j < |heard| ==> heard[j].up == up)
    && (k > 0 ==> heard[k - 1].up != up)
  }

  lemma HeldFromPrefix(heard: seq<Report>, up: bool, k: int)
    requires heard != [] && heard[|heard| - 1].up == up && k < |heard| - 1
    ensures HeldFrom(heard, up, k) <==> HeldFrom(heard[..|heard| - 1], up, k)
  {
    var prefix := heard[..|heard| - 1];
    if HeldFrom(prefix, up, k) {
      forall j | k <= j < |heard| ensures heard[j].up == up {
        if j < |prefix| {
          assert prefix[j].up == up;
        }
      }
    }
  }

  lemma {:induction false} HeldIs(heard: seq<Report>, up: bool, k: int)
    requires HeldFrom(heard, up, k)
    ensures HeldSince(heard, up) == Some(heard[k].time)
  {
    var last := |heard| - 1;
    var prefix := heard[..last];
    if k < last {
      HeldFromPrefix(heard, up, k);
      HeldIs(prefix, up, k);
    } else if last > 0 {
      assert prefix[|prefix| - 1] == heard[k - 1];
    }
  }

  lemma {:induction false} HeldStart(heard: seq<Report>, up: bool) returns (k: int)
    requires heard != [] && heard[|heard| - 1].up == up
    ensures HeldFrom(heard, up, k)
  {
    var last := |heard| - 1;
    if last > 0 && heard[last - 1].up == up {
      k := HeldStart(heard[..last], up);
      HeldFromPrefix(heard, up, k);
    } else {
      k := last;
    }
  }

  /**
   The link has been up, or down, since the earliest of the latest reports that are all alike: repeating a report
   restarts nothing, and there is no such time exactly if the last report, if any, was another one.
   */
  lemma HeldMeans(heard: seq<Report>, up: bool)
    ensures HeldSince(heard, up).None? <==> heard == [] || heard[|heard| - 1].up != up
    ensures HeldSince(heard, up).Some? ==> exists k :: HeldFrom(heard, up, k)
    ensures forall k :: HeldFrom(heard, up, k) ==> HeldSince(heard, up) == Some(heard[k].time)
  {
    if heard != [] && heard[|heard| - 1].up == up {
      var k := HeldStart(heard, up);
    }
    forall k | HeldFrom(heard, up, k) ensures HeldSince(heard, up) == Some(heard[k].time) {
      HeldIs(heard, up, k);
    }
  }

  lemma {:induction false} ElapseIsRun(c: Config, s: Yellow, duration: nat) returns (moves: seq<Move>)
    requires WindowsLeft(s) > 0 && s.timers.kept in s.timers.armed ==> s.now <= s.timers.armed[s.timers.kept]
    ensures Runs.Reaches(Stepper(c), s, moves, Elapse(c, s, duration))
    decreases WindowsLeft(s)
  {
    var id, end := s.timers.kept, s.now + duration;
    if WindowsLeft(s) > 0 && id in s.timers.armed && s.timers.armed[id] <= end {
      var wait := s.timers.armed[id] - s.now;
      var due := s.(now := s.timers.armed[id]);
      Runs.One(Stepper(c), s, Pass(wait));
      Runs.Extend(Stepper(c), s, [Pass(wait)], due, Expire(id));
      var rest := ElapseIsRun(c, Fire(c, due, id), end - due.now);
      moves := [Pass(wait)] + [Expire(id)];
      Runs.Concat(Stepper(c), s, moves, Fire(c, due, id), rest, Elapse(c, s, duration));
      moves := moves + rest;
    } else {
      Runs.One(Stepper(c), s, Pass(duration));
      moves := [Pass(duration)];
    }
  }

  /** Punctual timers are one way the timers may behave: every play is a run. */
  lemma {:induction false} PlayIsRun(c: Config, s: Yellow, d: Debouncer, inputs: seq<Input>) returns (moves: seq<Move>)
    requires Inv(s) && !s.park.Ended? && Refines(c, s, d, true)
    ensures Runs.Reaches(Stepper(c), s, moves, Play(c, s, inputs))
    decreases |inputs|
  {
    if inputs == [] {
      moves := [];
    } else {
      var first, t, e;
      match inputs[0] {
        case Reported(up) =>
          first, t := [Link(up)], Resume(c, s, Some(LinkEvent(up)));
          Runs.One(Stepper(c), s, Link(up));
          NextKeepsInv(c, s, Link(up));
          e := NextRefines(c, s, d, Link(up), true);
        case Elapsed(duration) =>
          t, e := Elapse(c, s, duration), Wait(c, d, duration);
          first := ElapseIsRun(c, s, duration);
          ElapseWaits(c, s, d, duration);
      }
      var rest := PlayIsRun(c, t, e, inputs[1..]);
      Runs.Concat(Stepper(c), s, first, t, rest, Play(c, s, inputs));
      moves := first + rest;
    }
  }
}
