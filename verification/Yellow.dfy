/**
 The yellow debouncer: the monitored link's level is announced to the peer once it has changed for
 `timeout1`, committed once it has stayed so for `timeout2` more, and the announcement is taken back
 if it does not.
 */
module Yellow {
  import opened ColodTypes
  import Runs

  datatype Config = Config(timeout1: nat, timeout2: nat)

  /** Where the coroutine is parked, or that it has ended, or that one of its asserts has failed. */
  datatype Park =
    | Awaiting          // for an event; no window is running
    | FirstWindow
    | SecondWindow
    | Ended
    | AssertFailed

  /** A notification of the main coroutine, and when it was made. */
  datatype Notice = Notice(time: nat, event: ColodEvent)

  /** The armed timers by source id, and the id the coroutine has kept. */
  datatype Timers = Timers(kept: nat, armed: map<nat, nat>, nextId: nat)

  datatype Yellow = Yellow(target: ColodEvent, park: Park, timers: Timers, now: nat,
                           sent: seq<ColodMessage>, notified: seq<Notice>)

  function Opposite(level: ColodEvent): ColodEvent {
    if level == EventYellow then EventUnyellow else EventYellow
  }

  function TargetMessage(target: ColodEvent): ColodMessage {
    if target == EventYellow then MessageYellow else MessageUnyellow
  }

  function RevertMessage(target: ColodEvent): ColodMessage {
    if target == EventYellow then MessageUnyellow else MessageYellow
  }

  function Send(s: Yellow, message: ColodMessage): Yellow {
    s.(sent := s.sent + [message])
  }

  function Arm(s: Yellow, timeout: nat): Yellow {
    var t := s.timers;
    s.(timers := Timers(t.nextId, t.armed[t.nextId := s.now + timeout], t.nextId + 1))
  }

  /** g_source_remove of the kept id */
  function Disarm(s: Yellow): Yellow {
    s.(timers := s.timers.(armed := s.timers.armed - {s.timers.kept}))
  }

  /** The head of _yellow_delay_co's outer loop, reached with `event`; None is a resume by a timer. */
  function Begin(c: Config, s: Yellow, event: Option<ColodEvent>): Yellow {
    if event.None? then s.(park := AssertFailed)
    else if event.value == EventQuit then s.(park := Ended)
    else if event.value != s.target then s.(park := Awaiting)
    else Arm(s, c.timeout1).(park := FirstWindow)
  }

  /** The coroutine resumed from where it is parked. */
  function Resume(c: Config, s: Yellow, event: Option<ColodEvent>): Yellow {
    match s.park
    case Awaiting => Begin(c, s, event)
    case FirstWindow =>
      if event == Some(s.target) then s
      else if event.Some? then Begin(c, Disarm(s), event)
      else Arm(Send(s, TargetMessage(s.target)), c.timeout2).(park := SecondWindow)
    case SecondWindow =>
      if event == Some(s.target) then s
      else if event.Some? then Begin(c, Disarm(Send(s, RevertMessage(s.target))), event)
      else s.(notified := s.notified + [Notice(s.now, s.target)], target := Opposite(s.target), park := Awaiting)
    case _ => s.(park := AssertFailed)
  }

  /** yellow_co, called by timer `id`, which is gone afterwards */
  function Fire(c: Config, s: Yellow, id: nat): Yellow {
    var r := Resume(c, s, None);
    r.(timers := r.timers.(armed := r.timers.armed - {id}))
  }

  datatype Move =
    | Link(up: bool)       // the network interface reports its state
    | Shutdown
    | Expire(id: nat)      // an armed timer that is due fires, punctually or late
    | Pass(duration: nat)

  function LinkEvent(up: bool): ColodEvent {
    if up then EventUnyellow else EventYellow
  }

  /** After the shutdown the interface is no longer listened to, and a further shutdown does nothing. */
  function Next(c: Config, s: Yellow, m: Move): Option<Yellow> {
    match m
    case Link(up) => if s.park.Ended? then None else Some(Resume(c, s, Some(LinkEvent(up))))
    case Shutdown => Some(if s.park.Ended? then s else Resume(c, s, Some(EventQuit)))
    case Expire(id) => if id in s.timers.armed && s.timers.armed[id] <= s.now then Some(Fire(c, s, id)) else None
    case Pass(duration) => Some(s.(now := s.now + duration))
  }

  function Stepper(c: Config): (Yellow, Move) -> Option<Yellow> {
    (s, m) => Next(c, s, m)
  }

  const Created := Yellow(EventYellow, Awaiting, Timers(0, map[], 1), 0, [], [])

  // ---- Timers, announcements, notifications ----

  /** The level committed so far; a link counts as good until the first commit. */
  function Level(s: Yellow): ColodEvent {
    Opposite(s.target)
  }

  function LastSent(s: Yellow): ColodMessage {
    if s.sent == [] then MessageUnyellow else s.sent[|s.sent| - 1]
  }

  /** Two timed parks, one timer each: the kept one. No other timer is ever armed. */
  predicate TimersFit(s: Yellow) {
    && 0 < s.timers.nextId && s.timers.kept < s.timers.nextId
    && s.timers.armed.Keys == if s.park.FirstWindow? || s.park.SecondWindow? then {s.timers.kept} else {}
  }

  /** The peer has last been told the committed level, except that the second window announces the target. */
  predicate AnnouncementFits(s: Yellow) {
    LastSent(s) == TargetMessage(if s.park.SecondWindow? then s.target else Level(s))
  }

  predicate Alternates(notified: seq<Notice>) {
    forall i :: 0 <= i < |notified| ==> notified[i].event == if i % 2 == 0 then EventYellow else EventUnyellow
  }

  predicate Inv(s: Yellow) {
    && !s.park.AssertFailed?
    && TimersFit(s)
    && AnnouncementFits(s)
    && Alternates(s.notified)
    && s.target == if |s.notified| % 2 == 0 then EventYellow else EventUnyellow
  }

  lemma ResumeKeepsInv(c: Config, s: Yellow, event: Option<ColodEvent>)
    requires Inv(s) && !s.park.Ended? && (event.None? ==> !s.park.Awaiting?)
    requires event.Some? ==> event.value in {EventYellow, EventUnyellow, EventQuit}
    ensures var t := Resume(c, s, event);
      if event.Some? then Inv(t)
      else Inv(t.(timers := t.timers.(armed := t.timers.armed - {s.timers.kept}))) && !t.park.Ended?
  {
  }

  lemma NextKeepsInv(c: Config, s: Yellow, m: Move)
    requires Inv(s) && Next(c, s, m).Some?
    ensures Inv(Next(c, s, m).value)
  {
    match m
    case Link(up) => ResumeKeepsInv(c, s, Some(LinkEvent(up)));
    case Shutdown => if !s.park.Ended? { ResumeKeepsInv(c, s, Some(EventQuit)); }
    case Expire(id) => ResumeKeepsInv(c, s, None);
    case Pass(duration) =>
  }

  /** Whole runs: the asserts hold, and timers, announcements and notifications are as described. */
  lemma RunKeepsInv(c: Config, moves: seq<Move>, s: Yellow)
    requires Runs.Reaches(Stepper(c), Created, moves, s)
    ensures Inv(s)
  {
    forall t, m | Inv(t) && Stepper(c)(t, m).Some? ensures Inv(Stepper(c)(t, m).value) {
      NextKeepsInv(c, t, m);
    }
    Runs.Invariant(Stepper(c), t => Inv(t), Created, moves, s);
  }

  /**
   Shutting down ends the coroutine in that one resume from every park: no timer is left that could
   enter it again, the announcement is taken back if there is one, and nothing is said afterwards.
   */
  lemma ShutdownIsFinal(c: Config, moves: seq<Move>, s: Yellow, later: seq<Move>, t: Yellow)
    requires Runs.Reaches(Stepper(c), Created, moves, s)
    requires Runs.Reaches(Stepper(c), Next(c, s, Shutdown).value, later, t)
    ensures var ended := Next(c, s, Shutdown).value;
      && ended.park.Ended? && ended.timers.armed == map[]
      && LastSent(ended) == TargetMessage(Level(s)) && ended.notified == s.notified
      && t == ended.(now := t.now)
  {
    RunKeepsInv(c, moves, s);
    var ended := Next(c, s, Shutdown).value;
    NextKeepsInv(c, s, Shutdown);
    Runs.Invariant(Stepper(c), (u: Yellow) => u == ended.(now := u.now), ended, later, t);
  }
}
