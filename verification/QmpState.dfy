/**
 The QMP object of qmp.c and the lock of coutil.h, updated in place: each method is proved to make the
 step `Qmp` gives it, and so keeps the books of `QmpAccounting`.
 */
module QmpState {
  import opened ColodTypes
  import opened Q = Qmp
  import QmpInvariants

  /** How one step of a command ends, the state apart. */
  datatype Outcome = Waits | GoesOn(stage: Stage) | Failed | Late | Answered(line: Line)

  function ProgressTo(outcome: Outcome, s: State): Progress {
    match outcome
    case Waits => Progress.Blocked
    case GoesOn(stage) => Progress.Continues(s, stage)
    case Failed => Progress.Fails(s)
    case Late => Progress.IsLate(s)
    case Answered(line) => Progress.Returns(s, line)
  }

  class ColodQmpState {
    var channel: Channel
    var yankChannel: Channel
    var acts: seq<Activity>
    var inflight: int
    var nextCommand: nat
    var log: Log

    ghost function View(): State
      reads this
    {
      State(channel, yankChannel, acts, inflight, nextCommand, log)
    }

    constructor (callers: nat)
      ensures View() == Opened(callers)
    {
      channel := Channel(Lock(Some(0), 1), [], [OwedGreeting], 0);
      yankChannel := Channel(Lock(Some(1), 1), [], [OwedGreeting], 0);
      var fixed := [Greeted(Main), Greeted(Yank), Watching(Main), Watching(Yank)];
      acts := fixed + seq(callers, _ => Idle);
      inflight, nextCommand, log := 4, 0, Log(None, false, [], [], [], []);
    }

    function Get(id: ChannelId): Channel
      reads this
    {
      if id.Main? then channel else yankChannel
    }

    method Put(id: ChannelId, c: Channel)
      modifies this`channel, this`yankChannel
      ensures View() == With(old(View()), id, c)
    {
      if id.Main? {
        channel := c;
      } else {
        yankChannel := c;
      }
    }

    /** colod_lock_co, once the lock is free or the coroutine's own */
    method LockCo(id: ChannelId, co: nat)
      modifies this`channel, this`yankChannel, this`log
      ensures View() == Acquire(old(View()), id, co)
    {
      var c := Get(id);
      if c.lock.holder == Some(co) {
        Check(c.lock.count > 0);
      } else {
        Check(c.lock.count == 0);
      }
      Put(id, c.(lock := Lock(Some(co), c.lock.count + 1)));
    }

    /** colod_unlock_co */
    method UnlockCo(id: ChannelId, co: nat)
      modifies this`channel, this`yankChannel, this`log
      ensures View() == Release(old(View()), id, co)
    {
      var c := Get(id);
      if c.lock.holder == Some(co) && c.lock.count > 0 {
        var count := c.lock.count - 1;
        Put(id, c.(lock := if count == 0 then Lock(None, 0) else Lock(Some(co), count)));
      } else {
        Check(false);
      }
    }

    method Check(holds: bool)
      modifies this`log
      ensures View() == Asserted(old(View()), holds)
    {
      if !holds {
        log := log.(assertFailed := true);
      }
    }

    /** qmp_set_error */
    method SetError(cause: Cause)
      modifies this`log
      ensures View() == Record(old(View()), cause)
    {
      if log.firstError.None? {
        log := log.(firstError := Some(cause));
      }
    }

    /** Reading a line that is an event, among the replies or by itself */
    method ReadEvent(id: ChannelId)
      requires Get(id).lines != [] && Get(id).lines[0].Event?
      modifies this`channel, this`yankChannel, this`log
      ensures View() == SkipEvent(old(View()), id)
    {
      var c := Get(id);
      Put(id, c.(lines := c.lines[1..]));
      if id.Main? {
        log := log.(notified := log.notified + [c.lines[0].number]);
      }
    }

    method Return(id: ChannelId, co: nat)
      modifies this`channel, this`yankChannel, this`log, this`inflight
      ensures View() == Q.Return(old(View()), id, co)
    {
      UnlockCo(id, co);
      inflight := inflight - 1;
    }

    method FailIo(id: ChannelId, co: nat)
      modifies this`channel, this`yankChannel, this`log, this`inflight
      ensures View() == Q.FailIo(old(View()), id, co)
    {
      SetError(BadIo);
      Return(id, co);
    }

    /** __qmp_execute_co, one step */
    method ExecuteCo(co: nat, id: ChannelId, stage: Stage, command: nat, text: Text, answer: Answer)
      returns (outcome: Outcome)
      modifies this`channel, this`yankChannel, this`log, this`inflight
      ensures Execute(old(View()), co, id, stage, command, text, answer) == ProgressTo(outcome, View())
      ensures outcome.Waits? ==> View() == old(View())
    {
      var c := Get(id);
      match stage
      case Locking =>
        if !CanLock(c, co) {
          return Waits;
        }
        LockCo(id, co);
        return GoesOn(Writing);
      case Writing =>
        if !answer.Works? {
          FailIo(id, co);
          return Failed;
        }
        Put(id, c.(owed := c.owed + [OwedReply(command)]));
        log := log.(written := log.written + [Wrote(id, command, text)]);
        return GoesOn(Reading);
      case Reading => outcome := ReadReply(co, id, command, text, answer);
    }

    /** The reading part of a command: events are passed on until the reply comes. */
    method ReadReply(co: nat, id: ChannelId, command: nat, ghost text: Text, answer: Answer)
      returns (outcome: Outcome)
      modifies this`channel, this`yankChannel, this`log, this`inflight
      ensures Execute(old(View()), co, id, Reading, command, text, answer) == ProgressTo(outcome, View())
      ensures outcome.Waits? ==> View() == old(View())
    {
      var c := Get(id);
      match answer
      case Breaks =>
        FailIo(id, co);
        return Failed;
      case TimesOut => return Late;
      case Works =>
        if c.lines == [] {
          return Waits;
        }
        if c.lines[0].Event? {
          ReadEvent(id);
          return GoesOn(Reading);
        }
        Put(id, c.(lines := c.lines[1..]));
        log := log.(results := log.results + [Result(command, c.lines[0])]);
        Return(id, co);
        return Answered(c.lines[0]);
    }

    method Become(co: nat, a: Activity)
      requires co < |acts|
      modifies this`acts
      ensures View() == Q.Become(old(View()), co, a)
    {
      acts := acts[co := a];
    }

    method Begin(co: nat, a: Activity)
      requires co < |acts|
      modifies this`acts, this`inflight, this`nextCommand
      ensures View() == Q.Begin(old(View()), co, a)
    {
      acts := acts[co := a];
      inflight, nextCommand := inflight + 1, nextCommand + 1;
    }

    method Executing(co: nat, answer: Answer) returns (ran: bool)
      requires co < |acts| && acts[co].Executing?
      modifies this
      ensures StepExecuting(old(View()), co, old(acts)[co], answer) == if ran then Some(View()) else None
      ensures !ran ==> View() == old(View())
    {
      var a := acts[co];
      var outcome := ExecuteCo(co, Main, a.stage, a.command, Requested, answer);
      match outcome {
        case Waits => return false;
        case GoesOn(stage) => Become(co, Activity.Executing(stage, a.command, a.mayYank));
        case Late =>
          if a.mayYank {
            Begin(co, Activity.Yanking(Some(a.command), QueryYank, Locking, nextCommand));
          } else {
            FailIo(Main, co);
            Become(co, Idle);
          }
        case _ => Become(co, Idle);
      }
      return true;
    }

    method YankFails(co: nat, outer: Option<nat>, cause: Cause)
      requires co < |acts|
      modifies this
      ensures View() == Q.YankFails(old(View()), co, outer, cause)
    {
      if outer.Some? {
        SetError(cause);
        Return(Main, co);
      }
      Become(co, Idle);
    }

    /** _qmp_yank_co, one step */
    method Yanking(co: nat, answer: Answer) returns (ran: bool)
      requires co < |acts| && acts[co].Yanking?
      modifies this
      ensures StepYanking(old(View()), co, old(acts)[co], answer) == if ran then Some(View()) else None
      ensures !ran ==> View() == old(View())
    {
      var a := acts[co];
      var outcome := ExecuteCo(co, Yank, a.stage, a.command, Asking(a.ask), answer);
      match outcome {
        case Waits => return false;
        case GoesOn(stage) => Become(co, Activity.Yanking(a.outer, a.ask, stage, a.command));
        case Failed => YankFails(co, a.outer, BadIo);
        case Late =>
          FailIo(Yank, co);
          YankFails(co, a.outer, BadIo);
        case Answered(line) =>
          if line.Reply? && !line.ok {
            YankFails(co, a.outer, BadReply);
          } else if a.ask.QueryYank? {
            Begin(co, Activity.Yanking(a.outer, YankInstances(a.command), Locking, nextCommand));
          } else {
            log := log.(yanked := log.yanked + [Yanked(a.outer, a.ask.query, a.command)]);
            Become(co, if a.outer.None? then Idle else Activity.Executing(Reading, a.outer.value, false));
          }
      }
      return true;
    }

    /** _qmp_handshake_readable_co until the greeting is read */
    method Greeting(co: nat, id: ChannelId, answer: Answer) returns (ran: bool)
      requires co < |acts|
      modifies this
      ensures StepGreeted(old(View()), co, id, answer) == if ran then Some(View()) else None
      ensures !ran ==> View() == old(View())
    {
      var c := Get(id);
      if !answer.Works? {
        FailIo(id, co);
        Become(co, Idle);
      } else if c.lines == [] {
        return false;
      } else if c.lines[0].Event? {
        ReadEvent(id);
      } else {
        Put(id, c.(lines := c.lines[1..]));
        Begin(co, Activity.Capabilities(id, Locking, nextCommand));
      }
      return true;
    }

    /** and from then on */
    method Negotiating(co: nat, answer: Answer) returns (ran: bool)
      requires co < |acts| && acts[co].Capabilities?
      modifies this
      ensures StepCapabilities(old(View()), co, old(acts)[co], answer) == if ran then Some(View()) else None
      ensures !ran ==> View() == old(View())
    {
      var a := acts[co];
      var outcome := ExecuteCo(co, a.channel, a.stage, a.command, Negotiation, answer);
      match outcome {
        case Waits => return false;
        case GoesOn(stage) =>
          Become(co, Activity.Capabilities(a.channel, stage, a.command));
          return true;
        case Failed =>
        case Late => FailIo(a.channel, co);
        case Answered(line) =>
          if line.Reply? && !line.ok {
            SetError(BadReply);
          }
      }
      Return(a.channel, co);
      Become(co, Idle);
      return true;
    }

    /** _qmp_event_co, one step */
    method EventReader(co: nat, id: ChannelId, listening: bool, answer: Answer) returns (ran: bool)
      requires co < |acts|
      modifies this
      ensures (if listening then StepListening(old(View()), co, id, answer) else StepWatching(old(View()), co, id))
              == if ran then Some(View()) else None
      ensures !ran ==> View() == old(View())
    {
      var c := Get(id);
      if !listening {
        if c.lock.holder.Some? {
          return false;
        }
        LockCo(id, co);
        Become(co, Listening(id));
      } else if !answer.Works? {
        FailIo(id, co);
        Become(co, Idle);
      } else if c.lines == [] {
        return false;
      } else {
        if c.lines[0].Event? {
          ReadEvent(id);
        } else {
          Put(id, c.(lines := c.lines[1..]));
          SetError(NotAnEvent);
        }
        UnlockCo(id, co);
        Become(co, Watching(id));
      }
      return true;
    }

    /** One step of any coroutine; no assert of the lock fails, and the books still balance. */
    method Run(co: nat, answer: Answer) returns (ran: bool)
      requires co < |acts|
      modifies this
      ensures Step(old(View()), co, answer) == if ran then Some(View()) else None
      ensures QmpInvariants.Sound(old(View())) ==> QmpInvariants.Sound(View()) && !log.assertFailed
    {
      ghost var s := View();
      match acts[co] {
        case Idle => return false;
        case Executing(_, _, _) => ran := Executing(co, answer);
        case Yanking(_, _, _, _) => ran := Yanking(co, answer);
        case Greeted(id) => ran := Greeting(co, id, answer);
        case Capabilities(_, _, _) => ran := Negotiating(co, answer);
        case Watching(id) => ran := EventReader(co, id, false, answer);
        case Listening(id) => ran := EventReader(co, id, true, answer);
      }
      if ran && QmpInvariants.Sound(s) {
        QmpInvariants.NextKeepsSound(s, Move.Run(co, answer));
      }
    }
  }
}
