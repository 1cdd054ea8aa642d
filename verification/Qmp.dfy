/**
 QMP over two channels, main and yank, each a stream of lines shared by several coroutines under a
 re-entrant lock: a handshake, an event reader, and callers that execute commands. A read that times out on the main
 channel yanks QEMU's connections over the other one and is then tried once more.
 */
module Qmp {
  import opened ColodTypes

  datatype ChannelId = Main | Yank

  /** A line from QEMU; `ok` is false for an error reply. */
  datatype Line = Greeting | Reply(command: nat, ok: bool) | Event(number: nat)

  /** A line QEMU owes: the greeting, or the reply to a command. */
  datatype Owed = OwedGreeting | OwedReply(command: nat)

  datatype Lock = Lock(holder: Option<nat>, count: nat)

  /** A channel, with the lines not read yet, what is still owed, and the number of events emitted. */
  datatype Channel = Channel(lock: Lock, lines: seq<Line>, owed: seq<Owed>, emitted: nat)

  /** How far __qmp_execute_co has come. */
  datatype Stage = Locking | Writing | Reading

  /** The two commands of a yank; the second names what the reply to the first has listed. */
  datatype Ask = QueryYank | YankInstances(query: nat)

  /** What a command says: what its caller wants, the handshake's capabilities, or part of a yank. */
  datatype Text = Requested | Negotiation | Asking(ask: Ask)

  /** What a coroutine is doing with the channels. */
  datatype Activity =
    | Idle                                                                    // nothing, or it has ended
    | Executing(stage: Stage, command: nat, mayYank: bool)                    // a command on the main channel
    | Yanking(outer: Option<nat>, ask: Ask, stage: Stage, command: nat)       // a command of a yank, for the command
                                                                              // whose reply is late
    | Greeted(channel: ChannelId)                                             // the handshake awaits the greeting
    | Capabilities(channel: ChannelId, stage: Stage, command: nat)            // the handshake's own command
    | Watching(channel: ChannelId)                                            // the event reader awaits input
    | Listening(channel: ChannelId)                                           // and reads a line

  datatype Cause = BadIo | BadReply | NotAnEvent

  datatype Result = Result(command: nat, line: Line)

  /** A command that has been written. */
  datatype Wrote = Wrote(channel: ChannelId, command: nat, text: Text)

  /** A yank that has set the yank flag: the command it was for, and its own two. */
  datatype Yanked = Yanked(outer: Option<nat>, query: nat, yank: nat)

  /** What has happened so far. The first recorded error is kept; QEMU's replies are only owed until then. */
  datatype Log = Log(firstError: Option<Cause>, assertFailed: bool, notified: seq<nat>, results: seq<Result>,
                     written: seq<Wrote>, yanked: seq<Yanked>)

  datatype State = State(main: Channel, yank: Channel, acts: seq<Activity>, inflight: int, nextCommand: nat, log: Log)

  // ---- The lock ----

  predicate CanLock(c: Channel, co: nat) {
    c.lock.holder == Some(co) || c.lock.holder.None?
  }

  function Of(s: State, id: ChannelId): Channel {
    if id.Main? then s.main else s.yank
  }

  function With(s: State, id: ChannelId, c: Channel): State {
    if id.Main? then s.(main := c) else s.(yank := c)
  }

  function Asserted(s: State, holds: bool): State {
    if holds then s else s.(log := s.log.(assertFailed := true))
  }

  /** colod_lock_co, when the lock is free or the coroutine's own. */
  function Acquire(s: State, id: ChannelId, co: nat): State {
    var c := Of(s, id);
    var own := c.lock.holder == Some(co);
    With(Asserted(s, own == (c.lock.count > 0)), id, c.(lock := Lock(Some(co), c.lock.count + 1)))
  }

  /** colod_unlock_co */
  function Release(s: State, id: ChannelId, co: nat): State {
    var c := Of(s, id);
    if c.lock.holder == Some(co) && c.lock.count > 0 then
      With(s, id, c.(lock := if c.lock.count == 1 then Lock(None, 0) else Lock(Some(co), c.lock.count - 1)))
    else Asserted(s, false)
  }

  // ---- Steps ----

  function Become(s: State, co: nat, a: Activity): State
    requires co < |s.acts|
  {
    s.(acts := s.acts[co := a])
  }

  function Record(s: State, cause: Cause): State {
    if s.log.firstError.None? then s.(log := s.log.(firstError := Some(cause))) else s
  }

  /** __qmp_execute_co returns: unlock, and one user less. */
  function Return(s: State, id: ChannelId, co: nat): State {
    var r := Release(s, id, co);
    r.(inflight := r.inflight - 1)
  }

  /** A call of __qmp_execute_co begins: one user more, and a new command. */
  function Begin(s: State, co: nat, a: Activity): State
    requires co < |s.acts|
  {
    Become(s, co, a).(inflight := s.inflight + 1, nextCommand := s.nextCommand + 1)
  }

  /** The command is written. */
  function Written(s: State, id: ChannelId, command: nat, text: Text): State {
    var c := Of(s, id);
    var t := With(s, id, c.(owed := c.owed + [OwedReply(command)]));
    t.(log := t.log.(written := t.log.written + [Wrote(id, command, text)]))
  }

  function Taken(s: State, id: ChannelId): State
    requires Of(s, id).lines != []
  {
    With(s, id, Of(s, id).(lines := Of(s, id).lines[1..]))
  }

  /** notify_event, unless the channel's events are discarded. */
  function Notify(s: State, id: ChannelId, number: nat): State {
    if id.Main? then s.(log := s.log.(notified := s.log.notified + [number])) else s
  }

  /** A line is there; an event among the replies is passed on, and reading continues. */
  function SkipEvent(s: State, id: ChannelId): State
    requires Of(s, id).lines != [] && Of(s, id).lines[0].Event?
  {
    Notify(Taken(s, id), id, Of(s, id).lines[0].number)
  }

  function Returned(s: State, command: nat, line: Line): State {
    s.(log := s.log.(results := s.log.results + [Result(command, line)]))
  }

  /** What the channel answers: it works, nothing comes before the timeout, or it is broken. */
  datatype Answer = Works | TimesOut | Breaks

  /** How one step of __qmp_execute_co ends. */
  datatype Progress =
    | Blocked
    | Continues(s: State, stage: Stage)
    | Fails(s: State)                       // with an error, the lock given back
    | IsLate(s: State)                      // its read has timed out, the lock is still held
    | Returns(s: State, line: Line)         // the reply, the lock given back

  function FailIo(s: State, id: ChannelId, co: nat): State {
    Return(Record(s, BadIo), id, co)
  }

  /** __qmp_execute_co on either channel */
  function Execute(s: State, co: nat, id: ChannelId, stage: Stage, command: nat, text: Text,
                   answer: Answer): Progress {
    var c := Of(s, id);
    match stage
    case Locking => if CanLock(c, co) then Continues(Acquire(s, id, co), Writing) else Blocked
    case Writing =>
      if answer.Works? then Continues(Written(s, id, command, text), Reading) else Fails(FailIo(s, id, co))
    case Reading =>
      if answer.Breaks? then Fails(FailIo(s, id, co))
      else if answer.TimesOut? then IsLate(s)
      else if c.lines == [] then Blocked
      else if c.lines[0].Event? then Continues(SkipEvent(s, id), Reading)
      else Returns(Return(Returned(Taken(s, id), command, c.lines[0]), id, co), c.lines[0])
  }

  /** A command on the main channel: a late reply is a reason to yank, once. */
  function StepExecuting(s: State, co: nat, a: Activity, answer: Answer): Option<State>
    requires co < |s.acts| && a.Executing?
  {
    match Execute(s, co, Main, a.stage, a.command, Requested, answer)
    case Blocked => None
    case Continues(t, stage) => Some(Become(t, co, Executing(stage, a.command, a.mayYank)))
    case Fails(t) => Some(Become(t, co, Idle))
    case IsLate(t) =>
      if a.mayYank then Some(Begin(t, co, Yanking(Some(a.command), QueryYank, Locking, t.nextCommand)))
      else Some(Become(FailIo(t, Main, co), co, Idle))
    case Returns(t, _) => Some(Become(t, co, Idle))
  }

  /** _qmp_yank_co fails: so does the command whose reply is late, if it was for one. */
  function YankFails(s: State, co: nat, outer: Option<nat>, cause: Cause): State
    requires co < |s.acts|
  {
    if outer.None? then Become(s, co, Idle) else Become(Return(Record(s, cause), Main, co), co, Idle)
  }

  /** The yank flag is set. */
  function SetYank(s: State, y: Yanked): State {
    s.(log := s.log.(yanked := s.log.yanked + [y]))
  }

  /** One of the two commands of _qmp_yank_co; after the second, a late reply is read for once more. */
  function StepYanking(s: State, co: nat, a: Activity, answer: Answer): Option<State>
    requires co < |s.acts| && a.Yanking?
  {
    match Execute(s, co, Yank, a.stage, a.command, Asking(a.ask), answer)
    case Blocked => None
    case Continues(t, stage) => Some(Become(t, co, Yanking(a.outer, a.ask, stage, a.command)))
    case Fails(t) => Some(YankFails(t, co, a.outer, BadIo))
    case IsLate(t) => Some(YankFails(FailIo(t, Yank, co), co, a.outer, BadIo))
    case Returns(t, line) =>
      if line.Reply? && !line.ok then Some(YankFails(t, co, a.outer, BadReply))
      else
        match a.ask
        case QueryYank => Some(Begin(t, co, Yanking(a.outer, YankInstances(a.command), Locking, t.nextCommand)))
        case YankInstances(query) =>
          var next := if a.outer.None? then Idle else Executing(Reading, a.outer.value, false);
          Some(Become(SetYank(t, Yanked(a.outer, query, a.command)), co, next))
  }

  /** The handshake waits for the greeting, with the lock it was created with. */
  function StepGreeted(s: State, co: nat, id: ChannelId, answer: Answer): Option<State>
    requires co < |s.acts|
  {
    if !answer.Works? then Some(Become(FailIo(s, id, co), co, Idle))
    else if Of(s, id).lines == [] then None
    else if Of(s, id).lines[0].Event? then Some(SkipEvent(s, id))
    else Some(Begin(Taken(s, id), co, Capabilities(id, Locking, s.nextCommand)))
  }

  /** The handshake's command, after which it gives back its own lock and ends. */
  function StepCapabilities(s: State, co: nat, a: Activity, answer: Answer): Option<State>
    requires co < |s.acts| && a.Capabilities?
  {
    match Execute(s, co, a.channel, a.stage, a.command, Negotiation, answer)
    case Blocked => None
    case Continues(t, stage) => Some(Become(t, co, Capabilities(a.channel, stage, a.command)))
    case Fails(t) => Some(Become(Return(t, a.channel, co), co, Idle))
    case IsLate(t) => Some(Become(Return(FailIo(t, a.channel, co), a.channel, co), co, Idle))
    case Returns(t, line) =>
      var r := if line.Reply? && !line.ok then Record(t, BadReply) else t;
      Some(Become(Return(r, a.channel, co), co, Idle))
  }

  /** The event reader finds input, and the lock free. */
  function StepWatching(s: State, co: nat, id: ChannelId): Option<State>
    requires co < |s.acts|
  {
    if Of(s, id).lock.holder.None? then Some(Become(Acquire(s, id, co), co, Listening(id))) else None
  }

  /** The event reader reads one line, whatever it is. */
  function StepListening(s: State, co: nat, id: ChannelId, answer: Answer): Option<State>
    requires co < |s.acts|
  {
    var lines := Of(s, id).lines;
    if !answer.Works? then Some(Become(FailIo(s, id, co), co, Idle))
    else if lines == [] then None
    else
      var r := if lines[0].Event? then SkipEvent(s, id) else Record(Taken(s, id), NotAnEvent);
      Some(Become(Release(r, id, co), co, Watching(id)))
  }

  function Step(s: State, co: nat, answer: Answer): Option<State>
    requires co < |s.acts|
  {
    var a := s.acts[co];
    match a
    case Idle => None
    case Executing(_, _, _) => StepExecuting(s, co, a, answer)
    case Yanking(_, _, _, _) => StepYanking(s, co, a, answer)
    case Greeted(id) => StepGreeted(s, co, id, answer)
    case Capabilities(_, _, _) => StepCapabilities(s, co, a, answer)
    case Watching(id) => StepWatching(s, co, id)
    case Listening(id) => StepListening(s, co, id, answer)
  }

  datatype Move =
    | Call(co: nat, yankOnly: bool)                  // an idle caller executes a command, or yanks by itself
    | Run(co: nat, answer: Answer)
    | SayOwed(channel: ChannelId, ok: bool)          // QEMU emits the line it owes next
    | SayEvent(channel: ChannelId)                   // or an event

  /** The first two coroutines are the handshakes, the next two the event readers; the others call. */
  const Callers := 4

  function LineFor(owed: Owed, ok: bool): Line {
    match owed
    case OwedGreeting => Greeting
    case OwedReply(command) => Reply(command, ok)
  }

  function Next(s: State, m: Move): Option<State> {
    match m
    case Call(co, yankOnly) =>
      if Callers <= co < |s.acts| && s.acts[co].Idle? then
        Some(Begin(s, co, if yankOnly then Yanking(None, QueryYank, Locking, s.nextCommand)
                          else Executing(Locking, s.nextCommand, true)))
      else None
    case Run(co, answer) => if co < |s.acts| then Step(s, co, answer) else None
    case SayOwed(id, ok) =>
      var c := Of(s, id);
      if c.owed == [] then None
      else Some(With(s, id, c.(lines := c.lines + [LineFor(c.owed[0], ok)], owed := c.owed[1..])))
    case SayEvent(id) =>
      var c := Of(s, id);
      Some(With(s, id, c.(lines := c.lines + [Event(c.emitted)], emitted := c.emitted + 1)))
  }

  function Opened(callers: nat): State {
    var fixed := [Greeted(Main), Greeted(Yank), Watching(Main), Watching(Yank)];
    State(Channel(Lock(Some(0), 1), [], [OwedGreeting], 0), Channel(Lock(Some(1), 1), [], [OwedGreeting], 0),
          fixed + seq(callers, _ => Idle), 4, 0, Log(None, false, [], [], [], []))
  }
}
