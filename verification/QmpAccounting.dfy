/**
 What every run of the QMP channels keeps: who holds which lock how often, how many users there are,
 that a free channel has no unread reply, that replies reach the callers whose commands they answer,
 and that each event of the main channel is notified once and in order.
 */
module QmpAccounting {
  import opened ColodTypes
  import opened Qmp

  // ---- What an activity holds and is owed ----

  /** How often a lock is held, and the replies its holder is owed. */
  datatype Claim = Claim(count: nat, owed: seq<Owed>)

  function ExecuteClaim(stage: Stage, command: nat): Claim {
    match stage
    case Locking => Claim(0, [])
    case Writing => Claim(1, [])
    case Reading => Claim(1, [OwedReply(command)])
  }

  const Nothing := Claim(0, [])

  function ClaimOf(a: Activity, id: ChannelId): (c: Claim)
    ensures c.count == 0 ==> c.owed == []
  {
    match a
    case Idle => Nothing
    case Executing(stage, command, _) => if id.Main? then ExecuteClaim(stage, command) else Nothing
    case Yanking(outer, _, stage, command) =>
      if id.Yank? then ExecuteClaim(stage, command)
      else if outer.Some? then Claim(1, [OwedReply(outer.value)]) else Nothing
    case Greeted(channel) => if id == channel then Claim(1, [OwedGreeting]) else Nothing
    case Capabilities(channel, stage, command) =>
      if id == channel then ExecuteClaim(stage, command).(count := ExecuteClaim(stage, command).count + 1) else Nothing
    case Watching(_) => Nothing
    case Listening(channel) => if id == channel then Claim(1, []) else Nothing
  }

  /** How many users of the channels an activity is: coroutines that belong to them, and calls. */
  function Uses(a: Activity): nat {
    match a
    case Idle => 0
    case Yanking(outer, _, _, _) => if outer.Some? then 2 else 1
    case Capabilities(_, _, _) => 2
    case _ => 1
  }

  function Total(acts: seq<Activity>): nat {
    if acts == [] then 0 else Total(acts[..|acts| - 1]) + Uses(acts[|acts| - 1])
  }

  function KindOf(line: Line): Owed
    requires !line.Event?
  {
    if line.Greeting? then OwedGreeting else OwedReply(line.command)
  }

  /** The unread lines that are no events. */
  function Replies(lines: seq<Line>): seq<Owed> {
    if lines == [] then []
    else if lines[0].Event? then Replies(lines[1..])
    else [KindOf(lines[0])] + Replies(lines[1..])
  }

  function Events(lines: seq<Line>): seq<nat> {
    if lines == [] then []
    else if lines[0].Event? then [lines[0].number] + Events(lines[1..])
    else Events(lines[1..])
  }

  /** What can still come out of a channel without a further command. */
  function Expected(c: Channel): seq<Owed> {
    Replies(c.lines) + c.owed
  }

  /** A channel fits the activities, coroutine `co` counted with `claim` instead of its own. */
  ghost predicate Fits(c: Channel, id: ChannelId, acts: seq<Activity>, co: nat, claim: Claim, ok: bool) {
    && (c.lock.holder.None? ==> c.lock.count == 0 && (ok ==> Expected(c) == []))
    && (c.lock.holder == Some(co) ==> c.lock.count == claim.count > 0 && (ok ==> Expected(c) == claim.owed))
    && (claim.count > 0 ==> c.lock.holder == Some(co))
    && (forall j :: 0 <= j < |acts| && j != co && ClaimOf(acts[j], id).count > 0 ==> c.lock.holder == Some(j))
    && (c.lock.holder.Some? && c.lock.holder.value != co ==>
          c.lock.holder.value < |acts| &&
          var other := ClaimOf(acts[c.lock.holder.value], id);
          c.lock.count == other.count > 0 && (ok ==> Expected(c) == other.owed))
  }

  /** What coroutine `co` has taken in the middle of a step. */
  datatype Share = Share(main: Claim, yank: Claim, uses: int)

  function ShareOf(a: Activity): Share {
    Share(ClaimOf(a, Main), ClaimOf(a, Yank), Uses(a))
  }

  predicate Matched(results: seq<Result>) {
    forall i :: 0 <= i < |results| ==> results[i].line.Reply? && results[i].line.command == results[i].command
  }

  predicate Counted(numbers: seq<nat>) {
    forall i :: 0 <= i < |numbers| ==> numbers[i] == i
  }

  /** Every event emitted is notified or unread, in the order of their numbers. */
  predicate Conserved(s: State) {
    var seen := s.log.notified + Events(s.main.lines);
    |seen| == s.main.emitted && Counted(seen)
  }

  ghost predicate Inv(s: State, co: nat, h: Share)
    requires co < |s.acts|
  {
    var ok := s.log.firstError.None?;
    && Fits(s.main, Main, s.acts, co, h.main, ok) && Fits(s.yank, Yank, s.acts, co, h.yank, ok)
    && s.inflight == Total(s.acts) - Uses(s.acts[co]) + h.uses
    && !s.log.assertFailed && s.log.firstError != Some(NotAnEvent)
    && (ok ==> Matched(s.log.results) && Conserved(s))
  }
}
