/** What holds of the QMP channels in every run, and how far a call can nest and go on. */
module QmpRuns {
  import opened ColodTypes
  import opened Qmp
  import opened QmpAccounting
  import opened QmpInvariants
  import opened StackDepth
  import Runs

  lemma {:induction false} IdleTotal(callers: nat, fixed: seq<Activity>)
    ensures Total(fixed + seq(callers, _ => Idle)) == Total(fixed)
  {
    var acts := fixed + seq(callers, _ => Idle);
    if callers == 0 {
      assert acts == fixed;
    } else {
      IdleTotal(callers - 1, fixed);
      assert acts[..|acts| - 1] == fixed + seq(callers - 1, _ => Idle);
    }
  }

  lemma TotalSnoc(acts: seq<Activity>, a: Activity)
    ensures Total(acts + [a]) == Total(acts) + Uses(a)
  {
    assert (acts + [a])[..|acts|] == acts;
  }

  lemma OpenedSound(callers: nat)
    ensures Sound(Opened(callers))
  {
    var s := Opened(callers);
    var fixed := [Greeted(Main), Greeted(Yank), Watching(Main), Watching(Yank)];
    IdleTotal(callers, fixed);
    TotalSnoc([], Greeted(Main));
    TotalSnoc([] + [Greeted(Main)], Greeted(Yank));
    TotalSnoc([] + [Greeted(Main)] + [Greeted(Yank)], Watching(Main));
    TotalSnoc([] + [Greeted(Main)] + [Greeted(Yank)] + [Watching(Main)], Watching(Yank));
    assert fixed == [] + [Greeted(Main)] + [Greeted(Yank)] + [Watching(Main)] + [Watching(Yank)];
    assert s.acts[0] == Greeted(Main) && s.acts[1] == Greeted(Yank);
    assert forall j :: 2 <= j < |s.acts| ==> s.acts[j].Watching? || s.acts[j].Idle?;
  }

  lemma RunSound(callers: nat, moves: seq<Move>, s: State)
    requires Runs.Reaches(Next, Opened(callers), moves, s)
    ensures Sound(s)
  {
    OpenedSound(callers);
    forall t, m | Sound(t) && Next(t, m).Some? ensures Sound(Next(t, m).value) {
      NextKeepsSound(t, m);
    }
    Runs.Invariant(Next, t => Sound(t), Opened(callers), moves, s);
  }

  /**
   As long as no error has been recorded, every result is the reply to its own command, also after a
   yank and a second read, and a channel whose lock is free has nothing unread or owed but events.
   */
  lemma RepliesMatch(callers: nat, moves: seq<Move>, s: State, id: ChannelId)
    requires Runs.Reaches(Next, Opened(callers), moves, s) && s.log.firstError.None?
    ensures forall i :: 0 <= i < |s.log.results| ==>
              s.log.results[i].line.Reply? && s.log.results[i].line.command == s.log.results[i].command
    ensures Of(s, id).lock.holder.None? ==> Replies(Of(s, id).lines) == [] && Of(s, id).owed == []
  {
    RunSound(callers, moves, s);
  }

  /** As long as no error has been recorded, each main event is notified once and in order, or unread. */
  lemma EventsConserved(callers: nat, moves: seq<Move>, s: State)
    requires Runs.Reaches(Next, Opened(callers), moves, s) && s.log.firstError.None?
    ensures var seen := s.log.notified + Events(s.main.lines);
      |seen| == s.main.emitted && forall i :: 0 <= i < |seen| ==> seen[i] == i
  {
    RunSound(callers, moves, s);
  }

  /** In every run, with or without errors, no lock assert fails and the event readers do not meet a reply first. */
  lemma AssertsHold(callers: nat, moves: seq<Move>, s: State)
    requires Runs.Reaches(Next, Opened(callers), moves, s)
    ensures !s.log.assertFailed && s.log.firstError != Some(NotAnEvent)
  {
    RunSound(callers, moves, s);
  }

  /**
   In every run, with or without errors, a lock counts exactly what its holder has taken, it is free
   exactly if nobody has taken it, and `inflight` counts the users.
   */
  lemma BooksBalance(callers: nat, moves: seq<Move>, s: State, id: ChannelId, co: nat)
    requires Runs.Reaches(Next, Opened(callers), moves, s) && co < |s.acts|
    ensures var lock, claim := Of(s, id).lock, ClaimOf(s.acts[co], id);
      && (lock.holder == Some(co) <==> claim.count > 0)
      && (lock.holder == Some(co) ==> lock.count == claim.count)
      && (lock.holder.None? <==> lock.count == 0)
    ensures s.inflight == Total(s.acts)
  {
    RunSound(callers, moves, s);
    AnyCoroutine(s, 0, co);
  }

  // ---- Nesting and termination of calls ----

  function ExecuteFrames(stage: Stage, yank: bool): seq<Body> {
    var execute := if yank then ExecuteCo else PlainExecuteCo;
    match stage
    case Locking => [execute]
    case Writing => [execute, ChannelWriteCo]
    case Reading => [execute, if yank then ReadLineCo else PlainReadLineCo, ChannelReadCo]
  }

  /** The bodies on a coroutine's stack from the QMP call inwards, or from its first body. */
  function Frames(a: Activity): seq<Body> {
    match a
    case Idle => []
    case Executing(stage, _, mayYank) =>
      if stage.Reading? && !mayYank then [ExecuteCo, ReadLineCo, PlainReadLineCo, ChannelReadCo]
      else ExecuteFrames(stage, true)
    case Yanking(outer, _, stage, _) =>
      (if outer.Some? then [ExecuteCo, ReadLineCo] else []) + [YankCo] + ExecuteFrames(stage, false)
    case Greeted(_) => [HandshakeCo, PlainReadLineCo, ChannelReadCo]
    case Capabilities(_, stage, _) => [HandshakeCo] + ExecuteFrames(stage, false)
    case Watching(_) => [EventReaderCo]
    case Listening(_) => [EventReaderCo, PlainReadLineCo, ChannelReadCo]
  }

  /** Every activity is a chain of calls of the call graph, whose ranks bound how deep it nests. */
  lemma ActivityNests(a: Activity)
    ensures IsNest(Frames(a))
    ensures Frames(a) != [] ==> |Frames(a)| <= Rank(Frames(a)[0]) + 1
  {
    if Frames(a) != [] {
      NestBounded(Frames(a));
    }
  }

  function StageLeft(stage: Stage): nat {
    match stage
    case Locking => 3
    case Writing => 2
    case Reading => 1
  }

  /** How many steps a call can still make, other than reading events. */
  function StepsLeft(a: Activity): nat {
    match a
    case Idle => 0
    case Executing(stage, _, mayYank) => if mayYank then 9 + StageLeft(stage) else StageLeft(stage)
    case Yanking(_, ask, stage, _) => StageLeft(stage) + if ask.QueryYank? then 6 else 3
    case Greeted(_) => 4
    case Capabilities(_, stage, _) => StageLeft(stage)
    case _ => 0
  }

  // ---- Whose command it is ----

  function Commands(a: Activity): set<nat> {
    match a
    case Executing(_, command, _) => {command}
    case Yanking(outer, _, _, command) => if outer.Some? then {outer.value, command} else {command}
    case Capabilities(_, _, command) => {command}
    case _ => {}
  }

  /** No two coroutines have a command in common. */
  predicate OwnCommands(s: State) {
    && (forall i, c :: 0 <= i < |s.acts| && c in Commands(s.acts[i]) ==> c < s.nextCommand)
    && (forall i, j :: 0 <= i < j < |s.acts| ==> Commands(s.acts[i]) !! Commands(s.acts[j]))
  }

  /** A step of `co` leaves the others alone, and adds at most the next command. */
  predicate Issues(s: State, t: State, co: nat)
    requires co < |s.acts|
  {
    && |t.acts| == |s.acts| && t.acts == s.acts[co := t.acts[co]]
    && s.nextCommand <= t.nextCommand
    && Commands(t.acts[co]) <= Commands(s.acts[co]) + (if s.nextCommand < t.nextCommand then {s.nextCommand} else {})
  }

  lemma IssuesKeepsOwn(s: State, t: State, co: nat)
    requires co < |s.acts| && OwnCommands(s) && Issues(s, t, co)
    ensures OwnCommands(t)
  {
  }

  // ---- Each step ----

  /** Closer to the end of the call, or one event further. */
  predicate Advanced(s: State, t: State, co: nat)
    requires co < |s.acts|
  {
    |t.acts| == |s.acts| &&
    (StepsLeft(t.acts[co]) < StepsLeft(s.acts[co]) ||
     (t.acts[co] == s.acts[co] && |t.main.lines| + |t.yank.lines| < |s.main.lines| + |s.yank.lines|))
  }

  lemma ExecuteAdvances(s: State, co: nat, id: ChannelId, stage: Stage, command: nat, text: Text, answer: Answer)
    requires co < |s.acts|
    ensures match Execute(s, co, id, stage, command, text, answer)
      case Blocked => true
      case Continues(t, next) =>
        t.acts == s.acts && t.nextCommand == s.nextCommand &&
        (StageLeft(next) < StageLeft(stage) ||
         (next == stage && |t.main.lines| + |t.yank.lines| < |s.main.lines| + |s.yank.lines|))
      case Fails(t) => t.acts == s.acts && t.nextCommand == s.nextCommand
      case IsLate(t) => t == s && stage.Reading?
      case Returns(t, _) => t.acts == s.acts && t.nextCommand == s.nextCommand && stage.Reading?
  {
  }

  lemma ExecutingAdvances(s: State, co: nat, answer: Answer)
    requires co < |s.acts| && s.acts[co].Executing? && Step(s, co, answer).Some?
    ensures Advanced(s, Step(s, co, answer).value, co)
  {
    hide Execute;
    ExecuteAdvances(s, co, Main, s.acts[co].stage, s.acts[co].command, Requested, answer);
  }

  lemma ExecutingIssues(s: State, co: nat, answer: Answer)
    requires co < |s.acts| && s.acts[co].Executing? && Step(s, co, answer).Some?
    ensures Issues(s, Step(s, co, answer).value, co)
  {
    hide Execute;
    ExecuteAdvances(s, co, Main, s.acts[co].stage, s.acts[co].command, Requested, answer);
  }

  lemma YankingAdvances(s: State, co: nat, answer: Answer)
    requires co < |s.acts| && s.acts[co].Yanking? && Step(s, co, answer).Some?
    ensures Advanced(s, Step(s, co, answer).value, co)
  {
    hide Execute;
    ExecuteAdvances(s, co, Yank, s.acts[co].stage, s.acts[co].command, Asking(s.acts[co].ask), answer);
  }

  lemma FailIoKeepsActs(s: State, id: ChannelId, co: nat)
    ensures FailIo(s, id, co).acts == s.acts && FailIo(s, id, co).nextCommand == s.nextCommand
  {
  }

  lemma YankFailsIdles(s: State, co: nat, outer: Option<nat>, cause: Cause)
    requires co < |s.acts|
    ensures var t := YankFails(s, co, outer, cause);
      t.acts == s.acts[co := Idle] && t.nextCommand == s.nextCommand
  {
  }

  lemma YankingIssues(s: State, co: nat, answer: Answer)
    requires co < |s.acts| && s.acts[co].Yanking? && Step(s, co, answer).Some?
    ensures Issues(s, Step(s, co, answer).value, co)
  {
    hide Execute, YankFails, FailIo;
    var a := s.acts[co];
    ExecuteAdvances(s, co, Yank, a.stage, a.command, Asking(a.ask), answer);
    match Execute(s, co, Yank, a.stage, a.command, Asking(a.ask), answer) {
      case Fails(t) => YankFailsIdles(t, co, a.outer, BadIo);
      case IsLate(t) =>
        FailIoKeepsActs(t, Yank, co);
        YankFailsIdles(FailIo(t, Yank, co), co, a.outer, BadIo);
      case Returns(t, _) => YankFailsIdles(t, co, a.outer, BadReply);
      case _ =>
    }
  }

  lemma CapabilitiesAdvances(s: State, co: nat, answer: Answer)
    requires co < |s.acts| && s.acts[co].Capabilities? && Step(s, co, answer).Some?
    ensures Advanced(s, Step(s, co, answer).value, co)
  {
    hide Execute;
    ExecuteAdvances(s, co, s.acts[co].channel, s.acts[co].stage, s.acts[co].command, Negotiation, answer);
  }

  lemma CapabilitiesIssues(s: State, co: nat, answer: Answer)
    requires co < |s.acts| && s.acts[co].Capabilities? && Step(s, co, answer).Some?
    ensures Issues(s, Step(s, co, answer).value, co)
  {
    hide Execute;
    ExecuteAdvances(s, co, s.acts[co].channel, s.acts[co].stage, s.acts[co].command, Negotiation, answer);
  }

  /** A call ends: each step of a caller or handshake brings it closer, or reads one of the events there are. */
  lemma CallsEnd(s: State, co: nat, answer: Answer)
    requires co < |s.acts| && !s.acts[co].Watching? && !s.acts[co].Listening? && Step(s, co, answer).Some?
    ensures Advanced(s, Step(s, co, answer).value, co)
  {
    if s.acts[co].Executing? {
      ExecutingAdvances(s, co, answer);
    } else if s.acts[co].Yanking? {
      YankingAdvances(s, co, answer);
    } else if s.acts[co].Capabilities? {
      CapabilitiesAdvances(s, co, answer);
    }
  }

  lemma StepIssues(s: State, co: nat, answer: Answer)
    requires co < |s.acts| && Step(s, co, answer).Some?
    ensures Issues(s, Step(s, co, answer).value, co)
  {
    if s.acts[co].Executing? {
      ExecutingIssues(s, co, answer);
    } else if s.acts[co].Yanking? {
      YankingIssues(s, co, answer);
    } else if s.acts[co].Capabilities? {
      CapabilitiesIssues(s, co, answer);
    } else {
      OtherIssues(s, co, answer);
    }
  }

  /** The handshake before its command, and the event readers */
  lemma OtherIssues(s: State, co: nat, answer: Answer)
    requires co < |s.acts| && Step(s, co, answer).Some?
    requires s.acts[co].Greeted? || s.acts[co].Watching? || s.acts[co].Listening?
    ensures Issues(s, Step(s, co, answer).value, co)
  {
  }

  lemma NextKeepsOwn(s: State, m: Move)
    requires OwnCommands(s) && Next(s, m).Some?
    ensures OwnCommands(Next(s, m).value)
  {
    match m
    case Call(co, _) => IssuesKeepsOwn(s, Next(s, m).value, co);
    case Run(co, answer) =>
      StepIssues(s, co, answer);
      IssuesKeepsOwn(s, Next(s, m).value, co);
    case _ =>
  }

  /** In every run a command under way belongs to one coroutine: the reply that matches it is that one's. */
  lemma CommandsAreOwn(callers: nat, moves: seq<Move>, s: State)
    requires Runs.Reaches(Next, Opened(callers), moves, s)
    ensures forall i, j :: 0 <= i < j < |s.acts| ==> Commands(s.acts[i]) !! Commands(s.acts[j])
  {
    forall t, m | OwnCommands(t) && Next(t, m).Some? ensures OwnCommands(Next(t, m).value) {
      NextKeepsOwn(t, m);
    }
    Runs.Invariant(Next, t => OwnCommands(t), Opened(callers), moves, s);
  }
}
