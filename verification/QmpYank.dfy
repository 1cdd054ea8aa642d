/**
 What is said over the QMP channels: a late reply makes its caller yank, a yank is done only when both of its
 commands have been written and answered well, one after the other, and nothing ends well without its reply.
 */
module QmpYank {
  import opened ColodTypes
  import opened Qmp
  import opened QmpRuns
  import Runs

  predicate Sent(log: Log, id: ChannelId, command: nat, text: Text) {
    Wrote(id, command, text) in log.written
  }

  /** A reply to the command has been read, and it is no error. */
  predicate AnsweredWell(log: Log, command: nat) {
    exists r :: r in log.results && r.command == command && !(r.line.Reply? && !r.line.ok)
  }

  /** `a` was written, and `b` after it. */
  predicate Before(written: seq<Wrote>, a: Wrote, b: Wrote) {
    exists i, j :: 0 <= i < j < |written| && written[i] == a && written[j] == b
  }

  function Query(command: nat): Wrote {
    Wrote(Yank, command, Asking(QueryYank))
  }

  function Instances(command: nat, query: nat): Wrote {
    Wrote(Yank, command, Asking(YankInstances(query)))
  }

  /** The yank asked what there is and was told, and then had that yanked and was told so. */
  predicate YankDone(log: Log, y: Yanked) {
    && (y.outer.Some? ==> Sent(log, Main, y.outer.value, Requested) && y.outer.value < y.query)
    && y.query < y.yank
    && Before(log.written, Query(y.query), Instances(y.yank, y.query))
    && AnsweredWell(log, y.query) && AnsweredWell(log, y.yank)
  }

  /** What must have been said for an activity to have come so far. */
  predicate ActFits(log: Log, a: Activity) {
    match a
    case Executing(stage, command, mayYank) =>
      && (stage.Reading? ==> Sent(log, Main, command, Requested))
      && (!mayYank ==> stage.Reading? && exists y :: y in log.yanked && y.outer == Some(command))
    case Yanking(outer, QueryYank, stage, command) =>
      && (outer.Some? ==> Sent(log, Main, outer.value, Requested) && outer.value < command)
      && (stage.Reading? ==> Query(command) in log.written)
    case Yanking(outer, YankInstances(query), stage, command) =>
      && (outer.Some? ==> Sent(log, Main, outer.value, Requested) && outer.value < query)
      && query < command && Query(query) in log.written && AnsweredWell(log, query)
      && (stage.Reading? ==> Before(log.written, Query(query), Instances(command, query)))
    case Capabilities(id, stage, command) => stage.Reading? ==> Sent(log, id, command, Negotiation)
    case _ => true
  }

  /** The handshake of a channel is under way, has failed, or has been made. */
  predicate HandshakeFits(s: State, co: nat, id: ChannelId)
    requires co < |s.acts|
  {
    match s.acts[co]
    case Greeted(channel) => channel == id
    case Capabilities(channel, _, _) => channel == id
    case Idle => s.log.firstError.Some? || Negotiated(s.log, id)
    case _ => false
  }

  predicate Negotiated(log: Log, id: ChannelId) {
    exists w :: w in log.written && w.channel == id && w.text == Negotiation && AnsweredWell(log, w.command)
  }

  ghost predicate Says(s: State) {
    && |s.acts| >= Callers && HandshakeFits(s, 0, Main) && HandshakeFits(s, 1, Yank)
    && OwnCommands(s)
    && (forall i :: 0 <= i < |s.acts| ==> ActFits(s.log, s.acts[i]))
    && (forall y :: y in s.log.yanked ==> YankDone(s.log, y))
  }

  /** Nothing said is unsaid. */
  predicate Grows(a: Log, b: Log) {
    && a.written <= b.written && a.results <= b.results && a.yanked <= b.yanked
    && (a.firstError.Some? ==> b.firstError.Some?)
  }

  lemma AnswerStays(a: Log, b: Log, command: nat)
    requires Grows(a, b) && AnsweredWell(a, command)
    ensures AnsweredWell(b, command)
  {
    var r :| r in a.results && r.command == command && !(r.line.Reply? && !r.line.ok);
    assert r in b.results;
  }

  lemma BeforeStays(a: seq<Wrote>, b: seq<Wrote>, x: Wrote, y: Wrote)
    requires a <= b && Before(a, x, y)
    ensures Before(b, x, y)
  {
    var i, j :| 0 <= i < j < |a| && a[i] == x && a[j] == y;
    assert b[i] == x && b[j] == y;
  }

  lemma ActStays(a: Log, b: Log, act: Activity)
    requires Grows(a, b) && ActFits(a, act)
    ensures ActFits(b, act)
  {
    match act
    case Executing(_, command, mayYank) =>
      if !mayYank {
        var y :| y in a.yanked && y.outer == Some(command);
        assert y in b.yanked;
      }
    case Yanking(_, YankInstances(query), stage, command) =>
      AnswerStays(a, b, query);
      if stage.Reading? {
        BeforeStays(a.written, b.written, Query(query), Instances(command, query));
      }
    case _ =>
  }

  lemma YankStays(a: Log, b: Log, y: Yanked)
    requires Grows(a, b) && YankDone(a, y)
    ensures YankDone(b, y)
  {
    AnswerStays(a, b, y.query);
    AnswerStays(a, b, y.yank);
    BeforeStays(a.written, b.written, Query(y.query), Instances(y.yank, y.query));
  }

  lemma NegotiatedStays(a: Log, b: Log, id: ChannelId)
    requires Grows(a, b) && Negotiated(a, id)
    ensures Negotiated(b, id)
  {
    var w :| w in a.written && w.channel == id && w.text == Negotiation && AnsweredWell(a, w.command);
    AnswerStays(a, b, w.command);
    assert w in b.written;
  }

  // ---- One step of a command ----

  /** What one step of a command adds to what has been said. */
  predicate Tells(s: State, p: Progress, id: ChannelId, stage: Stage, command: nat, text: Text) {
    match p
    case Blocked => true
    case Continues(t, next) =>
      && Grows(s.log, t.log) && t.log.yanked == s.log.yanked
      && (next.Reading? ==> if stage.Writing? then t.log.written == s.log.written + [Wrote(id, command, text)]
                            else stage.Reading?)
    case Fails(t) => Grows(s.log, t.log) && t.log.yanked == s.log.yanked && t.log.firstError.Some?
    case IsLate(t) => t == s && stage.Reading?
    case Returns(t, line) =>
      && Grows(s.log, t.log) && t.log.yanked == s.log.yanked && stage.Reading?
      && t.log.results == s.log.results + [Result(command, line)]
  }

  lemma ExecuteTells(s: State, co: nat, id: ChannelId, stage: Stage, command: nat, text: Text, answer: Answer)
    ensures Tells(s, Execute(s, co, id, stage, command, text, answer), id, stage, command, text)
  {
  }

  lemma ReplyAnswers(a: Log, b: Log, command: nat, line: Line)
    requires b.results == a.results + [Result(command, line)] && !(line.Reply? && !line.ok)
    ensures AnsweredWell(b, command)
  {
    assert b.results[|a.results|] == Result(command, line);
  }

  lemma WritingFollows(a: seq<Wrote>, x: Wrote, y: Wrote)
    requires x in a
    ensures Before(a + [y], x, y)
  {
    var i :| 0 <= i < |a| && a[i] == x;
    assert (a + [y])[i] == x && (a + [y])[|a|] == y;
  }

  lemma FailIoTells(s: State, id: ChannelId, co: nat)
    ensures var t := FailIo(s, id, co); Grows(s.log, t.log) && t.log.yanked == s.log.yanked && t.log.firstError.Some?
  {
  }

  /** `t` is `s` gone on, with coroutine `co` doing what fits what has been said. */
  predicate Follows(s: State, t: State, co: nat)
    requires co < |s.acts|
  {
    && |t.acts| == |s.acts| && t.acts == s.acts[co := t.acts[co]]
    && Grows(s.log, t.log) && ActFits(t.log, t.acts[co])
    && (forall y :: y in t.log.yanked ==> y in s.log.yanked || YankDone(t.log, y))
  }

  lemma ExecutingFollows(s: State, co: nat, answer: Answer)
    requires co < |s.acts| && s.acts[co].Executing? && ActFits(s.log, s.acts[co]) && OwnCommands(s)
    requires Step(s, co, answer).Some?
    ensures Follows(s, Step(s, co, answer).value, co)
  {
    hide Execute, FailIo;
    var a := s.acts[co];
    ExecuteTells(s, co, Main, a.stage, a.command, Requested, answer);
    ExecuteAdvances(s, co, Main, a.stage, a.command, Requested, answer);
    FailIoTells(s, Main, co);
    FailIoKeepsActs(s, Main, co);
    assert a.command in Commands(a);
    match Execute(s, co, Main, a.stage, a.command, Requested, answer)
    case Continues(t, stage) => ActStays(s.log, t.log, a);
    case _ =>
  }

  lemma YankFailsTells(s: State, co: nat, outer: Option<nat>, cause: Cause)
    requires co < |s.acts|
    ensures var t := YankFails(s, co, outer, cause);
      t.acts == s.acts[co := Idle] && Grows(s.log, t.log) && t.log.yanked == s.log.yanked
  {
  }

  /** The reply to one of a yank's commands. */
  lemma YankReplyFollows(s: State, co: nat, t: State, line: Line, answer: Answer)
    requires co < |s.acts| && s.acts[co].Yanking? && ActFits(s.log, s.acts[co]) && OwnCommands(s)
    requires var a := s.acts[co];
      Execute(s, co, Yank, a.stage, a.command, Asking(a.ask), answer) == Returns(t, line)
    ensures Follows(s, Step(s, co, answer).value, co)
  {
    hide Execute, YankFails, ActFits, YankDone;
    var a := s.acts[co];
    ExecuteTells(s, co, Yank, a.stage, a.command, Asking(a.ask), answer);
    ExecuteAdvances(s, co, Yank, a.stage, a.command, Asking(a.ask), answer);
    YankFailsTells(t, co, a.outer, BadReply);
    IdleFits(s.log);
    IdleFits(YankFails(t, co, a.outer, BadReply).log);
    if !(line.Reply? && !line.ok) {
      ReplyAnswers(s.log, t.log, a.command, line);
      if a.ask.YankInstances? {
        YankEnds(s, co, t);
        IdleFits(SetYank(t, Yanked(a.outer, a.ask.query, a.command)).log);
      } else {
        assert a.command in Commands(a);
        QueryEnds(s, co, t);
      }
    }
  }

  lemma IdleFits(log: Log)
    ensures ActFits(log, Idle)
  {
  }

  /** The reply to the first command is good: the second follows. */
  lemma QueryEnds(s: State, co: nat, t: State)
    requires co < |s.acts| && s.acts[co].Yanking? && s.acts[co].ask.QueryYank? && s.acts[co].stage.Reading?
    requires ActFits(s.log, s.acts[co]) && Grows(s.log, t.log) && AnsweredWell(t.log, s.acts[co].command)
    requires s.acts[co].command < t.nextCommand
    ensures var a := s.acts[co];
      ActFits(t.log, Yanking(a.outer, YankInstances(a.command), Locking, t.nextCommand))
  {
    ActStays(s.log, t.log, s.acts[co]);
  }

  /** The reply to the second command is good: the yank is done. */
  lemma YankEnds(s: State, co: nat, t: State)
    requires co < |s.acts| && s.acts[co].Yanking? && s.acts[co].ask.YankInstances? && s.acts[co].stage.Reading?
    requires ActFits(s.log, s.acts[co]) && Grows(s.log, t.log) && AnsweredWell(t.log, s.acts[co].command)
    ensures var a := s.acts[co];
      var y := Yanked(a.outer, a.ask.query, a.command);
      var u := SetYank(t, y).log;
      && Grows(t.log, u) && YankDone(u, y) && y in u.yanked
      && (a.outer.Some? ==> ActFits(u, Executing(Reading, a.outer.value, false)))
  {
    var a := s.acts[co];
    var y := Yanked(a.outer, a.ask.query, a.command);
    AnswerStays(s.log, t.log, a.ask.query);
    BeforeStays(s.log.written, t.log.written, Query(y.query), Instances(y.yank, y.query));
    var u := SetYank(t, y);
    assert u.log.yanked[|t.log.yanked|] == y;
    YankStays(t.log, u.log, y);
  }

  lemma YankingFollows(s: State, co: nat, answer: Answer)
    requires co < |s.acts| && s.acts[co].Yanking? && ActFits(s.log, s.acts[co]) && OwnCommands(s)
    requires Step(s, co, answer).Some?
    ensures Follows(s, Step(s, co, answer).value, co)
  {
    hide Execute, FailIo, YankFails;
    var a := s.acts[co];
    ExecuteTells(s, co, Yank, a.stage, a.command, Asking(a.ask), answer);
    ExecuteAdvances(s, co, Yank, a.stage, a.command, Asking(a.ask), answer);
    match Execute(s, co, Yank, a.stage, a.command, Asking(a.ask), answer)
    case Continues(t, stage) =>
      ActStays(s.log, t.log, a);
      if a.stage.Writing? && a.ask.YankInstances? {
        WritingFollows(s.log.written, Query(a.ask.query), Instances(a.command, a.ask.query));
      }
    case Fails(t) => YankFailsTells(t, co, a.outer, BadIo);
    case IsLate(t) =>
      FailIoTells(s, Yank, co);
      FailIoKeepsActs(s, Yank, co);
      YankFailsTells(FailIo(s, Yank, co), co, a.outer, BadIo);
    case Returns(t, line) => YankReplyFollows(s, co, t, line, answer);
    case Blocked =>
  }

  lemma ReturnTells(s: State, id: ChannelId, co: nat)
    ensures var t := Return(s, id, co); t.acts == s.acts && Grows(s.log, t.log) && t.log.yanked == s.log.yanked
    ensures Return(s, id, co).log == s.log.(assertFailed := Return(s, id, co).log.assertFailed)
  {
  }

  lemma CapabilitiesFollows(s: State, co: nat, answer: Answer)
    requires co < |s.acts| && s.acts[co].Capabilities? && ActFits(s.log, s.acts[co])
    requires Step(s, co, answer).Some?
    ensures var t := Step(s, co, answer).value;
      && Follows(s, t, co)
      && (if t.acts[co].Idle? then t.log.firstError.Some? || Negotiated(t.log, s.acts[co].channel)
          else t.acts[co].Capabilities? && t.acts[co].channel == s.acts[co].channel)
  {
    hide Execute, FailIo, Return;
    var a := s.acts[co];
    ExecuteTells(s, co, a.channel, a.stage, a.command, Negotiation, answer);
    ExecuteAdvances(s, co, a.channel, a.stage, a.command, Negotiation, answer);
    match Execute(s, co, a.channel, a.stage, a.command, Negotiation, answer)
    case Continues(t, stage) => ActStays(s.log, t.log, a);
    case Fails(t) => ReturnTells(t, a.channel, co);
    case IsLate(t) =>
      FailIoTells(s, a.channel, co);
      FailIoKeepsActs(s, a.channel, co);
      ReturnTells(FailIo(s, a.channel, co), a.channel, co);
    case Returns(t, line) => NegotiationEnds(s, co, t, line);
    case Blocked =>
  }

  lemma NegotiationEnds(s: State, co: nat, t: State, line: Line)
    requires co < |s.acts| && s.acts[co].Capabilities? && ActFits(s.log, s.acts[co]) && t.acts == s.acts
    requires s.acts[co].stage.Reading? && Grows(s.log, t.log) && t.log.yanked == s.log.yanked
    requires t.log.results == s.log.results + [Result(s.acts[co].command, line)]
    ensures var a := s.acts[co];
      var r := Return(if line.Reply? && !line.ok then Record(t, BadReply) else t, a.channel, co);
      && r.acts == s.acts && Grows(s.log, r.log) && r.log.yanked == s.log.yanked
      && (r.log.firstError.Some? || Negotiated(r.log, a.channel))
  {
    hide Return;
    var a := s.acts[co];
    var u := if line.Reply? && !line.ok then Record(t, BadReply) else t;
    ReturnTells(u, a.channel, co);
    if !(line.Reply? && !line.ok) {
      ReplyAnswers(s.log, t.log, a.command, line);
      assert Wrote(a.channel, a.command, Negotiation) in t.log.written;
      assert Negotiated(t.log, a.channel);
      NegotiatedStays(t.log, Return(u, a.channel, co).log, a.channel);
    }
  }

  lemma SkipEventTells(s: State, id: ChannelId)
    requires Of(s, id).lines != [] && Of(s, id).lines[0].Event?
    ensures var t := SkipEvent(s, id); t.acts == s.acts && Grows(s.log, t.log) && t.log.yanked == s.log.yanked
  {
  }

  lemma GreetedFollows(s: State, co: nat, answer: Answer)
    requires co < |s.acts| && s.acts[co].Greeted? && Step(s, co, answer).Some?
    ensures var t := Step(s, co, answer).value;
      && Follows(s, t, co)
      && (if t.acts[co].Idle? then t.log.firstError.Some?
          else t.acts[co] == s.acts[co] || (t.acts[co].Capabilities? && t.acts[co].channel == s.acts[co].channel))
  {
    hide FailIo, SkipEvent;
    var id := s.acts[co].channel;
    FailIoTells(s, id, co);
    FailIoKeepsActs(s, id, co);
    if Of(s, id).lines != [] && Of(s, id).lines[0].Event? {
      SkipEventTells(s, id);
    }
  }

  lemma WatchingFollows(s: State, co: nat, answer: Answer)
    requires co < |s.acts| && s.acts[co].Watching? && Step(s, co, answer).Some?
    ensures Follows(s, Step(s, co, answer).value, co)
  {
  }

  lemma ReleaseTells(s: State, id: ChannelId, co: nat)
    ensures var t := Release(s, id, co); t.acts == s.acts && Grows(s.log, t.log) && t.log.yanked == s.log.yanked
  {
  }

  lemma ListeningFollows(s: State, co: nat, answer: Answer)
    requires co < |s.acts| && s.acts[co].Listening? && Step(s, co, answer).Some?
    ensures Follows(s, Step(s, co, answer).value, co)
  {
    hide FailIo, SkipEvent, Release;
    var id := s.acts[co].channel;
    FailIoTells(s, id, co);
    FailIoKeepsActs(s, id, co);
    var lines := Of(s, id).lines;
    if lines != [] {
      if lines[0].Event? {
        SkipEventTells(s, id);
      }
      ReleaseTells(if lines[0].Event? then SkipEvent(s, id) else Record(Taken(s, id), NotAnEvent), id, co);
    }
  }

  // ---- Every run ----

  /** The rest is untouched. */
  lemma FollowsKeeps(s: State, t: State, co: nat)
    requires Says(s) && co < |s.acts| && Follows(s, t, co) && OwnCommands(t)
    requires co == 0 ==> HandshakeFits(t, 0, Main)
    requires co == 1 ==> HandshakeFits(t, 1, Yank)
    ensures Says(t)
  {
    forall i | 0 <= i < |t.acts| ensures ActFits(t.log, t.acts[i]) {
      if i != co {
        ActStays(s.log, t.log, s.acts[i]);
      }
    }
    forall y | y in t.log.yanked ensures YankDone(t.log, y) {
      if y in s.log.yanked {
        YankStays(s.log, t.log, y);
      }
    }
    if Negotiated(s.log, Main) {
      NegotiatedStays(s.log, t.log, Main);
    }
    if Negotiated(s.log, Yank) {
      NegotiatedStays(s.log, t.log, Yank);
    }
  }

  lemma RunKeepsSays(s: State, co: nat, answer: Answer)
    requires Says(s) && co < |s.acts| && Step(s, co, answer).Some?
    ensures Says(Step(s, co, answer).value)
  {
    hide StepExecuting, StepYanking, StepGreeted, StepCapabilities, StepListening, StepWatching, OwnCommands;
    NextKeepsOwn(s, Run(co, answer));
    if s.acts[co].Executing? {
      ExecutingFollows(s, co, answer);
    } else if s.acts[co].Yanking? {
      YankingFollows(s, co, answer);
    } else if s.acts[co].Capabilities? {
      CapabilitiesFollows(s, co, answer);
    } else if s.acts[co].Greeted? {
      GreetedFollows(s, co, answer);
    } else if s.acts[co].Watching? {
      WatchingFollows(s, co, answer);
    } else {
      ListeningFollows(s, co, answer);
    }
    FollowsKeeps(s, Step(s, co, answer).value, co);
  }

  lemma NextKeepsSays(s: State, m: Move)
    requires Says(s) && Next(s, m).Some?
    ensures Says(Next(s, m).value)
  {
    NextKeepsOwn(s, m);
    match m
    case Run(co, answer) => RunKeepsSays(s, co, answer);
    case Call(co, _) => FollowsKeeps(s, Next(s, m).value, co);
    case _ =>
  }

  lemma OpenedSays(callers: nat)
    ensures Says(Opened(callers))
  {
    var o := Opened(callers);
    assert o.acts[0] == Greeted(Main) && o.acts[1] == Greeted(Yank);
    assert forall j :: 2 <= j < |o.acts| ==> o.acts[j].Watching? || o.acts[j].Idle?;
  }

  lemma AllRunsSay(callers: nat, moves: seq<Move>, s: State)
    requires Runs.Reaches(Next, Opened(callers), moves, s)
    ensures Says(s)
  {
    hide Says, Next;
    OpenedSays(callers);
    forall t, m | Says(t) && Next(t, m).Some? ensures Says(Next(t, m).value) {
      NextKeepsSays(t, m);
    }
    Runs.Invariant(Next, t => Says(t), Opened(callers), moves, s);
  }

  /**
   In every run, with errors or without: a yank that has set the flag has written query-yank and then yank on the
   yank channel and read a good reply to each; and a call that reads on after a late reply has had one of its own.
   */
  lemma YanksAreDone(callers: nat, moves: seq<Move>, s: State)
    requires Runs.Reaches(Next, Opened(callers), moves, s)
    ensures forall y :: y in s.log.yanked ==> YankDone(s.log, y)
    ensures forall i :: 0 <= i < |s.acts| && s.acts[i].Executing? && !s.acts[i].mayYank ==>
              exists y :: y in s.log.yanked && y.outer == Some(s.acts[i].command)
  {
    AllRunsSay(callers, moves, s);
    forall i | 0 <= i < |s.acts| && s.acts[i].Executing? && !s.acts[i].mayYank
      ensures exists y :: y in s.log.yanked && y.outer == Some(s.acts[i].command)
    {
      assert ActFits(s.log, s.acts[i]);
    }
  }

  /** In every run: a handshake that has ended has negotiated its channel, unless an error has been recorded. */
  lemma HandshakesNegotiate(callers: nat, moves: seq<Move>, s: State)
    requires Runs.Reaches(Next, Opened(callers), moves, s) && s.log.firstError.None?
    ensures |s.acts| >= Callers
    ensures s.acts[0].Idle? ==> Negotiated(s.log, Main)
    ensures s.acts[1].Idle? ==> Negotiated(s.log, Yank)
  {
    AllRunsSay(callers, moves, s);
  }

  /**
   The first time the reply to a call is late, a yank for it begins; the second time, the call fails and the error
   is recorded.
   */
  lemma LateReplyYanks(s: State, co: nat)
    requires co < |s.acts| && s.acts[co].Executing? && s.acts[co].stage.Reading?
    ensures Step(s, co, TimesOut).Some?
    ensures var a, t := s.acts[co], Step(s, co, TimesOut).value;
      if a.mayYank then
        && t.acts[co] == Yanking(Some(a.command), QueryYank, Locking, s.nextCommand)
        && t.log == s.log && t.main == s.main
      else t.acts[co].Idle? && t.log.firstError.Some?
  {
  }

  /** One more reply has been read, for this command. */
  predicate Answered(a: Log, b: Log, command: nat) {
    |b.results| == |a.results| + 1 && b.results[..|a.results|] == a.results && b.results[|a.results|].command == command
  }

  /** A call ends with a reply to its command, or with a recorded error; so does one whose yank has failed. */
  lemma CallsAreAnswered(s: State, co: nat, answer: Answer, t: State)
    requires co < |s.acts| == |t.acts| && Step(s, co, answer) == Some(t) && t.acts[co].Idle?
    requires s.acts[co].Executing? || (s.acts[co].Yanking? && s.acts[co].outer.Some?)
    ensures t.log.firstError.Some? || (s.acts[co].Executing? && Answered(s.log, t.log, s.acts[co].command))
  {
    hide Step;
    if s.acts[co].Executing? {
      CallAnswered(s, co, answer, t);
    } else {
      YankFailureRecorded(s, co, answer, t);
    }
  }

  lemma CallAnswered(s: State, co: nat, answer: Answer, t: State)
    requires co < |s.acts| == |t.acts| && s.acts[co].Executing? && Step(s, co, answer) == Some(t) && t.acts[co].Idle?
    ensures t.log.firstError.Some? || Answered(s.log, t.log, s.acts[co].command)
  {
    hide Execute, FailIo;
    var a := s.acts[co];
    ExecuteTells(s, co, Main, a.stage, a.command, Requested, answer);
    ExecuteAdvances(s, co, Main, a.stage, a.command, Requested, answer);
    FailIoTells(s, Main, co);
  }

  lemma YankFailureRecorded(s: State, co: nat, answer: Answer, t: State)
    requires co < |s.acts| == |t.acts| && s.acts[co].Yanking? && s.acts[co].outer.Some?
    requires Step(s, co, answer) == Some(t) && t.acts[co].Idle?
    ensures t.log.firstError.Some?
  {
    hide Execute, FailIo;
    var a := s.acts[co];
    ExecuteTells(s, co, Yank, a.stage, a.command, Asking(a.ask), answer);
    ExecuteAdvances(s, co, Yank, a.stage, a.command, Asking(a.ask), answer);
    FailIoKeepsActs(s, Yank, co);
  }
}
