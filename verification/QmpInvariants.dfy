/** Every step of the QMP coroutines, and of QEMU, keeps the books of `QmpAccounting`. */
module QmpInvariants {
  import opened ColodTypes
  import opened Qmp
  import opened QmpAccounting

  // ---- Each operation ----

  function ClaimIn(h: Share, id: ChannelId): Claim {
    if id.Main? then h.main else h.yank
  }

  function Put(h: Share, id: ChannelId, claim: Claim): Share {
    if id.Main? then h.(main := claim) else h.(yank := claim)
  }

  function Add(claim: Claim): Claim {
    claim.(count := claim.count + 1)
  }

  lemma AcquireKeeps(s: State, id: ChannelId, co: nat, h: Share)
    requires co < |s.acts| && Inv(s, co, h) && CanLock(Of(s, id), co)
    requires ClaimIn(h, id).count == 0 ==> ClaimIn(h, id).owed == []
    ensures Inv(Acquire(s, id, co), co, Put(h, id, Add(ClaimIn(h, id))))
  {
  }

  /** After an error nothing is owed any more. */
  function Drop(s: State, claim: Claim): Claim
    requires claim.count > 0
  {
    Claim(claim.count - 1, if s.log.firstError.None? then claim.owed else [])
  }

  lemma ReleaseKeeps(s: State, id: ChannelId, co: nat, h: Share)
    requires co < |s.acts| && Inv(s, co, h)
    requires var claim := ClaimIn(h, id);
      claim.count > 0 && (claim.count == 1 && s.log.firstError.None? ==> claim.owed == [])
    ensures Inv(Release(s, id, co), co, Put(h, id, Drop(s, ClaimIn(h, id))))
  {
  }

  /** The end of a call: unlock, and one user less. */
  lemma ReturnKeeps(s: State, id: ChannelId, co: nat, h: Share)
    requires co < |s.acts| && Inv(s, co, h)
    requires var claim := ClaimIn(h, id);
      claim.count > 0 && (claim.count == 1 && s.log.firstError.None? ==> claim.owed == [])
    ensures Inv(Return(s, id, co), co, Put(h, id, Drop(s, ClaimIn(h, id))).(uses := h.uses - 1))
  {
    ReleaseKeeps(s, id, co, h);
  }

  lemma RecordKeeps(s: State, cause: Cause, co: nat, h: Share)
    requires co < |s.acts| && Inv(s, co, h) && (cause.NotAnEvent? ==> s.log.firstError.Some?)
    ensures Inv(Record(s, cause), co, h) && Record(s, cause).log.firstError.Some?
  {
  }

  lemma WrittenKeeps(s: State, id: ChannelId, co: nat, h: Share, command: nat, text: Text)
    requires co < |s.acts| && Inv(s, co, h) && ClaimIn(h, id).count > 0
    ensures var claim := ClaimIn(h, id);
      Inv(Written(s, id, command, text), co, Put(h, id, claim.(owed := claim.owed + [OwedReply(command)])))
  {
  }

  lemma FailIoKeeps(s: State, id: ChannelId, co: nat, h: Share)
    requires co < |s.acts| && Inv(s, co, h) && ClaimIn(h, id).count > 0
    ensures Inv(FailIo(s, id, co), co, Put(h, id, Claim(ClaimIn(h, id).count - 1, [])).(uses := h.uses - 1))
  {
    hide Inv;
    RecordKeeps(s, BadIo, co, h);
    ReturnKeeps(Record(s, BadIo), id, co, h);
  }

  function Tail(owed: seq<Owed>): seq<Owed> {
    if owed == [] then [] else owed[1..]
  }

  /** A holder reads a line that is no event: it is the reply the holder is owed next. */
  lemma TakenKeeps(s: State, id: ChannelId, co: nat, h: Share)
    requires co < |s.acts| && Inv(s, co, h) && ClaimIn(h, id).count > 0
    requires Of(s, id).lines != [] && !Of(s, id).lines[0].Event?
    ensures s.log.firstError.None? ==>
              ClaimIn(h, id).owed != [] && KindOf(Of(s, id).lines[0]) == ClaimIn(h, id).owed[0]
    ensures Inv(Taken(s, id), co, Put(h, id, Claim(ClaimIn(h, id).count, Tail(ClaimIn(h, id).owed))))
  {
    var c := Of(s, id);
    var rest := Replies(c.lines[1..]) + c.owed;
    assert Expected(c) == [KindOf(c.lines[0])] + rest;
  }

  lemma SkipEventKeeps(s: State, id: ChannelId, co: nat, h: Share)
    requires co < |s.acts| && Inv(s, co, h)
    requires Of(s, id).lines != [] && Of(s, id).lines[0].Event?
    ensures Inv(SkipEvent(s, id), co, h)
  {
    var c := Of(s, id);
    var number, rest := c.lines[0].number, Events(c.lines[1..]);
    assert (s.log.notified + [number]) + rest == s.log.notified + ([number] + rest);
  }

  lemma ReturnedKeeps(s: State, command: nat, line: Line, co: nat, h: Share)
    requires co < |s.acts| && Inv(s, co, h)
    requires s.log.firstError.None? ==> line.Reply? && line.command == command
    ensures Inv(Returned(s, command, line), co, h)
  {
  }

  lemma TotalBecome(acts: seq<Activity>, co: nat, a: Activity)
    requires co < |acts|
    ensures Total(acts[co := a]) == Total(acts) - Uses(acts[co]) + Uses(a)
  {
    var last := |acts| - 1;
    if co < last {
      TotalBecome(acts[..last], co, a);
      assert acts[co := a][..last] == acts[..last][co := a];
    } else {
      assert acts[co := a][..last] == acts[..last];
    }
  }

  /** The step is over, and the coroutine has become what its share says. */
  lemma BecomeKeeps(s: State, co: nat, h: Share, a: Activity)
    requires co < |s.acts| && Inv(s, co, h) && h == ShareOf(a)
    ensures Inv(Become(s, co, a), co, ShareOf(a))
  {
    TotalBecome(s.acts, co, a);
  }

  lemma BeginKeeps(s: State, co: nat, h: Share, a: Activity)
    requires co < |s.acts| && Inv(s, co, h) && h.(uses := h.uses + 1) == ShareOf(a)
    ensures Inv(Begin(s, co, a), co, ShareOf(a))
  {
    TotalBecome(s.acts, co, a);
  }

  /** It makes no difference which coroutine is singled out between steps. */
  lemma AnyCoroutine(s: State, co: nat, other: nat)
    requires co < |s.acts| && other < |s.acts| && Inv(s, co, ShareOf(s.acts[co]))
    ensures Inv(s, other, ShareOf(s.acts[other]))
  {
  }

  // ---- Steps ----

  /** What a coroutine has of a channel inside __qmp_execute_co, having locked it `held` times before. */
  function Inside(held: nat, stage: Stage, command: nat): Claim {
    Claim(held + ExecuteClaim(stage, command).count, ExecuteClaim(stage, command).owed)
  }

  /** One step of __qmp_execute_co keeps the books, and gives everything back when it ends. */
  ghost predicate Executes(p: Progress, s: State, co: nat, id: ChannelId, command: nat, held: nat, h: Share)
    requires co < |s.acts|
  {
    match p
    case Blocked => true
    case Continues(t, stage) => t.acts == s.acts && Inv(t, co, Put(h, id, Inside(held, stage, command)))
    case Fails(t) =>
      t.acts == s.acts && t.log.firstError.Some? && Inv(t, co, Put(h, id, Claim(held, [])).(uses := h.uses - 1))
    case IsLate(t) => t == s && ClaimIn(h, id) == Inside(held, Reading, command)
    case Returns(t, line) => t.acts == s.acts && Inv(t, co, Put(h, id, Claim(held, [])).(uses := h.uses - 1))
  }

  lemma ExecuteKeeps(s: State, co: nat, id: ChannelId, stage: Stage, command: nat, text: Text, answer: Answer,
                    held: nat, h: Share)
    requires co < |s.acts| && Inv(s, co, h) && ClaimIn(h, id) == Inside(held, stage, command)
    ensures Executes(Execute(s, co, id, stage, command, text, answer), s, co, id, command, held, h)
  {
    hide Inv;
    var c := Of(s, id);
    match stage
    case Locking => if CanLock(c, co) { AcquireKeeps(s, id, co, h); }
    case Writing =>
      if answer.Works? {
        WrittenKeeps(s, id, co, h, command, text);
        assert [] + [OwedReply(command)] == [OwedReply(command)];
      } else {
        FailIoKeeps(s, id, co, h);
      }
    case Reading =>
      if answer.Breaks? {
        FailIoKeeps(s, id, co, h);
      } else if answer.TimesOut? || c.lines == [] {
      } else if c.lines[0].Event? {
        SkipEventKeeps(s, id, co, h);
      } else {
        ReadKeeps(s, co, id, command, text, held, h);
      }
  }

  lemma ReadKeeps(s: State, co: nat, id: ChannelId, command: nat, text: Text, held: nat, h: Share)
    requires co < |s.acts| && Inv(s, co, h) && ClaimIn(h, id) == Inside(held, Reading, command)
    requires Of(s, id).lines != [] && !Of(s, id).lines[0].Event?
    ensures Executes(Execute(s, co, id, Reading, command, text, Works), s, co, id, command, held, h)
  {
    hide Inv;
    var line := Of(s, id).lines[0];
    TakenKeeps(s, id, co, h);
    var h1 := Put(h, id, Claim(held + 1, []));
    assert Tail([OwedReply(command)]) == [];
    ReturnedKeeps(Taken(s, id), command, line, co, h1);
    ReturnKeeps(Returned(Taken(s, id), command, line), id, co, h1);
  }

  lemma ExecutingKeeps(s: State, co: nat, answer: Answer)
    requires co < |s.acts| && s.acts[co].Executing? && Inv(s, co, ShareOf(s.acts[co]))
    requires Step(s, co, answer).Some?
    ensures var t := Step(s, co, answer).value; |t.acts| == |s.acts| && Inv(t, co, ShareOf(t.acts[co]))
  {
    hide Inv, Execute;
    var a := s.acts[co];
    var h := ShareOf(a);
    ExecuteKeeps(s, co, Main, a.stage, a.command, Requested, answer, 0, h);
    match Execute(s, co, Main, a.stage, a.command, Requested, answer)
    case Continues(t, stage) =>
      BecomeKeeps(t, co, ShareOf(Executing(stage, a.command, a.mayYank)), Executing(stage, a.command, a.mayYank));
    case Fails(t) => BecomeKeeps(t, co, ShareOf(Idle), Idle);
    case IsLate(t) =>
      if a.mayYank {
        BeginKeeps(s, co, h, Yanking(Some(a.command), QueryYank, Locking, s.nextCommand));
      } else {
        FailIoKeeps(s, Main, co, h);
        BecomeKeeps(FailIo(s, Main, co), co, ShareOf(Idle), Idle);
      }
    case Returns(t, line) => BecomeKeeps(t, co, ShareOf(Idle), Idle);
  }

  lemma YankFailsKeeps(s: State, co: nat, outer: Option<nat>, cause: Cause)
    requires co < |s.acts| && !cause.NotAnEvent?
    requires Inv(s, co, if outer.None? then ShareOf(Idle) else Share(Claim(1, [OwedReply(outer.value)]), Nothing, 1))
    ensures var t := YankFails(s, co, outer, cause);
      |t.acts| == |s.acts| && t.acts[co] == Idle && Inv(t, co, ShareOf(Idle))
  {
    hide Inv;
    if outer.None? {
      BecomeKeeps(s, co, ShareOf(Idle), Idle);
    } else {
      var h := Share(Claim(1, [OwedReply(outer.value)]), Nothing, 1);
      RecordKeeps(s, cause, co, h);
      ReturnKeeps(Record(s, cause), Main, co, h);
      BecomeKeeps(Return(Record(s, cause), Main, co), co, ShareOf(Idle), Idle);
    }
  }

  lemma YankingKeeps(s: State, co: nat, answer: Answer)
    requires co < |s.acts| && s.acts[co].Yanking? && Inv(s, co, ShareOf(s.acts[co]))
    requires Step(s, co, answer).Some?
    ensures var t := Step(s, co, answer).value; |t.acts| == |s.acts| && Inv(t, co, ShareOf(t.acts[co]))
  {
    hide Inv, Execute;
    var a := s.acts[co];
    var h := ShareOf(a);
    ExecuteKeeps(s, co, Yank, a.stage, a.command, Asking(a.ask), answer, 0, h);
    match Execute(s, co, Yank, a.stage, a.command, Asking(a.ask), answer)
    case Continues(t, stage) =>
      var next := Yanking(a.outer, a.ask, stage, a.command);
      BecomeKeeps(t, co, ShareOf(next), next);
    case Fails(t) => YankFailsKeeps(t, co, a.outer, BadIo);
    case IsLate(t) =>
      FailIoKeeps(s, Yank, co, h);
      YankFailsKeeps(FailIo(s, Yank, co), co, a.outer, BadIo);
    case Returns(t, line) => YankReturnsKeeps(t, s, co, line, answer);
  }

  lemma SetYankKeeps(s: State, co: nat, h: Share, y: Yanked)
    requires co < |s.acts| && Inv(s, co, h)
    ensures Inv(SetYank(s, y), co, h)
  {
  }

  /** The reply to a yank's command: it has failed, or the second one follows, or it is done. */
  lemma YankReturnsKeeps(t: State, s: State, co: nat, line: Line, answer: Answer)
    requires co < |s.acts| && t.acts == s.acts && s.acts[co].Yanking? && Step(s, co, answer).Some?
    requires var a := s.acts[co];
      Execute(s, co, Yank, a.stage, a.command, Asking(a.ask), answer) == Returns(t, line)
    requires var h := ShareOf(s.acts[co]); Inv(t, co, h.(yank := Nothing, uses := h.uses - 1))
    ensures var u := Step(s, co, answer).value; |u.acts| == |s.acts| && Inv(u, co, ShareOf(u.acts[co]))
  {
    hide Inv;
    var a := s.acts[co];
    var h := ShareOf(a).(yank := Nothing, uses := ShareOf(a).uses - 1);
    if line.Reply? && !line.ok {
      YankFailsKeeps(t, co, a.outer, BadReply);
    } else if a.ask.QueryYank? {
      BeginKeeps(t, co, h, Yanking(a.outer, YankInstances(a.command), Locking, t.nextCommand));
    } else {
      var next := if a.outer.None? then Idle else Executing(Reading, a.outer.value, false);
      var y := Yanked(a.outer, a.ask.query, a.command);
      SetYankKeeps(t, co, h, y);
      BecomeKeeps(SetYank(t, y), co, h, next);
    }
  }

  lemma GreetedKeeps(s: State, co: nat, answer: Answer)
    requires co < |s.acts| && s.acts[co].Greeted? && Inv(s, co, ShareOf(s.acts[co]))
    requires Step(s, co, answer).Some?
    ensures var t := Step(s, co, answer).value; |t.acts| == |s.acts| && Inv(t, co, ShareOf(t.acts[co]))
  {
    hide Inv;
    var id := s.acts[co].channel;
    var h := ShareOf(s.acts[co]);
    if !answer.Works? {
      FailIoKeeps(s, id, co, h);
      BecomeKeeps(FailIo(s, id, co), co, ShareOf(Idle), Idle);
    } else if Of(s, id).lines[0].Event? {
      SkipEventKeeps(s, id, co, h);
    } else {
      TakenKeeps(s, id, co, h);
      assert Tail([OwedGreeting]) == [];
      BeginKeeps(Taken(s, id), co, Put(h, id, Claim(1, [])), Capabilities(id, Locking, s.nextCommand));
    }
  }

  /** The handshake ends by giving back the lock it was created with. */
  lemma HandshakeEndKeeps(s: State, co: nat, id: ChannelId)
    requires co < |s.acts| && Inv(s, co, Put(Share(Nothing, Nothing, 1), id, Claim(1, [])))
    ensures var t := Become(Return(s, id, co), co, Idle); Inv(t, co, ShareOf(Idle))
  {
    hide Inv;
    var h := Put(Share(Nothing, Nothing, 1), id, Claim(1, []));
    ReturnKeeps(s, id, co, h);
    BecomeKeeps(Return(s, id, co), co, ShareOf(Idle), Idle);
  }

  lemma CapabilitiesKeeps(s: State, co: nat, answer: Answer)
    requires co < |s.acts| && s.acts[co].Capabilities? && Inv(s, co, ShareOf(s.acts[co]))
    requires Step(s, co, answer).Some?
    ensures var t := Step(s, co, answer).value; |t.acts| == |s.acts| && Inv(t, co, ShareOf(t.acts[co]))
  {
    hide Inv, Execute;
    var a := s.acts[co];
    var h := ShareOf(a);
    var left := Put(Share(Nothing, Nothing, 1), a.channel, Claim(1, []));
    ExecuteKeeps(s, co, a.channel, a.stage, a.command, Negotiation, answer, 1, h);
    match Execute(s, co, a.channel, a.stage, a.command, Negotiation, answer)
    case Continues(t, stage) =>
      var next := Capabilities(a.channel, stage, a.command);
      BecomeKeeps(t, co, ShareOf(next), next);
    case Fails(t) => HandshakeEndKeeps(t, co, a.channel);
    case IsLate(t) =>
      FailIoKeeps(s, a.channel, co, h);
      HandshakeEndKeeps(FailIo(s, a.channel, co), co, a.channel);
    case Returns(t, line) =>
      RecordKeeps(t, BadReply, co, left);
      HandshakeEndKeeps(if line.Reply? && !line.ok then Record(t, BadReply) else t, co, a.channel);
  }

  lemma WatchingKeeps(s: State, co: nat, answer: Answer)
    requires co < |s.acts| && s.acts[co].Watching? && Inv(s, co, ShareOf(s.acts[co]))
    requires Step(s, co, answer).Some?
    ensures var t := Step(s, co, answer).value; |t.acts| == |s.acts| && Inv(t, co, ShareOf(t.acts[co]))
  {
    hide Inv;
    var id := s.acts[co].channel;
    AcquireKeeps(s, id, co, ShareOf(s.acts[co]));
    BecomeKeeps(Acquire(s, id, co), co, ShareOf(Listening(id)), Listening(id));
  }

  lemma ListeningKeeps(s: State, co: nat, answer: Answer)
    requires co < |s.acts| && s.acts[co].Listening? && Inv(s, co, ShareOf(s.acts[co]))
    requires Step(s, co, answer).Some?
    ensures var t := Step(s, co, answer).value; |t.acts| == |s.acts| && Inv(t, co, ShareOf(t.acts[co]))
  {
    hide Inv;
    var id := s.acts[co].channel;
    var h := ShareOf(s.acts[co]);
    if !answer.Works? {
      FailIoKeeps(s, id, co, h);
      BecomeKeeps(FailIo(s, id, co), co, ShareOf(Idle), Idle);
    } else if Of(s, id).lines[0].Event? {
      SkipEventKeeps(s, id, co, h);
      HeardKeeps(SkipEvent(s, id), co, id);
    } else {
      NoEventKeeps(s, co, id);
      HeardKeeps(Record(Taken(s, id), NotAnEvent), co, id);
    }
  }

  /** The event reader gives its lock back and watches again. */
  lemma HeardKeeps(s: State, co: nat, id: ChannelId)
    requires co < |s.acts| && Inv(s, co, ShareOf(Listening(id)))
    ensures Inv(Become(Release(s, id, co), co, Watching(id)), co, ShareOf(Watching(id)))
  {
    hide Inv;
    ReleaseKeeps(s, id, co, ShareOf(Listening(id)));
    BecomeKeeps(Release(s, id, co), co, ShareOf(Watching(id)), Watching(id));
  }

  /** Nothing is owed to the event reader: it can read a line that is no event only after an error. */
  lemma NoEventKeeps(s: State, co: nat, id: ChannelId)
    requires co < |s.acts| && Inv(s, co, ShareOf(Listening(id)))
    requires Of(s, id).lines != [] && !Of(s, id).lines[0].Event?
    ensures s.log.firstError.Some?
    ensures Inv(Record(Taken(s, id), NotAnEvent), co, ShareOf(Listening(id)))
  {
    hide Inv;
    var h := ShareOf(Listening(id));
    TakenKeeps(s, id, co, h);
    RecordKeeps(Taken(s, id), NotAnEvent, co, h);
  }

  lemma {:induction false} AppendReply(lines: seq<Line>, line: Line)
    ensures Replies(lines + [line]) == if line.Event? then Replies(lines) else Replies(lines) + [KindOf(line)]
  {
    if lines == [] {
      assert (lines + [line])[1..] == [];
    } else {
      AppendReply(lines[1..], line);
      assert (lines + [line])[1..] == lines[1..] + [line];
    }
  }

  lemma {:induction false} AppendEvent(lines: seq<Line>, line: Line)
    ensures Events(lines + [line]) == if line.Event? then Events(lines) + [line.number] else Events(lines)
  {
    if lines == [] {
      assert (lines + [line])[1..] == [];
    } else {
      AppendEvent(lines[1..], line);
      assert (lines + [line])[1..] == lines[1..] + [line];
    }
  }

  /** QEMU says a line it owes: what is expected of the channel stays the same. */
  lemma SayOwedExpected(c: Channel, line: Line)
    requires c.owed != [] && !line.Event? && KindOf(line) == c.owed[0]
    ensures var said := c.(lines := c.lines + [line], owed := c.owed[1..]);
      Expected(said) == Expected(c) && Events(said.lines) == Events(c.lines)
  {
    AppendReply(c.lines, line);
    AppendEvent(c.lines, line);
    assert (Replies(c.lines) + [c.owed[0]]) + c.owed[1..] == Replies(c.lines) + c.owed;
  }

  lemma SayEventExpected(c: Channel)
    ensures var said := c.(lines := c.lines + [Event(c.emitted)], emitted := c.emitted + 1);
      Expected(said) == Expected(c) && Events(said.lines) == Events(c.lines) + [c.emitted]
  {
    AppendReply(c.lines, Event(c.emitted));
    AppendEvent(c.lines, Event(c.emitted));
  }

  /** A channel with the same lock and the same expected lines fits as well. */
  lemma SameChannelKeeps(s: State, id: ChannelId, said: Channel, co: nat, h: Share)
    requires co < |s.acts| && Inv(s, co, h)
    requires said.lock == Of(s, id).lock && Expected(said) == Expected(Of(s, id))
    requires id.Main? && s.log.firstError.None? ==> Conserved(With(s, id, said))
    ensures Inv(With(s, id, said), co, h)
  {
    assert Fits(said, id, s.acts, co, ClaimIn(h, id), s.log.firstError.None?);
  }

  lemma SayKeeps(s: State, co: nat, h: Share, m: Move)
    requires co < |s.acts| && Inv(s, co, h) && (m.SayOwed? || m.SayEvent?) && Next(s, m).Some?
    ensures Next(s, m).value.acts == s.acts && Inv(Next(s, m).value, co, h)
  {
    var c := Of(s, m.channel);
    var said := Of(Next(s, m).value, m.channel);
    if m.SayOwed? {
      SayOwedExpected(c, LineFor(c.owed[0], m.ok));
    } else {
      SayEventExpected(c);
      var seen := s.log.notified + Events(s.main.lines);
      assert s.log.notified + (Events(s.main.lines) + [c.emitted]) == seen + [c.emitted];
    }
    SameChannelKeeps(s, m.channel, said, co, h);
  }

  /** The invariant between steps. */
  ghost predicate Sound(s: State) {
    s.acts != [] && Inv(s, 0, ShareOf(s.acts[0]))
  }

  lemma StepKeeps(s: State, co: nat, answer: Answer)
    requires co < |s.acts| && Inv(s, co, ShareOf(s.acts[co])) && Step(s, co, answer).Some?
    ensures var t := Step(s, co, answer).value; |t.acts| == |s.acts| && Inv(t, co, ShareOf(t.acts[co]))
  {
    hide Inv;
    match s.acts[co]
    case Executing(_, _, _) => ExecutingKeeps(s, co, answer);
    case Yanking(_, _, _, _) => YankingKeeps(s, co, answer);
    case Greeted(_) => GreetedKeeps(s, co, answer);
    case Capabilities(_, _, _) => CapabilitiesKeeps(s, co, answer);
    case Watching(_) => WatchingKeeps(s, co, answer);
    case Listening(_) => ListeningKeeps(s, co, answer);
  }

  lemma NextKeepsSound(s: State, m: Move)
    requires Sound(s) && Next(s, m).Some?
    ensures Sound(Next(s, m).value)
  {
    match m
    case Call(co, yankOnly) =>
      AnyCoroutine(s, 0, co);
      var a := if yankOnly then Yanking(None, QueryYank, Locking, s.nextCommand)
               else Executing(Locking, s.nextCommand, true);
      BeginKeeps(s, co, ShareOf(Idle), a);
      AnyCoroutine(Next(s, m).value, co, 0);
    case Run(co, answer) =>
      AnyCoroutine(s, 0, co);
      StepKeeps(s, co, answer);
      AnyCoroutine(Next(s, m).value, co, 0);
    case _ => SayKeeps(s, 0, ShareOf(s.acts[0]), m);
  }
}
