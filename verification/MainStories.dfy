/**
 What lies between entering a state and leaving it. Each run of the node is watched from outside: what the
 coroutine found at every resumption since its state was entered, and what the callbacks have reported. The
 ways out of the states are stated in these terms, as plans of stages that end one after another.
 */
module MainStories {
  import opened ColodTypes
  import opened EventQueueSpec
  import opened MainNode
  import opened MainInvariants
  import Runs

  /** One resumption: where the coroutine was, what it found there, and whether an interrupt is pending then. */
  datatype Seen = Seen(park: Park, outcome: Outcome, interrupt: bool)

  /** The node and what has been seen of it since it entered its state. */
  datatype Watched = Watched(node: Node, story: seq<Seen>)

  function Saw(n: Node, o: Outcome, r: Node): Seen {
    Seen(n.park, o, PendingInterrupt(r.queue.(interrupting := n.queue.interrupting)))
  }

  function WatchedNext(w: Watched, m: Move): Option<Watched> {
    var r := Next(w.node, m);
    if r.None? then None
    else if r.value.state != w.node.state then Some(Watched(r.value, []))
    else if m.Resume? then Some(Watched(r.value, w.story + [Saw(w.node, m.outcome, r.value)]))
    else Some(Watched(r.value, w.story))
  }

  function Begin(size: nat, primary: bool): Watched {
    Watched(Start(size, primary), [])
  }

  // ---- Plans ----

  /** A stage is named by its place; a checked one goes no further with an interrupt pending. */
  datatype Stage = Stage(park: Park, checked: bool)

  const MIGRATION: seq<Stage> :=
    [Stage(SetCapabilities, true), Stage(StartCommands, true), Stage(WaitPreSwitchover, false),
     Stage(SwitchoverCommands, true), Stage(MigrateContinue, true), Stage(WaitColo, false)]

  const PROMOTION: seq<Stage> := [Stage(Yank, false), Stage(FailoverCommands, false)]

  const SETTLING: seq<Stage> := [Stage(WaitResume, false), Stage(WaitResumeAgain, false), Stage(YellowDelay, false)]

  const ARRAYS: set<Park> := {StartCommands, SwitchoverCommands, FailoverCommands}

  const WAITS: set<Park> := {WaitPreSwitchover, WaitColo, WaitResume, WaitResumeAgain, YellowDelay}

  /**
   A command of an array has been answered, the failover's even by an error, no interrupt is found, and another
   command follows.
   */
  predicate Continues(s: Seen) {
    && s.park in ARRAYS && !s.interrupt
    && (s.outcome.CommandOk? || (s.park == FailoverCommands && s.outcome.CommandError?))
  }

  /** The stage has succeeded. */
  predicate Succeeds(s: Seen) {
    if s.park in ARRAYS then s.outcome.ArrayDone?
    else if s.park in WAITS then s.outcome.EventArrived?
    else s.outcome.CommandOk?
  }

  /** From stage `k`: on to the next when it has succeeded, and nowhere if it has not or an interrupt stops it. */
  function After(plan: seq<Stage>, k: nat, s: Seen): Option<nat> {
    if k >= |plan| || s.park != plan[k].park then None
    else if Continues(s) then Some(k)
    else if Succeeds(s) && !(plan[k].checked && s.interrupt) then Some(k + 1)
    else None
  }

  /** How many stages of the plan the story has completed, if it has followed the plan throughout. */
  function Reached(plan: seq<Stage>, story: seq<Seen>): Option<nat> {
    if story == [] then Some(0)
    else
      var k := Reached(plan, story[..|story| - 1]);
      if k.None? then None else After(plan, k.value, story[|story| - 1])
  }

  /** The node is at the stage that comes next. */
  predicate AtStage(plan: seq<Stage>, w: Watched) {
    var k := Reached(plan, w.story);
    k.Some? && k.value < |plan| && w.node.park == plan[k.value].park
  }

  lemma ReachedAfter(plan: seq<Stage>, story: seq<Seen>, s: Seen)
    ensures var k := Reached(plan, story);
      Reached(plan, story + [s]) == if k.None? then None else After(plan, k.value, s)
  {
    assert (story + [s])[..|story|] == story;
  }

  /** Each state's plan, while it follows one. */
  predicate StoryFits(w: Watched) {
    match w.node.state
    case StatePrimaryStartMigration =>
      w.node.park == PopInterrupt || w.node.park.MigrateCancel? || AtStage(MIGRATION, w)
    case StateFailover => AtStage(PROMOTION, w)
    case StatePrimaryColoRunning => w.node.park == PopEvent || AtStage(SETTLING, w)
    case StateFailed => if w.node.park == Stop then w.story == [] else w.story != [] && w.story[0].park == Stop
    case _ => true
  }

  /** The migration's start commands have ended, with no interrupt pending. */
  predicate Started(story: seq<Seen>) {
    exists i :: 0 <= i < |story| && story[i].park == StartCommands && Succeeds(story[i]) && !story[i].interrupt
  }

  /** Past the point from which the roles are changing. */
  predicate ChangesRoles(w: Watched) {
    || (w.node.state == StateFailover && w.story != [])
    || (w.node.state == StatePrimaryStartMigration && Started(w.story))
  }

  /** What interrupts the states that say so. */
  predicate InterruptsAre(n: Node) {
    match n.state
    case StateSecondaryWait => n.queue.interrupting == AlwaysInterrupting + DISCARDED_IN_WAIT
    case StateFailover => n.queue.interrupting == AlwaysInterrupting
    case _ => true
  }

  predicate StateFits(w: Watched) {
    (w.node.status.transitioning <==> ChangesRoles(w)) && InterruptsAre(w.node)
  }

  predicate WatchInv(w: Watched) {
    Inv(w.node) && StoryFits(w) && StateFits(w)
  }

  lemma BecomeState(n: Node, s: MainState)
    requires s !in {StatePrimaryStartup, StateFailedPeerFailover}
    ensures Become(n, s).state == s
    ensures Become(n, s).queue == n.queue.(interrupting := Become(n, s).queue.interrupting)
  {
  }

  // ---- The migration ----

  /** Where the migration goes from one of its stages. */
  predicate MigrationGoes(k: Option<nat>, o: Outcome, r: Node) {
    match k
    case Some(i) =>
      if i == |MIGRATION| then r.state == StatePrimaryColoRunning
      else i < |MIGRATION| && r.state == StatePrimaryStartMigration && r.park == MIGRATION[i].park
    case None =>
      if o.CommandError? then r.state == StatePrimaryStartMigration && r.park == MigrateCancel(EventFailoverSync)
      else if o.CommandFailed? || o.WaitTimedOut? then r.state == StateFailed
      else r.state == StatePrimaryStartMigration && r.park == PopInterrupt
  }

  /** The interrupts of the migration. */
  lemma MigrationQueue(n: Node)
    requires Inv(n) && n.state == StatePrimaryStartMigration
    ensures n.queue.interrupting == AlwaysInterrupting + SYNC_ONLY
  {
  }

  predicate StageGoes(n: Node, o: Outcome, i: nat) {
    Enabled(n, o) ==> MigrationGoes(After(MIGRATION, i, Saw(n, o, Step(n, o))), o, Step(n, o))
  }

  /** A command's report says nothing about where the node is. */
  lemma ReportStays(n: Node, o: Outcome)
    ensures var m := AfterCommand(n, o);
      && m.state == n.state && m.park == n.park && m.primary == n.primary && m.link == n.link
      && m.queue == m.queue.(interrupting := n.queue.interrupting)
      && (o.EventArrived? || o.WaitTimedOut? || o.Interrupted? || o.Serve? ==> m == n)
  {
  }

  lemma CommandStageEnds(n: Node, o: Outcome, i: nat)
    requires n.state == StatePrimaryStartMigration && i in {0, 4} && n.park == MIGRATION[i].park
    ensures StageGoes(n, o, i)
  {
    hide Become, AfterCommand, PendingInterrupt;
    ReportStays(n, o);
    BecomeState(AfterCommand(n, o), StateFailed);
  }

  lemma ArrayStageEnds(n: Node, o: Outcome, i: nat)
    requires n.state == StatePrimaryStartMigration && i in {1, 3} && n.park == MIGRATION[i].park
    ensures StageGoes(n, o, i)
  {
    hide Become, AfterCommand, PendingInterrupt;
    ReportStays(n, o);
    BecomeState(AfterCommand(n, o), StateFailed);
  }

  lemma WaitStageEnds(n: Node, o: Outcome, i: nat)
    requires n.state == StatePrimaryStartMigration && i in {2, 5} && n.park == MIGRATION[i].park
    ensures StageGoes(n, o, i)
  {
    hide Become;
    BecomeState(n, StateFailed);
    BecomeState(n, StatePrimaryColoRunning);
  }

  lemma MigrationStageEnds(w: Watched, o: Outcome)
    requires w.node.state == StatePrimaryStartMigration && AtStage(MIGRATION, w) && Enabled(w.node, o)
    ensures var r := Step(w.node, o);
      MigrationGoes(Reached(MIGRATION, w.story + [Saw(w.node, o, r)]), o, r)
  {
    hide Step, After, MigrationGoes;
    var n, i := w.node, Reached(MIGRATION, w.story).value;
    ReachedAfter(MIGRATION, w.story, Saw(n, o, Step(n, o)));
    if i in {0, 4} {
      CommandStageEnds(n, o, i);
    } else if i in {1, 3} {
      ArrayStageEnds(n, o, i);
    } else {
      WaitStageEnds(n, o, i);
    }
  }

  /** A migration that is being cancelled ends in the wait for the outcome, or fails. */
  lemma CancelEnds(n: Node, o: Outcome)
    requires Inv(n) && n.state == StatePrimaryStartMigration && n.park.MigrateCancel? && Enabled(n, o)
    ensures Step(n, o).state == if o.CommandOk? then StateFailoverSync else StateFailed
  {
    hide Become, AfterCommand;
    ReportStays(n, o);
    BecomeState(AfterCommand(n, o), StateFailed);
    BecomeState(AfterCommand(n, o), StateFailoverSync);
  }

  /** The interrupt that stopped it cancels the migration, or ends in a failed state. */
  lemma InterruptEnds(n: Node)
    requires Inv(n) && n.state == StatePrimaryStartMigration && n.park == PopInterrupt
    ensures Enabled(n, Serve)
    ensures var r := Step(n, Serve);
      if Head(n.queue) == EventFailoverSync then r.state == n.state && r.park == MigrateCancel(EventFailoverSync)
      else r.state in FAILED_STATES
  {
    MigrationQueue(n);
    assert Head(n.queue) in n.queue.interrupting;
  }

  // ---- The failover ----

  predicate PromotionGoes(k: Option<nat>, r: Node) {
    match k
    case Some(i) =>
      if i == |PROMOTION| then r.state == StatePrimaryWait
      else i < |PROMOTION| && r.state == StateFailover && r.park == PROMOTION[i].park
    case None => r.state == StateFailed
  }

  lemma PromotionStageEnds(w: Watched, o: Outcome)
    requires w.node.state == StateFailover && AtStage(PROMOTION, w) && Enabled(w.node, o)
    ensures var r := Step(w.node, o); PromotionGoes(Reached(PROMOTION, w.story + [Saw(w.node, o, r)]), r)
  {
    hide Become, AfterCommand, PendingInterrupt;
    var n := w.node;
    ReachedAfter(PROMOTION, w.story, Saw(n, o, Step(n, o)));
    ReportStays(n, o);
    BecomeState(n, StateFailed);
    BecomeState(AfterCommand(n, o), StateFailed);
    BecomeState(AfterCommand(n, o), StatePrimaryWait);
  }

  // ---- A new primary settles ----

  predicate SettlingGoes(k: Option<nat>, n: Node, r: Node) {
    match k
    case Some(i) =>
      if i == |SETTLING| && n.link.yellow && !n.link.peerYellow then r.state == StateFailed
      else r.state == n.state && r.park == if i < |SETTLING| then SETTLING[i].park else PopEvent
    case None => r.state == n.state && r.park == PopEvent
  }

  lemma SettlingStageEnds(w: Watched, o: Outcome)
    requires w.node.state == StatePrimaryColoRunning && AtStage(SETTLING, w) && Enabled(w.node, o)
    ensures var r := Step(w.node, o); SettlingGoes(Reached(SETTLING, w.story + [Saw(w.node, o, r)]), w.node, r)
  {
    hide Become, PendingInterrupt;
    var n := w.node;
    ReachedAfter(SETTLING, w.story, Saw(n, o, Step(n, o)));
    BecomeState(n, StateFailed);
  }

  // ---- Every run ----

  lemma BeginFits(size: nat, primary: bool)
    ensures WatchInv(Begin(size, primary))
  {
    StartInv(size, primary);
  }

  lemma EventKeepsWatch(w: Watched, c: Callback)
    requires WatchInv(w) && CallbackEnabled(w.node, c)
    ensures WatchInv(WatchedNext(w, Event(c)).value)
  {
    hide Inv, Call;
    CallKeepsInv(w.node, c);
    CallStays(w.node, c);
    CallKeepsTransition(w.node, c);
  }

  lemma CallKeepsTransition(n: Node, c: Callback)
    ensures Call(n, c).status.transitioning == n.status.transitioning
  {
    if !c.QemuHup? {
      CallbackFlags(n, c);
    }
  }

  /** Entering a state puts the node at the first stage of that state's plan. */
  predicate Fits(n: Node) {
    StoryFits(Watched(n, [])) && StateFits(Watched(n, []))
  }

  lemma EveryBecomeFits()
    ensures forall n, s :: Fits(Become(n, s))
  {
    forall n, s ensures Fits(Become(n, s)) {
      BecomeFits(n, s);
    }
  }

  lemma BecomeFits(n: Node, s: MainState)
    ensures Fits(Become(n, s))
  {
  }

  lemma StepEnters(n: Node, o: Outcome)
    requires Inv(n) && Enabled(n, o) && Step(n, o).state != n.state
    ensures Fits(Step(n, o))
  {
    hide Fits, Become, Inv;
    EveryBecomeFits();
    if o.Serve? {
      ServeEnters(n);
    } else if n.state == StatePrimaryStartMigration {
      MigrationEnters(n, o);
    } else {
      ReportStays(n, o);
      OtherEnters(n, o);
    }
  }

  lemma ServeEnters(n: Node)
    requires Inv(n) && Enabled(n, Serve) && Step(n, Serve).state != n.state
    ensures Fits(Step(n, Serve))
  {
    hide Fits, Become;
    EveryBecomeFits();
  }

  lemma MigrationEnters(n: Node, o: Outcome)
    requires Enabled(n, o) && !o.Serve? && n.state == StatePrimaryStartMigration
    requires Step(n, o).state != n.state
    ensures Fits(Step(n, o))
  {
    hide Fits, Become, AfterCommand, PendingInterrupt;
    EveryBecomeFits();
    ReportStays(n, o);
  }

  lemma OtherEnters(n: Node, o: Outcome)
    requires Enabled(n, o) && !o.Serve? && n.state != StatePrimaryStartMigration && Step(n, o).state != n.state
    ensures Fits(Step(n, o))
  {
    hide Fits, Become, AfterCommand, PendingInterrupt;
    EveryBecomeFits();
    ReportStays(n, o);
  }

  lemma StartedAfter(story: seq<Seen>, s: Seen)
    ensures Started(story + [s]) <==>
      Started(story) || (s.park == StartCommands && Succeeds(s) && !s.interrupt)
  {
    if Started(story) {
      var i :| 0 <= i < |story| && story[i].park == StartCommands && Succeeds(story[i]) && !story[i].interrupt;
      assert (story + [s])[i] == story[i];
    }
    assert (story + [s])[|story|] == s;
  }

  /** Staying in its state, a node changes nothing of what interrupts it; two steps begin the change of roles. */
  predicate StaysSo(n: Node, o: Outcome, r: Node) {
    && r.queue.interrupting == n.queue.interrupting
    && (r.status.transitioning <==>
          || n.status.transitioning || (n.state == StateFailover && n.park == Yank)
          || (n.state == StatePrimaryStartMigration && n.park == StartCommands && o.ArrayDone?
              && !Saw(n, o, r).interrupt))
  }

  lemma ServeStays(n: Node)
    requires Inv(n) && Enabled(n, Serve) && Step(n, Serve).state == n.state
    ensures StaysSo(n, Serve, Step(n, Serve))
  {
    hide Become;
    EveryBecomeGoes();
  }

  /** The state that is entered in the end. */
  function Entered(s: MainState): MainState {
    match s
    case StatePrimaryStartup => StatePrimaryWait
    case StateFailedPeerFailover => StateFailed
    case _ => s
  }

  lemma EveryBecomeGoes()
    ensures forall n, s :: Become(n, s).state == Entered(s)
  {
    forall n, s ensures Become(n, s).state == Entered(s) {
      BecomeGoes(n, s);
    }
  }

  lemma BecomeGoes(n: Node, s: MainState)
    ensures Become(n, s).state == Entered(s)
  {
  }

  lemma MigrationStaysSo(n: Node, o: Outcome)
    requires Enabled(n, o) && !o.Serve? && n.state == StatePrimaryStartMigration && Step(n, o).state == n.state
    ensures StaysSo(n, o, Step(n, o))
  {
    hide Become, AfterCommand, PendingInterrupt;
    ReportStays(n, o);
    ReportKeepsStatus(n, o);
    EveryBecomeGoes();
  }

  lemma ReportKeepsStatus(n: Node, o: Outcome)
    ensures AfterCommand(n, o).status == n.status
  {
  }

  lemma OutcomeStaysSo(n: Node, o: Outcome)
    requires Inv(n) && Enabled(n, o) && !o.Serve? && n.state != StatePrimaryStartMigration
    requires Step(n, o).state == n.state
    ensures StaysSo(n, o, Step(n, o))
  {
    hide Become, AfterCommand, PendingInterrupt;
    ReportStays(n, o);
    ReportKeepsStatus(n, o);
    EveryBecomeGoes();
  }

  lemma StayKeepsState(w: Watched, o: Outcome)
    requires WatchInv(w) && Enabled(w.node, o) && Step(w.node, o).state == w.node.state
    ensures StateFits(WatchedNext(w, Resume(o)).value)
  {
    hide Inv, Step;
    var n := w.node;
    if o.Serve? {
      ServeStays(n);
      ServePlaces(n);
    } else if n.state == StatePrimaryStartMigration {
      MigrationStaysSo(n, o);
    } else {
      OutcomeStaysSo(n, o);
    }
    StartedAfter(w.story, Saw(n, o, Step(n, o)));
  }

  lemma ServePlaces(n: Node)
    requires Inv(n) && Enabled(n, Serve)
    ensures n.park != StartCommands && n.state != StateFailover
  {
  }

  /** A resumption that stays in the state goes on with the plan or leaves it. */
  lemma StepStays(w: Watched, o: Outcome)
    requires WatchInv(w) && Enabled(w.node, o) && Step(w.node, o).state == w.node.state
    ensures StoryFits(WatchedNext(w, Resume(o)).value)
  {
    hide Inv, Step, Reached;
    var n := w.node;
    if n.state == StatePrimaryStartMigration {
      MigrationStays(w, o);
    } else if n.state == StateFailover {
      PromotionStageEnds(w, o);
    } else if n.state == StatePrimaryColoRunning && AtStage(SETTLING, w) {
      SettlingStageEnds(w, o);
    } else if n.state == StatePrimaryColoRunning {
      ColoStays(n, o);
    } else if n.state == StateFailed {
      FailedStays(n, o);
    }
  }

  lemma FailedStays(n: Node, o: Outcome)
    requires Inv(n) && n.state == StateFailed && Enabled(n, o) && Step(n, o).state == n.state
    ensures n.park in {Stop, PopEvent} && Step(n, o).park == PopEvent
  {
    hide Become;
    EveryBecomeGoes();
  }

  lemma MigrationStays(w: Watched, o: Outcome)
    requires WatchInv(w) && Enabled(w.node, o) && w.node.state == StatePrimaryStartMigration
    requires Step(w.node, o).state == w.node.state
    ensures StoryFits(WatchedNext(w, Resume(o)).value)
  {
    hide Inv, Step, Reached;
    if AtStage(MIGRATION, w) {
      MigrationStageEnds(w, o);
    } else if w.node.park == PopInterrupt {
      InterruptEnds(w.node);
    } else {
      CancelEnds(w.node, o);
    }
  }

  lemma ColoStays(n: Node, o: Outcome)
    requires n.state == StatePrimaryColoRunning && n.park == PopEvent && Enabled(n, o)
    requires Step(n, o).state == n.state
    ensures Step(n, o).park == PopEvent
  {
    hide Become;
    EveryBecomeGoes();
  }

  lemma NextKeepsWatch(w: Watched, m: Move)
    requires WatchInv(w) && WatchedNext(w, m).Some?
    ensures WatchInv(WatchedNext(w, m).value)
  {
    hide Inv, Step, Call, StoryFits, StateFits;
    ApplyKeepsInv(w.node, m);
    match m
    case Event(c) => EventKeepsWatch(w, c);
    case Resume(o) =>
      if Step(w.node, o).state == w.node.state {
        StepStays(w, o);
        StayKeepsState(w, o);
      } else {
        StepEnters(w.node, o);
      }
  }

  lemma RunKeepsWatch(size: nat, primary: bool, moves: seq<Move>, w: Watched)
    requires Runs.Reaches(WatchedNext, Begin(size, primary), moves, w)
    ensures WatchInv(w)
  {
    hide WatchInv, WatchedNext;
    BeginFits(size, primary);
    forall t, m | WatchInv(t) && WatchedNext(t, m).Some? ensures WatchInv(WatchedNext(t, m).value) {
      NextKeepsWatch(t, m);
    }
    Runs.Invariant(WatchedNext, WatchInv, Begin(size, primary), moves, w);
  }

  // ---- What the plans mean ----

  /** The stages that have succeeded, in order. */
  function Milestones(story: seq<Seen>): seq<Park> {
    if story == [] then []
    else
      var before, s := Milestones(story[..|story| - 1]), story[|story| - 1];
      if Succeeds(s) && !Continues(s) then before + [s.park] else before
  }

  /** Every command was answered as it should be, and every wait ended with its event. */
  predicate Unfailing(story: seq<Seen>) {
    forall i :: 0 <= i < |story| ==> Continues(story[i]) || Succeeds(story[i])
  }

  function Places(plan: seq<Stage>): seq<Park> {
    seq(|plan|, i requires 0 <= i < |plan| => plan[i].park)
  }

  lemma {:induction false} PlanMeans(plan: seq<Stage>, story: seq<Seen>)
    requires Reached(plan, story).Some?
    ensures var k := Reached(plan, story).value;
      k <= |plan| && Milestones(story) == Places(plan)[..k] && Unfailing(story)
    decreases |story|
  {
    if story != [] {
      var last := |story| - 1;
      PlanMeans(plan, story[..last]);
      forall i | 0 <= i < |story| ensures Continues(story[i]) || Succeeds(story[i]) {
        if i < last {
          assert story[..last][i] == story[i];
        }
      }
    }
  }

  lemma PlanDone(plan: seq<Stage>, story: seq<Seen>)
    ensures Reached(plan, story) == Some(|plan|) ==> Milestones(story) == Places(plan) && Unfailing(story)
  {
    if Reached(plan, story) == Some(|plan|) {
      PlanMeans(plan, story);
      assert Places(plan)[..|plan|] == Places(plan);
    }
  }

  lemma PlansAre()
    ensures Places(MIGRATION) == [SetCapabilities, StartCommands, WaitPreSwitchover, SwitchoverCommands,
                                  MigrateContinue, WaitColo]
    ensures Places(PROMOTION) == [Yank, FailoverCommands]
    ensures Places(SETTLING) == [WaitResume, WaitResumeAgain, YellowDelay]
  {
  }

  /** The story of the state that `o` may end. */
  function Told(w: Watched, o: Outcome): seq<Seen>
    requires Enabled(w.node, o)
  {
    w.story + [Saw(w.node, o, Step(w.node, o))]
  }

  /**
   In every run: a migration comes to COLO exactly when its six stages have ended one after another, each with
   success and, where that is checked, with no interrupt pending.
   */
  lemma MigrationInOrder(size: nat, primary: bool, moves: seq<Move>, w: Watched, o: Outcome)
    requires Runs.Reaches(WatchedNext, Begin(size, primary), moves, w)
    requires w.node.state == StatePrimaryStartMigration && Enabled(w.node, o)
    ensures Step(w.node, o).state == StatePrimaryColoRunning <==> Reached(MIGRATION, Told(w, o)) == Some(|MIGRATION|)
    ensures Step(w.node, o).state == StatePrimaryColoRunning ==>
      && Unfailing(Told(w, o))
      && Milestones(Told(w, o)) == [SetCapabilities, StartCommands, WaitPreSwitchover, SwitchoverCommands,
                                    MigrateContinue, WaitColo]
  {
    hide Step, Inv, Reached, Milestones, Unfailing;
    RunKeepsWatch(size, primary, moves, w);
    MigrationEnds(w, o);
    PlanDone(MIGRATION, Told(w, o));
    PlansAre();
  }

  lemma MigrationEnds(w: Watched, o: Outcome)
    requires WatchInv(w) && w.node.state == StatePrimaryStartMigration && Enabled(w.node, o)
    ensures Step(w.node, o).state == StatePrimaryColoRunning <==> Reached(MIGRATION, Told(w, o)) == Some(|MIGRATION|)
  {
    hide Inv, Step, Reached, After;
    if AtStage(MIGRATION, w) {
      MigrationStageEnds(w, o);
    } else {
      ReachedAfter(MIGRATION, w.story, Saw(w.node, o, Step(w.node, o)));
      OffPlan(w, o);
      if w.node.park == PopInterrupt {
        InterruptEnds(w.node);
      } else {
        CancelEnds(w.node, o);
      }
    }
  }

  /** A migration that has left its plan never comes back to it. */
  lemma OffPlan(w: Watched, o: Outcome)
    requires Enabled(w.node, o) && (w.node.park == PopInterrupt || w.node.park.MigrateCancel?)
    ensures Reached(MIGRATION, w.story).Some? ==>
      After(MIGRATION, Reached(MIGRATION, w.story).value, Saw(w.node, o, Step(w.node, o))).None?
  {
  }

  /**
   In every run, what ends a stage otherwise decides how the migration fails: an error reply cancels it for a
   failover, no reply or a timeout fails the node, and an interrupt is served next. The interrupt cancels it if it
   is a request to fail over and ends in a failed state if not, and only a cancelled migration waits for the outcome.
   */
  lemma MigrationFails(size: nat, primary: bool, moves: seq<Move>, w: Watched, o: Outcome)
    requires Runs.Reaches(WatchedNext, Begin(size, primary), moves, w)
    requires w.node.state == StatePrimaryStartMigration && Enabled(w.node, o)
    ensures var n, r := w.node, Step(w.node, o);
      if n.park == PopInterrupt then
        if Head(n.queue) == EventFailoverSync then r.state == n.state && r.park == MigrateCancel(EventFailoverSync)
        else r.state in FAILED_STATES
      else if n.park.MigrateCancel? then r.state == if o.CommandOk? then StateFailoverSync else StateFailed
      else MigrationGoes(Reached(MIGRATION, Told(w, o)), o, r)
  {
    RunKeepsWatch(size, primary, moves, w);
    if w.node.park == PopInterrupt {
      InterruptEnds(w.node);
    } else if w.node.park.MigrateCancel? {
      CancelEnds(w.node, o);
    } else {
      MigrationStageEnds(w, o);
    }
  }

  /**
   In every run: a failover ends in PRIMARY_WAIT exactly when the yank has succeeded and every command of the
   array has been answered, with no interrupt pending before the last; a failed yank, a command without a reply and
   an interrupt end in FAILED.
   */
  lemma PromotionInOrder(size: nat, primary: bool, moves: seq<Move>, w: Watched, o: Outcome)
    requires Runs.Reaches(WatchedNext, Begin(size, primary), moves, w)
    requires w.node.state == StateFailover && Enabled(w.node, o)
    ensures Step(w.node, o).state == StatePrimaryWait <==> Reached(PROMOTION, Told(w, o)) == Some(|PROMOTION|)
    ensures Step(w.node, o).state == StatePrimaryWait ==>
      && o.ArrayDone? && Unfailing(Told(w, o))
      && Milestones(Told(w, o)) == [Yank, FailoverCommands]
    ensures Step(w.node, o).state == StateFailed <==>
      o.CommandFailed? || o.Interrupted? ||
      (w.node.park == FailoverCommands && !o.ArrayDone? && Saw(w.node, o, Step(w.node, o)).interrupt)
    ensures Step(w.node, o).state in {StateFailover, StatePrimaryWait, StateFailed}
  {
    hide Step, Inv, Reached, Milestones, Unfailing;
    RunKeepsWatch(size, primary, moves, w);
    PromotionStageEnds(w, o);
    PromotionOutcomes(w, o);
    PlanDone(PROMOTION, Told(w, o));
    PlansAre();
  }

  /** Which outcomes go where, at each of its stages. */
  lemma PromotionOutcomes(w: Watched, o: Outcome)
    requires WatchInv(w) && w.node.state == StateFailover && Enabled(w.node, o)
    ensures var k, s := Reached(PROMOTION, Told(w, o)), Saw(w.node, o, Step(w.node, o));
      && (k == Some(|PROMOTION|) ==> o.ArrayDone?)
      && (k.None? <==> o.CommandFailed? || o.Interrupted? ||
                       (w.node.park == FailoverCommands && !o.ArrayDone? && s.interrupt))
  {
    hide Step, Inv;
    ReachedAfter(PROMOTION, w.story, Saw(w.node, o, Step(w.node, o)));
  }

  /** In every run: a failed node has run the command that stops QEMU before it serves anything. */
  lemma FailedStopsFirst(size: nat, primary: bool, moves: seq<Move>, w: Watched)
    requires Runs.Reaches(WatchedNext, Begin(size, primary), moves, w)
    requires w.node.state == StateFailed && Enabled(w.node, Serve)
    ensures w.story != [] && w.story[0].park == Stop
  {
    RunKeepsWatch(size, primary, moves, w);
  }

  /**
   In every run: a new primary looks at the links, and fails if it alone is yellow, exactly when it has been
   resumed twice and its delay has passed; an interrupt before that takes it to its events.
   */
  lemma SettlesInOrder(size: nat, primary: bool, moves: seq<Move>, w: Watched, o: Outcome)
    requires Runs.Reaches(WatchedNext, Begin(size, primary), moves, w)
    requires w.node.state == StatePrimaryColoRunning && w.node.park != PopEvent && Enabled(w.node, o)
    ensures SettlingGoes(Reached(SETTLING, Told(w, o)), w.node, Step(w.node, o))
    ensures Reached(SETTLING, Told(w, o)).None? <==> o.Interrupted?
    ensures Reached(SETTLING, Told(w, o)) == Some(|SETTLING|) ==>
      Milestones(Told(w, o)) == [WaitResume, WaitResumeAgain, YellowDelay]
  {
    hide Step, Inv, Reached, Milestones, Unfailing;
    RunKeepsWatch(size, primary, moves, w);
    SettlingStageEnds(w, o);
    SettlingOutcomes(w, o);
    PlanDone(SETTLING, Told(w, o));
    PlansAre();
  }

  lemma SettlingOutcomes(w: Watched, o: Outcome)
    requires WatchInv(w) && w.node.state == StatePrimaryColoRunning && w.node.park != PopEvent && Enabled(w.node, o)
    ensures Reached(SETTLING, Told(w, o)).None? <==> o.Interrupted?
  {
    hide Step, Inv;
    ReachedAfter(SETTLING, w.story, Saw(w.node, o, Step(w.node, o)));
  }

  /**
   In every run: a secondary waits for its peer once QEMU has taken its first command, fails if it has not, and
   joins the replication exactly when QEMU is resumed.
   */
  lemma SecondaryInOrder(size: nat, primary: bool, moves: seq<Move>, w: Watched, o: Outcome)
    requires Runs.Reaches(WatchedNext, Begin(size, primary), moves, w) && Enabled(w.node, o)
    ensures w.node.state == StateSecondaryStartup ==>
      Step(w.node, o).state == if o.CommandOk? then StateSecondaryWait else StateFailed
    ensures w.node.state == StateSecondaryWait ==>
      (Step(w.node, o).state == StateSecondaryColoRunning <==> o.EventArrived?)
  {
    RunKeepsWatch(size, primary, moves, w);
    if w.node.state == StateSecondaryStartup {
      StartupEnds(w.node, o);
    } else if w.node.state == StateSecondaryWait {
      WaitEnds(w.node, o);
    }
  }

  lemma StartupEnds(n: Node, o: Outcome)
    requires Inv(n) && n.state == StateSecondaryStartup && Enabled(n, o)
    ensures Step(n, o).state == if o.CommandOk? then StateSecondaryWait else StateFailed
  {
    hide Become, AfterCommand;
    BecomeState(AfterCommand(n, o), StateSecondaryWait);
    BecomeState(AfterCommand(n, o), StateFailed);
  }

  lemma WaitEnds(n: Node, o: Outcome)
    requires Inv(n) && n.state == StateSecondaryWait && Enabled(n, o)
    ensures Step(n, o).state == StateSecondaryColoRunning <==> o.EventArrived?
  {
  }

  /** In every run a client is told of a transition exactly while the roles are changing. */
  lemma TransitioningIff(size: nat, primary: bool, moves: seq<Move>, w: Watched)
    requires Runs.Reaches(WatchedNext, Begin(size, primary), moves, w)
    ensures w.node.status.transitioning <==> ChangesRoles(w)
  {
    RunKeepsWatch(size, primary, moves, w);
  }

  /**
   In every run: a waiting secondary is interrupted by whatever is pending but a request to migrate; a migration,
   the replication and the wait for the outcome by a request to fail over and what always interrupts; and a
   failover only by what always does.
   */
  lemma WhatInterrupts(size: nat, primary: bool, moves: seq<Move>, w: Watched)
    requires Runs.Reaches(WatchedNext, Begin(size, primary), moves, w)
    ensures var n := w.node;
      && (n.state == StateSecondaryWait ==>
            (PendingInterrupt(n.queue) <==> exists e :: e in n.queue.pending && e != EventStartMigration))
      && (n.state in {StatePrimaryStartMigration, StatePrimaryColoRunning, StateSecondaryColoRunning,
                      StateFailoverSync} ==>
            (PendingInterrupt(n.queue) <==>
             exists e :: e in n.queue.pending && e in AlwaysInterrupting + {EventFailoverSync}))
      && (n.state == StateFailover ==>
            (PendingInterrupt(n.queue) <==> exists e :: e in n.queue.pending && e in AlwaysInterrupting))
  {
    RunKeepsWatch(size, primary, moves, w);
    PendingInterruptIff(w.node.queue);
  }
}
