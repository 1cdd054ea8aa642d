/**
 Why sixteen frames are enough. A program whose calls only lead to bodies of lower rank never nests deeper
 than the rank of its first body; the daemon's call graph has such ranks, and nests nine bodies at most.
 */
module StackDepth {
  import opened NestedCalls
  import opened CoroutineStack
  import Runs

  ghost predicate Ranked<D(!new), W(!new)>(p: Program<D, W>, rank: nat -> nat) {
    forall fn: nat, pc: nat :: p.code(fn, pc).Call? ==> rank(p.code(fn, pc).callee) < rank(fn)
  }

  /** From the first body inwards the ranks fall. */
  ghost predicate Descending<D(!new), W(!new)>(p: Program<D, W>, rank: nat -> nat, stack: seq<Activation<D>>) {
    && (stack != [] ==> stack[0].fn == p.main)
    && forall i :: 0 <= i < |stack| - 1 ==> rank(stack[i + 1].fn) < rank(stack[i].fn)
  }

  /** Only the position or the record of the innermost activation changes. */
  lemma TopKeepsDescending<D(!new), W(!new)>(p: Program<D, W>, rank: nat -> nat, stack: seq<Activation<D>>,
                                             top: Activation<D>)
    requires Descending(p, rank, stack) && stack != [] && top.fn == stack[|stack| - 1].fn
    ensures Descending(p, rank, stack[|stack| - 1 := top])
  {
    var t := stack[|stack| - 1 := top];
    forall i | 0 <= i < |t| - 1 ensures rank(t[i + 1].fn) < rank(t[i].fn) {
      assert t[i].fn == stack[i].fn && t[i + 1].fn == stack[i + 1].fn;
    }
  }

  lemma PushKeepsDescending<D(!new), W(!new)>(p: Program<D, W>, rank: nat -> nat, stack: seq<Activation<D>>,
                                              a: Activation<D>)
    requires Descending(p, rank, stack) && stack != [] && rank(a.fn) < rank(stack[|stack| - 1].fn)
    ensures Descending(p, rank, stack + [a])
  {
    var t := stack + [a];
    forall i | 0 <= i < |t| - 1 ensures rank(t[i + 1].fn) < rank(t[i].fn) {
      if i < |stack| - 1 {
        assert t[i] == stack[i] && t[i + 1] == stack[i + 1];
      }
    }
  }

  lemma PopKeepsDescending<D(!new), W(!new)>(p: Program<D, W>, rank: nat -> nat, stack: seq<Activation<D>>)
    requires Descending(p, rank, stack) && stack != []
    ensures Descending(p, rank, stack[..|stack| - 1])
  {
    var t := stack[..|stack| - 1];
    forall i | 0 <= i < |t| - 1 ensures rank(t[i + 1].fn) < rank(t[i].fn) {
      assert t[i] == stack[i] && t[i + 1] == stack[i + 1];
    }
  }

  lemma RunKeepsDescending<D(!new), W(!new)>(p: Program<D, W>, rank: nat -> nat, n: Nested<D, W>)
    requires Ranked(p, rank) && n.stack != [] && Descending(p, rank, n.stack) && Run(p, n).Some?
    ensures Descending(p, rank, Run(p, n).value.stack)
  {
    var r, last := Run(p, n).value.stack, |n.stack| - 1;
    match Current(p, n.stack)
    case Act(_) => TopKeepsDescending(p, rank, n.stack, r[last]);
    case Call(callee, _) => PushKeepsDescending(p, rank, n.stack, r[last + 1]);
    case Return =>
      if last > 0 {
        PopKeepsDescending(p, rank, n.stack);
        TopKeepsDescending(p, rank, n.stack[..last], r[last - 1]);
      }
    case _ =>
  }

  lemma NextKeepsDescending<D(!new), W(!new)>(p: Program<D, W>, rank: nat -> nat, n: Nested<D, W>, move: Move<W>)
    requires Ranked(p, rank) && Descending(p, rank, n.stack) && NestedCalls.Next(p, n, move).Some?
    ensures Descending(p, rank, NestedCalls.Next(p, n, move).value.stack)
  {
    if move.Tick? {
      RunKeepsDescending(p, rank, n);
    } else if n.stack != [] && n.status.Suspended? {
      TopKeepsDescending(p, rank, n.stack, NestedCalls.Next(p, n, move).value.stack[|n.stack| - 1]);
    }
  }

  lemma {:induction false} DescendingRank<D(!new), W(!new)>(p: Program<D, W>, rank: nat -> nat,
                                                            stack: seq<Activation<D>>, i: nat)
    requires Descending(p, rank, stack) && i < |stack|
    ensures rank(stack[i].fn) + i <= rank(p.main)
  {
    if i > 0 {
      DescendingRank(p, rank, stack, i - 1);
    }
  }

  /** With ranks below sixteen the frame check never fails, and the frame stays within the rank of the first body. */
  lemma RankBoundsDepth<D(!new), W(!new)>(p: Program<D, W>, rank: nat -> nat, slots: seq<Slot<D>>, world: W,
                                          moves: seq<Move<W>>, m: Machine<D, W>)
    requires Disciplined(p) && Ranked(p, rank) && rank(p.main) < StackSize
    requires Zeroed(slots) && Runs.Reaches(CoroutineStack.Stepper(p), Created(slots, world), moves, m)
    ensures !m.mode.Overflow? && m.regs.frame <= rank(p.main)
  {
    var start := Nested([], Ready, world);
    var nested, n := RunSimulates(p, Created(slots, world), start, moves, m);
    var inv := (t: Nested<D, W>) => Descending(p, rank, t.stack);
    forall t, move | inv(t) && NestedCalls.Stepper(p)(t, move).Some?
      ensures inv(NestedCalls.Stepper(p)(t, move).value)
    {
      NextKeepsDescending(p, rank, t, move);
    }
    Runs.Invariant(NestedCalls.Stepper(p), inv, start, nested, n);
    if n.stack != [] {
      DescendingRank(p, rank, n.stack, |n.stack| - 1);
    }
    FrameWithinNest(p, m, n);
  }

  lemma FrameWithinNest<D(!new), W(!new)>(p: Program<D, W>, m: Machine<D, W>, n: Nested<D, W>)
    requires Related(p, m, n) && !m.mode.Overflow?
    ensures m.regs.frame == 0 || m.regs.frame < |n.stack|
  {
  }

  // ---- The daemon's bodies ----

  /**
   The bodies that run in a frame of their own. A wrapper that calls another body in its own frame is one
   with it. The `Plain` ones are called with `yank` false.
   */
  datatype Body =
    | MainCo | SecondaryWaitCo | ColoRunningCo | PrimaryWaitCo | StartMigrationCo | FailoverSyncCo | FailoverCo
    | ExecuteArrayCo | QmpEventWaitCo | EventWaitCo | QueryStatusCo
    | ClientCo | HandleQueryStatusCo | WatchdogCo | RaiseTimeoutCo
    | HandshakeCo | EventReaderCo | WaitEventCo
    | ExecuteCo | ReadLineCo | YankCo | PlainExecuteCo | PlainReadLineCo
    | ChannelReadCo | ChannelWriteCo
    | YellowCo | YellowDelayCo

  /** The bodies each calls through co_recurse. */
  function Calls(b: Body): set<Body> {
    match b
    case MainCo =>
      {ExecuteCo, SecondaryWaitCo, ColoRunningCo, PrimaryWaitCo, StartMigrationCo, FailoverSyncCo, FailoverCo,
       EventWaitCo}
    case SecondaryWaitCo => {QmpEventWaitCo, EventWaitCo}
    case ColoRunningCo => {QmpEventWaitCo, EventWaitCo}
    case PrimaryWaitCo => {EventWaitCo}
    case StartMigrationCo => {ExecuteCo, ExecuteArrayCo, QmpEventWaitCo, EventWaitCo}
    case FailoverSyncCo => {EventWaitCo}
    case FailoverCo => {YankCo, ExecuteArrayCo}
    case ExecuteArrayCo => {ExecuteCo}
    case QmpEventWaitCo => {WaitEventCo}
    case QueryStatusCo => {ExecuteCo}
    case ClientCo => {ChannelReadCo, HandleQueryStatusCo, YankCo, ExecuteCo, ChannelWriteCo}
    case HandleQueryStatusCo => {QueryStatusCo}
    case WatchdogCo => {QueryStatusCo}
    case RaiseTimeoutCo => {WaitEventCo}
    case HandshakeCo => {PlainReadLineCo, PlainExecuteCo}
    case EventReaderCo => {PlainReadLineCo}
    case ExecuteCo => {ChannelWriteCo, ReadLineCo}
    case ReadLineCo => {ChannelReadCo, YankCo, PlainReadLineCo}
    case YankCo => {PlainExecuteCo}
    case PlainExecuteCo => {ChannelWriteCo, PlainReadLineCo}
    case PlainReadLineCo => {ChannelReadCo}
    case YellowCo => {YellowDelayCo}
    case _ => {}
  }

  /** How many further bodies can nest in each. */
  function Rank(b: Body): nat {
    match b
    case MainCo => 8
    case ClientCo => 8
    case StartMigrationCo => 7
    case FailoverCo => 7
    case HandleQueryStatusCo => 7
    case WatchdogCo => 7
    case ExecuteArrayCo => 6
    case QueryStatusCo => 6
    case ExecuteCo => 5
    case ReadLineCo => 4
    case YankCo => 3
    case HandshakeCo => 3
    case SecondaryWaitCo => 2
    case ColoRunningCo => 2
    case PlainExecuteCo => 2
    case EventReaderCo => 2
    case PrimaryWaitCo => 1
    case FailoverSyncCo => 1
    case QmpEventWaitCo => 1
    case RaiseTimeoutCo => 1
    case PlainReadLineCo => 1
    case YellowCo => 1
    case _ => 0
  }

  /** The recursion of the QMP bodies is none: `yank` drops to false on the way down. */
  lemma CallsDescend(b: Body, c: Body)
    requires c in Calls(b)
    ensures Rank(c) < Rank(b)
  {
  }

  /** A program whose bodies call each other as the daemon's do. */
  ghost predicate Follows<D(!new), W(!new)>(p: Program<D, W>, body: nat -> Body) {
    forall fn: nat, pc: nat :: p.code(fn, pc).Call? ==> body(p.code(fn, pc).callee) in Calls(body(fn))
  }

  /**
   Whichever of the daemon's coroutines it is, whatever its bodies do between their calls, and however it is
   resumed: the frame check never fails, and the frame stays within the rank of its first body, at most eight.
   */
  lemma DaemonNeverOverflows<D(!new), W(!new)>(p: Program<D, W>, body: nat -> Body, slots: seq<Slot<D>>, world: W,
                                               moves: seq<Move<W>>, m: Machine<D, W>)
    requires Disciplined(p) && Follows(p, body)
    requires Zeroed(slots) && Runs.Reaches(CoroutineStack.Stepper(p), Created(slots, world), moves, m)
    ensures !m.mode.Overflow? && m.regs.frame <= Rank(body(p.main)) <= 8
  {
    var rank := (fn: nat) => Rank(body(fn));
    forall fn: nat, pc: nat | p.code(fn, pc).Call? ensures rank(p.code(fn, pc).callee) < rank(fn) {
      CallsDescend(body(fn), body(p.code(fn, pc).callee));
    }
    RankBoundsDepth(p, rank, slots, world, moves, m);
  }

  /** `nest` is a chain of calls. */
  predicate IsNest(nest: seq<Body>) {
    forall i :: 0 <= i < |nest| - 1 ==> nest[i + 1] in Calls(nest[i])
  }

  lemma {:induction false} NestBounded(nest: seq<Body>)
    requires IsNest(nest) && nest != []
    ensures |nest| <= Rank(nest[0]) + 1
  {
    if |nest| > 1 {
      CallsDescend(nest[0], nest[1]);
      assert nest[1..][0] == nest[1];
      forall i | 0 <= i < |nest[1..]| - 1 ensures nest[1..][i + 1] in Calls(nest[1..][i]) {
        assert nest[i + 2] in Calls(nest[i + 1]);
      }
      NestBounded(nest[1..]);
    }
  }

  /** The body at a place of the nest. */
  function BodyAt(nest: seq<Body>): nat -> Body {
    (fn: nat) => if fn < |nest| then nest[fn] else ChannelReadCo
  }

  /** A program whose bodies do nothing but call the next one of the nest. */
  function Chain(nest: seq<Body>): Program<int, int> {
    Program(0, (fn: nat, world: int) => 0,
            (fn: nat, pc: nat) => if pc == 0 && fn + 1 < |nest| then Call(fn + 1, 1) else Return,
            (fn: nat) => false)
  }

  lemma ChainFollows(nest: seq<Body>)
    requires IsNest(nest)
    ensures Disciplined(Chain(nest)) && Follows(Chain(nest), BodyAt(nest))
  {
    forall fn: nat, pc: nat | Chain(nest).code(fn, pc).Call?
      ensures BodyAt(nest)(Chain(nest).code(fn, pc).callee) in Calls(BodyAt(nest)(fn))
    {
      assert nest[fn + 1] in Calls(nest[fn]);
    }
  }

  /** The runtime has just called the body at place `k`. */
  ghost predicate Calling(m: Machine<int, int>, k: nat) {
    && m.mode.Entering? && m.regs.frame == k && |m.host| == k + 1 && m.host[k] == Host(k, 0)
    && Zeroed(m.regs.stack)
    && forall i :: 0 <= i <= k ==> m.host[i].fn == i
  }

  lemma CallsOn(nest: seq<Body>, m: Machine<int, int>, k: nat) returns (r: Machine<int, int>)
    requires Calling(m, k) && k + 1 < |nest| <= StackSize
    ensures Calling(r, k + 1)
    ensures Runs.Reaches(CoroutineStack.Stepper(Chain(nest)), m, [Tick] + [Tick], r)
  {
    var p := Chain(nest);
    var m1 := CoroutineStack.Next(p, m, Tick).value;
    Runs.One(CoroutineStack.Stepper(p), m, Tick);
    r := CoroutineStack.Next(p, m1, Tick).value;
    Runs.Extend(CoroutineStack.Stepper(p), m, [Tick], m1, Tick);
  }

  lemma {:induction false} ChainReaches(nest: seq<Body>, slots: seq<Slot<int>>, world: int, k: nat)
    returns (moves: seq<Move<int>>, m: Machine<int, int>)
    requires k < |nest| <= StackSize && Zeroed(slots)
    ensures Runs.Reaches(CoroutineStack.Stepper(Chain(nest)), Created(slots, world), moves, m) && Calling(m, k)
    decreases k
  {
    var step := CoroutineStack.Stepper(Chain(nest));
    if k == 0 {
      Runs.One(step, Created(slots, world), Resume(world));
      moves, m := [Resume(world)], CoroutineStack.Next(Chain(nest), Created(slots, world), Resume(world)).value;
    } else {
      var a, m1 := ChainReaches(nest, slots, world, k - 1);
      m := CallsOn(nest, m1, k - 1);
      Runs.Concat(step, Created(slots, world), a, m1, [Tick] + [Tick], m);
      moves := a + ([Tick] + [Tick]);
    }
  }

  /** A command of the failover's array whose reply is late. */
  const DEEPEST: seq<Body> :=
    [MainCo, FailoverCo, ExecuteArrayCo, ExecuteCo, ReadLineCo, YankCo, PlainExecuteCo, PlainReadLineCo, ChannelReadCo]

  lemma DeepestIsNest()
    ensures IsNest(DEEPEST)
  {
  }

  /**
   The bound is reached: a program whose bodies call each other as the daemon's do comes to the ninth frame.
   */
  lemma DeepestNest(slots: seq<Slot<int>>, world: int)
    returns (p: Program<int, int>, body: nat -> Body, moves: seq<Move<int>>, m: Machine<int, int>)
    requires Zeroed(slots)
    ensures Disciplined(p) && Follows(p, body) && body(p.main) == MainCo
    ensures Runs.Reaches(CoroutineStack.Stepper(p), Created(slots, world), moves, m)
    ensures m.regs.frame == Rank(MainCo) == 8
    ensures |m.host| == |DEEPEST| && forall i :: 0 <= i < |DEEPEST| ==> body(m.host[i].fn) == DEEPEST[i]
  {
    hide Follows, Disciplined, CoroutineStack.Next, Calls;
    DeepestIsNest();
    ChainFollows(DEEPEST);
    p, body := Chain(DEEPEST), BodyAt(DEEPEST);
    moves, m := ChainReaches(DEEPEST, slots, world, 8);
  }
}
