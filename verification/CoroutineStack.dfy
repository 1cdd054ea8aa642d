/**
 The coroutine runtime: a stack of sixteen slots, each with a saved line and a local record, and host
 functions that are entered from the top on every resume and jump to the line saved in their slot. Proved
 to mean the same as the nested calls of `NestedCalls`: in lockstep, for every program and schedule.
 */
module CoroutineStack {
  import opened ColodTypes
  import opened NestedCalls
  import Runs

  /** A CoroutineFrame. Line 0 is a body's beginning, line `pc + 1` the yield or call at `pc`. */
  datatype Slot<D> = Slot(line: nat, data: D)

  /** The fields of a Coroutine, with `frame` as an index. */
  datatype Registers<D> = Registers(stack: seq<Slot<D>>, frame: nat, yielded: bool, value: int, quit: bool)

  /** An activation on the host's own call stack. */
  datatype Host = Host(fn: nat, pc: nat)

  /** What the host is doing; the last three are the aborts. */
  datatype Mode =
    | Idle            // outside co_enter
    | Entering        // the innermost host function has just been called
    | Executing       // it is at its `pc`
    | Returning       // it has returned
    | NoSuchLine      // the switch found no label for the saved line
    | NotAtBase       // co_enter found a finished coroutine, or one whose frame is not the first
    | Overflow        // a seventeenth frame was wanted

  datatype Machine<D, W> = Machine(regs: Registers<D>, host: seq<Host>, mode: Mode, world: W)

  const StackSize := 16

  function SetLine<D>(r: Registers<D>, frame: nat, line: nat): Registers<D>
    requires frame < |r.stack|
  {
    r.(stack := r.stack[frame := r.stack[frame].(line := line)])
  }

  function SetData<D>(r: Registers<D>, data: D): Registers<D>
    requires r.frame < |r.stack|
  {
    r.(stack := r.stack[r.frame := r.stack[r.frame].(data := data)])
  }

  /** co_enter up to the call of the body. */
  function BeginEnter<D, W>(p: Program<D, W>, m: Machine<D, W>, world: W): Machine<D, W> {
    if m.regs.quit || m.regs.frame != 0 then m.(mode := NotAtBase)
    else Machine(m.regs.(yielded := false), [Host(p.main, 0)], Entering, world)
  }

  /** co_enter after the body has returned. */
  function FinishEnter<D, W>(m: Machine<D, W>): Machine<D, W>
    requires m.regs.stack != []
  {
    if m.regs.frame != 0 then m.(mode := NotAtBase)
    else if m.regs.yielded then m.(host := [], mode := Idle)
    else m.(regs := SetLine(m.regs, 0, 0).(quit := true), host := [], mode := Idle)
  }

  /** The host stack with its innermost function at `pc`. */
  function Goto(host: seq<Host>, pc: nat): seq<Host>
    requires host != []
  {
    host[|host| - 1 := host[|host| - 1].(pc := pc)]
  }

  /** co_begin: the switch on the saved line. A resumed call statement is simply executed again. */
  function Dispatch<D, W>(p: Program<D, W>, m: Machine<D, W>): Machine<D, W>
    requires m.host != [] && m.regs.frame < |m.regs.stack|
  {
    var fn, line := m.host[|m.host| - 1].fn, m.regs.stack[m.regs.frame].line;
    if line == 0 then
      m.(regs := SetData(m.regs, p.init(fn, m.world)), host := Goto(m.host, 0), mode := Executing)
    else
      match p.code(fn, line - 1)
      case Yield(_, next) => m.(host := Goto(m.host, next), mode := Executing)
      case Call(_, _) => m.(host := Goto(m.host, line - 1), mode := Executing)
      case _ => m.(mode := NoSuchLine)
  }

  /** One statement of the innermost host function. */
  function Execute<D, W>(p: Program<D, W>, m: Machine<D, W>): Machine<D, W>
    requires m.host != [] && m.regs.frame < |m.regs.stack|
  {
    var r, top := m.regs, m.host[|m.host| - 1];
    match p.code(top.fn, top.pc)
    case Act(run) =>
      var (data, world, pc) := run(r.stack[r.frame].data, m.world);
      m.(regs := SetData(r, data), host := Goto(m.host, pc), world := world)
    case Yield(value, _) =>
      m.(regs := SetLine(r, r.frame, top.pc + 1).(yielded := true, value := value), mode := Returning)
    case Poll(value) => m.(regs := r.(yielded := true, value := value), mode := Returning)
    case Call(callee, _) =>
      if r.frame + 1 < StackSize then
        m.(regs := r.(frame := r.frame + 1), host := m.host + [Host(callee, 0)], mode := Entering)
      else m.(mode := Overflow)
    case Return => m.(mode := Returning)
  }

  /** co_recurse once its callee has returned: pass a yield on, or free the callee's slot and go on. */
  function AfterCall<D, W>(p: Program<D, W>, m: Machine<D, W>): Machine<D, W>
    requires |m.host| >= 2 && 0 < m.regs.frame < |m.regs.stack|
  {
    var r, host := m.regs.(frame := m.regs.frame - 1), m.host[..|m.host| - 1];
    var caller := host[|host| - 1];
    if r.yielded then m.(regs := SetLine(r, r.frame, caller.pc + 1), host := host)
    else
      match p.code(caller.fn, caller.pc)
      case Call(_, next) => m.(regs := SetLine(r, r.frame + 1, 0), host := Goto(host, next), mode := Executing)
      case _ => m.(regs := r, host := host, mode := NoSuchLine)
  }

  function Next<D, W>(p: Program<D, W>, m: Machine<D, W>, move: Move<W>): Option<Machine<D, W>> {
    if move.Resume? then
      if m.mode.Idle? then Some(BeginEnter(p, m, move.world)) else None
    else if m.host == [] || m.regs.frame >= |m.regs.stack| then None
    else
      match m.mode
      case Entering => Some(Dispatch(p, m))
      case Executing => Some(Execute(p, m))
      case Returning =>
        if |m.host| == 1 then Some(FinishEnter(m))
        else if m.regs.frame == 0 then None
        else Some(AfterCall(p, m))
      case _ => None
  }

  function Stepper<D, W>(p: Program<D, W>): (Machine<D, W>, Move<W>) -> Option<Machine<D, W>> {
    (m, move) => Next(p, m, move)
  }

  // ---- What the slots stand for ----

  /** Slot `i` holds what the suspended activation `i` needs to go on. */
  ghost predicate Parked<D>(slots: seq<Slot<D>>, stack: seq<Activation<D>>, i: nat)
    requires i < |stack| <= |slots|
  {
    slots[i] == Slot(stack[i].pc + 1, stack[i].data)
  }

  /** Activation `i` is executed by host function `i`, with its local record in slot `i`. */
  ghost predicate Hosted<D>(slots: seq<Slot<D>>, host: seq<Host>, stack: seq<Activation<D>>, i: nat)
    requires i < |host| <= |stack| <= |slots|
  {
    host[i] == Host(stack[i].fn, stack[i].pc) && slots[i].data == stack[i].data
  }

  /** Entering the innermost body through its slot leads to where its activation is to go on. */
  ghost predicate Reenters<D, W>(p: Program<D, W>, slot: Slot<D>, top: Activation<D>, world: W) {
    if slot.line == 0 then top == Start(p, top.fn, world)
    else
      var saved := p.code(top.fn, slot.line - 1);
      saved.Yield? && saved.next == top.pc && slot.data == top.data
  }

  /** Activation `i` is at the call of the next one. */
  ghost predicate CallsNext<D, W>(p: Program<D, W>, stack: seq<Activation<D>>, i: nat)
    requires i + 1 < |stack|
  {
    var caller := p.code(stack[i].fn, stack[i].pc);
    caller.Call? && caller.callee == stack[i + 1].fn
  }

  ghost predicate Nesting<D, W>(p: Program<D, W>, stack: seq<Activation<D>>) {
    && (stack != [] ==> stack[0].fn == p.main)
    && forall i :: 0 <= i < |stack| - 1 ==> CallsNext(p, stack, i)
  }

  /** The first `running` activations have host functions at their positions; the rest are in their slots. */
  ghost predicate Split<D, W>(p: Program<D, W>, m: Machine<D, W>, stack: seq<Activation<D>>, running: nat)
    requires running <= |m.host| <= |stack| <= |m.regs.stack|
  {
    && (forall i :: 0 <= i < running ==> Hosted(m.regs.stack, m.host, stack, i))
    && (forall i :: running <= i < |stack| - 1 ==> Parked(m.regs.stack, stack, i))
  }

  ghost predicate Suspends<D, W>(p: Program<D, W>, m: Machine<D, W>, n: Nested<D, W>) {
    && n.status == Suspended(m.regs.value) && 0 < |n.stack| <= |m.regs.stack|
    && if Current(p, n.stack).Yield? then Parked(m.regs.stack, n.stack, |n.stack| - 1)
       else Current(p, n.stack).Poll? && m.regs.stack[|n.stack| - 1].line == 0
  }

  /** The machine is on its way to, or at, where the running nested calls are. */
  ghost predicate Active<D, W>(p: Program<D, W>, m: Machine<D, W>, n: Nested<D, W>, running: nat) {
    && n.status.Running? && !m.regs.yielded && !m.regs.quit
    && 0 < |m.host| <= |n.stack| <= |m.regs.stack|
    && m.regs.frame == |m.host| - 1
    && running <= |m.host| && Split(p, m, n.stack, running)
    && (running < |n.stack| ==> Reenters(p, m.regs.stack[|n.stack| - 1], n.stack[|n.stack| - 1], n.world))
    && (p.polls(n.stack[|n.stack| - 1].fn) ==> m.regs.stack[|n.stack| - 1].line == 0)
  }

  /** A yield is being passed out to co_enter. */
  ghost predicate Unwinding<D, W>(p: Program<D, W>, m: Machine<D, W>, n: Nested<D, W>) {
    && m.regs.yielded && !m.regs.quit && Suspends(p, m, n)
    && 0 < |m.host| <= |n.stack| <= |m.regs.stack|
    && m.regs.frame == |m.host| - 1
    && Split(p, m, n.stack, |m.host| - 1)
  }

  ghost predicate AtRest<D, W>(p: Program<D, W>, m: Machine<D, W>, n: Nested<D, W>) {
    && m.host == [] && m.regs.frame == 0
    && if m.regs.quit then n.status.Finished? && n.stack == []
       else if n.stack == [] then n.status.Ready?
       else Suspends(p, m, n) && forall i :: 0 <= i < |n.stack| - 1 ==> Parked(m.regs.stack, n.stack, i)
  }

  /** The machine and the nested calls mean the same. */
  ghost predicate Related<D(!new), W(!new)>(p: Program<D, W>, m: Machine<D, W>, n: Nested<D, W>) {
    && Disciplined(p)
    && |m.regs.stack| == StackSize && m.world == n.world && Nesting(p, n.stack)
    && (forall i :: |n.stack| <= i < StackSize ==> m.regs.stack[i].line == 0)
    && match m.mode
       case Idle => AtRest(p, m, n)
       case Entering =>
         && Active(p, m, n, if m.host == [] then 0 else |m.host| - 1)
         && m.host[|m.host| - 1].fn == n.stack[|m.host| - 1].fn
       case Executing => Active(p, m, n, |m.host|)
       case Returning =>
         if m.regs.yielded then Unwinding(p, m, n)
         else Active(p, m, n, |m.host|) && |m.host| == |n.stack| && Current(p, n.stack).Return?
       case NotAtBase => n.status.Finished? && n.stack == [] && m.regs.frame == 0
       case Overflow => n.status.Running? && |n.stack| == StackSize + 1
       case NoSuchLine => false
  }

  /** Bookkeeping steps, which have no counterpart among the nested calls. */
  predicate Stutters<D, W>(p: Program<D, W>, m: Machine<D, W>, n: Nested<D, W>, move: Move<W>) {
    match m.mode
    case Idle => move.Resume? && m.regs.quit
    case Entering => true
    case Executing =>
      m.host == [] || |m.host| < |n.stack| || p.code(m.host[|m.host| - 1].fn, m.host[|m.host| - 1].pc).Return?
    case _ => m.regs.yielded
  }

  function Measure<D, W>(m: Machine<D, W>): nat {
    match m.mode
    case Entering => if |m.host| <= StackSize then 2 * (StackSize - |m.host|) + 21 else 0
    case Executing => if |m.host| <= StackSize then 2 * (StackSize - |m.host|) + 20 else 0
    case Returning => |m.host| + 1
    case Idle => 1
    case _ => 0
  }

  /** What one step of the machine means: nothing, while it gets closer to a step that does, or the same step. */
  ghost predicate Simulates<D(!new), W(!new)>(p: Program<D, W>, m: Machine<D, W>, n: Nested<D, W>, move: Move<W>,
                                  m': Machine<D, W>, n': Nested<D, W>) {
    && Related(p, m', n')
    && if Stutters(p, m, n, move) then n' == n && Measure(m') < Measure(m)
       else NestedCalls.Next(p, n, move) == Some(n')
  }

  lemma NestingTop<D(!new), W(!new)>(p: Program<D, W>, stack: seq<Activation<D>>, top: Activation<D>)
    requires Nesting(p, stack) && stack != [] && top.fn == stack[|stack| - 1].fn
    ensures Nesting(p, stack[|stack| - 1 := top])
  {
    var changed := stack[|stack| - 1 := top];
    forall i | 0 <= i < |changed| - 1 ensures CallsNext(p, changed, i) {
      assert CallsNext(p, stack, i);
    }
  }

  lemma ResumeSimulates<D(!new), W(!new)>(p: Program<D, W>, m: Machine<D, W>, n: Nested<D, W>, world: W)
    returns (n': Nested<D, W>)
    requires Related(p, m, n) && m.mode.Idle?
    ensures Simulates(p, m, n, Resume(world), BeginEnter(p, m, world), n')
  {
    if m.regs.quit {
      n' := n;
    } else {
      n' := NestedCalls.Next(p, n, Resume(world)).value;
      if n.stack != [] {
        NestingTop(p, n.stack, n'.stack[|n.stack| - 1]);
        forall i | 0 <= i < |n.stack| - 1 ensures Parked(m.regs.stack, n'.stack, i) {
          assert Parked(m.regs.stack, n.stack, i);
        }
      }
    }
  }

  lemma DispatchSimulates<D(!new), W(!new)>(p: Program<D, W>, m: Machine<D, W>, n: Nested<D, W>)
    requires Related(p, m, n) && m.mode.Entering?
    ensures Simulates(p, m, n, Tick, Dispatch(p, m), n)
  {
    var m', k := Dispatch(p, m), |m.host| - 1;
    if k < |n.stack| - 1 {
      assert Parked(m.regs.stack, n.stack, k) && CallsNext(p, n.stack, k);
    }
    assert Hosted(m'.regs.stack, m'.host, n.stack, k);
    forall i | 0 <= i < k ensures Hosted(m'.regs.stack, m'.host, n.stack, i) {
      assert Hosted(m.regs.stack, m.host, n.stack, i);
    }
    forall i | k < i < |n.stack| - 1 ensures Parked(m'.regs.stack, n.stack, i) {
      assert Parked(m.regs.stack, n.stack, i);
    }
  }

  lemma ActSimulates<D(!new), W(!new)>(p: Program<D, W>, m: Machine<D, W>, n: Nested<D, W>) returns (n': Nested<D, W>)
    requires Related(p, m, n) && m.mode.Executing?
    requires var top := m.host[|m.host| - 1]; p.code(top.fn, top.pc).Act?
    ensures Simulates(p, m, n, Tick, Execute(p, m), n')
  {
    var m', k := Execute(p, m), |m.host| - 1;
    assert Hosted(m.regs.stack, m.host, n.stack, k);
    assert k < |n.stack| - 1 ==> CallsNext(p, n.stack, k);
    n' := Run(p, n).value;
    NestingTop(p, n.stack, n'.stack[k]);
    forall i | 0 <= i <= k ensures Hosted(m'.regs.stack, m'.host, n'.stack, i) {
      assert Hosted(m.regs.stack, m.host, n.stack, i);
    }
  }

  lemma YieldSimulates<D(!new), W(!new)>(p: Program<D, W>, m: Machine<D, W>, n: Nested<D, W>) returns (n': Nested<D, W>)
    requires Related(p, m, n) && m.mode.Executing?
    requires var top := m.host[|m.host| - 1]; p.code(top.fn, top.pc).Yield?
    ensures Simulates(p, m, n, Tick, Execute(p, m), n')
  {
    var m', k := Execute(p, m), |m.host| - 1;
    assert Hosted(m.regs.stack, m.host, n.stack, k);
    assert k < |n.stack| - 1 ==> CallsNext(p, n.stack, k);
    n' := Run(p, n).value;
    forall i | 0 <= i < k ensures Hosted(m'.regs.stack, m'.host, n'.stack, i) {
      assert Hosted(m.regs.stack, m.host, n.stack, i);
    }
  }

  lemma PollSimulates<D(!new), W(!new)>(p: Program<D, W>, m: Machine<D, W>, n: Nested<D, W>)
    returns (n': Nested<D, W>)
    requires Related(p, m, n) && m.mode.Executing?
    requires var top := m.host[|m.host| - 1]; p.code(top.fn, top.pc).Poll?
    ensures Simulates(p, m, n, Tick, Execute(p, m), n')
  {
    var m', k := Execute(p, m), |m.host| - 1;
    assert Hosted(m.regs.stack, m.host, n.stack, k);
    assert k < |n.stack| - 1 ==> CallsNext(p, n.stack, k);
    n' := Run(p, n).value;
    forall i | 0 <= i < k ensures Hosted(m'.regs.stack, m'.host, n'.stack, i) {
      assert Hosted(m.regs.stack, m.host, n.stack, i);
    }
  }

  lemma ReturnSimulates<D(!new), W(!new)>(p: Program<D, W>, m: Machine<D, W>, n: Nested<D, W>)
    requires Related(p, m, n) && m.mode.Executing?
    requires var top := m.host[|m.host| - 1]; p.code(top.fn, top.pc).Return?
    ensures Simulates(p, m, n, Tick, Execute(p, m), n)
  {
    var k := |m.host| - 1;
    assert Hosted(m.regs.stack, m.host, n.stack, k);
    assert k < |n.stack| - 1 ==> CallsNext(p, n.stack, k);
  }

  lemma NestingPush<D(!new), W(!new)>(p: Program<D, W>, stack: seq<Activation<D>>, a: Activation<D>)
    requires Nesting(p, stack) && stack != []
    requires Current(p, stack).Call? && Current(p, stack).callee == a.fn
    ensures Nesting(p, stack + [a])
  {
    var pushed := stack + [a];
    forall i | 0 <= i < |pushed| - 1 ensures CallsNext(p, pushed, i) {
      if i < |stack| - 1 {
        assert CallsNext(p, stack, i);
      }
    }
  }

  /** A call of a new activation. */
  lemma CallSimulates<D(!new), W(!new)>(p: Program<D, W>, m: Machine<D, W>, n: Nested<D, W>) returns (n': Nested<D, W>)
    requires Related(p, m, n) && m.mode.Executing? && |m.host| == |n.stack|
    requires var top := m.host[|m.host| - 1]; p.code(top.fn, top.pc).Call?
    ensures Simulates(p, m, n, Tick, Execute(p, m), n')
  {
    var m', k := Execute(p, m), |m.host| - 1;
    assert Hosted(m.regs.stack, m.host, n.stack, k);
    n' := Run(p, n).value;
    NestingPush(p, n.stack, n'.stack[k + 1]);
    if m'.mode.Entering? {
      forall i | 0 <= i <= k ensures Hosted(m'.regs.stack, m'.host, n'.stack, i) {
        assert Hosted(m.regs.stack, m.host, n.stack, i);
      }
    }
  }

  /** A call executed again on the way back to where the coroutine was. */
  lemma DescentSimulates<D(!new), W(!new)>(p: Program<D, W>, m: Machine<D, W>, n: Nested<D, W>)
    requires Related(p, m, n) && m.mode.Executing? && |m.host| < |n.stack|
    ensures Simulates(p, m, n, Tick, Execute(p, m), n)
  {
    var m', k := Execute(p, m), |m.host| - 1;
    assert Hosted(m.regs.stack, m.host, n.stack, k) && CallsNext(p, n.stack, k);
    if k + 1 < |n.stack| - 1 {
      assert Parked(m.regs.stack, n.stack, k + 1);
    }
    forall i | 0 <= i <= k ensures Hosted(m'.regs.stack, m'.host, n.stack, i) {
      assert Hosted(m.regs.stack, m.host, n.stack, i);
    }
  }

  lemma UnwindSimulates<D(!new), W(!new)>(p: Program<D, W>, m: Machine<D, W>, n: Nested<D, W>)
    requires Related(p, m, n) && m.mode.Returning? && m.regs.yielded
    ensures Simulates(p, m, n, Tick, Next(p, m, Tick).value, n)
  {
    var m', k := Next(p, m, Tick).value, |m.host| - 2;
    if 0 <= k {
      assert Hosted(m.regs.stack, m.host, n.stack, k);
      forall i | 0 <= i < k ensures Hosted(m'.regs.stack, m'.host, n.stack, i) {
        assert Hosted(m.regs.stack, m.host, n.stack, i);
      }
    }
    forall i | 0 <= k <= i < |n.stack| - 1 ensures Parked(m'.regs.stack, n.stack, i) {
      assert i > k ==> Parked(m.regs.stack, n.stack, i);
    }
  }

  lemma NestingPop<D(!new), W(!new)>(p: Program<D, W>, stack: seq<Activation<D>>)
    requires Nesting(p, stack) && stack != []
    ensures Nesting(p, stack[..|stack| - 1])
    ensures |stack| > 1 ==> Current(p, stack[..|stack| - 1]).Call?
  {
    var popped := stack[..|stack| - 1];
    if popped != [] {
      assert CallsNext(p, stack, |popped| - 1);
    }
    forall i | 0 <= i < |popped| - 1 ensures CallsNext(p, popped, i) {
      assert CallsNext(p, stack, i);
    }
  }

  lemma PopSimulates<D(!new), W(!new)>(p: Program<D, W>, m: Machine<D, W>, n: Nested<D, W>) returns (n': Nested<D, W>)
    requires Related(p, m, n) && m.mode.Returning? && !m.regs.yielded
    ensures Simulates(p, m, n, Tick, Next(p, m, Tick).value, n')
  {
    var k := |m.host| - 2;
    NestingPop(p, n.stack);
    n' := Run(p, n).value;
    if 0 <= k {
      var m' := Next(p, m, Tick).value;
      assert Hosted(m.regs.stack, m.host, n.stack, k);
      NestingTop(p, n.stack[..k + 1], n'.stack[k]);
      forall i | 0 <= i <= k ensures Hosted(m'.regs.stack, m'.host, n'.stack, i) {
        assert Hosted(m.regs.stack, m.host, n.stack, i);
      }
    }
  }

  /** Every step of the machine is bookkeeping or a step of the nested calls. */
  lemma NextSimulates<D(!new), W(!new)>(p: Program<D, W>, m: Machine<D, W>, n: Nested<D, W>, move: Move<W>)
    returns (n': Nested<D, W>)
    requires Related(p, m, n) && Next(p, m, move).Some?
    ensures Simulates(p, m, n, move, Next(p, m, move).value, n')
  {
    n' := n;
    if move.Resume? {
      n' := ResumeSimulates(p, m, n, move.world);
    } else if m.mode.Entering? {
      DispatchSimulates(p, m, n);
    } else if m.mode.Executing? {
      n' := ExecuteSimulates(p, m, n);
    } else if m.regs.yielded {
      UnwindSimulates(p, m, n);
    } else {
      n' := PopSimulates(p, m, n);
    }
  }

  lemma ExecuteSimulates<D(!new), W(!new)>(p: Program<D, W>, m: Machine<D, W>, n: Nested<D, W>)
    returns (n': Nested<D, W>)
    requires Related(p, m, n) && m.mode.Executing?
    ensures Simulates(p, m, n, Tick, Execute(p, m), n')
  {
    n' := n;
    var top := m.host[|m.host| - 1];
    if p.code(top.fn, top.pc).Act? {
      n' := ActSimulates(p, m, n);
    } else if p.code(top.fn, top.pc).Yield? {
      n' := YieldSimulates(p, m, n);
    } else if p.code(top.fn, top.pc).Poll? {
      n' := PollSimulates(p, m, n);
    } else if p.code(top.fn, top.pc).Return? {
      ReturnSimulates(p, m, n);
    } else if |m.host| == |n.stack| {
      n' := CallSimulates(p, m, n);
    } else {
      DescentSimulates(p, m, n);
    }
  }

  // ---- Whole runs ----

  /** A new coroutine: g_new0 leaves every saved line 0. */
  predicate Zeroed<D>(stack: seq<Slot<D>>) {
    |stack| == StackSize && forall i :: 0 <= i < StackSize ==> stack[i].line == 0
  }

  function Created<D, W>(stack: seq<Slot<D>>, world: W): Machine<D, W> {
    Machine(Registers(stack, 0, false, 0, false), [], Idle, world)
  }

  /** The worlds a coroutine is resumed in, in order. */
  function Resumes<W>(moves: seq<Move<W>>): seq<W> {
    if moves == [] then []
    else (if moves[0].Resume? then [moves[0].world] else []) + Resumes(moves[1..])
  }

  /** What a coroutine and nested calls at the same point show the outside. */
  ghost predicate Agrees<D, W>(m: Machine<D, W>, n: Nested<D, W>) {
    && m.world == n.world
    && (m.mode.Idle? ==> m.host == [] && m.regs.frame == 0)
    && (m.mode.Idle? ==> (m.regs.quit <==> n.status.Finished?))
    && (m.mode.Idle? && !m.regs.quit ==> n.status.Ready? || n.status == Suspended(m.regs.value))
    && (forall i :: |n.stack| <= i < |m.regs.stack| ==> m.regs.stack[i].line == 0)
    && !m.mode.NoSuchLine?
    && (m.mode.NotAtBase? ==> n.status.Finished?)
    && (m.mode.Overflow? <==> |n.stack| == StackSize + 1)
  }

  lemma {:induction false} RunSimulates<D(!new), W(!new)>(p: Program<D, W>, m0: Machine<D, W>, n0: Nested<D, W>,
                                                          moves: seq<Move<W>>, m: Machine<D, W>)
    returns (nested: seq<Move<W>>, n: Nested<D, W>)
    requires Related(p, m0, n0) && Runs.Reaches(Stepper(p), m0, moves, m)
    ensures Runs.Reaches(NestedCalls.Stepper(p), n0, nested, n)
    ensures Related(p, m, n) && (!m.mode.NotAtBase? ==> Resumes(nested) == Resumes(moves))
    decreases |moves|
  {
    if moves == [] {
      nested, n := [], n0;
    } else {
      var n1 := NextSimulates(p, m0, n0, moves[0]);
      var m1 := Next(p, m0, moves[0]).value;
      nested, n := RunSimulates(p, m1, n1, moves[1..], m);
      if !Stutters(p, m0, n0, moves[0]) {
        assert ([moves[0]] + nested)[1..] == nested;
        nested := [moves[0]] + nested;
      }
    }
  }

  /**
   Whatever the runtime does, the nested calls do when resumed in the same worlds, and the two agree. The
   saved lines always have a label, a finished coroutine is the only one that cannot be entered, and the
   frame check fails only where the calls nest seventeen deep.
   */
  lemma RuntimeMeansNestedCalls<D(!new), W(!new)>(p: Program<D, W>, slots: seq<Slot<D>>, world: W,
                                                  moves: seq<Move<W>>, m: Machine<D, W>)
    returns (nested: seq<Move<W>>, n: Nested<D, W>)
    requires Disciplined(p) && Zeroed(slots) && Runs.Reaches(Stepper(p), Created(slots, world), moves, m)
    ensures Runs.Reaches(NestedCalls.Stepper(p), Nested([], Ready, world), nested, n)
    ensures !m.mode.NotAtBase? ==> Resumes(nested) == Resumes(moves)
    ensures Agrees(m, n)
  {
    nested, n := RunSimulates(p, Created(slots, world), Nested([], Ready, world), moves, m);
  }

  /** Bookkeeping ends: the next step of the nested calls is always made, unless it is a seventeenth call. */
  lemma {:induction false} CatchUp<D(!new), W(!new)>(p: Program<D, W>, m: Machine<D, W>, n: Nested<D, W>, move: Move<W>)
    returns (moves: seq<Move<W>>, m': Machine<D, W>)
    requires Related(p, m, n) && |n.stack| <= StackSize && NestedCalls.Next(p, n, move).Some?
    ensures Runs.Reaches(Stepper(p), m, moves, m')
    ensures Related(p, m', NestedCalls.Next(p, n, move).value) && !m'.mode.NotAtBase?
    ensures Resumes(moves) == Resumes([move])
    decreases Measure(m)
  {
    var step := if m.mode.Idle? then move else Tick;
    var n1 := NextSimulates(p, m, n, step);
    var m1 := Next(p, m, step).value;
    Runs.One(Stepper(p), m, step);
    if Stutters(p, m, n, step) {
      moves, m' := CatchUp(p, m1, n, move);
      Runs.Concat(Stepper(p), m, [step], m1, moves, m');
      moves := [step] + moves;
    } else {
      moves, m' := [step], m1;
    }
  }

  /** A yield or a finish is passed out to co_enter, in steps that do nothing else. */
  lemma {:induction false} Settles<D(!new), W(!new)>(p: Program<D, W>, m: Machine<D, W>, n: Nested<D, W>)
    returns (moves: seq<Move<W>>, m': Machine<D, W>)
    requires Related(p, m, n) && !n.status.Running? && !m.mode.NotAtBase?
    ensures Runs.Reaches(Stepper(p), m, moves, m') && Resumes(moves) == []
    ensures Related(p, m', n) && m'.mode.Idle?
    decreases Measure(m)
  {
    if m.mode.Idle? {
      moves, m' := [], m;
    } else {
      var n1 := NextSimulates(p, m, n, Tick);
      var m1 := Next(p, m, Tick).value;
      moves, m' := Settles(p, m1, n);
      Runs.One(Stepper(p), m, Tick);
      Runs.Concat(Stepper(p), m, [Tick], m1, moves, m');
      moves := [Tick] + moves;
    }
  }

  /** The nested calls never get more than sixteen deep on the way. */
  ghost predicate Shallow<D(!new), W(!new)>(p: Program<D, W>, n: Nested<D, W>, moves: seq<Move<W>>)
    decreases |moves|
  {
    && |n.stack| <= StackSize
    && (moves != [] && NestedCalls.Next(p, n, moves[0]).Some? ==>
          Shallow(p, NestedCalls.Next(p, n, moves[0]).value, moves[1..]))
  }

  lemma ResumesConcat<W>(a: seq<Move<W>>, b: seq<Move<W>>)
    ensures Resumes(a + b) == Resumes(a) + Resumes(b)
  {
    if a == [] {
      assert a + b == b;
    } else {
      assert (a + b)[1..] == a[1..] + b;
    }
  }

  lemma {:induction false} NestedRunFollowed<D(!new), W(!new)>(p: Program<D, W>, m0: Machine<D, W>, n0: Nested<D, W>,
                                                               nested: seq<Move<W>>, n: Nested<D, W>)
    returns (moves: seq<Move<W>>, m: Machine<D, W>)
    requires Related(p, m0, n0) && Shallow(p, n0, nested) && Runs.Reaches(NestedCalls.Stepper(p), n0, nested, n)
    requires !m0.mode.NotAtBase?
    ensures Runs.Reaches(Stepper(p), m0, moves, m) && !m.mode.NotAtBase?
    ensures Related(p, m, n) && Resumes(moves) == Resumes(nested)
    decreases |nested|
  {
    if nested == [] {
      moves, m := [], m0;
    } else {
      var first, m1 := CatchUp(p, m0, n0, nested[0]);
      var rest;
      rest, m := NestedRunFollowed(p, m1, NestedCalls.Next(p, n0, nested[0]).value, nested[1..], n);
      Runs.Concat(Stepper(p), m0, first, m1, rest, m);
      ResumesConcat(first, rest);
      moves := first + rest;
    }
  }

  /**
   The other way round: the runtime does everything the nested calls do, resumed in the same worlds, as
   long as these stay within sixteen activations, and it is outside co_enter whenever they are not running.
   */
  lemma NestedCallsAreRun<D(!new), W(!new)>(p: Program<D, W>, slots: seq<Slot<D>>, world: W,
                                            nested: seq<Move<W>>, n: Nested<D, W>)
    returns (moves: seq<Move<W>>, m: Machine<D, W>)
    requires Disciplined(p) && Zeroed(slots) && Shallow(p, Nested([], Ready, world), nested)
    requires Runs.Reaches(NestedCalls.Stepper(p), Nested([], Ready, world), nested, n)
    ensures Runs.Reaches(Stepper(p), Created(slots, world), moves, m)
    ensures Resumes(moves) == Resumes(nested)
    ensures Agrees(m, n) && (n.status.Running? || m.mode.Idle?)
  {
    var m0 := Created(slots, world);
    moves, m := NestedRunFollowed(p, m0, Nested([], Ready, world), nested, n);
    if !n.status.Running? {
      var rest, m1 := Settles(p, m, n);
      Runs.Concat(Stepper(p), m0, moves, m, rest, m1);
      ResumesConcat(moves, rest);
      moves, m := moves + rest, m1;
    }
  }
}
