/**
 The coroutine object: the runtime's macros as methods that update its fields in place, each proved to
 make exactly the step `CoroutineStack` gives it.
 */
module Coroutine {
  import opened NestedCalls
  import opened CoroutineStack

  class Coroutine<D, W> {
    const program: Program<D, W>
    const stack: array<Slot<D>>
    var frame: nat
    var yielded: bool
    var yieldValue: int
    var quit: bool
    var host: seq<Host>
    var mode: Mode
    var world: W

    ghost predicate Valid()
      reads this
    {
      stack.Length == StackSize
    }

    ghost function View(): Machine<D, W>
      reads this, stack
    {
      Machine(Registers(stack[..], frame, yielded, yieldValue, quit), host, mode, world)
    }

    constructor (program: Program<D, W>, blank: D, world: W)
      ensures Valid() && fresh(stack)
      ensures Zeroed(stack[..]) && View() == Created(stack[..], world)
    {
      this.program := program;
      stack := new Slot<D>[StackSize](_ => Slot(0, blank));
      frame, yielded, yieldValue, quit := 0, false, 0, false;
      host, mode, this.world := [], Idle, world;
    }

    /** co_enter, up to the call of the body */
    method BeginEnter(newWorld: W)
      requires Valid()
      modifies this
      ensures View() == CoroutineStack.BeginEnter(program, old(View()), newWorld)
    {
      if quit || frame != 0 {
        mode := NotAtBase;
        return;
      }
      yielded, world := false, newWorld;
      host, mode := [Host(program.main, 0)], Entering;
    }

    /** co_enter, after the body has returned */
    method FinishEnter()
      requires Valid()
      modifies this, stack
      ensures View() == CoroutineStack.FinishEnter(old(View()))
    {
      if frame != 0 {
        mode := NotAtBase;
        return;
      }
      if !yielded {
        stack[0] := stack[0].(line := 0);
        quit := true;
      }
      host, mode := [], Idle;
    }

    /** co_begin */
    method Dispatch()
      requires Valid() && host != [] && frame < StackSize
      modifies this, stack
      ensures View() == CoroutineStack.Dispatch(program, old(View()))
    {
      var fn, line := host[|host| - 1].fn, stack[frame].line;
      if line == 0 {
        stack[frame] := stack[frame].(data := program.init(fn, world));
        host, mode := Goto(host, 0), Executing;
      } else {
        match program.code(fn, line - 1)
        case Yield(_, next) => host, mode := Goto(host, next), Executing;
        case Call(_, _) => host, mode := Goto(host, line - 1), Executing;
        case _ => mode := NoSuchLine;
      }
    }

    /** One statement of a body: plain code, co_yield, a poll, co_recurse up to the call, or return */
    method Execute()
      requires Valid() && host != [] && frame < StackSize
      modifies this, stack
      ensures View() == CoroutineStack.Execute(program, old(View()))
    {
      var top := host[|host| - 1];
      match program.code(top.fn, top.pc)
      case Act(run) =>
        var (data, newWorld, pc) := run(stack[frame].data, world);
        stack[frame] := stack[frame].(data := data);
        host, world := Goto(host, pc), newWorld;
      case Yield(value, _) =>
        yielded, yieldValue := true, value;
        stack[frame] := stack[frame].(line := top.pc + 1);
        mode := Returning;
      case Poll(value) => yielded, yieldValue, mode := true, value, Returning;
      case Call(callee, _) =>
        if frame + 1 < StackSize {
          frame := frame + 1;
          host, mode := host + [Host(callee, 0)], Entering;
        } else {
          mode := Overflow;
        }
      case Return => mode := Returning;
    }

    /** co_recurse, after the call */
    method AfterCall()
      requires Valid() && |host| >= 2 && 0 < frame < StackSize
      modifies this, stack
      ensures View() == CoroutineStack.AfterCall(program, old(View()))
    {
      frame, host := frame - 1, host[..|host| - 1];
      var caller := host[|host| - 1];
      if yielded {
        stack[frame] := stack[frame].(line := caller.pc + 1);
      } else {
        match program.code(caller.fn, caller.pc)
        case Call(_, next) =>
          stack[frame + 1] := stack[frame + 1].(line := 0);
          host, mode := Goto(host, next), Executing;
        case _ => mode := NoSuchLine;
      }
    }
  }
}
