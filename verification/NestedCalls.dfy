/**
 What a nest of coroutine bodies means: ordinary nested calls that can be suspended and resumed. Each
 activation keeps its own position and its own local record for as long as it exists.
 */
module NestedCalls {
  import opened ColodTypes

  /**
   One position in a body. `Act` updates the local record and the world and says where to go on; the
   world stands for everything outside the coroutine, including a log of effects if one is wanted. `Poll`
   suspends the coroutine without a place to go on from: the body starts over when it is resumed.
   */
  datatype Instr<!D, !W> =
    | Act(run: (D, W) -> (D, W, nat))
    | Yield(value: int, next: nat)
    | Poll(value: int)
    | Call(callee: nat, next: nat)
    | Return

  /**
   The bodies, the one the coroutine starts with, how each fills its local record when it starts, and
   which of them poll.
   */
  datatype Program<!D, !W> = Program(main: nat, init: (nat, W) -> D, code: (nat, nat) -> Instr<D, W>,
                                     polls: nat -> bool)

  /** A body that polls does not suspend or call in any other way. */
  ghost predicate Disciplined<D(!new), W(!new)>(p: Program<D, W>) {
    forall fn: nat, pc: nat ::
      if p.polls(fn) then !p.code(fn, pc).Yield? && !p.code(fn, pc).Call? else !p.code(fn, pc).Poll?
  }

  datatype Activation<D> = Activation(fn: nat, pc: nat, data: D)

  datatype Status = Ready | Running | Suspended(value: int) | Finished

  datatype Nested<D, W> = Nested(stack: seq<Activation<D>>, status: Status, world: W)

  /** The coroutine runs one step, or is resumed in a world the outside may have changed meanwhile. */
  datatype Move<W> = Tick | Resume(world: W)

  function Start<D, W>(p: Program<D, W>, fn: nat, world: W): Activation<D> {
    Activation(fn, 0, p.init(fn, world))
  }

  /** The stack with its innermost activation moved to `pc`. */
  function Advance<D>(stack: seq<Activation<D>>, pc: nat): seq<Activation<D>>
    requires stack != []
  {
    stack[|stack| - 1 := stack[|stack| - 1].(pc := pc)]
  }

  /** What the innermost activation is about to do. */
  function Current<D, W>(p: Program<D, W>, stack: seq<Activation<D>>): Instr<D, W>
    requires stack != []
  {
    p.code(stack[|stack| - 1].fn, stack[|stack| - 1].pc)
  }

  function Run<D, W>(p: Program<D, W>, n: Nested<D, W>): Option<Nested<D, W>>
    requires n.stack != []
  {
    var last := |n.stack| - 1;
    var top := n.stack[last];
    match Current(p, n.stack)
    case Act(run) =>
      var (data, world, pc) := run(top.data, n.world);
      Some(n.(stack := n.stack[last := Activation(top.fn, pc, data)], world := world))
    case Yield(value, _) => Some(n.(status := Suspended(value)))
    case Poll(value) => Some(n.(status := Suspended(value)))
    case Call(callee, _) => Some(n.(stack := n.stack + [Start(p, callee, n.world)]))
    case Return =>
      if last == 0 then Some(n.(stack := [], status := Finished))
      else
        var caller := Current(p, n.stack[..last]);
        if caller.Call? then Some(n.(stack := Advance(n.stack[..last], caller.next))) else None
  }

  /** The activations after a resume: the innermost goes on after its yield, or starts over. */
  function Resumed<D, W>(p: Program<D, W>, stack: seq<Activation<D>>, world: W): seq<Activation<D>>
    requires stack != []
  {
    match Current(p, stack)
    case Yield(_, next) => Advance(stack, next)
    case _ => stack[|stack| - 1 := Start(p, stack[|stack| - 1].fn, world)]
  }

  function Next<D, W>(p: Program<D, W>, n: Nested<D, W>, move: Move<W>): Option<Nested<D, W>> {
    match move
    case Tick => if n.status.Running? && n.stack != [] then Run(p, n) else None
    case Resume(world) =>
      if n.status.Ready? then Some(Nested([Start(p, p.main, world)], Running, world))
      else if n.status.Suspended? && n.stack != [] then Some(Nested(Resumed(p, n.stack, world), Running, world))
      else None
  }

  function Stepper<D, W>(p: Program<D, W>): (Nested<D, W>, Move<W>) -> Option<Nested<D, W>> {
    (n, move) => Next(p, n, move)
  }
}
