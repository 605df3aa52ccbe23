/** `VansteinEngine`: the dispatch loop over a mutable context, proved to
    follow the functions of module `Dispatch`. */
module VsEngine {
  import opened VsTypes
  import opened StackOps
  import opened Dispatch
  import opened VsContext

  /** How `run_context` (or one iteration of it) ends. */
  datatype Exit =
    | Proceed                       // the iteration ended with `continue` or a handler call
    | Returned                      // `return` (None)
    | ReturnContext(next: Context)  // `return new_ctx`
    | Raise(error: Exception)       // an exception escapes
    | Exhausted                     // the fuel ran out

  /** `n` is the context `run_context` created for `callee` on behalf of
      `caller`: linked both ways, PENDING, holding the caller's two callbacks
      and exactly the arguments `args`. */
  ghost predicate Spawned(n: Context, caller: Context, callee: Value, args: seq<Value>, host: Host)
    reads n, caller
  {
    && n != caller
    && n.func == callee && n.instructions == host.codeOf(callee)
    && n.prevCtx == caller && caller.nextCtx == n && n.nextCtx == null
    && n.View() == Frame(0, [], Pending, [])
    && n.doneCallbacks == [OnResult(caller)]
    && n.exceptionCallbacks == [OnException(caller)]
    && n.args == args && n.finishCalls == 0
  }

  /** `out` is how the engine reports transfer `t`. */
  ghost predicate Reports(out: Exit, t: Transfer, caller: Context, host: Host)
    reads caller, if out.ReturnContext? then {out.next} else {}
  {
    match t
    case Continue => out.Proceed?
    case ReturnNone(_) => out.Returned?
    case RaiseOut(e) => out == Raise(e)
    case OutOfFuel => out.Exhausted?
    case SwitchTo(callee, args) => out.ReturnContext? && Spawned(out.next, caller, callee, args, host)
  }

  class Engine {
    var currentInstruction: Option<Instruction>
    var currentContext: Context?

    /** `__init__`: no instruction and no context yet. */
    constructor ()
      ensures currentInstruction == None && currentContext == null
    {
      currentInstruction := None;
      currentContext := null;
    }

    /** The argument-collection loop both call paths run: `argc` rounds of
        `args.append(stack.pop())`, then `reversed(args)`. The result is the
        top `argc` values in push order, and exactly those leave the stack. */
    method PopArgs(ctx: Context, argc: nat) returns (args: seq<Value>)
      requires argc <= |ctx.stack|
      modifies ctx`stack
      ensures args == old(ctx.stack)[|old(ctx.stack)| - argc..]
      ensures ctx.stack == old(ctx.stack)[..|old(ctx.stack)| - argc]
    {
      ghost var s0 := ctx.stack;
      var popped: seq<Value> := [];
      for i := 0 to argc
        invariant ctx.stack == PopN(s0, i).0
        invariant popped == PopN(s0, i).1
      {
        var v := ctx.Pop();
        popped := popped + [v];
      }
      args := Reverse(popped);
      ArgsInCallOrder(s0, argc);
    }

    /** `__run_natively(context, instruction)` */
    method RunNatively(ctx: Context, ins: Instruction, host: Host) returns (result: Value)
      requires ins.arg < |ctx.stack|
      modifies ctx`pointer, ctx`stack, ctx`state, ctx`raised
      ensures ctx.View() == NativeBridge(old(ctx.View()), ins.arg, host).frame
      ensures result == NativeBridge(old(ctx.View()), ins.arg, host).result
    {
      var args := PopArgs(ctx, ins.arg);
      var fn := ctx.Pop();
      ghost var k := |old(ctx.stack)| - ins.arg - 1;
      assert fn == old(ctx.stack)[k] && args == old(ctx.stack)[k + 1..];
      assert ctx.View() == old(ctx.View()).(stack := old(ctx.stack)[..k]);
      if !IsCallable(fn) {
        ctx.SafeRaise(NotCallableError(fn), host);
        return NoneValue;
      }
      match host.invoke(fn, args)
      case Err(e) =>
        ctx.SafeRaise(e, host);
        result := NoneValue;
      case Ok(v) =>
        result := v;
    }

    /** One pass through the body of `run_context`'s `while True`. */
    method Step(ctx: Context, host: Host) returns (out: Exit)
      modifies this`currentInstruction
      modifies ctx`pointer, ctx`stack, ctx`state, ctx`raised, ctx`nextCtx, ctx`finishCalls
      ensures var s := StepOf(old(ctx.View()), ctx.instructions, host);
              && ctx.View() == s.frame
              && Reports(out, s.transfer, ctx, host)
              && (out.ReturnContext? ==> fresh(out.next))
              && (!out.ReturnContext? ==> ctx.nextCtx == old(ctx.nextCtx))
              && ctx.finishCalls == old(ctx.finishCalls) + (if s.transfer == ReturnNone(true) then 1 else 0)
              && currentInstruction == (if s.fetched.Some? then s.fetched else old(currentInstruction))
    {
      if ctx.state == Finished {
        ctx.Finish();
        return Returned;
      }
      if ctx.state == Errored {
        return Returned;
      }
      var next := ctx.NextInstruction();
      if next.None? {
        return Raise(IndexError);
      }
      var ins := next.value;
      currentInstruction := next;
      if ins.opname == CallFunction {
        out := CallFunctionStep(ctx, ins, host);
        return;
      }
      if ins.opname !in host.handlers {
        return Raise(NotImplementedError(ins.opname));
      }
      ctx.RunHandler(host.handlers[ins.opname], ins);
      return Proceed;
    }

    /** The `CALL_FUNCTION` branch of the loop, after the fetch: suspend,
        find the callee `arg + 1` from the top, then either run it natively
        and carry on, or switch to a new context. */
    method CallFunctionStep(ctx: Context, ins: Instruction, host: Host) returns (out: Exit)
      modifies ctx`pointer, ctx`stack, ctx`state, ctx`raised, ctx`nextCtx
      ensures var s := CallStep(old(ctx.View()), ins, host);
              && ctx.View() == s.frame
              && Reports(out, s.transfer, ctx, host)
              && (out.ReturnContext? ==> fresh(out.next))
              && (!out.ReturnContext? ==> ctx.nextCtx == old(ctx.nextCtx))
    {
      ctx.state := Suspended;
      if |ctx.stack| < ins.arg + 1 {
        return Raise(IndexError);
      }
      var bottom := ctx.stack[|ctx.stack| - (ins.arg + 1)];
      if bottom.Class? {
        bottom := bottom.ctor;
      }
      if IsNative(bottom) {
        var result := RunNatively(ctx, ins, host);
        ctx.state := Running;
        ctx.Push(result);
        return Proceed;
      }
      var n := SwitchContext(ctx, ins.arg, bottom, host);
      return ReturnContext(n);
    }

    /** The interpreted-call path: a new context for `callee`, linked both
        ways to `ctx`, PENDING, with `ctx`'s callbacks, receiving the top
        `argc` values in push order; those values and the callee beneath
        them leave `ctx`'s stack. */
    method SwitchContext(ctx: Context, argc: nat, callee: Value, host: Host) returns (n: Context)
      requires argc < |ctx.stack|
      modifies ctx`stack, ctx`nextCtx
      ensures fresh(n)
      ensures ctx.stack == old(ctx.stack)[..|old(ctx.stack)| - argc - 1]
      ensures Spawned(n, ctx, callee, old(ctx.stack)[|old(ctx.stack)| - argc..], host)
    {
      n := new Context(callee, host.codeOf(callee));
      n.prevCtx := ctx;
      ctx.nextCtx := n;
      n.state := Pending;
      n.AddDoneCallback(OnResult(ctx));
      n.AddExceptionCallback(OnException(ctx));
      var args := PopArgs(ctx, argc);
      n.FillArgs(args);
      var _ := ctx.Pop();
    }

    /** `run_context(context)`, for at most `fuel` iterations of its loop. */
    method RunContext(ctx: Context, host: Host, fuel: nat) returns (out: Exit)
      modifies this
      modifies ctx`pointer, ctx`stack, ctx`state, ctx`raised, ctx`nextCtx, ctx`finishCalls
      ensures currentContext == ctx
      ensures var r := RunOf(old(ctx.View()), ctx.instructions, host, fuel);
              && ctx.View() == r.frame
              && Reports(out, r.transfer, ctx, host)
              && (out.ReturnContext? ==> fresh(out.next))
              && (!out.ReturnContext? ==> ctx.nextCtx == old(ctx.nextCtx))
              && ctx.finishCalls == old(ctx.finishCalls) + (if r.transfer == ReturnNone(true) then 1 else 0)
              && (r.fetched.Some? ==> currentInstruction == r.fetched)
    {
      ctx.state := Running;
      currentContext := ctx;
      ghost var code := ctx.instructions;
      var left: nat := fuel;
      while left > 0
        invariant left <= fuel
        invariant currentContext == ctx
        invariant Loop(ctx.View(), code, host, left) == RunOf(old(ctx.View()), code, host, fuel)
        invariant ctx.nextCtx == old(ctx.nextCtx)
        invariant ctx.finishCalls == old(ctx.finishCalls)
      {
        out := Step(ctx, host);
        if !out.Proceed? {
          return;
        }
        left := left - 1;
      }
      out := Exhausted;
    }
  }
}
