/** The dispatch loop of `VansteinEngine` as functions over a context's
    `Frame`: one iteration of `run_context`'s `while True` (`StepOf`), the
    native-call bridge (`NativeBridge`) and a fuel-bounded run (`RunOf`).
    The methods of `VsEngine.Engine` are proved to follow these. */
module Dispatch {
  import opened VsTypes
  import opened StackOps

  /** How one iteration of the loop hands control on. */
  datatype Transfer =
    | Continue                                     // the loop repeats
    | ReturnNone(finished: bool)                   // `return`; `finish()` was called iff `finished`
    | SwitchTo(callee: Value, args: seq<Value>)    // a new context for `callee` is returned
    | RaiseOut(error: Exception)                   // an exception escapes `run_context`
    | OutOfFuel                                    // only from `RunOf`: the fuel ran out

  /** The frame after a step, the instruction fetched (if any) and the transfer. */
  datatype Step = Step(frame: Frame, fetched: Option<Instruction>, transfer: Transfer)

  /** What `__run_natively` leaves on the context and returns. */
  datatype Bridged = Bridged(frame: Frame, result: Value)

  /** `__run_natively`: the top `argc` values, in push order, are the
      arguments and the value beneath them is the callee; all of them leave
      the stack. The callee is then called through the host; a non-callable
      callee or a raising call goes to `safe_raise` and yields None. */
  function NativeBridge(f: Frame, argc: nat, host: Host): Bridged
    requires argc < |f.stack|
  {
    var k := |f.stack| - argc - 1;
    var fn := f.stack[k];
    var args := f.stack[k + 1..];
    var g := f.(stack := f.stack[..k]);
    if !IsCallable(fn) then
      Bridged(SafeRaise(g, NotCallableError(fn), host), NoneValue)
    else
      match host.invoke(fn, args)
      case Err(e) => Bridged(SafeRaise(g, e, host), NoneValue)
      case Ok(v) => Bridged(g, v)
  }

  /** The `CALL_FUNCTION` branch, on a frame whose instruction was fetched. */
  function CallStep(f: Frame, ins: Instruction, host: Host): Step
  {
    var g := f.(state := Suspended);
    if |g.stack| < ins.arg + 1 then
      Step(g, Some(ins), RaiseOut(IndexError))
    else
      var callee := Resolve(g.stack[|g.stack| - (ins.arg + 1)]);
      if IsNative(callee) then
        var b := NativeBridge(g, ins.arg, host);
        Step(b.frame.(state := Running, stack := b.frame.stack + [b.result]), Some(ins), Continue)
      else
        var k := |g.stack| - (ins.arg + 1);
        Step(g.(stack := g.stack[..k]), Some(ins), SwitchTo(callee, g.stack[k + 1..]))
  }

  /** One pass through the body of `run_context`'s loop, from its head. */
  function StepOf(f: Frame, code: seq<Instruction>, host: Host): Step
  {
    if f.state == Finished then Step(f, None, ReturnNone(true))
    else if f.state == Errored then Step(f, None, ReturnNone(false))
    else if f.pointer >= |code| then Step(f, None, RaiseOut(IndexError))
    else
      var ins := code[f.pointer];
      var f1 := f.(pointer := f.pointer + 1);
      if ins.opname == CallFunction then CallStep(f1, ins, host)
      else if ins.opname !in host.handlers then
        Step(f1, Some(ins), RaiseOut(NotImplementedError(ins.opname)))
      else
        Step(host.handlers[ins.opname](f1, ins), Some(ins), Continue)
  }

  /** The loop, for at most `fuel` iterations. The result holds the frame
      and transfer it ends with and what its last iteration fetched. */
  function Loop(f: Frame, code: seq<Instruction>, host: Host, fuel: nat): Step
    decreases fuel
  {
    if fuel == 0 then Step(f, None, OutOfFuel)
    else
      var s := StepOf(f, code, host);
      if s.transfer.Continue? then Loop(s.frame, code, host, fuel - 1) else s
  }

  /** `run_context`: the state becomes RUNNING, then the loop runs. */
  function RunOf(f: Frame, code: seq<Instruction>, host: Host, fuel: nat): Step
  {
    Loop(f.(state := Running), code, host, fuel)
  }

  // ---------------------------------------------------------------------
  // Properties of one iteration

  /** At the loop head a FINISHED context calls `finish()` and returns None,
      an ERRORED one returns None; neither fetches an instruction or changes
      the frame. Any other state fetches `code[pointer]` and advances. */
  lemma LoopHead(f: Frame, code: seq<Instruction>, host: Host)
    ensures var s := StepOf(f, code, host);
            && (f.state == Finished <==> s.transfer == ReturnNone(true))
            && (f.state == Errored <==> s.transfer == ReturnNone(false))
            && (IsTerminal(f.state) ==> s.frame == f && s.fetched == None)
            && (!IsTerminal(f.state) && f.pointer < |code| ==> s.fetched == Some(code[f.pointer]))
            && (!IsTerminal(f.state) && f.pointer >= |code| ==> s == Step(f, None, RaiseOut(IndexError)))
  {
  }

  /** `CALL_FUNCTION arg` suspends the context first; with fewer than
      `arg + 1` values on the stack the indexing raises and the context
      stays SUSPENDED; otherwise the callee is the value `arg + 1` from the
      top, seen through its constructor when it is a class, and it alone
      decides between the native and the interpreted path. */
  lemma CalleeSlot(f: Frame, code: seq<Instruction>, host: Host)
    requires !IsTerminal(f.state) && f.pointer < |code|
    requires code[f.pointer].opname == CallFunction
    ensures var arg := code[f.pointer].arg;
            var s := StepOf(f, code, host);
            && (|f.stack| < arg + 1 ==>
                  s == Step(f.(pointer := f.pointer + 1, state := Suspended), Some(code[f.pointer]), RaiseOut(IndexError)))
            && (|f.stack| >= arg + 1 ==>
                  var callee := Resolve(f.stack[|f.stack| - arg - 1]);
                  (s.transfer.Continue? <==> IsNative(callee)) &&
                  (s.transfer.SwitchTo? <==> !IsNative(callee)) &&
                  (s.transfer.SwitchTo? ==> s.transfer.callee == callee))
  {
  }

  /** A native `CALL_FUNCTION arg` stays inside the loop: the context is
      RUNNING again, `arg + 1` values are gone and exactly one is pushed, so
      the stack is `arg` shorter and unchanged below the callee's slot. The
      value pushed is the call's value, with the callee called on the top
      `arg` values in push order; when the callee is not callable or the
      call raises, None is pushed and the error is handed to `safe_raise`. */
  lemma NativeCallEffect(f: Frame, code: seq<Instruction>, host: Host)
    requires !IsTerminal(f.state) && f.pointer < |code|
    requires code[f.pointer].opname == CallFunction
    requires code[f.pointer].arg < |f.stack|
    requires IsNative(Resolve(f.stack[|f.stack| - code[f.pointer].arg - 1]))
    ensures var arg := code[f.pointer].arg;
            var k := |f.stack| - arg - 1;
            var fn := f.stack[k];
            var args := f.stack[k + 1..];
            var s := StepOf(f, code, host);
            && s.transfer == Continue
            && s.fetched == Some(code[f.pointer])
            && s.frame.state == Running
            && |s.frame.stack| == |f.stack| - arg
            && s.frame.stack[..k] == f.stack[..k]
            && (!IsCallable(fn) ==>
                  s.frame.stack[k] == NoneValue && s.frame.raised == f.raised + [NotCallableError(fn)])
            && (IsCallable(fn) && host.invoke(fn, args).Err? ==>
                  s.frame.stack[k] == NoneValue && s.frame.raised == f.raised + [host.invoke(fn, args).error])
            && (IsCallable(fn) && host.invoke(fn, args).Ok? ==>
                  s.frame.stack[k] == host.invoke(fn, args).value &&
                  s.frame.pointer == f.pointer + 1 && s.frame.raised == f.raised)
  {
  }

  /** An interpreted `CALL_FUNCTION arg` leaves the loop: the context is
      SUSPENDED with its pointer past the call, exactly `arg + 1` values are
      popped and the stack below them is untouched, and the new context is
      for the resolved callee with the `arg` arguments in push order. */
  lemma InterpretedCallEffect(f: Frame, code: seq<Instruction>, host: Host)
    requires !IsTerminal(f.state) && f.pointer < |code|
    requires code[f.pointer].opname == CallFunction
    requires code[f.pointer].arg < |f.stack|
    requires !IsNative(Resolve(f.stack[|f.stack| - code[f.pointer].arg - 1]))
    ensures var arg := code[f.pointer].arg;
            var k := |f.stack| - arg - 1;
            var s := StepOf(f, code, host);
            && s.transfer == SwitchTo(Resolve(f.stack[k]), f.stack[k + 1..])
            && s.fetched == Some(code[f.pointer])
            && s.frame == Frame(f.pointer + 1, f.stack[..k], Suspended, f.raised)
  {
  }

  /** Any other opcode is looked up in the handler table: a missing one
      raises NotImplementedError(opname) with the context left as fetched
      (still in its state, RUNNING after entry); a present one is applied once
      to the context and the loop repeats. */
  lemma HandlerDispatch(f: Frame, code: seq<Instruction>, host: Host)
    requires !IsTerminal(f.state) && f.pointer < |code|
    requires code[f.pointer].opname != CallFunction
    ensures var ins := code[f.pointer];
            var f1 := f.(pointer := f.pointer + 1);
            var s := StepOf(f, code, host);
            && s.fetched == Some(ins)
            && (ins.opname !in host.handlers ==>
                  s.frame == f1 && s.transfer == RaiseOut(NotImplementedError(ins.opname)))
            && (ins.opname in host.handlers ==>
                  s.frame == host.handlers[ins.opname](f1, ins) && s.transfer == Continue)
  {
  }

  /** The one step that can run forever is a handler; no step other than a
      handler or a native call keeps the loop going. */
  lemma ContinueOnlyFromCallsOrHandlers(f: Frame, code: seq<Instruction>, host: Host)
    requires StepOf(f, code, host).transfer.Continue?
    ensures !IsTerminal(f.state) && f.pointer < |code|
    ensures var op := code[f.pointer].opname;
            op in host.handlers ||
            (op == CallFunction && code[f.pointer].arg < |f.stack| &&
             IsNative(Resolve(f.stack[|f.stack| - code[f.pointer].arg - 1])))
  {
  }

  // ---------------------------------------------------------------------
  // Properties of a whole run

  /** How one iteration can end, as seen in the state it leaves: a return
      after `finish()` leaves FINISHED, any other return ERRORED, a switch
      SUSPENDED; an iteration that goes on has fetched an instruction. */
  lemma StepExitStates(f: Frame, code: seq<Instruction>, host: Host)
    ensures var s := StepOf(f, code, host);
            && (s.transfer == ReturnNone(true) ==> s.frame.state == Finished)
            && (s.transfer == ReturnNone(false) ==> s.frame.state == Errored)
            && (s.transfer.SwitchTo? ==> s.frame.state == Suspended)
            && (s.transfer.Continue? ==> s.fetched.Some?)
            && !s.transfer.OutOfFuel?
  {
  }

  /** A run never stops in the middle of an iteration, and how it stopped is
      visible in the state: a return after `finish()` leaves FINISHED, any
      other return leaves ERRORED, a context switch leaves SUSPENDED. */
  lemma {:induction false} LoopExitStates(f: Frame, code: seq<Instruction>, host: Host, fuel: nat)
    ensures var r := Loop(f, code, host, fuel);
            && !r.transfer.Continue?
            && (r.transfer == ReturnNone(true) ==> r.frame.state == Finished)
            && (r.transfer == ReturnNone(false) ==> r.frame.state == Errored)
            && (r.transfer.SwitchTo? ==> r.frame.state == Suspended)
    decreases fuel
  {
    if fuel > 0 {
      var s := StepOf(f, code, host);
      StepExitStates(f, code, host);
      if s.transfer.Continue? {
        LoopExitStates(s.frame, code, host, fuel - 1);
      }
    }
  }

  /** The fuel bound only cuts a run short: a run that ended without using up
      its fuel ends the same way with any more fuel. */
  lemma {:induction false} MoreFuelSameRun(f: Frame, code: seq<Instruction>, host: Host, fuel: nat, more: nat)
    requires !Loop(f, code, host, fuel).transfer.OutOfFuel?
    ensures Loop(f, code, host, fuel + more) == Loop(f, code, host, fuel)
    decreases fuel
  {
    assert fuel > 0;
    var s := StepOf(f, code, host);
    if s.transfer.Continue? {
      MoreFuelSameRun(s.frame, code, host, fuel - 1, more);
      assert Loop(f, code, host, fuel + more) == Loop(s.frame, code, host, fuel - 1 + more);
    }
  }

  /** `run_context` is not a no-op on a context that already finished or
      errored: the state is reset to RUNNING on entry, so with an instruction
      left the first iteration fetches it instead of returning at the head,
      whereas a step taken from the head without entry returns at once. */
  lemma ReentryFetches(f: Frame, code: seq<Instruction>, host: Host)
    requires IsTerminal(f.state) && f.pointer < |code|
    ensures StepOf(f, code, host).fetched == None
    ensures StepOf(f.(state := Running), code, host).fetched == Some(code[f.pointer])
    ensures StepOf(f.(state := Running), code, host).transfer != ReturnNone(f.state == Finished)
  {
    var g := f.(state := Running);
    var ins := code[f.pointer];
    if ins.opname == CallFunction && ins.arg < |f.stack| {
      assert StepOf(g, code, host).frame.state == Running || StepOf(g, code, host).transfer.SwitchTo?;
    }
  }

  /** The native-addition example: with `add` a builtin and the stack
      `[add, 2, 3]`, `CALL_FUNCTION 2` leaves `[5]` and keeps running. */
  lemma NativeAdditionScenario(add: nat)
    ensures var host := Host(
              map[],
              (fn: Value, args: seq<Value>) =>
                if fn == Builtin(add) && |args| == 2 && args[0].Data? && args[1].Data?
                then Ok(Data(args[0].payload + args[1].payload, false))
                else Err(HostException(0)),
              (f: Frame, e: Exception) => Redirect(f.pointer, Errored),
              (v: Value) => []);
            var code := [Instruction(CallFunction, 2)];
            var f := Frame(0, [Builtin(add), Data(2, false), Data(3, false)], Running, []);
            StepOf(f, code, host) == Step(Frame(1, [Data(5, false)], Running, []), Some(code[0]), Continue)
  {
    var f := Frame(0, [Builtin(add), Data(2, false), Data(3, false)], Running, []);
    assert f.stack[1..] == [Data(2, false), Data(3, false)];
    assert f.stack[..0] == [];
  }
}
