/** The execution context (`_VSContext`) as far as the engine touches it.
    Its own methods are not part of this model; each is given here by its
    frame condition: what it reads and the fields it changes. */
module VsContext {
  import opened VsTypes

  /** A caller's bound `_on_result_cb` / `_on_exception_cb`. */
  datatype Callback = OnResult(owner: Context) | OnException(owner: Context)

  class Context {
    /** The callable this context runs and its instructions. */
    const func: Value
    const instructions: seq<Instruction>

    var pointer: nat
    var stack: seq<Value>              // top of stack = last element
    var state: CtxState
    var raised: seq<Exception>         // exceptions handed to `safe_raise`, in order
    var prevCtx: Context?
    var nextCtx: Context?
    var doneCallbacks: seq<Callback>
    var exceptionCallbacks: seq<Callback>
    var args: seq<Value>               // what `fill_args` received
    var finishCalls: nat               // how often `finish()` ran

    /** What handlers and `safe_raise` see of the context. */
    function View(): Frame
      reads this
    {
      Frame(pointer, stack, state, raised)
    }

    /** `_VSContext(fn)`: a fresh context, unlinked, without callbacks. */
    constructor (fn: Value, code: seq<Instruction>)
      ensures func == fn && instructions == code
      ensures View() == Frame(0, [], Pending, [])
      ensures prevCtx == null && nextCtx == null
      ensures doneCallbacks == [] && exceptionCallbacks == []
      ensures args == [] && finishCalls == 0
    {
      func, instructions := fn, code;
      pointer, stack, state, raised := 0, [], Pending, [];
      prevCtx, nextCtx := null, null;
      doneCallbacks, exceptionCallbacks := [], [];
      args, finishCalls := [], 0;
    }

    /** `next_instruction()`: the instruction at the pointer, which moves on
        by one; past the end nothing is fetched (an IndexError). */
    method NextInstruction() returns (ins: Option<Instruction>)
      modifies this`pointer
      ensures old(pointer) < |instructions| ==> ins == Some(instructions[old(pointer)]) && pointer == old(pointer) + 1
      ensures old(pointer) >= |instructions| ==> ins == None && pointer == old(pointer)
    {
      if pointer < |instructions| {
        ins := Some(instructions[pointer]);
        pointer := pointer + 1;
      } else {
        ins := None;
      }
    }

    /** `push(v)` */
    method Push(v: Value)
      modifies this`stack
      ensures stack == old(stack) + [v]
    {
      stack := stack + [v];
    }

    /** `pop()` (and `stack.pop()`) on a non-empty stack. */
    method Pop() returns (v: Value)
      requires stack != []
      modifies this`stack
      ensures v == old(stack)[|old(stack)| - 1]
      ensures stack == old(stack)[..|old(stack)| - 1]
    {
      v := stack[|stack| - 1];
      stack := stack[..|stack| - 1];
    }

    /** `fill_args(*a)` */
    method FillArgs(a: seq<Value>)
      modifies this`args
      ensures args == a
    {
      args := a;
    }

    /** `finish()`: fires the done callbacks (not modelled); counted. */
    method Finish()
      modifies this`finishCalls
      ensures finishCalls == old(finishCalls) + 1
    {
      finishCalls := finishCalls + 1;
    }

    /** `add_done_callback(cb)` */
    method AddDoneCallback(cb: Callback)
      modifies this`doneCallbacks
      ensures doneCallbacks == old(doneCallbacks) + [cb]
    {
      doneCallbacks := doneCallbacks + [cb];
    }

    /** `add_exception_callback(cb)` */
    method AddExceptionCallback(cb: Callback)
      modifies this`exceptionCallbacks
      ensures exceptionCallbacks == old(exceptionCallbacks) + [cb]
    {
      exceptionCallbacks := exceptionCallbacks + [cb];
    }

    /** `safe_raise(self, e)` */
    method SafeRaise(e: Exception, host: Host)
      modifies this`pointer, this`state, this`raised
      ensures View() == VsTypes.SafeRaise(old(View()), e, host)
    {
      var r := VsTypes.SafeRaise(View(), e, host);
      pointer, state, raised := r.pointer, r.state, r.raised;
    }

    /** `handler(self, ins)` for a handler of the `instructions` module. */
    method RunHandler(handler: (Frame, Instruction) -> Frame, ins: Instruction)
      modifies this`pointer, this`stack, this`state, this`raised
      ensures View() == handler(old(View()), ins)
    {
      var r := handler(View(), ins);
      pointer, stack, state, raised := r.pointer, r.stack, r.state, r.raised;
    }
  }
}
