/** Values, instructions, context states and the host collaborators that the
    Vanstein dispatch loop talks to but does not define. */
module VsTypes {

  datatype Option<+T> = None | Some(value: T)

  datatype Result<+T, +E> = Ok(value: T) | Err(error: E)

  /** The values that live on an operand stack, reduced to what the engine
      asks of them: is it callable, is it a host primitive, is it a class. */
  datatype Value =
    | NoneValue
      /** Any value that cannot be called (numbers, strings, ...). `nativeMark`
          is set when the object nevertheless carries a `_native_invoke`
          attribute, which sends it down the native path. */
    | Data(payload: int, nativeMark: bool)
      /** A host primitive (`inspect.isbuiltin` holds of it). */
    | Builtin(id: nat)
      /** A Python function or a `VSWrappedFunction`; `nativeMark` is set when
          it was decorated with `native_invoke`. */
    | Function(id: nat, nativeMark: bool)
      /** A class object (`type(x) is type`); `ctor` is its `__new__`. */
    | Class(id: nat, ctor: Value)

  /** A type callee is classified by its constructor entry point. */
  function Resolve(v: Value): Value
  {
    if v.Class? then v.ctor else v
  }

  /** A builtin, or anything carrying the `_native_invoke` marker. */
  predicate IsNative(v: Value)
  {
    v.Builtin? || (v.Data? && v.nativeMark) || (v.Function? && v.nativeMark)
  }

  /** Python's `callable`. */
  predicate IsCallable(v: Value)
  {
    v.Builtin? || v.Function? || v.Class?
  }

  /** One decoded instruction; an absent operand is 0. */
  datatype Instruction = Instruction(opname: string, arg: nat)

  /** The one opcode the engine handles itself. */
  const CallFunction: string := "CALL_FUNCTION"

  datatype CtxState = Pending | Running | Suspended | Errored | Finished

  predicate IsTerminal(s: CtxState)
  {
    s == Finished || s == Errored
  }

  datatype Exception =
      /** `TypeError("'<fn>' object is not callable")` */
    | NotCallableError(callee: Value)
      /** `NotImplementedError(opname)` for an opcode without a handler. */
    | NotImplementedError(opname: string)
      /** A list index out of range (operand stack or instruction list). */
    | IndexError
      /** Whatever a host callable raised. */
    | HostException(code: int)

  /** The part of a context that opcode handlers and `safe_raise` see and may
      change: instruction pointer, operand stack (top = last element), state,
      and the exceptions raised into the context so far. */
  datatype Frame = Frame(pointer: nat, stack: seq<Value>, state: CtxState, raised: seq<Exception>)

  /** Where `safe_raise` leaves the context: a new pointer (an except block)
      and a new state. */
  datatype Redirect = Redirect(pointer: nat, state: CtxState)

  /** The collaborators of the engine whose code is not modelled:
      - `handlers`: the module `instructions`, opname to handler;
      - `invoke`: the host call `fn(*args)`, a value or a raised exception;
      - `safeRaise`: the decision `safe_raise` takes for a context;
      - `codeOf`: the instruction list of a context created for a callee. */
  datatype Host = Host(
    handlers: map<string, (Frame, Instruction) -> Frame>,
    invoke: (Value, seq<Value>) -> Result<Value, Exception>,
    safeRaise: (Frame, Exception) -> Redirect,
    codeOf: Value -> seq<Instruction>)

  /** `safe_raise(context, e)`: records `e` on the context and lets the host
      decide the new pointer and state; the operand stack is left alone. */
  function SafeRaise(f: Frame, e: Exception, host: Host): (r: Frame)
    ensures r.stack == f.stack
    ensures r.raised == f.raised + [e]
  {
    var d := host.safeRaise(f, e);
    Frame(d.pointer, f.stack, d.state, f.raised + [e])
  }
}
