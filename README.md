# Vanstein dispatch loop, modelled in Dafny

Vanstein runs CPython bytecode on its own: every function activation is a
heap-resident context (`_VSContext`) with an operand stack, an instruction
pointer, a lifecycle state (PENDING, RUNNING, SUSPENDED, ERRORED, FINISHED) and
`prev_ctx`/`next_ctx` links. `VansteinEngine.run_context` runs a context's
instructions until the context finishes, errors, or issues a `CALL_FUNCTION`
to an interpreted function. At that point it suspends the caller, creates and
links a PENDING callee context carrying the caller's result and exception
callbacks, and hands the callee back to an external driver. A call to a host
primitive (a builtin, or anything marked `_native_invoke`) runs inline through
the native-call bridge `__run_natively` instead.

The project has two layers:

- `dispatch.dfy` (module `Dispatch`) gives the loop as functions over a
  context's `Frame` (pointer, stack, state, raised exceptions):
  - `StepOf` is one pass through the loop body;
  - `CallStep` is the `CALL_FUNCTION` branch;
  - `NativeBridge` is `__run_natively`;
  - `Loop`/`RunOf` run the loop under a fuel bound.

  The lemmas in the same file state the stack arithmetic, argument order,
  state changes and exit conditions.
- `engine.dfy` (module `VsEngine`) holds the `Engine` class. Its methods work
  in place on a `Context` object (`context.dfy`, module `VsContext`): they pop
  arguments one `append(pop())` at a time, rewire the links and register the
  callbacks. Each method is proved to leave exactly the state the functions
  prescribe.

The other files hold shared pieces. `stack_ops.dfy` (module `StackOps`) has the
pop-then-reverse idiom and its closed form. `types.dfy` (module `VsTypes`) has
the values, instructions and host collaborators.

Python's runtime reflection is replaced by a closed variant `Value`:
- `Builtin` is a host primitive.
- `Function` is a Python function or `VSWrappedFunction`. It may carry the
  `native_invoke` mark.
- `Class` is a type. It carries its `__new__`.
- `Data` is a non-callable value. It may carry a `_native_invoke` attribute.
- `NoneValue` is `None`.

The collaborators whose code is not part of this model are parameters, in one
record `Host`:
- the handler table (`instructions` module), as a map from opcode name to a
  function on `Frame`;
- the host call `fn(*args)`, returning `Ok(value)` or `Err(exception)`;
- the decision `safe_raise` takes for a context;
- the instruction list of a new callee context.

Four behaviours of the code a reader might not expect:
- `run_context` sets the state to RUNNING (engine.py line 68) before the
  terminal-state check. Running an already FINISHED or ERRORED context is
  therefore not a no-op: it fetches and executes the next instruction
  (`Dispatch.ReentryFetches`).
- A missing opcode handler raises `NotImplementedError(opname)` out of
  `run_context`. It does not go through `safe_raise`, and the context keeps
  its state, RUNNING after entry (`Dispatch.HandlerDispatch`).
- A non-callable value at a call site reaches `safe_raise` with a TypeError
  only when it carries the native marker. Otherwise it takes the interpreted
  path, and the model creates a context for it (line 118 passes it to
  `_VSContext`, whose handling of a non-callable is not modelled).
- The native path sets the state back to RUNNING after the bridge (line 105),
  even when the bridge called `safe_raise`. The bridge calls the popped value
  itself: for a class that is the class object, not its `__new__`. On the
  native path `__new__` is used only to classify the callee; on the interpreted
  path the new context is created for `__new__` itself (lines 97 and 118).

## Model

| member | source | states |
|---|---|---|
| `StackOps.Reverse` | vanstein/bytecode/engine.py:40 | `reversed(args)` has the same length and holds element `i` at position `len - 1 - i` |
| `StackOps.PopN` | vanstein/bytecode/engine.py:36-38 | after `n` rounds of `args.append(stack.pop())` the stack has lost exactly its top `n` values, and the list holds them topmost first |
| `StackOps.ArgsInCallOrder` | vanstein/bytecode/engine.py:34-43 | popping `n` values and reversing gives the top `n` values in push order; stack remainder plus arguments is the original stack |
| `VsTypes.Resolve` | vanstein/bytecode/engine.py:96-97 | a class at the callee slot is replaced by its `__new__`; any other value stands for itself |
| `VsTypes.IsNative` | vanstein/bytecode/engine.py:101 | the native path is taken for a builtin, or for any value carrying the `_native_invoke` marker |
| `VsTypes.IsCallable` | vanstein/bytecode/engine.py:44 | Python's `callable`: builtins, functions and classes are callable, plain data and None are not |
| `VsTypes.SafeRaise` | vanstein/bytecode/engine.py:44-53 | `safe_raise` records the exception on the context and leaves the operand stack untouched; pointer and state are the host's decision |
| `Dispatch.NativeBridge` | vanstein/bytecode/engine.py:28-55 | the reference definition of the bridge: the top `argc` values in push order are the arguments, the value beneath them the callee, and all of them leave the stack; a non-callable callee gives `safe_raise(TypeError)` and None, a raising call `safe_raise(e)` and None, a successful call its value |
| `Dispatch.CallStep` | vanstein/bytecode/engine.py:86-144 | the reference definition of the `CALL_FUNCTION` branch: suspend, raise IndexError on a short stack, classify the resolved callee, then either bridge natively, set RUNNING and push the result, or pop the callee with its arguments and switch to a new context for it |
| `Dispatch.StepOf` | vanstein/bytecode/engine.py:70-153 | the reference definition of one loop iteration: return at FINISHED (after `finish()`) or ERRORED, raise IndexError past the end of the code, otherwise fetch and advance, then run `CALL_FUNCTION`, raise NotImplementedError for an opcode without a handler, or apply the handler and go round again |
| `Dispatch.Loop` | vanstein/bytecode/engine.py:70-153 | the reference definition of the `while True` loop, bounded by `fuel` iterations: iterate `StepOf` while it continues, and stop with the first other transfer or when the fuel is used up |
| `Dispatch.RunOf` | vanstein/bytecode/engine.py:57-70 | the reference definition of `run_context`: set the state to RUNNING, then run the loop |
| `Dispatch.LoopHead` | vanstein/bytecode/engine.py:70-82 | at the loop head FINISHED returns None with `finish()`, ERRORED returns None without, and neither fetches or changes the frame; any other state fetches `instructions[pointer]` |
| `Dispatch.CalleeSlot` | vanstein/bytecode/engine.py:89-101 | `CALL_FUNCTION arg` suspends first. With fewer than `arg + 1` values the index raises and the context stays SUSPENDED. Otherwise the callee is the value `arg + 1` from the top, taken through `__new__` for a class, and it alone selects the native or the interpreted path |
| `Dispatch.NativeCallEffect` | vanstein/bytecode/engine.py:28-109 | a native call stays in the loop with state RUNNING, and the stack is `arg` shorter and unchanged below the callee's slot. On top is the call's value, the callee having been called on the top `arg` values in push order. A non-callable callee or a raising call instead pushes None and hands `TypeError` or the call's exception to `safe_raise` |
| `Dispatch.InterpretedCallEffect` | vanstein/bytecode/engine.py:111-144 | an interpreted call returns a switch to the resolved callee with the top `arg` values in push order. The caller is SUSPENDED with its pointer past the call and exactly `arg + 1` values popped |
| `Dispatch.HandlerDispatch` | vanstein/bytecode/engine.py:146-153 | any other opcode missing from the table raises `NotImplementedError(opname)` with the frame as fetched; a present handler is applied once to `(context, instruction)` and the loop repeats |
| `Dispatch.ContinueOnlyFromCallsOrHandlers` | vanstein/bytecode/engine.py:70-153 | the loop goes round again only after a handler call or a native `CALL_FUNCTION` |
| `Dispatch.StepExitStates` | vanstein/bytecode/engine.py:70-153 | one iteration that returns after `finish()` leaves FINISHED, any other return leaves ERRORED, a switch leaves SUSPENDED, and an iteration that goes round again has fetched an instruction |
| `Dispatch.LoopExitStates` | vanstein/bytecode/engine.py:70-153 | a run never stops mid-iteration. A return after `finish()` leaves FINISHED, any other return leaves ERRORED, and a context switch leaves the caller SUSPENDED |
| `Dispatch.MoreFuelSameRun` | vanstein/bytecode/engine.py:70 | the iteration bound only cuts a run short: a run that ended within its bound ends the same way under any larger bound |
| `Dispatch.ReentryFetches` | vanstein/bytecode/engine.py:67-80 | on a FINISHED or ERRORED context the loop head alone returns without fetching, but `run_context` first resets the state to RUNNING and so fetches the next instruction |
| `Dispatch.NativeAdditionScenario` | vanstein/bytecode/engine.py:93-109 | with a builtin `add` and stack `[add, 2, 3]`, `CALL_FUNCTION 2` leaves `[5]`, RUNNING, pointer 1 |
| `VsContext.Context.constructor` | vanstein/bytecode/engine.py:118 | a new context for a callee starts unlinked, without callbacks or arguments, at pointer 0 with an empty stack |
| `VsContext.Context.NextInstruction` | vanstein/bytecode/engine.py:80 | `next_instruction()` yields the instruction at the pointer and advances it; past the end nothing is fetched |
| `VsContext.Context.Push` | vanstein/bytecode/engine.py:107 | `push(v)` puts `v` on top and changes nothing else |
| `VsContext.Context.Pop` | vanstein/bytecode/engine.py:135 | `pop()` returns the top value and removes exactly it |
| `VsContext.Context.FillArgs` | vanstein/bytecode/engine.py:139 | `fill_args` stores exactly the given arguments |
| `VsContext.Context.Finish` | vanstein/bytecode/engine.py:74 | `finish()` runs once per call and touches nothing the engine reads |
| `VsContext.Context.AddDoneCallback` | vanstein/bytecode/engine.py:129 | appends the callback to the done callbacks |
| `VsContext.Context.AddExceptionCallback` | vanstein/bytecode/engine.py:130 | appends the callback to the exception callbacks |
| `VsContext.Context.SafeRaise` | vanstein/bytecode/engine.py:45 | `safe_raise(context, e)` changes the context as `VsTypes.SafeRaise` says and nothing else |
| `VsContext.Context.RunHandler` | vanstein/bytecode/engine.py:153 | a handler call changes the context's pointer, stack, state and raised exceptions to what the handler computes, and nothing else |
| `VsEngine.Engine.constructor` | vanstein/bytecode/engine.py:24-26 | a new engine has no current instruction and no current context |
| `VsEngine.Engine.PopArgs` | vanstein/bytecode/engine.py:34-40 | the `append(pop())` loop followed by `reversed` (also at lines 133-137) yields the top `arg` values in push order and removes exactly those from the stack |
| `VsEngine.Engine.RunNatively` | vanstein/bytecode/engine.py:28-55 | the in-place bridge, popping its arguments through `PopArgs`, leaves the context and returns exactly what `NativeBridge` prescribes: the callee beneath the arguments called on them, or None after `safe_raise` |
| `VsEngine.Engine.SwitchContext` | vanstein/bytecode/engine.py:111-144 | the new context is fresh and linked both ways (`prev_ctx`/`next_ctx`). It is PENDING and holds exactly the caller's result and exception callbacks and the top `arg` values in push order; the caller loses exactly those values and the callee |
| `VsEngine.Engine.CallFunctionStep` | vanstein/bytecode/engine.py:86-144 | the in-place `CALL_FUNCTION` branch ends in the frame and exit that `CallStep` prescribes; the native path never touches `next_ctx` |
| `VsEngine.Engine.Step` | vanstein/bytecode/engine.py:70-153 | one loop iteration leaves the context as `StepOf` prescribes. It reports the same exit, calls `finish()` exactly when it returns from FINISHED, and records the fetched instruction as current |
| `VsEngine.Engine.RunContext` | vanstein/bytecode/engine.py:57-153 | `run_context` sets `current_context`, sets the state RUNNING and iterates. It ends in the frame, exit and `finish()` count that `RunOf` prescribes, with the last fetched instruction as current. A returned context is fresh and linked to the caller; `prev_ctx` and the callbacks of the caller are never touched |

## Left out

- RunContext: the model states the current instruction only when the last iteration fetched one. It leaves it unstated when the run returns at the loop head (FINISHED or ERRORED), when `next_instruction` raises past the end of the code, and when the run ends `Exhausted`; in the first two cases the current instruction is the one an earlier iteration fetched.
- RunContext: the source loops `while True` and may diverge; the model runs at most `fuel` iterations and reports `Exhausted` when they are used up.
- `VsTypes.SafeRaise`: the body of `safe_raise` (vanstein/bytecode/vs_exceptions.py) is not part of this model. It is assumed to change only the context's pointer and state and to record the exception, leaving the operand stack alone. How it fires exception callbacks is not modelled.
- `VsContext.Context.NextInstruction`: `_VSContext` (vanstein/context.py) is not part of this model. `next_instruction` is assumed to read `instructions[pointer]` and advance by one, raising IndexError past the end.
- The opcode handlers of `vanstein.bytecode.instructions` are not part of this model. Each is an arbitrary function on the context's pointer, stack, state and raised exceptions. A handler that lets a Python exception escape `run_context` is not modelled.
- The host call `fn(*args)` is an uninterpreted function returning a value or an exception. Native callables that re-enter the engine are not modelled.
- A `VSWrappedFunction` callee (`bottom_of_stack()`) and a plain function (`_VSContext(fn)`) both become a fresh context for the callee, whose instructions come from the host. How `_VSContext` handles a non-callable callee is not modelled.
- The `dis` import fallback, the `isinstance(..., dis.Instruction)` assertion and the `native_invoke` decorator on the two engine methods are host-library plumbing. An instruction is an opcode name and an operand, and an absent operand is 0.
- The driver loop that requeues returned contexts and the callbacks that resume a suspended caller are outside the engine and are not modelled. The same goes for the propagation of a callee's fault to its caller.
