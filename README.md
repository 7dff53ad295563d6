# gracefully: the ServiceManager lifecycle coordinator, in Dafny

This project models the `ServiceManager` of the Go package `gracefully`. The
manager runs a user routine in a background goroutine under a cancellable
context. It lets registered signalers ask it to restart or stop the routine.
Its `Wait` call multiplexes all signaler channels with the routine's
completion channel until the routine has ended.

The model has four modules:

- `Lifecycle` (lifecycle.dfy) holds the value types. These are the six
  manager states, the 8-bit `GracefulAction` with its two named values
  `GracefulRestart = 0` and `GracefulStop = 1`, and the `error` result (nil or
  non-nil). It also has the transition graph drawn in the comment above the
  state enumeration (`DocumentedTransition`) and the state changes the code
  actually makes (`CodeTransition`).
- `Registry` (registry.dfy) holds the signaler registry as a sequence. It
  gives swap-with-last removal its specification `SwapRemove` and states the
  layout of the select-case list (`CasesMatch`).
- `Manager` (manager.dfy) holds the `ServiceManager` class. Its fields are
  the shared ones: `state`, `signalers`, whether a cancel function is present
  (`hasCancel`), and the contents of the completion channel. The two
  goroutines become atomic step methods. The worker side has `Start`,
  `WorkerEnter`, `RoutineReturns` and `WorkerDecide`. The `Wait` side has
  `WaitBegin`, `OnSignalerClosed`, `EvaluateControl`, `ApplyControl`,
  `OnCompletion`, `ReceiveFinal` and `Teardown`. A control function runs
  outside the mutex, so evaluating it and applying its action are two steps.
  - Where each goroutine is in its code is kept in the fields `worker` and
    `waiter`. The locals each side carries from one step to the next are kept
    too: the worker's `err`/`currentState`, and Wait's `cases`/`err`.
  - `reflect.Select` becomes a free choice of which enabled step runs next.
  - Ghost fields record which contexts were cancelled (`cancelledContexts`)
    and which signalers were told to `Cancel` (`cancelLog`).
  - Every step keeps the object invariant `Valid()`. It says each context is
    cancelled at most once, and only the exiting worker writes to the
    completion channel, once. While `Wait` is selecting, or deciding on a
    control action, the case list mirrors the registry.
    `Dead` holds exactly when `Wait` has returned, and the result of `Wait`
    is the error the worker last sent. Every step also states which state
    changes it can make (`CodeTransition`).
- `Scenarios` (scenarios.dfy) drives the class through the interleavings of
  the package's tests. These are a stop with two signalers, a restart
  followed by a stop, a closed channel, and a routine that fails at once. It
  also drives the behaviours described below. Each scenario uses only the
  steps' contracts.

Where the code and its comments disagree, the model follows the code:

- After a restart the state stays `Restarting`. Only the goroutine's first
  step sets `Running` (service.go:99). `RestartThenStop` shows it.
- A nil completion value matches neither arm of the type switch at
  service.go:193-234, so `Wait` keeps looping. With no signaler registered,
  a routine that returns nil leaves `Wait` blocked for good.
  `NilCompletionWithoutSignalersDeadlocks` and `NilCompletionIsDropped` show
  it.
- `Dying` can be left. A restart served before the completion value moves
  `Dying` to `Restarting`, and the teardown can then move `Restarting` to
  `Dead`. Neither move is in the documented graph. `DyingLeftForRestarting`
  shows both.
- `Restarting` never returns to `Running`, and these two moves are the only
  ones outside the documented graph. `CodeLeavesDocumentedGraph` states it.
- A control function that reads the state can see `Running`, ask for a
  restart, and have it applied after the worker has set `Dying` and exited.
  The state is then `Restarting` with no worker left. `StateAwareControlRaces`
  shows it.
- The restart-then-stop test (service_test.go:37-62) depends on timing. If
  the stop is served between the routine's cleanup and the worker's new
  context, it cancels nothing. The worker then runs the routine again under a
  context nobody cancels, and `Wait` waits for it
  (`StopBetweenCleanupAndRelaunch`). If the stop is served before the
  cleanup, the routine runs only once (`StopBeforeCleanup`).
- There are only two actions. Any other `GracefulAction` value is ignored,
  and there is no "continue" action. The final teardown cancels only the
  signalers still registered, not those evicted earlier.

## Model

| member | source | states |
|---|---|---|
| Lifecycle.CodeLeavesDocumentedGraph | service.go:9-14 | the code moves Dying to Restarting and Restarting to Dead, which the documented graph lacks, never moves Restarting back to Running, and makes no other undocumented move |
| Registry.SwapRemove | service.go:258-264 | an index inside the registry shortens it by one; the slot gets the former last element while it still exists; every other slot is unchanged; an index past the end leaves the registry unchanged |
| Registry.SwapRemoveMultiset | service.go:258-264 | removal takes exactly one occurrence of the evicted signaler out of the registry's multiset and keeps every other element |
| Registry.EvictionForgetsOnlyThatSignaler | service.go:172-179 | when each signaler is registered once, eviction removes exactly that signaler, keeps all the others, and leaves the registry duplicate-free |
| Registry.EvictedChannelNotSelected | service.go:172-189 | after an eviction the rebuilt cases never receive from the evicted signaler's channel, and every other signaler still has a case |
| Manager.ServiceManager.constructor | service.go:52-58 | a new manager is in state New, has no signalers and no cancel function, its completion channel is empty, and neither goroutine has started |
| Manager.ServiceManager.State | service.go:62-66 | the state is never Unconfigured, and it is Dead exactly when Wait has returned |
| Manager.ServiceManager.SetState | service.go:69-73 | the state becomes the given one and no other field changes |
| Manager.ServiceManager.AddSignaler | service.go:75-79 | the registry becomes the old one with the new signaler appended last; it is allowed before Start or after Wait has returned |
| Manager.ServiceManager.RemoveSignaler | service.go:258-264 | the registry becomes its swap-with-last removal at the index, and the result is always false |
| Manager.ServiceManager.BuildSelectCases | service.go:267-279 | the result has one more case than there are signalers; case i receives from signaler i's channel and the last case receives from the completion channel |
| Manager.ServiceManager.CancelSignalers | service.go:249-255 | Cancel is called once on each registered signaler, in registry order |
| Manager.ServiceManager.Start | service.go:93-97 | a first context is created, its cancel function is present, and the worker goroutine is launched |
| Manager.ServiceManager.WorkerEnter | service.go:98-100 | the goroutine sets state Running and sends the start-up token that Wait waits for |
| Manager.ServiceManager.RoutineReturns | service.go:106-118 | when the routine returns, a present cancel function is called once and then cleared; an empty registry forces Dying; the worker keeps the error and its snapshot of the state |
| Manager.ServiceManager.WorkerDecide | service.go:119-148 | an error forces Dying; the worker goes round again with a fresh context exactly when there was no error and the snapshot was Running or Restarting; otherwise it sends its last error on the completion channel once and exits |
| Manager.ServiceManager.WaitBegin | service.go:157-166 | Wait starts only after the start-up token arrives, and its cases mirror the registry |
| Manager.ServiceManager.OnSignalerClosed | service.go:172-190 | a closed signaler channel evicts exactly that index; if the registry becomes empty, Wait blocks on the completion channel; otherwise the cases are rebuilt |
| Manager.ServiceManager.EvaluateControl | service.go:192-196 | the chosen signaler's control function is evaluated against the state as it is at that moment, outside the mutex; nothing else changes, and the action is kept for the next step |
| Manager.ServiceManager.ApplyControl | service.go:197-223 | under the mutex, Restart: state Restarting, a present cancel function is called once and cleared, and Wait keeps looping. Stop: the same with state Dying, and Wait blocks on the completion channel. Any other action value changes nothing. The state change is one the code can make |
| Manager.ServiceManager.OnCompletion | service.go:224-234 | a non-nil completion error ends the loop with state Dying and that error as the result; a nil one is dropped and Wait keeps looping |
| Manager.ServiceManager.ReceiveFinal | service.go:184-185 | the blocking receive after a stop or after the last eviction takes the worker's error as the result |
| Manager.ServiceManager.Teardown | service.go:237-244 | every remaining signaler is cancelled once, in order; the state becomes Dead; Wait returns the error the worker last sent |
| Manager.NilCompletionWithoutSignalersDeadlocks | service.go:193-234 | after a nil completion value is dropped with no signaler left, neither goroutine has a step left, and the state never reaches Dead |
| Manager.ContextsCancelledAtMostOnce | service.go:108-112 | no context's cancel function is called twice, and only created contexts are cancelled |
| Scenarios.StopWhileRoutineWaits | service_test.go:20-35 | a stop from any signaler, while the routine waits on its context, ends Wait with nil and state Dead; every signaler is cancelled in order and the last context is cancelled once |

## Left out

- Goroutines, the mutex, and channel sends, receives and closes are not modelled as such. Each stretch of code between two points where the other goroutine can run is one atomic step; the evaluation of a control function (outside the mutex) and the application of its action (under it) are two. The worker's `setState(StateDying)` at service.go:123 is merged into the decision step that follows it. This loses only orderings in which `Wait` acts before a completion value it could not yet see.
- Closing the start-up channel (service.go:163-164) and closing the completion channel after the loop (service.go:242) are not modelled. No step reads either channel afterwards.
- `reflect.Select` has no fairness here. Any enabled case may be served next.
- The `context` package is not modelled. A context is a present/absent cancel function plus ghost bookkeeping of cancellations, and the routine's reaction to cancellation is not modelled.
- The user routine is not modelled. It may return at any time with any error.
- A control function is a function from the current state to an action. In the source it receives the whole manager. A nil control function, which would make `Wait` panic, is not modelled.
- Signalers are identified by number. The effect of their `Cancel` is only recorded in a log.
- The OS-signal adapter (signals.go), the base signaler and the manual adapter (interfaces.go:33-56, context.go) are not part of this model. Scenarios feed their actions in directly as constant control functions.
- `Run` is `Start` followed by the `Wait` steps and has no member of its own.
- Manager.ServiceManager.AddSignaler: requires that it is not called between Start and the end of Wait. The source documents this as undefined behaviour (service.go:75-76) and does not guard against it.
