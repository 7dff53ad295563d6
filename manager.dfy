/** The ServiceManager coordinator. Its two goroutines, the worker started by
    Start and the caller blocked in Wait, are modelled as atomic steps on one
    object: each step is a stretch of code that runs under the mutex, or
    touches only one side's own variables, between two points where the other
    side may run. Where each side is in its code is kept in `worker` and
    `waiter`, and the locals each side carries across steps are fields too. */
module Manager {
  import opened Lifecycle
  import opened Registry

  /** Where the worker goroutine is. Returned carries the loop's locals `err`
      and `currentState` from the end of its first critical section. */
  datatype WorkerPc =
    | NotStarted
    | Launched
    | InRoutine
    | Returned(err: ErrorValue, current: ManagerState)
    | Exited

  /** Where the caller of Wait is: not yet in Wait, blocked in the
      multiplexed receive, holding the action a control function returned
      before taking the mutex, blocked on the completion channel alone, past
      the loop, or returned. */
  datatype WaitPc =
    | NotWaiting
    | Selecting
    | Deciding(action: GracefulAction)
    | AwaitingFinal
    | TearingDown
    | Finished

  class ServiceManager {
    /** Shared fields, guarded by the mutex in the source. */
    var state: ManagerState
    var signalers: seq<SignalerId>
    /** Whether `cancelFunc` is non-nil. */
    var hasCancel: bool
    /** Contents of the completion channel (buffered, capacity one). */
    var iteratorDone: seq<ErrorValue>
    /** Whether the start-up channel holds the worker's "running" token. */
    var runningSignalled: bool

    /** Positions of the two goroutines and the locals of Wait. */
    var worker: WorkerPc
    var waiter: WaitPc
    var cases: seq<SelectCase>
    var err: ErrorValue

    /** Contexts created so far; the current one is number contexts - 1. */
    ghost var contexts: nat
    /** The contexts whose cancel function was called, in call order. */
    ghost var cancelledContexts: seq<nat>
    /** The error the worker sent on the completion channel. */
    ghost var finalErr: ErrorValue
    /** The signalers whose Cancel was called, in call order. */
    ghost var cancelLog: seq<SignalerId>

    /** Every context is cancelled at most once, in creation order, and only
        the current one can still be pending. */
    ghost predicate ContextsCancelledOnce()
      reads this
    {
      && |cancelledContexts| + (if hasCancel then 1 else 0) == contexts
      && forall k :: 0 <= k < |cancelledContexts| ==> cancelledContexts[k] == k
    }

    ghost predicate Valid()
      reads this
    {
      && state != Unconfigured
      && ContextsCancelledOnce()
      && |iteratorDone| <= 1
      // only the exiting worker sends, once, its last error
      && (iteratorDone != [] ==> worker == Exited && iteratorDone[0] == finalErr)
      && (worker == NotStarted ==> state == New && contexts == 0 && !runningSignalled && waiter == NotWaiting)
      && (worker == Launched ==> state == New && hasCancel && !runningSignalled && waiter == NotWaiting)
      // the worker clears its cancel function before deciding, and nobody else sets one
      && ((worker.Returned? || worker == Exited) ==> !hasCancel)
      && (runningSignalled ==> waiter == NotWaiting)
      && (waiter != NotWaiting ==> !(worker == NotStarted || worker == Launched))
      // the case list always mirrors the registry
      && ((waiter == Selecting || waiter.Deciding?) ==> CasesMatch(cases, signalers))
      // the states each position of the worker allows
      && ((worker == InRoutine || worker.Returned?) ==> state in {Running, Restarting, Dying})
      && (worker.Returned? ==> worker.current in {Running, Restarting, Dying})
      && (worker.Returned? && !KeepsRunning(worker.current) ==> state in {Restarting, Dying})
      && (worker == Exited ==> state in {Restarting, Dying, Dead})
      // Dead is set by Wait's teardown and by nothing else
      && (state == Dead <==> waiter == Finished)
      && ((waiter == TearingDown || waiter == Finished) ==>
            worker == Exited && iteratorDone == [] && err == finalErr)
      && (waiter != Finished ==> cancelLog == [])
    }

    /** A freshly built manager: state New, no signalers, no context. */
    constructor ()
      ensures Valid()
      ensures state == New && signalers == [] && !hasCancel && iteratorDone == []
      ensures worker == NotStarted && waiter == NotWaiting
      ensures contexts == 0 && cancelledContexts == [] && cancelLog == []
    {
      state := New;
      signalers := [];
      hasCancel := false;
      iteratorDone := [];
      runningSignalled := false;
      worker := NotStarted;
      waiter := NotWaiting;
      cases := [];
      err := Nil;
      contexts := 0;
      cancelledContexts := [];
      finalErr := Nil;
      cancelLog := [];
    }

    /** The current state. It is never Unconfigured once built, and it is Dead
        exactly when Wait has returned. */
    function State(): (st: ManagerState)
      requires Valid()
      reads this
      ensures st != Unconfigured
      ensures st == Dead <==> waiter == Finished
    {
      state
    }

    method SetState(st: ManagerState)
      modifies this`state
      ensures state == st
    {
      state := st;
    }

    /** Registration is allowed before Start (and, uselessly, after Wait has
        returned); the source leaves it undefined in between. */
    method AddSignaler(si: SignalerId)
      requires Valid()
      requires worker == NotStarted || waiter == Finished
      modifies this`signalers
      ensures Valid()
      ensures signalers == old(signalers) + [si]
    {
      signalers := signalers + [si];
    }

    /** Evicts the signaler at `index` by swap-with-last removal; an index past
        the end changes nothing. Always reports false. */
    method RemoveSignaler(index: nat) returns (removed: bool)
      modifies this`signalers
      ensures signalers == SwapRemove(old(signalers), index)
      ensures !removed
    {
      if index < |signalers| {
        signalers := signalers[index := signalers[|signalers| - 1]];
        signalers := signalers[..|signalers| - 1];
      }
      removed := false;
    }

    /** One receive case per registered signaler, in registry order, then the
        completion channel. */
    method BuildSelectCases() returns (built: array<SelectCase>)
      ensures CasesMatch(built[..], signalers)
    {
      built := new SelectCase[|signalers| + 1](_ => ZeroCase);
      for i := 0 to |signalers|
        invariant forall k :: 0 <= k < i ==> built[k] == SelectCase(SelectRecv, SignalerChannel(signalers[k]))
      {
        built[i] := SelectCase(SelectRecv, SignalerChannel(signalers[i]));
      }
      built[built.Length - 1] := SelectCase(SelectRecv, IteratorDone);
    }

    /** Tells every registered signaler to cancel, once each, in registry order. */
    method CancelSignalers()
      modifies this`cancelLog
      ensures cancelLog == old(cancelLog) + signalers
    {
      for i := 0 to |signalers|
        invariant cancelLog == old(cancelLog) + signalers[..i]
      {
        cancelLog := cancelLog + [signalers[i]];
      }
    }

    // ---------------------------------------------------------------------
    // Steps of the worker side (Start and the goroutine it launches)

    /** Start: create the first context, then launch the worker goroutine. */
    method Start()
      requires Valid() && worker == NotStarted
      modifies this`hasCancel, this`contexts, this`worker
      ensures Valid()
      ensures hasCancel && contexts == old(contexts) + 1 && worker == Launched
    {
      hasCancel := true;
      contexts := contexts + 1;
      worker := Launched;
    }

    /** The goroutine begins: state Running, and the start-up token is sent. */
    method WorkerEnter()
      requires Valid() && worker == Launched
      modifies this`state, this`runningSignalled, this`worker
      ensures Valid()
      ensures CodeTransition(old(state), state)
      ensures state == Running && runningSignalled && worker == InRoutine
    {
      SetState(Running);
      runningSignalled := true;
      worker := InRoutine;
    }

    /** The routine returned `e`. Under the mutex: cancel and clear the context
        if one is present, force Dying when no signaler is left, and take a
        snapshot of the state. */
    method RoutineReturns(e: ErrorValue)
      requires Valid() && worker == InRoutine
      modifies this`hasCancel, this`cancelledContexts, this`state, this`worker
      ensures Valid()
      ensures CodeTransition(old(state), state)
      ensures !hasCancel
      ensures cancelledContexts ==
                if old(hasCancel) then old(cancelledContexts) + [contexts - 1] else old(cancelledContexts)
      ensures state == if signalers == [] then Dying else old(state)
      ensures worker == Returned(e, state)
    {
      if hasCancel {
        cancelledContexts := cancelledContexts + [contexts - 1];
        hasCancel := false;
      }
      if |signalers| == 0 {
        state := Dying;
      }
      var currentState := state;
      worker := Returned(e, currentState);
    }

    /** After the routine returned: an error forces Dying; then the worker
        goes round again with a fresh context exactly when there was no error
        and its snapshot was Running or Restarting, and otherwise sends its
        last error on the completion channel and ends. */
    method WorkerDecide()
      requires Valid() && worker.Returned?
      modifies this`state, this`hasCancel, this`contexts, this`worker, this`iteratorDone, this`finalErr
      ensures Valid()
      ensures CodeTransition(old(state), state)
      ensures old(worker).err != Nil ==> state == Dying
      ensures old(worker).err == Nil ==> state == old(state)
      ensures old(worker).err == Nil && KeepsRunning(old(worker).current) ==>
                && worker == InRoutine && hasCancel && contexts == old(contexts) + 1
                && iteratorDone == old(iteratorDone)
      ensures !(old(worker).err == Nil && KeepsRunning(old(worker).current)) ==>
                && worker == Exited && !hasCancel && contexts == old(contexts)
                && iteratorDone == [old(worker).err] && finalErr == old(worker).err
    {
      var e, currentState := worker.err, worker.current;
      if e != Nil {
        currentState := Dying;
        SetState(Dying);
      }
      if currentState == Running || currentState == Restarting {
        hasCancel := true;
        contexts := contexts + 1;
        worker := InRoutine;
      } else {
        iteratorDone := iteratorDone + [e];
        finalErr := e;
        worker := Exited;
      }
    }

    // ---------------------------------------------------------------------
    // Steps of the Wait side

    /** Wait begins: build the case list and consume the start-up token. */
    method WaitBegin()
      requires Valid() && waiter == NotWaiting && runningSignalled
      modifies this`cases, this`runningSignalled, this`waiter
      ensures Valid()
      ensures waiter == Selecting && !runningSignalled && CasesMatch(cases, signalers)
    {
      var built := BuildSelectCases();
      cases := built[..];
      runningSignalled := false;
      waiter := Selecting;
    }

    /** The select reports the channel of case `chosen` closed: that signaler
        is evicted. With none left, Wait goes on to block on the completion
        channel; otherwise the case list is rebuilt. */
    method OnSignalerClosed(chosen: nat)
      requires Valid() && waiter == Selecting && chosen < |cases| - 1
      modifies this`signalers, this`cases, this`waiter
      ensures Valid()
      ensures signalers == SwapRemove(old(signalers), chosen)
      ensures |signalers| == |old(signalers)| - 1
      ensures signalers == [] ==> waiter == AwaitingFinal
      ensures signalers != [] ==> waiter == Selecting && CasesMatch(cases, signalers)
    {
      var removed := RemoveSignaler(chosen);
      var l := |signalers|;
      if l == 0 {
        waiter := AwaitingFinal;
      } else {
        var built := BuildSelectCases();
        cases := built[..];
      }
    }

    /** A signaler delivered a control function, and Wait calls it with the
        manager, outside the mutex. Its action is held until the next step. */
    method EvaluateControl(chosen: nat, control: ManagerState -> GracefulAction)
      requires Valid() && waiter == Selecting && chosen < |cases| - 1
      modifies this`waiter
      ensures Valid()
      ensures waiter == Deciding(control(state))
    {
      var action := control(state);
      waiter := Deciding(action);
    }

    /** The evaluated action is applied under the mutex. Restart: state
        Restarting, the context cancelled and cleared if present, Wait keeps
        selecting. Stop: the same with state Dying, and Wait goes on to block
        on the completion channel. Any other action value changes nothing. */
    method ApplyControl()
      requires Valid() && waiter.Deciding?
      modifies this`state, this`hasCancel, this`cancelledContexts, this`waiter
      ensures Valid()
      ensures CodeTransition(old(state), state)
      ensures old(waiter).action == GracefulRestart ==> state == Restarting && waiter == Selecting
      ensures old(waiter).action == GracefulStop ==> state == Dying && waiter == AwaitingFinal
      ensures old(waiter).action == GracefulRestart || old(waiter).action == GracefulStop ==>
                && !hasCancel
                && cancelledContexts ==
                     if old(hasCancel) then old(cancelledContexts) + [contexts - 1] else old(cancelledContexts)
      ensures old(waiter).action != GracefulRestart && old(waiter).action != GracefulStop ==>
                && state == old(state) && waiter == Selecting
                && hasCancel == old(hasCancel) && cancelledContexts == old(cancelledContexts)
    {
      var action := waiter.action;
      waiter := Selecting;
      if action == GracefulRestart {
        state := Restarting;
        if hasCancel {
          cancelledContexts := cancelledContexts + [contexts - 1];
          hasCancel := false;
        }
      } else if action == GracefulStop {
        waiter := AwaitingFinal;
        state := Dying;
        if hasCancel {
          cancelledContexts := cancelledContexts + [contexts - 1];
          hasCancel := false;
        }
      }
    }

    /** The completion channel delivered a value in the select. A non-nil
        error ends the loop with state Dying and that error as the result; a
        nil error matches neither arm of the type switch and is dropped. */
    method OnCompletion()
      requires Valid() && waiter == Selecting && iteratorDone != []
      modifies this`iteratorDone, this`state, this`err, this`waiter
      ensures Valid()
      ensures CodeTransition(old(state), state)
      ensures iteratorDone == []
      ensures old(iteratorDone)[0] == Nil ==> state == old(state) && waiter == Selecting && err == old(err)
      ensures old(iteratorDone)[0] != Nil ==> state == Dying && waiter == TearingDown && err == old(iteratorDone)[0]
    {
      var recv := iteratorDone[0];
      iteratorDone := iteratorDone[1..];
      match recv
      case Nil =>
      case Failure(_) =>
        SetState(Dying);
        err := recv;
        waiter := TearingDown;
    }

    /** The blocking receive on the completion channel after a stop, or after
        the last signaler was evicted: its value is the result. */
    method ReceiveFinal()
      requires Valid() && waiter == AwaitingFinal && iteratorDone != []
      modifies this`iteratorDone, this`err, this`waiter
      ensures Valid()
      ensures err == old(iteratorDone)[0] && iteratorDone == [] && waiter == TearingDown
    {
      err := iteratorDone[0];
      iteratorDone := iteratorDone[1..];
      waiter := TearingDown;
    }

    /** After the loop: every remaining signaler is cancelled once, in order,
        then the state becomes Dead and Wait returns `err`. */
    method Teardown()
      requires Valid() && waiter == TearingDown
      modifies this`cancelLog, this`state, this`waiter
      ensures Valid()
      ensures CodeTransition(old(state), state)
      ensures cancelLog == signalers && state == Dead && waiter == Finished
      ensures err == finalErr
    {
      CancelSignalers();
      SetState(Dead);
      waiter := Finished;
    }

    /** The worker can still take a step of its own. */
    predicate WorkerCanStep()
      reads this
    {
      worker == Launched || worker == InRoutine || worker.Returned?
    }

    /** Some step of the Wait side is enabled, given that signalers may
        deliver or close at any time. */
    predicate WaitCanStep()
      reads this
    {
      || (waiter == NotWaiting && runningSignalled)
      || (waiter == Selecting && (|cases| > 1 || iteratorDone != []))
      || waiter.Deciding?
      || (waiter == AwaitingFinal && iteratorDone != [])
      || waiter == TearingDown
    }
  }

  /** Once the worker has exited and its completion value has been consumed
      without ending the loop (a nil error), a Wait left with no signaler can
      never return: neither side has a step left. */
  lemma NilCompletionWithoutSignalersDeadlocks(m: ServiceManager)
    requires m.Valid()
    requires m.waiter == Selecting && m.worker == Exited && m.iteratorDone == [] && m.signalers == []
    ensures !m.WorkerCanStep() && !m.WaitCanStep()
    ensures m.State() != Dead
  {
  }

  /** Each context's cancel function fires at most once, and only for
      contexts that were created. */
  lemma ContextsCancelledAtMostOnce(m: ServiceManager)
    requires m.Valid()
    ensures forall i, j :: 0 <= i < j < |m.cancelledContexts| ==> m.cancelledContexts[i] != m.cancelledContexts[j]
    ensures forall k :: k in m.cancelledContexts ==> k < m.contexts
  {
  }
}
