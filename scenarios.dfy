/** Clients of the coordinator that drive it through the interleavings of its
    own test suite, and through the two behaviours where the code departs
    from the state graph its comments draw. Each only uses the steps'
    contracts. Signalers are numbered from 1; a lambda stands for the
    control function a signaler sends. */
module Scenarios {
  import opened Lifecycle
  import opened Registry
  import opened Manager

  /** A new manager is in state New (service_test.go:11-18). */
  method NewIsNew()
  {
    var m := new ServiceManager();
    assert m.State() == New;
  }

  /** A signaler sends a stop while the routine waits on its context, which
      the stop cancels; the routine then returns nil. Wait returns nil, every
      signaler is cancelled in order, the state is Dead, and the last context
      is cancelled once. */
  method StopWhileRoutineWaits(m: ServiceManager, chosen: nat)
    requires m.Valid() && m.waiter == Selecting && m.worker == InRoutine && m.hasCancel
    requires chosen < |m.cases| - 1
    modifies m
    ensures m.Valid() && m.State() == Dead && m.err == Nil
    ensures m.signalers == old(m.signalers) && m.cancelLog == m.signalers
    ensures m.contexts == old(m.contexts) && m.cancelledContexts == old(m.cancelledContexts) + [m.contexts - 1]
  {
    m.EvaluateControl(chosen, _ => GracefulStop);
    m.ApplyControl();
    assert m.state == Dying && !m.hasCancel;
    m.RoutineReturns(Nil);
    assert m.worker == Returned(Nil, Dying);
    m.WorkerDecide();
    m.ReceiveFinal();
    m.Teardown();
  }

  /** Two signalers; the second one stops the service (service_test.go:20-35). */
  method StopWithTwoSignalers()
  {
    var m := new ServiceManager();
    m.AddSignaler(1);
    m.AddSignaler(2);
    m.Start();
    m.WorkerEnter();
    m.WaitBegin();
    StopWhileRoutineWaits(m, 1);
    assert m.err == Nil && m.cancelLog == [1, 2] && m.cancelledContexts == [0];
  }

  /** One signaler, the service started, and a restart applied while the
      routine waits on its first context: the common prefix of
      service_test.go:37-62 and its reorderings. */
  method RestartedWithOneSignaler() returns (m: ServiceManager)
    ensures fresh(m) && m.Valid()
    ensures m.signalers == [1] && m.waiter == Selecting && m.worker == InRoutine
    ensures m.state == Restarting && !m.hasCancel
    ensures m.contexts == 1 && m.cancelledContexts == [0] && m.iteratorDone == []
  {
    m := new ServiceManager();
    m.AddSignaler(1);
    m.Start();
    m.WorkerEnter();
    m.WaitBegin();
    m.EvaluateControl(0, _ => GracefulRestart);
    m.ApplyControl();
  }

  /** A restart, then a stop, served in the order service_test.go:37-62
      hopes for: the routine runs under two contexts, each cancelled once, and
      the state after the restart stays Restarting. */
  method RestartThenStop()
  {
    var m := RestartedWithOneSignaler();
    m.RoutineReturns(Nil);
    assert m.worker == Returned(Nil, Restarting);
    m.WorkerDecide();
    assert m.worker == InRoutine && m.state == Restarting && m.contexts == 2;
    StopWhileRoutineWaits(m, 0);
    assert m.err == Nil && m.contexts == 2 && m.cancelledContexts == [0, 1];
  }

  /** The only signaler's channel is closed (service_test.go:65-88): it is
      evicted, Wait blocks on the completion channel, and the routine's nil
      return (with no signaler left, Dying) is the result. */
  method CloseOnlyChannel()
  {
    var m := new ServiceManager();
    m.AddSignaler(1);
    m.Start();
    m.WorkerEnter();
    m.WaitBegin();
    m.OnSignalerClosed(0);
    assert m.signalers == [] && m.waiter == AwaitingFinal;
    m.RoutineReturns(Nil);
    assert m.state == Dying;
    m.WorkerDecide();
    m.ReceiveFinal();
    m.Teardown();
    assert m.err == Nil && m.cancelLog == [];
  }

  /** No signaler, and the routine fails at once: Wait returns that error
      (service_test.go:176-184). */
  method RunReturnsError()
  {
    var m := new ServiceManager();
    m.Start();
    m.WorkerEnter();
    m.WaitBegin();
    m.RoutineReturns(Failure(7));
    m.WorkerDecide();
    m.OnCompletion();
    m.Teardown();
    assert m.State() == Dead && m.err == Failure(7);
  }

  /** No signaler, and the routine returns nil: the nil completion value is
      dropped by the type switch at service.go:193-234, and nothing can
      happen any more. */
  method NilCompletionIsDropped()
  {
    var m := new ServiceManager();
    m.Start();
    m.WorkerEnter();
    m.WaitBegin();
    m.RoutineReturns(Nil);
    m.WorkerDecide();
    m.OnCompletion();
    assert m.waiter == Selecting && m.State() == Dying;
    NilCompletionWithoutSignalersDeadlocks(m);
  }

  /** The routine fails, so the worker sets Dying and exits; a restart that the
      select serves before the completion value moves Dying to Restarting, and
      once the last channel closes the teardown moves Restarting to Dead. Both
      moves are outside the documented graph. */
  method DyingLeftForRestarting()
  {
    var m := new ServiceManager();
    m.AddSignaler(1);
    m.Start();
    m.WorkerEnter();
    m.WaitBegin();
    m.RoutineReturns(Failure(3));
    m.WorkerDecide();
    assert m.state == Dying && m.worker == Exited;
    m.EvaluateControl(0, _ => GracefulRestart);
    m.ApplyControl();
    assert m.state == Restarting && !DocumentedTransition(Dying, Restarting);
    m.OnSignalerClosed(0);
    m.ReceiveFinal();
    m.Teardown();
    assert m.err == Failure(3) && !DocumentedTransition(Restarting, Dead);
  }

  /** A control that reads the state is evaluated outside the mutex, so the
      worker can act between the evaluation and its effect. The control sees
      Running and asks for a restart; the routine then fails, so the worker
      sets Dying and exits; the restart lands afterwards. The worker is gone,
      the state is Restarting, and Wait keeps selecting. */
  method StateAwareControlRaces()
  {
    var m := new ServiceManager();
    m.AddSignaler(1);
    m.Start();
    m.WorkerEnter();
    m.WaitBegin();
    m.EvaluateControl(0, st => if st == Running then GracefulRestart else GracefulStop);
    assert m.waiter == Deciding(GracefulRestart);
    m.RoutineReturns(Failure(5));
    m.WorkerDecide();
    assert m.state == Dying && m.worker == Exited;
    m.ApplyControl();
    assert m.state == Restarting && m.worker == Exited && m.waiter == Selecting;
  }

  /** The order of service_test.go:37-62 with the stop served after the
      routine's cleanup (service.go:108-118) and before the worker relaunches
      (service.go:135-137). The stop finds no cancel function to call; the
      worker, whose snapshot says Restarting, then makes context 1 and runs
      the routine again. Wait blocks on the completion channel and has no step
      left until the routine returns of its own accord; nothing cancels
      context 1, so a routine that waits on its context never returns. */
  method StopBetweenCleanupAndRelaunch()
  {
    var m := RestartedWithOneSignaler();
    m.RoutineReturns(Nil);
    assert m.worker == Returned(Nil, Restarting) && !m.hasCancel;
    m.EvaluateControl(0, _ => GracefulStop);
    m.ApplyControl();
    assert m.cancelledContexts == [0] && m.waiter == AwaitingFinal;
    m.WorkerDecide();
    assert m.worker == InRoutine && m.hasCancel && m.contexts == 2;
    assert m.state == Dying && m.waiter == AwaitingFinal && m.iteratorDone == [];
    assert !m.WaitCanStep();
  }

  /** The order of service_test.go:37-62 with the stop served before the
      routine's cleanup: the worker's snapshot is Dying, so it exits after one
      run of the routine, where the test expects two. */
  method StopBeforeCleanup()
  {
    var m := RestartedWithOneSignaler();
    m.EvaluateControl(0, _ => GracefulStop);
    m.ApplyControl();
    m.RoutineReturns(Nil);
    assert m.worker == Returned(Nil, Dying);
    m.WorkerDecide();
    m.ReceiveFinal();
    m.Teardown();
    assert m.State() == Dead && m.err == Nil && m.contexts == 1;
  }
}
