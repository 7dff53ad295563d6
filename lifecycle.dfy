/** The value types of the coordinator: its lifecycle states, the actions a
    signaler's control function can yield, and the worker's error result. */
module Lifecycle {

  /** The states of the ServiceManager state machine, in declaration order
      (the source numbers them 0..5 with iota). */
  datatype ManagerState = Unconfigured | New | Running | Restarting | Dying | Dead

  /** GracefulAction is an 8-bit unsigned integer in the source; only the two
      constants below are given a meaning, every other value is ignored by
      the wait loop. */
  newtype GracefulAction = x: int | 0 <= x < 0x100

  const GracefulRestart: GracefulAction := 0
  const GracefulStop: GracefulAction := 1

  /** A value of the source's `error` interface: nil, or a non-nil error
      identified by an opaque number. */
  datatype ErrorValue = Nil | Failure(id: nat)

  /** The transition graph that the comment above the state enumeration
      draws: Unconfigured -> New -> Running <-> Restarting, with Running and
      Restarting able to move to Dying, and Dying to Dead. */
  predicate DocumentedTransition(from: ManagerState, to: ManagerState)
  {
    match (from, to)
    case (Unconfigured, New) => true
    case (New, Running) => true
    case (Running, Restarting) => true
    case (Restarting, Running) => true
    case (Running, Dying) => true
    case (Restarting, Dying) => true
    case (Dying, Dead) => true
    case _ => false
  }

  /** The state changes the code can make, step by step: the goroutine's
      first step (New to Running), a restart (to Restarting from Running,
      Restarting or Dying), a stop, an empty registry, a routine error or a
      completion error (to Dying from Running, Restarting or Dying), and the
      teardown of Wait (to Dead from Restarting or Dying). Staying put is
      included. Restarting never moves back to Running. */
  predicate CodeTransition(from: ManagerState, to: ManagerState)
  {
    || from == to
    || (from == New && to == Running)
    || (from in {Running, Restarting, Dying} && to in {Restarting, Dying})
    || (from in {Restarting, Dying} && to == Dead)
  }

  /** Where the transitions the code makes and the documented graph differ:
      Dying can be left for Restarting, Restarting can reach Dead directly,
      and the documented move from Restarting back to Running never happens. */
  lemma CodeLeavesDocumentedGraph()
    ensures CodeTransition(Dying, Restarting) && !DocumentedTransition(Dying, Restarting)
    ensures CodeTransition(Restarting, Dead) && !DocumentedTransition(Restarting, Dead)
    ensures DocumentedTransition(Restarting, Running) && !CodeTransition(Restarting, Running)
    ensures forall a, b :: CodeTransition(a, b) && a != b && !DocumentedTransition(a, b) ==>
              (a, b) in {(Dying, Restarting), (Restarting, Dead)}
  {
  }

  /** The states in which a worker whose routine returned without error goes
      round its loop again with a fresh context. */
  predicate KeepsRunning(s: ManagerState)
  {
    s == Running || s == Restarting
  }
}
