/** Vocabulary shared by every part of the model. */
module Types {

  /** Ids come from one counter (src/id.rs); nodes are named by their index. */
  type Id = nat
  type NodeIx = nat
  type Instant = nat
  type SleepKey = nat

  datatype Option<+T> = None | Some(value: T)

  /** Every way the runtime can panic.

      `Internal(n)` is an `unwrap`, `assert!` or `unreachable!` at line n of its
      source file that guards the runtime's own bookkeeping. The other faults
      are panics that user code can provoke. */
  datatype Fault =
    | NodeIsStopped            // spawn on a node that is not running
    | StartDuringShutdown      // restart of a finally stopped node
    | NodeDuringShutdown       // node creation after stop_simulation
    | SleepPolledAgain         // Sleep polled after it returned Ready from its first poll
    | BorrowConflict           // destructor needs the context while the run loop holds it
    | Internal(line: nat)

  datatype Outcome<+T> = Ok(value: T) | Panic(fault: Fault)

  /** The events an event handler sees (src/event.rs). */
  datatype Event =
    | TaskRun(id: Id)
    | TimeAdvanced(amount: nat)
    | NodeSpawned(node: NodeIx)
    | TaskSpawned

  ghost predicate NoDuplicates<T>(s: seq<T>) {
    forall i, j :: 0 <= i < j < |s| ==> s[i] != s[j]
  }
}
