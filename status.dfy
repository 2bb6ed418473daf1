/**
 * The status tables of cftdeploy/stack.py, exactly as written there (the
 * duplicated "DELETE_COMPLETE" included), and the facts about them that the
 * progress display and the deploy loop rely on.
 */
module Status {

  const ResourceGoodStatus: seq<string> := ["CREATE_COMPLETE", "UPDATE_COMPLETE"]

  const ResourceBadStatus: seq<string> :=
    ["CREATE_FAILED", "DELETE_IN_PROGRESS", "DELETE_FAILED", "DELETE_COMPLETE", "DELETE_COMPLETE",
     "DELETE_SKIPPED", "UPDATE_FAILED"]

  const ResourceTempStatus: seq<string> := ["CREATE_IN_PROGRESS", "UPDATE_IN_PROGRESS"]

  const StackTempStatus: seq<string> :=
    ["N/A", "CREATE_IN_PROGRESS", "ROLLBACK_IN_PROGRESS", "DELETE_IN_PROGRESS", "UPDATE_IN_PROGRESS",
     "UPDATE_COMPLETE_CLEANUP_IN_PROGRESS", "UPDATE_ROLLBACK_IN_PROGRESS",
     "UPDATE_ROLLBACK_COMPLETE_CLEANUP_IN_PROGRESS"]

  const StackDoneStatus: seq<string> :=
    ["CREATE_FAILED", "CREATE_COMPLETE", "ROLLBACK_FAILED", "ROLLBACK_COMPLETE", "DELETE_FAILED",
     "DELETE_COMPLETE", "UPDATE_COMPLETE", "UPDATE_ROLLBACK_FAILED", "UPDATE_ROLLBACK_COMPLETE"]

  const StackGoodStatus: seq<string> := ["CREATE_COMPLETE", "UPDATE_COMPLETE"]

  /** The colour class `print_events` gives a resource status. */
  datatype Bucket = Temp | Bad | Good | Plain

  /** The tests of `print_events`, in its order: Temp, then Bad, then Good. */
  function ResourceBucket(status: string): (b: Bucket)
    ensures b == Plain <==>
      status !in ResourceTempStatus && status !in ResourceBadStatus && status !in ResourceGoodStatus
  {
    if status in ResourceTempStatus then Temp
    else if status in ResourceBadStatus then Bad
    else if status in ResourceGoodStatus then Good
    else Plain
  }

  /** No resource status is in two of the three resource tables. */
  lemma ResourceTablesDisjoint(status: string)
    ensures !(status in ResourceTempStatus && status in ResourceBadStatus)
    ensures !(status in ResourceTempStatus && status in ResourceGoodStatus)
    ensures !(status in ResourceBadStatus && status in ResourceGoodStatus)
  {
  }

  /**
   * Because the tables are disjoint, the order of the tests in `print_events`
   * does not matter: a status lands in the one table that holds it.
   */
  lemma BucketIsMembership(status: string)
    ensures ResourceBucket(status) == Temp <==> status in ResourceTempStatus
    ensures ResourceBucket(status) == Bad <==> status in ResourceBadStatus
    ensures ResourceBucket(status) == Good <==> status in ResourceGoodStatus
  {
    ResourceTablesDisjoint(status);
  }

  /** A stack is never both still moving and settled. */
  lemma StackTempDoneDisjoint(status: string)
    ensures !(status in StackTempStatus && status in StackDoneStatus)
  {
  }

  /** Every good stack status is settled, so the poll loop stops on it. */
  lemma GoodIsDone(status: string)
    requires status in StackGoodStatus
    ensures status in StackDoneStatus
    ensures status !in StackTempStatus
  {
    StackTempDoneDisjoint(status);
  }

  /** Settled but not good: the statuses after which a deploy exits with 1 without being forced. */
  lemma DoneButNotGood()
    ensures "ROLLBACK_COMPLETE" in StackDoneStatus && "ROLLBACK_COMPLETE" !in StackGoodStatus
    ensures "UPDATE_ROLLBACK_COMPLETE" in StackDoneStatus && "UPDATE_ROLLBACK_COMPLETE" !in StackGoodStatus
    ensures "DELETE_COMPLETE" in StackDoneStatus && "DELETE_COMPLETE" !in StackGoodStatus
  {
  }

  /** A resource being deleted counts as bad, not as in progress. */
  lemma DeleteInProgressIsBad()
    ensures ResourceBucket("DELETE_IN_PROGRESS") == Bad
  {
  }
}
