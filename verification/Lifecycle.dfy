/** The job lifecycle: the transition table every committed move is measured against. */
module Lifecycle {

  datatype Status = Pending | Assigned | Accepted | InProgress | Completed | Cancelled | Failed

  function AllowedNextStates(from: Status): (next: seq<Status>)
  {
    match from
    case Pending => [Assigned, Cancelled]
    case Assigned => [Accepted, Pending, Assigned, Cancelled]
    case Accepted => [InProgress, Cancelled]
    case InProgress => [Completed, Cancelled, Failed]
    case Completed => []
    case Cancelled => []
    case Failed => []
  }

  predicate CanTransition(from: Status, to: Status) {
    to in AllowedNextStates(from)
  }

  predicate Terminal(status: Status) {
    AllowedNextStates(status) == []
  }

  /** How far work has progressed. Only the two offering statuses share a rank and allow moves between them. */
  function Rank(status: Status): nat {
    match status
    case Pending => 0
    case Assigned => 0
    case Accepted => 1
    case InProgress => 2
    case Completed => 3
    case Cancelled => 3
    case Failed => 3
  }

  /** The i-th move of a history. */
  predicate Moves(statuses: seq<Status>, i: nat)
    requires i + 1 < |statuses|
  {
    CanTransition(statuses[i], statuses[i + 1])
  }

  /** A path through the table, as a job's history would record it. */
  predicate Path(statuses: seq<Status>) {
    forall i :: 0 <= i < |statuses| - 1 ==> Moves(statuses, i)
  }

  /** Rank never falls along any path, so a status past the offering stage is left for good. */
  lemma {:induction false} PathsNeverFallBack(statuses: seq<Status>, i: nat, k: nat)
    requires Path(statuses) && i < k < |statuses|
    ensures Rank(statuses[i]) <= Rank(statuses[k])
    ensures Rank(statuses[i]) > 0 ==> statuses[i] != statuses[k]
    decreases k
  {
    assert Moves(statuses, k - 1);
    if i < k - 1 {
      PathsNeverFallBack(statuses, i, k - 1);
    }
  }
}
