/** The status state machine: the predecessor table of
    `updateTransactionStatus`, and the legality check made from it. */
module Statuses {
  import opened Outcomes

  const NEW := "NEW"
  const IN_PROGRESS := "IN_PROGRESS"
  const PENDING_RETRY := "PENDING_RETRY"
  const OK := "OK"
  const FAILED := "FAILED"
  const FAILED_INCONSISTENCE := "FAILED_INCONSISTENCE"

  /** The keys of the predecessor table: every status that can be requested. */
  const Targets: set<string> := {IN_PROGRESS, PENDING_RETRY, OK, FAILED, FAILED_INCONSISTENCE}

  /** The legal moves written out one edge at a time, as (current, target). */
  const Transitions: set<(string, string)> :=
    { (NEW, IN_PROGRESS), (PENDING_RETRY, IN_PROGRESS),
      (NEW, PENDING_RETRY),
      (IN_PROGRESS, OK),
      (IN_PROGRESS, FAILED), (OK, FAILED),
      (IN_PROGRESS, FAILED_INCONSISTENCE), (FAILED, FAILED_INCONSISTENCE), (OK, FAILED_INCONSISTENCE) }

  /** A position for each status such that every legal move goes strictly
      upwards (0 for a string that is not a status). */
  function Rank(s: string): nat
  {
    if s == NEW then 1
    else if s == PENDING_RETRY then 2
    else if s == IN_PROGRESS then 3
    else if s == OK then 4
    else if s == FAILED then 5
    else if s == FAILED_INCONSISTENCE then 6
    else 0
  }

  /** The table lookup `allowedStatusUpdates[target]`: the list of statuses a
      record may be in to be moved to `target`, or nothing when `target` is
      not a key of the table. */
  function Predecessors(target: string): (r: Option<seq<string>>)
    ensures r.Some? <==> target in Targets
    ensures r.Some? ==> forall c :: c in r.value <==> (c, target) in Transitions
  {
    if target == IN_PROGRESS then Some([NEW, PENDING_RETRY])
    else if target == PENDING_RETRY then Some([NEW])
    else if target == OK then Some([IN_PROGRESS])
    else if target == FAILED then Some([IN_PROGRESS, OK])
    else if target == FAILED_INCONSISTENCE then Some([IN_PROGRESS, FAILED, OK])
    else None
  }

  /** `allowedStatusUpdates[target]?.includes(current)`: a missing key gives
      `undefined`, which the guard reads as "not allowed". */
  function CanUpdate(current: string, target: string): (allowed: bool)
    ensures allowed <==> (current, target) in Transitions
    ensures target !in Targets ==> !allowed
    ensures allowed ==> current != target && Rank(current) < Rank(target)
  {
    match Predecessors(target)
    case None => false
    case Some(ps) => current in ps
  }

  /** Nothing leaves FAILED_INCONSISTENCE, and nothing enters NEW. */
  lemma EndPoints(s: string)
    ensures !CanUpdate(FAILED_INCONSISTENCE, s)
    ensures !CanUpdate(s, NEW)
  {
    // follows from the table: FAILED_INCONSISTENCE is in no list and NEW is no key
  }
}
