/** Values shared by the four simulated contracts of the film-financing ledger. */
module LedgerTypes {

  /** A caller identity (a Clarity principal), e.g. "tx-sender" or "investor1". */
  type Principal = string

  /** The block height the mock stamps on every record it writes. */
  const MockBlockHeight: nat := 123

  /** 100% ownership, in basis points. */
  const FullOwnershipBps: nat := 10000

  /** The mock's `null` read result. */
  datatype Option<+T> = None | Some(value: T)

  /** The error strings the mock returns with `success: false`. */
  datatype Error =
    | ProjectNotFound                 // 'Project not found'
    | MilestoneNotFound               // 'Milestone not found'
    | MilestoneAlreadyCompleted       // 'Milestone already completed'
    | MilestoneNotCompleted           // 'Milestone not completed'
    | FundsAlreadyReleased            // 'Funds already released'
    | NoRevenueRecorded               // 'No revenue recorded'
    | InsufficientRevenue             // 'Insufficient available revenue'
    | DistributionNotFound            // 'Distribution not found'
    | DistributionAlreadyCompleted    // 'Distribution already completed'

  /** `{ success: true, value }` or `{ success: false, error }`. */
  datatype Result<+T> = Ok(value: T) | Err(error: Error)

  /** The value a dense per-key counter table holds for `key`; an absent entry reads as 0. */
  function CounterIn<K>(counters: map<K, nat>, key: K): nat
  {
    if key in counters then counters[key] else 0
  }

  /** The ids of each project in `table` are exactly 1..counter, with no gap and no reuse. */
  ghost predicate DenseIds<V>(counters: map<nat, nat>, table: map<(nat, nat), V>)
  {
    forall p: nat, id: nat :: (p, id) in table <==> 1 <= id <= CounterIn(counters, p)
  }
}
