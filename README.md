# Film-production financing ledger, modelled in Dafny

This project models the simulated ledger of a tokenized film-financing system. The model follows
the in-memory simulation of its four Clarity contracts in `tests/mock-clarity.ts`. That file keeps
one mutable `state` object. Each public operation rewrites entries of keyed tables in it; each
read-only operation looks an entry up and fills in a default when the entry is missing.

The contracts have disjoint tables, so each one becomes its own Dafny class. No operation touches
two contracts. Each class holds the contract's tables as `map` fields, and its methods reassign
them, as the mock does:

- `ProjectVerification.ProjectRegistry` (`project-verification`). A project-id counter and the
  `film-projects` table. Registering allocates id counter+1; verifying sets the `verified` flag.
- `InvestmentManagement.InvestmentLedger` (`investment-management`). Per-project aggregates
  (`total-investment`, `investor-count`) and per-(project, investor) records (`amount`,
  `ownership-percentage`, `timestamp`).
  - Ownership is `floor(newAmount * 10000 / newTotal)` basis points.
  - It is recomputed only for the investor who acts, so every other investor's stored figure goes
    stale.
  - The class invariant says four things: every investment record belongs to a project that has
    an aggregate; a project's total is the sum of its investors' amounts; its investor count is
    at least its number of investors; no stored ownership exceeds 10000.
- `ProductionMilestone.MilestoneLedger` (`production-milestone`). A per-project milestone counter
  and the milestones.
  - Ids are dense and 1-based.
  - Each milestone moves Created → Completed → Released. Errors are checked in the code's order.
  - The invariant is "released ⇒ completed", with the completion date stamped exactly when the
    milestone is completed.
- `RevenueDistribution.RevenueLedger` (`revenue-distribution`). Per-project revenue records, a
  per-project distribution counter and the distributions.
  - Creating a distribution earmarks its amount at once.
  - The invariant: distributed ≤ total, and distributed equals the sum of the project's
    distribution amounts.

Module `LedgerTypes` holds what the four contracts share. Module `LedgerScenarios` replays the
repository's test cases against the classes. Each scenario states as its postcondition what the
model returns.

Modelling choices:

- Amounts, ids and dates are `nat`, and division is integer division.
- The mock's string keys `` `${projectId}-${x}` `` become tuple keys. This is faithful because a
  non-negative project id contains no `-`.
- The block height the mock hard-codes (123) is the constant `LedgerTypes.MockBlockHeight`.
- The caller of `invest` (`state.principals.current`) is a parameter.
- When `invest` divides by zero (amount 0 into a project with total 0), JavaScript yields `NaN`.
  The model says `Ownership.NotANumber` there.
- A missing table reads the same as an empty one, with one exception. `create-distribution`
  answers "No revenue recorded" only when the whole `project-revenue` table is absent, so the
  class keeps a `revenueTableExists` field.

Where the code and the written design disagree, the model follows the code:

- There is no zero-amount (`InvalidAmount`) check anywhere.
- `invest`, `add-milestone` and `record-revenue` do not check that the project exists.
- Once any project has revenue, a distribution for a project without revenue fails as
  insufficient, not as "No revenue recorded". With amount 0 it succeeds (`LedgerScenarios.NoRevenueFlow`).
- The design claims the stored ownerships of a project sum to 10000. Stale ownership breaks this:
  after two equal contributions the stored figures are 10000 and 5000
  (`LedgerScenarios.TwoEqualInvestors`). The invariant that does hold is the one on amounts:
  the total is the sum of the stakes.
- The investor count is not the number of investors. tests/mock-clarity.ts:170 counts a new investor
  whenever the caller's stored amount is 0, so a zero contribution followed by a positive one from
  the same caller counts that caller twice: the aggregate becomes (100, 2) with one investor
  (`LedgerScenarios.ZeroThenPositiveContribution`). The invariant therefore says only that the
  count is at least the number of investors.
- The test at tests/investment-management.test.ts:46 expects the first investor to read 5000. The
  code leaves 10000 there, and the model proves that it does.

## Model

| member | source | states |
|---|---|---|
| `ProjectVerification.ProjectRegistry.RegisterProject` | tests/mock-clarity.ts:81-110 | returns counter+1, stores it as the new counter, the id was unused, and the new project is unverified and active; ids stay exactly 1..counter |
| `ProjectVerification.ProjectRegistry.VerifyProject` | tests/mock-clarity.ts:112-122 | unknown id gives ProjectNotFound and changes nothing; otherwise only that project's `verified` becomes true and the result is Ok(true) |
| `ProjectVerification.ProjectRegistry.GetProject` | tests/mock-clarity.ts:124-132 | present exactly for ids 1..counter, returns the stored record, which is active |
| `ProjectVerification.ProjectRegistry.IsProjectVerified` | tests/mock-clarity.ts:134-142 | true exactly when the project exists and its flag is set; false for an unknown id |
| `InvestmentManagement.OwnershipOf` | tests/mock-clarity.ts:169 | NaN exactly when the new total is 0; otherwise the floor quotient, characterised by bps·total ≤ amount·10000 < (bps+1)·total |
| `InvestmentManagement.OwnershipAtMostFull` | tests/mock-clarity.ts:167-169 | a stake not above the total gives at most 10000 bps |
| `InvestmentManagement.SoleStakeIsFull` | tests/mock-clarity.ts:167-169 | a stake equal to the whole pool gives exactly 10000 bps |
| `InvestmentManagement.HalfStakeIsHalf` | tests/mock-clarity.ts:167-169 | one of two equal stakes gives exactly 5000 bps |
| `InvestmentManagement.InvestedAggregate` | tests/mock-clarity.ts:158-176 | the new total is the old total (0 by default) plus the amount; the investor count grows by one exactly when the caller's prior stake was 0 |
| `InvestmentManagement.InvestedRecord` | tests/mock-clarity.ts:162-183 | the caller's new stake is the prior stake plus the amount, with ownership recomputed against the new total and stamped at the block height |
| `InvestmentManagement.RecordAtMostAggregate` | tests/mock-clarity.ts:167-168 | in a consistent ledger every investor's prior amount is at most the project's prior total, so newAmount ≤ newTotal |
| `InvestmentManagement.InvestKeepsOwnershipBounded` | tests/mock-clarity.ts:167-183 | after invest every stored ownership is still at most 10000 bps |
| `InvestmentManagement.InvestKeepsTotals` | tests/mock-clarity.ts:167-183 | after invest every project total still equals the sum of that project's investor amounts |
| `InvestmentManagement.InvestKeepsCounts` | tests/mock-clarity.ts:170-176 | after invest every investor count still covers the number of that project's investors |
| `InvestmentManagement.InvestKeepsConsistent` | tests/mock-clarity.ts:145-186 | invest preserves the whole investment invariant |
| `InvestmentManagement.InvestmentLedger.Invest` | tests/mock-clarity.ts:145-186 | rewrites only the project aggregate and the caller's record, so other investors' ownership goes stale; returns the stored ownership (≤ 10000, NaN only for a zero new total); keeps the invariant |
| `InvestmentManagement.InvestmentLedger.GetInvestment` | tests/mock-clarity.ts:188-198 | `null` exactly when no record exists, otherwise the stored record itself, stale ownership included; a record's amount is at most its project's total and its ownership at most 10000 |
| `InvestmentManagement.InvestmentLedger.GetProjectInvestment` | tests/mock-clarity.ts:200-209 | `null` exactly when no aggregate exists, otherwise the stored aggregate; the total is the sum of the project's investor amounts and the count covers its investors |
| `ProductionMilestone.MilestoneLedger.AddMilestone` | tests/mock-clarity.ts:212-246 | returns counter+1 (counter 0 by default) as the new counter, the id was unused, and the milestone is stored not completed and not released; ids stay dense |
| `ProductionMilestone.MilestoneLedger.CompleteMilestone` | tests/mock-clarity.ts:248-269 | missing gives MilestoneNotFound, completed gives MilestoneAlreadyCompleted, and both leave the table unchanged; otherwise only `completed` and the completion date change; no flag is cleared |
| `ProductionMilestone.MilestoneLedger.ReleaseMilestoneFunds` | tests/mock-clarity.ts:271-295 | checks not found, then not completed, then already released, changing nothing on failure; otherwise sets only `funds-released` and returns `funds-allocated`; keeps released ⇒ completed |
| `ProductionMilestone.MilestoneLedger.GetMilestone` | tests/mock-clarity.ts:297-307 | present exactly for ids 1..milestone count; returns the stored milestone, which is well formed |
| `ProductionMilestone.MilestoneLedger.GetMilestoneCount` | tests/mock-clarity.ts:309-320 | every id 1..n has a milestone and id n+1 does not |
| `RevenueDistribution.DistributedSumFrame` | tests/mock-clarity.ts:388-399 | a project's earmarked sum depends only on the amounts stored under its ids |
| `RevenueDistribution.CreateKeepsSums` | tests/mock-clarity.ts:377-399 | a new distribution adds exactly its amount to its own project's sum and nothing to any other project's |
| `RevenueDistribution.CompleteKeepsSums` | tests/mock-clarity.ts:421 | completing a distribution changes no project's sum |
| `RevenueDistribution.CreateKeepsConsistent` | tests/mock-clarity.ts:362-399 | a distribution within the available revenue preserves the whole revenue invariant, including distributed ≤ total |
| `RevenueDistribution.RevenueLedger.RecordRevenue` | tests/mock-clarity.ts:323-345 | creates the table if absent and adds the amount to that project's total revenue only |
| `RevenueDistribution.RevenueLedger.CreateDistribution` | tests/mock-clarity.ts:347-402 | no table gives NoRevenueRecorded; amount > total − distributed gives InsufficientRevenue; both change nothing; otherwise returns counter+1, stores an incomplete distribution and adds the amount to distributed |
| `RevenueDistribution.RevenueLedger.Earmark` | tests/mock-clarity.ts:368-399 | the success path: next dense id, new incomplete distribution, distributed grows by the amount, last-distribution stamped, invariant kept |
| `RevenueDistribution.RevenueLedger.CompleteDistribution` | tests/mock-clarity.ts:404-424 | missing gives DistributionNotFound, completed gives DistributionAlreadyCompleted, and both change nothing; otherwise only `completed` becomes true, so it succeeds at most once per id |
| `RevenueDistribution.RevenueLedger.GetProjectRevenue` | tests/mock-clarity.ts:426-435 | `null` when the table or the entry is absent; distributed ≤ total and distributed is the sum of the project's distributions |
| `RevenueDistribution.RevenueLedger.GetDistribution` | tests/mock-clarity.ts:437-447 | present exactly for the project's ids 1..counter; returns the stored distribution |
| `RevenueDistribution.RevenueLedger.GetAvailableRevenue` | tests/mock-clarity.ts:449-464 | non-negative, and together with everything the project's distributions earmarked it makes up the total revenue |
| `LedgerScenarios.RegisterAndReadProject` | tests/project-verification.test.ts:17-65 | the first project gets id 1 and reads back with its title, director, budget, dates, unverified |
| `LedgerScenarios.VerifyProjectFlow` | tests/project-verification.test.ts:30-89 | verification returns Ok(true), is-project-verified goes false → true, and an unknown id is not found |
| `LedgerScenarios.SoleInvestor` | tests/investment-management.test.ts:13-21 | a single investment of 100000 yields 10000 bps |
| `LedgerScenarios.TwoEqualInvestors` | tests/investment-management.test.ts:23-47 | the second of two 100000 investors gets 5000 bps while the first still reads 10000 (stale), so the stored figures exceed 10000 together |
| `LedgerScenarios.TrackTotalInvestment` | tests/investment-management.test.ts:49-70 | investments of 100000 and 150000 by two investors give total 250000 and count 2 |
| `LedgerScenarios.RepeatContribution` | tests/mock-clarity.ts:167-176 | a second contribution by the same investor raises the total to 300 but keeps the count at 1 and ownership at 10000 |
| `LedgerScenarios.ZeroContribution` | tests/mock-clarity.ts:167-176 | a zero contribution to an empty project yields NaN ownership and still counts one investor |
| `LedgerScenarios.ZeroThenPositiveContribution` | tests/mock-clarity.ts:167-176 | a zero contribution followed by 100 from the same caller gives the aggregate (100, 2) and 10000 bps: the caller is counted twice |
| `LedgerScenarios.AddAndCompleteMilestone` | tests/projection-milestone.test.ts:13-50 | the first milestone gets id 1; completing it returns Ok(true) and reads back completed, not released |
| `LedgerScenarios.ReleaseMilestoneFlow` | tests/projection-milestone.test.ts:52-84 | release before completion is refused; after it, release returns 200000 once, then FundsAlreadyReleased; re-completion fails |
| `LedgerScenarios.CompleteDistributionFlow` | tests/revenue-distribution.test.ts:13-44 | completing distribution 1 returns Ok(true), reads back amount 300000 and completed, and a second completion fails |
| `LedgerScenarios.AvailableRevenueFlow` | tests/revenue-distribution.test.ts:46-66 | revenue 500000 less a 300000 distribution leaves 200000 available; a 250000 distribution is refused and distributed stays 300000 |
| `LedgerScenarios.NoRevenueFlow` | tests/mock-clarity.ts:351-366 | without a revenue table a distribution gives NoRevenueRecorded; once the table exists, a project with no revenue is refused for 1 and accepted for 0 |

## Left out

- The string-argument decoding (`replace('uint:', '')`, `parseInt`) and the `callPublic` / `callReadOnly` dispatch with its "Function not implemented in mock" fallback. These are test-harness plumbing: the model takes typed arguments and calls each operation directly.
- `deployContract` and the `contracts` table. `reset()` appears only as the initial state the constructors establish.
- JavaScript number semantics. The model uses unbounded integers: amounts are never fractional, `parseInt` never yields `NaN` for an argument, and negative ids do not occur.
- OwnershipOf: computes the exact integer floor of `newAmount * 10000 / newTotal`. tests/mock-clarity.ts:169 computes it in IEEE-754 doubles. The two agree while `newAmount * 10000` stays below 2^53, that is for amounts below about 9·10^11. Above that, the double-precision quotient can round up to the next integer, so the stored ownership can be one basis point higher; the product itself stays exact below 2^57. For example, newAmount = 1237952124466 and newTotal = 5274614931683 give 2347 in doubles and 2346 in the model. Sums beyond 2^53 likewise lose precision in the mock and not in the model.
- Aliasing. The mock's read operations return the stored record object itself, so a caller could mutate ledger state through it. The model returns values.
- The funds of a released milestone or completed distribution are not moved anywhere. The mock records only flags, and so does the model.
- The vitest assertions themselves. Several of them (`value.ownership-percentage`, `value.funds-released`) parse as JavaScript subtractions. The scenarios state the values those tests mean to check.
