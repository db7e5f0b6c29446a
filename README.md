# Bike-share ledgers in Dafny

A model of the three in-memory ledgers that stand for the Clarity contracts of a
decentralized bicycle-sharing system, with proofs of the invariants they keep.

- **Maintenance ledger** (`maintenance.dfy`, module `Maintenance`). It holds
  per-bicycle maintenance schedules, immutable maintenance records, issue
  reports, and a history of record and issue ids per bicycle.
  - A schedule's due block is `now + days * 144`.
  - Each history list keeps only its newest 100 ids; the oldest is evicted first.
  - A critical issue report forces the schedule `overdue` in the same step.
  - Usage reports escalate the status to `due-soon` at 80% of an interval and to
    `overdue` at the full interval.
- **User account ledger** (`users.dfy`, module `Users`). It holds self-service user
  records keyed by the caller, one payment method per user, a deposit balance
  that never goes negative, and verification documents keyed by (user, type)
  with an expiry. It also defines the four-part rental eligibility predicate.
- **Bicycle and station registry** (`registry.dfy`, module `Registry`). Each
  station's free spots plus docked bicycles always equal its capacity. Each
  bicycle has a four-value status and is managed by the contract owner or by
  the bicycle's own owner.
- **Shared types** (`common.dfy`, module `Common`): caller identities and the
  tagged `Ok`/`Err` (`Pass`/`Fail`) results.
- **Scenarios** (`scenarios.dfy`): client methods that replay typical sequences
  of operations and check what follows from the contracts alone.

Each ledger is a class whose fields are the contract's maps. Each operation is a
method that validates, then mutates. Its contract gives the error for each
failed check, in the contract's order, and says a failed call changes nothing.
On success the contract gives the whole new state. Every method preserves the
class invariant `Valid()`:

- Maintenance: schedules and histories have the same keys; histories hold at
  most 100 ids; every id in a history names a stored record or issue of that
  bicycle.
- Users: verification level ≤ 3; reputation ≤ 100; `hasPaymentMethod` holds
  exactly when a payment method is stored; a pending document has expiry 0.
- Registry: every station is balanced.

The model follows the code as written, including these points:

- Most maintenance operations check the contract owner first. That includes
  recording maintenance.
- `flagOverdueMaintenance` answers "not yet due" with the not-authorized code (100).
- Initializing a schedule does not consult the bicycle registry.
- The registry does not record which station a bicycle is docked at.
  `removeBicycle` frees a spot at whatever existing station it is given.

## Model

| member | source | states |
|---|---|---|
| `Maintenance.Error.Code` | tests/usage-tracking.test.ts:13-23 | every maintenance error maps to its code in 100..108 |
| `Maintenance.CodesDistinct` | tests/usage-tracking.test.ts:13-23 | distinct maintenance errors have distinct codes |
| `Maintenance.ParseScheduleStatus` | tests/usage-tracking.test.ts:106-109 | accepts exactly the four schedule status names, and the parsed status names the input back |
| `Maintenance.ScheduleStatusRoundTrip` | tests/usage-tracking.test.ts:106-109 | each schedule status parses back from its name |
| `Maintenance.ParseSeverity` | tests/usage-tracking.test.ts:192-195 | accepts exactly low, medium, high and critical |
| `Maintenance.SeverityRoundTrip` | tests/usage-tracking.test.ts:192-195 | each severity parses back from its name |
| `Maintenance.ParseIssueStatus` | tests/usage-tracking.test.ts:247-250 | accepts exactly the five issue status names |
| `Maintenance.IssueStatusRoundTrip` | tests/usage-tracking.test.ts:247-250 | each issue status parses back from its name |
| `Maintenance.AppendBounded` | tests/usage-tracking.test.ts:168-173 | the pushed id is last and every entry is old or new; below 100 nothing is evicted; from a list of at most 100 the result is the newest 100 of old + new |
| `Maintenance.AppendAllKeepsNewest` | tests/usage-tracking.test.ts:214-219 | after any number of pushes a history holds exactly the newest 100 ids pushed, oldest evicted first |
| `Maintenance.StatusAfterUsage` | tests/usage-tracking.test.ts:313-323 | reaching either interval gives overdue; below 80% of both the status is unchanged; due-soon or overdue appear only when usage earns them or they were already set; usage never produces up-to-date or in-maintenance from another status; at 80% of either interval but below both the result is due-soon whatever the prior status |
| `Maintenance.UsageMonotone` | tests/usage-tracking.test.ts:313-323 | once usage is at 80% of an interval the status is due-soon or overdue, and more usage never lowers it |
| `Maintenance.UsageBoundaries` | tests/usage-tracking.test.ts:313-323 | the thresholds are inclusive: exactly either interval is overdue; exactly 80% of the ride interval, or of the distance interval, is due-soon |
| `Maintenance.UsageMayLowerOverdue` | tests/usage-tracking.test.ts:318-323 | every overdue schedule (for instance one forced by a critical issue) becomes due-soon under a usage report at 80% of either interval and below both |
| `Maintenance.RecordKeepsConsistent` | tests/usage-tracking.test.ts:146-175 | storing a record of a scheduled bicycle and pushing its id keeps the ledger invariant |
| `Maintenance.IssueKeepsConsistent` | tests/usage-tracking.test.ts:198-233 | storing a new issue, pushing its id and changing only a schedule's status keeps the ledger invariant |
| `Maintenance.MaintenanceLedger.constructor` | tests/usage-tracking.test.ts:4-10 | a fresh ledger has the given owner, empty maps and satisfies the invariant |
| `Maintenance.MaintenanceLedger.SetContractOwner` | tests/usage-tracking.test.ts:29-35 | only the current owner can hand over ownership; nothing else changes |
| `Maintenance.MaintenanceLedger.InitializeMaintenanceSchedule` | tests/usage-tracking.test.ts:37-68 | owner only (100), new bicycle only (101); creates a schedule due `now + days*144` with count 0 and status up-to-date, plus an empty history |
| `Maintenance.MaintenanceLedger.UpdateMaintenanceSchedule` | tests/usage-tracking.test.ts:70-95 | owner only, schedule must exist (102); replaces the intervals and recomputes the due block from now |
| `Maintenance.MaintenanceLedger.UpdateMaintenanceStatus` | tests/usage-tracking.test.ts:97-117 | owner, existence, then a valid status name (107); sets exactly that status; the bicycle is then due exactly when the status is due-soon or overdue |
| `Maintenance.MaintenanceLedger.RecordMaintenance` | tests/usage-tracking.test.ts:119-181 | owner, schedule exists (102), record id new (103); stores the record, stamps now, recomputes the due block, adds exactly 1 to the count, resets to up-to-date, pushes the id; the bicycle is then no longer due |
| `Maintenance.MaintenanceLedger.ReportIssue` | tests/usage-tracking.test.ts:183-236 | anyone; schedule (102), new issue id (105), valid severity (108) in that order; the issue starts reported and sits in the history; critical forces overdue and leaves an open critical issue, other severities leave schedules unchanged |
| `Maintenance.MaintenanceLedger.UpdateIssueStatus` | tests/usage-tracking.test.ts:238-258 | owner, issue exists (106), one of the five statuses (107); sets exactly that status |
| `Maintenance.MaintenanceLedger.ResolveIssue` | tests/usage-tracking.test.ts:260-278 | owner, issue exists; status resolved, notes, resolvedAt = now, resolvedBy = caller; the issue is no longer open-critical |
| `Maintenance.MaintenanceLedger.FlagOverdueMaintenance` | tests/usage-tracking.test.ts:280-299 | owner, existence; before the due block it fails with 100 and changes nothing, otherwise the status becomes overdue and the bicycle is due |
| `Maintenance.MaintenanceLedger.UpdateMaintenanceDueToUsage` | tests/usage-tracking.test.ts:301-328 | owner, existence; the schedule's status becomes `StatusAfterUsage`, nothing else changes; usage at 80% of either interval leaves the bicycle due |
| `Maintenance.MaintenanceLedger.GetMaintenanceSchedule` | tests/usage-tracking.test.ts:331-333 | a schedule is found exactly when the bicycle has a history |
| `Maintenance.MaintenanceLedger.GetMaintenanceRecord` | tests/usage-tracking.test.ts:335-338 | a record is found only for a bicycle with a schedule |
| `Maintenance.MaintenanceLedger.GetIssueDetails` | tests/usage-tracking.test.ts:340-342 | an issue found always belongs to a scheduled bicycle |
| `Maintenance.MaintenanceLedger.GetBicycleMaintenanceHistory` | tests/usage-tracking.test.ts:344-349 | not found (102) exactly without a schedule; otherwise at most 100 ids, each a stored record of this bicycle |
| `Maintenance.MaintenanceLedger.GetBicycleIssueHistory` | tests/usage-tracking.test.ts:351-356 | not found (102) exactly without a schedule; otherwise at most 100 ids, each a stored issue of this bicycle |
| `Maintenance.MaintenanceLedger.IsMaintenanceDue` | tests/usage-tracking.test.ts:358-365 | due exactly when the bicycle has a schedule in an urgent tier (due-soon or overdue) |
| `Maintenance.MaintenanceLedger.GetMaintenanceStats` | tests/usage-tracking.test.ts:367-381 | not found exactly without a schedule; blocks since last plus blocks until next equal the schedule's span whatever the clock; blocks until next is negative exactly when past due |
| `Maintenance.MaintenanceLedger.HasCriticalIssues` | tests/usage-tracking.test.ts:383-404 | true exactly when the bicycle has a history and some id in it names a critical issue that is neither resolved nor invalid |
| `Users.Error.Code` | tests/user-verification.test.ts:12-23 | every user-ledger error maps to its code in 100..110 (110 for an invalid score) |
| `Users.CodesDistinct` | tests/user-verification.test.ts:12-23 | distinct user-ledger errors have distinct codes |
| `Users.ParseVerdict` | tests/user-verification.test.ts:262-264 | accepts exactly "verified" and "rejected", never pending |
| `Users.EligibilityNeedsEach` | tests/user-verification.test.ts:350-355 | falsifying any one of active, payment method, level ≥ 1, reputation ≥ 50 makes a user ineligible; changing the deposit balance to any value never changes eligibility |
| `Users.UserLedger.constructor` | tests/user-verification.test.ts:4-9 | a fresh ledger has the given owner, empty maps and satisfies the invariant |
| `Users.UserLedger.SetContractOwner` | tests/user-verification.test.ts:29-35 | only the current owner can hand over ownership |
| `Users.UserLedger.RegisterUser` | tests/user-verification.test.ts:37-61 | keyed by the caller; fails with 101 for an existing user; starts at level 0, reputation 70, deposit 0, active, no payment method, zero totals, so the balance query reads 0 and the user cannot rent yet |
| `Users.UserLedger.UpdateUserProfile` | tests/user-verification.test.ts:63-79 | the caller's own record gets the new name and hashes (102 if absent) |
| `Users.UserLedger.SetUserActiveStatus` | tests/user-verification.test.ts:81-95 | sets the caller's active flag; deactivated users cannot rent |
| `Users.UserLedger.UpdateUserVerificationLevel` | tests/user-verification.test.ts:97-117 | owner, user exists, level ≤ 3 (else 108); sets exactly that level |
| `Users.UserLedger.AddPaymentMethod` | tests/user-verification.test.ts:119-142 | replaces any earlier method of the caller and sets the flag, keeping flag and table in agreement |
| `Users.UserLedger.RemovePaymentMethod` | tests/user-verification.test.ts:144-164 | 104 when there is no method; otherwise deletes it and clears the flag, so the user cannot rent |
| `Users.UserLedger.AddDeposit` | tests/user-verification.test.ts:166-180 | adds exactly the amount; the result is the new balance, which the balance query then returns |
| `Users.UserLedger.WithdrawDeposit` | tests/user-verification.test.ts:182-201 | 109 and no change when the amount exceeds the balance; otherwise subtracts exactly the amount, and the balance query returns the new balance |
| `Users.UserLedger.ChargeUser` | tests/user-verification.test.ts:203-225 | owner only; 109 as for withdrawal; moves the amount from deposit to total spent, preserving their sum; the balance query returns the new balance |
| `Users.UserLedger.SubmitVerificationDocument` | tests/user-verification.test.ts:227-249 | user exists (102), one document per (user, type) (105); stored pending with verifiedAt and expiry 0 |
| `Users.UserLedger.VerifyDocument` | tests/user-verification.test.ts:251-274 | owner, document exists (106), verdict verified or rejected (107); stamps now and expiry now + blocks, keeps the hash; afterwards the document reads expired exactly after that expiry |
| `Users.UserLedger.UpdateUserRidingStats` | tests/user-verification.test.ts:276-294 | owner, user exists; adds exactly the given rides, minutes and spending |
| `Users.UserLedger.UpdateReputationScore` | tests/user-verification.test.ts:296-316 | owner, user exists, score ≤ 100 (else 110); sets exactly that score |
| `Users.UserLedger.GetUserProfile` | tests/user-verification.test.ts:319-321 | a stored profile has level ≤ 3, reputation ≤ 100 and a payment flag matching the table |
| `Users.UserLedger.HasValidPaymentMethod` | tests/user-verification.test.ts:323-326 | the user's flag is true exactly when a payment method is stored for the user |
| `Users.UserLedger.GetUserVerificationLevel` | tests/user-verification.test.ts:328-331 | not found exactly for an unknown user; otherwise a level in 0..3 |
| `Users.UserLedger.GetDocumentVerificationStatus` | tests/user-verification.test.ts:338-342 | not found (106) exactly without the document; found documents belong to registered users |
| `Users.UserLedger.IsDocumentVerificationExpired` | tests/user-verification.test.ts:344-348 | false for a missing document; a pending document reads expired at every block after 0 |
| `Users.UserLedger.CanRentBike` | tests/user-verification.test.ts:350-355 | true exactly for a registered user meeting all four conditions, and then a payment method is really stored |
| `Registry.Error.Code` | tests/bicycle-registration.test.ts:11-18 | every registry error maps to its code in 100..105 |
| `Registry.CodesDistinct` | tests/bicycle-registration.test.ts:11-18 | distinct registry errors have distinct codes |
| `Registry.ParseBicycleStatus` | tests/bicycle-registration.test.ts:81-84 | accepts exactly available, in-use, maintenance and retired |
| `Registry.BicycleStatusRoundTrip` | tests/bicycle-registration.test.ts:81-84 | each bicycle status parses back from its name |
| `Registry.Station.Docked` | tests/bicycle-registration.test.ts:45-49 | one more bicycle, the sum of spots and bicycles conserved, balance kept; only the two counters change (name, coordinates and capacity kept) |
| `Registry.Station.Undocked` | tests/bicycle-registration.test.ts:205-209 | one fewer bicycle, the sum conserved, balance kept; only the two counters change |
| `Registry.UndockUndoesDock` | tests/bicycle-registration.test.ts:205-209 | removing a bicycle exactly undoes registering one at the same station, and vice versa |
| `Registry.BicycleRegistry.constructor` | tests/bicycle-registration.test.ts:4-8 | a fresh registry has the given owner, no bicycles or stations |
| `Registry.BicycleRegistry.SetContractOwner` | tests/bicycle-registration.test.ts:24-30 | only the current owner can hand over ownership (else 100, owner unchanged) |
| `Registry.BicycleRegistry.RegisterStation` | tests/bicycle-registration.test.ts:110-129 | owner (100), new id (103); a new station has every spot free and no bicycles |
| `Registry.BicycleRegistry.RegisterBicycle` | tests/bicycle-registration.test.ts:32-68 | owner (100), new bicycle (101), station exists (104); the station docks one bicycle; the bicycle is owned by the caller, available, with zero totals and both dates now; lookups then find it and return the given hourly rate |
| `Registry.BicycleRegistry.UpdateBicycleStatus` | tests/bicycle-registration.test.ts:70-90 | existence (102) before authorization (owner or bicycle owner, 100) before a valid status (105); sets exactly that status |
| `Registry.BicycleRegistry.UpdateBicycleLocation` | tests/bicycle-registration.test.ts:92-108 | existence then owner-or-bicycle-owner; sets exactly the coordinates |
| `Registry.BicycleRegistry.UpdateBicycleStatistics` | tests/bicycle-registration.test.ts:154-171 | owner only; adds exactly the given rides, distance and earnings |
| `Registry.BicycleRegistry.UpdateBicycleMaintenance` | tests/bicycle-registration.test.ts:173-190 | existence then owner-or-bicycle-owner; stamps now and makes the bicycle available |
| `Registry.BicycleRegistry.RemoveBicycle` | tests/bicycle-registration.test.ts:192-215 | owner, bicycle (102), station (104); the bicycle is gone (lookups answer none and 102) and the station undocks one |
| `Registry.BicycleRegistry.GetStation` | tests/bicycle-registration.test.ts:136-138 | a station found is always balanced |
| `Registry.BicycleRegistry.IsBicycleAvailable` | tests/bicycle-registration.test.ts:140-143 | never true of an unknown bicycle; made true by registration and maintenance, false by removal |

Three queries are plain lookups with no contract of their own:

- `Registry.BicycleRegistry.GetBicycle` (tests/bicycle-registration.test.ts:132-134)
- `Registry.BicycleRegistry.GetBicycleHourlyRate` (tests/bicycle-registration.test.ts:145-151)
- `Users.UserLedger.GetUserDepositBalance` (tests/user-verification.test.ts:333-336)

What they return after each operation is stated by the contracts of
`RegisterBicycle`, `RemoveBicycle`, `RegisterUser`, `AddDeposit`, `WithdrawDeposit` and `ChargeUser`.

## Left out

- The vitest `describe`/`it` blocks are placeholders that assert nothing. They are not modelled.
- The block height and the transaction sender come from the environment. They are the `now` and `caller` parameters of each operation, and no relation between successive clock values is assumed.
- Names, hashes, notes, providers and part lists are stored as opaque strings. Coordinates are stored as integers, so the mock's fractional degrees are not represented. Nothing computes with any of them.
- The `0.8 *` floating-point products are modelled exactly as `5 * used >= 4 * interval` over the naturals. This is the intended meaning; floating-point rounding is not modelled.
- The `"${a}:${b}"` string keys of records and documents become tuple keys. Two different pairs that concatenate to the same string would collide in the source; they do not in the model.
- Amounts, counts, levels, scores and intervals are naturals, as in the Clarity contract the mock stands for. The mock itself would accept negative numbers (a negative deposit or withdrawal), and the model does not cover that.
- Integer overflow is not modelled: the Clarity contract's 128-bit arithmetic aborts on overflow, and the mock's numbers lose precision past 2^53.
- Each ledger has its own error datatype carrying the source's numeric codes. `RecordNotFound` (104) and `PaymentMethodExists` (103) are defined but never returned, as in the source.
- `Maintenance.MaintenanceLedger.ReportIssue` computes the new schedule map before writing any field and then writes everything at once. The source sets the critical status after the history push. With the invariant, the two orders yield the same state.
- The other ledgers do not cascade into one another. The registry is not consulted when a schedule is created, and removing a bicycle leaves its schedule and history in place. This follows the source.
