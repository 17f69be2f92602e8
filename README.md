# Delta-neutral strategy registry of `usds_swap`, in Dafny

This project models the strategy registry of the `usds_swap` Solana program.
The registry keeps one `Strategy` account per registered yield strategy. Each
strategy has a lifecycle state: Active, Paused or Terminated. The treasury
also has one shared `TreasuryStats` account, which every strategy handler
updates.

The model has five modules:

- `Primitives` (`primitives.dfy`) holds the basic types. `u8`, `u64` and `i64`
  are subset types of `int`, and a `Pubkey` is 32 bytes. It also holds the
  saturating arithmetic the handlers use, and the sum of field widths that
  the account sizes are built from.
- `DeltaNeutral` (`delta_neutral.dfy`) models `delta_neutral.rs`: the two
  enums, the `Strategy` and `TreasuryStats` records, and the `LEN` constants.
  Each constant is proved equal both to its literal value (1325, 115) and to
  the sum of its declared field widths.
- `Accounting` (`accounting.dfy`) defines what the stats counters count. It
  proves how a single strategy write changes the number of Active strategies.
  It also proves the two `u8` counter operations safe: the increment in
  `activate_strategy` never overflows, and the saturating decrement never
  saturates.
- `Registry` (`registry.dfy`) models the seven strategy handlers of `lib.rs`.
  They are methods of a class `Treasury`. The class holds the treasury's
  strategies as `map<Seed, Strategy>` and its stats account as
  `Option<TreasuryStats>`, which is `None` until the first strategy is
  initialized. Each handler takes the signer and the clock reading as
  parameters. It returns either the payload of the event it emits or an
  `Error`, and a failed call leaves both fields unchanged.
- `Scenarios` (`scenarios.dfy`) holds client scenarios on a fresh treasury,
  each verified from the handlers' contracts alone.

Every handler preserves the class invariant `Treasury.Valid()`:

- `strategies_count` is the number of strategies.
- `active_strategies_count` is the number of strategies in state Active. So,
  by `Accounting.CountersBounded`, it never exceeds `strategies_count`.
- Every strategy has `allocation_percentage <= 100` and `risk_score <= 100`
  and points back at this treasury.
- The stats account exists as soon as any strategy does, and points back at
  this treasury.

Error order follows the program: Anchor validates the accounts before the
handler body runs.

- For `initialize_strategy`, the order is: an existing strategy at the seed,
  then allocation, then risk score, then target APY, then the `u8` overflow of
  `strategies_count`.
- For the `UpdateStrategy` handlers, the order is: a missing account, then a
  signer that is not the strategy's authority, then the handler's own guard.

These behaviours of the code may be surprising, and the model keeps them as written:

- `activate_strategy` revives a Terminated strategy (lib.rs:167). Terminated
  is not absorbing.
- `terminate_strategy` has no guard. A second call succeeds and changes only
  `last_updated_ts`.
- `report_yield` checks no authority at all. Its `authority` is any signer
  (lib.rs:409-427).
- The lazy stats set-up is guarded only by `total_usdc_deposited == 0`
  (lib.rs:136). No handler ever writes that field. So in every reachable
  state, each `initialize_strategy` re-stamps the stats account's
  `treasury_authority` and `last_updated_ts`, which `SecondInitRestampsAuthority`
  shows. The counters and running totals are never reset.
- `StrategyTerminated` and `InsufficientTreasuryBalance` are declared
  (lib.rs:594-598) but never raised. They appear in `Error` and nothing
  returns them.
- `risk_score` is documented as 1-100, but only `<= 100` is enforced, so a
  risk score of 0 is accepted.

Assumption: the `u8` additions `strategies_count += 1` (lib.rs:144) and
`active_strategies_count += 1` (lib.rs:175) abort the transaction on
overflow. This is the behaviour with Rust's overflow checks enabled; the
build profile is not part of this model.

- In `initialize_strategy`, the overflow is reachable (at 255 strategies) and
  is modelled as `Error.Overflow`.
- In `activate_strategy`, it is unreachable. `Accounting.ActivationFits`
  proves this, and the method carries no dead branch for it.

## Model

| member | source | states |
|---|---|---|
| `Primitives.SaturatingSub` | programs/usds-swap/src/lib.rs:204 | `saturating_sub` gives the exact difference when it is non-negative and 0 otherwise, never less than the true difference |
| `Primitives.SaturatingAdd` | programs/usds-swap/src/lib.rs:301 | `saturating_add` gives the exact sum when it fits in `u64` and `u64::MAX` otherwise, never more than the true sum |
| `Primitives.DefaultKey` | programs/usds-swap/src/lib.rs:128 | `Pubkey::default()` is the key of 32 zero bytes |
| `DeltaNeutral.DefaultSlots` | programs/usds-swap/src/lib.rs:128 | the strategy token-account slots are exactly five default (all-zero) keys |
| `DeltaNeutral.ZeroData` | programs/usds-swap/src/lib.rs:129 | the initial strategy data is exactly 1024 zero bytes |
| `DeltaNeutral.ZeroStats` | programs/usds-swap/src/lib.rs:378-385 | a stats account that `init_if_needed` creates starts with both counters and all four running totals at zero |
| `DeltaNeutral.StrategyLen` | programs/usds-swap/src/delta_neutral.rs:40-56 | `Strategy::LEN` is 1325, the 8-byte discriminator plus the serialized widths of the record's fields in declaration order |
| `DeltaNeutral.TreasuryStatsLen` | programs/usds-swap/src/delta_neutral.rs:92-104 | `TreasuryStats::LEN` is 115, the 8-byte discriminator plus the serialized widths of the record's fields |
| `Registry.ConfigLen` | programs/usds-swap/src/lib.rs:559-561 | `Config::LEN` is the sum of the config's field widths (66), and with the discriminator `initialize` allocates 74 bytes |
| `Accounting.ActiveSeeds` | programs/usds-swap/src/delta_neutral.rs:85 | the strategies that `active_strategies_count` is meant to count: exactly those in state Active |
| `Accounting.ActiveCountAfterUpdate` | programs/usds-swap/src/lib.rs:170-231 | rewriting one strategy changes the number of Active strategies by +1 when it becomes Active, by -1 when it stops being Active, and by 0 otherwise |
| `Accounting.ActiveCountAfterInsert` | programs/usds-swap/src/lib.rs:122-144 | registering a new (Paused) strategy adds one strategy and no Active one |
| `Accounting.CountersBounded` | programs/usds-swap/src/delta_neutral.rs:84-85 | when the counters match the strategies, `active_strategies_count <= strategies_count` |
| `Accounting.ActivationFits` | programs/usds-swap/src/lib.rs:175 | when the counters match, activating a non-Active strategy finds `active_strategies_count` below `strategies_count`, so the `u8` increment cannot overflow |
| `Accounting.DeactivationExact` | programs/usds-swap/src/lib.rs:204 | when the counters match, pausing or terminating an Active strategy finds a count of at least 1, so the saturating decrement is an exact decrement |
| `Registry.Treasury.constructor` | programs/usds-swap/src/lib.rs:357-362 | the treasury PDA before its first `initialize_strategy`: no strategy and no stats account, a state satisfying the invariant |
| `Registry.Treasury.LoadedStats` | programs/usds-swap/src/lib.rs:378-385 | `init_if_needed` hands the handler the existing stats account, or a zero-filled one if there is none |
| `Registry.Treasury.CheckUpdateAccounts` | programs/usds-swap/src/lib.rs:390-407 | the `UpdateStrategy` accounts pass exactly when the strategy and its treasury's stats exist and the signer is the strategy's authority; otherwise `NotInitialized` or `Unauthorized` |
| `Registry.Treasury.InitializeStrategy` | programs/usds-swap/src/lib.rs:103-158 | fails, changing nothing, with `AlreadyExists`, then `InvalidAllocationPercentage`, `InvalidRiskScore`, `InvalidTargetApy`, `Overflow`, in that order. On success: it adds exactly one Paused strategy holding the inputs unchanged, the treasury token account of the `Config` the caller names, this treasury as its treasury, `current_apy` 0, zeroed data, default slots, both timestamps `now` and the caller as authority. It adds 1 to `strategies_count` and keeps the other counter and all totals. It writes treasury, authority and timestamp only when nothing was deposited. It keeps the invariant |
| `Registry.Treasury.ActivateStrategy` | programs/usds-swap/src/lib.rs:161-188 | after the account checks, fails with `StrategyAlreadyActive`, changing nothing, exactly when the strategy is Active. Otherwise, including from Terminated, it sets Active and `last_rebalance_ts = now`, adds exactly 1 to `active_strategies_count`, stamps `last_updated_ts` and changes nothing else. It keeps the invariant |
| `Registry.Treasury.PauseStrategy` | programs/usds-swap/src/lib.rs:191-217 | after the account checks, fails with `StrategyNotActive`, changing nothing, exactly when the strategy is not Active. Otherwise it sets Paused, applies the saturating decrement (proved to be exact) and stamps `last_updated_ts`. It keeps the invariant |
| `Registry.Treasury.TerminateStrategy` | programs/usds-swap/src/lib.rs:220-245 | succeeds exactly when the account checks pass. It sets Terminated from any state and decrements the active count only if the old state was Active, so a second call leaves state and counters as they were. It keeps the invariant |
| `Registry.Treasury.UpdateAllocation` | programs/usds-swap/src/lib.rs:248-269 | after the account checks, fails with `InvalidAllocationPercentage` exactly when the new value exceeds 100. Otherwise it changes only that strategy's allocation and `last_updated_ts`, never the state |
| `Registry.Treasury.UpdateApy` | programs/usds-swap/src/lib.rs:272-290 | succeeds for any `u64` exactly when the account checks pass. It changes only that strategy's `current_apy` and `last_updated_ts`, and emits the previous and new APY |
| `Registry.Treasury.ReportYield` | programs/usds-swap/src/lib.rs:293-315 | succeeds for any signer once the stats account exists. It sets the yield total to the saturating sum, overwrites the portfolio value, stamps the time, and leaves every strategy and both counters untouched |
| `Scenarios.LifecycleRoundTrip` | programs/usds-swap/src/lib.rs:103-217 | initialize (30, 500, 40), then activate, then pause: the strategy ends Paused with APY 0, with one strategy and an active count of 1 after activation and 0 after pausing |
| `Scenarios.ReportYieldFromZero` | programs/usds-swap/src/lib.rs:293-315 | `report_yield(1000, 50000)` from a zero yield total gives a total of 1000 and a portfolio value of 50000 |
| `Scenarios.TerminateTwice` | programs/usds-swap/src/lib.rs:220-245 | terminating an Active strategy twice succeeds both times, and the second call changes neither the state nor the active count |
| `Scenarios.ReviveTerminated` | programs/usds-swap/src/lib.rs:161-217 | pausing a Terminated strategy fails with `StrategyNotActive`, and activating it succeeds and counts it as Active again |
| `Scenarios.OnlyAuthorityUpdates` | programs/usds-swap/src/lib.rs:390-427 | another signer is refused by `update_apy` with `Unauthorized`, but its `report_yield` succeeds |
| `Scenarios.SecondInitRestampsAuthority` | programs/usds-swap/src/lib.rs:126-144 | a second `initialize_strategy` by another signer sets the stats account's treasury authority and timestamp to that signer's, and the strategy count is 2; two strategies initialized through different `Config` accounts keep different treasury token accounts |

## Left out

- The swap handlers `swap_usdc_to_usds` and `swap_usds_to_usdc` are not modelled. They only call the SPL Token program's transfer, mint and burn, which are not part of this model.
- `initialize` is not modelled as a handler. Any signer may create any number of `Config` accounts, each naming its own treasury token account, so `InitializeStrategy` takes that token account as an input (the one of whichever `Config` the caller passes). The `Config` bumps and mint are not modelled; only `Config::LEN` is.
- PDA derivation is not modelled: seeds, bumps and the `bump` fields. A strategy is named by its seed, and the Solana limit on seed length is not modelled. The `bump` bytes still count in the `LEN` constants.
- Anchor's account-owner, discriminator and `address =` checks are not modelled, nor the treasury token-account constraint of `InitializeStrategy`. Borsh serialisation and rent/payer behaviour are not modelled either. Only the sizes are.
- The clock (`Clock::get()`) is not modelled. The time is a parameter `now`, and the clock's own failure is not modelled.
- Event transport (`emit!`) is not modelled. Each handler returns the event payload, and the strategy's address in it is replaced by its seed.
- Concurrency is not modelled. The runtime serialises transactions, so each handler is one atomic method.
- `total_usdc_deposited` and `total_usdc_withdrawn` are fields with no behaviour, because no handler writes them.
- There is only one treasury. The treasury PDA has fixed seeds, so the program has exactly one treasury and one stats account.
