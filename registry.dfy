/** The strategy handlers of the `usds_swap` program, each one atomic
    transaction: account validation (the `init`, `init_if_needed` and
    `UpdateStrategy` constraints), then the handler body. A failed
    transaction leaves every account as it was. */
module Registry {
  import opened Primitives
  import opened DeltaNeutral
  import opened Accounting

  /** `DeltaNeutralError`, plus the framework failures the handlers can meet:
      an account constraint that does not hold, `init` on an account that
      already exists, an account that does not exist, and the abort of a
      `u8` addition that overflows. */
  datatype Error =
    | InvalidAllocationPercentage
    | InvalidRiskScore
    | InvalidTargetApy
    | StrategyAlreadyActive
    | StrategyNotActive
    | StrategyTerminated
    | InsufficientTreasuryBalance
    | Unauthorized
    | AlreadyExists
    | NotInitialized
    | Overflow

  datatype Option<T> = None | Some(value: T)

  datatype Result<T> = Ok(value: T) | Err(error: Error)

  /** Payloads of the events a committed handler emits; a strategy is named
      by its seed. */
  datatype Event =
    | StrategyInitialized(strategy: Seed, strategyType: StrategyType, allocationPercentage: U8,
                          targetApy: U64, riskScore: U8, initializedBy: Pubkey, timestamp: I64)
    | StrategyStateChanged(strategy: Seed, oldState: StrategyState, newState: StrategyState,
                           timestamp: I64, performedBy: Pubkey)
    | Rebalance(strategy: Seed, oldAllocation: U8, newAllocation: U8, timestamp: I64, performedBy: Pubkey)
    | YieldReport(strategy: Seed, previousApy: U64, currentApy: U64, timestamp: I64)
    | YieldGenerated(treasury: Pubkey, yieldAmount: U64, newPortfolioValue: U64, timestamp: I64,
                     reportedBy: Pubkey)

  /** Field widths of `Config`, in declaration order. */
  function ConfigFieldWidths(): seq<nat>
  {
    [ U8_WIDTH,            // treasury_bump
      U8_WIDTH,            // mint_authority_bump
      PUBKEY_WIDTH,        // usds_mint
      PUBKEY_WIDTH ]       // treasury_token_account
  }

  /** `Config::LEN`: the field widths alone, without the discriminator,
      which `initialize` adds when it allocates the account. */
  function ConfigLen(): (n: nat)
    ensures n == LayoutWidth(ConfigFieldWidths())
    ensures DISCRIMINATOR_WIDTH + n == 74
  {
    1 + 1 + 32 + 32
  }

  /** The treasury PDA with its strategies and its stats account. */
  class Treasury {
    const address: Pubkey
    /** Strategy accounts, by the seed their address is derived from. */
    var strategies: map<Seed, Strategy>
    /** The stats account; None until the first `initialize_strategy`. */
    var stats: Option<TreasuryStats>

    ghost predicate Valid()
      reads this
    {
      (stats.None? ==> strategies == map[]) &&
      (stats.Some? ==> CountersMatch(strategies, stats.value) && stats.value.treasury == address) &&
      (forall k | k in strategies :: InRange(strategies[k]) && strategies[k].treasury == address)
    }

    /** The treasury PDA before any `initialize_strategy`: no strategy and
        no stats account yet. */
    constructor (address: Pubkey)
      ensures Valid()
      ensures this.address == address
      ensures strategies == map[] && stats == None
    {
      this.address := address;
      strategies := map[];
      stats := None;
    }

    /** The stats account as `init_if_needed` hands it to the handler: the
        stored one, or a zero-filled one if it does not exist yet. */
    function LoadedStats(): (st: TreasuryStats)
      reads this
      ensures stats.Some? ==> st == stats.value
      ensures stats.None? ==> st == ZeroStats()
    {
      if stats.Some? then stats.value else ZeroStats()
    }

    /** The `UpdateStrategy` accounts: the strategy and the stats account
        keyed by its treasury must exist, and the signer must be the
        strategy's authority. */
    function CheckUpdateAccounts(seed: Seed, caller: Pubkey): (e: Option<Error>)
      reads this
      ensures e.None? <==> seed in strategies && stats.Some? && strategies[seed].authority == caller
      ensures e.Some? ==> e.value == (if seed in strategies && stats.Some? then Unauthorized else NotInitialized)
    {
      if seed !in strategies || stats.None? then Some(NotInitialized)
      else if strategies[seed].authority != caller then Some(Unauthorized)
      else None
    }

    /** `initialize_strategy`. `configTokenAccount` is the treasury token
        account recorded in whichever `Config` account the caller passes;
        any number of `Config` accounts may exist, each naming its own. */
    method InitializeStrategy(caller: Pubkey, now: I64, configTokenAccount: Pubkey, seed: Seed,
                              strategyType: StrategyType, allocationPercentage: U8, targetApy: U64,
                              riskScore: U8)
      returns (r: Result<Event>)
      requires Valid()
      modifies this
      ensures Valid()
      ensures r.Err? ==> strategies == old(strategies) && stats == old(stats)
      // the failures, in the order they are checked
      ensures seed in old(strategies) ==> r == Err(AlreadyExists)
      ensures seed !in old(strategies) && allocationPercentage > 100 ==> r == Err(InvalidAllocationPercentage)
      ensures seed !in old(strategies) && allocationPercentage <= 100 && riskScore > 100 ==> r == Err(InvalidRiskScore)
      ensures seed !in old(strategies) && allocationPercentage <= 100 && riskScore <= 100 && targetApy == 0
              ==> r == Err(InvalidTargetApy)
      ensures r == Err(Overflow) <==>
                seed !in old(strategies) && allocationPercentage <= 100 && riskScore <= 100 && targetApy > 0
                && old(LoadedStats()).strategiesCount == U8_MAX
      ensures r.Ok? <==>
                seed !in old(strategies) && allocationPercentage <= 100 && riskScore <= 100 && targetApy > 0
                && old(LoadedStats()).strategiesCount < U8_MAX
      // the new strategy
      ensures r.Ok? ==> strategies == old(strategies)[seed := Strategy(
                caller, strategyType, Paused, allocationPercentage, targetApy, 0, address, configTokenAccount,
                DefaultSlots(), ZeroData(), now, riskScore, now)]
      // the stats: counters and totals carried over, one more strategy
      ensures r.Ok? ==> stats.Some?
      ensures r.Ok? ==> stats.value.strategiesCount == old(LoadedStats()).strategiesCount + 1
      ensures r.Ok? ==> stats.value.activeStrategiesCount == old(LoadedStats()).activeStrategiesCount
      ensures r.Ok? ==> stats.value.totalUsdcDeposited == old(LoadedStats()).totalUsdcDeposited
      ensures r.Ok? ==> stats.value.totalUsdcWithdrawn == old(LoadedStats()).totalUsdcWithdrawn
      ensures r.Ok? ==> stats.value.totalYieldGenerated == old(LoadedStats()).totalYieldGenerated
      ensures r.Ok? ==> stats.value.currentPortfolioValue == old(LoadedStats()).currentPortfolioValue
      // the lazy set-up writes treasury, authority and timestamp, only while nothing was deposited
      ensures r.Ok? && old(LoadedStats()).totalUsdcDeposited == 0 ==>
                stats.value.treasury == address && stats.value.treasuryAuthority == caller
                && stats.value.lastUpdatedTs == now
      ensures r.Ok? && old(LoadedStats()).totalUsdcDeposited != 0 ==>
                stats.value.treasury == old(LoadedStats()).treasury
                && stats.value.treasuryAuthority == old(LoadedStats()).treasuryAuthority
                && stats.value.lastUpdatedTs == old(LoadedStats()).lastUpdatedTs
      ensures r.Ok? ==> r.value == StrategyInitialized(seed, strategyType, allocationPercentage, targetApy,
                                                       riskScore, caller, now)
    {
      if seed in strategies {
        return Err(AlreadyExists);
      }
      if allocationPercentage > 100 {
        return Err(InvalidAllocationPercentage);
      }
      if riskScore > 100 {
        return Err(InvalidRiskScore);
      }
      if targetApy == 0 {
        return Err(InvalidTargetApy);
      }
      var strategy := Strategy(
        authority := caller,
        strategyType := strategyType,
        state := Paused,
        allocationPercentage := allocationPercentage,
        targetApy := targetApy,
        currentApy := 0,
        treasury := address,
        treasuryTokenAccount := configTokenAccount,
        strategyTokenAccounts := DefaultSlots(),
        strategyData := ZeroData(),
        lastRebalanceTs := now,
        riskScore := riskScore,
        createdAt := now);
      var st := LoadedStats();
      if st.totalUsdcDeposited == 0 {
        st := st.(treasury := address, treasuryAuthority := caller, lastUpdatedTs := now);
      }
      if st.strategiesCount == U8_MAX {
        return Err(Overflow);
      }
      st := st.(strategiesCount := st.strategiesCount + 1);
      ActiveCountAfterInsert(strategies, seed, strategy);
      strategies := strategies[seed := strategy];
      stats := Some(st);
      r := Ok(StrategyInitialized(seed, strategyType, allocationPercentage, targetApy, riskScore, caller, now));
    }

    /** `activate_strategy`: from Paused or Terminated to Active. */
    method ActivateStrategy(seed: Seed, caller: Pubkey, now: I64) returns (r: Result<Event>)
      requires Valid()
      modifies this
      ensures Valid()
      ensures r.Err? ==> strategies == old(strategies) && stats == old(stats)
      ensures old(CheckUpdateAccounts(seed, caller)).Some? ==> r == Err(old(CheckUpdateAccounts(seed, caller)).value)
      ensures old(CheckUpdateAccounts(seed, caller)).None? ==>
                (r.Err? <==> old(strategies[seed].state) == Active) && (r.Err? ==> r.error == StrategyAlreadyActive)
      ensures r.Ok? ==> old(CheckUpdateAccounts(seed, caller)).None? && stats.Some?
      ensures r.Ok? ==> strategies == old(strategies)[seed := old(strategies[seed]).(state := Active, lastRebalanceTs := now)]
      ensures r.Ok? ==> stats.value.activeStrategiesCount == old(stats.value.activeStrategiesCount) + 1
      ensures r.Ok? ==> stats.value == old(stats.value).(activeStrategiesCount := stats.value.activeStrategiesCount,
                                                          lastUpdatedTs := now)
      ensures r.Ok? ==> r.value == StrategyStateChanged(seed, old(strategies[seed].state), Active, now, caller)
    {
      var e := CheckUpdateAccounts(seed, caller);
      if e.Some? {
        return Err(e.value);
      }
      var strategy, st := strategies[seed], stats.value;
      if strategy.state == Active {
        return Err(StrategyAlreadyActive);
      }
      ActivationFits(strategies, st, seed);
      ActiveCountAfterUpdate(strategies, seed, strategy.(state := Active, lastRebalanceTs := now));
      strategies := strategies[seed := strategy.(state := Active, lastRebalanceTs := now)];
      stats := Some(st.(activeStrategiesCount := st.activeStrategiesCount + 1, lastUpdatedTs := now));
      r := Ok(StrategyStateChanged(seed, strategy.state, Active, now, caller));
    }

    /** `pause_strategy`: from Active to Paused. */
    method PauseStrategy(seed: Seed, caller: Pubkey, now: I64) returns (r: Result<Event>)
      requires Valid()
      modifies this
      ensures Valid()
      ensures r.Err? ==> strategies == old(strategies) && stats == old(stats)
      ensures old(CheckUpdateAccounts(seed, caller)).Some? ==> r == Err(old(CheckUpdateAccounts(seed, caller)).value)
      ensures old(CheckUpdateAccounts(seed, caller)).None? ==>
                (r.Err? <==> old(strategies[seed].state) != Active) && (r.Err? ==> r.error == StrategyNotActive)
      ensures r.Ok? ==> old(CheckUpdateAccounts(seed, caller)).None? && stats.Some?
      ensures r.Ok? ==> strategies == old(strategies)[seed := old(strategies[seed]).(state := Paused)]
      ensures r.Ok? ==> stats.value == old(stats.value).(
                activeStrategiesCount := SaturatingSub(old(stats.value.activeStrategiesCount), 1),
                lastUpdatedTs := now)
      // the saturation never takes effect
      ensures r.Ok? ==> stats.value.activeStrategiesCount == old(stats.value.activeStrategiesCount) - 1
      ensures r.Ok? ==> r.value == StrategyStateChanged(seed, Active, Paused, now, caller)
    {
      var e := CheckUpdateAccounts(seed, caller);
      if e.Some? {
        return Err(e.value);
      }
      var strategy, st := strategies[seed], stats.value;
      if strategy.state != Active {
        return Err(StrategyNotActive);
      }
      DeactivationExact(strategies, st, seed);
      ActiveCountAfterUpdate(strategies, seed, strategy.(state := Paused));
      strategies := strategies[seed := strategy.(state := Paused)];
      stats := Some(st.(activeStrategiesCount := SaturatingSub(st.activeStrategiesCount, 1), lastUpdatedTs := now));
      r := Ok(StrategyStateChanged(seed, strategy.state, Paused, now, caller));
    }

    /** `terminate_strategy`: from any state to Terminated, with no guard
        beyond the accounts. */
    method TerminateStrategy(seed: Seed, caller: Pubkey, now: I64) returns (r: Result<Event>)
      requires Valid()
      modifies this
      ensures Valid()
      ensures r.Err? ==> strategies == old(strategies) && stats == old(stats)
      ensures r.Ok? <==> old(CheckUpdateAccounts(seed, caller)).None?
      ensures r.Err? ==> r.error == old(CheckUpdateAccounts(seed, caller)).value
      ensures r.Ok? ==> strategies == old(strategies)[seed := old(strategies[seed]).(state := Terminated)]
      ensures r.Ok? ==> stats.Some? && stats.value == old(stats.value).(
                activeStrategiesCount := if old(strategies[seed].state) == Active
                                         then SaturatingSub(old(stats.value.activeStrategiesCount), 1)
                                         else old(stats.value.activeStrategiesCount),
                lastUpdatedTs := now)
      // the active count drops by exactly one when an Active strategy ends, and is kept otherwise
      ensures r.Ok? ==> stats.value.activeStrategiesCount + ActiveWeight(old(strategies[seed].state))
                        == old(stats.value.activeStrategiesCount)
      ensures r.Ok? ==> r.value == StrategyStateChanged(seed, old(strategies[seed].state), Terminated, now, caller)
    {
      var e := CheckUpdateAccounts(seed, caller);
      if e.Some? {
        return Err(e.value);
      }
      var strategy, st := strategies[seed], stats.value;
      var oldState := strategy.state;
      strategies := strategies[seed := strategy.(state := Terminated)];
      if oldState == Active {
        DeactivationExact(old(strategies), st, seed);
        st := st.(activeStrategiesCount := SaturatingSub(st.activeStrategiesCount, 1));
      }
      ActiveCountAfterUpdate(old(strategies), seed, strategy.(state := Terminated));
      stats := Some(st.(lastUpdatedTs := now));
      r := Ok(StrategyStateChanged(seed, oldState, Terminated, now, caller));
    }

    /** `update_allocation`: rewrites the allocation percentage only. */
    method UpdateAllocation(seed: Seed, caller: Pubkey, now: I64, newAllocation: U8) returns (r: Result<Event>)
      requires Valid()
      modifies this
      ensures Valid()
      ensures r.Err? ==> strategies == old(strategies) && stats == old(stats)
      ensures old(CheckUpdateAccounts(seed, caller)).Some? ==> r == Err(old(CheckUpdateAccounts(seed, caller)).value)
      ensures old(CheckUpdateAccounts(seed, caller)).None? ==>
                (r.Err? <==> newAllocation > 100) && (r.Err? ==> r.error == InvalidAllocationPercentage)
      ensures r.Ok? ==> old(CheckUpdateAccounts(seed, caller)).None? && stats.Some?
      ensures r.Ok? ==> strategies == old(strategies)[seed := old(strategies[seed]).(allocationPercentage := newAllocation)]
      ensures r.Ok? ==> stats.value == old(stats.value).(lastUpdatedTs := now)
      ensures r.Ok? ==> r.value == Rebalance(seed, old(strategies[seed].allocationPercentage), newAllocation, now, caller)
    {
      var e := CheckUpdateAccounts(seed, caller);
      if e.Some? {
        return Err(e.value);
      }
      if newAllocation > 100 {
        return Err(InvalidAllocationPercentage);
      }
      var strategy, st := strategies[seed], stats.value;
      ActiveCountAfterUpdate(strategies, seed, strategy.(allocationPercentage := newAllocation));
      strategies := strategies[seed := strategy.(allocationPercentage := newAllocation)];
      stats := Some(st.(lastUpdatedTs := now));
      r := Ok(Rebalance(seed, strategy.allocationPercentage, newAllocation, now, caller));
    }

    /** `update_apy`: rewrites the current APY only; any `u64` is accepted. */
    method UpdateApy(seed: Seed, caller: Pubkey, now: I64, newApy: U64) returns (r: Result<Event>)
      requires Valid()
      modifies this
      ensures Valid()
      ensures r.Err? ==> strategies == old(strategies) && stats == old(stats)
      ensures r.Ok? <==> old(CheckUpdateAccounts(seed, caller)).None?
      ensures r.Err? ==> r.error == old(CheckUpdateAccounts(seed, caller)).value
      ensures r.Ok? ==> strategies == old(strategies)[seed := old(strategies[seed]).(currentApy := newApy)]
      ensures r.Ok? ==> stats.Some? && stats.value == old(stats.value).(lastUpdatedTs := now)
      ensures r.Ok? ==> r.value == YieldReport(seed, old(strategies[seed].currentApy), newApy, now)
    {
      var e := CheckUpdateAccounts(seed, caller);
      if e.Some? {
        return Err(e.value);
      }
      var strategy, st := strategies[seed], stats.value;
      ActiveCountAfterUpdate(strategies, seed, strategy.(currentApy := newApy));
      strategies := strategies[seed := strategy.(currentApy := newApy)];
      stats := Some(st.(lastUpdatedTs := now));
      r := Ok(YieldReport(seed, strategy.currentApy, newApy, now));
    }

    /** `report_yield`: treasury-wide, and open to any signer. */
    method ReportYield(caller: Pubkey, now: I64, yieldAmount: U64, newPortfolioValue: U64) returns (r: Result<Event>)
      requires Valid()
      modifies this
      ensures Valid()
      ensures strategies == old(strategies)
      ensures r.Ok? <==> old(stats).Some?
      ensures r.Err? ==> r.error == NotInitialized && stats == old(stats)
      ensures r.Ok? ==> stats.Some? && stats.value == old(stats.value).(
                totalYieldGenerated := SaturatingAdd(old(stats.value.totalYieldGenerated), yieldAmount),
                currentPortfolioValue := newPortfolioValue,
                lastUpdatedTs := now)
      ensures r.Ok? ==> r.value == YieldGenerated(address, yieldAmount, newPortfolioValue, now, caller)
    {
      if stats.None? {
        return Err(NotInitialized);
      }
      var st := stats.value;
      stats := Some(st.(totalYieldGenerated := SaturatingAdd(st.totalYieldGenerated, yieldAmount),
                        currentPortfolioValue := newPortfolioValue,
                        lastUpdatedTs := now));
      r := Ok(YieldGenerated(address, yieldAmount, newPortfolioValue, now, caller));
    }
  }
}
