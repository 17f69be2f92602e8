/** The records of the delta-neutral strategy registry: the lifecycle state,
    the strategy kind, the `Strategy` account and the per-treasury
    `TreasuryStats` aggregate, with their fixed account sizes. */
module DeltaNeutral {
  import opened Primitives

  /** Lifecycle state of a strategy. The handlers only compare it for
      equality. */
  datatype StrategyState = Active | Paused | Terminated

  /** Kind of strategy; informational, no handler branches on it. */
  datatype StrategyType = LiquidStaking | Lending | LiquidityProvision

  /** `[Pubkey; 5]`: the auxiliary token-account slots. */
  type TokenAccountSlots = s: seq<Pubkey> | |s| == 5 witness DefaultSlots()

  /** `[u8; 1024]`: opaque strategy-specific data. */
  type StrategyData = s: seq<U8> | |s| == 1024 witness ZeroData()

  /** `[Pubkey::default(); 5]`. */
  function DefaultSlots(): (s: seq<Pubkey>)
    ensures |s| == 5 && forall i :: 0 <= i < 5 ==> s[i] == DefaultKey()
  {
    seq(5, _ => DefaultKey())
  }

  /** `[0; 1024]`. */
  function ZeroData(): (s: seq<U8>)
    ensures |s| == 1024 && forall i :: 0 <= i < 1024 ==> s[i] == 0
  {
    seq(1024, _ => 0)
  }

  /** The `Strategy` account. The PDA bump byte is not modelled; it still
      counts in the account size below. */
  datatype Strategy = Strategy(
    authority: Pubkey,
    strategyType: StrategyType,
    state: StrategyState,
    allocationPercentage: U8,      // documented as 0-100
    targetApy: U64,                // basis points
    currentApy: U64,               // basis points
    treasury: Pubkey,
    treasuryTokenAccount: Pubkey,
    strategyTokenAccounts: TokenAccountSlots,
    strategyData: StrategyData,
    lastRebalanceTs: I64,
    riskScore: U8,                 // documented as 1-100, only <= 100 is enforced
    createdAt: I64
  )

  /** The bounds that `initialize_strategy` and `update_allocation` enforce
      on every stored strategy. A risk score of 0 is allowed. */
  predicate InRange(s: Strategy)
  {
    s.allocationPercentage <= 100 && s.riskScore <= 100
  }

  /** The `TreasuryStats` account, one per treasury. The PDA bump byte is not
      modelled; it still counts in the account size below. */
  datatype TreasuryStats = TreasuryStats(
    totalUsdcDeposited: U64,
    totalUsdcWithdrawn: U64,
    totalYieldGenerated: U64,
    currentPortfolioValue: U64,
    strategiesCount: U8,
    activeStrategiesCount: U8,
    lastUpdatedTs: I64,
    treasury: Pubkey,
    treasuryAuthority: Pubkey
  )

  /** A freshly allocated stats account: every byte zero. */
  function ZeroStats(): (st: TreasuryStats)
    ensures st.strategiesCount == 0 && st.activeStrategiesCount == 0
    ensures st.totalUsdcDeposited == 0 && st.totalUsdcWithdrawn == 0
    ensures st.totalYieldGenerated == 0 && st.currentPortfolioValue == 0
  {
    TreasuryStats(0, 0, 0, 0, 0, 0, 0, DefaultKey(), DefaultKey())
  }

  /** Field widths of `Strategy`, in declaration order. */
  function StrategyFieldWidths(): seq<nat>
  {
    [ PUBKEY_WIDTH,        // authority
      ENUM_WIDTH,          // strategy_type
      ENUM_WIDTH,          // state
      U8_WIDTH,            // allocation_percentage
      U64_WIDTH,           // target_apy
      U64_WIDTH,           // current_apy
      PUBKEY_WIDTH,        // treasury
      PUBKEY_WIDTH,        // treasury_token_account
      PUBKEY_WIDTH * 5,    // strategy_token_accounts
      U8_WIDTH * 1024,     // strategy_data
      I64_WIDTH,           // last_rebalance_ts
      U8_WIDTH,            // risk_score
      I64_WIDTH,           // created_at
      U8_WIDTH ]           // bump
  }

  /** `Strategy::LEN`: discriminator plus the field widths. */
  function StrategyLen(): (n: nat)
    ensures n == 1325
    ensures n == DISCRIMINATOR_WIDTH + LayoutWidth(StrategyFieldWidths())
  {
    8 + 32 + 1 + 1 + 1 + 8 + 8 + 32 + 32 + 32 * 5 + 1024 + 8 + 1 + 8 + 1
  }

  /** Field widths of `TreasuryStats`, in declaration order. */
  function TreasuryStatsFieldWidths(): seq<nat>
  {
    [ U64_WIDTH,           // total_usdc_deposited
      U64_WIDTH,           // total_usdc_withdrawn
      U64_WIDTH,           // total_yield_generated
      U64_WIDTH,           // current_portfolio_value
      U8_WIDTH,            // strategies_count
      U8_WIDTH,            // active_strategies_count
      I64_WIDTH,           // last_updated_ts
      PUBKEY_WIDTH,        // treasury
      PUBKEY_WIDTH,        // treasury_authority
      U8_WIDTH ]           // bump
  }

  /** `TreasuryStats::LEN`: discriminator plus the field widths. */
  function TreasuryStatsLen(): (n: nat)
    ensures n == 115
    ensures n == DISCRIMINATOR_WIDTH + LayoutWidth(TreasuryStatsFieldWidths())
  {
    8 + 8 + 8 + 8 + 8 + 1 + 1 + 8 + 32 + 32 + 1
  }
}
