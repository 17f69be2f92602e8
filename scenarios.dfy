/** Client scenarios on a fresh treasury, each verified from the handlers'
    contracts alone. */
module Scenarios {
  import opened Primitives
  import opened DeltaNeutral
  import opened Registry

  /** Initialize (allocation 30, target APY 500, risk 40), activate, pause:
      the strategy is back to Paused and the active count back to zero,
      while the strategy count stays one. */
  method LifecycleRoundTrip(treasury: Pubkey, tokenAccount: Pubkey, owner: Pubkey, t0: I64, t1: I64, t2: I64)
    returns (state: StrategyState, currentApy: U64, strategiesCount: U8, activeAfterActivate: U8, activeAfterPause: U8)
    ensures state == Paused && currentApy == 0
    ensures strategiesCount == 1
    ensures activeAfterActivate == 1 && activeAfterPause == 0
  {
    var t := new Treasury(treasury);
    var r := t.InitializeStrategy(owner, t0, tokenAccount, "alpha", Lending, 30, 500, 40);
    assert r.Ok?;
    currentApy := t.strategies["alpha"].currentApy;
    r := t.ActivateStrategy("alpha", owner, t1);
    assert r.Ok?;
    activeAfterActivate := t.stats.value.activeStrategiesCount;
    r := t.PauseStrategy("alpha", owner, t2);
    assert r.Ok?;
    state := t.strategies["alpha"].state;
    strategiesCount := t.stats.value.strategiesCount;
    activeAfterPause := t.stats.value.activeStrategiesCount;
  }

  /** `report_yield(1000, 50000)` on stats whose yield total is 0. */
  method ReportYieldFromZero(treasury: Pubkey, tokenAccount: Pubkey, owner: Pubkey, reporter: Pubkey, t0: I64, t1: I64)
    returns (totalYield: U64, portfolioValue: U64, ok: bool)
    ensures ok && totalYield == 1000 && portfolioValue == 50000
  {
    var t := new Treasury(treasury);
    var r := t.InitializeStrategy(owner, t0, tokenAccount, "alpha", LiquidStaking, 10, 1, 0);
    assert r.Ok?;
    r := t.ReportYield(reporter, t1, 1000, 50000);
    ok := r.Ok?;
    totalYield := t.stats.value.totalYieldGenerated;
    portfolioValue := t.stats.value.currentPortfolioValue;
  }

  /** Terminating an Active strategy twice: the second call succeeds and
      changes neither the state nor the active count. */
  method TerminateTwice(treasury: Pubkey, tokenAccount: Pubkey, owner: Pubkey, t0: I64, t1: I64, t2: I64, t3: I64)
    returns (first: bool, second: bool, activeAfterFirst: U8, activeAfterSecond: U8, state: StrategyState)
    ensures first && second
    ensures activeAfterFirst == 0 && activeAfterSecond == activeAfterFirst
    ensures state == Terminated
  {
    var t := new Treasury(treasury);
    var r := t.InitializeStrategy(owner, t0, tokenAccount, "alpha", Lending, 30, 500, 40);
    r := t.ActivateStrategy("alpha", owner, t1);
    r := t.TerminateStrategy("alpha", owner, t2);
    first := r.Ok?;
    activeAfterFirst := t.stats.value.activeStrategiesCount;
    r := t.TerminateStrategy("alpha", owner, t3);
    second := r.Ok?;
    activeAfterSecond := t.stats.value.activeStrategiesCount;
    state := t.strategies["alpha"].state;
  }

  /** A Terminated strategy can be activated again; pausing it before that
      fails with `StrategyNotActive`. */
  method ReviveTerminated(treasury: Pubkey, tokenAccount: Pubkey, owner: Pubkey, t0: I64, t1: I64, t2: I64)
    returns (pause: Result<Event>, activate: Result<Event>, state: StrategyState, active: U8)
    ensures pause == Err(StrategyNotActive)
    ensures activate == Ok(StrategyStateChanged("alpha", Terminated, Active, t2, owner))
    ensures state == Active && active == 1
  {
    var t := new Treasury(treasury);
    var r := t.InitializeStrategy(owner, t0, tokenAccount, "alpha", LiquidityProvision, 30, 500, 40);
    r := t.TerminateStrategy("alpha", owner, t1);
    pause := t.PauseStrategy("alpha", owner, t1);
    activate := t.ActivateStrategy("alpha", owner, t2);
    state := t.strategies["alpha"].state;
    active := t.stats.value.activeStrategiesCount;
  }

  /** Only the strategy's authority passes the `UpdateStrategy`
      constraint, while any signer may report yield. */
  method OnlyAuthorityUpdates(treasury: Pubkey, tokenAccount: Pubkey, owner: Pubkey, other: Pubkey, t0: I64, t1: I64)
    returns (update: Result<Event>, report: Result<Event>)
    requires owner != other
    ensures update == Err(Unauthorized)
    ensures report == Ok(YieldGenerated(treasury, 5, 7, t1, other))
  {
    var t := new Treasury(treasury);
    var r := t.InitializeStrategy(owner, t0, tokenAccount, "alpha", Lending, 30, 500, 40);
    update := t.UpdateApy("alpha", other, t1, 700);
    report := t.ReportYield(other, t1, 5, 7);
  }

  /** A second `initialize_strategy` by another signer, naming another
      `Config`, re-stamps the stats account's treasury authority (no handler
      ever records a deposit, so the lazy set-up branch runs every time),
      and each strategy keeps the token account of the `Config` it named. */
  method SecondInitRestampsAuthority(treasury: Pubkey, tokenAccount: Pubkey, otherTokenAccount: Pubkey,
                                     owner: Pubkey, other: Pubkey, t0: I64, t1: I64)
    returns (second: Result<Event>, statsAuthority: Pubkey, lastUpdated: I64, strategiesCount: U8,
             alphaTokenAccount: Pubkey, betaTokenAccount: Pubkey)
    ensures second.Ok? && statsAuthority == other && lastUpdated == t1 && strategiesCount == 2
    ensures alphaTokenAccount == tokenAccount && betaTokenAccount == otherTokenAccount
  {
    var t := new Treasury(treasury);
    var r := t.InitializeStrategy(owner, t0, tokenAccount, "alpha", Lending, 30, 500, 40);
    second := t.InitializeStrategy(other, t1, otherTokenAccount, "beta", Lending, 0, 1, 100);
    statsAuthority := t.stats.value.treasuryAuthority;
    lastUpdated := t.stats.value.lastUpdatedTs;
    strategiesCount := t.stats.value.strategiesCount;
    alphaTokenAccount := t.strategies["alpha"].treasuryTokenAccount;
    betaTokenAccount := t.strategies["beta"].treasuryTokenAccount;
  }
}
