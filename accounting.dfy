/** What the `TreasuryStats` counters are meant to count, and how a single
    strategy write moves those counts. */
module Accounting {
  import opened Primitives
  import opened DeltaNeutral

  /** A strategy's PDA is derived from the treasury and this seed. */
  type Seed = string

  /** The seeds of the strategies currently in state Active. */
  function ActiveSeeds(m: map<Seed, Strategy>): (s: set<Seed>)
    ensures s <= m.Keys
    ensures forall k :: k in s <==> k in m && m[k].state == Active
  {
    set k | k in m && m[k].state == Active
  }

  /** 1 for Active, 0 otherwise: a strategy's share of the active count. */
  function ActiveWeight(s: StrategyState): (w: nat)
    ensures w <= 1
    ensures w == 1 <==> s == Active
  {
    if s == Active then 1 else 0
  }

  /** The counter invariant: `strategies_count` is the number of strategies
      and `active_strategies_count` the number of Active ones. */
  ghost predicate CountersMatch(m: map<Seed, Strategy>, st: TreasuryStats)
  {
    st.strategiesCount == |m| && st.activeStrategiesCount == |ActiveSeeds(m)|
  }

  lemma {:induction false} SubsetCardinality<T>(a: set<T>, b: set<T>)
    requires a <= b
    ensures |a| <= |b|
    decreases |a|
  {
    if a != {} {
      var x :| x in a;
      SubsetCardinality(a - {x}, b - {x});
    }
  }

  /** Overwriting one existing strategy changes the number of Active ones by
      the difference of the new and the old state's weight. */
  lemma ActiveCountAfterUpdate(m: map<Seed, Strategy>, k: Seed, v: Strategy)
    requires k in m
    ensures |ActiveSeeds(m[k := v])| + ActiveWeight(m[k].state)
         == |ActiveSeeds(m)| + ActiveWeight(v.state)
  {
    var before, after := ActiveSeeds(m), ActiveSeeds(m[k := v]);
    if m[k].state == Active && v.state != Active {
      assert after == before - {k};
    } else if m[k].state != Active && v.state == Active {
      assert after == before + {k};
    } else {
      assert after == before;
    }
  }

  /** Adding a strategy under a new seed adds one strategy, and adds to the
      Active ones only if it is itself Active. */
  lemma ActiveCountAfterInsert(m: map<Seed, Strategy>, k: Seed, v: Strategy)
    requires k !in m
    ensures |m[k := v]| == |m| + 1
    ensures |ActiveSeeds(m[k := v])| == |ActiveSeeds(m)| + ActiveWeight(v.state)
  {
    var before, after := ActiveSeeds(m), ActiveSeeds(m[k := v]);
    if v.state == Active {
      assert after == before + {k};
    } else {
      assert after == before;
    }
  }

  /** Under the counter invariant there are never more active strategies
      than strategies. */
  lemma CountersBounded(m: map<Seed, Strategy>, st: TreasuryStats)
    requires CountersMatch(m, st)
    ensures st.activeStrategiesCount <= st.strategiesCount
  {
    SubsetCardinality(ActiveSeeds(m), m.Keys);
  }

  /** Activating a strategy that is not Active never overflows the `u8`
      active counter: some strategy (this one) is not counted, so the count
      is below `strategies_count`, which is itself at most 255. */
  lemma ActivationFits(m: map<Seed, Strategy>, st: TreasuryStats, k: Seed)
    requires CountersMatch(m, st)
    requires k in m && m[k].state != Active
    ensures st.activeStrategiesCount < st.strategiesCount
    ensures st.activeStrategiesCount + 1 <= U8_MAX
  {
    SubsetCardinality(ActiveSeeds(m), m.Keys - {k});
  }

  /** Pausing or terminating an Active strategy never hits the saturation
      of the `u8` decrement: that strategy is counted, so the count is at
      least one. */
  lemma DeactivationExact(m: map<Seed, Strategy>, st: TreasuryStats, k: Seed)
    requires CountersMatch(m, st)
    requires k in m && m[k].state == Active
    ensures st.activeStrategiesCount >= 1
    ensures SaturatingSub(st.activeStrategiesCount, 1) == st.activeStrategiesCount - 1
  {
  }
}
