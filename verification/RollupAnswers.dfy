/** The rows a window query answers with: from the merged tiers, and from the direct scan. */
module RollupAnswers {
  import opened Common
  import opened SqlAggregates
  import opened RollupTiers
  import opened RollupWindows

  datatype OwnerRow = OwnerRow(
    positions: nat, open: nat, closed: nat, episodes: nat, completeEpisodes: nat,
    gross: Option<real>, observedGas: Option<real>, missingGas: nat,
    fees: Option<real>, observedFees: Option<real>, observedFeeEpisodes: nat, completeFeeEpisodes: nat,
    volume: Option<real>, winRate: Option<real>, activityAt: int, retentionAt: int)

  datatype CustodyRow = CustodyRow(
    positions: nat, open: nat, closed: nat, episodes: nat, volume: Option<real>, aggregate: bool,
    activityAt: int, retentionAt: int)

  function When(condition: bool, value: Option<real>): Option<real> {
    if condition then value else None
  }

  // ---------------------------------------------------------------- from the merged tiers

  function ViewVolume(p: Partial): Option<real> {
    When(p.gaps.pricingIncomplete == 0 && p.gaps.depositNull == 0 && p.gaps.proceedsNull == 0, p.sums.volume)
  }

  function ViewOwner(p: Partial): OwnerRow {
    OwnerRow(p.positions, p.open, p.counts.closed, p.counts.episodes, p.counts.completeEpisodes,
             When(p.counts.grossNull == 0, p.sums.gross), p.sums.gas, p.counts.gasNull,
             When(p.gaps.feeIncomplete == 0 && p.gaps.feesNull == 0, p.sums.fees), p.sums.observedFees,
             p.gaps.observedFeeEpisodes, p.gaps.completeFeeEpisodes, ViewVolume(p),
             if p.counts.closed > 0 && p.counts.closedGrossNull == 0
             then Some(100.0 * p.counts.wins as real / p.counts.closed as real) else None,
             p.activityAt, p.retentionAt)
  }

  function ViewCustody(p: Partial): CustodyRow {
    CustodyRow(p.positions, p.open, p.counts.closed, p.counts.episodes, ViewVolume(p), p.counts.ownerPresent > 0,
               p.activityAt, p.retentionAt)
  }

  // ---------------------------------------------------------------- from the direct scan

  predicate FeesKnown(r: EpisodeRow) { r.fees.Some? }
  predicate DepositKnown(r: EpisodeRow) { r.deposit.Some? }
  predicate ProceedsKnown(r: EpisodeRow) { r.proceeds.Some? }

  /** The aggregate expressions of the direct query over the episodes of one identity. */
  function DirectVolume(s: seq<EpisodeRow>): Option<real> {
    When((forall r :: r in s ==> r.historyComplete && r.pricingComplete)
         && CountOf(s, DepositKnown) == |s| && CountOf(s, ProceedsKnown) == |s|, SumOf(s, Volume))
  }

  function DirectOwner(s: seq<EpisodeRow>, stale: set<nat>): OwnerRow
    requires |s| > 0
  {
    var closed := CountOf(s, Complete);
    OwnerRow(|DirectPositions(s)|, |DirectOpen(s, stale)|, closed, |s|, CountOf(s, GrossKnown),
             When(CountOf(s, GrossKnown) == |s|, SumOf(s, Gross)), SumOf(s, Gas), CountOf(s, GasNull),
             When((forall r :: r in s ==> r.historyComplete && r.feesComplete && r.pricingComplete)
                  && CountOf(s, FeesKnown) == |s|, SumOf(s, Fees)),
             SumOf(s, ObservedFees), CountOf(s, ObservedFee), CountOf(s, CompleteFee), DirectVolume(s),
             if closed > 0 && CountOf(s, ClosedGrossNull) == 0
             then Some(100.0 * CountOf(s, Win) as real / closed as real) else None,
             MaxOf(s, Timestamp), MinOf(s, Timestamp))
  }

  function DirectCustody(s: seq<EpisodeRow>, stale: set<nat>): CustodyRow
    requires |s| > 0
  {
    CustodyRow(|DirectPositions(s)|, |DirectOpen(s, stale)|, CountOf(s, Complete), |s|, DirectVolume(s),
               exists r :: r in s && r.owner.Some?, MaxOf(s, Timestamp), MinOf(s, Timestamp))
  }

  lemma NoneMissing(s: seq<EpisodeRow>)
    ensures CountOf(s, GrossNull) == 0 <==> CountOf(s, GrossKnown) == |s|
    ensures CountOf(s, FeesNull) == 0 <==> CountOf(s, FeesKnown) == |s|
    ensures CountOf(s, DepositNull) == 0 <==> CountOf(s, DepositKnown) == |s|
    ensures CountOf(s, ProceedsNull) == 0 <==> CountOf(s, ProceedsKnown) == |s|
    ensures CountOf(s, Every) == |s|
  {
    hide CountOf;
    CountZero(s, GrossNull);
    CountZero(s, GrossKnown);
    CountZero(s, FeesNull);
    CountZero(s, FeesKnown);
    CountZero(s, DepositNull);
    CountZero(s, DepositKnown);
    CountZero(s, ProceedsNull);
    CountZero(s, ProceedsKnown);
    CountZero(s, Every);
  }

  lemma NoneIncomplete(s: seq<EpisodeRow>)
    ensures CountOf(s, FeeIncomplete) == 0
        <==> forall r :: r in s ==> r.historyComplete && r.feesComplete && r.pricingComplete
    ensures CountOf(s, PricingIncomplete) == 0 <==> forall r :: r in s ==> r.historyComplete && r.pricingComplete
    ensures CountOf(s, Owned) > 0 <==> exists r :: r in s && r.owner.Some?
  {
    hide CountOf;
    CountZero(s, FeeIncomplete);
    CountZero(s, PricingIncomplete);
    CountZero(s, Owned);
  }

  /** The stored components carry enough to answer like the direct query. */
  lemma SummaryAnswers(s: seq<EpisodeRow>, stale: set<nat>)
    requires |s| > 0
    ensures ViewOwner(Summary(s, |DirectPositions(s)|, |DirectOpen(s, stale)|)) == DirectOwner(s, stale)
    ensures ViewCustody(Summary(s, |DirectPositions(s)|, |DirectOpen(s, stale)|)) == DirectCustody(s, stale)
  {
    NoneMissing(s);
    NoneIncomplete(s);
    hide CountOf, SumOf, MaxOf, MinOf, DirectPositions, DirectOpen;
  }

  /**
   For every window and protocol, the merged tiers answer exactly like a direct scan of the
   episodes of that window, for owners and for custodies.
   */
  lemma TiersAnswerLikeScan(rows: seq<EpisodeRow>, g: Group, stale: set<nat>, now: int, d: nat)
    requires d < TIERS && |Selected(rows, g, now, d)| > 0
    ensures ViewOwner(PartialAt(rows, g, stale, now, UpTo(d))) == DirectOwner(Selected(rows, g, now, d), stale)
    ensures ViewCustody(PartialAt(rows, g, stale, now, UpTo(d))) == DirectCustody(Selected(rows, g, now, d), stale)
  {
    WindowIsItsTiers(rows, g, stale, now, d);
    SummaryAnswers(Selected(rows, g, now, d), stale);
  }

  // ---------------------------------------------------------------- gas

  /** An effect of an episode, as far as gas is concerned: the episode and the transaction. */
  datatype EffectTx = EffectTx(episode: nat, tx: nat)

  datatype TxCost = TxCost(owner: Option<Identity>, gas: Option<real>)

  /** Episodes of an owner without attributed gas that take part in a transaction. */
  function PairFilter(owner: Identity, scope: Scope, effects: set<EffectTx>, tx: nat): EpisodeRow -> bool {
    (r: EpisodeRow) => Belongs(Group(Owners, owner, scope), r) && r.gas.None? && EffectTx(r.id, tx) in effects
  }

  datatype GasTotals = GasTotals(pairs: nat, known: nat, sum: Option<real>)

  const NO_GAS := GasTotals(0, 0, None)

  predicate Costed(costs: map<nat, TxCost>, owner: Identity, tx: nat) {
    tx in costs && costs[tx].owner == Some(owner) && costs[tx].gas.Some?
  }

  function IsCosted(costs: map<nat, TxCost>, owner: Identity): nat -> bool {
    (tx: nat) => Costed(costs, owner, tx)
  }

  function CostOf(costs: map<nat, TxCost>, owner: Identity): nat -> Option<real> {
    (tx: nat) => if Costed(costs, owner, tx) then costs[tx].gas else None
  }

  predicate EveryTx(tx: nat) { true }

  function GasOf(txs: seq<nat>, costs: map<nat, TxCost>, owner: Identity): GasTotals {
    GasTotals(CountOf(txs, EveryTx), CountOf(txs, IsCosted(costs, owner)), SumOf(txs, CostOf(costs, owner)))
  }

  /** Each transaction of an owner falls in the tier of the latest of its episodes. */
  function TxTierFilter(rows: seq<EpisodeRow>, effects: set<EffectTx>, owner: Identity, scope: Scope, now: int,
                        tiers: set<nat>):
    nat -> bool
  {
    (tx: nat) => AtTiers(now, tiers, Latest(rows, PairFilter(owner, scope, effects, tx)))
  }

  /** Directly: the transactions of the episodes in the window. */
  function TxWindowFilter(rows: seq<EpisodeRow>, effects: set<EffectTx>, owner: Identity, scope: Scope, now: int,
                          d: nat):
    nat -> bool
  {
    (tx: nat) => exists r :: r in rows && PairFilter(owner, scope, effects, tx)(r) && InWindow(now, d, r.lastTimestamp)
  }

  /** `_merge_activity` on the three gas components. */
  function MergeGas(total: GasTotals, values: GasTotals): GasTotals {
    if total.pairs == 0 && total.known == 0 && total.sum.GetOr(0.0) == 0.0 then values
    else GasTotals(total.pairs + values.pairs, total.known + values.known, AddNullable(total.sum, values.sum))
  }

  /** What is reported: the sum, unless the cost of some transaction is unknown. */
  function ReportedGas(g: GasTotals): Option<real> {
    When(g.known == g.pairs, g.sum)
  }

  /** Merging gas rows is adding up disjoint sets of transactions. */
  lemma GasMerges(txs: seq<nat>, costs: map<nat, TxCost>, owner: Identity, a: nat -> bool, b: nat -> bool,
                  c: nat -> bool)
    requires Splits(a, b, c)
    ensures MergeGas(GasOf(Pick(txs, a), costs, owner), GasOf(Pick(txs, b), costs, owner))
        == GasOf(Pick(txs, c), costs, owner)
  {
    CountSplits(txs, a, b, c, EveryTx);
    CountSplits(txs, a, b, c, IsCosted(costs, owner));
    SumSplits(txs, a, b, c, CostOf(costs, owner));
    var pa := Pick(txs, a);
    CountZero(pa, EveryTx);
    hide Pick, Splits, CostOf, IsCosted;
    if |pa| > 0 {
      assert pa[0] in pa;
    }
  }

  lemma OneMoreGasTier(rows: seq<EpisodeRow>, effects: set<EffectTx>, costs: map<nat, TxCost>, txs: seq<nat>,
                       owner: Identity, scope: Scope, now: int, tiers: set<nat>, t: nat)
    requires t !in tiers
    ensures MergeGas(GasOf(Pick(txs, TxTierFilter(rows, effects, owner, scope, now, tiers)), costs, owner),
                     GasOf(Pick(txs, TxTierFilter(rows, effects, owner, scope, now, {t})), costs, owner))
         == GasOf(Pick(txs, TxTierFilter(rows, effects, owner, scope, now, tiers + {t})), costs, owner)
  {
    hide Latest, TierOf, GasOf, MergeGas, Pick;
    GasMerges(txs, costs, owner, TxTierFilter(rows, effects, owner, scope, now, tiers),
              TxTierFilter(rows, effects, owner, scope, now, {t}),
              TxTierFilter(rows, effects, owner, scope, now, tiers + {t}));
  }

  /** The gas tiers of a window are the direct scan of its transactions. */
  lemma GasTiersAnswerLikeScan(rows: seq<EpisodeRow>, effects: set<EffectTx>, costs: map<nat, TxCost>, txs: seq<nat>,
                               owner: Identity, scope: Scope, now: int, d: nat)
    requires d < TIERS
    ensures GasOf(Pick(txs, TxTierFilter(rows, effects, owner, scope, now, UpTo(d))), costs, owner)
         == GasOf(Pick(txs, TxWindowFilter(rows, effects, owner, scope, now, d)), costs, owner)
  {
    hide Latest, AtTiers, InWindow;
    forall tx | tx in txs
      ensures TxTierFilter(rows, effects, owner, scope, now, UpTo(d))(tx)
          == TxWindowFilter(rows, effects, owner, scope, now, d)(tx)
    {
      LatestInWindow(rows, PairFilter(owner, scope, effects, tx), now, d);
    }
    PickSame(txs, TxTierFilter(rows, effects, owner, scope, now, UpTo(d)),
             TxWindowFilter(rows, effects, owner, scope, now, d));
  }
}
