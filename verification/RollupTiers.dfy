/**
 Owner activity by recency tier. Every episode, position and gas payment falls in one tier,
 and a window is the sum of the tiers at or above its cutoff.
 */
module RollupTiers {
  import opened Common
  import opened SqlAggregates

  type Identity = nat
  type Protocol = nat

  datatype Kind = Owners | Custodies

  /** The columns of an episode that the rollup reads. */
  datatype EpisodeRow = EpisodeRow(
    id: nat, lastTimestamp: int, owner: Option<Identity>, custody: Option<Identity>, protocol: Option<Protocol>,
    position: nat, closed: bool, complete: bool,
    gross: Option<real>, gas: Option<real>, fees: Option<real>, deposit: Option<real>, proceeds: Option<real>,
    historyComplete: bool, feesComplete: bool, pricingComplete: bool)

  // ---------------------------------------------------------------- windows and tiers

  const TIERS: nat := 5

  /** The length of window `d` in seconds; the last window has no cutoff. */
  function WindowSeconds(d: nat): Option<nat> {
    if d == 0 then Some(3600) else if d == 1 then Some(86400) else if d == 2 then Some(604800)
    else if d == 3 then Some(2592000) else None
  }

  predicate InWindow(now: int, d: nat, ts: int) {
    WindowSeconds(d).Some? ==> ts >= now - WindowSeconds(d).value
  }

  function TierOf(now: int, ts: int): nat {
    if ts >= now - 3600 then 0
    else if ts >= now - 86400 then 1
    else if ts >= now - 604800 then 2
    else if ts >= now - 2592000 then 3
    else 4
  }

  /** The tiers nest like the windows. */
  lemma WindowIsTiers(now: int, d: nat, ts: int)
    requires d < TIERS
    ensures InWindow(now, d, ts) <==> TierOf(now, ts) <= d
  {
  }

  // ---------------------------------------------------------------- component sums

  predicate Every(r: EpisodeRow) { true }
  predicate Complete(r: EpisodeRow) { r.complete }
  predicate GrossNull(r: EpisodeRow) { r.gross.None? }
  predicate GasNull(r: EpisodeRow) { r.gas.None? }
  predicate FeeIncomplete(r: EpisodeRow) { !(r.historyComplete && r.feesComplete && r.pricingComplete) }
  predicate FeesNull(r: EpisodeRow) { r.fees.None? }
  predicate ObservedFee(r: EpisodeRow) { r.feesComplete && r.pricingComplete && r.fees.Some? }
  predicate CompleteFee(r: EpisodeRow) { r.historyComplete && r.feesComplete && r.pricingComplete && r.fees.Some? }
  predicate PricingIncomplete(r: EpisodeRow) { !(r.historyComplete && r.pricingComplete) }
  predicate DepositNull(r: EpisodeRow) { r.deposit.None? }
  predicate ProceedsNull(r: EpisodeRow) { r.proceeds.None? }
  predicate ClosedGrossNull(r: EpisodeRow) { r.complete && r.gross.None? }
  predicate Win(r: EpisodeRow) { r.complete && r.gross.Some? && r.gross.value > 0.0 }
  predicate GrossKnown(r: EpisodeRow) { r.gross.Some? }
  predicate Owned(r: EpisodeRow) { r.owner.Some? }

  function Gross(r: EpisodeRow): Option<real> { r.gross }
  function Gas(r: EpisodeRow): Option<real> { r.gas }
  function Fees(r: EpisodeRow): Option<real> { r.fees }
  function ObservedFees(r: EpisodeRow): Option<real> { if ObservedFee(r) then r.fees else None }
  function Volume(r: EpisodeRow): Option<real> {
    if r.deposit.Some? && r.proceeds.Some? then Some(r.deposit.value + r.proceeds.value) else None
  }
  function Timestamp(r: EpisodeRow): int { r.lastTimestamp }

  datatype Counts = Counts(
    episodes: nat, closed: nat, grossNull: nat, gasNull: nat, closedGrossNull: nat, wins: nat,
    completeEpisodes: nat, ownerPresent: nat)
  {
    function Plus(o: Counts): Counts {
      Counts(episodes + o.episodes, closed + o.closed, grossNull + o.grossNull, gasNull + o.gasNull,
             closedGrossNull + o.closedGrossNull, wins + o.wins, completeEpisodes + o.completeEpisodes,
             ownerPresent + o.ownerPresent)
    }
  }

  datatype Gaps = Gaps(
    feeIncomplete: nat, feesNull: nat, observedFeeEpisodes: nat, completeFeeEpisodes: nat,
    pricingIncomplete: nat, depositNull: nat, proceedsNull: nat)
  {
    function Plus(o: Gaps): Gaps {
      Gaps(feeIncomplete + o.feeIncomplete, feesNull + o.feesNull, observedFeeEpisodes + o.observedFeeEpisodes,
           completeFeeEpisodes + o.completeFeeEpisodes, pricingIncomplete + o.pricingIncomplete,
           depositNull + o.depositNull, proceedsNull + o.proceedsNull)
    }
  }

  datatype Sums = Sums(
    gross: Option<real>, gas: Option<real>, fees: Option<real>, observedFees: Option<real>, volume: Option<real>)
  {
    function Plus(o: Sums): Sums {
      Sums(AddNullable(gross, o.gross), AddNullable(gas, o.gas), AddNullable(fees, o.fees),
           AddNullable(observedFees, o.observedFees), AddNullable(volume, o.volume))
    }
  }

  /** One stored row of the rollup: what one tier contributes to one identity and scope. */
  datatype Partial = Partial(
    counts: Counts, gaps: Gaps, sums: Sums, activityAt: int, retentionAt: int, positions: nat, open: nat)

  const BLANK := Partial(
    Counts(0, 0, 0, 0, 0, 0, 0, 0), Gaps(0, 0, 0, 0, 0, 0, 0), Sums(None, None, None, None, None), 0, 0, 0, 0)

  /** No truthy component: every number is zero and every nullable sum is absent or zero. */
  predicate AllFalsy(p: Partial) {
    && p.counts == BLANK.counts && p.gaps == BLANK.gaps
    && p.sums.gross.GetOr(0.0) == 0.0 && p.sums.gas.GetOr(0.0) == 0.0 && p.sums.fees.GetOr(0.0) == 0.0
    && p.sums.observedFees.GetOr(0.0) == 0.0 && p.sums.volume.GetOr(0.0) == 0.0
    && p.activityAt == 0 && p.retentionAt == 0 && p.positions == 0 && p.open == 0
  }

  /** Merge a row into a running total; a total with nothing in it is replaced. */
  function MergeActivity(total: Partial, values: Partial): Partial {
    if AllFalsy(total) then values
    else Partial(total.counts.Plus(values.counts), total.gaps.Plus(values.gaps), total.sums.Plus(values.sums),
                 Max(total.activityAt, values.activityAt), Min(total.retentionAt, values.retentionAt),
                 total.positions + values.positions, total.open + values.open)
  }

  function CountsOf(rows: seq<EpisodeRow>): Counts {
    Counts(CountOf(rows, Every), CountOf(rows, Complete), CountOf(rows, GrossNull), CountOf(rows, GasNull),
           CountOf(rows, ClosedGrossNull), CountOf(rows, Win), CountOf(rows, GrossKnown), CountOf(rows, Owned))
  }

  function GapsOf(rows: seq<EpisodeRow>): Gaps {
    Gaps(CountOf(rows, FeeIncomplete), CountOf(rows, FeesNull), CountOf(rows, ObservedFee), CountOf(rows, CompleteFee),
         CountOf(rows, PricingIncomplete), CountOf(rows, DepositNull), CountOf(rows, ProceedsNull))
  }

  function SumsOf(rows: seq<EpisodeRow>): Sums {
    Sums(SumOf(rows, Gross), SumOf(rows, Gas), SumOf(rows, Fees), SumOf(rows, ObservedFees), SumOf(rows, Volume))
  }

  /** The grouped row of a selection of episodes, with its position counts. */
  function Summary(rows: seq<EpisodeRow>, positions: nat, open: nat): Partial {
    if |rows| == 0 then BLANK.(positions := positions, open := open)
    else Partial(CountsOf(rows), GapsOf(rows), SumsOf(rows),
                 MaxOf(rows, Timestamp), MinOf(rows, Timestamp), positions, open)
  }

  lemma CountsSplit(rows: seq<EpisodeRow>, a: EpisodeRow -> bool, b: EpisodeRow -> bool, c: EpisodeRow -> bool)
    requires Splits(a, b, c)
    ensures CountsOf(Pick(rows, c)) == CountsOf(Pick(rows, a)).Plus(CountsOf(Pick(rows, b)))
    ensures GapsOf(Pick(rows, c)) == GapsOf(Pick(rows, a)).Plus(GapsOf(Pick(rows, b)))
  {
    hide Splits, Pick, CountOf;
    CountSplits(rows, a, b, c, Every);
    CountSplits(rows, a, b, c, Complete);
    CountSplits(rows, a, b, c, GrossNull);
    CountSplits(rows, a, b, c, GasNull);
    CountSplits(rows, a, b, c, ClosedGrossNull);
    CountSplits(rows, a, b, c, Win);
    CountSplits(rows, a, b, c, GrossKnown);
    CountSplits(rows, a, b, c, Owned);
    CountSplits(rows, a, b, c, FeeIncomplete);
    CountSplits(rows, a, b, c, FeesNull);
    CountSplits(rows, a, b, c, ObservedFee);
    CountSplits(rows, a, b, c, CompleteFee);
    CountSplits(rows, a, b, c, PricingIncomplete);
    CountSplits(rows, a, b, c, DepositNull);
    CountSplits(rows, a, b, c, ProceedsNull);
  }

  lemma SumsSplit(rows: seq<EpisodeRow>, a: EpisodeRow -> bool, b: EpisodeRow -> bool, c: EpisodeRow -> bool)
    requires Splits(a, b, c)
    ensures SumsOf(Pick(rows, c)) == SumsOf(Pick(rows, a)).Plus(SumsOf(Pick(rows, b)))
  {
    hide Splits, Pick, SumOf;
    SumSplits(rows, a, b, c, Gross);
    SumSplits(rows, a, b, c, Gas);
    SumSplits(rows, a, b, c, Fees);
    SumSplits(rows, a, b, c, ObservedFees);
    SumSplits(rows, a, b, c, Volume);
  }

  /** A summary is blank only if it summarizes nothing, so the blank test never drops a row. */
  lemma BlankIsEmpty(rows: seq<EpisodeRow>, positions: nat, open: nat)
    ensures AllFalsy(Summary(rows, positions, open)) <==> |rows| == 0 && positions == 0 && open == 0
  {
    CountZero(rows, Every);
    if |rows| > 0 {
      assert rows[0] in rows;
      hide CountOf, SumsOf, GapsOf, MaxOf, MinOf;
    }
  }

  /** Merging the summaries of two disjoint selections summarizes their union. */
  lemma SummariesMerge(rows: seq<EpisodeRow>, a: EpisodeRow -> bool, b: EpisodeRow -> bool, c: EpisodeRow -> bool,
                       pa: nat, oa: nat, pb: nat, ob: nat)
    requires Splits(a, b, c)
    requires |Pick(rows, b)| > 0 && (|Pick(rows, a)| == 0 ==> pa == 0 && oa == 0)
    ensures MergeActivity(Summary(Pick(rows, a), pa, oa), Summary(Pick(rows, b), pb, ob))
         == Summary(Pick(rows, c), pa + pb, oa + ob)
  {
    BlankIsEmpty(Pick(rows, a), pa, oa);
    if |Pick(rows, a)| == 0 {
      PickMembers(rows, a);
      forall x | x in rows
        ensures b(x) == c(x)
      {
        assert x !in Pick(rows, a);
        assert a(x) ==> x in Pick(rows, a);
      }
      PickSame(rows, b, c);
      hide Summary, AllFalsy;
    } else {
      CountsSplit(rows, a, b, c);
      SumsSplit(rows, a, b, c);
      ExtremesSplit(rows, a, b, c, Timestamp);
      hide CountsOf, GapsOf, SumsOf, MaxOf, MinOf, Pick, AllFalsy, Splits;
    }
  }
}
