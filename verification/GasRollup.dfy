/**
 The gas rows of the rollup: transactions of episodes without attributed gas, grouped by the
 tiers they fall in under every protocol scope at once, spread over the scopes, and added up.
 */
module GasRollup {
  import opened Common
  import opened SqlAggregates
  import opened RollupTiers
  import opened RollupWindows
  import opened RollupAnswers

  /** The scopes gas is stored for: all protocols, and versions two, three and four. */
  const GAS_SCOPES: seq<Scope> := [AllProtocols, Only(Some(2)), Only(Some(3)), Only(Some(4))]

  /** The tier of a transaction that no episode of the scope takes part in. */
  const NO_TIER: nat := 5

  /** What gas is computed from; `txs` lists every transaction once. */
  datatype GasData = GasData(rows: seq<EpisodeRow>, effects: set<EffectTx>, costs: map<nat, TxCost>, txs: seq<nat>)

  datatype GasSlot = GasSlot(owner: Identity, scope: Scope, tier: nat)

  /** One row of GROUP BY owner and the tier under each scope. */
  datatype GasGroup = GasGroup(owner: Identity, tiers: seq<nat>, values: GasTotals)

  function TierUnder(d: GasData, now: int, owner: Identity, scope: Scope, tx: nat): nat {
    var latest := Latest(d.rows, PairFilter(owner, scope, d.effects, tx));
    if latest.None? then NO_TIER else TierOf(now, latest.value)
  }

  function TiersUnder(d: GasData, now: int, owner: Identity, tx: nat): seq<nat> {
    seq(|GAS_SCOPES|, i requires 0 <= i < |GAS_SCOPES| => TierUnder(d, now, owner, GAS_SCOPES[i], tx))
  }

  /** The transactions of an owner with these tiers. */
  function WithTiers(d: GasData, now: int, owner: Identity, tiers: set<seq<nat>>): nat -> bool {
    (tx: nat) => TiersUnder(d, now, owner, tx) in tiers
  }

  function GroupTxs(d: GasData, now: int, row: GasGroup): seq<nat> {
    Pick(d.txs, WithTiers(d, now, row.owner, {row.tiers}))
  }

  /** `groups` is the result of the grouped gas query. */
  ghost predicate IsGasGrouping(d: GasData, now: int, groups: seq<GasGroup>) {
    && (forall i | 0 <= i < |groups| ::
          && |groups[i].tiers| == |GAS_SCOPES|
          && |GroupTxs(d, now, groups[i])| > 0
          && groups[i].values == GasOf(GroupTxs(d, now, groups[i]), d.costs, groups[i].owner))
    && (forall i, j | 0 <= i < j < |groups| :: groups[i].owner != groups[j].owner || groups[i].tiers != groups[j].tiers)
    && (forall owner: Identity, tx | tx in d.txs && TierUnder(d, now, owner, AllProtocols, tx) != NO_TIER ::
          exists i :: 0 <= i < |groups| && groups[i].owner == owner && groups[i].tiers == TiersUnder(d, now, owner, tx))
  }

  /** The transactions of an owner whose latest episode in the scope is in one of the tiers. */
  function TierTxs(d: GasData, owner: Identity, scope: Scope, now: int, tiers: set<nat>): seq<nat> {
    Pick(d.txs, TxTierFilter(d.rows, d.effects, owner, scope, now, tiers))
  }

  /** The gas rows the build must leave behind. */
  ghost predicate IsGasRollup(gas: map<GasSlot, GasTotals>, d: GasData, now: int) {
    && (forall slot :: slot in gas <==>
          slot.scope in GAS_SCOPES && |TierTxs(d, slot.owner, slot.scope, now, {slot.tier})| > 0)
    && (forall slot :: slot in gas ==>
          gas[slot] == GasOf(TierTxs(d, slot.owner, slot.scope, now, {slot.tier}), d.costs, slot.owner))
  }

  // ---------------------------------------------------------------- one grouped row

  function AddGas(total: GasTotals, values: GasTotals): GasTotals {
    GasTotals(total.pairs + values.pairs, total.known + values.known, AddNullable(total.sum, values.sum))
  }

  /** The grouped row counts for the slot. */
  predicate Feeds(row: GasGroup, slot: GasSlot) {
    && row.owner == slot.owner && slot.tier != NO_TIER
    && exists i :: 0 <= i < |row.tiers| && i < |GAS_SCOPES| && GAS_SCOPES[i] == slot.scope && row.tiers[i] == slot.tier
  }

  function FeedOne(gas: map<GasSlot, GasTotals>, row: GasGroup, i: nat): map<GasSlot, GasTotals>
    requires i < |GAS_SCOPES| == |row.tiers|
  {
    var slot := GasSlot(row.owner, GAS_SCOPES[i], row.tiers[i]);
    if slot.tier == NO_TIER then gas
    else gas[slot := AddGas(if slot in gas then gas[slot] else NO_GAS, row.values)]
  }

  /** The stored rows once the first `n` scopes of a grouped row have been spread. */
  function Feed(gas: map<GasSlot, GasTotals>, row: GasGroup, n: nat): map<GasSlot, GasTotals>
    requires n <= |GAS_SCOPES| == |row.tiers|
  {
    if n == 0 then gas else FeedOne(Feed(gas, row, n - 1), row, n - 1)
  }

  lemma {:induction false} FedAt(gas: map<GasSlot, GasTotals>, row: GasGroup, n: nat, slot: GasSlot)
    requires n <= |GAS_SCOPES| == |row.tiers|
    ensures
      var fed := Feed(gas, row, n);
      if Feeds(row, slot) && exists i :: 0 <= i < n && GAS_SCOPES[i] == slot.scope then
        slot in fed && fed[slot] == AddGas(if slot in gas then gas[slot] else NO_GAS, row.values)
      else (slot in fed <==> slot in gas) && (slot in gas ==> fed[slot] == gas[slot])
  {
    hide AddGas;
    if n > 0 {
      FedAt(gas, row, n - 1, slot);
      assert forall i, j :: 0 <= i < j < |GAS_SCOPES| ==> GAS_SCOPES[i] != GAS_SCOPES[j];
    }
  }

  /** A whole grouped row adds its values to every slot it counts for. */
  lemma FedAll(gas: map<GasSlot, GasTotals>, row: GasGroup, slot: GasSlot)
    requires |GAS_SCOPES| == |row.tiers|
    ensures
      var fed := Feed(gas, row, |GAS_SCOPES|);
      if Feeds(row, slot) then slot in fed && fed[slot] == AddGas(if slot in gas then gas[slot] else NO_GAS, row.values)
      else (slot in fed <==> slot in gas) && (slot in gas ==> fed[slot] == gas[slot])
  {
    hide AddGas, Feed;
    FedAt(gas, row, |GAS_SCOPES|, slot);
  }

  // ---------------------------------------------------------------- all grouped rows

  /** The tiers of the first `n` grouped rows that count for the slot. */
  function Fed(groups: seq<GasGroup>, n: nat, slot: GasSlot): set<seq<nat>>
    requires n <= |groups|
  {
    set i | 0 <= i < n && Feeds(groups[i], slot) :: groups[i].tiers
  }

  function FedTxs(d: GasData, now: int, groups: seq<GasGroup>, n: nat, slot: GasSlot): seq<nat>
    requires n <= |groups|
  {
    Pick(d.txs, WithTiers(d, now, slot.owner, Fed(groups, n, slot)))
  }

  ghost predicate GasSoFar(gas: map<GasSlot, GasTotals>, d: GasData, now: int, groups: seq<GasGroup>, n: nat)
    requires n <= |groups|
  {
    forall slot: GasSlot ::
      && (slot in gas <==> |FedTxs(d, now, groups, n, slot)| > 0)
      && (slot in gas ==> gas[slot] == GasOf(FedTxs(d, now, groups, n, slot), d.costs, slot.owner))
  }

  lemma FedNext(groups: seq<GasGroup>, n: nat, slot: GasSlot)
    requires n < |groups|
    ensures Fed(groups, n + 1, slot) == Fed(groups, n, slot) + if Feeds(groups[n], slot) then {groups[n].tiers} else {}
  {
    hide Feeds;
  }

  /** Disjoint sets of transactions add up. */
  lemma GasAdds(txs: seq<nat>, costs: map<nat, TxCost>, owner: Identity, a: nat -> bool, b: nat -> bool, c: nat -> bool)
    requires Splits(a, b, c)
    ensures AddGas(GasOf(Pick(txs, a), costs, owner), GasOf(Pick(txs, b), costs, owner))
        == GasOf(Pick(txs, c), costs, owner)
    ensures |Pick(txs, b)| > 0 ==> |Pick(txs, c)| > 0
    ensures |Pick(txs, a)| == 0 ==> GasOf(Pick(txs, a), costs, owner) == NO_GAS
  {
    hide Pick, CostOf, IsCosted;
    MoreAreKept(txs, a, b, c);
    hide Splits;
    CountSplits(txs, a, b, c, EveryTx);
    CountSplits(txs, a, b, c, IsCosted(costs, owner));
    SumSplits(txs, a, b, c, CostOf(costs, owner));
  }

  lemma MoreAreKept(txs: seq<nat>, a: nat -> bool, b: nat -> bool, c: nat -> bool)
    requires Splits(a, b, c)
    ensures |Pick(txs, b)| > 0 ==> |Pick(txs, c)| > 0
  {
    hide Pick;
    PickMembers(txs, b);
    PickMembers(txs, c);
    if |Pick(txs, b)| > 0 {
      assert Pick(txs, b)[0] in Pick(txs, b);
      assert Pick(txs, b)[0] in Pick(txs, c);
    }
  }

  /** Transactions whose tiers are in `tiers`, or equal to one more. */
  lemma TiersSplit(d: GasData, now: int, owner: Identity, tiers: set<seq<nat>>, t: seq<nat>)
    requires t !in tiers
    ensures Splits(WithTiers(d, now, owner, tiers), WithTiers(d, now, owner, {t}),
                   WithTiers(d, now, owner, tiers + {t}))
  {
    hide TiersUnder;
  }

  lemma GasFurtherAt(gas: map<GasSlot, GasTotals>, d: GasData, now: int, groups: seq<GasGroup>, n: nat, slot: GasSlot)
    requires n < |groups| && IsGasGrouping(d, now, groups) && GasSoFar(gas, d, now, groups, n)
    ensures
      var fed := Feed(gas, groups[n], |GAS_SCOPES|);
      && (slot in fed <==> |FedTxs(d, now, groups, n + 1, slot)| > 0)
      && (slot in fed ==> fed[slot] == GasOf(FedTxs(d, now, groups, n + 1, slot), d.costs, slot.owner))
  {
    hide Feed, Feeds, GasOf, AddGas, Pick, WithTiers;
    assert |groups[n].tiers| == |GAS_SCOPES|;
    FedAll(gas, groups[n], slot);
    FedNext(groups, n, slot);
    if Feeds(groups[n], slot) {
      FeedsOwner(groups[n], slot);
      var before := Fed(groups, n, slot);
      assert groups[n].tiers !in before by {
        if i :| 0 <= i < n && Feeds(groups[i], slot) && groups[i].tiers == groups[n].tiers {
          FeedsOwner(groups[i], slot);
        }
      }
      TiersSplit(d, now, slot.owner, before, groups[n].tiers);
      GasAdds(d.txs, d.costs, slot.owner, WithTiers(d, now, slot.owner, before),
              WithTiers(d, now, slot.owner, {groups[n].tiers}),
              WithTiers(d, now, slot.owner, before + {groups[n].tiers}));
    } else {
      assert Fed(groups, n + 1, slot) == Fed(groups, n, slot);
    }
  }

  lemma FeedsOwner(row: GasGroup, slot: GasSlot)
    requires Feeds(row, slot)
    ensures row.owner == slot.owner
  {
  }

  lemma GasFurther(gas: map<GasSlot, GasTotals>, d: GasData, now: int, groups: seq<GasGroup>, n: nat)
    requires n < |groups| && IsGasGrouping(d, now, groups) && GasSoFar(gas, d, now, groups, n)
    requires |groups[n].tiers| == |GAS_SCOPES|
    ensures GasSoFar(Feed(gas, groups[n], |GAS_SCOPES|), d, now, groups, n + 1)
  {
    hide IsGasGrouping, FedTxs, Feed, GasOf;
    forall slot: GasSlot
      ensures
        var fed := Feed(gas, groups[n], |GAS_SCOPES|);
        && (slot in fed <==> |FedTxs(d, now, groups, n + 1, slot)| > 0)
        && (slot in fed ==> fed[slot] == GasOf(FedTxs(d, now, groups, n + 1, slot), d.costs, slot.owner))
    {
      GasFurtherAt(gas, d, now, groups, n, slot);
    }
  }

  lemma GasStart(d: GasData, now: int, groups: seq<GasGroup>)
    ensures GasSoFar(map[], d, now, groups, 0)
  {
    forall slot: GasSlot
      ensures FedTxs(d, now, groups, 0, slot) == []
    {
      assert Fed(groups, 0, slot) == {};
      PickNone(d.txs, WithTiers(d, now, slot.owner, {}));
    }
  }

  // ---------------------------------------------------------------- tiers and scopes

  lemma TierMeans(d: GasData, now: int, owner: Identity, scope: Scope, tx: nat, tier: nat)
    ensures TxTierFilter(d.rows, d.effects, owner, scope, now, {tier})(tx)
       <==> tier != NO_TIER && TierUnder(d, now, owner, scope, tx) == tier
    ensures TierUnder(d, now, owner, scope, tx) != NO_TIER ==> TierUnder(d, now, owner, AllProtocols, tx) != NO_TIER
  {
    LatestIs(d.rows, PairFilter(owner, scope, d.effects, tx));
    LatestIs(d.rows, PairFilter(owner, AllProtocols, d.effects, tx));
    hide Latest;
  }

  /** The grouped rows that count for a slot are those of the transactions in its tier. */
  lemma AllFed(d: GasData, now: int, groups: seq<GasGroup>, slot: GasSlot)
    requires IsGasGrouping(d, now, groups)
    ensures FedTxs(d, now, groups, |groups|, slot)
         == if slot.scope in GAS_SCOPES then TierTxs(d, slot.owner, slot.scope, now, {slot.tier}) else []
  {
    var fed := WithTiers(d, now, slot.owner, Fed(groups, |groups|, slot));
    if slot.scope !in GAS_SCOPES {
      assert Fed(groups, |groups|, slot) == {};
      PickNone(d.txs, fed);
    } else {
      var within := TxTierFilter(d.rows, d.effects, slot.owner, slot.scope, now, {slot.tier});
      forall tx | tx in d.txs
        ensures fed(tx) == within(tx)
      {
        FedMeans(d, now, groups, slot, tx);
      }
      PickSame(d.txs, fed, within);
    }
  }

  lemma FedMeans(d: GasData, now: int, groups: seq<GasGroup>, slot: GasSlot, tx: nat)
    requires IsGasGrouping(d, now, groups) && slot.scope in GAS_SCOPES && tx in d.txs
    ensures TiersUnder(d, now, slot.owner, tx) in Fed(groups, |groups|, slot)
       <==> TxTierFilter(d.rows, d.effects, slot.owner, slot.scope, now, {slot.tier})(tx)
  {
    hide TierUnder, GroupTxs, TxTierFilter;
    TierMeans(d, now, slot.owner, slot.scope, tx, slot.tier);
    var tiers := TiersUnder(d, now, slot.owner, tx);
    assert forall i :: 0 <= i < |GAS_SCOPES| ==> tiers[i] == TierUnder(d, now, slot.owner, GAS_SCOPES[i], tx);
    if tiers in Fed(groups, |groups|, slot) {
      var i :| 0 <= i < |groups| && Feeds(groups[i], slot) && groups[i].tiers == tiers;
    }
    if slot.tier != NO_TIER && TierUnder(d, now, slot.owner, slot.scope, tx) == slot.tier {
      var i :| 0 <= i < |groups| && groups[i].owner == slot.owner && groups[i].tiers == tiers;
      var s :| 0 <= s < |GAS_SCOPES| && GAS_SCOPES[s] == slot.scope;
      assert Feeds(groups[i], slot);
    }
  }

  lemma GasEnd(gas: map<GasSlot, GasTotals>, d: GasData, now: int, groups: seq<GasGroup>)
    requires IsGasGrouping(d, now, groups) && GasSoFar(gas, d, now, groups, |groups|)
    ensures IsGasRollup(gas, d, now)
  {
    hide IsGasGrouping, GasOf, FedTxs, TierTxs;
    forall slot: GasSlot
      ensures FedTxs(d, now, groups, |groups|, slot)
           == if slot.scope in GAS_SCOPES then TierTxs(d, slot.owner, slot.scope, now, {slot.tier}) else []
    {
      AllFed(d, now, groups, slot);
    }
  }

  /** Spread the grouped rows over the scopes and tiers they count for. */
  method BuildGas(ghost d: GasData, ghost now: int, groups: seq<GasGroup>) returns (gas: map<GasSlot, GasTotals>)
    requires IsGasGrouping(d, now, groups)
    ensures IsGasRollup(gas, d, now)
  {
    hide GasSoFar, Feed, GroupTxs, GasOf;
    gas := map[];
    GasStart(d, now, groups);
    var n := 0;
    while n < |groups|
      invariant 0 <= n <= |groups| && GasSoFar(gas, d, now, groups, n)
    {
      var row := groups[n];
      ghost var before := gas;
      var i := 0;
      FeedNone(before, row);
      while i < |GAS_SCOPES|
        invariant 0 <= i <= |GAS_SCOPES| == |row.tiers| && gas == Feed(before, row, i)
      {
        var slot := GasSlot(row.owner, GAS_SCOPES[i], row.tiers[i]);
        FeedNext(before, row, i);
        if slot.tier != NO_TIER {
          gas := gas[slot := AddGas(if slot in gas then gas[slot] else NO_GAS, row.values)];
        }
        i := i + 1;
      }
      GasFurther(before, d, now, groups, n);
      n := n + 1;
    }
    GasEnd(gas, d, now, groups);
  }

  lemma FeedNone(gas: map<GasSlot, GasTotals>, row: GasGroup)
    requires |GAS_SCOPES| == |row.tiers|
    ensures Feed(gas, row, 0) == gas
  {
  }

  lemma FeedNext(gas: map<GasSlot, GasTotals>, row: GasGroup, i: nat)
    requires i < |GAS_SCOPES| == |row.tiers|
    ensures Feed(gas, row, i + 1) == FeedOne(Feed(gas, row, i), row, i)
  {
  }

  // ---------------------------------------------------------------- the view

  /** The tiers of an owner and scope among the slots already added up. */
  function GasTiersDone(done: set<GasSlot>, owner: Identity, scope: Scope): set<nat> {
    set slot | slot in done && slot.owner == owner && slot.scope == scope :: slot.tier
  }

  ghost predicate GasSumsOk(sums: map<Identity, GasTotals>, d: GasData, now: int, scope: Scope, done: set<GasSlot>) {
    forall owner: Identity ::
      && (owner in sums <==> GasTiersDone(done, owner, scope) != {})
      && (owner in sums ==>
            sums[owner] == GasOf(TierTxs(d, owner, scope, now, GasTiersDone(done, owner, scope)), d.costs, owner))
  }

  function AddGasSlot(sums: map<Identity, GasTotals>, slot: GasSlot, values: GasTotals): map<Identity, GasTotals> {
    sums[slot.owner := if slot.owner in sums then MergeGas(sums[slot.owner], values) else values]
  }

  lemma GasDoneFurther(done: set<GasSlot>, slot: GasSlot, owner: Identity)
    ensures GasTiersDone(done + {slot}, owner, slot.scope)
         == GasTiersDone(done, owner, slot.scope) + if slot.owner == owner then {slot.tier} else {}
    ensures slot !in done && slot.owner == owner ==> slot.tier !in GasTiersDone(done, owner, slot.scope)
  {
    if slot.owner == owner && slot.tier in GasTiersDone(done, owner, slot.scope) {
      var other :| other in done && other.owner == owner && other.scope == slot.scope && other.tier == slot.tier;
      assert other == slot;
    }
  }

  lemma GasSumsFurther(sums: map<Identity, GasTotals>, d: GasData, now: int, done: set<GasSlot>, slot: GasSlot)
    requires GasSumsOk(sums, d, now, slot.scope, done) && slot !in done
    ensures
      var values := GasOf(TierTxs(d, slot.owner, slot.scope, now, {slot.tier}), d.costs, slot.owner);
      GasSumsOk(AddGasSlot(sums, slot, values), d, now, slot.scope, done + {slot})
  {
    hide GasOf, MergeGas, GasTiersDone, TxTierFilter, Pick;
    OneMoreGasTier(d.rows, d.effects, d.costs, d.txs, slot.owner, slot.scope, now,
                   GasTiersDone(done, slot.owner, slot.scope), slot.tier) by {
      GasDoneFurther(done, slot, slot.owner);
    }
    assert {} + {slot.tier} == {slot.tier};
    forall owner: Identity
      ensures GasTiersDone(done + {slot}, owner, slot.scope)
           == GasTiersDone(done, owner, slot.scope) + if slot.owner == owner then {slot.tier} else {}
    {
      GasDoneFurther(done, slot, owner);
    }
    assert slot.tier in GasTiersDone(done, slot.owner, slot.scope) + {slot.tier};
    forall owner: Identity | owner != slot.owner
      ensures GasTiersDone(done + {slot}, owner, slot.scope) == GasTiersDone(done, owner, slot.scope)
    {
    }
  }

  lemma NoGasSums(d: GasData, now: int, scope: Scope)
    ensures GasSumsOk(map[], d, now, scope, {})
  {
  }

  lemma SomeGasSlot(s: set<GasSlot>)
    ensures s == {} || exists slot :: slot in s
  {
    if forall slot :: slot !in s {
      assert s == {};
    }
  }

  /** Tiers without a transaction add none. */
  lemma OnlyGasTiers(d: GasData, owner: Identity, scope: Scope, now: int, done: set<nat>, all: set<nat>)
    requires done <= all && forall t: nat :: t in all && t !in done ==> |TierTxs(d, owner, scope, now, {t})| == 0
    ensures TierTxs(d, owner, scope, now, done) == TierTxs(d, owner, scope, now, all)
  {
    var a, b := TxTierFilter(d.rows, d.effects, owner, scope, now, done),
        TxTierFilter(d.rows, d.effects, owner, scope, now, all);
    forall tx | tx in d.txs
      ensures a(tx) == b(tx)
    {
      var latest := Latest(d.rows, PairFilter(owner, scope, d.effects, tx));
      if latest.Some? && TierOf(now, latest.value) in all {
        var t := TierOf(now, latest.value);
        PickMembers(d.txs, TxTierFilter(d.rows, d.effects, owner, scope, now, {t}));
        assert tx in TierTxs(d, owner, scope, now, {t});
      }
    }
    PickSame(d.txs, a, b);
  }

  // ---------------------------------------------------------------- the direct query

  /** The scoped transactions of an owner whose episodes lie in the window. */
  function WindowTxs(d: GasData, owner: Identity, scope: Scope, now: int, depth: nat): seq<nat> {
    Pick(d.txs, TxWindowFilter(d.rows, d.effects, owner, scope, now, depth))
  }

  /** The direct query: NULL when a cost is missing, else the sum of the costs. */
  function DirectGas(txs: seq<nat>, costs: map<nat, TxCost>, owner: Identity): Option<real> {
    if CountOf(txs, IsCosted(costs, owner)) != |txs| then None else SumOf(txs, CostOf(costs, owner))
  }

  lemma ReportedIsDirect(txs: seq<nat>, costs: map<nat, TxCost>, owner: Identity)
    ensures ReportedGas(GasOf(txs, costs, owner)) == DirectGas(txs, costs, owner)
  {
    CountZero(txs, EveryTx);
    hide CountOf, SumOf;
  }

  /** A window has a transaction exactly when one of its tiers has. */
  lemma WindowHasGas(d: GasData, owner: Identity, scope: Scope, now: int, depth: nat)
    requires depth < TIERS
    ensures TierTxs(d, owner, scope, now, UpTo(depth)) == WindowTxs(d, owner, scope, now, depth)
    ensures |WindowTxs(d, owner, scope, now, depth)| > 0
       <==> exists t :: t in UpTo(depth) && |TierTxs(d, owner, scope, now, {t})| > 0
  {
    var a := TxTierFilter(d.rows, d.effects, owner, scope, now, UpTo(depth));
    var b := TxWindowFilter(d.rows, d.effects, owner, scope, now, depth);
    forall tx | tx in d.txs
      ensures a(tx) == b(tx)
    {
      LatestInWindow(d.rows, PairFilter(owner, scope, d.effects, tx), now, depth);
    }
    PickSame(d.txs, a, b);
    TiersHaveGas(d, owner, scope, now, UpTo(depth));
  }

  lemma TiersHaveGas(d: GasData, owner: Identity, scope: Scope, now: int, tiers: set<nat>)
    ensures |TierTxs(d, owner, scope, now, tiers)| > 0
       <==> exists t :: t in tiers && |TierTxs(d, owner, scope, now, {t})| > 0
  {
    PickMembers(d.txs, TxTierFilter(d.rows, d.effects, owner, scope, now, tiers));
    if |TierTxs(d, owner, scope, now, tiers)| > 0 {
      var tx := TierTxs(d, owner, scope, now, tiers)[0];
      assert tx in TierTxs(d, owner, scope, now, tiers);
      var t := TierOf(now, Latest(d.rows, PairFilter(owner, scope, d.effects, tx)).value);
      PickMembers(d.txs, TxTierFilter(d.rows, d.effects, owner, scope, now, {t}));
      assert tx in TierTxs(d, owner, scope, now, {t});
    }
    if t :| t in tiers && |TierTxs(d, owner, scope, now, {t})| > 0 {
      PickMembers(d.txs, TxTierFilter(d.rows, d.effects, owner, scope, now, {t}));
      var tx := TierTxs(d, owner, scope, now, {t})[0];
      assert tx in TierTxs(d, owner, scope, now, {t});
      assert tx in TierTxs(d, owner, scope, now, tiers);
    }
  }

  /** What the view leaves for one owner: the totals of the window, if it has a transaction. */
  lemma GasViewAt(gas: map<GasSlot, GasTotals>, sums: map<Identity, GasTotals>, d: GasData, now: int, scope: Scope,
                  depth: nat, done: set<GasSlot>, owner: Identity)
    requires IsGasRollup(gas, d, now) && scope in GAS_SCOPES && depth < TIERS && GasSumsOk(sums, d, now, scope, done)
    requires forall slot :: slot in done <==> slot in gas && slot.tier <= depth && slot.scope == scope
    ensures owner in sums <==> |WindowTxs(d, owner, scope, now, depth)| > 0
    ensures owner in sums ==>
        ReportedGas(sums[owner]) == DirectGas(WindowTxs(d, owner, scope, now, depth), d.costs, owner)
  {
    hide GasOf, TierTxs, WindowTxs, ReportedGas, DirectGas;
    WindowHasGas(d, owner, scope, now, depth);
    forall t: nat
      ensures t in GasTiersDone(done, owner, scope) <==> t in UpTo(depth) && |TierTxs(d, owner, scope, now, {t})| > 0
    {
      var slot := GasSlot(owner, scope, t);
      assert slot in done <==> slot in gas && t <= depth;
    }
    OnlyGasTiers(d, owner, scope, now, GasTiersDone(done, owner, scope), UpTo(depth));
    ReportedIsDirect(WindowTxs(d, owner, scope, now, depth), d.costs, owner);
  }

  /**
   Add up the tiers of a window per owner, and report the sums that are fully known: the same
   answer as the direct query over the transactions of the window.
   */
  method ViewGas(gas: map<GasSlot, GasTotals>, ghost d: GasData, ghost now: int, scope: Scope, depth: nat)
    returns (reported: map<Identity, Option<real>>)
    requires IsGasRollup(gas, d, now) && scope in GAS_SCOPES && depth < TIERS
    ensures forall owner: Identity ::
              owner in reported <==> |WindowTxs(d, owner, scope, now, depth)| > 0
    ensures forall owner | owner in reported ::
              reported[owner] == DirectGas(WindowTxs(d, owner, scope, now, depth), d.costs, owner)
  {
    hide GasOf, TierTxs, WindowTxs, ReportedGas, DirectGas, GasSumsOk, AddGasSlot;
    var sums: map<Identity, GasTotals> := map[];
    NoGasSums(d, now, scope);
    var todo := gas.Keys;
    ghost var done: set<GasSlot> := {};
    while todo != {}
      invariant todo <= gas.Keys
      invariant forall slot :: slot in done
                               <==> slot in gas && slot !in todo && slot.tier <= depth && slot.scope == scope
      invariant GasSumsOk(sums, d, now, scope, done)
      decreases |todo|
    {
      SomeGasSlot(todo);
      var slot :| slot in todo;
      if slot.tier <= depth && slot.scope == scope {
        GasSumsFurther(sums, d, now, done, slot);
        sums := AddGasSlot(sums, slot, gas[slot]);
        done := done + {slot};
      }
      todo := todo - {slot};
    }
    forall owner: Identity
      ensures owner in sums <==> |WindowTxs(d, owner, scope, now, depth)| > 0
      ensures owner in sums ==>
          ReportedGas(sums[owner]) == DirectGas(WindowTxs(d, owner, scope, now, depth), d.costs, owner)
    {
      GasViewAt(gas, sums, d, now, scope, depth, done, owner);
    }
    reported := map owner | owner in sums :: ReportedGas(sums[owner]);
  }
}
