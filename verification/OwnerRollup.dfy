/**
 The stored rollup: how a build fills its rows from grouped query results, and how a window
 view adds them up.
 */
module OwnerRollup {
  import opened Common
  import opened SqlAggregates
  import opened RollupTiers
  import opened RollupWindows
  import opened RollupAnswers
  import opened GasRollup

  /** The key of a stored row. */
  datatype Slot = Slot(group: Group, tier: nat)

  // ---------------------------------------------------------------- the grouped query results

  /** One row of GROUP BY identity, protocol, tier. */
  datatype GroupRow = GroupRow(kind: Kind, identity: Identity, protocol: Option<Protocol>, tier: nat, values: Partial)

  /** One row of the position query: a count of positions, or of open positions, by tier. */
  datatype PositionRow = PositionRow(slot: Slot, count: nat)

  function SlotOf(row: GroupRow): Slot {
    Slot(Group(row.kind, row.identity, Only(row.protocol)), row.tier)
  }

  function AllSlotOf(row: GroupRow): Slot {
    Slot(Group(row.kind, row.identity, AllProtocols), row.tier)
  }

  /** What one stored slot stands for before its positions are counted. */
  function Bare(rows: seq<EpisodeRow>, now: int, slot: Slot): Partial {
    Summary(InTiers(rows, slot.group, now, {slot.tier}), 0, 0)
  }

  predicate Present(rows: seq<EpisodeRow>, now: int, slot: Slot) {
    |InTiers(rows, slot.group, now, {slot.tier})| > 0
  }

  /** `groups` is the result of the grouped component query. */
  ghost predicate IsGrouping(rows: seq<EpisodeRow>, now: int, groups: seq<GroupRow>) {
    && (forall i | 0 <= i < |groups| ::
          Present(rows, now, SlotOf(groups[i])) && groups[i].values == Bare(rows, now, SlotOf(groups[i])))
    && (forall i, j | 0 <= i < j < |groups| :: SlotOf(groups[i]) != SlotOf(groups[j]))
    && (forall slot: Slot | slot.group.scope.Only? && Present(rows, now, slot) ::
          exists i :: 0 <= i < |groups| && SlotOf(groups[i]) == slot)
  }

  /** `counts` is the grouped result of counting `at`: its non-zero counts, one row each. */
  ghost predicate IsCounting(counts: seq<PositionRow>, at: Slot -> nat) {
    && (forall i | 0 <= i < |counts| :: counts[i].count == at(counts[i].slot) > 0)
    && (forall i, j | 0 <= i < j < |counts| :: counts[i].slot != counts[j].slot)
    && (forall slot: Slot | at(slot) > 0 :: exists i :: 0 <= i < |counts| && counts[i].slot == slot)
  }

  function PositionCount(rows: seq<EpisodeRow>, now: int): Slot -> nat {
    (slot: Slot) => |PositionsAt(rows, slot.group, now, {slot.tier})|
  }

  function OpenCount(rows: seq<EpisodeRow>, stale: set<nat>, now: int): Slot -> nat {
    (slot: Slot) => |OpenAt(rows, slot.group, stale, now, {slot.tier})|
  }

  /** The rollup the build must leave behind. */
  ghost predicate IsRollup(partials: map<Slot, Partial>, rows: seq<EpisodeRow>, stale: set<nat>, now: int) {
    && (forall slot :: slot in partials <==> Present(rows, now, slot))
    && (forall slot :: slot in partials ==> partials[slot] == PartialAt(rows, slot.group, stale, now, {slot.tier}))
  }

  // ---------------------------------------------------------------- all protocols from each

  /** The episodes of a slot whose protocol has been merged already. */
  function Among(slot: Slot, now: int, protocols: set<Option<Protocol>>): EpisodeRow -> bool {
    (r: EpisodeRow) => Belongs(slot.group, r) && TierOf(now, r.lastTimestamp) == slot.tier && r.protocol in protocols
  }

  function Protocols(groups: seq<GroupRow>, n: nat, all: Slot): set<Option<Protocol>>
    requires n <= |groups|
  {
    if n == 0 then {}
    else Protocols(groups, n - 1, all) + if AllSlotOf(groups[n - 1]) == all then {groups[n - 1].protocol} else {}
  }

  lemma {:induction false} ProtocolsAre(groups: seq<GroupRow>, n: nat, all: Slot, p: Option<Protocol>)
    requires n <= |groups|
    ensures p in Protocols(groups, n, all)
        <==> exists i :: 0 <= i < n && AllSlotOf(groups[i]) == all && groups[i].protocol == p
  {
    if n > 0 {
      ProtocolsAre(groups, n - 1, all, p);
    }
  }

  /** The state of the component rows after `n` groups. */
  ghost predicate Grouped(partials: map<Slot, Partial>, rows: seq<EpisodeRow>, now: int, groups: seq<GroupRow>, n: nat)
    requires n <= |groups|
  {
    && (forall slot: Slot | slot.group.scope.Only? ::
          slot in partials <==> exists i :: 0 <= i < n && SlotOf(groups[i]) == slot)
    && (forall slot: Slot | slot.group.scope.Only? && slot in partials :: partials[slot] == Bare(rows, now, slot))
    && (forall slot: Slot | slot.group.scope.AllProtocols? ::
          slot in partials <==> |Pick(rows, Among(slot, now, Protocols(groups, n, slot)))| > 0)
    && (forall slot: Slot | slot.group.scope.AllProtocols? && slot in partials ::
          partials[slot] == Summary(Pick(rows, Among(slot, now, Protocols(groups, n, slot))), 0, 0))
  }

  lemma FreshProtocol(rows: seq<EpisodeRow>, now: int, groups: seq<GroupRow>, n: nat)
    requires n < |groups| && IsGrouping(rows, now, groups)
    ensures groups[n].protocol !in Protocols(groups, n, AllSlotOf(groups[n]))
  {
    ProtocolsAre(groups, n, AllSlotOf(groups[n]), groups[n].protocol);
    assert forall i | 0 <= i < n :: SlotOf(groups[i]) != SlotOf(groups[n]);
  }

  /** Merging one group into the row of all protocols. */
  lemma MergeGroup(rows: seq<EpisodeRow>, now: int, groups: seq<GroupRow>, n: nat)
    requires n < |groups| && IsGrouping(rows, now, groups)
    ensures
      var all := AllSlotOf(groups[n]);
      var before, after := Pick(rows, Among(all, now, Protocols(groups, n, all))),
          Pick(rows, Among(all, now, Protocols(groups, n + 1, all)));
      && |after| > 0
      && MergeActivity(Summary(before, 0, 0), groups[n].values) == Summary(after, 0, 0)
  {
    FreshProtocol(rows, now, groups, n);
    NextProtocols(groups, n, AllSlotOf(groups[n]));
    assert Present(rows, now, SlotOf(groups[n])) && groups[n].values == Bare(rows, now, SlotOf(groups[n]));
    hide IsGrouping, Protocols;
    MergeProtocol(rows, now, AllSlotOf(groups[n]), Protocols(groups, n, AllSlotOf(groups[n])), groups[n].protocol);
  }

  lemma MergeProtocol(rows: seq<EpisodeRow>, now: int, all: Slot, protocols: set<Option<Protocol>>, p: Option<Protocol>)
    requires all.group.scope.AllProtocols? && p !in protocols
    requires Present(rows, now, all.(group := all.group.(scope := Only(p))))
    ensures
      var before, after := Pick(rows, Among(all, now, protocols)), Pick(rows, Among(all, now, protocols + {p}));
      && |after| > 0
      && MergeActivity(Summary(before, 0, 0), Bare(rows, now, all.(group := all.group.(scope := Only(p)))))
          == Summary(after, 0, 0)
  {
    var own := all.group.(scope := Only(p));
    var a, b, c := Among(all, now, protocols), TierFilter(own, now, {all.tier}), Among(all, now, protocols + {p});
    hide TierOf, Summary, MergeActivity, Pick;
    assert Splits(a, b, c);
    SummariesMerge(rows, a, b, c, 0, 0, 0, 0);
    NotEmpty(rows, b, c);
  }

  lemma NextProtocols(groups: seq<GroupRow>, n: nat, all: Slot)
    requires n < |groups|
    ensures Protocols(groups, n + 1, all)
         == Protocols(groups, n, all) + if AllSlotOf(groups[n]) == all then {groups[n].protocol} else {}
  {
  }

  lemma NotEmpty(rows: seq<EpisodeRow>, b: EpisodeRow -> bool, c: EpisodeRow -> bool)
    requires |Pick(rows, b)| > 0 && forall r: EpisodeRow :: b(r) ==> c(r)
    ensures |Pick(rows, c)| > 0
  {
    PickMembers(rows, b);
    PickMembers(rows, c);
    var r := Pick(rows, b)[0];
    assert r in Pick(rows, b) && r in Pick(rows, c);
  }

  lemma RowIsCovered(rows: seq<EpisodeRow>, now: int, groups: seq<GroupRow>, slot: Slot, r: EpisodeRow)
    requires IsGrouping(rows, now, groups) && slot.group.scope.AllProtocols?
    requires r in rows && Belongs(slot.group, r) && TierOf(now, r.lastTimestamp) == slot.tier
    ensures r.protocol in Protocols(groups, |groups|, slot)
  {
    var own := Slot(Group(slot.group.kind, slot.group.identity, Only(r.protocol)), slot.tier);
    var kept := Pick(rows, TierFilter(own.group, now, {own.tier}));
    PickMembers(rows, TierFilter(own.group, now, {own.tier}));
    assert r in kept;
    assert Present(rows, now, own);
    var i :| 0 <= i < |groups| && SlotOf(groups[i]) == own;
    ProtocolsAre(groups, |groups|, slot, r.protocol);
    assert AllSlotOf(groups[i]) == slot;
  }

  /** After the last group, the row of all protocols covers every episode of its slot. */
  lemma AllCovered(rows: seq<EpisodeRow>, now: int, groups: seq<GroupRow>, slot: Slot)
    requires IsGrouping(rows, now, groups) && slot.group.scope.AllProtocols?
    ensures Pick(rows, Among(slot, now, Protocols(groups, |groups|, slot)))
        == InTiers(rows, slot.group, now, {slot.tier})
  {
    var protocols := Protocols(groups, |groups|, slot);
    hide IsGrouping, Belongs, TierOf, Protocols;
    forall r | r in rows
      ensures Among(slot, now, protocols)(r) == TierFilter(slot.group, now, {slot.tier})(r)
    {
      if Belongs(slot.group, r) && TierOf(now, r.lastTimestamp) == slot.tier {
        RowIsCovered(rows, now, groups, slot, r);
      }
    }
    PickSame(rows, Among(slot, now, protocols), TierFilter(slot.group, now, {slot.tier}));
  }

  // ---------------------------------------------------------------- the stored rows

  lemma GroupedStart(rows: seq<EpisodeRow>, now: int, groups: seq<GroupRow>)
    ensures Grouped(map[], rows, now, groups, 0)
  {
    forall slot: Slot | slot.group.scope.AllProtocols?
      ensures |Pick(rows, Among(slot, now, Protocols(groups, 0, slot)))| == 0
    {
      PickNone(rows, Among(slot, now, {}));
    }
  }

  /** The component rows once one more group has been read. */
  function AddGroup(partials: map<Slot, Partial>, row: GroupRow): map<Slot, Partial> {
    var all := AllSlotOf(row);
    var every := if all in partials then partials[all] else BLANK;
    partials[SlotOf(row) := row.values][all := MergeActivity(every, row.values)]
  }

  lemma OwnSlotFurther(partials: map<Slot, Partial>, rows: seq<EpisodeRow>, now: int, groups: seq<GroupRow>, n: nat,
                       slot: Slot)
    requires n < |groups| && IsGrouping(rows, now, groups) && Grouped(partials, rows, now, groups, n)
    requires slot.group.scope.Only?
    ensures
      var after := AddGroup(partials, groups[n]);
      && (slot in after <==> exists i :: 0 <= i < n + 1 && SlotOf(groups[i]) == slot)
      && (slot in after ==> after[slot] == Bare(rows, now, slot))
  {
    hide Bare, MergeActivity, Present, Pick, Among, Protocols, Summary;
    var after := AddGroup(partials, groups[n]);
    assert groups[n].values == Bare(rows, now, SlotOf(groups[n]));
    hide IsGrouping;
    if slot == SlotOf(groups[n]) {
      assert 0 <= n < n + 1 && SlotOf(groups[n]) == slot;
    } else {
      assert slot in after <==> slot in partials;
      assert slot in after ==> after[slot] == partials[slot];
    }
  }

  lemma AllSlotFurther(partials: map<Slot, Partial>, rows: seq<EpisodeRow>, now: int, groups: seq<GroupRow>, n: nat,
                       slot: Slot)
    requires n < |groups| && IsGrouping(rows, now, groups) && Grouped(partials, rows, now, groups, n)
    requires slot.group.scope.AllProtocols?
    ensures
      var after := AddGroup(partials, groups[n]);
      var picked := Pick(rows, Among(slot, now, Protocols(groups, n + 1, slot)));
      && (slot in after <==> |picked| > 0)
      && (slot in after ==> after[slot] == Summary(picked, 0, 0))
  {
    NextProtocols(groups, n, slot);
    MergeGroup(rows, now, groups, n);
    NothingIsBlank(Pick(rows, Among(slot, now, Protocols(groups, n, slot))));
    hide IsGrouping, Summary, MergeActivity, Pick, Bare, Among, Protocols;
    if slot != AllSlotOf(groups[n]) {
      assert Protocols(groups, n + 1, slot) == Protocols(groups, n, slot);
    }
  }

  lemma GroupedFurther(partials: map<Slot, Partial>, rows: seq<EpisodeRow>, now: int, groups: seq<GroupRow>, n: nat)
    requires n < |groups| && IsGrouping(rows, now, groups) && Grouped(partials, rows, now, groups, n)
    ensures Grouped(AddGroup(partials, groups[n]), rows, now, groups, n + 1)
  {
    hide IsGrouping, AddGroup, Summary, Pick, Bare, Among, Protocols;
    forall slot: Slot | slot.group.scope.Only? {
      OwnSlotFurther(partials, rows, now, groups, n, slot);
    }
    forall slot: Slot | slot.group.scope.AllProtocols? {
      AllSlotFurther(partials, rows, now, groups, n, slot);
    }
  }

  lemma NothingIsBlank(rows: seq<EpisodeRow>)
    ensures |rows| == 0 ==> Summary(rows, 0, 0) == BLANK
  {
  }

  /** Slots without their position counts. */
  ghost predicate Components(partials: map<Slot, Partial>, rows: seq<EpisodeRow>, now: int) {
    && (forall slot :: slot in partials <==> Present(rows, now, slot))
    && (forall slot :: slot in partials ==> partials[slot] == Bare(rows, now, slot))
  }

  lemma GroupedEnd(partials: map<Slot, Partial>, rows: seq<EpisodeRow>, now: int, groups: seq<GroupRow>)
    requires IsGrouping(rows, now, groups) && Grouped(partials, rows, now, groups, |groups|)
    ensures Components(partials, rows, now)
  {
    hide Summary, Pick;
    forall slot: Slot
      ensures slot in partials <==> Present(rows, now, slot)
      ensures slot in partials ==> partials[slot] == Bare(rows, now, slot)
    {
      if slot.group.scope.AllProtocols? {
        AllCovered(rows, now, groups, slot);
      } else {
        assert (exists i :: 0 <= i < |groups| && SlotOf(groups[i]) == slot) ==> Present(rows, now, slot);
      }
    }
  }

  method GroupComponents(ghost rows: seq<EpisodeRow>, ghost now: int, groups: seq<GroupRow>)
    returns (partials: map<Slot, Partial>)
    requires IsGrouping(rows, now, groups)
    ensures Components(partials, rows, now)
  {
    hide IsGrouping, Grouped, MergeActivity, AddGroup;
    partials := map[];
    GroupedStart(rows, now, groups);
    var n := 0;
    while n < |groups|
      invariant 0 <= n <= |groups| && Grouped(partials, rows, now, groups, n)
    {
      GroupedFurther(partials, rows, now, groups, n);
      partials := AddGroup(partials, groups[n]);
      n := n + 1;
    }
    GroupedEnd(partials, rows, now, groups);
  }

  // ---------------------------------------------------------------- position counts

  /** What the first `n` count rows add to a slot. */
  function Seen(counts: seq<PositionRow>, n: nat, slot: Slot): nat
    requires n <= |counts|
  {
    if n == 0 then 0 else Seen(counts, n - 1, slot) + if counts[n - 1].slot == slot then counts[n - 1].count else 0
  }

  lemma {:induction false} SeenAtMostOnce(counts: seq<PositionRow>, at: Slot -> nat, n: nat, slot: Slot)
    requires IsCounting(counts, at) && n <= |counts|
    ensures Seen(counts, n, slot) == if exists i :: 0 <= i < n && counts[i].slot == slot then at(slot) else 0
  {
    if n > 0 {
      SeenAtMostOnce(counts, at, n - 1, slot);
      assert counts[n - 1].count == at(counts[n - 1].slot);
      assert forall i | 0 <= i < n - 1 :: counts[i].slot != counts[n - 1].slot;
    }
  }

  lemma AllSeen(counts: seq<PositionRow>, at: Slot -> nat, slot: Slot)
    requires IsCounting(counts, at)
    ensures Seen(counts, |counts|, slot) == at(slot)
  {
    SeenAtMostOnce(counts, at, |counts|, slot);
  }

  /** Add the counts to the stored rows; a slot without a row would get a blank one. */
  method AddPositions(partials: map<Slot, Partial>, counts: seq<PositionRow>) returns (counted: map<Slot, Partial>)
    requires forall i | 0 <= i < |counts| :: counts[i].slot in partials
    ensures counted.Keys == partials.Keys
    ensures forall slot | slot in partials ::
              counted[slot] == partials[slot].(positions := partials[slot].positions + Seen(counts, |counts|, slot))
  {
    counted := partials;
    var n := 0;
    while n < |counts|
      invariant 0 <= n <= |counts| && counted.Keys == partials.Keys
      invariant forall slot | slot in partials ::
        counted[slot] == partials[slot].(positions := partials[slot].positions + Seen(counts, n, slot))
    {
      var slot := counts[n].slot;
      var values := if slot in counted then counted[slot] else BLANK;
      counted := counted[slot := values.(positions := values.positions + counts[n].count)];
      n := n + 1;
    }
  }

  method AddOpen(partials: map<Slot, Partial>, counts: seq<PositionRow>) returns (counted: map<Slot, Partial>)
    requires forall i | 0 <= i < |counts| :: counts[i].slot in partials
    ensures counted.Keys == partials.Keys
    ensures forall slot | slot in partials ::
              counted[slot] == partials[slot].(open := partials[slot].open + Seen(counts, |counts|, slot))
  {
    counted := partials;
    var n := 0;
    while n < |counts|
      invariant 0 <= n <= |counts| && counted.Keys == partials.Keys
      invariant forall slot | slot in partials ::
        counted[slot] == partials[slot].(open := partials[slot].open + Seen(counts, n, slot))
    {
      var slot := counts[n].slot;
      var values := if slot in counted then counted[slot] else BLANK;
      counted := counted[slot := values.(open := values.open + counts[n].count)];
      n := n + 1;
    }
  }

  lemma CountedIsPresent(rows: seq<EpisodeRow>, stale: set<nat>, now: int, slot: Slot)
    requires PositionCount(rows, now)(slot) > 0 || OpenCount(rows, stale, now)(slot) > 0
    ensures Present(rows, now, slot)
  {
    CountedHasRow(rows, slot.group, stale, now, {slot.tier});
    hide PositionsAt, OpenAt, InTiers;
  }

  lemma SummaryCounts(rows: seq<EpisodeRow>, positions: nat, open: nat)
    ensures Summary(rows, 0, 0).(positions := positions, open := open) == Summary(rows, positions, open)
  {
  }

  // ---------------------------------------------------------------- the view

  /** The tiers of a group among the slots already added up. */
  function TiersDone(done: set<Slot>, g: Group): set<nat> {
    set slot | slot in done && slot.group == g :: slot.tier
  }

  /** The sums of a view after the slots `done`: per identity, its tiers so far, if it has any. */
  ghost predicate SumsOk(sums: map<Group, Partial>, rows: seq<EpisodeRow>, stale: set<nat>, now: int, done: set<Slot>) {
    && (forall g :: g in sums <==> TiersDone(done, g) != {})
    && (forall g :: g in sums ==> sums[g] == PartialAt(rows, g, stale, now, TiersDone(done, g)))
  }

  lemma DoneFurther(done: set<Slot>, slot: Slot, g: Group)
    ensures TiersDone(done + {slot}, g) == TiersDone(done, g) + if slot.group == g then {slot.tier} else {}
    ensures slot !in done && slot.group == g ==> slot.tier !in TiersDone(done, g)
  {
    if slot.group == g && slot.tier in TiersDone(done, g) {
      var other :| other in done && other.group == g && other.tier == slot.tier;
      assert other == slot;
    }
  }

  function AddSlot(sums: map<Group, Partial>, slot: Slot, values: Partial): map<Group, Partial> {
    sums[slot.group := if slot.group in sums then MergeActivity(sums[slot.group], values) else values]
  }

  lemma SumFurther(rows: seq<EpisodeRow>, stale: set<nat>, now: int, done: set<Slot>, slot: Slot)
    requires slot !in done && Present(rows, now, slot)
    ensures
      var before, after := TiersDone(done, slot.group), TiersDone(done + {slot}, slot.group);
      var values := PartialAt(rows, slot.group, stale, now, {slot.tier});
      && after != {}
      && PartialAt(rows, slot.group, stale, now, after)
         == if before == {} then values else MergeActivity(PartialAt(rows, slot.group, stale, now, before), values)
  {
    DoneFurther(done, slot, slot.group);
    OneMoreTier(rows, slot.group, stale, now, TiersDone(done, slot.group), slot.tier);
    assert slot.tier in TiersDone(done + {slot}, slot.group);
    hide PartialAt, MergeActivity, InTiers, TiersDone;
    if TiersDone(done, slot.group) == {} {
      assert TiersDone(done, slot.group) + {slot.tier} == {slot.tier};
    }
  }

  lemma SumsFurther(sums: map<Group, Partial>, rows: seq<EpisodeRow>, stale: set<nat>, now: int, done: set<Slot>,
                    slot: Slot)
    requires SumsOk(sums, rows, stale, now, done) && slot !in done && Present(rows, now, slot)
    ensures SumsOk(AddSlot(sums, slot, PartialAt(rows, slot.group, stale, now, {slot.tier})), rows, stale, now,
                   done + {slot})
  {
    hide PartialAt, MergeActivity, TiersDone, Present, AddSlot;
    forall g: Group {
      SumsFurtherAt(sums, rows, stale, now, done, slot, g);
    }
  }

  lemma SumsFurtherAt(sums: map<Group, Partial>, rows: seq<EpisodeRow>, stale: set<nat>, now: int, done: set<Slot>,
                      slot: Slot, g: Group)
    requires SumsOk(sums, rows, stale, now, done) && slot !in done && Present(rows, now, slot)
    ensures
      var after := AddSlot(sums, slot, PartialAt(rows, slot.group, stale, now, {slot.tier}));
      && (g in after <==> TiersDone(done + {slot}, g) != {})
      && (g in after ==> after[g] == PartialAt(rows, g, stale, now, TiersDone(done + {slot}, g)))
  {
    hide PartialAt, MergeActivity, TiersDone, Present;
    SumFurther(rows, stale, now, done, slot);
    DoneFurther(done, slot, g);
    if g != slot.group {
      assert TiersDone(done + {slot}, g) == TiersDone(done, g);
    }
  }

  lemma NothingDone(rows: seq<EpisodeRow>, stale: set<nat>, now: int)
    ensures SumsOk(map[], rows, stale, now, {})
  {
  }

  /** Tiers without a row add nothing, so the tiers that have one are enough. */
  lemma {:induction false} OnlyPresentTiers(rows: seq<EpisodeRow>, g: Group, stale: set<nat>, now: int,
                                            done: set<nat>, all: set<nat>)
    requires done <= all && forall t :: t in all && t !in done ==> |InTiers(rows, g, now, {t})| == 0
    ensures PartialAt(rows, g, stale, now, done) == PartialAt(rows, g, stale, now, all)
    decreases |all - done|
  {
    if t :| t in all && t !in done {
      OneMoreTier(rows, g, stale, now, done, t);
      assert all - (done + {t}) == all - done - {t};
      OnlyPresentTiers(rows, g, stale, now, done + {t}, all);
    } else {
      assert done == all;
    }
  }

  // ---------------------------------------------------------------- the rollup

  class Rollup {
    var partials: map<Slot, Partial>
    var gas: map<GasSlot, GasTotals>

    /** Replace the stored rows by those of a new build. */
    method Build(ghost d: GasData, ghost stale: set<nat>, ghost now: int,
                 groups: seq<GroupRow>, positions: seq<PositionRow>, open: seq<PositionRow>, gasGroups: seq<GasGroup>)
      requires IsGrouping(d.rows, now, groups) && IsGasGrouping(d, now, gasGroups)
      requires IsCounting(positions, PositionCount(d.rows, now)) && IsCounting(open, OpenCount(d.rows, stale, now))
      modifies this
      ensures IsRollup(partials, d.rows, stale, now) && IsGasRollup(gas, d, now)
    {
      hide IsGasGrouping, IsGasRollup, IsGrouping, IsCounting, IsRollup, Components, Seen, PositionCount, OpenCount;
      ghost var rows := d.rows;
      var components := GroupComponents(rows, now, groups);
      CountedHaveRows(components, rows, stale, now, positions, open);
      var counted := AddPositions(components, positions);
      partials := AddOpen(counted, open);
      CountedIsRollup(components, partials, rows, stale, now, positions, open);
      gas := BuildGas(d, now, gasGroups);
    }

    /** Add up the gas tiers of a window, per owner, for one protocol scope. */
    method Gas(ghost d: GasData, ghost now: int, scope: Scope, depth: nat)
      returns (reported: map<Identity, Option<real>>)
      requires IsGasRollup(gas, d, now) && scope in GAS_SCOPES && depth < TIERS
      ensures forall owner: Identity :: owner in reported <==> |WindowTxs(d, owner, scope, now, depth)| > 0
      ensures forall owner | owner in reported ::
                reported[owner] == DirectGas(WindowTxs(d, owner, scope, now, depth), d.costs, owner)
    {
      reported := ViewGas(gas, d, now, scope, depth);
    }

    /** Add up the tiers of a window, per identity, for one protocol scope. */
    method View(ghost rows: seq<EpisodeRow>, ghost stale: set<nat>, ghost now: int, scope: Scope, depth: nat)
      returns (sums: map<Group, Partial>)
      requires IsRollup(partials, rows, stale, now) && depth < TIERS
      ensures forall g: Group | g.scope == scope :: g in sums <==> |Selected(rows, g, now, depth)| > 0
      ensures forall g: Group | g.scope == scope && g in sums ::
                sums[g] == PartialAt(rows, g, stale, now, UpTo(depth))
      ensures forall g | g in sums :: g.scope == scope
    {
      hide Present, PartialAt, MergeActivity, AddSlot, SumsOk;
      sums := map[];
      NothingDone(rows, stale, now);
      var todo := partials.Keys;
      ghost var done: set<Slot> := {};
      while todo != {}
        invariant todo <= partials.Keys && done <= partials.Keys - todo
        invariant forall slot | slot in partials ::
          slot in todo || (slot in done <==> slot.tier <= depth && slot.group.scope == scope)
        invariant forall slot | slot in done :: slot.tier <= depth && slot.group.scope == scope
        invariant SumsOk(sums, rows, stale, now, done)
        decreases |todo|
      {
        SomeSlot(todo);
        var slot :| slot in todo;
        if slot.tier <= depth && slot.group.scope == scope {
          SumsFurther(sums, rows, stale, now, done, slot);
          sums := AddSlot(sums, slot, partials[slot]);
          done := done + {slot};
        }
        todo := todo - {slot};
      }
      ViewIsWindow(partials, sums, rows, stale, now, scope, depth, done);
    }
  }

  lemma CountedHaveRows(components: map<Slot, Partial>, rows: seq<EpisodeRow>, stale: set<nat>, now: int,
                        positions: seq<PositionRow>, open: seq<PositionRow>)
    requires Components(components, rows, now)
    requires IsCounting(positions, PositionCount(rows, now)) && IsCounting(open, OpenCount(rows, stale, now))
    ensures forall i | 0 <= i < |positions| :: positions[i].slot in components
    ensures forall i | 0 <= i < |open| :: open[i].slot in components
  {
    hide Present, Bare;
    forall i | 0 <= i < |positions|
      ensures positions[i].slot in components
    {
      CountedIsPresent(rows, stale, now, positions[i].slot);
    }
    forall i | 0 <= i < |open|
      ensures open[i].slot in components
    {
      CountedIsPresent(rows, stale, now, open[i].slot);
    }
  }

  lemma CountedIsRollup(components: map<Slot, Partial>, partials: map<Slot, Partial>, rows: seq<EpisodeRow>,
                        stale: set<nat>, now: int, positions: seq<PositionRow>, open: seq<PositionRow>)
    requires Components(components, rows, now)
    requires IsCounting(positions, PositionCount(rows, now)) && IsCounting(open, OpenCount(rows, stale, now))
    requires partials.Keys == components.Keys
    requires forall slot | slot in components ::
               partials[slot] == components[slot].(
                 positions := components[slot].positions + Seen(positions, |positions|, slot),
                 open := components[slot].open + Seen(open, |open|, slot))
    ensures IsRollup(partials, rows, stale, now)
  {
    hide Bare, PartialAt, Seen, IsCounting;
    assert forall slot :: slot in partials <==> Present(rows, now, slot);
    hide Present;
    forall slot | slot in partials
      ensures partials[slot] == PartialAt(rows, slot.group, stale, now, {slot.tier})
    {
      AllSeen(positions, PositionCount(rows, now), slot);
      AllSeen(open, OpenCount(rows, stale, now), slot);
      BareIsPartial(rows, stale, now, slot);
    }
  }

  lemma SomeSlot(s: set<Slot>)
    ensures s == {} || exists slot :: slot in s
  {
    if forall slot :: slot !in s {
      assert s == {};
    }
  }

  lemma BareIsPartial(rows: seq<EpisodeRow>, stale: set<nat>, now: int, slot: Slot)
    ensures Bare(rows, now, slot).(positions := PositionCount(rows, now)(slot),
                                   open := OpenCount(rows, stale, now)(slot))
         == PartialAt(rows, slot.group, stale, now, {slot.tier})
    ensures Bare(rows, now, slot).positions == 0 && Bare(rows, now, slot).open == 0
  {
    SummaryCounts(InTiers(rows, slot.group, now, {slot.tier}), PositionCount(rows, now)(slot),
                  OpenCount(rows, stale, now)(slot));
  }

  /** A tier inside the window has a row exactly when the window has an episode in it. */
  lemma WindowHasTier(rows: seq<EpisodeRow>, g: Group, now: int, d: nat)
    requires d < TIERS
    ensures |Selected(rows, g, now, d)| > 0 <==> exists t :: t in UpTo(d) && |InTiers(rows, g, now, {t})| > 0
  {
    var selected := Selected(rows, g, now, d);
    PickMembers(rows, WindowFilter(g, now, d));
    if |selected| > 0 {
      var r := selected[0];
      assert r in selected;
      var t := TierOf(now, r.lastTimestamp);
      WindowIsTiers(now, d, r.lastTimestamp);
      PickMembers(rows, TierFilter(g, now, {t}));
      assert r in InTiers(rows, g, now, {t});
      assert t in UpTo(d);
    }
    if t :| t in UpTo(d) && |InTiers(rows, g, now, {t})| > 0 {
      PickMembers(rows, TierFilter(g, now, {t}));
      var r := InTiers(rows, g, now, {t})[0];
      assert r in InTiers(rows, g, now, {t});
      WindowIsTiers(now, d, r.lastTimestamp);
      assert r in selected;
    }
  }

  lemma ViewIsWindow(partials: map<Slot, Partial>, sums: map<Group, Partial>, rows: seq<EpisodeRow>, stale: set<nat>,
                     now: int, scope: Scope, depth: nat, done: set<Slot>)
    requires IsRollup(partials, rows, stale, now) && depth < TIERS
    requires SumsOk(sums, rows, stale, now, done)
    requires forall slot | slot in partials :: slot in done <==> slot.tier <= depth && slot.group.scope == scope
    requires forall slot | slot in done :: slot in partials && slot.tier <= depth && slot.group.scope == scope
    ensures forall g: Group | g.scope == scope :: g in sums <==> |Selected(rows, g, now, depth)| > 0
    ensures forall g: Group | g.scope == scope && g in sums :: sums[g] == PartialAt(rows, g, stale, now, UpTo(depth))
    ensures forall g | g in sums :: g.scope == scope
  {
    hide PartialAt, Selected, InTiers;
    forall g | g in sums
      ensures g.scope == scope
    {
      var t :| t in TiersDone(done, g);
    }
    forall g: Group | g.scope == scope
      ensures g in sums <==> |Selected(rows, g, now, depth)| > 0
      ensures g in sums ==> sums[g] == PartialAt(rows, g, stale, now, UpTo(depth))
    {
      WindowHasTier(rows, g, now, depth);
      forall t: nat
        ensures t in TiersDone(done, g) <==> t in UpTo(depth) && |InTiers(rows, g, now, {t})| > 0
      {
        assert Slot(g, t) in partials <==> Present(rows, now, Slot(g, t));
        assert Slot(g, t) in done ==> t in TiersDone(done, g);
      }
      OnlyPresentTiers(rows, g, stale, now, TiersDone(done, g), UpTo(depth));
    }
  }
}
