/**
 What the rows of a replay say about the events themselves: effect rows report the cash of
 their event, and known liquidity is the running sum of the changes.
 */
module EventProofs {
  import opened Common
  import opened PositionModel
  import opened AppendProofs
  import opened EpisodeProofs
  import opened SettlementProofs

  // ---------------------------------------------------------------- effect rows

  /** Nothing is both paid in and paid out, and the difference is what changed hands. */
  predicate Nets(deposit: Pair, proceeds: Pair, cash: Pair) {
    && proceeds.a0 - deposit.a0 == cash.a0 && proceeds.a1 - deposit.a1 == cash.a1
    && deposit.a0 >= 0 && deposit.a1 >= 0 && proceeds.a0 >= 0 && proceeds.a1 >= 0
    && (deposit.a0 == 0 || proceeds.a0 == 0) && (deposit.a1 == 0 || proceeds.a1 == 0)
  }

  predicate Flows4(e: Event) {
    e.protocol.V4? && (e.kind.Add? || e.kind.Remove? || e.kind.Collect? || e.kind.Checkpoint?)
  }

  /** The signed cash of a pool action, as the event reports it; None if a part is unknown. */
  function CashOf(e: Event): Option<Pair> {
    match e.protocol
    case V4 =>
      if !e.data.traceComplete then None
      else Both(Either(e.cash0, e.data.callerDelta0), Either(e.cash1, e.data.callerDelta1))
    case _ =>
      var amounts := Both(e.amount0, e.amount1);
      if amounts.None? then None
      else
        var paid := AbsPair(amounts.value);
        if e.kind.Add? then Some(Pair(-paid.a0, -paid.a1)) else Some(paid)
  }

  /** The actions that move cash: any V4 action, V3 adds and collects, V2 adds and removes. */
  predicate MovesCash(e: Event) {
    match e.protocol
    case V4 => Flows4(e)
    case V3 => e.kind.Add? || e.kind.Collect?
    case V2 => e.kind.Add? || e.kind.Remove?
    case _ => false
  }

  /** The row identifies its event and reports its cash exactly when the event does. */
  predicate Tells(row: EffectRow, e: Event) {
    && row.order == e.order && row.txHash == e.txHash && row.kind == e.kind
    && (row.deposit.Some? <==> CashOf(e).Some?) && (row.proceeds.Some? <==> CashOf(e).Some?)
    && (CashOf(e).Some? ==> Nets(row.deposit.value, row.proceeds.value, CashOf(e).value))
  }

  lemma EffectNets(pending: Option<Pair>, e: Event)
    requires MovesCash(e)
    ensures
      var x := FinancialEffect(e.protocol, pending, e);
      && (x.exact.cashflow <==> CashOf(e).Some?)
      && (x.exact.cashflow ==> Nets(x.flows.deposit, x.flows.proceeds, CashOf(e).value))
  {
  }

  /** The protocol an event is booked under is its own. */
  lemma BookedProtocol(ids: Identities, st: State, e: Event)
    requires !e.protocol.Nft?
    ensures BookedOn(ids, st, e).range.protocol == e.protocol
  {
    hide Entry, Attach;
    EntryRange(ids, st, e);
    AttachRange(ids, Entry(ids, st, e).state, e);
  }

  lemma ProcessRow(ids: Identities, st: State, e: Event)
    ensures
      var w := Process(ids, st, e).writes.effects;
      && w.Keys == {e.id}
      && exists h: Holder, n: Option<nat> :: w[e.id] == EffectRowOf(h, e, EffectOf(BookedOn(ids, st, e), e), n)
  {
    ProcessEffects(ids, st, e);
    hide Entry, Attach, CloseStep, Book, EffectOf, EffectRowOf, Attribution;
    var on := BookedOn(ids, st, e);
    var closed := CloseStep(Book(on, e), e);
    assert Process(ids, st, e).writes.effects[e.id]
        == EffectRowOf(closed.state.holder, e, EffectOf(on, e), Attribution(on, e));
  }

  lemma ProcessTells(ids: Identities, st: State, e: Event)
    requires MovesCash(e)
    ensures e.id in Process(ids, st, e).writes.effects && Tells(Process(ids, st, e).writes.effects[e.id], e)
  {
    ProcessRow(ids, st, e);
    BookedProtocol(ids, st, e);
    EffectNets(BookedOn(ids, st, e).claims.pending, e);
    hide Process, BookedOn, FinancialEffect, CashOf, Nets, MovesCash;
  }

  /** The rows written so far report the events folded so far. */
  lemma {:induction false} FoldTells(ids: Identities, st: State, events: seq<Event>, i: nat)
    requires i < |events| && MovesCash(events[i]) && DistinctIds(events)
    ensures events[i].id in Fold(ids, st, events).writes.effects
    ensures Tells(Fold(ids, st, events).writes.effects[events[i].id], events[i])
    decreases |events|
  {
    hide Process, Tells, MovesCash;
    var init, last := events[..|events| - 1], events[|events| - 1];
    var prior := Fold(ids, st, init);
    ProcessEffects(ids, prior.state, last);
    if i == |events| - 1 {
      ProcessTells(ids, prior.state, last);
    } else {
      FoldTells(ids, st, init, i);
      assert events[i].id != last.id;
    }
  }

  /**
   The effects table of any replay reports the cash of every pool action exactly: unknown where
   the event leaves it unknown, otherwise split by sign into what was paid in and paid out.
   */
  lemma ReplayTells(ids: Identities, base: nat, events: seq<Event>, i: nat)
    requires i < |events| && MovesCash(events[i]) && DistinctIds(events)
    ensures
      var effects := Replay(ids, base, events).writes.effects;
      events[i].id in effects && Tells(effects[events[i].id], events[i])
  {
    var p := Prepared(events);
    PreparedKeeps(events);
    assert p[i] == PreparedAt(events, i);
    SameCash(events, i);
    hide Fold, Tells, MovesCash, PreparedAt, DistinctIds;
    FoldTells(ids, NewState(events[0], base), p, i);
  }

  /** Preparation changes nothing an effect row reports. */
  lemma SameCash(events: seq<Event>, i: nat)
    requires i < |events|
    ensures
      var e := PreparedAt(events, i);
      && e.id == events[i].id && (MovesCash(e) <==> MovesCash(events[i]))
      && forall row :: Tells(row, e) <==> Tells(row, events[i])
  {
    hide MintFollows, BurnFollows, FirstPinned, LastPinned, Nets;
  }

  // ---------------------------------------------------------------- liquidity

  /** An event that neither pins liquidity nor mints, and states its change. */
  predicate Plain(e: Event) {
    e.data.before.None? && e.data.after.None? && !e.data.verifiedMintAfter && e.delta.Some?
  }

  function SumOfDeltas(events: seq<Event>): int {
    if |events| == 0 then 0
    else SumOfDeltas(events[..|events| - 1]) + SignedDelta(events[|events| - 1]).GetOr(0)
  }

  lemma EntryKeepsLiquidity(ids: Identities, st: State, e: Event)
    ensures Entry(ids, st, e).state.claims.liquidity == st.claims.liquidity
  {
  }

  lemma AttachSetsLiquidity(ids: Identities, st: State, e: Event)
    ensures Attach(ids, st, e).state.claims.liquidity == ClaimsSeen(st.claims, e, FactsOf(st.claims, e)).liquidity
  {
    hide FactsOf;
  }

  lemma CloseKeepsLiquidity(st: State, e: Event)
    ensures CloseStep(Book(st, e), e).state.claims.liquidity == st.claims.liquidity
  {
    hide EffectOf, ApplyEffect;
  }

  /** Liquidity after an event: pinned, or the known liquidity before plus the change; never negative. */
  lemma ProcessLiquidity(ids: Identities, st: State, e: Event)
    ensures
      var entry := Entry(ids, st, e).state;
      Process(ids, st, e).state.claims.liquidity == ClaimsSeen(entry.claims, e, FactsOf(entry.claims, e)).liquidity
    ensures Entry(ids, st, e).state.claims.liquidity == st.claims.liquidity
  {
    EntryKeepsLiquidity(ids, st, e);
    var entry := Entry(ids, st, e).state;
    AttachSetsLiquidity(ids, entry, e);
    CloseKeepsLiquidity(Attach(ids, entry, e).state, e);
    hide Entry, Attach, Book, CloseStep, FactsOf, EffectRowOf, EffectOf;
  }

  lemma PlainLiquidity(ids: Identities, st: State, e: Event)
    requires Plain(e) && st.claims.liquidity.Some? && st.claims.liquidity.value + SignedDelta(e).value >= 0
    ensures Process(ids, st, e).state.claims.liquidity == Some(st.claims.liquidity.value + SignedDelta(e).value)
  {
    ProcessLiquidity(ids, st, e);
    hide Process, Entry;
  }

  /** A pinned value after an event overrides whatever was known. */
  lemma PinnedLiquidity(ids: Identities, st: State, e: Event)
    requires e.data.after.Some? && e.data.after.value.liquidity.Some? && e.data.after.value.liquidity.value >= 0
    ensures Process(ids, st, e).state.claims.liquidity == Some(e.data.after.value.liquidity.value)
  {
    ProcessLiquidity(ids, st, e);
    hide Process, Entry;
  }

  /**
   From a known value on, liquidity stays known and is the running sum of the signed changes,
   for as long as the sum does not turn negative.
   */
  lemma {:induction false} LiquidityTracksDeltas(ids: Identities, st: State, events: seq<Event>)
    requires st.claims.liquidity.Some?
    requires forall e :: e in events ==> Plain(e)
    requires forall n :: 0 <= n <= |events| ==> st.claims.liquidity.value + SumOfDeltas(events[..n]) >= 0
    ensures st.claims.liquidity.value + SumOfDeltas(events) >= 0
    ensures Fold(ids, st, events).state.claims.liquidity == Some(st.claims.liquidity.value + SumOfDeltas(events))
    decreases |events|
  {
    hide Process, Plain;
    assert events[..|events|] == events;
    if |events| > 0 {
      var init, last := events[..|events| - 1], events[|events| - 1];
      assert last in events;
      forall n | 0 <= n <= |init|
        ensures st.claims.liquidity.value + SumOfDeltas(init[..n]) >= 0
      {
        assert init[..n] == events[..n];
      }
      LiquidityTracksDeltas(ids, st, init);
      DeltaKnown(last);
      PlainLiquidity(ids, Fold(ids, st, init).state, last);
    }
  }

  lemma DeltaKnown(e: Event)
    requires Plain(e)
    ensures SignedDelta(e).Some?
  {
  }
}
