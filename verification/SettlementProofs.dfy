/**
 What a closed episode proves: it held no liquidity when it was completed, and for V3 its
 principal and fees account for its proceeds to the last raw unit.
 */
module SettlementProofs {
  import opened Common
  import opened PositionModel
  import opened AppendProofs

  // ---------------------------------------------------------------- completion

  /** The position was proved empty, with no principal waiting to be collected. */
  ghost predicate Empty(c: Claims) {
    c.liquidity == Some(0) && NothingPending(c)
  }

  /** The position was proved empty and `e` settled its claims in the way of its protocol. */
  ghost predicate SettledBy(c: Claims, e: Event) {
    c.liquidity == Some(0) && ClaimsSettled(c, e)
  }

  /** Why episode `n` may be stored as complete by this event. */
  ghost predicate Justified(st: State, step: Step, e: Event, n: nat) {
    n in step.writes.episodes && step.writes.episodes[n].status.Complete? ==>
      && step.writes.episodes[n].closing == Some(Closing(e.order, e.timestamp))
      && ((Burns(e) && Empty(st.claims)) || SettledBy(step.state.claims, e))
  }

  lemma LeaveCompletes(st: State, e: Event, n: nat)
    requires n in LeaveOwner(st, e).writes.episodes && LeaveOwner(st, e).writes.episodes[n].status.Complete?
    ensures LeaveOwner(st, e).writes.episodes[n].closing == Some(Closing(e.order, e.timestamp))
    ensures Burns(e) && Empty(st.claims)
  {
  }

  lemma OthersNeverComplete(ids: Identities, st: State, prior: Holder, e: Event, f: Facts, n: nat)
    ensures n !in EnterOwner(ids, st, prior, e).writes.episodes
    ensures n !in IdentityStep(st, e).writes.episodes
    ensures n !in LiquidityStep(st, e, f).writes.episodes
    ensures n in EpisodeStep(ids, st, e, f).writes.episodes ==>
              !EpisodeStep(ids, st, e, f).writes.episodes[n].status.Complete?
  {
  }

  lemma CloseCompletes(st: State, e: Event, n: nat)
    requires n in CloseStep(st, e).writes.episodes
    ensures CloseStep(st, e).writes.episodes[n].closing == Some(Closing(e.order, e.timestamp))
    ensures SettledBy(CloseStep(st, e).state.claims, e)
  {
  }

  /** An event stores an episode as complete only when liquidity is known to be zero. */
  lemma CompletionNeedsZeroLiquidity(ids: Identities, st: State, e: Event, n: nat)
    ensures Justified(st, Process(ids, st, e), e, n)
  {
    hide LeaveOwner, EnterOwner, IdentityStep, LiquidityStep, EpisodeStep, CloseStep, Book, EffectRowOf, EffectOf,
      FactsOf;
    var seen := Observe(st, e);
    var left := LeaveOwner(seen, e);
    var entry := Entry(ids, st, e);
    var f := FactsOf(entry.state.claims, e);
    var liquid := LiquidityStep(entry.state, e, f);
    var booked := Book(Attach(ids, entry.state, e).state, e);
    OthersNeverComplete(ids, seen, seen.holder, e, f, n);
    OthersNeverComplete(ids, left.state, seen.holder, e, f, n);
    OthersNeverComplete(ids, entry.state, seen.holder, e, f, n);
    OthersNeverComplete(ids, liquid.state, seen.holder, e, f, n);
    hide Attribution;
    if n in CloseStep(booked, e).writes.episodes {
      CloseCompletes(booked, e, n);
    } else if n in left.writes.episodes && left.writes.episodes[n].status.Complete? && IsTransfer(e) {
      LeaveCompletes(seen, e, n);
    }
  }

  ghost predicate ActiveOpen(st: State) {
    st.episodes.active.Some? ==> !st.episodes.active.value.status.Complete?
  }

  lemma EntryStaysOpen(ids: Identities, st: State, e: Event)
    requires ActiveOpen(st)
    ensures ActiveOpen(Entry(ids, st, e).state)
  {
    hide LeaveOwner, EnterOwner, IdentityStep;
    var seen := Observe(st, e);
    EntryPartsStayOpen(ids, seen, seen.holder, e);
    EntryPartsStayOpen(ids, LeaveOwner(seen, e).state, seen.holder, e);
  }

  lemma EntryPartsStayOpen(ids: Identities, st: State, prior: Holder, e: Event)
    requires ActiveOpen(st)
    ensures ActiveOpen(LeaveOwner(st, e).state)
    ensures ActiveOpen(EnterOwner(ids, st, prior, e).state)
    ensures ActiveOpen(IdentityStep(st, e).state)
  {
  }

  lemma CloseStaysOpen(st: State, e: Event)
    requires ActiveOpen(st)
    ensures ActiveOpen(CloseStep(st, e).state)
  {
  }

  lemma BookStaysOpen(st: State, e: Event)
    requires ActiveOpen(st)
    ensures ActiveOpen(Book(st, e))
  {
    hide EffectOf, ClaimsAfter;
  }

  lemma AttachStaysOpen(ids: Identities, st: State, e: Event)
    requires ActiveOpen(st)
    ensures ActiveOpen(Attach(ids, st, e).state)
  {
  }

  lemma ProcessStaysOpen(ids: Identities, st: State, e: Event)
    requires ActiveOpen(st)
    ensures ActiveOpen(Process(ids, st, e).state)
  {
    hide Entry, Attach, CloseStep, Book, EffectRowOf, EffectOf;
    var entry := Entry(ids, st, e).state;
    EntryStaysOpen(ids, st, e);
    AttachStaysOpen(ids, entry, e);
    var attached := Attach(ids, entry, e).state;
    BookStaysOpen(attached, e);
    CloseStaysOpen(Book(attached, e), e);
  }

  /** Event `i` of the run proved the position empty, before or after its own effect. */
  ghost predicate EmptiedBy(ids: Identities, st: State, events: seq<Event>, i: nat, order: Order)
    requires i < |events|
  {
    && events[i].order == order
    && (|| Empty(Fold(ids, st, events[..i]).state.claims)
        || Fold(ids, st, events[..i + 1]).state.claims.liquidity == Some(0))
  }

  ghost predicate CompletionsJustified(ids: Identities, st: State, events: seq<Event>, rows: map<nat, Episode>) {
    forall n :: n in rows && rows[n].status.Complete? ==>
                  rows[n].closing.Some? && exists i :: 0 <= i < |events|
                                                       && EmptiedBy(ids, st, events, i, rows[n].closing.value.order)
  }

  lemma EmptiedByLonger(ids: Identities, st: State, events: seq<Event>, e: Event, i: nat, order: Order)
    requires i < |events| && EmptiedBy(ids, st, events, i, order)
    ensures EmptiedBy(ids, st, events + [e], i, order)
  {
    hide Process;
    assert (events + [e])[..i] == events[..i];
    assert (events + [e])[..i + 1] == events[..i + 1];
  }

  lemma {:induction false} FoldCompletions(ids: Identities, st: State, events: seq<Event>)
    requires ActiveOpen(st)
    ensures ActiveOpen(Fold(ids, st, events).state)
    ensures CompletionsJustified(ids, st, events, Fold(ids, st, events).writes.episodes)
    decreases |events|
  {
    hide Process;
    if |events| > 0 {
      var init, last := events[..|events| - 1], events[|events| - 1];
      assert init + [last] == events;
      FoldCompletions(ids, st, init);
      var prior := Fold(ids, st, init);
      ProcessStaysOpen(ids, prior.state, last);
      hide CompletionsJustified;
      CompletionsStep(ids, st, init, last);
    }
  }

  lemma CompletionsStep(ids: Identities, st: State, init: seq<Event>, last: Event)
    requires CompletionsJustified(ids, st, init, Fold(ids, st, init).writes.episodes)
    ensures
      var prior := Fold(ids, st, init);
      CompletionsJustified(ids, st, init + [last],
                           prior.writes.episodes + Process(ids, prior.state, last).writes.episodes)
  {
    hide Process, EmptiedBy, Fold;
    var prior := Fold(ids, st, init);
    var step := Process(ids, prior.state, last);
    var rows := prior.writes.episodes + step.writes.episodes;
    forall n | n in rows && rows[n].status.Complete?
      ensures rows[n].closing.Some?
      ensures exists i :: 0 <= i < |init + [last]| && EmptiedBy(ids, st, init + [last], i, rows[n].closing.value.order)
    {
      if n in step.writes.episodes {
        CompletionNeedsZeroLiquidity(ids, prior.state, last, n);
        EmptiedByLast(ids, st, init, last, n);
      } else {
        var i :| 0 <= i < |init| && EmptiedBy(ids, st, init, i, rows[n].closing.value.order);
        EmptiedByLonger(ids, st, init, last, i, rows[n].closing.value.order);
      }
    }
  }

  lemma EmptiedByLast(ids: Identities, st: State, init: seq<Event>, last: Event, n: nat)
    requires
      var prior := Fold(ids, st, init);
      var step := Process(ids, prior.state, last);
      n in step.writes.episodes && step.writes.episodes[n].status.Complete? && Justified(prior.state, step, last, n)
    ensures EmptiedBy(ids, st, init + [last], |init|, last.order)
  {
    hide Process;
    assert (init + [last])[..|init|] == init;
    assert (init + [last])[..|init| + 1] == init + [last];
  }

  /**
   Over every history, an episode stored as complete was closed by an event of that history
   at which the position was known to hold no liquidity.
   */
  lemma CompleteEpisodesWereEmpty(ids: Identities, ordinal: nat, events: seq<Event>)
    requires |events| > 0
    ensures
      CompletionsJustified(ids, NewState(events[0], ordinal), Prepared(events),
                           Replay(ids, ordinal, events).writes.episodes)
  {
    hide Process, EmptiedBy;
    FoldCompletions(ids, NewState(events[0], ordinal), Prepared(events));
  }

  // ---------------------------------------------------------------- V3 allocation

  /** Collected principal plus fees account for the proceeds, per token. */
  predicate Accounts(f: Flows) {
    f.principal.Plus(f.fees) == f.proceeds
  }

  /** Fees recorded on a collect do not exceed what was collected. */
  predicate FeesWithin(e: Event) {
    e.kind.Collect? && e.fee0.Some? && e.fee1.Some? && e.amount0.Some? && e.amount1.Some? ==>
      e.fee0.value <= Abs(e.amount0.value) && e.fee1.value <= Abs(e.amount1.value)
  }

  /** A V3 collect with known fees splits exactly if and only if its recorded fees fit in it. */
  lemma CollectSplitsExactly(pending: Option<Pair>, e: Event)
    requires e.kind.Collect? && V3Effect(pending, e).exact.fees
    ensures Accounts(V3Effect(pending, e).flows) <==> FeesWithin(e)
  {
  }

  /** A collect recording one unit of fees more than it paid out: the split exceeds the proceeds. */
  lemma OverstatedFeesBreakTheSplit(e: Event)
    requires e.kind.Collect? && e.amount0 == Some(5) && e.amount1 == Some(0) && e.fee0 == Some(6) && e.fee1 == Some(0)
    ensures V3Effect(None, e).exact.fees && !Accounts(V3Effect(None, e).flows)
  {
    assert V3Effect(None, e).flows.principal.Plus(V3Effect(None, e).flows.fees).a0 == 6;
  }

  ghost predicate V3Run(events: seq<Event>) {
    forall e :: e in events ==> (e.protocol.V3? || (e.protocol.Nft? && e.kind.Transfer?)) && FeesWithin(e)
  }

  predicate V3OrNft(p: Protocol) {
    p.V3? || p.Nft?
  }

  /** While its fees are exact, an episode's principal and fees account for its proceeds. */
  predicate Exact(ep: Episode) {
    ep.exact.fees ==> Accounts(ep.flows)
  }

  ghost predicate ActiveExact(st: State) {
    st.episodes.active.Some? ==> Exact(st.episodes.active.value)
  }

  ghost predicate RowsExact(rows: map<nat, Episode>) {
    forall n :: n in rows ==> Exact(rows[n])
  }

  lemma ZerosAccount(f: Flows)
    requires f.principal == ZERO_PAIR && f.fees == ZERO_PAIR && f.proceeds == ZERO_PAIR
    ensures Accounts(f)
  {
  }

  lemma OnlyCollectsPay(pending: Option<Pair>, e: Event)
    requires !e.kind.Collect?
    ensures
      var f := V3Effect(pending, e).flows;
      f.principal == ZERO_PAIR && f.fees == ZERO_PAIR && f.proceeds == ZERO_PAIR
  {
  }

  lemma EffectExact(st: State, e: Event)
    requires V3OrNft(st.range.protocol) && (st.range.protocol.Nft? ==> e.kind.Transfer?)
    requires FeesWithin(e)
    ensures EffectOf(st, e).exact.fees ==> Accounts(EffectOf(st, e).flows)
  {
    hide V3Effect, FeesWithin, Accounts;
    if st.range.protocol.Nft? {
      ZerosAccount(EffectOf(st, e).flows);
    } else if !e.kind.Collect? {
      OnlyCollectsPay(st.claims.pending, e);
      ZerosAccount(EffectOf(st, e).flows);
    } else if EffectOf(st, e).exact.fees {
      CollectSplitsExactly(st.claims.pending, e);
    }
  }

  ghost predicate StepExact(step: Step) {
    ActiveExact(step.state) && RowsExact(step.writes.episodes)
  }

  lemma LeaveExact(st: State, e: Event)
    requires ActiveExact(st)
    ensures StepExact(LeaveOwner(st, e))
  {
  }

  lemma EnterExact(ids: Identities, st: State, prior: Holder, e: Event)
    requires ActiveExact(st)
    ensures StepExact(EnterOwner(ids, st, prior, e))
  {
  }

  lemma IdentityExact(st: State, e: Event)
    requires ActiveExact(st)
    ensures StepExact(IdentityStep(st, e))
  {
  }

  lemma EpisodeExact(ids: Identities, st: State, e: Event, f: Facts)
    requires ActiveExact(st)
    ensures StepExact(EpisodeStep(ids, st, e, f))
  {
    hide Exact, Begins;
    NewEpisodeExact(ids, st, e, f.ZeroProven() && st.episodes.historyComplete);
    NewEpisodeExact(ids, st, e, false);
    NewEpisodeExact(ids, WithSettled(st, false), e, f.ZeroProven() && st.episodes.historyComplete);
    if st.episodes.active.Some? {
      SameFlowsExact(st.episodes.active.value, Displaced(st.episodes.active.value, e));
    }
  }

  lemma NewEpisodeExact(ids: Identities, st: State, e: Event, history: bool)
    ensures
      var ep := NewEpisode(ids, st, e, history, false);
      Exact(ep) && Exact(Ambiguous(ep)) && Exact(ep.(status := PartialHistory))
  {
    NothingAccounts();
    hide Accounts;
  }

  lemma NothingAccounts()
    ensures Accounts(NO_FLOWS)
  {
  }

  lemma SameFlowsExact(a: Episode, b: Episode)
    requires a.flows == b.flows && a.exact.fees == b.exact.fees
    ensures Exact(a) == Exact(b)
  {
  }

  lemma CloseExact(st: State, e: Event)
    requires ActiveExact(st)
    ensures StepExact(CloseStep(st, e))
  {
  }

  lemma EntryExact(ids: Identities, st: State, e: Event)
    requires ActiveExact(st)
    ensures StepExact(Entry(ids, st, e))
  {
    hide LeaveOwner, EnterOwner, IdentityStep, Exact;
    var seen := Observe(st, e);
    LeaveExact(seen, e);
    EnterExact(ids, LeaveOwner(seen, e).state, seen.holder, e);
    IdentityExact(seen, e);
  }

  lemma AttachExact(ids: Identities, st: State, e: Event)
    requires ActiveExact(st)
    ensures StepExact(Attach(ids, st, e))
  {
    hide EpisodeStep, FactsOf, Exact;
    var f := FactsOf(st.claims, e);
    var liquid := LiquidityStep(st, e, f);
    assert liquid.state.episodes.active == st.episodes.active && liquid.writes.episodes == map[];
    EpisodeExact(ids, liquid.state, e, f);
  }

  lemma RangeKept(ids: Identities, st: State, e: Event)
    ensures Entry(ids, st, e).state.range == Seen(st.range, e)
    ensures Attach(ids, st, e).state.range == st.range
    ensures Book(st, e).range == st.range
    ensures CloseStep(st, e).state.range == st.range
  {
    EntryRange(ids, st, e);
    AttachRange(ids, st, e);
    hide Entry, Attach, EffectOf, ClaimsAfter, ApplyEffect;
  }

  lemma EntryRange(ids: Identities, st: State, e: Event)
    ensures Entry(ids, st, e).state.range == Seen(st.range, e)
  {
  }

  lemma AttachRange(ids: Identities, st: State, e: Event)
    ensures Attach(ids, st, e).state.range == st.range
  {
  }

  lemma BookExact(st: State, e: Event)
    requires ActiveExact(st)
    requires EffectOf(st, e).exact.fees ==> Accounts(EffectOf(st, e).flows)
    ensures ActiveExact(Book(st, e))
  {
  }

  lemma ProcessExact(ids: Identities, st: State, e: Event)
    requires ActiveExact(st) && V3OrNft(st.range.protocol)
    requires (e.protocol.V3? || (e.protocol.Nft? && e.kind.Transfer?)) && FeesWithin(e)
    ensures
      var step := Process(ids, st, e);
      ActiveExact(step.state) && V3OrNft(step.state.range.protocol) && RowsExact(step.writes.episodes)
  {
    hide Entry, Attach, CloseStep, Book, EffectRowOf, EffectOf, FeesWithin, Exact;
    var entry := Entry(ids, st, e);
    EntryExact(ids, st, e);
    AttachExact(ids, entry.state, e);
    var attached := Attach(ids, entry.state, e).state;
    RangeKept(ids, st, e);
    RangeKept(ids, entry.state, e);
    RangeKept(ids, attached, e);
    EffectExact(attached, e);
    BookExact(attached, e);
    var booked := Book(attached, e);
    RangeKept(ids, booked, e);
    CloseExact(booked, e);
  }

  lemma {:induction false} FoldExact(ids: Identities, st: State, events: seq<Event>)
    requires ActiveExact(st) && V3OrNft(st.range.protocol) && V3Run(events)
    ensures
      var step := Fold(ids, st, events);
      ActiveExact(step.state) && V3OrNft(step.state.range.protocol) && RowsExact(step.writes.episodes)
    decreases |events|
  {
    if |events| > 0 {
      var init, last := events[..|events| - 1], events[|events| - 1];
      assert last in events;
      FoldExact(ids, st, init);
      ProcessExact(ids, Fold(ids, st, init).state, last);
      hide Process, FeesWithin, Exact;
    }
  }

  /**
   For every V3 history whose recorded fees never exceed the collect they belong to: principal
   withdrawn plus fees equals proceeds, per token, in every episode whose fees are exact.
   */
  lemma V3EpisodesAccount(ids: Identities, ordinal: nat, events: seq<Event>)
    requires |events| > 0 && V3Run(events)
    ensures
      var rows := Replay(ids, ordinal, events).writes.episodes;
      forall n :: n in rows && rows[n].exact.fees ==> Accounts(rows[n].flows)
  {
    hide Process, FeesWithin;
    var p := Prepared(events);
    forall e | e in p
      ensures (e.protocol.V3? || (e.protocol.Nft? && e.kind.Transfer?)) && FeesWithin(e)
    {
      var i :| 0 <= i < |p| && p[i] == e;
      assert events[i] in events;
      SamePayment(events[i], e);
    }
    assert events[0] in events;
    FoldExact(ids, NewState(events[0], ordinal), p);
  }

  lemma SamePayment(a: Event, b: Event)
    requires a.kind == b.kind && a.fee0 == b.fee0 && a.fee1 == b.fee1 && a.amount0 == b.amount0
        && a.amount1 == b.amount1
    ensures FeesWithin(a) == FeesWithin(b)
  {
  }
}
