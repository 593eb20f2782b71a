/**
 Episodes over a whole run: their raw totals are the sums of the effects attributed to them,
 and their ordinals never collide and survive every later replay.
 */
module EpisodeProofs {
  import opened Common
  import opened PositionModel
  import opened AppendProofs

  /** Transfer logs are the only events of the token contract. */
  ghost predicate WellKinded(events: seq<Event>) {
    forall e :: e in events ==> (e.protocol.Nft? ==> e.kind.Transfer?)
  }

  ghost predicate DistinctIds(events: seq<Event>) {
    forall i, j :: 0 <= i < j < |events| ==> events[i].id != events[j].id
  }

  /** What identifies an episode and what it has moved so far. */
  datatype Tally = Tally(openOrder: Order, deposit: Pair, proceeds: Pair)

  function TallyOf(ep: Episode): Tally {
    Tally(ep.openOrder, ep.flows.deposit, ep.flows.proceeds)
  }

  /** Episode `n` as it stands: the active one if it has this ordinal, else its written row. */
  function Tallied(st: State, rows: map<nat, Episode>, n: nat): Option<Tally> {
    if st.episodes.active.Some? && st.episodes.active.value.ordinal == n then Some(TallyOf(st.episodes.active.value))
    else if n in rows then Some(TallyOf(rows[n]))
    else None
  }

  function Grow(t: Option<Tally>, x: Flows, add: bool): Option<Tally> {
    if t.Some? && add then
      Some(Tally(t.value.openOrder, t.value.deposit.Plus(x.deposit), t.value.proceeds.Plus(x.proceeds)))
    else t
  }

  function Blank(e: Event): Option<Tally> {
    Some(Tally(e.order, ZERO_PAIR, ZERO_PAIR))
  }

  // ---------------------------------------------------------------- one event, one ordinal

  lemma LeaveTally(st: State, rows: map<nat, Episode>, e: Event, n: nat)
    ensures
      var left := LeaveOwner(st, e);
      && Tallied(left.state, rows + left.writes.episodes, n) == Tallied(st, rows, n)
      && left.state.episodes.ordinal == st.episodes.ordinal
      && (ChangesHands(st.holder.owner, e) ==> left.state.episodes.active.None?)
  {
  }

  /** The step left episode `n` alone, or opened it with nothing moved yet. */
  predicate Evolved(ids: Identities, st: State, st': State, t: Option<Tally>, t': Option<Tally>, e: Event, n: nat) {
    && st.episodes.ordinal <= st'.episodes.ordinal
    && (|| t' == t
        || (n == OpeningOrdinal(ids, st, e) && t' == Blank(e) && (e.order in ids || st'.episodes.ordinal == n)))
  }

  /** The step left the episodes alone. */
  predicate Untouched(st: State, st': State, t: Option<Tally>, t': Option<Tally>) {
    st'.episodes.ordinal == st.episodes.ordinal && t' == t
  }

  lemma EnterTally(ids: Identities, st: State, prior: Holder, rows: map<nat, Episode>, e: Event, n: nat)
    requires ChangesHands(prior.owner, e) ==> st.episodes.active.None?
    ensures
      var entered := EnterOwner(ids, st, prior, e);
      Evolved(ids, st, entered.state, Tallied(st, rows, n),
              Tallied(entered.state, rows + entered.writes.episodes, n), e, n)
  {
  }

  lemma IdentityTally(st: State, rows: map<nat, Episode>, e: Event, n: nat)
    ensures
      var step := IdentityStep(st, e);
      && Tallied(step.state, rows + step.writes.episodes, n) == Tallied(st, rows, n)
      && step.state.episodes.ordinal == st.episodes.ordinal
  {
  }

  lemma LiquidityTally(st: State, rows: map<nat, Episode>, e: Event, f: Facts, n: nat)
    ensures
      var step := LiquidityStep(st, e, f);
      && Tallied(step.state, rows + step.writes.episodes, n) == Tallied(st, rows, n)
      && step.state.episodes.ordinal == st.episodes.ordinal
  {
  }

  lemma EpisodeTally(ids: Identities, st: State, rows: map<nat, Episode>, e: Event, f: Facts, n: nat)
    requires ActiveUnsettled(st)
    ensures
      var step := EpisodeStep(ids, st, e, f);
      Evolved(ids, st, step.state, Tallied(st, rows, n),
              Tallied(step.state, rows + step.writes.episodes, n), e, n)
    ensures e.kind.Transfer? ==> EpisodeStep(ids, st, e, f) == Step(st, NO_WRITES)
  {
  }

  lemma BookTally(st: State, rows: map<nat, Episode>, e: Event, n: nat)
    ensures
      var add := st.episodes.active.Some? && st.episodes.active.value.ordinal == n;
      && Tallied(Book(st, e), rows, n) == Grow(Tallied(st, rows, n), EffectOf(st, e).flows, add)
      && Book(st, e).episodes.ordinal == st.episodes.ordinal
  {
  }

  lemma CloseTally(st: State, rows: map<nat, Episode>, e: Event, n: nat)
    ensures
      var step := CloseStep(st, e);
      && Tallied(step.state, rows + step.writes.episodes, n) == Tallied(st, rows, n)
      && step.state.episodes.ordinal == st.episodes.ordinal
  {
  }


  lemma EntryTally(ids: Identities, st: State, rows: map<nat, Episode>, e: Event, n: nat)
    ensures
      var entry := Entry(ids, st, e);
      var t, t' := Tallied(st, rows, n), Tallied(entry.state, rows + entry.writes.episodes, n);
      if IsTransfer(e) then Evolved(ids, st, entry.state, t, t', e, n) else Untouched(st, entry.state, t, t')
  {
    hide LeaveOwner, EnterOwner, IdentityStep;
    var seen := Observe(st, e);
    assert Tallied(seen, rows, n) == Tallied(st, rows, n);
    if IsTransfer(e) {
      var left := LeaveOwner(seen, e);
      LeaveTally(seen, rows, e, n);
      var rows1 := rows + left.writes.episodes;
      EnterTally(ids, left.state, seen.holder, rows1, e, n);
      var entered := EnterOwner(ids, left.state, seen.holder, e);
      assert rows + Entry(ids, st, e).writes.episodes == rows1 + entered.writes.episodes;
    } else {
      IdentityTally(seen, rows, e, n);
    }
  }

  lemma LiquidityKeepsActive(st: State, e: Event, f: Facts)
    ensures LiquidityStep(st, e, f).state.episodes.active == st.episodes.active
  {
  }

  lemma AttachTally(ids: Identities, st: State, rows: map<nat, Episode>, e: Event, n: nat)
    requires ActiveUnsettled(st)
    ensures
      var attach := Attach(ids, st, e);
      var t, t' := Tallied(st, rows, n), Tallied(attach.state, rows + attach.writes.episodes, n);
      if e.kind.Transfer? then Untouched(st, attach.state, t, t') else Evolved(ids, st, attach.state, t, t', e, n)
  {
    hide LiquidityStep, EpisodeStep, FactsOf;
    var f := FactsOf(st.claims, e);
    var liquid := LiquidityStep(st, e, f);
    LiquidityTally(st, rows, e, f, n);
    LiquidityKeepsActive(st, e, f);
    var rows1 := rows + liquid.writes.episodes;
    EpisodeTally(ids, liquid.state, rows1, e, f, n);
    var episode := EpisodeStep(ids, liquid.state, e, f);
    assert rows + Attach(ids, st, e).writes.episodes == rows1 + episode.writes.episodes;
  }

  /** The state in which the figures of an event are booked. */
  function BookedOn(ids: Identities, st: State, e: Event): State {
    Attach(ids, Entry(ids, st, e).state, e).state
  }

  /** One event as seen by ordinal `n`: carried over or opened, then credited if attributed. */
  lemma ProcessTally(ids: Identities, st: State, rows: map<nat, Episode>, e: Event, n: nat)
    requires ActiveUnsettled(st) && (e.protocol.Nft? ==> e.kind.Transfer?)
    ensures
      var step := Process(ids, st, e);
      var on := BookedOn(ids, st, e);
      var add := Attribution(on, e) == Some(n);
      var t := Tallied(st, rows, n);
      var t' := Tallied(step.state, rows + step.writes.episodes, n);
      && (add ==> t'.Some?)
      && st.episodes.ordinal <= step.state.episodes.ordinal
      && (|| t' == Grow(t, EffectOf(on, e).flows, add)
          || (&& n == OpeningOrdinal(ids, st, e) && (e.order in ids || step.state.episodes.ordinal == n)
              && t' == Grow(Blank(e), EffectOf(on, e).flows, add)))
  {
    hide Entry, Attach, Book, CloseStep, EffectOf, EffectRowOf, Tallied, Grow;
    var entry := Entry(ids, st, e);
    EntryTally(ids, st, rows, e, n);
    EntryKeeps(ids, st, e);
    var rows1 := rows + entry.writes.episodes;
    AttachTally(ids, entry.state, rows1, e, n);
    var attached := Attach(ids, entry.state, e);
    var rows2 := rows1 + attached.writes.episodes;
    BookTally(attached.state, rows2, e, n);
    var booked := Book(attached.state, e);
    CloseTally(booked, rows2, e, n);
    var closed := CloseStep(booked, e);
    assert rows + Process(ids, st, e).writes.episodes == rows2 + closed.writes.episodes;
    SameEpisodes(closed.state, Process(ids, st, e).state, rows2 + closed.writes.episodes, n);
    ActiveIsTallied(attached.state, rows2, n);
    if e.kind.Transfer? {
      TransferBooksNothing(attached.state, e);
    }
    GrowFacts(Tallied(attached.state, rows2, n), EffectOf(attached.state, e).flows);
    GrowFacts(Blank(e), EffectOf(attached.state, e).flows);
  }

  lemma SameEpisodes(a: State, b: State, rows: map<nat, Episode>, n: nat)
    requires a.episodes == b.episodes
    ensures Tallied(a, rows, n) == Tallied(b, rows, n)
  {
  }

  lemma ActiveIsTallied(st: State, rows: map<nat, Episode>, n: nat)
    ensures st.episodes.active.Some? && st.episodes.active.value.ordinal == n ==> Tallied(st, rows, n).Some?
  {
  }

  lemma GrowFacts(t: Option<Tally>, x: Flows)
    ensures Grow(t, x, false) == t
    ensures x == NO_FLOWS ==> Grow(t, x, true) == t
    ensures t.Some? ==> Grow(t, x, true).Some?
  {
  }

  lemma TransferBooksNothing(st: State, e: Event)
    requires e.kind.Transfer?
    ensures EffectOf(st, e).flows == NO_FLOWS
  {
  }

  // ---------------------------------------------------------------- ordinals

  /** Restored ordinals are distinct and never above the last ordinal known to be in use. */
  ghost predicate IdsOk(ids: Identities, ordinal: nat) {
    && (forall o :: o in ids ==> ids[o] <= ordinal)
    && (forall a, b :: a in ids && b in ids && a != b ==> ids[a] != ids[b])
  }

  /** Episode `n`, opened at `o`, carries its restored ordinal or one above `base`. */
  ghost predicate NamedAt(ids: Identities, base: nat, st: State, n: nat, o: Order) {
    && AtOrBefore(o, st.clock.last)
    && if o in ids then ids[o] == n else base < n <= st.episodes.ordinal
  }

  /** Every episode so far is properly named, and no two were opened by the same event. */
  ghost predicate Named(ids: Identities, base: nat, st: State, rows: map<nat, Episode>) {
    && base <= st.episodes.ordinal
    && (forall n: nat :: Tallied(st, rows, n).Some? ==> NamedAt(ids, base, st, n, Tallied(st, rows, n).value.openOrder))
    && (forall n: nat, m: nat :: Tallied(st, rows, n).Some? && Tallied(st, rows, m).Some? && n != m ==>
          Tallied(st, rows, n).value.openOrder != Tallied(st, rows, m).value.openOrder)
  }

  ghost predicate Nameless(st: State, rows: map<nat, Episode>) {
    st.episodes.active.None? && rows == map[]
  }

  /** The next event comes after everything folded so far, or is the first of all. */
  ghost predicate Upcoming(st: State, rows: map<nat, Episode>, e: Event) {
    Before(st.clock.last, e.order) || (st.clock.last == e.order && Nameless(st, rows))
  }

  /** An opening ordinal is always unused. */
  lemma OpeningIsUnused(ids: Identities, base: nat, st: State, rows: map<nat, Episode>, e: Event)
    requires IdsOk(ids, base) && Named(ids, base, st, rows) && Upcoming(st, rows, e)
    ensures Tallied(st, rows, OpeningOrdinal(ids, st, e)).None?
    ensures forall n: nat :: Tallied(st, rows, n).Some? ==> Tallied(st, rows, n).value.openOrder != e.order
  {
  }

  /** Ordinal `n` was there before, or is the opening ordinal of `e`. */
  ghost predicate Accounted(ids: Identities, st: State, rows: map<nat, Episode>, st': State, rows': map<nat, Episode>,
                            e: Event, n: nat)
  {
    Tallied(st', rows', n).Some? ==>
      var o := Tallied(st', rows', n).value.openOrder;
      || (Tallied(st, rows, n).Some? && o == Tallied(st, rows, n).value.openOrder)
      || (n == OpeningOrdinal(ids, st, e) && (e.order in ids || st'.episodes.ordinal == n) && o == e.order)
  }

  lemma ProcessAccounts(ids: Identities, st: State, rows: map<nat, Episode>, e: Event, n: nat)
    requires ActiveUnsettled(st) && (e.protocol.Nft? ==> e.kind.Transfer?)
    ensures
      var step := Process(ids, st, e);
      && Accounted(ids, st, rows, step.state, rows + step.writes.episodes, e, n)
      && st.episodes.ordinal <= step.state.episodes.ordinal
  {
    hide Process, Tallied, EffectOf, BookedOn;
    ProcessTally(ids, st, rows, e, n);
  }

  lemma AccountedKeepsNames(ids: Identities, base: nat, st: State, rows: map<nat, Episode>,
                            st': State, rows': map<nat, Episode>, e: Event)
    requires IdsOk(ids, base) && Named(ids, base, st, rows) && Upcoming(st, rows, e)
    requires st'.clock.last == e.order && st.episodes.ordinal <= st'.episodes.ordinal
    requires forall n: nat :: Accounted(ids, st, rows, st', rows', e, n)
    ensures Named(ids, base, st', rows')
  {
    OpeningIsUnused(ids, base, st, rows, e);
    hide Tallied;
    forall n: nat | Tallied(st', rows', n).Some?
      ensures NamedAt(ids, base, st', n, Tallied(st', rows', n).value.openOrder)
    {
      assert Accounted(ids, st, rows, st', rows', e, n);
    }
    forall n: nat, m: nat | Tallied(st', rows', n).Some? && Tallied(st', rows', m).Some? && n != m
      ensures Tallied(st', rows', n).value.openOrder != Tallied(st', rows', m).value.openOrder
    {
      assert Accounted(ids, st, rows, st', rows', e, n);
      assert Accounted(ids, st, rows, st', rows', e, m);
    }
  }

  lemma ProcessNamed(ids: Identities, base: nat, st: State, rows: map<nat, Episode>, e: Event)
    requires IdsOk(ids, base) && Named(ids, base, st, rows) && Upcoming(st, rows, e)
    requires ActiveUnsettled(st) && (e.protocol.Nft? ==> e.kind.Transfer?)
    ensures
      var step := Process(ids, st, e);
      Named(ids, base, step.state, rows + step.writes.episodes)
  {
    var step := Process(ids, st, e);
    assert step.state.clock.last == e.order;
    hide Process, Named, IdsOk, Upcoming, Accounted;
    forall n: nat
      ensures Accounted(ids, st, rows, step.state, rows + step.writes.episodes, e, n)
    {
      ProcessAccounts(ids, st, rows, e, n);
    }
    ProcessAccounts(ids, st, rows, e, 0);
    AccountedKeepsNames(ids, base, st, rows, step.state, rows + step.writes.episodes, e);
  }

  // ---------------------------------------------------------------- sums of effects

  /** Deposits and proceeds, as an effect row or a sum of them reports them. */
  datatype Moved = Moved(deposit: Pair, proceeds: Pair) {
    function Plus(other: Moved): Moved {
      Moved(deposit.Plus(other.deposit), proceeds.Plus(other.proceeds))
    }
  }

  const NOTHING := Moved(ZERO_PAIR, ZERO_PAIR)

  /** The share of event `id` in episode `n`; a figure stored as unknown contributes nothing. */
  function Share(effects: map<int, EffectRow>, id: int, n: nat): Moved {
    if id in effects && effects[id].episode == Some(n)
    then Moved(effects[id].deposit.GetOr(ZERO_PAIR), effects[id].proceeds.GetOr(ZERO_PAIR))
    else NOTHING
  }

  /** What the effects table attributes to episode `n` over a run of events. */
  function Attributed(effects: map<int, EffectRow>, events: seq<Event>, n: nat): Moved {
    if |events| == 0 then NOTHING
    else Attributed(effects, events[..|events| - 1], n).Plus(Share(effects, events[|events| - 1].id, n))
  }

  lemma {:induction false} AttributedFrame(a: map<int, EffectRow>, b: map<int, EffectRow>, events: seq<Event>, n: nat)
    requires forall e :: e in events ==> Share(a, e.id, n) == Share(b, e.id, n)
    ensures Attributed(a, events, n) == Attributed(b, events, n)
  {
    if |events| > 0 {
      assert events[|events| - 1] in events;
      AttributedFrame(a, b, events[..|events| - 1], n);
    }
  }

  /** Figures that are not exact are zero as well as unknown, so the rows lose nothing. */
  lemma InexactIsZero(protocol: Protocol, pending: Option<Pair>, e: Event)
    ensures
      var x := FinancialEffect(protocol, pending, e);
      !x.exact.cashflow ==> x.flows.deposit == ZERO_PAIR && x.flows.proceeds == ZERO_PAIR
  {
  }

  lemma StepsWriteNoEffects(ids: Identities, st: State, prior: Holder, e: Event, f: Facts)
    ensures LeaveOwner(st, e).writes.effects == map[]
    ensures EnterOwner(ids, st, prior, e).writes.effects == map[]
    ensures IdentityStep(st, e).writes.effects == map[]
    ensures LiquidityStep(st, e, f).writes.effects == map[]
    ensures EpisodeStep(ids, st, e, f).writes.effects == map[]
    ensures CloseStep(st, e).writes.effects == map[]
  {
  }

  /** One event writes one effect row, its own. */
  lemma ProcessEffects(ids: Identities, st: State, e: Event)
    ensures Process(ids, st, e).writes.effects.Keys == {e.id}
    ensures
      var row := Process(ids, st, e).writes.effects[e.id];
      var on := BookedOn(ids, st, e);
      && row.episode == Attribution(on, e)
      && row.deposit.GetOr(ZERO_PAIR) == EffectOf(on, e).flows.deposit
      && row.proceeds.GetOr(ZERO_PAIR) == EffectOf(on, e).flows.proceeds
  {
    hide LeaveOwner, EnterOwner, IdentityStep, LiquidityStep, EpisodeStep, CloseStep, Book, FinancialEffect, FactsOf;
    var entry := Entry(ids, st, e);
    var f := FactsOf(entry.state.claims, e);
    var seen := Observe(st, e);
    StepsWriteNoEffects(ids, seen, seen.holder, e, f);
    StepsWriteNoEffects(ids, LeaveOwner(seen, e).state, seen.holder, e, f);
    StepsWriteNoEffects(ids, entry.state, seen.holder, e, f);
    StepsWriteNoEffects(ids, LiquidityStep(entry.state, e, f).state, seen.holder, e, f);
    var on := BookedOn(ids, st, e);
    StepsWriteNoEffects(ids, Book(on, e), seen.holder, e, f);
    InexactIsZero(on.range.protocol, on.claims.pending, e);
  }

  function MovedOf(t: Option<Tally>): Moved {
    if t.Some? then Moved(t.value.deposit, t.value.proceeds) else NOTHING
  }

  lemma GrowMoves(t: Option<Tally>, x: Flows, add: bool)
    ensures add ==> t.Some? ==> MovedOf(Grow(t, x, add)) == MovedOf(t).Plus(Moved(x.deposit, x.proceeds))
    ensures !add ==> MovedOf(Grow(t, x, add)) == MovedOf(t).Plus(NOTHING)
    ensures !add || t.Some? <==> !add || Grow(t, x, add).Some?
  {
  }

  /** The totals of every episode agree with the effects attributed to it. */
  ghost predicate Balanced(st: State, w: Writes, events: seq<Event>) {
    forall n: nat :: Attributed(w.effects, events, n) == MovedOf(Tallied(st, w.episodes, n))
  }

  /** Every attributed effect names an episode that exists. */
  ghost predicate AttributedExists(st: State, w: Writes) {
    forall id :: id in w.effects && w.effects[id].episode.Some? ==>
      Tallied(st, w.episodes, w.effects[id].episode.value).Some?
  }

  lemma ProcessBalanced(ids: Identities, base: nat, prior: Step, events: seq<Event>, e: Event, n: nat)
    requires IdsOk(ids, base) && Named(ids, base, prior.state, prior.writes.episodes)
    requires Upcoming(prior.state, prior.writes.episodes, e)
    requires ActiveUnsettled(prior.state) && (e.protocol.Nft? ==> e.kind.Transfer?)
    requires Attributed(prior.writes.effects, events, n) == MovedOf(Tallied(prior.state, prior.writes.episodes, n))
    requires forall p :: p in events ==> p.id != e.id
    ensures
      var step := Process(ids, prior.state, e);
      var w := prior.writes.Then(step.writes);
      Attributed(w.effects, events + [e], n) == MovedOf(Tallied(step.state, w.episodes, n))
  {
    hide Process, EffectOf, Attribution, BookedOn, Tallied, Named, IdsOk, Upcoming, Grow, MovedOf, OpeningOrdinal;
    var step := Process(ids, prior.state, e);
    var w := prior.writes.Then(step.writes);
    var x := EffectOf(BookedOn(ids, prior.state, e), e).flows;
    ProcessEffects(ids, prior.state, e);
    ProcessTally(ids, prior.state, prior.writes.episodes, e, n);
    OpeningIsUnused(ids, base, prior.state, prior.writes.episodes, e);
    assert (events + [e])[..|events + [e]| - 1] == events;
    AttributedFrame(prior.writes.effects, w.effects, events, n);
    assert w.effects[e.id] == step.writes.effects[e.id];
    var add := Attribution(BookedOn(ids, prior.state, e), e) == Some(n);
    GrowMoves(Tallied(prior.state, prior.writes.episodes, n), x, add);
    GrowMoves(Blank(e), x, add);
    UnusedMovesNothing(e);
  }

  lemma UnusedMovesNothing(e: Event)
    ensures MovedOf(None) == NOTHING == MovedOf(Blank(e))
  {
  }

  lemma ProcessAttributedExists(ids: Identities, prior: Step, e: Event)
    requires ActiveUnsettled(prior.state) && (e.protocol.Nft? ==> e.kind.Transfer?)
    requires AttributedExists(prior.state, prior.writes)
    ensures
      var step := Process(ids, prior.state, e);
      AttributedExists(step.state, prior.writes.Then(step.writes))
  {
    hide Process, EffectOf, Attribution, BookedOn, Tallied;
    var step := Process(ids, prior.state, e);
    var w := prior.writes.Then(step.writes);
    ProcessEffects(ids, prior.state, e);
    forall id | id in w.effects && w.effects[id].episode.Some?
      ensures Tallied(step.state, w.episodes, w.effects[id].episode.value).Some?
    {
      var n := w.effects[id].episode.value;
      ProcessTally(ids, prior.state, prior.writes.episodes, e, n);
      if id != e.id {
        assert id in prior.writes.effects && w.effects[id] == prior.writes.effects[id];
        GrowFacts(Tallied(prior.state, prior.writes.episodes, n), EffectOf(BookedOn(ids, prior.state, e), e).flows);
        GrowFacts(Blank(e), EffectOf(BookedOn(ids, prior.state, e), e).flows);
      }
    }
  }

  /** What holds after every run from scratch. */
  ghost predicate RunInvariant(ids: Identities, base: nat, step: Step, events: seq<Event>) {
    && ActiveUnsettled(step.state)
    && Named(ids, base, step.state, step.writes.episodes)
    && Balanced(step.state, step.writes, events)
    && AttributedExists(step.state, step.writes)
    && (|events| > 0 ==> step.state.clock.last == events[|events| - 1].order)
  }

  lemma InvariantAtStart(ids: Identities, base: nat, st: State)
    requires IdsOk(ids, base) && st.episodes == Episodes(false, base, None)
    ensures RunInvariant(ids, base, Step(st, NO_WRITES), []) && Nameless(st, map[])
  {
  }

  lemma {:induction false} FoldInvariant(ids: Identities, base: nat, events: seq<Event>, st: State)
    requires IdsOk(ids, base) && Sorted(events) && DistinctIds(events) && WellKinded(events)
    requires st.episodes == Episodes(false, base, None)
    requires |events| > 0 ==> st.clock.last == events[0].order
    ensures RunInvariant(ids, base, Fold(ids, st, events), events)
    decreases |events|
  {
    hide Process, RunInvariant;
    if |events| == 0 {
      InvariantAtStart(ids, base, st);
    } else {
      var init, last := events[..|events| - 1], events[|events| - 1];
      assert init + [last] == events && last in events;
      FoldInvariant(ids, base, init, st);
      var prior := Fold(ids, st, init);
      assert Upcoming(prior.state, prior.writes.episodes, last) by {
        if |init| == 0 {
          InvariantAtStart(ids, base, st);
        } else {
          assert init[|init| - 1] == events[|events| - 2];
          InvariantClock(ids, base, prior, init);
        }
      }
      FoldInvariantStep(ids, base, prior, init, last);
    }
  }

  lemma InvariantClock(ids: Identities, base: nat, step: Step, events: seq<Event>)
    requires RunInvariant(ids, base, step, events) && |events| > 0
    ensures step.state.clock.last == events[|events| - 1].order
  {
  }

  lemma FoldInvariantStep(ids: Identities, base: nat, prior: Step, events: seq<Event>, e: Event)
    requires IdsOk(ids, base) && RunInvariant(ids, base, prior, events)
    requires Upcoming(prior.state, prior.writes.episodes, e)
    requires e.protocol.Nft? ==> e.kind.Transfer?
    requires forall p :: p in events ==> p.id != e.id
    ensures
      var step := Process(ids, prior.state, e);
      RunInvariant(ids, base, Step(step.state, prior.writes.Then(step.writes)), events + [e])
  {
    ProcessKeeps(ids, prior.state, e);
    ProcessNamed(ids, base, prior.state, prior.writes.episodes, e);
    ProcessAttributedExists(ids, prior, e);
    hide Process, Named, AttributedExists, ActiveUnsettled, IdsOk, Upcoming;
    var step := Process(ids, prior.state, e);
    var w := prior.writes.Then(step.writes);
    forall n: nat
      ensures Attributed(w.effects, events + [e], n) == MovedOf(Tallied(step.state, w.episodes, n))
    {
      ProcessBalanced(ids, base, prior, events, e, n);
    }
  }

  // ---------------------------------------------------------------- whole replays

  lemma PreparedKeeps(events: seq<Event>)
    ensures |Prepared(events)| == |events|
    ensures Sorted(events) ==> Sorted(Prepared(events))
    ensures DistinctIds(events) ==> DistinctIds(Prepared(events))
    ensures WellKinded(events) ==> WellKinded(Prepared(events))
  {
    var p := Prepared(events);
    PreparedOrders(events);
    forall e | e in p
      ensures exists i :: 0 <= i < |events| && e.protocol == events[i].protocol && e.kind == events[i].kind
    {
      var i :| 0 <= i < |p| && p[i] == e;
      assert e.protocol == events[i].protocol && e.kind == events[i].kind;
    }
  }

  lemma {:induction false} AttributedByIds(effects: map<int, EffectRow>, a: seq<Event>, b: seq<Event>, n: nat)
    requires |a| == |b| && forall i :: 0 <= i < |a| ==> a[i].id == b[i].id
    ensures Attributed(effects, a, n) == Attributed(effects, b, n)
  {
    if |a| > 0 {
      AttributedByIds(effects, a[..|a| - 1], b[..|b| - 1], n);
    }
  }

  lemma SealedTallies(step: Step, n: nat)
    ensures
      var rows := Sealed(step).writes.episodes;
      Tallied(step.state, step.writes.episodes, n) == if n in rows then Some(TallyOf(rows[n])) else None
  {
  }

  /** A canonical history: in chain order, each event once, token logs only as transfers. */
  ghost predicate Canonical(events: seq<Event>) {
    |events| > 0 && Sorted(events) && DistinctIds(events) && WellKinded(events)
  }

  lemma ReplayInvariant(ids: Identities, base: nat, events: seq<Event>)
    requires IdsOk(ids, base) && Canonical(events)
    ensures RunInvariant(ids, base, Fold(ids, NewState(events[0], base), Prepared(events)), Prepared(events))
  {
    PreparedKeeps(events);
    PreparedOrders(events);
    FoldInvariant(ids, base, Prepared(events), NewState(events[0], base));
  }

  /**
   Conservation: after any replay, the raw deposits and proceeds of every episode row are
   exactly the sums over the effect rows attributed to it, and no effect is attributed to an
   episode without a row.
   */
  lemma ReplayConserves(ids: Identities, base: nat, events: seq<Event>)
    requires IdsOk(ids, base) && Canonical(events)
    ensures
      var w := Replay(ids, base, events).writes;
      && (forall n :: n in w.episodes ==>
            Attributed(w.effects, events, n) == Moved(w.episodes[n].flows.deposit, w.episodes[n].flows.proceeds))
      && (forall id :: id in w.effects && w.effects[id].episode.Some? ==> w.effects[id].episode.value in w.episodes)
  {
    hide Process, Named;
    ReplayInvariant(ids, base, events);
    PreparedOrders(events);
    var step := Fold(ids, NewState(events[0], base), Prepared(events));
    var w := Sealed(step).writes;
    assert w == Replay(ids, base, events).writes;
    forall n | n in w.episodes
      ensures Attributed(w.effects, events, n) == Moved(w.episodes[n].flows.deposit, w.episodes[n].flows.proceeds)
    {
      SealedTallies(step, n);
      AttributedByIds(w.effects, events, Prepared(events), n);
      assert Attributed(step.writes.effects, Prepared(events), n)
          == MovedOf(Tallied(step.state, step.writes.episodes, n));
    }
    forall id | id in w.effects && w.effects[id].episode.Some?
      ensures w.effects[id].episode.value in w.episodes
    {
      SealedTallies(step, w.effects[id].episode.value);
    }
  }

  ghost predicate DistinctOpenings(rows: map<nat, Episode>) {
    forall n, m :: n in rows && m in rows && n != m ==> rows[n].openOrder != rows[m].openOrder
  }

  /** The identities a later replay restores from published rows. */
  ghost function IdentitiesOf(rows: map<nat, Episode>): Identities
    requires DistinctOpenings(rows)
  {
    map n | n in rows :: rows[n].openOrder := n
  }

  /** How the rows of a replay are named: restored where possible, above `base` otherwise. */
  lemma ReplayNames(ids: Identities, base: nat, events: seq<Event>)
    requires IdsOk(ids, base) && Canonical(events)
    ensures
      var d := Replay(ids, base, events);
      var rows := d.writes.episodes;
      && DistinctOpenings(rows)
      && base <= d.state.episodes.ordinal
      && (forall n :: n in rows ==>
            if rows[n].openOrder in ids then n == ids[rows[n].openOrder] else base < n <= d.state.episodes.ordinal)
      && IdsOk(IdentitiesOf(rows), d.state.episodes.ordinal)
  {
    hide Process, Balanced, AttributedExists;
    ReplayInvariant(ids, base, events);
    var step := Fold(ids, NewState(events[0], base), Prepared(events));
    var rows := Sealed(step).writes.episodes;
    assert rows == Replay(ids, base, events).writes.episodes;
    forall n | n in rows
      ensures NamedAt(ids, base, step.state, n, rows[n].openOrder)
    {
      SealedTallies(step, n);
    }
    forall n, m | n in rows && m in rows && n != m
      ensures rows[n].openOrder != rows[m].openOrder
    {
      SealedTallies(step, n);
      SealedTallies(step, m);
    }
  }

  /**
   Episode identities survive: however the history changes between two full replays, an
   opening found in both keeps its ordinal, and every other new row is numbered above every
   ordinal used before.
   */
  lemma IdentitiesSurvive(ids: Identities, base: nat, before: seq<Event>, after: seq<Event>)
    requires IdsOk(ids, base) && Canonical(before) && Canonical(after)
    requires DistinctOpenings(Replay(ids, base, before).writes.episodes)
    ensures
      var d := Replay(ids, base, before);
      var d' := Replay(IdentitiesOf(d.writes.episodes), d.state.episodes.ordinal, after);
      && (forall n, m | n in d.writes.episodes && m in d'.writes.episodes ::
            d.writes.episodes[n].openOrder == d'.writes.episodes[m].openOrder ==> n == m)
      && (forall n, m | n in d.writes.episodes && m in d'.writes.episodes ::
            d'.writes.episodes[m].openOrder !in IdentitiesOf(d.writes.episodes) ==> n < m)
  {
    hide Replay;
    ReplayNames(ids, base, before);
    var d := Replay(ids, base, before);
    ReplayNames(IdentitiesOf(d.writes.episodes), d.state.episodes.ordinal, after);
    var d' := Replay(IdentitiesOf(d.writes.episodes), d.state.episodes.ordinal, after);
    forall n, m | n in d.writes.episodes && m in d'.writes.episodes
                  && d.writes.episodes[n].openOrder == d'.writes.episodes[m].openOrder
      ensures n == m
    {
      assert d.writes.episodes[n].openOrder in IdentitiesOf(d.writes.episodes);
    }
    forall n, m | n in d.writes.episodes && m in d'.writes.episodes
                  && d'.writes.episodes[m].openOrder !in IdentitiesOf(d.writes.episodes)
      ensures n < m
    {
      assert IdentitiesOf(d.writes.episodes)[d.writes.episodes[n].openOrder] <= d.state.episodes.ordinal;
    }
  }
}
