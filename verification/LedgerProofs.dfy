/**
 The deferred ledger keeps its promise: a position that is not queued shows exactly what a
 full replay of the events now mapped to it would produce.
 */
module LedgerProofs {
  import opened Common
  import opened PositionModel
  import opened AppendProofs
  import opened EpisodeProofs
  import opened Histories
  import opened ReplayDiff
  import opened DeferredLedger

  // ---------------------------------------------------------------- what a replay writes

  lemma {:induction false} FoldEffectKeys(ids: Identities, st: State, events: seq<Event>)
    ensures forall e: int :: e in Fold(ids, st, events).writes.effects
                             <==> exists i :: 0 <= i < |events| && events[i].id == e
    decreases |events|
  {
    hide Process;
    if |events| > 0 {
      var init, last := events[..|events| - 1], events[|events| - 1];
      FoldEffectKeys(ids, st, init);
      var prior := Fold(ids, st, init);
      ProcessEffects(ids, prior.state, last);
      forall e: int
        ensures e in Fold(ids, st, events).writes.effects <==> exists i :: 0 <= i < |events| && events[i].id == e
      {
        if i :| 0 <= i < |init| && init[i].id == e {
          assert events[i].id == e;
        }
        if i :| 0 <= i < |events| && events[i].id == e {
          assert i < |init| ==> init[i].id == e;
        }
      }
    }
  }

  lemma DerivedEffectKeys(ids: Identities, st: State, h: seq<Event>, e: int)
    ensures e in Derive(ids, st, h).writes.effects <==> exists i :: 0 <= i < |h| && h[i].id == e
  {
    hide Fold;
    PreparedOrders(h);
    FoldEffectKeys(ids, st, Prepared(h));
  }

  lemma HistoryHasIds(events: map<int, Event>, picked: set<int>, e: int)
    requires CanonicalTable(events) && picked <= events.Keys
    ensures e in picked <==> exists i :: 0 <= i < |History(events, picked)| && History(events, picked)[i].id == e
  {
    var h := History(events, picked);
    HistoryIds(events, picked);
    if e in picked {
      var i :| 0 <= i < |h| && h[i] == events[e];
    }
    if i :| 0 <= i < |h| && h[i].id == e {
      assert h[i] in h;
    }
  }

  /** A replay writes one effect row for each of its events and no other. */
  lemma ResultEffectKeys(ids: Identities, base: nat, events: map<int, Event>, picked: set<int>)
    requires CanonicalTable(events) && picked <= events.Keys
    ensures Result(ids, base, History(events, picked)).writes.effects.Keys == picked
    ensures Result(ids, base, History(events, picked)).position.Some? <==> picked != {}
  {
    hide Derive;
    var h := History(events, picked);
    HistoryIds(events, picked);
    if |h| > 0 {
      forall e: int
        ensures e in Result(ids, base, h).writes.effects <==> e in picked
      {
        DerivedEffectKeys(ids, NewState(h[0], base), h, e);
        HistoryHasIds(events, picked, e);
      }
    }
  }

  // ---------------------------------------------------------------- agreement with a replay

  function OrdersOf(events: map<int, Event>, ids: set<int>): set<Order> {
    set e | e in ids && e in events :: events[e].order
  }

  ghost predicate AgreesBy(l: Ledger, k: Key, ids: set<int>, names: Identities, base: nat) {
    && IdsOk(names, base)
    && names.Keys <= OrdersOf(l.events, ids)
    && l.Published(k) == Result(names, base, HistoryOf(l, ids))
  }

  /** The published rows of `k` are a full replay of `ids`, for some choice of restored identities. */
  ghost predicate Agrees(l: Ledger, k: Key, ids: set<int>) {
    exists names: Identities, base: nat :: AgreesBy(l, k, ids, names, base)
  }

  /** The events that are both mapped to `k` and projected on it. */
  function Projected(l: Ledger, k: Key): set<int> {
    set e | e in l.keyOf && l.keyOf[e] == k && e in l.effects && l.effects[e].key == k
  }

  /** What a missing queue row, or a proof on a present one, says about the published rows. */
  ghost predicate Claim(l: Ledger, k: Key) {
    && (k !in l.pending || l.pending[k].costOnly ==> Agrees(l, k, l.Mapped(k)))
    && (l.Appending(k) ==>
          && Agrees(l, k, Projected(l, k))
          && forall e :: e in l.keyOf && l.keyOf[e] == k && e in l.effects ==> l.effects[e].key == k)
  }

  /** Which ordinals the published or saved episodes of `k` carry. */
  ghost predicate NamesOk(l: Ledger, k: Key) {
    var rows := l.RowsOf(k);
    && (k in l.identities ==> rows == NO_ROWS && IdsOk(l.identities[k].openings, l.identities[k].ordinal))
    && (rows.position.None? ==> rows.episodes == map[])
    && (rows.position.Some? ==> RowsNamed(Cores(rows.episodes), rows.position.value.episodes.ordinal))
  }

  ghost predicate RowsNamed(rows: map<nat, Episode>, ordinal: nat) {
    && DistinctOpenings(rows)
    && forall n :: n in rows ==> n <= ordinal
  }

  ghost predicate TablesOk(l: Ledger) {
    CanonicalTable(l.events) && l.keyOf.Keys <= l.events.Keys
  }

  ghost predicate Inv(l: Ledger) {
    && TablesOk(l)
    && (forall k: Key :: NamesOk(l, k))
    && (forall k: Key :: Claim(l, k))
  }

  lemma NewAreStored(l: Ledger, k: Key)
    requires TablesOk(l)
    ensures NewIds(l, k) <= l.events.Keys
  {
    assert forall e :: e in NewIds(l, k) ==> e in l.keyOf.Keys;
  }

  lemma HeldKeys(l: Ledger, k: Key, e: int)
    ensures e in l.Published(k).writes.effects <==> e in l.effects && l.effects[e].key == k
  {
  }

  /** An agreeing position holds exactly the effects of its events. */
  lemma AgreesHolds(l: Ledger, k: Key, ids: set<int>)
    requires TablesOk(l) && ids <= l.events.Keys && Agrees(l, k, ids)
    ensures forall e :: e in ids <==> e in l.effects && l.effects[e].key == k
    ensures l.RowsOf(k).position.Some? <==> ids != {}
  {
    var names, base :| AgreesBy(l, k, ids, names, base);
    ResultEffectKeys(names, base, l.events, ids);
    forall e
      ensures e in ids <==> e in l.effects && l.effects[e].key == k
    {
      HeldKeys(l, k, e);
    }
  }

  /** Agreement depends on the published rows of the position and the facts of its events. */
  lemma AgreesFrame(a: Ledger, b: Ledger, k: Key, ids: set<int>)
    requires TablesOk(a) && TablesOk(b) && ids <= a.events.Keys && ids <= b.events.Keys
    requires forall e :: e in ids ==> a.events[e] == b.events[e]
    requires a.Published(k) == b.Published(k)
    requires Agrees(a, k, ids)
    ensures Agrees(b, k, ids)
  {
    var names, base :| AgreesBy(a, k, ids, names, base);
    HistoryFrame(a.events, b.events, ids);
    assert OrdersOf(a.events, ids) == OrdersOf(b.events, ids);
    assert AgreesBy(b, k, ids, names, base);
  }

  // ---------------------------------------------------------------- names

  lemma OpeningsAre(rows: map<nat, Episode>)
    requires DistinctOpenings(rows)
    ensures Openings(rows) == IdentitiesOf(rows)
  {
    forall n | n in rows
      ensures rows[n].openOrder in Openings(rows) && Openings(rows)[rows[n].openOrder] == n
    {
      assert rows[n].openOrder in OpeningOrders(rows);
    }
  }

  lemma RowsNamedIds(rows: map<nat, Episode>, ordinal: nat)
    requires RowsNamed(rows, ordinal)
    ensures IdsOk(Openings(rows), ordinal)
  {
    OpeningsAre(rows);
  }

  lemma RestoredOk(l: Ledger, k: Key)
    requires NamesOk(l, k)
    ensures IdsOk(Restored(l, k).openings, Restored(l, k).ordinal)
    ensures l.RowsOf(k).position.Some? ==>
              Restored(l, k) == Saved(l.RowsOf(k).position.value.episodes.ordinal,
                                      Openings(Cores(l.RowsOf(k).episodes)))
    ensures k in l.identities ==> Restored(l, k) == l.identities[k]
  {
    var rows := l.RowsOf(k);
    assert Cores(rows.episodes) == map[] ==> Openings(Cores(rows.episodes)) == map[];
    if rows.position.Some? {
      RowsNamedIds(Cores(rows.episodes), rows.position.value.episodes.ordinal);
    }
  }

  /** Only the identities of the replayed events matter. */
  lemma ResultTrims(names: Identities, base: nat, events: map<int, Event>, ids: set<int>)
    requires CanonicalTable(events) && ids <= events.Keys && IdsOk(names, base)
    ensures
      var trimmed := map o | o in names && o in OrdersOf(events, ids) :: names[o];
      IdsOk(trimmed, base) && Result(trimmed, base, History(events, ids)) == Result(names, base, History(events, ids))
  {
    hide Replay;
    var h := History(events, ids);
    var trimmed: Identities := map o | o in names && o in OrdersOf(events, ids) :: names[o];
    HistoryIds(events, ids);
    if |h| > 0 {
      forall e | e in h
        ensures SameAt(trimmed, names, e.order)
      {
        assert events[e.id].order in OrdersOf(events, ids);
      }
      ReplayUsesOnlyItsOrders(trimmed, names, base, h);
    }
  }

  lemma ResultNamed(names: Identities, base: nat, events: map<int, Event>, ids: set<int>)
    requires CanonicalTable(events) && ids <= events.Keys && IdsOk(names, base)
    ensures
      var t := Result(names, base, History(events, ids));
      && (t.position.None? ==> t.writes == NO_WRITES)
      && (t.position.Some? ==>
            && RowsNamed(t.writes.episodes, t.position.value.episodes.ordinal)
            && base <= t.position.value.episodes.ordinal
            && forall n :: n in t.writes.episodes ==>
                 var o := t.writes.episodes[n].openOrder;
                 if o in names then n == names[o] else base < n)
  {
    hide Replay;
    var h := History(events, ids);
    HistoryIds(events, ids);
    if |h| > 0 {
      ReplayNames(names, base, h);
      var d := Replay(names, base, h);
      forall n | n in d.writes.episodes
        ensures n <= d.state.episodes.ordinal
      {
        assert d.writes.episodes[n].openOrder in IdentitiesOf(d.writes.episodes);
      }
    }
  }

  // ---------------------------------------------------------------- preparing

  /** What the diff prepared on `view` leaves behind when it lands. */
  ghost function Landed(view: Ledger, k: Key): Target {
    Landing(view.RowsOf(k), view.effects, k, Computed(view, k), CanAppend(view, k))
  }

  ghost predicate LandsAs(view: Ledger, k: Key, names: Identities, base: nat) {
    && IdsOk(names, base)
    && names.Keys <= OrdersOf(view.events, view.Mapped(k))
    && Landed(view, k) == Result(names, base, HistoryOf(view, view.Mapped(k)))
  }

  lemma FullReplayLands(view: Ledger, k: Key)
    requires TablesOk(view) && NamesOk(view, k) && !CanAppend(view, k)
    ensures exists names: Identities, base: nat :: LandsAs(view, k, names, base)
  {
    hide Replay;
    RestoredOk(view, k);
    var restored := Restored(view, k);
    ResultTrims(restored.openings, restored.ordinal, view.events, view.Mapped(k));
    var trimmed := map o | o in restored.openings && o in OrdersOf(view.events, view.Mapped(k)) :: restored.openings[o];
    assert LandsAs(view, k, trimmed, restored.ordinal);
  }

  lemma BeforeTransitive(a: Order, b: Order, c: Order)
    requires AtOrBefore(a, b) && Before(b, c)
    ensures Before(a, c)
  {
  }

  lemma LastOrder(names: Identities, base: nat, h: seq<Event>)
    requires |h| > 0 && Sorted(h)
    ensures Replay(names, base, h).state.clock.last == h[|h| - 1].order
    ensures forall e :: e in h ==> AtOrBefore(e.order, Replay(names, base, h).state.clock.last)
  {
    hide Process;
    FoldLastOrder(names, NewState(h[0], base), h);
    forall e | e in h
      ensures AtOrBefore(e.order, h[|h| - 1].order)
    {
      var i :| 0 <= i < |h| && h[i] == e;
      assert i < |h| - 1 ==> Before(h[i].order, h[|h| - 1].order);
    }
  }

  /** The events an append skips and the events it reads make up the history, in that order. */
  lemma AppendSplits(view: Ledger, k: Key, names: Identities, base: nat)
    requires TablesOk(view) && CanAppend(view, k)
    requires AgreesBy(view, k, Projected(view, k), names, base)
    requires forall e :: e in view.keyOf && view.keyOf[e] == k && e in view.effects ==> view.effects[e].key == k
    ensures
      var h1, h2 := HistoryOf(view, Projected(view, k)), HistoryOf(view, NewIds(view, k));
      && |h1| > 0 && Sorted(h1)
      && view.RowsOf(k).position == Some(Replay(names, base, h1).state)
      && HistoryOf(view, view.Mapped(k)) == h1 + h2
      && NoneIn(names, h2)
  {
    hide Replay;
    var seen, later := Projected(view, k), NewIds(view, k);
    var h1, h2 := History(view.events, seen), History(view.events, later);
    HistoryIds(view.events, seen);
    HistoryIds(view.events, later);
    LastOrder(names, base, h1);
    forall e
      ensures e in view.Mapped(k) <==> e in seen + later
    {
      if e in view.Mapped(k) && e in view.effects {
        assert view.keyOf[e] == k;
      }
    }
    assert seen + later == view.Mapped(k);
    forall a, b | a in seen && b in later
      ensures Before(view.events[a].order, view.events[b].order)
    {
      assert view.events[a] in h1 && view.events[b] in h2;
      BeforeTransitive(view.events[a].order, Replay(names, base, h1).state.clock.last, view.events[b].order);
    }
    HistoryExtends(view.events, seen, later);
    forall e | e in h2
      ensures e.order !in names
    {
      assert e.id in later && view.events[e.id] == e;
      assert e.order !in OrdersOf(view.events, seen);
    }
  }

  lemma AppendLands(view: Ledger, k: Key, names: Identities, base: nat)
    requires TablesOk(view) && CanAppend(view, k)
    requires AgreesBy(view, k, Projected(view, k), names, base)
    requires forall e :: e in view.keyOf && view.keyOf[e] == k && e in view.effects ==> view.effects[e].key == k
    ensures LandsAs(view, k, names, base)
  {
    AppendSplits(view, k, names, base);
    hide Replay, Derive, Shown;
    var h1, h2 := HistoryOf(view, Projected(view, k)), HistoryOf(view, NewIds(view, k));
    AppendIsReplay(names, base, h1, h2);
    assert Projected(view, k) <= view.Mapped(k);
  }

  /** Whatever path the preparer takes, it computes a full replay of the events then mapped. */
  lemma PreparationIsReplay(view: Ledger, k: Key)
    requires Inv(view) && k in view.pending
    ensures exists names: Identities, base: nat :: LandsAs(view, k, names, base)
  {
    if CanAppend(view, k) {
      assert Claim(view, k);
      var names, base :| AgreesBy(view, k, Projected(view, k), names, base);
      AppendLands(view, k, names, base);
    } else {
      FullReplayLands(view, k);
    }
  }
}
