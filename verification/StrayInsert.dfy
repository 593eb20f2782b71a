/**
 Why the publisher has to look out for stray inserts: a run in which a late publish hides an
 event from the position it has moved to, and leaves that position clean but wrong.
 */
module StrayInsert {
  import opened Common
  import opened PositionModel
  import opened AppendProofs
  import opened EpisodeProofs
  import opened Histories
  import opened ReplayDiff
  import opened DeferredLedger
  import opened LedgerProofs
  import opened PublishProofs
  import opened LedgerRuns

  /** An append writes effect rows for the new events only. */
  lemma AppendedKeys(l: Ledger, k: Key, e: int)
    requires TablesOk(l) && CanAppend(l, k)
    ensures e in Computed(l, k).writes.effects <==> e in NewIds(l, k)
  {
    hide Derive;
    NewAreStored(l, k);
    DerivedEffectKeys(map[], l.RowsOf(k).position.value, HistoryOf(l, NewIds(l, k)), e);
    HistoryHasIds(l.events, NewIds(l, k), e);
  }

  /**
   An append cannot see an event whose effect row another position holds: once prepared and
   published at once, the position is clean, and not a replay of its events.
   */
  lemma HiddenEventStaysHidden(l: Ledger, k: Key, e: int)
    requires TablesOk(l) && CanAppend(l, k) && !l.pending[k].costOnly
    requires e in l.keyOf && l.keyOf[e] == k && e in l.effects && l.effects[e].key != k
    ensures
      var after := PublishStep(l, Preparation(l, k));
      k !in after.pending && !Agrees(after, k, after.Mapped(k))
  {
    var p := Preparation(l, k);
    var after := PublishStep(l, p);
    PublishTables(l, p);
    AppendedKeys(l, k, e);
    assert e !in p.diff.value.effects && p.diff.value.dropEffects == {};
    assert after.effects == FlushEffects(l.effects, l.keyOf, k, p.diff.value);
    assert e in after.effects && after.effects[e] == l.effects[e];
    assert e in after.Mapped(k);
    HiddenDisagrees(after, k, e);
  }

  lemma HiddenDisagrees(l: Ledger, k: Key, e: int)
    requires TablesOk(l) && e in l.Mapped(k) && e in l.effects && l.effects[e].key != k
    ensures !Agrees(l, k, l.Mapped(k))
  {
    if Agrees(l, k, l.Mapped(k)) {
      AgreesHolds(l, k, l.Mapped(k));
    }
  }

  lemma AtOnceLands(l: Ledger, k: Key)
    requires k in l.pending && !l.pending[k].costOnly
    requires forall e :: e in Computed(l, k).writes.effects ==> e in l.keyOf && l.keyOf[e] == k
    requires CanAppend(l, k) ==> forall e :: e in l.effects && l.effects[e].key == k ==> e in l.keyOf && l.keyOf[e] == k
    ensures
      var after := PublishStep(l, Preparation(l, k));
      k !in after.pending && after.Published(k) == Landed(l, k)
  {
    hide Computed, CanAppend, DiffOf, FlushRows, FlushEffects, Shown;
    DiffLands(l.RowsOf(k), l.effects, l.keyOf, k, Computed(l, k), CanAppend(l, k));
  }

  /** A preparation that computes a replay, published at once, shows that replay. */
  lemma AtOnceAgrees(l: Ledger, k: Key, names: Identities, base: nat)
    requires TablesOk(l) && k in l.pending && !l.pending[k].costOnly && LandsAs(l, k, names, base)
    ensures
      var after := PublishStep(l, Preparation(l, k));
      k !in after.pending && Agrees(after, k, after.Mapped(k))
  {
    var after := PublishStep(l, Preparation(l, k));
    PublishTables(l, Preparation(l, k));
    LandedKeys(l, k, names, base);
    MappedIds(l, k);
    assert forall e :: e in Computed(l, k).writes.effects ==> e in Landed(l, k).writes.effects;
    forall e | CanAppend(l, k) && e in l.effects && l.effects[e].key == k
      ensures e in l.keyOf && l.keyOf[e] == k
    {
      HeldKeys(l, k, e);
      assert e in Landed(l, k).writes.effects;
    }
    AtOnceLands(l, k);
    hide Computed, CanAppend, Landed, PublishStep, Preparation, Result;
    assert AgreesBy(after, k, after.Mapped(k), names, base);
  }

  /**
   Exactly when a position is published wrong: whatever is in the tables, preparing and
   publishing it at once makes it clean, and right if and only if no append is possible or
   none of its events is hidden from the append.
   */
  lemma PublishedAtOnce(l: Ledger, k: Key)
    requires TablesOk(l) && NamesOk(l, k) && k in l.pending && !l.pending[k].costOnly
    requires CanAppend(l, k) ==> Agrees(l, k, Projected(l, k))
    ensures
      var after := PublishStep(l, Preparation(l, k));
      && k !in after.pending
      && (Agrees(after, k, after.Mapped(k))
          <==> (CanAppend(l, k) ==>
                  forall e | e in l.keyOf && l.keyOf[e] == k :: e in l.effects ==> l.effects[e].key == k))
  {
    hide CanAppend;
    if !CanAppend(l, k) {
      FullReplayLands(l, k);
      var names, base :| LandsAs(l, k, names, base);
      AtOnceAgrees(l, k, names, base);
    } else if e :| e in l.keyOf && l.keyOf[e] == k && e in l.effects && l.effects[e].key != k {
      HiddenEventStaysHidden(l, k, e);
    } else {
      var names, base :| AgreesBy(l, k, Projected(l, k), names, base);
      AppendLands(l, k, names, base);
      AtOnceAgrees(l, k, names, base);
    }
  }

  // ---------------------------------------------------------------- a run that goes wrong

  function Mapping(e: Event, key: Option<Key>): Batch {
    map[e.id := Change(e, key, false)]
  }

  /** The ledger once `e` has been mapped to `k`, prepared and published. */
  ghost predicate Settled(l: Ledger, e: Event, k: Key) {
    && l == Ledger(map[e.id := e], map[e.id := k], map[], l.rows, l.effects, map[], 0)
    && l.effects.Keys == {e.id} && l.effects[e.id].key == k
    && (forall j: Key :: j != k ==> l.RowsOf(j) == NO_ROWS)
    && l.RowsOf(k).position.Some? && l.RowsOf(k).position.value.clock.last == e.order
  }

  predicate WellFormed(e: Event) {
    e.protocol.Nft? ==> e.kind.Transfer?
  }

  lemma OneTouched(l: Ledger, e: Event, key: Option<Key>, k: Key)
    requires key == Some(k) || (key.None? && e.id in l.keyOf && l.keyOf[e.id] == k)
    requires e.id in l.keyOf ==> l.keyOf[e.id] == k
    ensures TouchedKeys(l, Mapping(e, key)) == {k}
    ensures Touches(l, Mapping(e, key), e.id, k)
    ensures !CostProof(l, Mapping(e, key), k)
  {
    var batch := Mapping(e, key);
    assert e.id in batch && !batch[e.id].receiptOnly;
    assert Touches(l, batch, e.id, k);
    forall j
      ensures j in TouchedKeys(l, batch) <==> j == k
    {
      assert batch[e.id].key == key;
    }
  }

  lemma OneRemapped(keyOf: map<int, Key>, e: Event, key: Option<Key>)
    ensures Remapped(keyOf, Mapping(e, key)) == if key.Some? then keyOf[e.id := key.value] else keyOf - {e.id}
  {
    var batch := Mapping(e, key);
    assert batch.Keys == {e.id};
  }

  lemma OneStored(events: map<int, Event>, e: Event, key: Option<Key>)
    ensures events + BatchEvents(Mapping(e, key)) == events[e.id := e]
  {
    assert BatchEvents(Mapping(e, key)) == map[e.id := e];
  }

  lemma OneQueued(l: Ledger, e: Event, key: Option<Key>, k: Key, append: bool)
    requires TouchedKeys(l, Mapping(e, key)) == {k}
    requires AppendProof(l, Mapping(e, key), k) == append && !CostProof(l, Mapping(e, key), k)
    ensures ApplyStep(l, Mapping(e, key))
         == l.(events := l.events + BatchEvents(Mapping(e, key)), keyOf := Remapped(l.keyOf, Mapping(e, key)),
               pending := l.pending[k := Requeued(l.pending, k, append, false)])
  {
    hide AppendProof, CostProof, TouchedKeys, Requeued, BatchEvents, Remapped, Mapping;
  }

  lemma OneAppends(l: Ledger, e: Event, k: Key)
    requires e.id !in l.keyOf && e.id !in l.effects
    ensures AppendProof(l, Mapping(e, Some(k)), k)
  {
  }

  lemma OneUnmaps(l: Ledger, e: Event, k: Key)
    requires e.id in l.keyOf && Touches(l, Mapping(e, None), e.id, k)
    ensures !AppendProof(l, Mapping(e, None), k)
  {
  }

  /** An event that is new to the ledger queues its position with an append proof. */
  lemma MapNew(l: Ledger, e: Event, k: Key)
    requires e.id !in l.keyOf && e.id !in l.effects
    ensures ApplyStep(l, Mapping(e, Some(k)))
         == l.(events := l.events[e.id := e], keyOf := l.keyOf[e.id := k],
               pending := l.pending[k := Requeued(l.pending, k, true, false)])
  {
    hide AppendProof, CostProof, TouchedKeys, Requeued, BatchEvents, Remapped, Mapping, ApplyStep, Touches;
    OneTouched(l, e, Some(k), k);
    OneRemapped(l.keyOf, e, Some(k));
    OneStored(l.events, e, Some(k));
    OneAppends(l, e, k);
    OneQueued(l, e, Some(k), k, true);
  }

  /** An event that loses its position queues it without any proof. */
  lemma Unmap(l: Ledger, e: Event, k: Key)
    requires e.id in l.keyOf && l.keyOf[e.id] == k
    ensures ApplyStep(l, Mapping(e, None))
         == l.(events := l.events[e.id := e], keyOf := l.keyOf - {e.id},
               pending := l.pending[k := Requeued(l.pending, k, false, false)])
  {
    hide AppendProof, CostProof, TouchedKeys, Requeued, BatchEvents, Remapped, Mapping, ApplyStep, Touches;
    OneTouched(l, e, None, k);
    OneRemapped(l.keyOf, e, None);
    OneStored(l.events, e, None);
    OneUnmaps(l, e, k);
    OneQueued(l, e, None, k, false);
  }

  lemma FirstMapping(e: Event, k: Key)
    requires WellFormed(e)
    ensures
      var l := ApplyStep(EMPTY_LEDGER, Mapping(e, Some(k)));
      && l == Ledger(map[e.id := e], map[e.id := k], map[k := Pending(1, true, false)], map[], map[], map[], 0)
      && Inv(l)
  {
    InitialInv();
    MapNew(EMPTY_LEDGER, e, k);
    hide Inv, ApplyStep;
    ApplyKeepsInv(EMPTY_LEDGER, Mapping(e, Some(k)));
  }

  lemma FirstPublish(e: Event, k: Key)
    requires WellFormed(e)
    ensures
      var l := ApplyStep(EMPTY_LEDGER, Mapping(e, Some(k)));
      k in l.pending && Settled(PublishStep(l, Preparation(l, k)), e, k)
  {
    FirstMapping(e, k);
    hide ApplyStep, PublishStep, Preparation;
    var l := ApplyStep(EMPTY_LEDGER, Mapping(e, Some(k)));
    assert !CanAppend(l, k);
    InvClaim(l, k);
    FirstLands(l, e, k);
    FirstRows(l, e, k);
  }

  lemma SingleHistory(events: map<int, Event>, e: Event)
    requires CanonicalTable(events) && events == map[e.id := e]
    ensures History(events, {e.id}) == [e]
  {
    var h := History(events, {e.id});
    assert Picked(events, {e.id}) == {e};
    assert IsHistory({e}, [e]);
    HistoryUnique({e}, h, [e]);
  }

  lemma FirstLands(l: Ledger, e: Event, k: Key)
    requires TablesOk(l) && NamesOk(l, k) && !CanAppend(l, k) && l.events == map[e.id := e] && l.keyOf == map[e.id := k]
    ensures Landed(l, k).writes.effects.Keys == {e.id}
    ensures Landed(l, k).position.Some? && Landed(l, k).position.value.clock.last == e.order
  {
    FullReplayLands(l, k);
    var names, base :| LandsAs(l, k, names, base);
    assert l.Mapped(k) == {e.id};
    LandedKeys(l, k, names, base);
    SingleHistory(l.events, e);
    LastOrder(names, base, [e]);
    hide Replay, Landed, NamesOk, CanAppend, CanonicalTable;
  }

  /** What publishing at once leaves alone, and what it leaves to the published position. */
  lemma AtOnceShape(l: Ledger, k: Key)
    requires k in l.pending && !l.pending[k].costOnly
    ensures
      var after := PublishStep(l, Preparation(l, k));
      after == l.(rows := after.rows, effects := after.effects, identities := l.identities - {k},
                  pending := l.pending - {k})
  {
    hide Computed, CanAppend, DiffOf, FlushRows, FlushEffects;
  }

  lemma FirstEffects(l: Ledger, after: Ledger, e: Event, k: Key)
    requires l.effects == map[] && after.Published(k).writes.effects.Keys == {e.id}
    requires forall i :: i in after.effects && (i !in l.effects || after.effects[i] != l.effects[i]) ==>
                         after.effects[i].key == k
    ensures after.effects.Keys == {e.id} && after.effects[e.id].key == k
  {
    forall i
      ensures i in after.effects <==> i == e.id
    {
      HeldKeys(after, k, i);
    }
    HeldKeys(after, k, e.id);
  }

  lemma FirstTables(l: Ledger, k: Key)
    requires k in l.pending && l.rows == map[] && l.effects == map[]
    ensures
      var after := PublishStep(l, Preparation(l, k));
      && (forall j: Key :: j != k ==> after.RowsOf(j) == NO_ROWS)
      && (forall i :: i in after.effects && (i !in l.effects || after.effects[i] != l.effects[i]) ==>
                      after.effects[i].key == k)
  {
    hide Computed, CanAppend, PublishStep, Preparation;
    PreparationKey(l, k);
    PublishTables(l, Preparation(l, k));
  }

  lemma FirstRows(l: Ledger, e: Event, k: Key)
    requires l == Ledger(map[e.id := e], map[e.id := k], map[k := Pending(1, true, false)], map[], map[], map[], 0)
    requires !CanAppend(l, k) && Landed(l, k).writes.effects.Keys == {e.id}
    requires Landed(l, k).position.Some? && Landed(l, k).position.value.clock.last == e.order
    ensures Settled(PublishStep(l, Preparation(l, k)), e, k)
  {
    assert Computed(l, k) == Landed(l, k);
    hide Computed, CanAppend, Landed, PublishStep, Preparation, HeldBy, Cores;
    var after := PublishStep(l, Preparation(l, k));
    AtOnceShape(l, k);
    AtOnceLands(l, k);
    FirstTables(l, k);
    FirstEffects(l, after, e, k);
    assert after.identities == map[] && after.pending == map[];
  }

  lemma PreparationKey(l: Ledger, k: Key)
    requires k in l.pending
    ensures Preparation(l, k).key == k
  {
    hide Computed, CanAppend, DiffOf;
  }

  ghost function Remappings(l: Ledger, e1: Event, e2: Event, a: Key, b: Key): (Ledger, Ledger, Ledger, Ledger) {
    var l1 := ApplyStep(l, Mapping(e1, Some(a)));
    var l2 := ApplyStep(l1, Mapping(e1, None));
    var l3 := ApplyStep(l2, Mapping(e1, Some(b)));
    (l1, l2, l3, ApplyStep(l3, Mapping(e2, Some(b))))
  }

  /** `e1` is mapped to `a`, unmapped, and then mapped to `b`, as is `e2`. */
  lemma RemappingsAre(l: Ledger, e0: Event, e1: Event, e2: Event, a: Key, b: Key)
    requires Settled(l, e0, b) && a != b && e0.id != e1.id && e1.id != e2.id && e0.id != e2.id
    ensures
      var (l1, l2, l3, l4) := Remappings(l, e1, e2, a, b);
      && l1 == l.(events := map[e0.id := e0, e1.id := e1], keyOf := map[e0.id := b, e1.id := a],
                  pending := map[a := Pending(1, true, false)])
      && l4 == l.(events := map[e0.id := e0, e1.id := e1, e2.id := e2],
                  keyOf := map[e0.id := b, e1.id := b, e2.id := b],
                  pending := map[a := Pending(2, false, false), b := Pending(2, true, false)])
  {
    hide ApplyStep;
    var (l1, l2, l3, l4) := Remappings(l, e1, e2, a, b);
    MapNew(l, e1, a);
    Unmap(l1, e1, a);
    assert l2.keyOf == l.keyOf;
    MapNew(l2, e1, b);
    MapNew(l3, e2, b);
  }

  /** The late publish of `a` puts the row of `e1`, whatever has become of `e1` since. */
  lemma LatePublish(view: Ledger, now: Ledger, e0: Event, e1: Event, a: Key)
    requires TablesOk(view) && view.events == map[e0.id := e0, e1.id := e1] && e0.id != e1.id
    requires view.RowsOf(a) == NO_ROWS && view.Mapped(a) == {e1.id}
    requires a in view.pending && view.pending[a] == Pending(1, true, false)
    requires a in now.pending && now.pending[a].generation != 1
    requires view.epoch == now.epoch && e1.id !in view.effects && e1.id !in now.effects
    requires forall e :: e in view.effects ==> view.effects[e].key != a
    ensures
      var after := PublishStep(now, Preparation(view, a));
      && after.effects.Keys == now.effects.Keys + {e1.id} && after.effects[e1.id].key == a
      && after == now.(rows := after.rows, effects := after.effects, identities := now.identities - {a})
      && forall j: Key :: j != a ==> after.RowsOf(j) == now.RowsOf(j)
  {
    LateComputes(view, e0, e1, a);
    hide Computed, CanAppend, PublishStep, DiffOf, TablesOk, Ledger.Mapped;
    var p := Preparation(view, a);
    LateDiff(view.RowsOf(a), view.effects, a, Computed(view, a), CanAppend(view, a), e1.id);
    LateFlush(now, p, e1.id);
    PublishTables(now, p);
  }

  lemma LateDiff(rows: Rows, effects: Effects, k: Key, t: Target, append: bool, e: int)
    requires t.writes.effects.Keys == {e} && e !in effects
    requires forall i :: i in effects ==> effects[i].key != k
    ensures DiffOf(rows, effects, k, t, append).effects.Keys == {e}
    ensures DiffOf(rows, effects, k, t, append).dropEffects == {}
  {
    hide ChangedEpisodes, ChangedOwnership;
    assert e in t.writes.effects;
    assert forall i :: i !in StaleEffects(effects, k, t.writes.effects);
  }

  lemma LateComputes(view: Ledger, e0: Event, e1: Event, a: Key)
    requires view.RowsOf(a) == NO_ROWS && e0.id != e1.id && TablesOk(view)
    requires view.events == map[e0.id := e0, e1.id := e1] && view.Mapped(a) == {e1.id}
    ensures !CanAppend(view, a) && Computed(view, a).writes.effects.Keys == {e1.id}
  {
    var restored := Restored(view, a);
    ResultEffectKeys(restored.openings, restored.ordinal, view.events, {e1.id});
  }

  lemma LateFlush(now: Ledger, p: Projection, e: int)
    requires p.epoch == now.epoch && p.key in now.pending && now.pending[p.key].generation != p.generation
    requires p.diff.Some? && p.diff.value.effects.Keys == {e} && p.diff.value.dropEffects == {} && e !in now.effects
    ensures
      var after := PublishStep(now, p);
      && after.effects.Keys == now.effects.Keys + {e} && after.effects[e].key == p.key
      && after == now.(rows := after.rows, effects := after.effects, identities := now.identities - {p.key})
  {
    hide FlushRows;
    assert AfterDrops(now.effects, p.key, {}) == now.effects;
  }

  ghost predicate CleanButWrong(l: Ledger, k: Key) {
    k !in l.pending && !Agrees(l, k, l.Mapped(k))
  }

  function Moves(e0: Event, e1: Event, e2: Event, a: Key, b: Key): seq<Action> {
    [Apply(Mapping(e0, Some(b))), Prepare(b), Publish(b),
     Apply(Mapping(e1, Some(a))), Prepare(a),
     Apply(Mapping(e1, None)), Apply(Mapping(e1, Some(b))), Apply(Mapping(e2, Some(b))),
     Publish(a), Prepare(b), Publish(b)]
  }

  /** At the end everything but the old position is clean, and the new position is wrong. */
  lemma HiddenEvent(l: Ledger, now: Ledger, e0: Event, e1: Event, e2: Event, a: Key, b: Key)
    requires Settled(l, e0, b) && a != b && e0.id != e1.id && e1.id != e2.id && e0.id != e2.id
    requires TablesOk(now) && e0.order.block < e2.order.block
    requires now.events == map[e0.id := e0, e1.id := e1, e2.id := e2]
    requires now.keyOf == map[e0.id := b, e1.id := b, e2.id := b]
    requires b in now.pending && now.pending[b] == Pending(2, true, false)
    requires now.RowsOf(b) == l.RowsOf(b) && now.effects.Keys == {e0.id, e1.id} && now.effects[e1.id].key == a
    ensures
      var after := PublishStep(now, Preparation(now, b));
      b !in after.pending && !Agrees(after, b, after.Mapped(b))
  {
    assert NewIds(now, b) == {e2.id};
    HistoryIds(now.events, {e2.id});
    assert CanAppend(now, b);
    HiddenEventStaysHidden(now, b, e1.id);
  }

  // ---------------------------------------------------------------- the run, step by step

  ghost predicate Goes(s: System, a: Action, s': System) {
    Enabled(s, a) && Next(s, a) == s'
  }

  lemma GoApply(l: Ledger, outstanding: map<Key, Ledger>, e: Event, key: Option<Key>)
    requires CanonicalTable(l.events[e.id := e])
    ensures Goes(System(l, outstanding), Apply(Mapping(e, key)), System(ApplyStep(l, Mapping(e, key)), outstanding))
  {
    OneStored(l.events, e, key);
    hide ApplyStep, CanonicalTable, BatchEvents;
  }

  lemma GoPrepare(l: Ledger, k: Key)
    requires k in l.pending
    ensures Goes(System(l, map[]), Prepare(k), System(l, map[k := l]))
  {
  }

  lemma GoPublish(l: Ledger, view: Ledger, k: Key)
    requires k in view.pending
    ensures Goes(System(l, map[k := view]), Publish(k), System(PublishStep(l, Preparation(view, k)), map[]))
  {
    hide PublishStep, Preparation;
    var outstanding: map<Key, Ledger> := map[k := view];
    assert outstanding - {k} == map[];
  }

  lemma ChainEndsWrong(l: Ledger, e0: Event, e1: Event, e2: Event, a: Key, b: Key) returns (late: Ledger, final: Ledger)
    requires Settled(l, e0, b) && WellFormed(e0) && WellFormed(e1) && WellFormed(e2)
    requires a != b && e0.id != e1.id && e1.id != e2.id && e0.id != e2.id
    requires e0.order.block < e1.order.block < e2.order.block
    ensures
      var (l4, l6, l7, l8) := Remappings(l, e1, e2, a, b);
      && Goes(System(l4, map[]), Prepare(a), System(l4, map[a := l4]))
      && Goes(System(l8, map[a := l4]), Publish(a), System(late, map[]))
      && Goes(System(late, map[]), Prepare(b), System(late, map[b := late]))
      && Goes(System(late, map[b := late]), Publish(b), System(final, map[]))
      && CleanButWrong(final, b)
  {
    hide ApplyStep, PublishStep, Preparation, Agrees, Goes;
    RemappingsAre(l, e0, e1, e2, a, b);
    var (l4, l6, l7, l8) := Remappings(l, e1, e2, a, b);
    MappedOnly(l4, e0.id, e1.id, a, b);
    assert l4.RowsOf(a) == l.RowsOf(a) == NO_ROWS;
    LatePublish(l4, l8, e0, e1, a);
    late := PublishStep(l8, Preparation(l4, a));
    HiddenEvent(l, late, e0, e1, e2, a, b);
    final := PublishStep(late, Preparation(late, b));
    GoPrepare(l4, a);
    GoPublish(l8, l4, a);
    GoPrepare(late, b);
    GoPublish(late, late, b);
  }

  lemma MappedOnly(l: Ledger, i: int, j: int, a: Key, b: Key)
    requires l.keyOf == map[i := b, j := a] && i != j && a != b
    ensures l.Mapped(a) == {j}
  {
  }

  lemma RemappingsGo(l: Ledger, e0: Event, e1: Event, e2: Event, a: Key, b: Key)
    requires Settled(l, e0, b) && WellFormed(e0) && WellFormed(e1) && WellFormed(e2)
    requires a != b && e0.id != e1.id && e1.id != e2.id && e0.id != e2.id
    requires e0.order.block < e1.order.block < e2.order.block
    ensures
      var (l4, l6, l7, l8) := Remappings(l, e1, e2, a, b);
      && Goes(System(l, map[]), Apply(Mapping(e1, Some(a))), System(l4, map[]))
      && Goes(System(l4, map[a := l4]), Apply(Mapping(e1, None)), System(l6, map[a := l4]))
      && Goes(System(l6, map[a := l4]), Apply(Mapping(e1, Some(b))), System(l7, map[a := l4]))
      && Goes(System(l7, map[a := l4]), Apply(Mapping(e2, Some(b))), System(l8, map[a := l4]))
  {
    hide ApplyStep, Goes, Mapping;
    var (l4, l6, l7, l8) := Remappings(l, e1, e2, a, b);
    GoApply(l, map[], e1, Some(a));
    RemappingsEvents(l, e0, e1, e2, a, b);
    GoApply(l4, map[a := l4], e1, None);
    GoApply(l6, map[a := l4], e1, Some(b));
    GoApply(l7, map[a := l4], e2, Some(b));
  }

  lemma RemappingsEvents(l: Ledger, e0: Event, e1: Event, e2: Event, a: Key, b: Key)
    requires Settled(l, e0, b) && a != b && e0.id != e1.id && e1.id != e2.id && e0.id != e2.id
    ensures
      var (l4, l6, l7, l8) := Remappings(l, e1, e2, a, b);
      && l4.events == map[e0.id := e0, e1.id := e1] == l6.events == l7.events
      && l8.events == map[e0.id := e0, e1.id := e1, e2.id := e2]
  {
    hide ApplyStep;
    var (l4, l6, l7, l8) := Remappings(l, e1, e2, a, b);
    MapNew(l, e1, a);
    Unmap(l4, e1, a);
    assert l6.keyOf == l.keyOf;
    MapNew(l6, e1, b);
    MapNew(l7, e2, b);
  }

  lemma FirstSteps(e0: Event, b: Key) returns (l1: Ledger, l3: Ledger)
    requires WellFormed(e0)
    ensures Goes(INITIAL, Apply(Mapping(e0, Some(b))), System(l1, map[]))
    ensures Goes(System(l1, map[]), Prepare(b), System(l1, map[b := l1]))
    ensures Goes(System(l1, map[b := l1]), Publish(b), System(l3, map[]))
    ensures Settled(l3, e0, b)
  {
    FirstPublish(e0, b);
    GoApply(EMPTY_LEDGER, map[], e0, Some(b));
    hide ApplyStep, PublishStep, Preparation, Goes, Mapping, Settled;
    l1 := ApplyStep(EMPTY_LEDGER, Mapping(e0, Some(b)));
    l3 := PublishStep(l1, Preparation(l1, b));
    GoPrepare(l1, b);
    GoPublish(l1, l1, b);
  }

  lemma LastSteps(l3: Ledger, e0: Event, e1: Event, e2: Event, a: Key, b: Key)
    returns (l4: Ledger, l6: Ledger, l7: Ledger, l8: Ledger, l9: Ledger, l11: Ledger)
    requires Settled(l3, e0, b) && WellFormed(e0) && WellFormed(e1) && WellFormed(e2)
    requires a != b && e0.id != e1.id && e1.id != e2.id && e0.id != e2.id
    requires e0.order.block < e1.order.block < e2.order.block
    ensures Goes(System(l3, map[]), Apply(Mapping(e1, Some(a))), System(l4, map[]))
    ensures Goes(System(l4, map[]), Prepare(a), System(l4, map[a := l4]))
    ensures Goes(System(l4, map[a := l4]), Apply(Mapping(e1, None)), System(l6, map[a := l4]))
    ensures Goes(System(l6, map[a := l4]), Apply(Mapping(e1, Some(b))), System(l7, map[a := l4]))
    ensures Goes(System(l7, map[a := l4]), Apply(Mapping(e2, Some(b))), System(l8, map[a := l4]))
    ensures Goes(System(l8, map[a := l4]), Publish(a), System(l9, map[]))
    ensures Goes(System(l9, map[]), Prepare(b), System(l9, map[b := l9]))
    ensures Goes(System(l9, map[b := l9]), Publish(b), System(l11, map[])) && CleanButWrong(l11, b)
  {
    hide Goes, Mapping, Settled, CleanButWrong, Remappings;
    RemappingsGo(l3, e0, e1, e2, a, b);
    l9, l11 := ChainEndsWrong(l3, e0, e1, e2, a, b);
    var t := Remappings(l3, e1, e2, a, b);
    l4, l6, l7, l8 := t.0, t.1, t.2, t.3;
  }

  /**
   A concrete run that leaves a clean position wrong, for any three events in rising blocks:
   `e1` is prepared for `a`, loses its position, and is mapped to `b` with an append proof
   before the projection of `a` is published. The position an event belongs to is a column of
   its own that later applies may rewrite, which is why `Event` does not hold it: the run maps
   one and the same event to `a`, then to nothing, then to `b`.
   */
  lemma HiddenEventRun(e0: Event, e1: Event, e2: Event, a: Key, b: Key)
    requires WellFormed(e0) && WellFormed(e1) && WellFormed(e2)
    requires a != b && e0.id != e1.id && e1.id != e2.id && e0.id != e2.id
    requires e0.order.block < e1.order.block < e2.order.block
    ensures exists states: seq<System> :: IsRun(states, Moves(e0, e1, e2, a, b)) && CleanButWrong(states[11].ledger, b)
  {
    hide Goes, Mapping, CleanButWrong, Settled, WellFormed;
    var l1, l3 := FirstSteps(e0, b);
    var l4, l6, l7, l8, l9, l11 := LastSteps(l3, e0, e1, e2, a, b);
    var states := [INITIAL, System(l1, map[]), System(l1, map[b := l1]), System(l3, map[]),
                   System(l4, map[]), System(l4, map[a := l4]), System(l6, map[a := l4]), System(l7, map[a := l4]),
                   System(l8, map[a := l4]), System(l9, map[]), System(l9, map[b := l9]), System(l11, map[])];
    GoesIsRun(states, Moves(e0, e1, e2, a, b));
  }

  lemma GoesIsRun(states: seq<System>, actions: seq<Action>)
    requires |states| == |actions| + 1 && states[0] == INITIAL
    requires forall i :: 0 <= i < |actions| ==> Goes(states[i], actions[i], states[i + 1])
    ensures IsRun(states, actions)
  {
    hide Next, Enabled;
    forall i | 0 <= i < |actions|
      ensures Enabled(states[i], actions[i]) && states[i + 1] == Next(states[i], actions[i])
    {
      assert Goes(states[i], actions[i], states[i + 1]);
    }
  }
}
