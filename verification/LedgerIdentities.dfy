/**
 Two more promises of the ledger over whole runs: no effect row is ever stolen from the
 position its event is mapped to, and episode ordinals survive replays and reorganisations.
 */
module LedgerIdentities {
  import opened Common
  import opened PositionModel
  import opened AppendProofs
  import opened EpisodeProofs
  import opened Histories
  import opened ReplayDiff
  import opened DeferredLedger
  import opened LedgerProofs
  import opened PublishProofs
  import opened LedgerRuns

  // ---------------------------------------------------------------- effects are never stolen

  predicate HeldByItsKey(l: Ledger, e: int) {
    e in l.effects && e in l.keyOf && l.effects[e].key == l.keyOf[e]
  }

  /** The action leaves event `e` mapped as it is and does not rewrite the rows of its position. */
  predicate Spares(a: Action, e: int, k: Key) {
    match a
    case Apply(batch) => e !in batch
    case Publish(j) => j != k
    case Rollback(_) => false
    case _ => true
  }

  lemma StepSpares(s: System, a: Action, e: int)
    requires Enabled(s, a) && HeldByItsKey(s.ledger, e) && Spares(a, e, s.ledger.keyOf[e])
    ensures HeldByItsKey(Next(s, a).ledger, e)
    ensures Next(s, a).ledger.effects[e] == s.ledger.effects[e] && Next(s, a).ledger.keyOf[e] == s.ledger.keyOf[e]
  {
    if a.Publish? {
      var p := Preparation(s.outstanding[a.key], a.key);
      PublishTables(s.ledger, p);
      PublishKeepsRow(s.ledger, p, e);
    }
  }

  /**
   A stale publish never steals an event: once a row is held by the position its event is
   mapped to, no sequence of publishes of other positions, however old their snapshots,
   overwrites or deletes it.
   */
  lemma {:induction false} NeverStolen(states: seq<System>, actions: seq<Action>, i: nat, j: nat, e: int)
    requires IsRun(states, actions) && i <= j < |states|
    requires HeldByItsKey(states[i].ledger, e)
    requires forall m :: i <= m < j ==> Spares(actions[m], e, states[i].ledger.keyOf[e])
    ensures HeldByItsKey(states[j].ledger, e)
    ensures states[j].ledger.effects[e] == states[i].ledger.effects[e]
    ensures states[j].ledger.keyOf[e] == states[i].ledger.keyOf[e]
    decreases j
  {
    if i < j {
      NeverStolen(states, actions, i, j - 1, e);
      StepSpares(states[j - 1], actions[j - 1], e);
    }
  }

  // ---------------------------------------------------------------- stored states

  /** A stored state has its active episode among its rows, all of them opened by its last event. */
  ghost predicate StateStored(st: State, rows: map<nat, Episode>) {
    && ActiveUnsettled(st)
    && (forall n :: Tallied(st, rows, n) == if n in rows then Some(TallyOf(rows[n])) else None)
    && (forall n :: n in rows ==> AtOrBefore(rows[n].openOrder, st.clock.last))
  }

  ghost predicate StoredOk(l: Ledger, k: Key) {
    l.RowsOf(k).position.Some? ==> StateStored(l.RowsOf(k).position.value, Cores(l.RowsOf(k).episodes))
  }

  /** Properly named rows together with the state that was stored with them. */
  ghost predicate NamedRows(st: State, rows: map<nat, Episode>) {
    RowsNamed(rows, st.episodes.ordinal) && StateStored(st, rows)
  }

  /** Openings known to both keep their ordinal; one known only to `b` is numbered above all of `a`. */
  ghost predicate KeepsNames(a: Saved, b: Saved) {
    && a.ordinal <= b.ordinal
    && forall o :: o in b.openings ==>
                   if o in a.openings then b.openings[o] == a.openings[o] else a.ordinal < b.openings[o]
  }

  lemma KeepsItself(a: Saved)
    ensures KeepsNames(a, a)
  {
  }

  /** A named fold, once its active episode is saved, leaves named rows. */
  lemma NamedFoldStores(ids: Identities, base: nat, rows: map<nat, Episode>, step: Step)
    requires IdsOk(ids, base) && ActiveUnsettled(step.state)
    requires Named(ids, base, step.state, rows + step.writes.episodes)
    ensures
      var all := rows + Sealed(step).writes.episodes;
      NamedRows(step.state, all) && KeepsNames(Saved(base, ids), Saved(step.state.episodes.ordinal, Openings(all)))
  {
    hide ActiveUnsettled, Sealed, Tallied, Named, IdsOk, NamedRows, KeepsNames, Openings;
    var all := rows + Sealed(step).writes.episodes;
    forall n: nat
      ensures Tallied(step.state, rows + step.writes.episodes, n) == if n in all then Some(TallyOf(all[n])) else None
      ensures Tallied(step.state, all, n) == if n in all then Some(TallyOf(all[n])) else None
    {
      SealedRow(rows, step, n);
    }
    TalliedNames(ids, base, step.state, rows + step.writes.episodes, all);
  }

  lemma TalliedNames(ids: Identities, base: nat, st: State, rows: map<nat, Episode>, all: map<nat, Episode>)
    requires IdsOk(ids, base) && ActiveUnsettled(st) && Named(ids, base, st, rows)
    requires forall n: nat :: Tallied(st, rows, n) == if n in all then Some(TallyOf(all[n])) else None
    requires forall n: nat :: Tallied(st, all, n) == if n in all then Some(TallyOf(all[n])) else None
    ensures NamedRows(st, all) && KeepsNames(Saved(base, ids), Saved(st.episodes.ordinal, Openings(all)))
  {
    hide ActiveUnsettled, Tallied, Openings;
    forall n | n in all
      ensures NamedAt(ids, base, st, n, all[n].openOrder)
    {
      assert Tallied(st, rows, n).Some?;
    }
    forall n, m | n in all && m in all && n != m
      ensures all[n].openOrder != all[m].openOrder
    {
      assert Tallied(st, rows, n).Some? && Tallied(st, rows, m).Some?;
    }
    OpeningsAre(all);
  }

  lemma SealedRow(rows: map<nat, Episode>, step: Step, n: nat)
    ensures
      var all := rows + Sealed(step).writes.episodes;
      && Tallied(step.state, rows + step.writes.episodes, n) == Tallied(step.state, all, n)
      && Tallied(step.state, all, n) == if n in all then Some(TallyOf(all[n])) else None
  {
  }

  // ---------------------------------------------------------------- ordinals across one append

  /** Stored rows are named by the identities they restore. */
  lemma StoredIsNamed(st: State, rows: map<nat, Episode>)
    requires NamedRows(st, rows)
    ensures IdsOk(Openings(rows), st.episodes.ordinal)
    ensures Named(Openings(rows), st.episodes.ordinal, st, rows)
    ensures forall o :: o in Openings(rows) ==> AtOrBefore(o, st.clock.last)
  {
    RowsNamedIds(rows, st.episodes.ordinal);
    OpeningsAre(rows);
    hide Tallied, Openings, ActiveUnsettled;
  }

  /** Resuming a fold on later events keeps every episode named. */
  lemma {:induction false} ResumeNamed(ids: Identities, base: nat, st: State, rows: map<nat, Episode>,
                                       events: seq<Event>)
    requires IdsOk(ids, base) && Named(ids, base, st, rows) && ActiveUnsettled(st)
    requires WellKinded(events) && Sorted(events) && forall e :: e in events ==> Before(st.clock.last, e.order)
    ensures
      var step := Fold(ids, st, events);
      && ActiveUnsettled(step.state)
      && Named(ids, base, step.state, rows + step.writes.episodes)
      && step.state.clock.last == if |events| == 0 then st.clock.last else events[|events| - 1].order
    decreases |events|
  {
    hide Process, Named, IdsOk, ActiveUnsettled;
    if |events| == 0 {
      assert rows + NO_WRITES.episodes == rows;
    } else {
      var init, last := events[..|events| - 1], events[|events| - 1];
      assert last in events;
      ResumeNamed(ids, base, st, rows, init);
      var prior := Fold(ids, st, init);
      assert |init| > 0 ==> Before(events[|events| - 2].order, last.order);
      ProcessKeeps(ids, prior.state, last);
      ProcessNamed(ids, base, prior.state, rows + prior.writes.episodes, last);
      ProcessClock(ids, prior.state, last);
      var w := Process(ids, prior.state, last).writes.episodes;
      assert rows + (prior.writes.episodes + w) == rows + prior.writes.episodes + w;
    }
  }

  lemma ProcessClock(ids: Identities, st: State, e: Event)
    ensures Process(ids, st, e).state.clock.last == e.order
  {
    hide Entry, Attach, Book, CloseStep;
  }

  /** An append to named rows leaves named rows, which keep the ordinals of their openings. */
  lemma AppendNames(st: State, rows: map<nat, Episode>, events: seq<Event>)
    requires NamedRows(st, rows) && Appendable(st, events) && WellKinded(events) && Sorted(events)
    ensures
      var d := Derive(map[], st, events);
      var all := rows + d.writes.episodes;
      && NamedRows(d.state, all)
      && KeepsNames(Saved(st.episodes.ordinal, Openings(rows)), Saved(d.state.episodes.ordinal, Openings(all)))
  {
    hide Process, Named, ActiveUnsettled, IdsOk, KeepsNames, Openings, RowsNamed, Tallied;
    var ids, base := Openings(rows), st.episodes.ordinal;
    StoredIsNamed(st, rows);
    assert ActiveUnsettled(st);
    hide StateStored;
    var later := Prepared(events);
    PreparedKeeps(events);
    PreparedOrders(events);
    forall e | e in later
      ensures Before(st.clock.last, e.order) && SameAt(map[], ids, e.order)
    {
      var i :| 0 <= i < |later| && later[i] == e;
      assert events[i] in events;
      if e.order in ids {
        BeforeTransitive(e.order, st.clock.last, e.order);
      }
    }
    FoldUsesOnlyItsOrders(map[], ids, st, later);
    ResumeNamed(ids, base, st, rows, later);
    NamedFoldStores(ids, base, rows, Fold(ids, st, later));
  }

  /** A full replay leaves named rows, which keep the ordinals it restored. */
  lemma FullReplayNames(ids: Identities, base: nat, events: seq<Event>)
    requires IdsOk(ids, base) && Canonical(events)
    ensures
      var d := Replay(ids, base, events);
      && NamedRows(d.state, d.writes.episodes)
      && KeepsNames(Saved(base, ids), Saved(d.state.episodes.ordinal, Openings(d.writes.episodes)))
  {
    hide Process, Named, ActiveUnsettled, IdsOk, KeepsNames, Openings, NamedRows, Balanced, AttributedExists;
    ReplayInvariant(ids, base, events);
    var step := Fold(ids, NewState(events[0], base), Prepared(events));
    assert map[] + step.writes.episodes == step.writes.episodes;
    NamedFoldStores(ids, base, map[], step);
    assert map[] + Sealed(step).writes.episodes == Sealed(step).writes.episodes;
  }

  // ---------------------------------------------------------------- the ledger

  /** Names are in order, whether or not the published rows are right. */
  ghost predicate NamesInv(l: Ledger) {
    TablesOk(l) && forall k: Key :: NamesOk(l, k) && StoredOk(l, k)
  }

  lemma NamesOf(l: Ledger, k: Key)
    requires NamesInv(l)
    ensures TablesOk(l) && NamesOk(l, k) && StoredOk(l, k)
  {
  }

  lemma RestoredFrame(a: Ledger, b: Ledger, k: Key)
    requires SameRows(a.RowsOf(k), b.RowsOf(k)) && SameSaved(a.identities, b.identities, k)
    ensures Restored(a, k) == Restored(b, k)
  {
  }

  lemma NamesFrame(a: Ledger, b: Ledger, k: Key)
    requires SameRows(a.RowsOf(k), b.RowsOf(k)) && SameSaved(a.identities, b.identities, k)
    requires NamesOk(a, k) && StoredOk(a, k)
    ensures NamesOk(b, k) && StoredOk(b, k)
  {
    CoresEmpty(a.RowsOf(k).episodes);
    CoresEmpty(b.RowsOf(k).episodes);
    hide Cores, RowsNamed, StateStored, IdsOk;
  }

  /** What lands of `k`: named rows that keep every restored ordinal, or nothing at all. */
  lemma LandedNames(view: Ledger, k: Key)
    requires NamesInv(view)
    ensures
      var t := Landed(view, k);
      if t.position.None? then t.writes.episodes == map[] && view.Mapped(k) == {}
      else
        && NamedRows(t.position.value, t.writes.episodes)
        && KeepsNames(Restored(view, k), Saved(t.position.value.episodes.ordinal, Openings(t.writes.episodes)))
  {
    NamesOf(view, k);
    hide NamesInv;
    RestoredOk(view, k);
    if CanAppend(view, k) {
      NewAreStored(view, k);
      HistoryIds(view.events, NewIds(view, k));
      hide Derive, StateStored, RowsNamed;
      var rows := view.RowsOf(k);
      AppendNames(rows.position.value, Cores(rows.episodes), HistoryOf(view, NewIds(view, k)));
    } else {
      var ids := view.Mapped(k);
      assert ids <= view.events.Keys by {
        assert forall e :: e in ids ==> e in view.keyOf.Keys;
      }
      HistoryIds(view.events, ids);
      if ids != {} {
        hide Replay, StateStored, RowsNamed, NamesOk, StoredOk;
        FullReplayNames(Restored(view, k).openings, Restored(view, k).ordinal, HistoryOf(view, ids));
      }
    }
  }

  /** The names of the published position after its publish. */
  lemma PublishedNames(view: Ledger, now: Ledger, k: Key)
    requires NamesInv(view) && NamesInv(now) && Since(view, now, k) && view.epoch == now.epoch
    ensures
      var after := PublishStep(now, Preparation(view, k));
      && NamesOk(after, k) && StoredOk(after, k)
      && (view.Mapped(k) != {} ==> KeepsNames(Restored(now, k), Restored(after, k)))
  {
    var after := PublishStep(now, Preparation(view, k));
    RestoredFrame(view, now, k);
    NamesOf(now, k);
    if view.pending[k].costOnly {
      NamesFrame(now, after, k);
      RestoredFrame(now, after, k);
      KeepsItself(Restored(now, k));
    } else {
      LandedNames(view, k);
      RowsArrive(view, now, k);
      hide PublishStep, Preparation, Landed, StateStored, RowsNamed, NamesInv, Since, Restored, Openings;
      CoresEmpty(after.RowsOf(k).episodes);
      assert NamesOk(after, k) && StoredOk(after, k);
      RestoredOk(after, k);
    }
  }

  /** A publish of a position that still has an event keeps the ordinals of its episodes. */
  lemma PublishKeepsNames(view: Ledger, now: Ledger, k: Key)
    requires NamesInv(view) && NamesInv(now) && Since(view, now, k) && view.epoch == now.epoch
    requires view.Mapped(k) != {}
    ensures KeepsNames(Restored(now, k), Restored(PublishStep(now, Preparation(view, k)), k))
  {
    PublishedNames(view, now, k);
  }

  lemma RollbackKeepsNames(l: Ledger, ancestor: int, k: Key)
    requires NamesInv(l)
    ensures Restored(RollbackStep(l, ancestor), k) == Restored(l, k)
  {
    var after := RollbackStep(l, ancestor);
    NamesOf(l, k);
    RollbackFacts(l, ancestor, k);
    RestoredOk(l, k);
    if k in Reorged(l, ancestor) {
      ReorgedNames(l, ancestor, k);
      RestoredOk(after, k);
      ReorgedSaves(l, ancestor, k);
    } else {
      RestoredFrame(l, after, k);
    }
  }

  lemma ReorgedSaves(l: Ledger, ancestor: int, k: Key)
    requires NamesOk(l, k) && k in Reorged(l, ancestor)
    ensures
      var after := RollbackStep(l, ancestor);
      if l.RowsOf(k).position.Some? then k in after.identities && after.identities[k] == SavedOf(l.RowsOf(k))
      else l.RowsOf(k).episodes == map[] && SameSaved(l.identities, after.identities, k)
  {
    hide Reorged;
  }

  lemma RollbackNames(l: Ledger, ancestor: int, k: Key)
    requires NamesInv(l)
    ensures NamesOk(RollbackStep(l, ancestor), k) && StoredOk(RollbackStep(l, ancestor), k)
  {
    var after := RollbackStep(l, ancestor);
    NamesOf(l, k);
    RollbackFacts(l, ancestor, k);
    hide NamesInv, RollbackStep, Reorged;
    if k in Reorged(l, ancestor) {
      ReorgedNames(l, ancestor, k);
    } else {
      NamesFrame(l, after, k);
    }
  }

  // ---------------------------------------------------------------- every action

  ghost predicate PreparedNames(s: System, k: Key)
    requires k in s.outstanding
  {
    var view := s.outstanding[k];
    && NamesInv(view) && k in view.pending && view.epoch <= s.ledger.epoch
    && (view.epoch == s.ledger.epoch ==> Since(view, s.ledger, k))
  }

  ghost predicate SystemNames(s: System) {
    NamesInv(s.ledger) && forall k :: k in s.outstanding ==> PreparedNames(s, k)
  }

  /** The publish, if any, that this action commits finds its position with an event left. */
  ghost predicate KeepsAnEvent(s: System, a: Action, k: Key)
    requires Enabled(s, a)
  {
    a == Publish(k) ==> s.outstanding[k].Mapped(k) != {}
  }

  lemma TablesStep(s: System, a: Action)
    requires TablesOk(s.ledger) && Enabled(s, a)
    ensures TablesOk(Next(s, a).ledger)
  {
    match a
    case Apply(batch) => ApplyFacts(s.ledger, batch, 0);
    case Publish(k) => PublishTables(s.ledger, Preparation(s.outstanding[k], k));
    case Rollback(ancestor) => RollbackFacts(s.ledger, ancestor, 0);
    case Revalue(k, n, derived) => RevalueFacts(s.ledger, k, n, derived, 0);
    case _ =>
  }

  /** Actions other than a rollback or a publish of the position leave its rows and names alone. */
  lemma QuietStep(s: System, a: Action, k: Key)
    requires Enabled(s, a) && !a.Rollback? && a != Publish(k)
    ensures SameRows(s.ledger.RowsOf(k), Next(s, a).ledger.RowsOf(k))
    ensures SameSaved(s.ledger.identities, Next(s, a).ledger.identities, k)
  {
    match a
    case Apply(batch) => assert ApplyStep(s.ledger, batch).RowsOf(k) == s.ledger.RowsOf(k);
    case Publish(j) => PublishTables(s.ledger, Preparation(s.outstanding[j], j));
    case Revalue(j, n, derived) => RevalueFacts(s.ledger, j, n, derived, k);
    case _ =>
  }

  lemma NamesStep(s: System, a: Action, k: Key)
    requires SystemNames(s) && Enabled(s, a)
    ensures NamesOk(Next(s, a).ledger, k) && StoredOk(Next(s, a).ledger, k)
    ensures KeepsAnEvent(s, a, k) ==> KeepsNames(Restored(s.ledger, k), Restored(Next(s, a).ledger, k))
  {
    hide NamesInv, Since, Restored, KeepsNames, NamesOk, StoredOk, RollbackStep, PublishStep, Preparation;
    var l, after := s.ledger, Next(s, a).ledger;
    NamesOf(l, k);
    KeepsItself(Restored(l, k));
    if a.Rollback? {
      RollbackNames(l, a.ancestor, k);
      RollbackKeepsNames(l, a.ancestor, k);
    } else if a == Publish(k) {
      assert PreparedNames(s, k);
      if s.outstanding[k].epoch == l.epoch {
        PublishedNames(s.outstanding[k], l, k);
      } else {
        LatePublish(s.outstanding[k], l, k);
      }
    } else {
      QuietStep(s, a, k);
      NamesFrame(l, after, k);
      RestoredFrame(l, after, k);
    }
  }

  lemma LatePublish(view: Ledger, now: Ledger, k: Key)
    requires k in view.pending && view.epoch != now.epoch
    ensures PublishStep(now, Preparation(view, k)) == now
  {
  }

  lemma PreparedStep(s: System, a: Action, k: Key)
    requires SystemNames(s) && Enabled(s, a) && k in Next(s, a).outstanding
    ensures PreparedNames(Next(s, a), k)
  {
    OutstandingStep(s, a, k);
    EpochStep(s, a);
    NamesOf(s.ledger, k);
    hide NamesInv, Since, Next, Enabled;
    if k in s.outstanding {
      assert PreparedNames(s, k);
      NamesOf(s.outstanding[k], k);
      if s.outstanding[k].epoch == s.ledger.epoch && !a.Rollback? {
        SinceStep(s.outstanding[k], s, a, k);
      }
    } else {
      SinceItself(s.ledger, k);
    }
  }

  lemma StepKeepsNames(s: System, a: Action)
    requires SystemNames(s) && Enabled(s, a)
    ensures SystemNames(Next(s, a))
  {
    hide Next, Enabled, PreparedNames, NamesOk, StoredOk;
    NamesOf(s.ledger, 0);
    TablesStep(s, a);
    forall k: Key
      ensures NamesOk(Next(s, a).ledger, k) && StoredOk(Next(s, a).ledger, k)
    {
      NamesStep(s, a, k);
    }
    forall k | k in Next(s, a).outstanding
      ensures PreparedNames(Next(s, a), k)
    {
      PreparedStep(s, a, k);
    }
  }

  // ---------------------------------------------------------------- whole runs

  lemma {:induction false} RunNames(states: seq<System>, actions: seq<Action>, i: nat)
    requires IsRun(states, actions) && i < |states|
    ensures SystemNames(states[i])
  {
    hide Next, Enabled;
    if i > 0 {
      RunNames(states, actions, i - 1);
      StepKeepsNames(states[i - 1], actions[i - 1]);
    }
  }

  lemma RunStepKeepsNames(states: seq<System>, actions: seq<Action>, i: nat, k: Key)
    requires IsRun(states, actions) && i < |actions| && KeepsAnEvent(states[i], actions[i], k)
    ensures KeepsNames(Restored(states[i].ledger, k), Restored(states[i + 1].ledger, k))
  {
    hide Next, Enabled, SystemNames, KeepsNames, Restored;
    RunNames(states, actions, i);
    NamesStep(states[i], actions[i], k);
  }

  lemma RunIdsOk(states: seq<System>, actions: seq<Action>, i: nat, k: Key)
    requires IsRun(states, actions) && i < |states|
    ensures IdsOk(Restored(states[i].ledger, k).openings, Restored(states[i].ledger, k).ordinal)
  {
    hide Next, Enabled, PreparedNames, Restored, IdsOk;
    RunNames(states, actions, i);
    NamesOf(states[i].ledger, k);
    RestoredOk(states[i].ledger, k);
  }

  /**
   Episode identities survive: over any stretch of any run in which the position is never
   published without events, an opening known at every state of the stretch keeps its ordinal,
   and an ordinal first given out at its end exceeds every ordinal known at its start.
   */
  lemma {:induction false} IdentitiesSurviveRuns(states: seq<System>, actions: seq<Action>, i: nat, j: nat, k: Key,
                                                 o: Order)
    requires IsRun(states, actions) && i <= j <= |actions|
    requires forall m :: i <= m < j ==> KeepsAnEvent(states[m], actions[m], k)
    ensures
      var first, last := Restored(states[i].ledger, k), Restored(states[j].ledger, k);
      && first.ordinal <= last.ordinal
      && ((forall m :: i <= m <= j ==> o in Restored(states[m].ledger, k).openings) ==>
          last.openings[o] == first.openings[o])
      && (i < j && o in last.openings && o !in Restored(states[j - 1].ledger, k).openings ==>
            && first.ordinal < last.openings[o]
            && forall p :: p in first.openings ==> first.openings[p] < last.openings[o])
    decreases j
  {
    hide Restored, Next, Enabled, KeepsAnEvent;
    RunIdsOk(states, actions, i, k);
    if i < j {
      IdentitiesSurviveRuns(states, actions, i, j - 1, k, o);
      RunStepKeepsNames(states, actions, j - 1, k);
      assert KeepsNames(Restored(states[j - 1].ledger, k), Restored(states[j].ledger, k));
    }
  }
}
