/**
 The ledger as the object that owns its tables: each method updates them in place and is tied
 to the corresponding step of the step system.
 */
module Accounting {
  import opened Common
  import opened PositionModel
  import opened AppendProofs
  import opened EpisodeProofs
  import opened PositionReplay
  import opened Histories
  import opened ReplayDiff
  import opened EffectDiff
  import opened ReplayFlush
  import opened DeferredLedger
  import opened LedgerProofs

  /** The batch that a list of changes stands for. */
  function BatchOf(changes: seq<Change>): Batch
    decreases |changes|
  {
    if |changes| == 0 then map[]
    else
      var last := changes[|changes| - 1];
      BatchOf(changes[..|changes| - 1])[last.event.id := last]
  }

  predicate DistinctChanges(changes: seq<Change>) {
    forall i, j :: 0 <= i < j < |changes| ==> changes[i].event.id != changes[j].event.id
  }

  lemma {:induction false} BatchEntries(changes: seq<Change>)
    requires DistinctChanges(changes)
    ensures forall i :: 0 <= i < |changes| ==>
                        changes[i].event.id in BatchOf(changes) && BatchOf(changes)[changes[i].event.id] == changes[i]
    ensures forall e :: e in BatchOf(changes) ==> exists i :: 0 <= i < |changes| && changes[i].event.id == e
    decreases |changes|
  {
    if |changes| > 0 {
      var init := changes[..|changes| - 1];
      BatchEntries(init);
      forall e | e in BatchOf(changes)
        ensures exists i :: 0 <= i < |changes| && changes[i].event.id == e
      {
        if e in BatchOf(init) {
          var i :| 0 <= i < |init| && init[i].event.id == e;
          assert changes[i].event.id == e;
        } else {
          assert changes[|changes| - 1].event.id == e;
        }
      }
    }
  }

  // ---------------------------------------------------------------- proofs gathered event by event

  /** The positions one change touches: the one it was mapped to and the one it names now. */
  function EventKeys(keyOf: map<int, Key>, c: Change): set<Key> {
    (if c.event.id in keyOf then {keyOf[c.event.id]} else {}) + (if c.key.Some? then {c.key.value} else {})
  }

  predicate AppendOk(keyOf: map<int, Key>, effects: Effects, c: Change, k: Key) {
    c.event.id !in keyOf && c.event.id !in effects && c.key == Some(k)
  }

  predicate CostOk(keyOf: map<int, Key>, effects: Effects, c: Change, k: Key) {
    c.receiptOnly && c.event.id in keyOf && keyOf[c.event.id] == k && c.key == Some(k) && c.event.id in effects
  }

  lemma ProofsFurther(l: Ledger, batch: Batch, c: Change, k: Key)
    requires c.event.id !in batch
    ensures
      var further := batch[c.event.id := c];
      && TouchedKeys(l, further) == TouchedKeys(l, batch) + EventKeys(l.keyOf, c)
      && (AppendProof(l, further, k)
          <==> AppendProof(l, batch, k) && (k in EventKeys(l.keyOf, c) ==> AppendOk(l.keyOf, l.effects, c, k)))
      && (CostProof(l, further, k)
          <==> CostProof(l, batch, k) && (k in EventKeys(l.keyOf, c) ==> CostOk(l.keyOf, l.effects, c, k)))
  {
    var further := batch[c.event.id := c];
    assert forall e | e in batch :: Touches(l, further, e, k) <==> Touches(l, batch, e, k);
    assert Touches(l, further, c.event.id, k) <==> k in EventKeys(l.keyOf, c);
    TouchedFurther(l, batch, c);
    hide TouchedKeys;
    if AppendProof(l, further, k) {
      assert AppendProof(l, batch, k);
    }
    if CostProof(l, further, k) {
      assert CostProof(l, batch, k);
    }
  }

  lemma TouchedFurther(l: Ledger, batch: Batch, c: Change)
    requires c.event.id !in batch
    ensures TouchedKeys(l, batch[c.event.id := c]) == TouchedKeys(l, batch) + EventKeys(l.keyOf, c)
  {
    var further := batch[c.event.id := c];
    forall k
      ensures k in TouchedKeys(l, further) <==> k in TouchedKeys(l, batch) + EventKeys(l.keyOf, c)
    {
      TouchedBy(l, batch, k);
      TouchedBy(l, further, k);
      if e :| e in batch && Touches(l, batch, e, k) {
        StillTouches(l, batch, c, e, k);
      }
      if e :| e in further && Touches(l, further, e, k) {
        StillTouches(l, batch, c, e, k);
      }
      StillTouches(l, batch, c, c.event.id, k);
    }
  }

  lemma TouchedBy(l: Ledger, batch: Batch, k: Key)
    ensures k in TouchedKeys(l, batch) <==> exists e :: e in batch && Touches(l, batch, e, k)
  {
    if k in TouchedKeys(l, batch) {
      if e :| e in batch && e in l.keyOf && l.keyOf[e] == k {
        assert Touches(l, batch, e, k);
      } else {
        var e :| e in batch && batch[e].key == Some(k);
        assert Touches(l, batch, e, k);
      }
    }
  }

  lemma StillTouches(l: Ledger, batch: Batch, c: Change, e: int, k: Key)
    requires c.event.id !in batch
    ensures Touches(l, batch[c.event.id := c], e, k)
       <==> if e == c.event.id then k in EventKeys(l.keyOf, c) else Touches(l, batch, e, k)
  {
  }

  /** The proofs the batch gives, one flag for every touched position. */
  ghost function AppendFlags(l: Ledger, batch: Batch): map<Key, bool> {
    map k | k in TouchedKeys(l, batch) :: AppendProof(l, batch, k)
  }

  ghost function CostFlags(l: Ledger, batch: Batch): map<Key, bool> {
    map k | k in TouchedKeys(l, batch) :: CostProof(l, batch, k)
  }

  lemma UntouchedProofs(l: Ledger, batch: Batch, k: Key)
    requires k !in TouchedKeys(l, batch)
    ensures AppendProof(l, batch, k) && CostProof(l, batch, k)
  {
  }

  /** The flags once another change has been read. */
  function AppendFlagsAfter(flags: map<Key, bool>, keyOf: map<int, Key>, effects: Effects, c: Change): map<Key, bool> {
    flags + map k | k in EventKeys(keyOf, c) :: (k in flags ==> flags[k]) && AppendOk(keyOf, effects, c, k)
  }

  function CostFlagsAfter(flags: map<Key, bool>, keyOf: map<int, Key>, effects: Effects, c: Change): map<Key, bool> {
    flags + map k | k in EventKeys(keyOf, c) :: (k in flags ==> flags[k]) && CostOk(keyOf, effects, c, k)
  }

  lemma FlagsAt(l: Ledger, batch: Batch, k: Key)
    ensures k in AppendFlags(l, batch) <==> k in TouchedKeys(l, batch)
    ensures k in CostFlags(l, batch) <==> k in TouchedKeys(l, batch)
    ensures k in TouchedKeys(l, batch) ==> AppendFlags(l, batch)[k] == AppendProof(l, batch, k)
    ensures k in TouchedKeys(l, batch) ==> CostFlags(l, batch)[k] == CostProof(l, batch, k)
  {
    hide TouchedKeys, AppendProof, CostProof;
  }

  lemma FlagsAfterAt(flags: map<Key, bool>, keyOf: map<int, Key>, effects: Effects, c: Change, k: Key)
    ensures k in AppendFlagsAfter(flags, keyOf, effects, c) <==> k in flags || k in EventKeys(keyOf, c)
    ensures k in CostFlagsAfter(flags, keyOf, effects, c) <==> k in flags || k in EventKeys(keyOf, c)
    ensures k in flags || k in EventKeys(keyOf, c) ==>
              AppendFlagsAfter(flags, keyOf, effects, c)[k]
              == ((k in flags ==> flags[k]) && (k in EventKeys(keyOf, c) ==> AppendOk(keyOf, effects, c, k)))
    ensures k in flags || k in EventKeys(keyOf, c) ==>
              CostFlagsAfter(flags, keyOf, effects, c)[k]
              == ((k in flags ==> flags[k]) && (k in EventKeys(keyOf, c) ==> CostOk(keyOf, effects, c, k)))
  {
    hide EventKeys, AppendOk, CostOk;
  }

  lemma FlagsFurtherAt(l: Ledger, batch: Batch, c: Change, k: Key)
    requires c.event.id !in batch
    ensures
      var after, goal := AppendFlags(l, batch[c.event.id := c]),
          AppendFlagsAfter(AppendFlags(l, batch), l.keyOf, l.effects, c);
      (k in after <==> k in goal) && (k in after ==> after[k] == goal[k])
    ensures
      var after, goal := CostFlags(l, batch[c.event.id := c]),
          CostFlagsAfter(CostFlags(l, batch), l.keyOf, l.effects, c);
      (k in after <==> k in goal) && (k in after ==> after[k] == goal[k])
  {
    TouchedFurther(l, batch, c);
    ProofsFurther(l, batch, c, k);
    FlagsAt(l, batch, k);
    FlagsAt(l, batch[c.event.id := c], k);
    FlagsAfterAt(AppendFlags(l, batch), l.keyOf, l.effects, c, k);
    FlagsAfterAt(CostFlags(l, batch), l.keyOf, l.effects, c, k);
    hide AppendProof, CostProof, TouchedKeys, AppendOk, CostOk, EventKeys, AppendFlags, CostFlags, AppendFlagsAfter,
      CostFlagsAfter;
    if k !in TouchedKeys(l, batch) {
      UntouchedProofs(l, batch, k);
    }
  }

  lemma FlagsFurther(l: Ledger, batch: Batch, c: Change)
    requires c.event.id !in batch
    ensures AppendFlags(l, batch[c.event.id := c]) == AppendFlagsAfter(AppendFlags(l, batch), l.keyOf, l.effects, c)
    ensures CostFlags(l, batch[c.event.id := c]) == CostFlagsAfter(CostFlags(l, batch), l.keyOf, l.effects, c)
  {
    hide AppendFlags, CostFlags, AppendFlagsAfter, CostFlagsAfter;
    forall k: Key {
      FlagsFurtherAt(l, batch, c, k);
    }
  }

  /** The mapping rows of a batch: those it writes, and those it deletes. */
  function MappedRows(batch: Batch): map<int, Key> {
    map e | e in batch && batch[e].key.Some? :: batch[e].key.value
  }

  lemma MappedFurther(batch: Batch, c: Change)
    requires c.event.id !in batch
    ensures
      var further := batch[c.event.id := c];
      && BatchEvents(further) == BatchEvents(batch)[c.event.id := c.event]
      && MappedRows(further) == if c.key.Some? then MappedRows(batch)[c.event.id := c.key.value] else MappedRows(batch)
  {
    var further := batch[c.event.id := c];
    assert forall e :: e in batch ==> further[e] == batch[e];
  }

  lemma PrefixBatch(changes: seq<Change>, i: nat)
    requires DistinctChanges(changes) && i < |changes|
    ensures BatchOf(changes[..i + 1]) == BatchOf(changes[..i])[changes[i].event.id := changes[i]]
    ensures changes[i].event.id !in BatchOf(changes[..i])
  {
    assert changes[..i + 1][..i] == changes[..i];
    BatchEntries(changes[..i]);
  }

  lemma RemappedBy(keyOf: map<int, Key>, batch: Batch, changed: set<int>)
    requires changed == batch.Keys
    ensures keyOf - (changed - MappedRows(batch).Keys) + MappedRows(batch) == Remapped(keyOf, batch)
  {
  }

  // ---------------------------------------------------------------- queue rows

  predicate Flag(flags: map<Key, bool>, k: Key) {
    k in flags && flags[k]
  }

  /** The queue once rows of generation zero have been inserted for those of `keys` that had none. */
  function Inserted(pending: map<Key, Pending>, keys: set<Key>, append: map<Key, bool>,
                    cost: map<Key, bool>): map<Key, Pending> {
    pending + map k | k in keys && k !in pending :: Pending(0, Flag(append, k), Flag(cost, k))
  }

  function Bump(row: Pending, append: bool, cost: bool): Pending {
    Pending(row.generation + 1, row.appendOnly && append, row.costOnly && cost)
  }

  function Bumped(pending: map<Key, Pending>, keys: set<Key>, append: map<Key, bool>,
                  cost: map<Key, bool>): map<Key, Pending> {
    pending + map k | k in keys && k in pending :: Bump(pending[k], Flag(append, k), Flag(cost, k))
  }

  lemma InsertedFurther(pending: map<Key, Pending>, keys: set<Key>, append: map<Key, bool>, cost: map<Key, bool>,
                        k: Key)
    requires k !in keys
    ensures Inserted(pending, keys + {k}, append, cost)
         == if k in pending then Inserted(pending, keys, append, cost)
            else Inserted(pending, keys, append, cost)[k := Pending(0, Flag(append, k), Flag(cost, k))]
    ensures k in pending <==> k in Inserted(pending, keys, append, cost)
  {
  }

  lemma BumpedFurther(pending: map<Key, Pending>, keys: set<Key>, append: map<Key, bool>, cost: map<Key, bool>, k: Key)
    requires k !in keys && k in pending
    ensures Bumped(pending, keys + {k}, append, cost)
         == Bumped(pending, keys, append, cost)[k := Bump(pending[k], Flag(append, k), Flag(cost, k))]
    ensures k in Bumped(pending, keys, append, cost) && Bumped(pending, keys, append, cost)[k] == pending[k]
  {
  }

  lemma InsertedAt(pending: map<Key, Pending>, keys: set<Key>, append: map<Key, bool>, cost: map<Key, bool>, k: Key)
    ensures k in Inserted(pending, keys, append, cost) <==> k in pending || k in keys
    ensures k in pending ==> Inserted(pending, keys, append, cost)[k] == pending[k]
    ensures k !in pending && k in keys ==>
        Inserted(pending, keys, append, cost)[k] == Pending(0, Flag(append, k), Flag(cost, k))
  {
  }

  lemma BumpedAt(pending: map<Key, Pending>, keys: set<Key>, append: map<Key, bool>, cost: map<Key, bool>, k: Key)
    ensures k in Bumped(pending, keys, append, cost) <==> k in pending
    ensures k in pending && k in keys ==>
        Bumped(pending, keys, append, cost)[k] == Bump(pending[k], Flag(append, k), Flag(cost, k))
    ensures k in pending && k !in keys ==> Bumped(pending, keys, append, cost)[k] == pending[k]
  {
  }

  lemma NoneQueued(pending: map<Key, Pending>, append: map<Key, bool>, cost: map<Key, bool>)
    ensures Inserted(pending, {}, append, cost) == pending && Bumped(pending, {}, append, cost) == pending
  {
  }

  /** Inserting and then bumping is requeueing. */
  lemma InsertThenBump(pending: map<Key, Pending>, keys: set<Key>, append: map<Key, bool>, cost: map<Key, bool>)
    ensures Bumped(Inserted(pending, keys, append, cost), keys, append, cost)
         == pending + map k | k in keys :: Requeued(pending, k, Flag(append, k), Flag(cost, k))
    ensures keys <= Inserted(pending, keys, append, cost).Keys
  {
    var inserted := Inserted(pending, keys, append, cost);
    var bumped := Bumped(inserted, keys, append, cost);
    var goal := pending + map k | k in keys :: Requeued(pending, k, Flag(append, k), Flag(cost, k));
    hide Inserted, Bumped, Flag;
    forall k
      ensures k in bumped <==> k in goal
      ensures k in bumped ==> bumped[k] == goal[k]
      ensures k in keys ==> k in inserted
    {
      InsertedAt(pending, keys, append, cost, k);
      BumpedAt(inserted, keys, append, cost, k);
    }
  }

  // ---------------------------------------------------------------- the book

  class AccountBook {
    var events: map<int, Event>
    var keyOf: map<int, Key>
    var pending: map<Key, Pending>
    var rows: map<Key, Rows>
    var effects: Effects
    var identities: map<Key, Saved>
    var epoch: nat

    ghost function Tables(): Ledger
      reads this
    {
      Ledger(events, keyOf, pending, rows, effects, identities, epoch)
    }

    constructor ()
      ensures Tables() == EMPTY_LEDGER
    {
      events, keyOf, pending, rows, effects, identities, epoch := map[], map[], map[], map[], map[], map[], 0;
    }

    /** Insert missing queue rows, then bump every one of them and keep only repeated proofs. */
    method QueuePositionKeys(keys: set<Key>, append: map<Key, bool>, cost: map<Key, bool>)
      modifies this`pending
      ensures pending == old(pending) + map k | k in keys :: Requeued(old(pending), k, Flag(append, k), Flag(cost, k))
    {
      ghost var queued, done: set<Key> := pending, {};
      InsertThenBump(queued, keys, append, cost);
      NoneQueued(queued, append, cost);
      NoneQueued(Inserted(queued, keys, append, cost), append, cost);
      hide Inserted, Bumped, Requeued, Flag;
      var todo := keys;
      while todo != {}
        invariant todo == keys - done && done <= keys
        invariant pending == Inserted(queued, done, append, cost)
        decreases |todo|
      {
        PickableKey(todo);
        var k :| k in todo;
        InsertedFurther(queued, done, append, cost, k);
        if k !in pending {
          pending := pending[k := Pending(0, Flag(append, k), Flag(cost, k))];
        }
        todo, done := todo - {k}, done + {k};
      }
      assert done == keys;
      ghost var inserted := pending;
      todo, done := keys, {};
      while todo != {}
        invariant todo == keys - done && done <= keys
        invariant pending == Bumped(inserted, done, append, cost)
        decreases |todo|
      {
        PickableKey(todo);
        var k :| k in todo;
        BumpedFurther(inserted, done, append, cost, k);
        pending := pending[k := Bump(pending[k], Flag(append, k), Flag(cost, k))];
        todo, done := todo - {k}, done + {k};
      }
      assert done == keys;
    }

    /** Store a batch of changed events, remap them, and queue every position they touch. */
    method Apply(changes: seq<Change>)
      requires DistinctChanges(changes)
      modifies this
      ensures Tables() == ApplyStep(old(Tables()), BatchOf(changes))
    {
      ghost var l := Tables();
      var touched: set<Key>, appendProofs: map<Key, bool>, costProofs: map<Key, bool> := {}, map[], map[];
      var stored: map<int, Event>, mapped: map<int, Key> := map[], map[];
      NothingRead(l, changes);
      hide AppendFlags, CostFlags, TouchedKeys, BatchEvents, MappedRows, AppendFlagsAfter, CostFlagsAfter, EventKeys,
        BatchOf, ApplyStep;
      var i := 0;
      while i < |changes|
        invariant 0 <= i <= |changes| && Tables() == l
        invariant touched == TouchedKeys(l, BatchOf(changes[..i]))
        invariant appendProofs == AppendFlags(l, BatchOf(changes[..i]))
        invariant costProofs == CostFlags(l, BatchOf(changes[..i]))
        invariant stored == BatchEvents(BatchOf(changes[..i]))
        invariant mapped == MappedRows(BatchOf(changes[..i]))
      {
        var c := changes[i];
        PrefixBatch(changes, i);
        TouchedFurther(l, BatchOf(changes[..i]), c);
        FlagsFurther(l, BatchOf(changes[..i]), c);
        MappedFurther(BatchOf(changes[..i]), c);
        touched := touched + EventKeys(keyOf, c);
        appendProofs := AppendFlagsAfter(appendProofs, keyOf, effects, c);
        costProofs := CostFlagsAfter(costProofs, keyOf, effects, c);
        stored := stored[c.event.id := c.event];
        if c.key.Some? {
          mapped := mapped[c.event.id := c.key.value];
        }
        i := i + 1;
      }
      assert changes[..i] == changes;
      ApplyLands(l, BatchOf(changes));
      events := events + stored;
      keyOf := keyOf - (stored.Keys - mapped.Keys) + mapped;
      QueuePositionKeys(touched, appendProofs, costProofs);
    }

    /** The events with these ids, in chain order. */
    method EventRows(ids: set<int>) returns (h: seq<Event>)
      requires TablesOk(Tables()) && ids <= events.Keys
      ensures h == HistoryOf(Tables(), ids)
    {
      h := [];
      var todo := ids;
      while todo != {}
        invariant todo <= ids
        invariant IsHistory(Picked(events, ids - todo), h)
        decreases |todo|
      {
        Pickable(todo);
        var id :| id in todo;
        var i := 0;
        while i < |h| && Before(h[i].order, events[id].order)
          invariant 0 <= i <= |h|
          invariant forall j :: 0 <= j < i ==> Before(h[j].order, events[id].order)
        {
          i := i + 1;
        }
        InsertedHistory(events, ids - todo, id, h, i);
        assert ids - (todo - {id}) == ids - todo + {id};
        h := h[..i] + [events[id]] + h[i..];
        todo := todo - {id};
      }
      assert ids - {} == ids;
      HistoryUnique(Picked(events, ids), h, History(events, ids));
    }

    /** The ordinals to restore: saved ones first, then those of the published rows. */
    method RestoreIdentities(k: Key) returns (restored: Saved)
      requires NamesOk(Tables(), k)
      ensures restored == Restored(Tables(), k)
    {
      ghost var l := Tables();
      var published := if k in rows then rows[k] else NO_ROWS;
      PublishedNames(l, k);
      hide Restored, Openings, Cores, OpeningsRead, NamesOk, DistinctRows;
      var openings, ordinal := map[], 0;
      if published.position.Some? {
        ordinal := published.position.value.episodes.ordinal;
      }
      if k in identities {
        ordinal, openings := Larger(ordinal, identities[k].ordinal), identities[k].openings;
      }
      assert StoredNames(l, k) == Saved(ordinal, openings);
      openings, ordinal := ReadOpenings(published.episodes, openings, ordinal);
      restored := Saved(ordinal, openings);
    }

    /** The rows of an append, unless it has to give way to a full replay. */
    method AppendPosition(k: Key, ids: set<int>) returns (t: Option<Target>)
      requires TablesOk(Tables()) && Tables().Appending(k) && ids == NewIds(Tables(), k)
      ensures t == if CanAppend(Tables(), k) then Some(Computed(Tables(), k)) else None
    {
      hide Derive, TablesOk;
      var position := if k in rows then rows[k].position else None;
      if ids == {} || position.None? {
        return None;
      }
      NewAreStored(Tables(), k);
      var h := EventRows(ids);
      var i := 0;
      while i < |h|
        invariant 0 <= i <= |h|
        invariant Appendable(position.value, h[..i])
      {
        if !Before(position.value.clock.last, h[i].order) || h[i].order.block == position.value.clock.last.block {
          assert h[i] in h;
          return None;
        }
        i := i + 1;
      }
      assert h[..i] == h;
      var appended := DerivePosition(map[], position.value, h);
      return Some(appended);
    }

    /** Compute the diff of a queued position on the tables as they stand. */
    method PreparePending(k: Key) returns (p: Option<Projection>)
      requires TablesOk(Tables()) && NamesOk(Tables(), k)
      ensures p == if k in pending then Some(Preparation(Tables(), k)) else None
    {
      hide Computed, CanAppend, NamesOk, ChangedEpisodes, ChangedOwnership, ChangedEffects, StaleEffects, GasChanged;
      if k !in pending {
        return None;
      }
      if pending[k].costOnly {
        return Some(Projection(k, pending[k].generation, epoch, None));
      }
      var published := if k in rows then rows[k] else NO_ROWS;
      var target: Option<Target> := None;
      if pending[k].appendOnly {
        var ids := set e | e in keyOf && keyOf[e] == k && e !in effects;
        target := AppendPosition(k, ids);
      }
      var append := target.Some?;
      ComputedEither(Tables(), k);
      if target.None? {
        var replayed := ReplayPosition(k);
        target := Some(replayed);
      }
      var t := target.value;
      var stale, changed, _ := DiffEffects(effects, k, t.writes.effects, append);
      return Some(Projection(k, pending[k].generation, epoch, Some(Diff(
        !append && t.position.None? && published.position.Some?,
        if t.position != published.position then t.position else None,
        if append then {} else published.episodes.Keys - t.writes.episodes.Keys,
        ChangedEpisodes(published.episodes, t.writes.episodes),
        if append then {} else published.ownership.Keys - t.writes.ownership.Keys,
        ChangedOwnership(published.ownership, t.writes.ownership),
        stale, changed))));
    }

    /** A full replay of the events now mapped to the position. */
    method ReplayPosition(k: Key) returns (t: Target)
      requires TablesOk(Tables()) && NamesOk(Tables(), k)
      ensures t == Result(Restored(Tables(), k).openings, Restored(Tables(), k).ordinal,
                          HistoryOf(Tables(), Tables().Mapped(k)))
    {
      hide Derive, Restored, NamesOk;
      var ids := set e | e in keyOf && keyOf[e] == k;
      MappedAreStored(Tables(), k);
      var h := EventRows(ids);
      if |h| == 0 {
        return NO_TARGET;
      }
      var restored := RestoreIdentities(k);
      t := DerivePosition(restored.openings, NewState(h[0], restored.ordinal), h);
    }

    /**
     Commit a projection that may have been prepared on an older snapshot; its queue row goes
     only if nothing has queued the position again since.
     */
    method PublishPending(p: Projection) returns (published: bool)
      modifies this`rows, this`effects, this`identities, this`pending
      ensures Tables() == PublishStep(old(Tables()), p)
      ensures published == (p.epoch == old(epoch) && p.key in old(pending))
    {
      hide FlushRows, FlushEffects;
      if epoch != p.epoch || p.key !in pending {
        return false;
      }
      if p.diff.Some? {
        var existing := if p.key in rows then rows[p.key] else NO_ROWS;
        var written;
        written, effects := Flush(existing, effects, keyOf, p.key, p.diff.value);
        rows := rows[p.key := written];
        identities := identities - {p.key};
      }
      if pending[p.key].generation == p.generation {
        pending := pending - {p.key};
      }
      return true;
    }

    /** Save the identities of positions whose rows are about to go. */
    method SaveIdentities(keys: set<Key>)
      requires NamesAll(Tables())
      modifies this`identities
      ensures identities == old(identities) + SavedRows(old(Tables()), keys)
    {
      ghost var l := Tables();
      hide SavedRows, SavedOf, NamesAll, NamesOk, OpeningsRead, DistinctRows, Openings, Cores;
      var todo := keys;
      ghost var kept: set<Key> := {};
      NoneSaved(l);
      while todo != {}
        invariant todo == keys - kept && kept <= keys
        invariant identities == l.identities + SavedRows(l, kept)
        decreases |todo|
      {
        PickableKey(todo);
        var k :| k in todo;
        SavedFurther(l, kept, k);
        var published := if k in rows then rows[k] else NO_ROWS;
        assert published == l.RowsOf(k);
        if published.position.Some? {
          RowsNamedAt(l, k);
          var openings, ordinal := ReadOpenings(published.episodes, map[], published.position.value.episodes.ordinal);
          AddSaved(l.identities, SavedRows(l, kept), k, Saved(ordinal, openings));
          identities := identities[k := Saved(ordinal, openings)];
        }
        todo, kept := todo - {k}, kept + {k};
      }
      assert kept == keys;
    }

    /** The positions a reorganisation touches. */
    method ReorgedKeys(ancestor: int) returns (keys: set<Key>)
      ensures keys == Reorged(Tables(), ancestor)
    {
      keys :=
        (set e | e in keyOf && e in events && events[e].order.block > ancestor :: keyOf[e])
        + (set e | e in effects && effects[e].row.order.block > ancestor :: effects[e].key)
        + (set k | k in rows && rows[k].position.Some? && rows[k].position.value.clock.last.block > ancestor);
    }

    /** Remove everything above the common ancestor, and queue whatever it had touched. */
    method RollbackDeferred(ancestor: int)
      requires NamesAll(Tables())
      modifies this
      ensures Tables() == RollbackStep(old(Tables()), ancestor)
    {
      ghost var l := Tables();
      hide Reorged, SavedRows, NamesAll, Requeued, RequeuedAll, EventsUpTo, MappingsUpTo, EffectsOutside;
      var keys := ReorgedKeys(ancestor);
      QueuePositionKeys(keys, map[], map[]);
      NoFlags(l.pending, keys);
      keyOf := MappingsUpTo(keyOf, events, ancestor);
      SameRowsNamed(l, Tables(), keys);
      SaveIdentities(keys);
      effects := EffectsOutside(effects, keys);
      rows := rows - keys;
      events := EventsUpTo(events, ancestor);
      epoch := epoch + 1;
    }
  }

  /** The openings of the rows `seen` have been entered over the saved ones. */
  ghost predicate OpeningsRead(episodes: map<nat, Valued>, seen: set<nat>, saved: Identities, openings: Identities)
    requires seen <= episodes.Keys
  {
    && (forall n :: n in seen ==> episodes[n].row.openOrder in openings && openings[episodes[n].row.openOrder] == n)
    && (forall o :: o in saved ==> o in openings)
    && (forall o :: o in openings ==>
          (exists n :: n in seen && episodes[n].row.openOrder == o) || (o in saved && openings[o] == saved[o]))
  }

  ghost predicate DistinctRows(episodes: map<nat, Valued>) {
    forall n, m :: n in episodes && m in episodes && n != m ==> episodes[n].row.openOrder != episodes[m].row.openOrder
  }

  lemma ReadOpening(episodes: map<nat, Valued>, seen: set<nat>, saved: Identities, openings: Identities, n: nat)
    requires DistinctRows(episodes) && seen <= episodes.Keys && n in episodes && n !in seen
    requires OpeningsRead(episodes, seen, saved, openings)
    ensures OpeningsRead(episodes, seen + {n}, saved, openings[episodes[n].row.openOrder := n])
  {
    var further := openings[episodes[n].row.openOrder := n];
    forall o | o in further
      ensures (exists m :: m in seen + {n} && episodes[m].row.openOrder == o) || (o in saved && further[o] == saved[o])
    {
      if o == episodes[n].row.openOrder {
        assert n in seen + {n};
      } else if m :| m in seen && episodes[m].row.openOrder == o {
        assert m in seen + {n};
      }
    }
  }

  lemma AllRead(episodes: map<nat, Valued>, saved: Identities, openings: Identities)
    requires DistinctRows(episodes) && OpeningsRead(episodes, episodes.Keys, saved, openings)
    ensures openings == saved + Openings(Cores(episodes))
  {
    var cores := Cores(episodes);
    assert DistinctOpenings(cores);
    OpeningsAre(cores);
    forall o
      ensures o in openings <==> o in saved + IdentitiesOf(cores)
      ensures o in openings ==> openings[o] == (saved + IdentitiesOf(cores))[o]
    {
      if o in openings {
        if n :| n in episodes && episodes[n].row.openOrder == o {
          assert n in cores && cores[n].openOrder == o;
        }
      }
    }
  }

  /** Fold `h` into the state and hand over the rows. */
  method DerivePosition(openings: Identities, st: State, h: seq<Event>) returns (t: Target)
    ensures t == (var d := Derive(openings, st, h); Target(Some(d.state), d.writes))
  {
    hide Fold;
    var replayer := new Replayer(openings, st);
    replayer.Derive(h);
    var folded := Fold(openings, st, Prepared(h));
    assert NO_WRITES.Then(folded.writes) == folded.writes;
    t := Target(Some(replayer.state), replayer.Written());
  }

  lemma MappedAreStored(l: Ledger, k: Key)
    requires TablesOk(l)
    ensures l.Mapped(k) <= l.events.Keys
  {
    assert forall e :: e in l.Mapped(k) ==> e in l.keyOf.Keys;
  }

  lemma ComputedEither(l: Ledger, k: Key)
    ensures !CanAppend(l, k) ==>
        Computed(l, k) == Result(Restored(l, k).openings, Restored(l, k).ordinal, HistoryOf(l, l.Mapped(k)))
    ensures CanAppend(l, k) ==> l.Appending(k)
  {
    hide Result, Restored, Derive;
  }

  ghost predicate NamesAll(l: Ledger) {
    forall k: Key :: NamesOk(l, k)
  }

  lemma SavedFurther(l: Ledger, keys: set<Key>, k: Key)
    requires k !in keys
    ensures SavedRows(l, keys + {k})
         == if l.RowsOf(k).position.Some? then SavedRows(l, keys)[k := SavedOf(l.RowsOf(k))] else SavedRows(l, keys)
    ensures SavedRows(l, {}) == map[]
  {
    hide SavedOf;
  }

  lemma AddSaved(identities: map<Key, Saved>, added: map<Key, Saved>, k: Key, saved: Saved)
    ensures (identities + added)[k := saved] == identities + added[k := saved]
  {
  }

  lemma NoneSaved(l: Ledger)
    ensures SavedRows(l, {}) == map[]
  {
  }

  /** Names and saved identities depend on the rows and the saved identities only. */
  lemma SameRowsNamed(a: Ledger, b: Ledger, keys: set<Key>)
    requires NamesAll(a) && a.rows == b.rows && a.identities == b.identities
    ensures NamesAll(b)
    ensures SavedRows(a, keys) == SavedRows(b, keys)
  {
    forall k: Key
      ensures NamesOk(b, k)
    {
      assert NamesOk(a, k);
      assert a.RowsOf(k) == b.RowsOf(k);
    }
    assert forall k: Key :: a.RowsOf(k) == b.RowsOf(k);
  }

  lemma RowsNamedAt(l: Ledger, k: Key)
    requires NamesAll(l) && l.RowsOf(k).position.Some?
    ensures DistinctRows(l.RowsOf(k).episodes) && OpeningsRead(l.RowsOf(k).episodes, {}, map[], map[])
    ensures forall n :: n in l.RowsOf(k).episodes ==> n <= l.RowsOf(k).position.value.episodes.ordinal
    ensures SavedOf(l.RowsOf(k))
        == Saved(l.RowsOf(k).position.value.episodes.ordinal, map[] + Openings(Cores(l.RowsOf(k).episodes)))
  {
    assert NamesOk(l, k);
    var rows := l.RowsOf(k);
    var cores := Cores(rows.episodes);
    assert forall n :: n in rows.episodes ==> n in cores && cores[n] == rows.episodes[n].row;
  }

  lemma NoFlags(pending: map<Key, Pending>, keys: set<Key>)
    ensures pending + (map k | k in keys :: Requeued(pending, k, Flag(map[], k), Flag(map[], k)))
        == RequeuedAll(pending, keys)
  {
    hide Requeued;
  }

  /** Enter the openings of all rows, and raise the ordinal to theirs. */
  method ReadOpenings(episodes: map<nat, Valued>, saved: Identities, base: nat)
    returns (openings: Identities, ordinal: nat)
    requires DistinctRows(episodes) && OpeningsRead(episodes, {}, saved, saved)
    requires forall n :: n in episodes ==> n <= base
    ensures openings == saved + Openings(Cores(episodes)) && ordinal == base
  {
    hide OpeningsRead, Openings, Cores, DistinctRows;
    openings, ordinal := saved, base;
    var todo := episodes.Keys;
    ghost var seen: set<nat> := {};
    while todo != {}
      invariant seen <= episodes.Keys && todo == episodes.Keys - seen
      invariant ordinal == base
      invariant OpeningsRead(episodes, seen, saved, openings)
      decreases |todo|
    {
      PickableKey(todo);
      var n :| n in todo;
      ReadOpening(episodes, seen, saved, openings, n);
      openings := openings[episodes[n].row.openOrder := n];
      ordinal := Larger(ordinal, n);
      todo, seen := todo - {n}, seen + {n};
    }
    assert seen == episodes.Keys;
    AllRead(episodes, saved, openings);
  }

  /** The rows a full replay reads: distinct openings, none numbered above the stored ordinal. */
  lemma PublishedNames(l: Ledger, k: Key)
    requires NamesOk(l, k)
    ensures
      var rows := l.RowsOf(k);
      && DistinctRows(rows.episodes)
      && OpeningsRead(rows.episodes, {}, StoredNames(l, k).openings, StoredNames(l, k).openings)
      && Restored(l, k) == Saved(StoredNames(l, k).ordinal, StoredNames(l, k).openings + Openings(Cores(rows.episodes)))
      && forall n :: n in rows.episodes ==> n <= StoredNames(l, k).ordinal
  {
    var rows := l.RowsOf(k);
    var cores := Cores(rows.episodes);
    assert forall n :: n in rows.episodes ==> n in cores && cores[n] == rows.episodes[n].row;
    assert cores.Keys == rows.episodes.Keys;
  }

  /** What is known before the rows are read: the saved and the stored ordinal. */
  function StoredNames(l: Ledger, k: Key): Saved {
    var stored := if l.RowsOf(k).position.Some? then l.RowsOf(k).position.value.episodes.ordinal else 0;
    if k in l.identities
    then Saved(Larger(stored, l.identities[k].ordinal), l.identities[k].openings)
    else Saved(stored, map[])
  }

  lemma InsertedHistory(events: map<int, Event>, ids: set<int>, id: int, h: seq<Event>, i: nat)
    requires CanonicalTable(events) && ids <= events.Keys && id in events && id !in ids && i <= |h|
    requires IsHistory(Picked(events, ids), h)
    requires forall j :: 0 <= j < i ==> Before(h[j].order, events[id].order)
    requires i < |h| ==> !Before(h[i].order, events[id].order)
    ensures IsHistory(Picked(events, ids + {id}), h[..i] + [events[id]] + h[i..])
  {
    var e, after := events[id], h[..i] + [events[id]] + h[i..];
    forall x
      ensures x in after <==> x in Picked(events, ids + {id})
    {
      assert x in h <==> x in Picked(events, ids);
      assert x in h <==> x in h[..i] || x in h[i..];
    }
    forall j | i <= j < |h|
      ensures Before(e.order, h[j].order)
    {
      assert h[i] in h && h[i] in Picked(events, ids);
      assert h[i].order != e.order;
      assert j > i ==> Before(h[i].order, h[j].order);
    }
  }

  lemma NothingRead(l: Ledger, changes: seq<Change>)
    ensures
      var none := BatchOf(changes[..0]);
      && TouchedKeys(l, none) == {} && AppendFlags(l, none) == map[] && CostFlags(l, none) == map[]
      && BatchEvents(none) == map[] && MappedRows(none) == map[]
  {
  }

  lemma PickableKey(s: set<Key>)
    ensures s == {} || exists k :: k in s
  {
    if forall k :: k !in s {
      assert s == {};
    }
  }

  lemma ApplyLands(l: Ledger, batch: Batch)
    ensures
      ApplyStep(l, batch) == l.(
        events := l.events + BatchEvents(batch),
        keyOf := l.keyOf - (BatchEvents(batch).Keys - MappedRows(batch).Keys) + MappedRows(batch),
        pending := l.pending + map k | k in TouchedKeys(l, batch) ::
          Requeued(l.pending, k, Flag(AppendFlags(l, batch), k), Flag(CostFlags(l, batch), k)))
  {
    assert BatchEvents(batch).Keys == batch.Keys;
    RemappedBy(l.keyOf, batch, BatchEvents(batch).Keys);
    QueuedBy(l, batch);
    hide AppendProof, CostProof, TouchedKeys, BatchEvents, MappedRows, Remapped, Requeued, AppendFlags, CostFlags, Flag;
  }

  lemma QueuedBy(l: Ledger, batch: Batch)
    ensures (map k | k in TouchedKeys(l, batch) ::
               Requeued(l.pending, k, Flag(AppendFlags(l, batch), k), Flag(CostFlags(l, batch), k)))
         == (map k | k in TouchedKeys(l, batch) ::
               Requeued(l.pending, k, AppendProof(l, batch, k), CostProof(l, batch, k)))
  {
    hide AppendProof, CostProof, TouchedKeys, Requeued, AppendFlags, CostFlags;
    forall k | k in TouchedKeys(l, batch)
      ensures Flag(AppendFlags(l, batch), k) == AppendProof(l, batch, k)
      ensures Flag(CostFlags(l, batch), k) == CostProof(l, batch, k)
    {
      FlagsAt(l, batch, k);
    }
  }
}
