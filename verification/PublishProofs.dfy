/**
 Publishing a projection that was prepared on an older snapshot of the same epoch.
 */
module PublishProofs {
  import opened Common
  import opened PositionModel
  import opened EpisodeProofs
  import opened Histories
  import opened ReplayDiff
  import opened DeferredLedger
  import opened LedgerProofs

  /** The events `k` had on the snapshot are still mapped to it, with their facts and rows. */
  ghost predicate Steady(view: Ledger, now: Ledger, k: Key) {
    forall e | e in view.keyOf && view.keyOf[e] == k ::
      && e in now.keyOf && now.keyOf[e] == k
      && e in view.events && e in now.events && now.events[e] == view.events[e]
      && (e in view.effects && view.effects[e].key == k ==> e in now.effects && now.effects[e] == view.effects[e])
  }

  predicate SameSaved(a: map<Key, Saved>, b: map<Key, Saved>, k: Key) {
    (k in a <==> k in b) && (k in a ==> a[k] == b[k])
  }

  /**
   How the tables can have moved since `view` while the projection of `k` was outstanding:
   nobody else writes the rows of `k`, its queue row stays and only loses proofs, and it may
   lose effect rows but never gains any.
   */
  ghost predicate Since(view: Ledger, now: Ledger, k: Key) {
    && SameRows(view.RowsOf(k), now.RowsOf(k))
    && SameSaved(view.identities, now.identities, k)
    && k in view.pending && k in now.pending
    && QueueSince(view.pending[k], now.pending[k])
    && (now.pending[k].generation == view.pending[k].generation ==> now.Mapped(k) == view.Mapped(k))
    && (now.pending[k].generation == view.pending[k].generation || now.Appending(k) ==> Steady(view, now, k))
    && (forall e :: e in now.effects && now.effects[e].key == k ==>
                    e in view.effects && view.effects[e] == now.effects[e])
  }

  predicate QueueSince(before: Pending, now: Pending) {
    && before.generation <= now.generation
    && (now.appendOnly ==> before.appendOnly)
    && (now.costOnly ==> before.costOnly)
    && (now.generation == before.generation ==> now == before)
  }

  /**
   The publish inserts no effect row for an event that has meanwhile been queued for another
   position with an append proof: such a row would hide the event from that append.
   */
  predicate NoStrayInsert(now: Ledger, p: Projection) {
    p.epoch == now.epoch && p.key in now.pending && p.diff.Some? ==>
      forall e | e in p.diff.value.effects ::
        e !in now.effects && e in now.keyOf && now.keyOf[e] != p.key ==> !now.Appending(now.keyOf[e])
  }

  // ---------------------------------------------------------------- the published position

  lemma RowsArrive(view: Ledger, now: Ledger, k: Key)
    requires Since(view, now, k) && !view.pending[k].costOnly && view.epoch == now.epoch
    ensures
      var after := PublishStep(now, Preparation(view, k));
      && after.RowsOf(k).position == Landed(view, k).position
      && Cores(after.RowsOf(k).episodes) == Landed(view, k).writes.episodes
      && after.RowsOf(k).ownership == Landed(view, k).writes.ownership
      && k !in after.identities
  {
    hide Computed, CanAppend, DiffOf, FlushRows, FlushEffects, Cores;
    RowsLand(view.RowsOf(k), now.RowsOf(k), view.effects, k, Computed(view, k), CanAppend(view, k));
  }

  lemma LandedKeys(view: Ledger, k: Key, names: Identities, base: nat)
    requires TablesOk(view) && LandsAs(view, k, names, base)
    ensures Landed(view, k).writes.effects.Keys == view.Mapped(k)
  {
    ResultEffectKeys(names, base, view.events, view.Mapped(k));
  }

  /** On a steady position the whole target lands. */
  lemma TargetArrives(view: Ledger, now: Ledger, k: Key)
    requires Inv(view) && Since(view, now, k) && Steady(view, now, k)
    requires !view.pending[k].costOnly && view.epoch == now.epoch
    ensures PublishStep(now, Preparation(view, k)).Published(k) == Landed(view, k)
    ensures Landed(view, k).writes.effects.Keys == view.Mapped(k)
  {
    PreparationIsReplay(view, k);
    var names, base :| LandsAs(view, k, names, base);
    LandedKeys(view, k, names, base);
    RowsArrive(view, now, k);
    hide Computed, CanAppend, DiffOf, FlushRows, FlushEffects, Cores, HeldBy, LandsAs, Inv;
    EffectsLand(view.RowsOf(k), view.effects, now.effects, now.keyOf, k, Computed(view, k), CanAppend(view, k));
  }

  lemma MovedAgrees(view: Ledger, after: Ledger, k: Key)
    requires Inv(view) && k in view.pending && TablesOk(after)
    requires forall e :: e in view.Mapped(k) ==> e in after.events && after.events[e] == view.events[e]
    requires after.Published(k) == Landed(view, k)
    ensures Agrees(after, k, view.Mapped(k))
  {
    PreparationIsReplay(view, k);
    var names, base :| LandsAs(view, k, names, base);
    forall e | e in view.Mapped(k)
      ensures e in after.events.Keys
    {
      assert view.keyOf[e] == k;
    }
    HistoryFrame(view.events, after.events, view.Mapped(k));
    assert OrdersOf(view.events, view.Mapped(k)) == OrdersOf(after.events, view.Mapped(k));
    assert AgreesBy(after, k, view.Mapped(k), names, base);
  }

  lemma FlushWritesOwn(effects: Effects, keyOf: map<int, Key>, k: Key, d: Diff)
    ensures
      var after := FlushEffects(effects, keyOf, k, d);
      forall e :: e in after && (e !in effects || after[e] != effects[e]) ==> after[e].key == k
  {
  }

  lemma PublishTables(now: Ledger, p: Projection)
    ensures
      var after := PublishStep(now, p);
      && after.events == now.events && after.keyOf == now.keyOf && after.epoch == now.epoch
      && (forall k: Key :: after.Mapped(k) == now.Mapped(k))
      && (forall k: Key | k != p.key ::
            && after.RowsOf(k) == now.RowsOf(k) && SameSaved(now.identities, after.identities, k)
            && (k in after.pending <==> k in now.pending)
            && (k in now.pending ==> after.pending[k] == now.pending[k]))
      && (forall e :: e in after.effects && (e !in now.effects || after.effects[e] != now.effects[e]) ==>
            after.effects[e].key == p.key)
  {
    hide FlushRows, FlushEffects;
    if p.diff.Some? {
      FlushWritesOwn(now.effects, now.keyOf, p.key, p.diff.value);
    }
  }

  /** The published position meets its claim again. */
  lemma OwnClaim(view: Ledger, now: Ledger, k: Key)
    requires Inv(view) && Inv(now) && Since(view, now, k) && view.epoch == now.epoch
    ensures Claim(PublishStep(now, Preparation(view, k)), k)
  {
    var p := Preparation(view, k);
    var after := PublishStep(now, p);
    PublishTables(now, p);
    assert Claim(now, k);
    if view.pending[k].costOnly {
      assert after.Published(k) == now.Published(k);
      if k !in after.pending {
        AgreesFrame(now, after, k, now.Mapped(k));
      }
      if k in after.pending && after.pending[k].costOnly {
        AgreesFrame(now, after, k, now.Mapped(k));
      }
      if after.Appending(k) {
        assert Projected(after, k) == Projected(now, k);
        AgreesFrame(now, after, k, Projected(now, k));
      }
    } else if Steady(view, now, k) {
      TargetArrives(view, now, k);
      MovedAgrees(view, after, k);
      if after.Appending(k) {
        AppendingKeeps(view, now, k);
      }
    }
  }

  /** An append proof that outlived the snapshot still covers everything not yet projected. */
  lemma AppendingKeeps(view: Ledger, now: Ledger, k: Key)
    requires Inv(view) && Inv(now) && Since(view, now, k) && view.epoch == now.epoch
    requires !view.pending[k].costOnly && Steady(view, now, k) && now.Appending(k)
    requires PublishStep(now, Preparation(view, k)).Published(k) == Landed(view, k)
    requires Landed(view, k).writes.effects.Keys == view.Mapped(k)
    ensures
      var after := PublishStep(now, Preparation(view, k));
      && Projected(after, k) == view.Mapped(k)
      && forall e :: e in after.keyOf && after.keyOf[e] == k && e in after.effects ==> after.effects[e].key == k
  {
    assert Preparation(view, k).key == k;
    hide Landed, Preparation, Inv;
    var after := PublishStep(now, Preparation(view, k));
    PublishTables(now, Preparation(view, k));
    InvClaim(now, k);
    forall e
      ensures e in Projected(after, k) <==> e in view.Mapped(k)
    {
      HeldKeys(after, k, e);
    }
  }

  lemma InvClaim(l: Ledger, k: Key)
    requires Inv(l)
    ensures Claim(l, k) && NamesOk(l, k) && TablesOk(l)
  {
  }

  // ---------------------------------------------------------------- the other positions

  /** Rows held by the position their event is mapped to stay as they are. */
  lemma OthersHold(now: Ledger, p: Projection, k: Key)
    requires k != p.key
    requires forall e :: e in now.effects && now.effects[e].key == k ==> e in now.keyOf && now.keyOf[e] == k
    ensures PublishStep(now, p).Published(k) == now.Published(k)
  {
    hide FlushRows;
    var after := PublishStep(now, p);
    forall e
      ensures e in after.effects && after.effects[e].key == k <==> e in now.effects && now.effects[e].key == k
      ensures e in now.effects && now.effects[e].key == k ==> e in after.effects && after.effects[e] == now.effects[e]
    {
      if p.diff.Some? && e in now.effects && now.effects[e].key == k {
        OthersKeepTheirRows(now.effects, now.keyOf, p.key, p.diff.value, e);
      }
      PublishTables(now, p);
    }
    assert HeldBy(after.effects, k) == HeldBy(now.effects, k);
    PublishTables(now, p);
  }

  lemma ClaimedHolds(l: Ledger, k: Key)
    requires TablesOk(l) && Claim(l, k)
    requires k !in l.pending || l.pending[k].costOnly || l.pending[k].appendOnly
    ensures forall e :: e in l.effects && l.effects[e].key == k ==> e in l.keyOf && l.keyOf[e] == k
    ensures k !in l.pending || l.pending[k].costOnly ==>
              forall e :: e in l.keyOf && l.keyOf[e] == k ==> e in l.effects && l.effects[e].key == k
  {
    if k !in l.pending || l.pending[k].costOnly {
      AgreesHolds(l, k, l.Mapped(k));
      assert forall e :: e in l.keyOf && l.keyOf[e] == k ==> e in l.Mapped(k);
    } else {
      AgreesHolds(l, k, Projected(l, k));
    }
  }

  lemma OtherClaim(now: Ledger, p: Projection, k: Key)
    requires Inv(now) && k != p.key && NoStrayInsert(now, p)
    ensures Claim(PublishStep(now, p), k)
  {
    var after := PublishStep(now, p);
    InvClaim(now, k);
    PublishTables(now, p);
    if k !in now.pending || now.pending[k].costOnly || now.pending[k].appendOnly {
      ClaimedHolds(now, k);
      OthersHold(now, p, k);
      if k !in now.pending || now.pending[k].costOnly {
        AgreesFrame(now, after, k, now.Mapped(k));
      }
      if now.Appending(k) {
        OtherAppending(now, p, k);
        AgreesFrame(now, after, k, Projected(now, k));
      }
    }
  }

  lemma OtherAppending(now: Ledger, p: Projection, k: Key)
    requires Inv(now) && k != p.key && NoStrayInsert(now, p) && now.Appending(k)
    requires PublishStep(now, p).Published(k) == now.Published(k)
    ensures
      var after := PublishStep(now, p);
      && Projected(after, k) == Projected(now, k)
      && forall e :: e in after.keyOf && after.keyOf[e] == k && e in after.effects ==> after.effects[e].key == k
  {
    hide FlushRows, Inv;
    var after := PublishStep(now, p);
    InvClaim(now, k);
    PublishTables(now, p);
    forall e
      ensures e in Projected(after, k) <==> e in Projected(now, k)
    {
      HeldKeys(after, k, e);
      HeldKeys(now, k, e);
    }
    forall e | e in after.keyOf && after.keyOf[e] == k && e in after.effects
      ensures after.effects[e].key == k
    {
      if e !in now.effects {
        InsertedIsPut(now, p, e);
      } else {
        assert e in now.keyOf && now.effects[e].key == k;
        HeldKeys(now, k, e);
        HeldKeys(after, k, e);
      }
    }
  }

  /** A row that appears was put by the diff. */
  lemma InsertedIsPut(now: Ledger, p: Projection, e: int)
    requires e !in now.effects && e in PublishStep(now, p).effects
    ensures p.epoch == now.epoch && p.key in now.pending && p.diff.Some? && e in p.diff.value.effects
  {
    hide FlushRows;
  }

  // ---------------------------------------------------------------- names

  lemma PublishNames(view: Ledger, now: Ledger, k: Key, other: Key)
    requires Inv(view) && Inv(now) && Since(view, now, k) && view.epoch == now.epoch
    ensures NamesOk(PublishStep(now, Preparation(view, k)), other)
  {
    var p := Preparation(view, k);
    InvClaim(now, other);
    PublishTables(now, p);
    if other == k && !view.pending[k].costOnly {
      RowsArrive(view, now, k);
      PreparationIsReplay(view, k);
      var names, base :| LandsAs(view, k, names, base);
      ResultNamed(names, base, view.events, view.Mapped(k));
      hide PublishStep, Preparation, Landed, Result, RowsNamed;
      CoresEmpty(PublishStep(now, p).RowsOf(k).episodes);
    }
  }

  lemma CoresEmpty(episodes: map<nat, Valued>)
    ensures Cores(episodes) == map[] <==> episodes == map[]
  {
    assert forall n :: n in episodes <==> n in Cores(episodes);
  }

  // ---------------------------------------------------------------- the guard

  lemma PublishKeepsInv(view: Ledger, now: Ledger, k: Key)
    requires Inv(view) && Inv(now) && Since(view, now, k) && view.epoch == now.epoch
    requires NoStrayInsert(now, Preparation(view, k))
    ensures Inv(PublishStep(now, Preparation(view, k)))
  {
    var p := Preparation(view, k);
    var after := PublishStep(now, p);
    PublishTables(now, p);
    hide PublishStep, Claim, NamesOk, NoStrayInsert, Since;
    forall other: Key
      ensures NamesOk(after, other) && Claim(after, other)
    {
      PublishNames(view, now, k, other);
      if other == k {
        OwnClaim(view, now, k);
      } else {
        OtherClaim(now, p, other);
      }
    }
  }

  /**
   The exact condition: publishing an outstanding projection keeps every position's claim if
   and only if it inserts no stray effect row.
   */
  lemma PublishKeepsClaimsExactly(view: Ledger, now: Ledger, k: Key)
    requires Inv(view) && Inv(now) && Since(view, now, k) && view.epoch == now.epoch
    ensures Inv(PublishStep(now, Preparation(view, k))) <==> NoStrayInsert(now, Preparation(view, k))
  {
    var p := Preparation(view, k);
    if NoStrayInsert(now, p) {
      PublishKeepsInv(view, now, k);
    } else {
      var e :| e in p.diff.value.effects && e !in now.effects && e in now.keyOf && now.keyOf[e] != p.key
               && now.Appending(now.keyOf[e]);
      StrayBreaksClaim(now, p, e);
    }
  }

  lemma StrayBreaksClaim(now: Ledger, p: Projection, e: int)
    requires p.epoch == now.epoch && p.key in now.pending && p.diff.Some? && e in p.diff.value.effects
    requires e !in now.effects && e in now.keyOf && now.keyOf[e] != p.key && now.Appending(now.keyOf[e])
    ensures !Claim(PublishStep(now, p), now.keyOf[e])
  {
    hide FlushRows, Agrees;
    var after := PublishStep(now, p);
    assert e in after.effects && after.effects[e].key == p.key;
    assert after.Appending(now.keyOf[e]);
  }
}
