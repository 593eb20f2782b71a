/**
 Runs of the ledger in which no event is unmapped under a projection prepared with it: every
 publish of such a run is safe, so its clean positions show a full replay.
 */
module LedgerMappings {
  import opened Common
  import opened PositionModel
  import opened Histories
  import opened ReplayDiff
  import opened DeferredLedger
  import opened LedgerProofs
  import opened PublishProofs
  import opened LedgerRuns

  /** An event of the batch that loses its position was read by no projection still under way. */
  predicate UnmapsNothingPrepared(s: System, batch: Batch) {
    forall e, k | e in batch && k in s.outstanding ::
      s.outstanding[k].epoch == s.ledger.epoch && e in s.outstanding[k].Mapped(k) && e in s.ledger.keyOf
      ==> batch[e].key.Some?
  }

  /** The event is still with `k`, has an effect row, or its position awaits a full replay. */
  predicate Accounted(l: Ledger, k: Key, e: int) {
    e in l.keyOf && (l.keyOf[e] == k || e in l.effects || !l.Appending(l.keyOf[e]))
  }

  /** Every event a projection was prepared with is accounted for. */
  ghost predicate AllAccounted(view: Ledger, now: Ledger, k: Key) {
    forall e | e in view.Mapped(k) :: Accounted(now, k, e)
  }

  ghost predicate MappingsInv(s: System) {
    forall k | k in s.outstanding ::
      s.outstanding[k].epoch == s.ledger.epoch ==> AllAccounted(s.outstanding[k], s.ledger, k)
  }

  /** A projection only writes effects of the events it was prepared with. */
  lemma PutsWereMapped(view: Ledger, k: Key)
    requires Inv(view) && k in view.pending
    ensures
      var p := Preparation(view, k);
      p.diff.Some? ==> forall e | e in p.diff.value.effects :: e in view.Mapped(k)
  {
    PreparationIsReplay(view, k);
    var names, base :| LandsAs(view, k, names, base);
    InvClaim(view, k);
    LandedKeys(view, k, names, base);
    hide Computed, CanAppend, LandsAs, Inv;
  }

  lemma AccountedIsGuarded(view: Ledger, now: Ledger, k: Key)
    requires Inv(view) && k in view.pending && AllAccounted(view, now, k)
    ensures NoStrayInsert(now, Preparation(view, k))
  {
    PutsWereMapped(view, k);
    assert Preparation(view, k).key == k;
    hide Inv, Preparation;
  }

  /** A mapped event of a position that is clean, or about to be appended to, has its effect row. */
  lemma ProjectedUnlessReplayed(l: Ledger, k: Key, e: int)
    requires Inv(l) && e in l.keyOf && l.keyOf[e] == k && k !in l.pending
    ensures e in l.effects
  {
    InvClaim(l, k);
    hide Inv;
    ClaimedHolds(l, k);
  }

  // ---------------------------------------------------------------- one action

  lemma ApplyAccounts(l: Ledger, batch: Batch, k: Key, e: int)
    requires Inv(l) && Accounted(l, k, e) && (e in batch ==> batch[e].key.Some?)
    ensures Accounted(ApplyStep(l, batch), k, e)
  {
    var after := ApplyStep(l, batch);
    assert e in after.keyOf;
    var owner := after.keyOf[e];
    InvClaim(l, owner);
    ApplyFacts(l, batch, owner);
    if after.Appending(owner) && owner != k {
      assert e !in batch by {
        if e in batch {
          assert Touches(l, batch, e, owner);
        }
      }
      if owner !in l.pending {
        ProjectedUnlessReplayed(l, owner, e);
      }
    }
  }

  /** A position that publishes while it is being appended to keeps the effects of its events. */
  lemma AppendingKeepsRow(view: Ledger, now: Ledger, k: Key, e: int)
    requires Inv(view) && Inv(now) && Since(view, now, k) && view.epoch == now.epoch
    requires now.Appending(k) && e in now.effects && now.effects[e].key == k
    ensures e in PublishStep(now, Preparation(view, k)).effects
  {
    InvClaim(view, k);
    ClaimedHolds(view, k);
    assert e in view.Mapped(k);
    hide Inv;
    if !view.pending[k].costOnly {
      TargetArrives(view, now, k);
      hide PublishStep, Preparation, Landed;
      HeldKeys(PublishStep(now, Preparation(view, k)), k, e);
    }
  }

  lemma PublishAccounts(view: Ledger, now: Ledger, j: Key, k: Key, e: int)
    requires Inv(view) && Inv(now) && Since(view, now, j) && view.epoch == now.epoch
    requires NoStrayInsert(now, Preparation(view, j)) && Accounted(now, k, e)
    ensures Accounted(PublishStep(now, Preparation(view, j)), k, e)
  {
    var p := Preparation(view, j);
    var after := PublishStep(now, p);
    PublishKeepsInv(view, now, j);
    PublishTables(now, p);
    var owner := now.keyOf[e];
    InvClaim(now, owner);
    if owner != k {
      hide Inv, Since, Preparation, NoStrayInsert, Agrees, PublishStep;
      if owner !in after.pending {
        ProjectedUnlessReplayed(after, owner, e);
      } else if after.Appending(owner) {
        PublishOnlyLoses(now, p, owner);
        assert e in now.effects && now.effects[e].key == owner;
        if j == owner {
          AppendingKeepsRow(view, now, j, e);
        } else {
          PublishKeepsRow(now, p, e);
        }
      }
    }
  }

  lemma PublishOnlyLoses(now: Ledger, p: Projection, k: Key)
    requires PublishStep(now, p).Appending(k)
    ensures now.Appending(k)
  {
    hide FlushRows, FlushEffects;
  }

  // ---------------------------------------------------------------- whole runs

  predicate SparesPrepared(s: System, a: Action) {
    a.Apply? ==> UnmapsNothingPrepared(s, a.batch)
  }

  lemma MappedIsGuarded(s: System, a: Action)
    requires SystemInv(s) && MappingsInv(s) && Enabled(s, a)
    ensures Guarded(s, a)
  {
    if a.Publish? {
      assert OutstandingOk(s, a.key);
      if s.outstanding[a.key].epoch == s.ledger.epoch {
        AccountedIsGuarded(s.outstanding[a.key], s.ledger, a.key);
      }
    }
  }

  lemma StepAccounts(s: System, a: Action, k: Key, e: int)
    requires SystemInv(s) && MappingsInv(s) && Enabled(s, a) && SparesPrepared(s, a) && !a.Rollback?
    requires k in s.outstanding && s.outstanding[k].epoch == s.ledger.epoch && e in s.outstanding[k].Mapped(k)
    ensures Accounted(Next(s, a).ledger, k, e)
  {
    assert AllAccounted(s.outstanding[k], s.ledger, k);
    MappedIsGuarded(s, a);
    hide Inv, Since, ApplyStep, PublishStep;
    match a
    case Apply(batch) => ApplyAccounts(s.ledger, batch, k, e);
    case Publish(j) =>
      assert OutstandingOk(s, j);
      if s.outstanding[j].epoch == s.ledger.epoch {
        PublishAccounts(s.outstanding[j], s.ledger, j, k, e);
      } else {
        StalePublish(s.ledger, Preparation(s.outstanding[j], j));
      }
    case _ =>
  }

  lemma StalePublish(now: Ledger, p: Projection)
    requires p.epoch != now.epoch
    ensures PublishStep(now, p) == now
  {
  }

  lemma MappingsStep(s: System, a: Action)
    requires SystemInv(s) && MappingsInv(s) && Enabled(s, a) && SparesPrepared(s, a)
    ensures MappingsInv(Next(s, a))
  {
    EpochStep(s, a);
    hide Next, Enabled, Inv, Since, SparesPrepared, Accounted;
    forall k | k in Next(s, a).outstanding && Next(s, a).outstanding[k].epoch == Next(s, a).ledger.epoch
      ensures AllAccounted(Next(s, a).outstanding[k], Next(s, a).ledger, k)
    {
      OutstandingStep(s, a, k);
      if k in s.outstanding {
        assert OutstandingOk(s, k);
        forall e | e in s.outstanding[k].Mapped(k)
          ensures Accounted(Next(s, a).ledger, k, e)
        {
          StepAccounts(s, a, k, e);
        }
      } else {
        JustPrepared(s.ledger, k);
      }
    }
  }

  lemma JustPrepared(l: Ledger, k: Key)
    ensures AllAccounted(l, l, k)
  {
  }

  /** No Apply of the run unmaps an event under a projection prepared with it. */
  ghost predicate MappedRun(states: seq<System>, actions: seq<Action>) {
    && IsRun(states, actions)
    && forall i :: 0 <= i < |actions| ==> SparesPrepared(states[i], actions[i])
  }

  lemma {:induction false} MappedRunInv(states: seq<System>, actions: seq<Action>, i: nat)
    requires MappedRun(states, actions) && i < |states|
    ensures SystemInv(states[i]) && MappingsInv(states[i])
  {
    hide Next, Enabled, SystemInv, MappingsInv, SparesPrepared;
    if i == 0 {
      InitialInv();
      assert MappingsInv(INITIAL) by {
        NothingPrepared();
      }
    } else {
      MappedRunInv(states, actions, i - 1);
      MappedIsGuarded(states[i - 1], actions[i - 1]);
      StepKeeps(states[i - 1], actions[i - 1]);
      MappingsStep(states[i - 1], actions[i - 1]);
    }
  }

  lemma NothingPrepared()
    ensures MappingsInv(INITIAL)
  {
  }

  /** In such a run no publish inserts a stray effect row. */
  lemma MappedRunIsGuarded(states: seq<System>, actions: seq<Action>)
    requires MappedRun(states, actions)
    ensures GuardedRun(states, actions)
  {
    forall i | 0 <= i < |actions|
      ensures Guarded(states[i], actions[i])
    {
      MappedRunInv(states, actions, i);
      MappedIsGuarded(states[i], actions[i]);
    }
  }

  /**
   In every run that unmaps no event under a projection prepared with it, a position with no
   queue row shows exactly a full replay of exactly the events now mapped to it.
   */
  lemma MappedMeansReplayed(states: seq<System>, actions: seq<Action>, i: nat, k: Key)
    requires MappedRun(states, actions) && i < |states|
    requires k !in states[i].ledger.pending
    ensures Agrees(states[i].ledger, k, states[i].ledger.Mapped(k))
  {
    MappedRunIsGuarded(states, actions);
    CleanMeansReplayed(states, actions, i, k);
  }
}
