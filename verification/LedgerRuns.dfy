/** The ledger's promise over whole runs: any interleaving of its actions. */
module LedgerRuns {
  import opened Common
  import opened PositionModel
  import opened EpisodeProofs
  import opened Histories
  import opened ReplayDiff
  import opened DeferredLedger
  import opened LedgerProofs
  import opened PublishProofs

  // ---------------------------------------------------------------- enqueue

  lemma ApplyFacts(l: Ledger, batch: Batch, k: Key)
    requires TablesOk(l)
    ensures
      var after := ApplyStep(l, batch);
      && after.keyOf.Keys <= after.events.Keys
      && (k !in TouchedKeys(l, batch) ==>
            && (k in l.pending <==> k in after.pending) && (k in l.pending ==> after.pending[k] == l.pending[k])
            && (forall e | e in l.keyOf && l.keyOf[e] == k :: e in l.events && after.events[e] == l.events[e])
            && (forall e :: e in l.keyOf && l.keyOf[e] == k <==> e in after.keyOf && after.keyOf[e] == k))
      && (k in TouchedKeys(l, batch) ==>
            k in after.pending && after.pending[k]
            == Requeued(l.pending, k, AppendProof(l, batch, k), CostProof(l, batch, k)))
      && (AppendProof(l, batch, k) ==>
            forall e | e in l.keyOf && l.keyOf[e] == k ::
              e in l.events && after.events[e] == l.events[e] && e in after.keyOf && after.keyOf[e] == k)
  {
    ApplyTables(l, batch, k);
    hide AppendProof, CostProof, Requeued, BatchEvents, Remapped;
    if AppendProof(l, batch, k) {
      AppendTouches(l, batch, k);
    }
    Untouched(l, batch, k);
    hide TouchedKeys;
  }

  /** Events outside the batch keep their facts and their mapping. */
  lemma ApplyTables(l: Ledger, batch: Batch, k: Key)
    requires TablesOk(l)
    ensures
      var after := ApplyStep(l, batch);
      && after.keyOf.Keys <= after.events.Keys
      && (forall e | e in l.keyOf && l.keyOf[e] == k :: e in l.events)
      && (forall e | e in l.events && e !in batch :: e in after.events && after.events[e] == l.events[e])
      && (forall e | e !in batch :: e in l.keyOf && l.keyOf[e] == k <==> e in after.keyOf && after.keyOf[e] == k)
      && (forall e | e in batch && e in after.keyOf && after.keyOf[e] == k :: Touches(l, batch, e, k))
  {
    hide AppendProof, CostProof, Requeued, TouchedKeys;
  }

  /** Every event that touches an untouched position is outside the batch. */
  lemma Untouched(l: Ledger, batch: Batch, k: Key)
    ensures k !in TouchedKeys(l, batch) ==> forall e | e in batch :: !Touches(l, batch, e, k)
    ensures k !in TouchedKeys(l, batch) ==> forall e | e in l.keyOf && l.keyOf[e] == k :: e !in batch
  {
  }

  lemma AppendTouches(l: Ledger, batch: Batch, k: Key)
    requires AppendProof(l, batch, k)
    ensures forall e | e in l.keyOf && l.keyOf[e] == k :: e !in batch
  {
    forall e | e in l.keyOf && l.keyOf[e] == k
      ensures e !in batch
    {
      if e in batch {
        assert Touches(l, batch, e, k);
      }
    }
  }

  /** The store's guarantees about a batch: canonical rows, and receipt-only means unchanged. */
  ghost predicate BatchOk(l: Ledger, batch: Batch) {
    && CanonicalTable(l.events + BatchEvents(batch))
    && forall e :: e in batch && batch[e].receiptOnly ==> e in l.events && l.events[e] == batch[e].event
  }

  lemma CostProofKeeps(l: Ledger, batch: Batch, k: Key)
    requires TablesOk(l) && BatchOk(l, batch) && CostProof(l, batch, k)
    ensures
      var after := ApplyStep(l, batch);
      && (forall e :: e in l.keyOf && l.keyOf[e] == k <==> e in after.keyOf && after.keyOf[e] == k)
      && (forall e | e in l.keyOf && l.keyOf[e] == k :: e in l.events && after.events[e] == l.events[e])
  {
    var after := ApplyStep(l, batch);
    forall e
      ensures e in l.keyOf && l.keyOf[e] == k <==> e in after.keyOf && after.keyOf[e] == k
      ensures e in l.keyOf && l.keyOf[e] == k ==> e in l.events && after.events[e] == l.events[e]
    {
      if e in batch {
        assert Touches(l, batch, e, k) <==> (e in l.keyOf && l.keyOf[e] == k) || batch[e].key == Some(k);
      }
    }
  }

  lemma AppendProofProjected(l: Ledger, batch: Batch, k: Key, e: int)
    requires AppendProof(l, batch, k)
    requires e in l.keyOf && l.keyOf[e] == k && e in l.effects ==> l.effects[e].key == k
    ensures
      var after := ApplyStep(l, batch);
      && (e in Projected(after, k) <==> e in Projected(l, k))
      && (e in after.keyOf && after.keyOf[e] == k && e in after.effects ==> after.effects[e].key == k)
  {
    if e in batch {
      assert Touches(l, batch, e, k) <==> (e in l.keyOf && l.keyOf[e] == k) || batch[e].key == Some(k);
    }
  }

  /** With an append proof, the events already projected on `k` are as they were. */
  lemma AppendProofKeeps(l: Ledger, batch: Batch, k: Key)
    requires Inv(l) && BatchOk(l, batch) && AppendProof(l, batch, k)
    requires k !in l.pending || l.pending[k].appendOnly
    ensures
      var after := ApplyStep(l, batch);
      && Agrees(after, k, Projected(after, k))
      && forall e :: e in after.keyOf && after.keyOf[e] == k && e in after.effects ==> after.effects[e].key == k
  {
    var after := ApplyStep(l, batch);
    assert after.Published(k) == l.Published(k);
    InvClaim(l, k);
    ApplyFacts(l, batch, k);
    hide Inv, Agrees, ApplyStep, BatchOk;
    CleanProjects(l, k);
    hide AppendProof;
    forall e
      ensures e in Projected(after, k) <==> e in Projected(l, k)
      ensures e in after.keyOf && after.keyOf[e] == k && e in after.effects ==> after.effects[e].key == k
    {
      AppendProofProjected(l, batch, k, e);
    }
    assert Projected(after, k) == Projected(l, k);
    MappedIds(l, k);
    AgreesFrame(l, after, k, Projected(l, k));
  }

  /** A clean or appending position has projected whatever of its events is projected at all. */
  lemma CleanProjects(l: Ledger, k: Key)
    requires TablesOk(l) && Claim(l, k) && (k !in l.pending || l.pending[k].appendOnly)
    ensures Agrees(l, k, Projected(l, k))
    ensures forall e :: e in l.keyOf && l.keyOf[e] == k && e in l.effects ==> l.effects[e].key == k
  {
    if k !in l.pending {
      ClaimedHolds(l, k);
      forall e
        ensures e in l.Mapped(k) <==> e in Projected(l, k)
      {
        assert e in l.keyOf && l.keyOf[e] == k ==> e in l.effects && l.effects[e].key == k;
      }
      assert l.Mapped(k) == Projected(l, k);
    }
  }

  lemma SameMapped(a: Ledger, b: Ledger, k: Key)
    requires forall e :: e in a.keyOf && a.keyOf[e] == k <==> e in b.keyOf && b.keyOf[e] == k
    ensures a.Mapped(k) == b.Mapped(k)
  {
    forall e
      ensures e in a.Mapped(k) <==> e in b.Mapped(k)
    {
      assert e in a.keyOf && a.keyOf[e] == k <==> e in b.keyOf && b.keyOf[e] == k;
    }
  }

  lemma MappedIds(l: Ledger, k: Key)
    ensures forall e :: e in l.Mapped(k) <==> e in l.keyOf && l.keyOf[e] == k
    ensures Projected(l, k) <= l.Mapped(k)
  {
  }

  /** Nothing about `k` changed: neither its mapping, nor its facts, its queue row or its rows. */
  lemma UntouchedClaim(a: Ledger, b: Ledger, k: Key)
    requires TablesOk(a) && TablesOk(b) && Claim(a, k)
    requires k in a.pending <==> k in b.pending
    requires k in a.pending ==> a.pending[k] == b.pending[k]
    requires forall e :: e in a.keyOf && a.keyOf[e] == k <==> e in b.keyOf && b.keyOf[e] == k
    requires forall e | e in a.keyOf && a.keyOf[e] == k :: e in a.events && e in b.events && a.events[e] == b.events[e]
    requires a.Published(k) == b.Published(k)
    requires forall e :: e in b.effects ==> e in a.effects && b.effects[e] == a.effects[e]
    ensures Claim(b, k)
  {
    SameMapped(a, b, k);
    MappedIds(a, k);
    if k !in b.pending || b.pending[k].costOnly {
      AgreesFrame(a, b, k, a.Mapped(k));
    }
    if b.Appending(k) {
      SameProjected(a, b, k);
      AgreesFrame(a, b, k, Projected(a, k));
    }
    hide Agrees, TablesOk;
  }

  lemma SameProjected(a: Ledger, b: Ledger, k: Key)
    requires forall e :: e in a.keyOf && a.keyOf[e] == k <==> e in b.keyOf && b.keyOf[e] == k
    requires a.Published(k) == b.Published(k)
    requires forall e :: e in b.effects ==> e in a.effects && b.effects[e] == a.effects[e]
    ensures Projected(a, k) == Projected(b, k)
    ensures (forall e :: e in a.keyOf && a.keyOf[e] == k && e in a.effects ==> a.effects[e].key == k)
        ==> (forall e :: e in b.keyOf && b.keyOf[e] == k && e in b.effects ==> b.effects[e].key == k)
  {
    forall e
      ensures e in Projected(a, k) <==> e in Projected(b, k)
    {
      HeldKeys(a, k, e);
      HeldKeys(b, k, e);
      assert e in a.keyOf && a.keyOf[e] == k <==> e in b.keyOf && b.keyOf[e] == k;
    }
    hide Ledger.Published;
    forall e | e in b.keyOf && b.keyOf[e] == k && e in b.effects
      ensures e in a.keyOf && a.keyOf[e] == k && e in a.effects && b.effects[e] == a.effects[e]
    {
      assert e in a.keyOf && a.keyOf[e] == k <==> e in b.keyOf && b.keyOf[e] == k;
    }
  }

  lemma ApplyClaim(l: Ledger, batch: Batch, k: Key)
    requires Inv(l) && BatchOk(l, batch)
    ensures Claim(ApplyStep(l, batch), k)
  {
    hide Inv, Agrees, AppendProof, CostProof;
    var after := ApplyStep(l, batch);
    InvClaim(l, k);
    ApplyFacts(l, batch, k);
    assert after.Published(k) == l.Published(k);
    if k !in TouchedKeys(l, batch) {
      UntouchedClaim(l, after, k);
    } else {
      if after.pending[k].costOnly {
        CostProofKeeps(l, batch, k);
        SameMapped(l, after, k);
        MappedIds(l, k);
        AgreesFrame(l, after, k, l.Mapped(k));
      }
      if after.Appending(k) {
        AppendProofKeeps(l, batch, k);
      }
    }
  }

  lemma ApplyKeepsInv(l: Ledger, batch: Batch)
    requires Inv(l) && BatchOk(l, batch)
    ensures Inv(ApplyStep(l, batch))
  {
    var after := ApplyStep(l, batch);
    hide Claim;
    ApplyFacts(l, batch, 0);
    forall k: Key
      ensures NamesOk(after, k) && Claim(after, k)
    {
      ApplyClaim(l, batch, k);
      InvClaim(l, k);
      assert after.RowsOf(k) == l.RowsOf(k) && after.identities == l.identities;
    }
  }

  lemma ApplyKeepsSince(view: Ledger, l: Ledger, batch: Batch, k: Key)
    requires TablesOk(view) && TablesOk(l) && BatchOk(l, batch) && Since(view, l, k)
    ensures Since(view, ApplyStep(l, batch), k)
  {
    hide AppendProof, CostProof;
    var after := ApplyStep(l, batch);
    ApplyFacts(l, batch, k);
    assert after.RowsOf(k) == l.RowsOf(k) && after.effects == l.effects && after.identities == l.identities;
    hide ApplyStep, TouchedKeys, SameRows, SameSaved;
    if k !in TouchedKeys(l, batch) {
      SameMapped(l, after, k);
    }
  }

  // ---------------------------------------------------------------- reorganisation

  lemma RollbackTables(l: Ledger, ancestor: int)
    requires TablesOk(l)
    ensures TablesOk(RollbackStep(l, ancestor))
  {
    hide Reorged, SavedRows, RequeuedAll, EffectsOutside;
  }

  /** The mappings and facts of a position with nothing above the ancestor. */
  lemma RollbackMappings(l: Ledger, ancestor: int, k: Key)
    requires TablesOk(l) && k !in Reorged(l, ancestor)
    ensures
      var after := RollbackStep(l, ancestor);
      && (forall e | e in l.keyOf && l.keyOf[e] == k :: e in l.events && e in after.events
                                                        && after.events[e] == l.events[e])
      && (forall e :: e in l.keyOf && l.keyOf[e] == k <==> e in after.keyOf && after.keyOf[e] == k)
  {
    assert forall e | e in l.keyOf && l.keyOf[e] == k :: l.events[e].order.block <= ancestor;
    hide Reorged, SavedRows, RequeuedAll, EffectsOutside;
  }

  lemma RollbackRows(l: Ledger, ancestor: int, k: Key)
    ensures
      var after := RollbackStep(l, ancestor);
      if k in Reorged(l, ancestor) then
        && after.RowsOf(k) == NO_ROWS
        && k in after.pending && !after.pending[k].appendOnly && !after.pending[k].costOnly
      else
        && after.RowsOf(k) == l.RowsOf(k)
        && SameSaved(l.identities, after.identities, k)
        && (k in l.pending <==> k in after.pending) && (k in l.pending ==> after.pending[k] == l.pending[k])
        && HeldBy(after.effects, k) == HeldBy(l.effects, k)
  {
    hide Reorged, EventsUpTo, MappingsUpTo, SavedOf;
    HeldOutside(l.effects, Reorged(l, ancestor), k);
    hide EffectsOutside, HeldBy;
  }

  lemma HeldOutside(effects: Effects, keys: set<Key>, k: Key)
    ensures k !in keys ==> HeldBy(EffectsOutside(effects, keys), k) == HeldBy(effects, k)
  {
  }

  lemma RollbackFacts(l: Ledger, ancestor: int, k: Key)
    requires TablesOk(l)
    ensures
      var after := RollbackStep(l, ancestor);
      && TablesOk(after)
      && (k in Reorged(l, ancestor) ==>
            && after.RowsOf(k) == NO_ROWS
            && k in after.pending && !after.pending[k].appendOnly && !after.pending[k].costOnly)
      && (k !in Reorged(l, ancestor) ==>
            && after.RowsOf(k) == l.RowsOf(k)
            && SameSaved(l.identities, after.identities, k)
            && (k in l.pending <==> k in after.pending) && (k in l.pending ==> after.pending[k] == l.pending[k])
            && (forall e | e in l.keyOf && l.keyOf[e] == k :: e in l.events && e in after.events
                                                              && after.events[e] == l.events[e])
            && (forall e :: e in l.keyOf && l.keyOf[e] == k <==> e in after.keyOf && after.keyOf[e] == k)
            && HeldBy(after.effects, k) == HeldBy(l.effects, k))
  {
    hide RollbackStep, Reorged, HeldBy, SameSaved;
    RollbackTables(l, ancestor);
    RollbackRows(l, ancestor, k);
    if k !in Reorged(l, ancestor) {
      RollbackMappings(l, ancestor, k);
    }
  }

  lemma RollbackKeepsInv(l: Ledger, ancestor: int)
    requires Inv(l)
    ensures Inv(RollbackStep(l, ancestor))
  {
    var after := RollbackStep(l, ancestor);
    forall k: Key
      ensures NamesOk(after, k) && Claim(after, k)
    {
      InvClaim(l, k);
      RollbackFacts(l, ancestor, k);
      if k in Reorged(l, ancestor) {
        ReorgedNames(l, ancestor, k);
      } else {
        UntouchedClaim(l, after, k);
      }
    }
    RollbackFacts(l, ancestor, 0);
  }

  lemma ReorgedNames(l: Ledger, ancestor: int, k: Key)
    requires NamesOk(l, k) && k in Reorged(l, ancestor)
    ensures NamesOk(RollbackStep(l, ancestor), k)
  {
    hide Reorged;
    var rows := l.RowsOf(k);
    if rows.position.Some? {
      RowsNamedIds(Cores(rows.episodes), rows.position.value.episodes.ordinal);
    }
  }

  // ---------------------------------------------------------------- the other actions

  lemma IngestKeepsInv(l: Ledger, news: map<int, Event>)
    requires Inv(l) && news.Keys !! l.events.Keys && CanonicalTable(l.events + news)
    ensures Inv(l.(events := l.events + news))
  {
    var after := l.(events := l.events + news);
    forall k: Key
      ensures NamesOk(after, k) && Claim(after, k)
    {
      InvClaim(l, k);
      assert after.RowsOf(k) == l.RowsOf(k);
      UntouchedClaim(l, after, k);
    }
  }

  lemma RevalueFacts(l: Ledger, k: Key, n: nat, derived: Option<int>, other: Key)
    ensures
      var after := RevalueStep(l, k, n, derived);
      && SameRows(l.RowsOf(other), after.RowsOf(other))
      && (after.RowsOf(other).episodes == map[] <==> l.RowsOf(other).episodes == map[])
      && after.Published(other) == l.Published(other)
      && after == l.(rows := after.rows)
  {
    var after := RevalueStep(l, k, n, derived);
    assert forall m :: m in l.RowsOf(other).episodes <==> m in after.RowsOf(other).episodes;
    assert Cores(l.RowsOf(other).episodes) == Cores(after.RowsOf(other).episodes);
  }

  lemma RevalueKeepsInv(l: Ledger, k: Key, n: nat, derived: Option<int>)
    requires Inv(l)
    ensures Inv(RevalueStep(l, k, n, derived))
  {
    var after := RevalueStep(l, k, n, derived);
    RevalueFacts(l, k, n, derived, 0);
    forall other: Key
      ensures NamesOk(after, other) && Claim(after, other)
    {
      hide RevalueStep;
      InvClaim(l, other);
      RevalueFacts(l, k, n, derived, other);
      UntouchedClaim(l, after, other);
    }
  }

  // ---------------------------------------------------------------- whole runs

  /** An outstanding projection was read from a sound snapshot that is stale at most by `Since`. */
  ghost predicate OutstandingOk(s: System, k: Key)
    requires k in s.outstanding
  {
    var view := s.outstanding[k];
    && Inv(view) && k in view.pending && view.epoch <= s.ledger.epoch
    && (view.epoch == s.ledger.epoch ==> Since(view, s.ledger, k))
  }

  ghost predicate SystemInv(s: System) {
    && Inv(s.ledger)
    && forall k :: k in s.outstanding ==> OutstandingOk(s, k)
  }

  /** A publish of the run inserts no stray effect row. */
  ghost predicate Guarded(s: System, a: Action)
    requires Enabled(s, a)
  {
    a.Publish? ==> NoStrayInsert(s.ledger, Preparation(s.outstanding[a.key], a.key))
  }

  lemma SinceItself(l: Ledger, k: Key)
    requires TablesOk(l) && k in l.pending
    ensures Since(l, l, k)
  {
  }

  /** Another position's projection is not disturbed by a publish. */
  lemma PublishKeepsSince(view: Ledger, now: Ledger, p: Projection, k: Key)
    requires Since(view, now, k) && p.key != k
    ensures Since(view, PublishStep(now, p), k)
  {
    var after := PublishStep(now, p);
    PublishTables(now, p);
    if Steady(view, now, k) {
      forall e | e in view.keyOf && view.keyOf[e] == k
        ensures e in after.keyOf && after.keyOf[e] == k
        ensures e in view.events && e in after.events && after.events[e] == view.events[e]
        ensures e in view.effects && view.effects[e].key == k ==>
            e in after.effects && after.effects[e] == view.effects[e]
      {
        hide PublishStep;
        if e in view.effects && view.effects[e].key == k {
          PublishKeepsRow(now, p, e);
        }
      }
    }
  }

  /** A row held by the position its event is mapped to survives the publish of any other. */
  lemma PublishKeepsRow(now: Ledger, p: Projection, e: int)
    requires e in now.effects && e in now.keyOf && now.effects[e].key == now.keyOf[e] != p.key
    ensures
      var after := PublishStep(now, p);
      e in after.effects && after.effects[e] == now.effects[e]
  {
    if p.diff.Some? {
      OthersKeepTheirRows(now.effects, now.keyOf, p.key, p.diff.value, e);
    }
  }

  lemma IngestKeepsSince(view: Ledger, l: Ledger, news: map<int, Event>, k: Key)
    requires TablesOk(l) && Since(view, l, k) && news.Keys !! l.events.Keys
    ensures Since(view, l.(events := l.events + news), k)
  {
    assert forall j: Key :: l.(events := l.events + news).RowsOf(j) == l.RowsOf(j);
  }

  lemma RevalueKeepsSince(view: Ledger, l: Ledger, j: Key, n: nat, derived: Option<int>, k: Key)
    requires Since(view, l, k)
    ensures Since(view, RevalueStep(l, j, n, derived), k)
  {
    RevalueFacts(l, j, n, derived, k);
    hide RevalueStep;
  }

  lemma LedgerStepKeeps(s: System, a: Action)
    requires SystemInv(s) && Enabled(s, a) && Guarded(s, a)
    ensures Inv(Next(s, a).ledger)
  {
    hide Inv;
    match a
    case Ingest(news) => IngestKeepsInv(s.ledger, news);
    case Apply(batch) => ApplyKeepsInv(s.ledger, batch);
    case Publish(k) =>
      assert OutstandingOk(s, k);
      if s.outstanding[k].epoch == s.ledger.epoch {
        PublishKeepsInv(s.outstanding[k], s.ledger, k);
      }
    case Rollback(ancestor) => RollbackKeepsInv(s.ledger, ancestor);
    case Revalue(k, n, derived) => RevalueKeepsInv(s.ledger, k, n, derived);
    case _ =>
  }

  lemma SinceStep(view: Ledger, s: System, a: Action, k: Key)
    requires TablesOk(view) && TablesOk(s.ledger) && Since(view, s.ledger, k)
    requires Enabled(s, a) && a != Publish(k) && !a.Rollback?
    ensures Since(view, Next(s, a).ledger, k)
  {
    hide Since, ApplyStep, PublishStep, RevalueStep, DiffOf, Computed, CanAppend;
    match a
    case Ingest(news) => IngestKeepsSince(view, s.ledger, news, k);
    case Apply(batch) => ApplyKeepsSince(view, s.ledger, batch, k);
    case Publish(j) => PublishKeepsSince(view, s.ledger, Preparation(s.outstanding[j], j), k);
    case Revalue(j, n, derived) => RevalueKeepsSince(view, s.ledger, j, n, derived, k);
    case _ =>
  }

  /** How an action changes what is outstanding. */
  lemma OutstandingStep(s: System, a: Action, k: Key)
    requires Enabled(s, a) && k in Next(s, a).outstanding
    ensures if k in s.outstanding then a != Publish(k) && Next(s, a).outstanding[k] == s.outstanding[k]
            else
              && a == Prepare(k) && k in s.ledger.pending
              && Next(s, a) == s.(outstanding := s.outstanding[k := s.ledger])
  {
    hide ApplyStep, PublishStep, RollbackStep, RevalueStep, Preparation;
  }

  lemma OutstandingStepKeeps(s: System, a: Action, k: Key)
    requires SystemInv(s) && Enabled(s, a) && Guarded(s, a) && k in Next(s, a).outstanding
    ensures OutstandingOk(Next(s, a), k)
  {
    OutstandingStep(s, a, k);
    EpochStep(s, a);
    hide Inv, Since, Next, Enabled, Guarded;
    if k in s.outstanding {
      assert OutstandingOk(s, k);
      if s.outstanding[k].epoch == s.ledger.epoch && !a.Rollback? {
        InvClaim(s.outstanding[k], k);
        InvClaim(s.ledger, k);
        SinceStep(s.outstanding[k], s, a, k);
      }
    } else {
      InvClaim(s.ledger, k);
      SinceItself(s.ledger, k);
    }
  }

  lemma StepKeeps(s: System, a: Action)
    requires SystemInv(s) && Enabled(s, a) && Guarded(s, a)
    ensures SystemInv(Next(s, a))
  {
    LedgerStepKeeps(s, a);
    hide Inv, Next, OutstandingOk, Guarded, Enabled;
    forall k | k in Next(s, a).outstanding
      ensures OutstandingOk(Next(s, a), k)
    {
      OutstandingStepKeeps(s, a, k);
    }
  }

  lemma InitialInv()
    ensures SystemInv(INITIAL)
  {
    var l := EMPTY_LEDGER;
    forall k: Key
      ensures NamesOk(l, k) && Claim(l, k)
    {
      assert l.Mapped(k) == {};
      HistoryIds(l.events, {});
      assert AgreesBy(l, k, {}, map[], 0);
    }
  }

  ghost predicate GuardedRun(states: seq<System>, actions: seq<Action>) {
    && IsRun(states, actions)
    && forall i :: 0 <= i < |actions| ==> Guarded(states[i], actions[i])
  }

  lemma {:induction false} RunInv(states: seq<System>, actions: seq<Action>, i: nat)
    requires GuardedRun(states, actions) && i < |states|
    ensures SystemInv(states[i])
  {
    if i == 0 {
      InitialInv();
    } else {
      RunInv(states, actions, i - 1);
      StepKeeps(states[i - 1], actions[i - 1]);
    }
  }

  /**
   The main theorem. In every state of every run, whatever the interleaving of enqueueing,
   preparing, late publishing, requeueing, revaluation and reorganisation, a position with no
   queue row shows exactly a full replay of exactly the events now mapped to it. That no publish
   is stray is not checked by the code; `LedgerMappings` derives it from the applies of the run.
   */
  lemma CleanMeansReplayed(states: seq<System>, actions: seq<Action>, i: nat, k: Key)
    requires GuardedRun(states, actions) && i < |states|
    requires k !in states[i].ledger.pending
    ensures Agrees(states[i].ledger, k, states[i].ledger.Mapped(k))
  {
    RunInv(states, actions, i);
    InvClaim(states[i].ledger, k);
  }

  lemma {:induction false} EpochsGrow(states: seq<System>, actions: seq<Action>, i: nat, j: nat)
    requires IsRun(states, actions) && i <= j < |states|
    ensures states[i].ledger.epoch <= states[j].ledger.epoch
    decreases j
  {
    hide Next, Enabled;
    if i < j {
      EpochsGrow(states, actions, i, j - 1);
      EpochStep(states[j - 1], actions[j - 1]);
    }
  }

  lemma EpochStep(s: System, a: Action)
    requires Enabled(s, a)
    ensures Next(s, a).ledger.epoch == s.ledger.epoch + if a.Rollback? then 1 else 0
  {
    if a.Publish? {
      PublishTables(s.ledger, Preparation(s.outstanding[a.key], a.key));
    }
  }

  /** What a position held when it was last prepared. */
  lemma {:induction false} PreparedEarlier(states: seq<System>, actions: seq<Action>, i: nat, k: Key) returns (p: nat)
    requires IsRun(states, actions) && i < |states| && k in states[i].outstanding
    ensures p < i && actions[p] == Prepare(k) && states[i].outstanding[k] == states[p].ledger
    ensures forall q :: p < q < i ==> actions[q] != Publish(k) && actions[q] != Abandon(k)
  {
    if k in states[i - 1].outstanding {
      p := PreparedEarlier(states, actions, i - 1, k);
      assert actions[i - 1] != Publish(k) && actions[i - 1] != Abandon(k);
    } else {
      p := i - 1;
    }
  }

  /**
   A snapshot read before a reorganisation is never committed after it: every publish commits
   the snapshot of the latest prepare of its position, and does nothing at all if the ledger
   was rolled back in between.
   */
  lemma OldEpochsNeverCommit(states: seq<System>, actions: seq<Action>, i: nat, k: Key) returns (p: nat)
    requires IsRun(states, actions) && i < |actions| && actions[i] == Publish(k)
    ensures p < i && actions[p] == Prepare(k) && states[i].outstanding[k] == states[p].ledger
    ensures forall r :: p < r < i && actions[r].Rollback? ==> states[i + 1].ledger == states[i].ledger
  {
    p := PreparedEarlier(states, actions, i, k);
    forall r | p < r < i && actions[r].Rollback?
      ensures states[i + 1].ledger == states[i].ledger
    {
      EpochsGrow(states, actions, p, r);
      EpochStep(states[r], actions[r]);
      EpochsGrow(states, actions, r + 1, i);
    }
  }
}
