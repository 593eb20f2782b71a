/**
 Appending is replay: resuming a stored position with later events leaves the same rows and
 the same state as deriving the whole history from scratch.
 */
module AppendProofs {
  import opened Common
  import opened PositionModel

  /** Canonical events of one position, in strictly increasing chain order. */
  ghost predicate Sorted(events: seq<Event>) {
    forall i, j :: 0 <= i < j < |events| ==> Before(events[i].order, events[j].order)
  }

  /** The guard of an append: later than the stored state, and in no block it already covers. */
  ghost predicate Appendable(st: State, events: seq<Event>) {
    forall e :: e in events ==> Before(st.clock.last, e.order) && e.order.block != st.clock.last.block
  }

  ghost predicate NoneIn(ids: Identities, events: seq<Event>) {
    forall e :: e in events ==> e.order !in ids
  }

  // ---------------------------------------------------------------- preparation splits at block edges

  ghost predicate BlocksApart(a: seq<Event>, b: seq<Event>) {
    forall x, y :: x in a && y in b ==> x.order.block != y.order.block
  }

  /** Where the events of two parts stand in the whole, and which of them share no block. */
  lemma Parts(a: seq<Event>, b: seq<Event>)
    requires BlocksApart(a, b)
    ensures forall k :: 0 <= k < |a| ==> (a + b)[k] == a[k]
    ensures forall k :: |a| <= k < |a + b| ==> (a + b)[k] == b[k - |a|]
    ensures forall i, k :: 0 <= i < |a| <= k < |a + b| ==> (a + b)[k].order.block != (a + b)[i].order.block
  {
    forall i, k | 0 <= i < |a| <= k < |a + b|
      ensures (a + b)[k].order.block != (a + b)[i].order.block
    {
      assert a[i] in a && b[k - |a|] in b;
    }
  }

  /** Marks on the first part of a history: nothing in a later block bears on them. */
  lemma MintHead(a: seq<Event>, b: seq<Event>, i: nat)
    requires BlocksApart(a, b) && i < |a|
    ensures MintFollows(a + b, i) == MintFollows(a, i)
  {
    var all := a + b;
    Parts(a, b);
    hide BlocksApart;
    if MintFollows(all, i) {
      assert forall k :: 0 <= k < i && SameTx(a[k], a[i]) ==> SameTx(all[k], all[i]);
    }
    if MintFollows(a, i) {
      var j :| i < j < |a| && SameTx(a[j], a[i]) && a[j].kind.Transfer? && a[j].data.mint;
      assert SameTx(all[j], all[i]);
      assert forall k :: 0 <= k < i && SameTx(all[k], all[i]) ==> SameTx(a[k], a[i]);
    }
  }

  lemma BurnHead(a: seq<Event>, b: seq<Event>, i: nat)
    requires BlocksApart(a, b) && i < |a|
    ensures BurnFollows(a + b, i) == BurnFollows(a, i)
  {
    var all := a + b;
    Parts(a, b);
    hide BlocksApart;
    if BurnFollows(all, i) {
      var j :| i < j < |all| && SameTx(all[j], all[i]) && all[j].kind.Transfer? && all[j].data.burn
               && forall k :: i < k < j && SameTx(all[k], all[i]) ==> !all[k].kind.Collect?;
      assert SameTx(a[j], a[i]);
      assert forall k :: i < k < j && SameTx(a[k], a[i]) ==> SameTx(all[k], all[i]);
    }
    if BurnFollows(a, i) {
      var j :| i < j < |a| && SameTx(a[j], a[i]) && a[j].kind.Transfer? && a[j].data.burn
               && forall k :: i < k < j && SameTx(a[k], a[i]) ==> !a[k].kind.Collect?;
      assert SameTx(all[j], all[i]);
      assert forall k :: i < k < j && SameTx(all[k], all[i]) ==> SameTx(a[k], a[i]);
    }
  }

  lemma MintTail(a: seq<Event>, b: seq<Event>, i: nat)
    requires BlocksApart(a, b) && i < |b|
    ensures MintFollows(a + b, |a| + i) == MintFollows(b, i)
  {
    var all, n := a + b, |a|;
    assert forall k :: n <= k < |all| ==> all[k] == b[k - n];
    assert forall k :: 0 <= k < n ==> all[k] in a && all[k].order.block != b[i].order.block;
    if MintFollows(all, n + i) {
      var j :| n + i < j < |all| && SameTx(all[j], all[n + i]) && all[j].kind.Transfer? && all[j].data.mint;
      assert SameTx(b[j - n], b[i]);
      forall k | 0 <= k < i && SameTx(b[k], b[i])
        ensures !b[k].kind.Add?
      {
        assert SameTx(all[n + k], all[n + i]);
      }
    }
    if MintFollows(b, i) {
      var j :| i < j < |b| && SameTx(b[j], b[i]) && b[j].kind.Transfer? && b[j].data.mint;
      assert SameTx(all[n + j], all[n + i]);
    }
  }

  lemma BurnTail(a: seq<Event>, b: seq<Event>, i: nat)
    requires BlocksApart(a, b) && i < |b|
    ensures BurnFollows(a + b, |a| + i) == BurnFollows(b, i)
  {
    var all, n := a + b, |a|;
    assert forall k :: n <= k < |all| ==> all[k] == b[k - n];
    if BurnFollows(all, n + i) {
      var j :| n + i < j < |all| && SameTx(all[j], all[n + i]) && all[j].kind.Transfer? && all[j].data.burn
               && forall k :: n + i < k < j && SameTx(all[k], all[n + i]) ==> !all[k].kind.Collect?;
      assert SameTx(b[j - n], b[i]);
      forall k | i < k < j - n && SameTx(b[k], b[i])
        ensures !b[k].kind.Collect?
      {
        assert SameTx(all[n + k], all[n + i]);
      }
    }
    if BurnFollows(b, i) {
      var j :| i < j < |b| && SameTx(b[j], b[i]) && b[j].kind.Transfer? && b[j].data.burn
               && forall k :: i < k < j && SameTx(b[k], b[i]) ==> !b[k].kind.Collect?;
      assert SameTx(all[n + j], all[n + i]);
      forall k | n + i < k < n + j && SameTx(all[k], all[n + i])
        ensures !all[k].kind.Collect?
      {
        assert SameTx(b[k - n], b[i]);
      }
    }
  }

  lemma PinsHead(a: seq<Event>, b: seq<Event>, i: nat)
    requires BlocksApart(a, b) && i < |a|
    ensures FirstPinned(a + b, i) == FirstPinned(a, i)
    ensures LastPinned(a + b, i) == LastPinned(a, i)
  {
    var all := a + b;
    assert forall k :: 0 <= k < |a| ==> all[k] == a[k];
    assert forall k :: |a| <= k < |all| ==> all[k] in b && all[k].order.block != a[i].order.block;
  }

  lemma FirstPinTail(a: seq<Event>, b: seq<Event>, i: nat)
    requires BlocksApart(a, b) && i < |b|
    ensures FirstPinned(a + b, |a| + i) == FirstPinned(b, i)
  {
    var all, n := a + b, |a|;
    Parts(a, b);
    hide BlocksApart, Pinned;
    if FirstPinned(all, n + i) {
      forall k | 0 <= k < i && b[k].order.block == b[i].order.block
        ensures !Pinned(b[k])
      {
        assert all[n + k] == b[k];
      }
    }
  }

  lemma LastPinTail(a: seq<Event>, b: seq<Event>, i: nat)
    requires BlocksApart(a, b) && i < |b|
    ensures LastPinned(a + b, |a| + i) == LastPinned(b, i)
  {
    var all, n := a + b, |a|;
    Parts(a, b);
    hide BlocksApart, Pinned;
    if LastPinned(all, n + i) {
      forall k | i < k < |b| && b[k].order.block == b[i].order.block
        ensures !Pinned(b[k])
      {
        assert all[n + k] == b[k];
      }
    }
  }

  /** Pins and mint/burn marks never look across a block edge. */
  lemma PreparedConcat(a: seq<Event>, b: seq<Event>)
    requires BlocksApart(a, b)
    ensures Prepared(a + b) == Prepared(a) + Prepared(b)
  {
    hide PreparedAt;
    forall i | 0 <= i < |a + b|
      ensures Prepared(a + b)[i] == (Prepared(a) + Prepared(b))[i]
    {
      if i < |a| {
        PreparedHead(a, b, i);
      } else {
        PreparedTail(a, b, i - |a|);
      }
    }
  }

  lemma PreparedHead(a: seq<Event>, b: seq<Event>, i: nat)
    requires BlocksApart(a, b) && i < |a|
    ensures PreparedAt(a + b, i) == PreparedAt(a, i)
  {
    MintHead(a, b, i);
    BurnHead(a, b, i);
    PinsHead(a, b, i);
    assert (a + b)[i] == a[i];
    hide MintFollows, BurnFollows, FirstPinned, LastPinned, BlocksApart;
  }

  lemma PreparedTail(a: seq<Event>, b: seq<Event>, i: nat)
    requires BlocksApart(a, b) && i < |b|
    ensures PreparedAt(a + b, |a| + i) == PreparedAt(b, i)
  {
    MintTail(a, b, i);
    BurnTail(a, b, i);
    FirstPinTail(a, b, i);
    LastPinTail(a, b, i);
    assert (a + b)[|a| + i] == b[i];
    hide MintFollows, BurnFollows, FirstPinned, LastPinned, BlocksApart;
  }

  // ---------------------------------------------------------------- folding in two parts

  lemma UnionAssociative<K, V>(a: map<K, V>, b: map<K, V>, c: map<K, V>)
    ensures a + b + c == a + (b + c)
  {
  }

  lemma ThenAssociative(a: Writes, b: Writes, c: Writes)
    ensures a.Then(b).Then(c) == a.Then(b.Then(c))
  {
    UnionAssociative(a.episodes, b.episodes, c.episodes);
    UnionAssociative(a.ownership, b.ownership, c.ownership);
    UnionAssociative(a.effects, b.effects, c.effects);
  }

  lemma {:induction false} FoldConcat(ids: Identities, st: State, a: seq<Event>, b: seq<Event>)
    ensures
      var first := Fold(ids, st, a);
      var second := Fold(ids, first.state, b);
      Fold(ids, st, a + b) == Step(second.state, first.writes.Then(second.writes))
    decreases |b|
  {
    hide Process;
    var first := Fold(ids, st, a);
    if |b| == 0 {
      assert a + b == a;
      assert first.writes.Then(NO_WRITES) == first.writes;
    } else {
      var init, last := b[..|b| - 1], b[|b| - 1];
      FoldConcat(ids, st, a, init);
      assert (a + b)[..|a + b| - 1] == a + init;
      var middle := Fold(ids, first.state, init);
      hide Writes.Then;
      ThenAssociative(first.writes, middle.writes, Process(ids, middle.state, last).writes);
    }
  }

  /** Two identity tables answer alike for the opening order `o`. */
  ghost predicate SameAt(a: Identities, b: Identities, o: Order) {
    (o in a <==> o in b) && (o in a ==> a[o] == b[o])
  }

  lemma EntryUsesOnlyItsOrder(a: Identities, b: Identities, st: State, e: Event)
    requires SameAt(a, b, e.order)
    ensures Entry(a, st, e) == Entry(b, st, e)
  {
  }

  lemma EpisodeStepUsesOnlyItsOrder(a: Identities, b: Identities, st: State, e: Event, f: Facts)
    requires SameAt(a, b, e.order)
    ensures EpisodeStep(a, st, e, f) == EpisodeStep(b, st, e, f)
  {
  }

  lemma ProcessUsesOnlyItsOrder(a: Identities, b: Identities, st: State, e: Event)
    requires SameAt(a, b, e.order)
    ensures Process(a, st, e) == Process(b, st, e)
  {
    EntryUsesOnlyItsOrder(a, b, st, e);
    var entry := Entry(a, st, e).state;
    var f := FactsOf(entry.claims, e);
    EpisodeStepUsesOnlyItsOrder(a, b, LiquidityStep(entry, e, f).state, e, f);
  }

  lemma {:induction false} FoldUsesOnlyItsOrders(a: Identities, b: Identities, st: State, events: seq<Event>)
    requires forall e :: e in events ==> SameAt(a, b, e.order)
    ensures Fold(a, st, events) == Fold(b, st, events)
    decreases |events|
  {
    if |events| > 0 {
      var init, last := events[..|events| - 1], events[|events| - 1];
      assert last in events;
      FoldUsesOnlyItsOrders(a, b, st, init);
      ProcessUsesOnlyItsOrder(a, b, Fold(a, st, init).state, last);
      hide Process;
    }
  }

  /** A replay reads only the identities of its own events. */
  lemma ReplayUsesOnlyItsOrders(a: Identities, b: Identities, ordinal: nat, events: seq<Event>)
    requires |events| > 0
    requires forall e :: e in events ==> SameAt(a, b, e.order)
    ensures Replay(a, ordinal, events) == Replay(b, ordinal, events)
  {
    hide Process;
    var p := Prepared(events);
    PreparedOrders(events);
    forall e | e in p
      ensures SameAt(a, b, e.order)
    {
      var i :| 0 <= i < |p| && p[i] == e;
      assert events[i] in events;
    }
    FoldUsesOnlyItsOrders(a, b, NewState(events[0], ordinal), p);
  }

  // ---------------------------------------------------------------- no episode is ever dropped

  /** An active episode is never marked settled, so the unsaved re-entry path is dead. */
  ghost predicate ActiveUnsettled(st: State) {
    st.episodes.active.Some? ==> !st.episodes.active.value.marks.claimsComplete
  }

  /** The active episode of `before` survives: it is still active afterwards, or its row was written. */
  ghost predicate Kept(before: State, step: Step) {
    before.episodes.active.Some? ==>
      var n := before.episodes.active.value.ordinal;
      || (step.state.episodes.active.Some? && step.state.episodes.active.value.ordinal == n)
      || n in step.writes.episodes
  }

  lemma TransferStepKeeps(ids: Identities, st: State, e: Event)
    requires ActiveUnsettled(st)
    ensures ActiveUnsettled(TransferStep(ids, st, e).state)
    ensures Kept(st, TransferStep(ids, st, e))
  {
    var left := LeaveOwner(st, e);
    assert ActiveUnsettled(left.state) && Kept(st, left);
    var entered := EnterOwner(ids, left.state, st.holder, e);
    assert ActiveUnsettled(entered.state);
  }

  lemma IdentityStepKeeps(st: State, e: Event)
    requires ActiveUnsettled(st)
    ensures ActiveUnsettled(IdentityStep(st, e).state)
    ensures Kept(st, IdentityStep(st, e))
  {
  }

  lemma EntryKeeps(ids: Identities, st: State, e: Event)
    requires ActiveUnsettled(st)
    ensures ActiveUnsettled(Entry(ids, st, e).state)
    ensures Kept(st, Entry(ids, st, e))
  {
    if IsTransfer(e) {
      TransferStepKeeps(ids, Observe(st, e), e);
    } else {
      IdentityStepKeeps(Observe(st, e), e);
    }
  }

  lemma EpisodeStepKeeps(ids: Identities, st: State, e: Event, f: Facts)
    requires ActiveUnsettled(st)
    ensures !SettledPrior(st)
    ensures ActiveUnsettled(EpisodeStep(ids, st, e, f).state)
    ensures Kept(st, EpisodeStep(ids, st, e, f))
  {
  }

  lemma AttachKeeps(ids: Identities, st: State, e: Event)
    requires ActiveUnsettled(st)
    ensures ActiveUnsettled(Attach(ids, st, e).state)
    ensures Kept(st, Attach(ids, st, e))
  {
    var f := FactsOf(st.claims, e);
    var liquid := LiquidityStep(st, e, f);
    assert liquid.state.episodes.active == st.episodes.active;
    EpisodeStepKeeps(ids, liquid.state, e, f);
  }

  lemma CloseStepKeeps(st: State, e: Event)
    requires ActiveUnsettled(st)
    ensures ActiveUnsettled(CloseStep(st, e).state)
    ensures Kept(st, CloseStep(st, e))
  {
  }

  lemma ProcessKeeps(ids: Identities, st: State, e: Event)
    requires ActiveUnsettled(st)
    ensures ActiveUnsettled(Process(ids, st, e).state)
    ensures Kept(st, Process(ids, st, e))
  {
    EntryKeeps(ids, st, e);
    var entry := Entry(ids, st, e);
    AttachKeeps(ids, entry.state, e);
    var attached := Attach(ids, entry.state, e);
    var booked := Book(attached.state, e);
    assert ActiveUnsettled(booked) && Kept(attached.state, Step(booked, NO_WRITES));
    CloseStepKeeps(booked, e);
  }

  lemma {:induction false} FoldKeeps(ids: Identities, st: State, events: seq<Event>)
    requires ActiveUnsettled(st)
    ensures ActiveUnsettled(Fold(ids, st, events).state)
    ensures Kept(st, Fold(ids, st, events))
    decreases |events|
  {
    if |events| > 0 {
      var init, last := events[..|events| - 1], events[|events| - 1];
      FoldKeeps(ids, st, init);
      ProcessKeeps(ids, Fold(ids, st, init).state, last);
    }
  }

  /**
   The path that discards an active episode without saving it is unreachable: whatever
   history led here, a re-entry finds its episode unsettled and writes it out.
   */
  lemma SettledPriorIsUnreachable(ids: Identities, ordinal: nat, history: seq<Event>, e: Event)
    requires |history| > 0
    ensures
      var st := Fold(ids, NewState(history[0], ordinal), history).state;
      var entry := Entry(ids, st, e).state;
      !SettledPrior(LiquidityStep(entry, e, FactsOf(entry.claims, e)).state)
  {
    var st := Fold(ids, NewState(history[0], ordinal), history).state;
    FoldKeeps(ids, NewState(history[0], ordinal), history);
    EntryKeeps(ids, st, e);
  }

  // ---------------------------------------------------------------- the theorem

  lemma FoldLastOrder(ids: Identities, st: State, events: seq<Event>)
    requires |events| > 0
    ensures Fold(ids, st, Prepared(events)).state.clock.last == events[|events| - 1].order
  {
    assert Prepared(events)[|events| - 1].order == events[|events| - 1].order;
  }

  lemma PreparedOrders(events: seq<Event>)
    ensures |Prepared(events)| == |events|
    ensures forall i :: 0 <= i < |events| ==> Prepared(events)[i].order == events[i].order
    ensures forall i :: 0 <= i < |events| ==> Prepared(events)[i].id == events[i].id
  {
  }

  /** Saving the active episode between two folds leaves no trace once the second has run. */
  lemma SealTwice(first: Step, second: Step)
    requires Kept(first.state, second)
    ensures Sealed(first).writes.Then(Sealed(second).writes)
         == Sealed(Step(second.state, first.writes.Then(second.writes))).writes
  {
    var left := Sealed(first).writes.Then(Sealed(second).writes);
    var right := Sealed(Step(second.state, first.writes.Then(second.writes))).writes;
    if first.state.episodes.active.Some? {
      assert first.state.episodes.active.value.ordinal in Sealed(second).writes.episodes;
    }
    assert left.episodes == right.episodes;
  }

  /** Appended events lie strictly after every block of a sorted history. */
  lemma AppendableIsApart(ids: Identities, st: State, e1: seq<Event>, e2: seq<Event>)
    requires |e1| > 0 && Sorted(e1)
    requires Appendable(Fold(ids, st, Prepared(e1)).state, e2)
    ensures BlocksApart(e1, e2)
  {
    FoldLastOrder(ids, st, e1);
    var last := e1[|e1| - 1];
    forall x, y | x in e1 && y in e2
      ensures x.order.block != y.order.block
    {
      var i :| 0 <= i < |e1| && e1[i] == x;
      assert i < |e1| - 1 ==> Before(e1[i].order, last.order);
    }
  }

  /**
   Deriving `e1`, storing its rows, and later appending `e2` to the stored state writes
   exactly the rows, and reaches exactly the state, of deriving `e1 + e2` from scratch.
   */
  lemma AppendIsReplay(ids: Identities, ordinal: nat, e1: seq<Event>, e2: seq<Event>)
    requires |e1| > 0 && Sorted(e1)
    requires Appendable(Replay(ids, ordinal, e1).state, e2)
    requires NoneIn(ids, e2)
    ensures
      var stored := Replay(ids, ordinal, e1);
      var appended := Derive(map[], stored.state, e2);
      Replay(ids, ordinal, e1 + e2) == Derived(appended.state, stored.writes.Then(appended.writes))
  {
    hide Process;
    var st := NewState(e1[0], ordinal);
    AppendableIsApart(ids, st, e1, e2);
    PreparedConcat(e1, e2);
    FoldConcat(ids, st, Prepared(e1), Prepared(e2));
    var first := Fold(ids, st, Prepared(e1));
    var p2 := Prepared(e2);
    forall e | e in p2
      ensures e.order !in ids
    {
      var i :| 0 <= i < |p2| && p2[i] == e;
      assert e2[i] in e2;
    }
    FoldUsesOnlyItsOrders(ids, map[], first.state, p2);
    var second := Fold(map[], first.state, p2);
    FoldKeeps(ids, st, Prepared(e1));
    FoldKeeps(map[], first.state, p2);
    SealTwice(first, second);
    assert (e1 + e2)[0] == e1[0];
  }
}
