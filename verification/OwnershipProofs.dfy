/**
 Ownership intervals of a position: ordered, disjoint, and open exactly while the position
 has an owner. The one transfer that breaks this is characterised exactly.
 */
module OwnershipProofs {
  import opened Common
  import opened PositionModel
  import opened AppendProofs

  ghost predicate WellOrdered(rows: map<nat, Interval>, last: Order) {
    && (forall n :: n in rows ==>
          && rows[n].ordinal == n
          && AtOrBefore(rows[n].start, last)
          && (rows[n].end.Some? ==>
                AtOrBefore(rows[n].start, rows[n].end.value.order) && AtOrBefore(rows[n].end.value.order, last)))
    && (forall n :: n in rows && n + 1 in rows ==>
          rows[n].end.Some? && AtOrBefore(rows[n].end.value.order, rows[n + 1].start))
  }

  /** The interval rows `1..ordinal` form a chain, and its last link is open iff there is an owner. */
  ghost predicate Owned(st: State, rows: map<nat, Interval>) {
    var h := st.holder;
    && (forall n :: n in rows <==> 1 <= n <= h.ordinal)
    && WellOrdered(rows, st.clock.last)
    && match h.interval
       case Some(i) =>
         i.ordinal == h.ordinal && h.ordinal in rows && rows[h.ordinal] == i && i.end.None? && h.owner == Some(i.owner)
       case None =>
         h.owner.None? && (h.ordinal in rows ==> rows[h.ordinal].end.Some?)
  }

  /** A transfer to the recorded owner that neither comes from them nor confirms their mint. */
  ghost predicate Overlaps(st: State, e: Event) {
    && IsTransfer(e)
    && st.holder.owner.Some? && TransferTarget(e) == st.holder.owner && TransferSource(e) != st.holder.owner
    && !ConfirmsMint(st.holder, e)
  }

  lemma IntervalsDisjoint(st: State, rows: map<nat, Interval>, n: nat, m: nat)
    requires Owned(st, rows) && n in rows && m in rows && n < m
    ensures rows[n].end.Some? && AtOrBefore(rows[n].end.value.order, rows[m].start)
    decreases m
  {
    if n + 1 < m {
      IntervalsDisjoint(st, rows, n, m - 1);
      assert rows[m - 1].end.Some?;
    }
  }

  lemma EndKeepsOwned(st: State, rows: map<nat, Interval>, e: Event)
    requires Owned(st, rows) && AtOrBefore(st.clock.last, e.order)
    requires st.holder.interval.Some?
    ensures
      var ended := EndedRow(st.holder, e);
      var rows' := rows[ended.ordinal := ended];
      && (forall n :: n in rows' <==> 1 <= n <= st.holder.ordinal)
      && WellOrdered(rows', e.order)
      && rows'[st.holder.ordinal].end.Some?
  {
  }

  lemma OpenKeepsOwned(st: State, rows: map<nat, Interval>, e: Event, interval: Interval)
    requires forall n :: n in rows <==> 1 <= n <= st.holder.ordinal
    requires WellOrdered(rows, e.order)
    requires st.holder.ordinal in rows ==> rows[st.holder.ordinal].end.Some?
    requires interval.ordinal == st.holder.ordinal + 1 && interval.start == e.order && interval.end.None?
    ensures
      var rows' := rows[interval.ordinal := interval];
      && (forall n :: n in rows' <==> 1 <= n <= interval.ordinal)
      && WellOrdered(rows', e.order)
  {
  }

  lemma WellOrderedLater(rows: map<nat, Interval>, last: Order, later: Order)
    requires WellOrdered(rows, last) && AtOrBefore(last, later)
    ensures WellOrdered(rows, later)
  {
  }

  ghost function At(st: State, order: Order): State {
    st.(clock := st.clock.(last := order))
  }

  /** The part of a transfer that concerns ownership: first its end, then its new holder. */
  lemma LeaveHolder(st: State, e: Event)
    ensures
      var left := LeaveOwner(st, e);
      var ends := EndsInterval(st.holder, e);
      && left.state.clock == st.clock
      && left.state.holder == (if ends then st.holder.(interval := None) else st.holder)
      && left.writes.ownership == if ends then map[EndedRow(st.holder, e).ordinal := EndedRow(st.holder, e)] else map[]
  {
  }

  lemma EnterHolder(ids: Identities, st: State, prior: Holder, e: Event)
    ensures
      var entered := EnterOwner(ids, st, prior, e);
      var h := entered.state.holder;
      && h.owner == TransferTarget(e)
      && if TransferTarget(e).None? || ConfirmsMint(prior, e) || ToSelf(prior, e)
         then h.interval == st.holder.interval && h.ordinal == st.holder.ordinal && entered.writes.ownership == map[]
         else
           && h.interval.Some? && h.interval.value.ordinal == st.holder.ordinal + 1 == h.ordinal
           && h.interval.value.start == e.order && h.interval.value.end.None?
           && h.interval.value.owner == TransferTarget(e).value
           && entered.writes.ownership == map[h.ordinal := h.interval.value]
  {
  }

  /** The interval rows once the departing owner's interval has been ended. */
  lemma AfterLeaving(st: State, rows: map<nat, Interval>, e: Event)
    requires Owned(st, rows) && AtOrBefore(st.clock.last, e.order)
    ensures
      var rows1 := rows + LeaveOwner(st, e).writes.ownership;
      && (forall n :: n in rows1 <==> 1 <= n <= st.holder.ordinal)
      && WellOrdered(rows1, e.order)
      && (EndsInterval(st.holder, e) ==> rows1[st.holder.ordinal].end.Some?)
      && (!EndsInterval(st.holder, e) ==> rows1 == rows)
  {
    hide LeaveOwner;
    LeaveHolder(st, e);
    WellOrderedLater(rows, st.clock.last, e.order);
    var rows1 := rows + LeaveOwner(st, e).writes.ownership;
    if EndsInterval(st.holder, e) {
      EndKeepsOwned(st, rows, e);
      assert rows1 == rows[EndedRow(st.holder, e).ordinal := EndedRow(st.holder, e)];
    } else {
      assert rows1 == rows;
    }
  }

  ghost predicate Confirming(h: Holder, e: Event) {
    TransferTarget(e).None? || ConfirmsMint(h, e) || ToSelf(h, e)
  }

  lemma ConfirmingOwned(ids: Identities, st: State, rows: map<nat, Interval>, e: Event)
    requires Owned(st, rows) && AtOrBefore(st.clock.last, e.order)
    requires Confirming(st.holder, e)
    ensures
      var step := TransferStep(ids, st, e);
      Owned(At(step.state, e.order), rows + step.writes.ownership)
  {
    hide LeaveOwner, EnterOwner;
    var left := LeaveOwner(st, e);
    LeaveHolder(st, e);
    EnterHolder(ids, left.state, st.holder, e);
    AfterLeaving(st, rows, e);
    assert rows + TransferStep(ids, st, e).writes.ownership == rows + left.writes.ownership;
  }

  lemma ReceivingOwned(ids: Identities, st: State, rows: map<nat, Interval>, e: Event)
    requires Owned(st, rows) && AtOrBefore(st.clock.last, e.order)
    requires !Confirming(st.holder, e) && TransferTarget(e) != st.holder.owner
    ensures
      var step := TransferStep(ids, st, e);
      Owned(At(step.state, e.order), rows + step.writes.ownership)
  {
    hide LeaveOwner, EnterOwner;
    var left := LeaveOwner(st, e);
    var entered := EnterOwner(ids, left.state, st.holder, e);
    LeaveHolder(st, e);
    EnterHolder(ids, left.state, st.holder, e);
    AfterLeaving(st, rows, e);
    var rows1 := rows + left.writes.ownership;
    var interval := entered.state.holder.interval.value;
    OpenKeepsOwned(left.state, rows1, e, interval);
    assert rows + TransferStep(ids, st, e).writes.ownership == rows1[interval.ordinal := interval];
  }

  /** A transfer to the recorded owner from somebody else leaves two intervals open. */
  lemma OverlapBreaks(ids: Identities, st: State, rows: map<nat, Interval>, e: Event)
    requires Owned(st, rows)
    requires !Confirming(st.holder, e) && TransferTarget(e) == st.holder.owner
    ensures
      var step := TransferStep(ids, st, e);
      var h := step.state.holder;
      var rows' := rows + step.writes.ownership;
      && h.ordinal >= 2 && h.interval.Some? && h.interval.value.ordinal == h.ordinal
      && (forall n :: n in rows' <==> 1 <= n <= h.ordinal)
      && rows'[(h.ordinal - 1) as nat].end.None?
  {
    hide LeaveOwner, EnterOwner;
    LeaveHolder(st, e);
    EnterHolder(ids, LeaveOwner(st, e).state, st.holder, e);
  }

  lemma TransferOwned(ids: Identities, st: State, rows: map<nat, Interval>, e: Event)
    requires Owned(st, rows) && AtOrBefore(st.clock.last, e.order) && IsTransfer(e)
    requires !Overlaps(st, e)
    ensures
      var step := TransferStep(ids, st, e);
      Owned(At(step.state, e.order), rows + step.writes.ownership)
  {
    hide TransferStep;
    if Confirming(st.holder, e) {
      ConfirmingOwned(ids, st, rows, e);
    } else {
      ReceivingOwned(ids, st, rows, e);
    }
  }

  lemma IdentityOwned(st: State, rows: map<nat, Interval>, e: Event)
    requires Owned(st, rows) && AtOrBefore(st.clock.last, e.order)
    ensures
      var step := IdentityStep(st, e);
      Owned(At(step.state, e.order), rows + step.writes.ownership)
  {
    WellOrderedLater(rows, st.clock.last, e.order);
    var step := IdentityStep(st, e);
    if e.owner.Some? && st.holder.owner.None? {
      var interval := step.state.holder.interval.value;
      assert rows + step.writes.ownership == rows[interval.ordinal := interval];
      OpenKeepsOwned(st, rows, e, interval);
    } else {
      assert rows + step.writes.ownership == rows;
    }
  }

  lemma LiquidityOwned(st: State, rows: map<nat, Interval>, e: Event, f: Facts)
    requires Owned(At(st, e.order), rows)
    ensures
      var step := LiquidityStep(st, e, f);
      Owned(At(step.state, e.order), rows + step.writes.ownership)
  {
    var step := LiquidityStep(st, e, f);
    if CompletesInterval(st.holder, f) {
      var interval := step.state.holder.interval.value;
      assert rows + step.writes.ownership == rows[interval.ordinal := interval];
    } else {
      assert rows + step.writes.ownership == rows;
    }
  }

  /** The liquidity facts never repair a broken chain. */
  lemma LiquidityKeepsBroken(st: State, rows: map<nat, Interval>, e: Event, f: Facts)
    requires st.holder.ordinal >= 2
    requires st.holder.interval.Some? && st.holder.interval.value.ordinal == st.holder.ordinal
    requires forall n :: n in rows <==> 1 <= n <= st.holder.ordinal
    requires rows[(st.holder.ordinal - 1) as nat].end.None?
    ensures
      var step := LiquidityStep(st, e, f);
      !Owned(At(step.state, e.order), rows + step.writes.ownership)
  {
    var step := LiquidityStep(st, e, f);
    var rows' := rows + step.writes.ownership;
    var n: nat := st.holder.ordinal - 1;
    assert n in rows' && n + 1 in rows' && rows'[n].end.None?;
  }

  lemma EpisodeStepOwned(ids: Identities, st: State, e: Event, f: Facts)
    ensures
      var step := EpisodeStep(ids, st, e, f);
      step.state.holder == st.holder && step.writes.ownership == map[]
  {
  }

  lemma TailOwned(st: State, e: Event)
    ensures
      var step := CloseStep(Book(st, e), e);
      step.state.holder == st.holder && step.writes.ownership == map[]
  {
  }

  /** What `Process` does to the holder is what its entry and its liquidity facts do. */
  lemma ProcessHolder(ids: Identities, st: State, e: Event)
    ensures
      var entry := Entry(ids, st, e);
      var liquid := LiquidityStep(entry.state, e, FactsOf(entry.state.claims, e));
      var step := Process(ids, st, e);
      && step.state.holder == liquid.state.holder && step.state.clock.last == e.order
      && step.writes.ownership == entry.writes.ownership + liquid.writes.ownership
  {
    hide Entry, LiquidityStep, EpisodeStep, Book, CloseStep, EffectRowOf, FactsOf, EffectOf;
    var entry := Entry(ids, st, e);
    var f := FactsOf(entry.state.claims, e);
    var liquid := LiquidityStep(entry.state, e, f);
    EpisodeStepOwned(ids, liquid.state, e, f);
    TailOwned(Attach(ids, entry.state, e).state, e);
  }

  lemma OwnedByHolder(a: State, b: State, rows: map<nat, Interval>)
    requires a.holder == b.holder && a.clock.last == b.clock.last
    ensures Owned(a, rows) == Owned(b, rows)
  {
  }

  lemma EntryOverlap(ids: Identities, st: State, rows: map<nat, Interval>, e: Event)
    requires Owned(st, rows) && Overlaps(st, e)
    ensures
      var entry := Entry(ids, st, e);
      var h := entry.state.holder;
      var rows' := rows + entry.writes.ownership;
      && h.ordinal >= 2 && h.interval.Some? && h.interval.value.ordinal == h.ordinal
      && (forall n :: n in rows' <==> 1 <= n <= h.ordinal)
      && rows'[(h.ordinal - 1) as nat].end.None?
  {
    hide TransferStep;
    var seen := Observe(st, e);
    OwnedByHolder(st, seen, rows);
    OverlapBreaks(ids, seen, rows, e);
  }

  /** One event keeps the interval chain intact exactly when it is not an overlapping transfer. */
  lemma ProcessOwned(ids: Identities, st: State, rows: map<nat, Interval>, e: Event)
    requires Owned(st, rows) && AtOrBefore(st.clock.last, e.order)
    ensures
      var step := Process(ids, st, e);
      Owned(step.state, rows + step.writes.ownership) <==> !Overlaps(st, e)
  {
    hide TransferStep, IdentityStep, LiquidityStep, FactsOf, Process, Owned;
    var seen := Observe(st, e);
    var entry := Entry(ids, st, e);
    var f := FactsOf(entry.state.claims, e);
    var liquid := LiquidityStep(entry.state, e, f);
    var step := Process(ids, st, e);
    ProcessHolder(ids, st, e);
    var rows1 := rows + entry.writes.ownership;
    assert rows + step.writes.ownership == rows1 + liquid.writes.ownership;
    OwnedByHolder(st, seen, rows);
    if Overlaps(st, e) {
      EntryOverlap(ids, st, rows, e);
      LiquidityKeepsBroken(entry.state, rows1, e, f);
    } else {
      if IsTransfer(e) {
        TransferOwned(ids, seen, rows, e);
      } else {
        IdentityOwned(seen, rows, e);
      }
      LiquidityOwned(entry.state, rows1, e, f);
    }
    OwnedByHolder(step.state, At(liquid.state, e.order), rows + step.writes.ownership);
  }

  ghost predicate OwnedAfter(ids: Identities, st: State, events: seq<Event>) {
    var step := Fold(ids, st, events);
    Owned(step.state, step.writes.ownership)
  }

  ghost predicate OwnedThroughout(ids: Identities, st: State, events: seq<Event>) {
    forall i :: 0 <= i <= |events| ==> OwnedAfter(ids, st, events[..i])
  }

  ghost predicate NeverOverlaps(ids: Identities, st: State, events: seq<Event>) {
    forall i :: 0 <= i < |events| ==> !Overlaps(Fold(ids, st, events[..i]).state, events[i])
  }

  lemma FoldSnoc(ids: Identities, st: State, events: seq<Event>, i: nat)
    requires i < |events|
    ensures
      var prior := Fold(ids, st, events[..i]);
      var last := Process(ids, prior.state, events[i]);
      Fold(ids, st, events[..i + 1]) == Step(last.state, prior.writes.Then(last.writes))
  {
    hide Process;
    assert events[..i + 1][..i] == events[..i];
  }

  /** The stored clock reads the order of the last event folded in. */
  lemma FoldClock(ids: Identities, st: State, events: seq<Event>, i: nat)
    requires i <= |events|
    ensures Fold(ids, st, events[..i]).state.clock.last == if i == 0 then st.clock.last else events[i - 1].order
  {
    if i > 0 {
      FoldSnoc(ids, st, events, i - 1);
    }
  }

  lemma OwnedNext(ids: Identities, events: seq<Event>, ordinal: nat, i: nat)
    requires Sorted(events) && i < |events|
    requires OwnedAfter(ids, NewState(events[0], ordinal), events[..i])
    ensures
      var st := NewState(events[0], ordinal);
      OwnedAfter(ids, st, events[..i + 1]) <==> !Overlaps(Fold(ids, st, events[..i]).state, events[i])
  {
    hide Process;
    var st := NewState(events[0], ordinal);
    FoldSnoc(ids, st, events, i);
    FoldClock(ids, st, events, i);
    var prior := Fold(ids, st, events[..i]);
    ProcessOwned(ids, prior.state, prior.writes.ownership, events[i]);
  }

  /** Owned so far and no overlap up to `i`: owned after every event up to `i`. */
  lemma {:induction false} OwnedSoFar(ids: Identities, events: seq<Event>, ordinal: nat, i: nat)
    requires |events| > 0 && Sorted(events) && i <= |events|
    requires NeverOverlaps(ids, NewState(events[0], ordinal), events)
    ensures OwnedAfter(ids, NewState(events[0], ordinal), events[..i])
  {
    var st := NewState(events[0], ordinal);
    if i == 0 {
      assert events[..0] == [];
    } else {
      OwnedSoFar(ids, events, ordinal, i - 1);
      OwnedNext(ids, events, ordinal, i - 1);
    }
    hide Process, Fold, Owned, Overlaps;
  }

  /**
   Over every run from scratch: the ownership intervals are ordered, disjoint and open exactly
   with the recorded owner after each event, if and only if no event of the run overlaps.
   */
  lemma {:induction false} OwnershipIntervals(ids: Identities, events: seq<Event>, ordinal: nat)
    requires |events| > 0 && Sorted(events)
    ensures
      var st := NewState(events[0], ordinal);
      OwnedThroughout(ids, st, events) <==> NeverOverlaps(ids, st, events)
  {
    hide Process, Fold, Overlaps, OwnedAfter, Sorted, NewState;
    var st := NewState(events[0], ordinal);
    if OwnedThroughout(ids, st, events) {
      forall i | 0 <= i < |events|
        ensures !Overlaps(Fold(ids, st, events[..i]).state, events[i])
      {
        assert OwnedAfter(ids, st, events[..i]) && OwnedAfter(ids, st, events[..i + 1]);
        OwnedNext(ids, events, ordinal, i);
      }
    }
    if NeverOverlaps(ids, st, events) {
      forall i | 0 <= i <= |events|
        ensures OwnedAfter(ids, st, events[..i])
      {
        OwnedSoFar(ids, events, ordinal, i);
      }
    }
  }

  // ---------------------------------------------------------------- overlaps, by the events alone

  /** Who holds the position, and whether they were seen to receive it by a mint. */
  datatype Trail = Trail(owner: Option<Address>, minted: bool)

  predicate TrailConfirms(t: Trail, e: Event) {
    TransferSource(e) == Some(ZERO_ADDRESS) && TransferTarget(e) == t.owner && t.minted
  }

  function NextTrail(t: Trail, e: Event): Trail {
    if IsTransfer(e) then
      var target := TransferTarget(e);
      if target.None? then Trail(None, false)
      else if TrailConfirms(t, e) || TransferSource(e) == target == t.owner then t
      else Trail(target, TransferSource(e) == Some(ZERO_ADDRESS))
    else if t.owner.None? && e.owner.Some? then Trail(e.owner, e.data.verifiedMintAfter)
    else t
  }

  function TrailOf(events: seq<Event>): Trail {
    if |events| == 0 then Trail(None, false)
    else NextTrail(TrailOf(events[..|events| - 1]), events[|events| - 1])
  }

  /** The event hands the position to its holder from somebody else, without confirming a mint. */
  predicate TrailOverlaps(t: Trail, e: Event) {
    && IsTransfer(e) && t.owner.Some? && TransferTarget(e) == t.owner && TransferSource(e) != t.owner
    && !TrailConfirms(t, e)
  }

  /** No event of the history hands the position to its holder again. */
  predicate NeverHandedAgain(events: seq<Event>) {
    forall i :: 0 <= i < |events| ==> !TrailOverlaps(TrailOf(events[..i]), events[i])
  }

  /** The trail reads the holder, whose interval is open exactly while there is an owner. */
  predicate Follows(t: Trail, h: Holder) {
    && t.owner == h.owner && (h.interval.Some? <==> h.owner.Some?)
    && (t.minted <==> h.interval.Some? && h.interval.value.acquired.ByMint?)
  }

  lemma TransferFollows(ids: Identities, st: State, t: Trail, e: Event)
    requires IsTransfer(e) && Follows(t, st.holder)
    ensures Follows(NextTrail(t, e), TransferStep(ids, st, e).state.holder)
  {
    var left := LeaveOwner(st, e);
    LeaveHolder(st, e);
    hide LeaveOwner;
  }

  lemma IdentityFollows(st: State, t: Trail, e: Event)
    requires !IsTransfer(e) && Follows(t, st.holder)
    ensures Follows(NextTrail(t, e), IdentityStep(st, e).state.holder)
  {
  }

  lemma LiquidityFollows(st: State, t: Trail, e: Event, f: Facts)
    requires Follows(t, st.holder)
    ensures Follows(t, LiquidityStep(st, e, f).state.holder)
  {
  }

  lemma ProcessFollows(ids: Identities, st: State, t: Trail, e: Event)
    requires Follows(t, st.holder)
    ensures Follows(NextTrail(t, e), Process(ids, st, e).state.holder)
  {
    hide TransferStep, IdentityStep, LiquidityStep, FactsOf, Process, Follows, NextTrail;
    ProcessHolder(ids, st, e);
    var entry := Entry(ids, st, e);
    assert Observe(st, e).holder == st.holder;
    if IsTransfer(e) {
      TransferFollows(ids, Observe(st, e), t, e);
    } else {
      IdentityFollows(Observe(st, e), t, e);
    }
    LiquidityFollows(entry.state, NextTrail(t, e), e, FactsOf(entry.state.claims, e));
  }

  lemma {:induction false} FoldFollows(ids: Identities, st: State, events: seq<Event>)
    requires st.holder == Holder(None, None, 0, None)
    ensures Follows(TrailOf(events), Fold(ids, st, events).state.holder)
    decreases |events|
  {
    hide Process, NextTrail;
    if |events| > 0 {
      var init := events[..|events| - 1];
      FoldFollows(ids, st, init);
      ProcessFollows(ids, Fold(ids, st, init).state, TrailOf(init), events[|events| - 1]);
    }
  }

  lemma OverlapsByTrail(st: State, t: Trail, e: Event)
    requires Follows(t, st.holder)
    ensures Overlaps(st, e) <==> TrailOverlaps(t, e)
  {
  }

  /**
   The same condition read off the events: the intervals of a run from scratch are in order
   after every event if and only if no event hands the position to its holder again.
   */
  lemma OwnershipByEvents(ids: Identities, events: seq<Event>, ordinal: nat)
    requires |events| > 0 && Sorted(events)
    ensures OwnedThroughout(ids, NewState(events[0], ordinal), events) <==> NeverHandedAgain(events)
  {
    hide Process, Fold, Overlaps, OwnedThroughout, TrailOf, TrailOverlaps, Follows;
    var st := NewState(events[0], ordinal);
    OwnershipIntervals(ids, events, ordinal);
    forall i | 0 <= i < |events|
      ensures Overlaps(Fold(ids, st, events[..i]).state, events[i]) <==> TrailOverlaps(TrailOf(events[..i]), events[i])
    {
      FoldFollows(ids, st, events[..i]);
      OverlapsByTrail(Fold(ids, st, events[..i]).state, TrailOf(events[..i]), events[i]);
    }
  }

  /** A mint to `a` followed by a transfer to `a` from somebody else overlaps. */
  lemma HandedAgain(ids: Identities, mint: Event, again: Event, ordinal: nat, a: Address, b: Address)
    requires Before(mint.order, again.order) && IsTransfer(mint) && IsTransfer(again)
    requires a != ZERO_ADDRESS && b != ZERO_ADDRESS && a != b
    requires mint.data.source == Some(ZERO_ADDRESS) && mint.data.target == Some(a)
    requires again.data.source == Some(b) && again.data.target == Some(a)
    ensures !OwnedThroughout(ids, NewState(mint, ordinal), [mint, again])
  {
    hide OwnedThroughout;
    var events := [mint, again];
    assert events[..1] == [mint] && [mint][..0] == [];
    assert TrailOf([mint]) == NextTrail(Trail(None, false), mint) == Trail(Some(a), true);
    assert TrailOverlaps(TrailOf(events[..1]), events[1]);
    OwnershipByEvents(ids, events, ordinal);
  }
}
