/**
 The replay of one position as the accounting book runs it: an object whose state and row
 buffers are updated event by event. Every method is tied to the value semantics of
 `PositionModel`, about which the theorems are proved.
 */
module PositionReplay {
  import opened Common
  import opened PositionModel
  import opened AppendProofs

  /** Buffering a row is appending a write of that row alone. */
  lemma Nothing(w: Writes)
    ensures w.Then(NO_WRITES) == w
  {
  }

  lemma OneEpisode(w: Writes, ep: Episode)
    ensures w.Then(NO_WRITES.WithEpisode(ep)) == w.WithEpisode(ep)
  {
  }

  lemma OneInterval(w: Writes, interval: Interval)
    ensures w.Then(NO_WRITES.WithInterval(interval)) == w.WithInterval(interval)
  {
  }

  lemma IntervalAndEpisode(w: Writes, interval: Interval, ep: Episode)
    ensures w.Then(NO_WRITES.WithInterval(interval).WithEpisode(ep)) == w.WithInterval(interval).WithEpisode(ep)
  {
  }

  class Replayer {
    const ids: Identities
    var state: State
    var episodes: map<nat, Episode>
    var ownership: map<nat, Interval>
    var effects: map<int, EffectRow>

    /** The rows buffered so far. */
    function Written(): Writes
      reads this
    {
      Writes(episodes, ownership, effects)
    }

    constructor (ids: Identities, state: State)
      ensures this.ids == ids && this.state == state && Written() == NO_WRITES
    {
      this.ids, this.state := ids, state;
      episodes, ownership, effects := map[], map[], map[];
    }

    method SaveEpisode(ep: Episode)
      modifies this`episodes
      ensures Written() == old(Written()).WithEpisode(ep)
    {
      episodes := episodes[ep.ordinal := ep];
    }

    method SaveOwnership(interval: Interval)
      modifies this`ownership
      ensures Written() == old(Written()).WithInterval(interval)
    {
      ownership := ownership[interval.ordinal := interval];
    }

    method SaveEffect(id: int, row: EffectRow)
      modifies this`effects
      ensures Written() == old(Written()).WithEffect(id, row)
    {
      effects := effects[id := row];
    }

    method OpenEpisode(e: Event, history: bool, transferred: bool)
      modifies this`state
      ensures state == Opened(ids, old(state), e, history, transferred)
    {
      var episode := NewEpisode(ids, state, e, history, transferred);
      if e.order !in ids {
        state := state.(episodes := state.episodes.(ordinal := state.episodes.ordinal + 1));
      }
      state := state.(episodes := state.episodes.(active := Some(episode)));
    }

    /** End what the transfer ends: the open interval, and the active episode. */
    method Leave(e: Event)
      modifies this`state, this`episodes, this`ownership
      ensures state == LeaveOwner(old(state), e).state
      ensures Written() == old(Written()).Then(LeaveOwner(old(state), e).writes)
    {
      hide Closed, EndedRow, ChangesHands, Burns, NothingPending;
      hide Writes.Then, Writes.WithEpisode, Writes.WithInterval, WithActive, WithSettled;
      var holder, active := state.holder, state.episodes.active;
      ghost var w0 := Written();
      Nothing(w0);
      if active.Some? {
        ghost var status :=
          if ChangesHands(holder.owner, e) then TransferredOut
          else if state.claims.liquidity == Some(0) && NothingPending(state.claims) then Complete
          else NftBurnUnsettled;
        ghost var row := Closed(active.value, e, status, status.Complete?);
        OneEpisode(w0, row);
        if EndsInterval(holder, e) {
          IntervalAndEpisode(w0, EndedRow(holder, e), row);
        }
      }
      if EndsInterval(holder, e) {
        OneInterval(w0, EndedRow(holder, e));
      }
      if EndsInterval(holder, e) {
        SaveOwnership(EndedRow(holder, e));
        state := state.(holder := state.holder.(interval := None));
      }
      if active.Some? {
        if ChangesHands(holder.owner, e) {
          SaveEpisode(Closed(active.value, e, TransferredOut, false));
          state := WithSettled(WithActive(state, None), false);
        } else if Burns(e) {
          if state.claims.liquidity == Some(0) && NothingPending(state.claims) {
            SaveEpisode(Closed(active.value, e, Complete, true));
            state := WithSettled(WithActive(state, None), true);
          } else {
            SaveEpisode(Closed(active.value, e, NftBurnUnsettled, false));
            state := WithSettled(WithActive(state, None), false);
          }
        }
      }
    }

    /** Record the receiver and, for a real transfer of inventory, open an episode for them. */
    method Enter(prior: Holder, e: Event)
      modifies this`state, this`ownership
      ensures state == EnterOwner(ids, old(state), prior, e).state
      ensures Written() == old(Written()).Then(EnterOwner(ids, old(state), prior, e).writes)
    {
      hide OpenInterval, ConfirmsMint, ToSelf, ChangesHands, HasInventory, Opened, TransferTarget, TransferSource;
      hide Writes.Then, Writes.WithInterval;
      ghost var w0 := Written();
      Nothing(w0);
      var target := TransferTarget(e);
      state := state.(holder := state.holder.(owner := target));
      if target.None? {
        return;
      }
      if e.custody.Some? {
        state := state.(holder := state.holder.(custody := e.custody));
      }
      if ConfirmsMint(prior, e) {
        state := WithMinted(state, true, false);
        return;
      }
      if ToSelf(prior, e) {
        state := WithMinted(state, false, state.claims.settled);
        return;
      }
      var minted := TransferSource(e) == Some(ZERO_ADDRESS);
      var interval := OpenInterval(state, e, target.value, if minted then ByMint else ByTransfer, true);
      OneInterval(w0, interval);
      state := state.(holder := state.holder.(ordinal := interval.ordinal, interval := Some(interval)));
      SaveOwnership(interval);
      state := WithMinted(state, minted, state.claims.settled && !minted);
      if ChangesHands(prior.owner, e) && HasInventory(state.claims) {
        OpenEpisode(e, state.episodes.historyComplete, true);
        state := WithSettled(state, false);
      }
    }

    method ProcessTransfer(e: Event)
      modifies this`state, this`episodes, this`ownership
      ensures state == TransferStep(ids, old(state), e).state
      ensures Written() == old(Written()).Then(TransferStep(ids, old(state), e).writes)
    {
      hide LeaveOwner, EnterOwner;
      var prior := state.holder;
      Leave(e);
      label left:
      Enter(prior, e);
      ThenAssociative(old(Written()), LeaveOwner(old(state), e).writes,
                      EnterOwner(ids, old@left(state), prior, e).writes);
    }

    method UpdateIdentity(e: Event)
      modifies this`state, this`ownership
      ensures state == IdentityStep(old(state), e).state
      ensures Written() == old(Written()).Then(IdentityStep(old(state), e).writes)
    {
      hide OpenInterval, Adopt, Conflict, Writes.Then, Writes.WithInterval;
      ghost var w0 := Written();
      Nothing(w0);
      if e.custody.Some? {
        state := state.(holder := state.holder.(custody := e.custody));
      }
      if e.owner.None? {
        return;
      }
      if state.holder.owner.None? {
        state := state.(holder := state.holder.(owner := e.owner));
        state := WithActive(state, Adopt(state.episodes.active, e.owner));
        if state.holder.interval.None? {
          var mint := e.data.verifiedMintAfter;
          var interval := OpenInterval(state, e, e.owner.value, if mint then ByMint else Observed, mint);
          OneInterval(w0, interval);
          state := state.(holder := state.holder.(ordinal := interval.ordinal, interval := Some(interval)));
          SaveOwnership(interval);
        }
      } else if state.holder.owner != e.owner {
        state := WithActive(state, Conflict(state.episodes.active));
      }
    }

    /** Book the liquidity an event proves, and what a proved zero baseline completes. */
    method UpdateLiquidity(e: Event, f: Facts)
      modifies this`state, this`ownership
      ensures state == LiquidityStep(old(state), e, f).state
      ensures Written() == old(Written()).Then(LiquidityStep(old(state), e, f).writes)
    {
      ghost var w0 := Written();
      Nothing(w0);
      hide Writes.Then;
      var claims := state.claims;
      if f.after.Some? {
        claims := claims.(liquidity := f.after);
      } else if f.delta.Some? && f.previous.None? {
        claims := claims.(liquidity := None);
      }
      if f.ZeroProven() {
        state := state.(episodes := state.episodes.(historyComplete := true));
        if state.holder.interval.Some? && state.holder.interval.value.acquired.Observed? {
          var interval := state.holder.interval.value.(complete := true);
          state := state.(holder := state.holder.(interval := Some(interval)));
          SaveOwnership(interval);
          OneInterval(w0, interval);
        }
        if claims.pending.None? {
          claims := claims.(pending := Some(ZERO_PAIR));
        }
        if e.data.verifiedMintAfter {
          claims := claims.(owed := Some(ZERO_PAIR), owedBlock := Some(e.order.block));
        }
      }
      state := state.(claims := claims);
    }

    /** Open the episode an event begins or belongs to, closing one it displaces. */
    method ChooseEpisode(e: Event, f: Facts)
      modifies this`state, this`episodes
      ensures state == EpisodeStep(ids, old(state), e, f).state
      ensures Written() == old(Written()).Then(EpisodeStep(ids, old(state), e, f).writes)
    {
      hide NewEpisode, Begins, Displaced, Ambiguous, SettledPrior, Writes.Then, Writes.WithEpisode;
      ghost var w0 := Written();
      Nothing(w0);
      if state.episodes.active.Some? {
        OneEpisode(w0, Displaced(state.episodes.active.value, e));
      }
      if Begins(state.episodes.active, e, f) {
        var ambiguous := f.zeroLiquidity && !f.priorClaimsEmpty;
        if state.episodes.active.Some? && !SettledPrior(state) {
          ambiguous := true;
          SaveEpisode(Displaced(state.episodes.active.value, e));
        }
        state := WithSettled(state, false);
        OpenEpisode(e, f.ZeroProven() && state.episodes.historyComplete, false);
        if ambiguous {
          state := WithActive(state, Some(Ambiguous(state.episodes.active.value)));
        }
      } else if state.episodes.active.None? && (e.kind.Remove? || e.kind.Collect? || e.kind.Checkpoint?) {
        OpenEpisode(e, false, false);
        state := WithActive(state, Some(state.episodes.active.value.(status := PartialHistory)));
      }
    }

    method BookEffect(e: Event, x: Effect)
      requires x == EffectOf(state, e)
      modifies this`state
      ensures state == Book(old(state), e)
    {
      if state.episodes.active.Some? {
        state := WithActive(state, Some(ApplyEffect(state.episodes.active.value, x, e)));
      }
      UpdateClaims(e, x);
    }

    method UpdateClaims(e: Event, x: Effect)
      modifies this`state
      ensures state == old(state).(claims := ClaimsAfter(old(state).range.protocol, old(state).claims, e, x))
    {
      var claims := state.claims;
      if state.range.protocol.V3? {
        if e.kind.Remove? {
          if e.amount0.Some? && e.amount1.Some? {
            if claims.pending.Some? {
              var released := AbsPair(Pair(e.amount0.value, e.amount1.value));
              claims := claims.(pending := Some(claims.pending.value.Plus(released)));
            }
          } else {
            claims := claims.(pending := None);
          }
        } else if e.kind.Collect? {
          if !x.exact.allocation {
            claims := claims.(pending := None);
          } else if claims.pending.Some? {
            var pending := claims.pending.value;
            claims := claims.(pending := Some(Pair(Max(0, pending.a0 - x.flows.principal.a0),
                                                   Max(0, pending.a1 - x.flows.principal.a1))));
          }
        }
      }
      var owed := StatedOwed(e);
      if owed.Some? {
        claims := claims.(owed := owed, owedBlock := Some(e.order.block));
        if owed.value == ZERO_PAIR && claims.liquidity == Some(0) {
          claims := claims.(pending := Some(ZERO_PAIR));
        }
      }
      state := state.(claims := claims);
    }

    /** Refresh the status of the active episode, and close it once its claims are settled. */
    method CloseEpisode(e: Event)
      modifies this`state, this`episodes
      ensures state == CloseStep(old(state), e).state
      ensures Written() == old(Written()).Then(CloseStep(old(state), e).writes)
    {
      if state.episodes.active.None? {
        return;
      }
      var ep, liquidity := state.episodes.active.value, state.claims.liquidity;
      if e.kind.Remove? && SignedDelta(e) == Some(0) {
        if liquidity.Some? && liquidity.value > 0 {
          state := WithActive(state, Some(ep.(status := Open)));
        }
      } else if liquidity == Some(0) {
        if ClaimsSettled(state.claims, e) {
          SaveEpisode(Settle(ep, e));
          state := WithSettled(WithActive(state, None), true);
        } else {
          state := WithActive(state, Some(Waiting(ep)));
        }
      } else if liquidity.Some? {
        state := WithActive(state, Some(ep.(status := Open)));
      }
    }

    method ProcessEvent(e: Event)
      modifies this
      ensures state == Process(ids, old(state), e).state
      ensures Written() == old(Written()).Then(Process(ids, old(state), e).writes)
    {
      hide TransferStep, IdentityStep, LiquidityStep, EpisodeStep, CloseStep, Book, FactsOf, EffectOf, EffectRowOf;
      hide Observe, Attribution, Writes.Then, Writes.WithEffect;
      ghost var w0 := Written();
      state := Observe(state, e);
      if IsTransfer(e) {
        ProcessTransfer(e);
      } else {
        UpdateIdentity(e);
      }
      ghost var entry := Entry(ids, old(state), e);
      assert state == entry.state && Written() == w0.Then(entry.writes);
      var f := FactsOf(state.claims, e);
      UpdateLiquidity(e, f);
      ghost var liquid := LiquidityStep(entry.state, e, f);
      ChooseEpisode(e, f);
      ghost var episode := EpisodeStep(ids, liquid.state, e, f);
      var x := EffectOf(state, e);
      var attribution := Attribution(state, e);
      BookEffect(e, x);
      ghost var booked := state;
      CloseEpisode(e);
      ghost var closed := CloseStep(booked, e);
      var row := EffectRowOf(state.holder, e, x, attribution);
      SaveEffect(e.id, row);
      state := state.(clock := Clock(state.clock.first, e.order, e.timestamp));
      Regroup(w0, entry.writes, liquid.writes, episode.writes, closed.writes);
      EffectLast(w0, entry.writes.Then(liquid.writes.Then(episode.writes)).Then(closed.writes), e.id, row);
    }

    /** Fold the prepared events into the state, then save the episode left active. */
    method Derive(events: seq<Event>)
      modifies this
      ensures
        var folded := Fold(ids, old(state), Prepared(events));
        Derived(state, Written()) == Sealed(Step(folded.state, old(Written()).Then(folded.writes)))
    {
      hide Process;
      var prepared := PrepareEvents(events);
      ghost var st0, w0 := state, Written();
      var i := 0;
      assert prepared[..0] == [];
      assert w0.Then(NO_WRITES) == w0;
      while i < |prepared|
        invariant 0 <= i <= |prepared|
        invariant state == Fold(ids, st0, prepared[..i]).state
        invariant Written() == w0.Then(Fold(ids, st0, prepared[..i]).writes)
      {
        ghost var prior := Fold(ids, st0, prepared[..i]);
        ProcessEvent(prepared[i]);
        assert prepared[..i + 1][..i] == prepared[..i];
        ThenAssociative(w0, prior.writes, Process(ids, prior.state, prepared[i]).writes);
        i := i + 1;
      }
      assert prepared[..i] == prepared;
      if state.episodes.active.Some? {
        SaveEpisode(state.episodes.active.value);
      }
    }
  }

  /** Writes accumulate in program order, however they are grouped. */
  lemma Regroup(w: Writes, entry: Writes, liquid: Writes, episode: Writes, closed: Writes)
    ensures w.Then(entry).Then(liquid).Then(episode).Then(closed)
         == w.Then(entry.Then(liquid.Then(episode)).Then(closed))
  {
    ThenAssociative(w.Then(entry), liquid, episode);
    ThenAssociative(w, entry, liquid.Then(episode));
    ThenAssociative(w, entry.Then(liquid.Then(episode)), closed);
  }

  lemma EffectLast(w: Writes, rest: Writes, id: int, row: EffectRow)
    ensures w.Then(rest).WithEffect(id, row) == w.Then(rest.WithEffect(id, row))
  {
  }

  // ---------------------------------------------------------------- preparing the events

  datatype TxKey = TxKey(block: int, tx: int, hash: nat)

  function KeyOf(e: Event): TxKey {
    TxKey(e.order.block, e.order.tx, e.txHash)
  }

  ghost predicate FirstAddUpTo(events: seq<Event>, n: nat, first: map<TxKey, nat>)
    requires n <= |events|
  {
    && (forall t :: t in first ==>
          && first[t] < n && KeyOf(events[first[t]]) == t && events[first[t]].kind.Add?
          && forall k :: 0 <= k < first[t] && KeyOf(events[k]) == t ==> !events[k].kind.Add?)
    && (forall k :: 0 <= k < n && events[k].kind.Add? ==> KeyOf(events[k]) in first)
  }

  ghost predicate LastCollectUpTo(events: seq<Event>, n: nat, last: map<TxKey, nat>)
    requires n <= |events|
  {
    && (forall t :: t in last ==>
          && last[t] < n && KeyOf(events[last[t]]) == t && events[last[t]].kind.Collect?
          && forall k :: last[t] < k < n && KeyOf(events[k]) == t ==> !events[k].kind.Collect?)
    && (forall k :: 0 <= k < n && events[k].kind.Collect? ==> KeyOf(events[k]) in last)
  }

  /** `MintFollows` and `BurnFollows` restricted to transfers before index `n`. */
  ghost predicate MintSeen(events: seq<Event>, i: nat, n: nat)
    requires i < |events| && n <= |events|
  {
    && events[i].kind.Add?
    && (forall k :: 0 <= k < i && SameTx(events[k], events[i]) ==> !events[k].kind.Add?)
    && exists j :: i < j < n && SameTx(events[j], events[i]) && events[j].kind.Transfer? && events[j].data.mint
  }

  ghost predicate BurnSeen(events: seq<Event>, i: nat, n: nat)
    requires i < |events| && n <= |events|
  {
    && events[i].kind.Collect?
    && exists j :: i < j < n && SameTx(events[j], events[i]) && events[j].kind.Transfer? && events[j].data.burn
                   && forall k :: i < k < j && SameTx(events[k], events[i]) ==> !events[k].kind.Collect?
  }

  function MarkMint(e: Event): Event {
    e.(data := e.data.(verifiedMintAfter := true))
  }

  function MarkBurn(e: Event): Event {
    e.(data := e.data.(verifiedBurnAfter := true))
  }

  ghost function MarkedAt(events: seq<Event>, i: nat, n: nat): Event
    requires i < |events| && n <= |events|
  {
    var e0 := if MintSeen(events, i, n) then MarkMint(events[i]) else events[i];
    if BurnSeen(events, i, n) then MarkBurn(e0) else e0
  }

  lemma MintStep(events: seq<Event>, first: map<TxKey, nat>, i: nat, n: nat)
    requires n < |events| && i < |events|
    requires FirstAddUpTo(events, n, first)
    ensures
      var e := events[n];
      var hits := e.kind.Transfer? && e.data.mint && KeyOf(e) in first && first[KeyOf(e)] == i;
      MintSeen(events, i, n + 1) <==> MintSeen(events, i, n) || hits
  {
    var e := events[n];
    if MintSeen(events, i, n + 1) && !MintSeen(events, i, n) {
      assert SameTx(e, events[i]) && e.kind.Transfer? && e.data.mint;
      assert KeyOf(events[i]) in first;
      assert !(first[KeyOf(events[i])] < i) by {
        assert SameTx(events[first[KeyOf(events[i])]], events[i]);
      }
    }
    if e.kind.Transfer? && e.data.mint && KeyOf(e) in first && first[KeyOf(e)] == i {
      assert SameTx(events[n], events[i]);
      assert forall k :: 0 <= k < i && SameTx(events[k], events[i]) ==> KeyOf(events[k]) == KeyOf(e);
    }
    if MintSeen(events, i, n) {
      var j :| i < j < n && SameTx(events[j], events[i]) && events[j].kind.Transfer? && events[j].data.mint;
      assert i < j < n + 1;
    }
  }

  lemma BurnStep(events: seq<Event>, last: map<TxKey, nat>, i: nat, n: nat)
    requires n < |events| && i < |events|
    requires LastCollectUpTo(events, n, last)
    ensures
      var e := events[n];
      var hits := e.kind.Transfer? && e.data.burn && KeyOf(e) in last && last[KeyOf(e)] == i;
      BurnSeen(events, i, n + 1) <==> BurnSeen(events, i, n) || hits
  {
    var e := events[n];
    if BurnSeen(events, i, n + 1) && !BurnSeen(events, i, n) {
      assert SameTx(e, events[i]) && e.kind.Transfer? && e.data.burn;
      assert KeyOf(events[i]) in last;
      var k := last[KeyOf(events[i])];
      assert !(i < k) by {
        assert SameTx(events[k], events[i]);
      }
    }
    if e.kind.Transfer? && e.data.burn && KeyOf(e) in last && last[KeyOf(e)] == i {
      assert SameTx(events[n], events[i]);
      assert forall k :: i < k < n && SameTx(events[k], events[i]) ==> KeyOf(events[k]) == KeyOf(e);
    }
  }

  /** Pinned events of one block, as indices in increasing order. */
  ghost predicate PinsUpTo(events: seq<Event>, n: nat, pins: map<int, seq<nat>>)
    requires n <= |events|
  {
    && (forall b :: b in pins ==>
          && |pins[b]| > 0
          && (forall x :: 0 <= x < |pins[b]| ==>
                pins[b][x] < n && events[pins[b][x]].order.block == b && Pinned(events[pins[b][x]]))
          && (forall x, y :: 0 <= x < y < |pins[b]| ==> pins[b][x] < pins[b][y]))
    && (forall k :: 0 <= k < n && Pinned(events[k]) ==>
          events[k].order.block in pins && k in pins[events[k].order.block])
  }

  lemma PinEdges(events: seq<Event>, pins: map<int, seq<nat>>, i: nat)
    requires i < |events| && PinsUpTo(events, |events|, pins)
    ensures
      var b := events[i].order.block;
      b !in pins ==> FirstPinned(events, i) && LastPinned(events, i) && !Pinned(events[i])
    ensures
      var b := events[i].order.block;
      b in pins && Pinned(events[i]) ==>
        && (FirstPinned(events, i) <==> i == pins[b][0])
        && (LastPinned(events, i) <==> i == pins[b][|pins[b]| - 1])
    ensures
      var b := events[i].order.block;
      b in pins && !Pinned(events[i]) ==> i != pins[b][0] && i != pins[b][|pins[b]| - 1]
  {
    var b := events[i].order.block;
    if b in pins {
      var p := pins[b];
      assert forall k :: 0 <= k < |events| && events[k].order.block == b && Pinned(events[k]) ==> k in p;
      if Pinned(events[i]) {
        var x :| 0 <= x < |p| && p[x] == i;
        assert x > 0 ==> p[0] < i && Pinned(events[p[0]]) && events[p[0]].order.block == b;
        assert x < |p| - 1 ==> p[|p| - 1] > i && Pinned(events[p[|p| - 1]]) && events[p[|p| - 1]].order.block == b;
      }
    }
  }

  /** What reading one more event does to the marks on event `i`. */
  ghost function Remark(m: Event, e: Event, first: map<TxKey, nat>, last: map<TxKey, nat>, i: nat): Event {
    var m0 := if e.kind.Transfer? && e.data.mint && KeyOf(e) in first && first[KeyOf(e)] == i then MarkMint(m) else m;
    if e.kind.Transfer? && e.data.burn && KeyOf(e) in last && last[KeyOf(e)] == i then MarkBurn(m0) else m0
  }

  lemma MarkedStep(events: seq<Event>, first: map<TxKey, nat>, last: map<TxKey, nat>, i: nat, n: nat)
    requires n < |events| && i < |events|
    requires FirstAddUpTo(events, n, first) && LastCollectUpTo(events, n, last)
    ensures MarkedAt(events, i, n + 1) == Remark(MarkedAt(events, i, n), events[n], first, last, i)
  {
    MintStep(events, first, i, n);
    BurnStep(events, last, i, n);
    hide MintSeen, BurnSeen, FirstAddUpTo, LastCollectUpTo;
  }

  lemma FirstStep(events: seq<Event>, first: map<TxKey, nat>, n: nat)
    requires n < |events| && FirstAddUpTo(events, n, first)
    ensures
      var t := KeyOf(events[n]);
      FirstAddUpTo(events, n + 1, if events[n].kind.Add? && t !in first then first[t := n] else first)
  {
  }

  lemma LastStep(events: seq<Event>, last: map<TxKey, nat>, n: nat)
    requires n < |events| && LastCollectUpTo(events, n, last)
    ensures LastCollectUpTo(events, n + 1, if events[n].kind.Collect? then last[KeyOf(events[n]) := n] else last)
  {
  }

  lemma MarkedStart(events: seq<Event>, i: nat)
    requires i < |events|
    ensures MarkedAt(events, i, 0) == events[i]
  {
  }

  /** Event `i` with both marks set from the whole run. */
  ghost function FullyMarked(events: seq<Event>, i: nat): Event
    requires i < |events|
  {
    events[i].(data := events[i].data.(
                 verifiedMintAfter := events[i].data.verifiedMintAfter || MintFollows(events, i),
                 verifiedBurnAfter := events[i].data.verifiedBurnAfter || BurnFollows(events, i)))
  }

  lemma MarkedEnd(events: seq<Event>, i: nat)
    requires i < |events|
    ensures MarkedAt(events, i, |events|) == FullyMarked(events, i)
  {
    assert MintSeen(events, i, |events|) == MintFollows(events, i);
    assert BurnSeen(events, i, |events|) == BurnFollows(events, i);
    hide MintSeen, BurnSeen, MintFollows, BurnFollows;
  }

  /** Token mints mark the first add of their transaction, burns the latest collect. */
  method MarkEvents(events: seq<Event>) returns (marked: seq<Event>)
    ensures |marked| == |events|
    ensures forall k :: 0 <= k < |events| ==> marked[k] == FullyMarked(events, k)
  {
    hide MarkedAt, FullyMarked, FirstAddUpTo, LastCollectUpTo, MarkMint, MarkBurn, KeyOf;
    var first: map<TxKey, nat>, last: map<TxKey, nat> := map[], map[];
    marked := events;
    assert FirstAddUpTo(events, 0, first) && LastCollectUpTo(events, 0, last) by {
      NoneSeen(events);
    }
    forall k | 0 <= k < |events|
      ensures marked[k] == MarkedAt(events, k, 0)
    {
      MarkedStart(events, k);
    }
    var n := 0;
    while n < |events|
      invariant 0 <= n <= |events| == |marked|
      invariant FirstAddUpTo(events, n, first)
      invariant LastCollectUpTo(events, n, last)
      invariant forall k :: 0 <= k < |events| ==> marked[k] == MarkedAt(events, k, n)
      invariant forall t :: t in first ==> first[t] < n
      invariant forall t :: t in last ==> last[t] < n
    {
      var e := events[n];
      var t := KeyOf(e);
      forall k | 0 <= k < |events|
        ensures MarkedAt(events, k, n + 1) == Remark(MarkedAt(events, k, n), e, first, last, k)
      {
        MarkedStep(events, first, last, k, n);
      }
      FirstStep(events, first, n);
      LastStep(events, last, n);
      if e.kind.Add? {
        if t !in first {
          first := first[t := n];
        }
      } else if e.kind.Collect? {
        last := last[t := n];
      } else if e.kind.Transfer? {
        if e.data.mint && t in first {
          marked := marked[first[t] := MarkMint(marked[first[t]])];
        }
        if e.data.burn && t in last {
          marked := marked[last[t] := MarkBurn(marked[last[t]])];
        }
      }
      n := n + 1;
    }
    forall k | 0 <= k < |events|
      ensures marked[k] == FullyMarked(events, k)
    {
      MarkedEnd(events, k);
    }
  }

  lemma NoneSeen(events: seq<Event>)
    ensures FirstAddUpTo(events, 0, map[]) && LastCollectUpTo(events, 0, map[])
  {
  }

  method IndexPins(events: seq<Event>) returns (pins: map<int, seq<nat>>)
    ensures PinsUpTo(events, |events|, pins)
  {
    pins := map[];
    var i := 0;
    while i < |events|
      invariant 0 <= i <= |events|
      invariant PinsUpTo(events, i, pins)
    {
      if Pinned(events[i]) {
        var b := events[i].order.block;
        var prior := if b in pins then pins[b] else [];
        PinsStep(events, i, pins);
        pins := pins[b := prior + [i]];
      }
      i := i + 1;
    }
  }

  lemma PinsStep(events: seq<Event>, n: nat, pins: map<int, seq<nat>>)
    requires n < |events| && PinsUpTo(events, n, pins) && Pinned(events[n])
    ensures
      var b := events[n].order.block;
      PinsUpTo(events, n + 1, pins[b := (if b in pins then pins[b] else []) + [n]])
  {
    var b := events[n].order.block;
    var prior := if b in pins then pins[b] else [];
    var pins' := pins[b := prior + [n]];
    forall k | 0 <= k < n + 1 && Pinned(events[k])
      ensures events[k].order.block in pins' && k in pins'[events[k].order.block]
    {
      if k < n && events[k].order.block == b {
        assert k in prior;
      }
    }
  }

  /** The events of a derivation with their marks set and their inner pins removed. */
  method PrepareEvents(events: seq<Event>) returns (prepared: seq<Event>)
    ensures prepared == Prepared(events)
  {
    var pins := IndexPins(events);
    var marked := MarkEvents(events);
    prepared := [];
    var i := 0;
    hide PreparedAt, FullyMarked, PinsUpTo;
    while i < |events|
      invariant 0 <= i <= |events| == |marked|
      invariant |prepared| == i
      invariant forall k :: 0 <= k < i ==> prepared[k] == PreparedAt(events, k)
    {
      PinnedBlock(events, pins, marked[i].order.block);
      StripIsPrepared(events, pins, marked[i], i);
      prepared := prepared + [Strip(pins, marked[i], i)];
      i := i + 1;
    }
  }

  /** A pinned snapshot stays only on the first or the last pinned event of its block. */
  function Strip(pins: map<int, seq<nat>>, e: Event, i: nat): Event
    requires e.order.block in pins ==> |pins[e.order.block]| > 0
  {
    var b := e.order.block;
    var e0 := if b in pins && i != pins[b][0] then e.(data := e.data.(before := None)) else e;
    if b in pins && i != pins[b][|pins[b]| - 1] then e0.(data := e0.data.(after := None)) else e0
  }

  lemma StripIsPrepared(events: seq<Event>, pins: map<int, seq<nat>>, e: Event, i: nat)
    requires i < |events| && PinsUpTo(events, |events|, pins) && e == FullyMarked(events, i)
    requires e.order.block in pins ==> |pins[e.order.block]| > 0
    ensures Strip(pins, e, i) == PreparedAt(events, i)
  {
    PinEdges(events, pins, i);
    hide MintFollows, BurnFollows, FirstPinned, LastPinned, PinsUpTo;
  }

  lemma PinnedBlock(events: seq<Event>, pins: map<int, seq<nat>>, b: int)
    requires PinsUpTo(events, |events|, pins)
    ensures b in pins ==> |pins[b]| > 0
  {
  }
}
